/**
 The list loops of the stack allocator (coro.c:324-412) as one thread runs them:
 its cache, the depot, and the counters kept beside the lists.
 */
module StackLists {
  import opened Options

  const REFILL_BATCH: nat := 32

  /** A pooled stack's header. */
  datatype Stack = Stack(id: nat, size: nat)

  function Reversed<T>(q: seq<T>): (r: seq<T>)
    ensures |r| == |q|
  {
    if q == [] then [] else Reversed(q[1..]) + [q[0]]
  }

  lemma {:induction false} ReversedAppend<T>(q: seq<T>, x: T)
    ensures Reversed(q + [x]) == [x] + Reversed(q)
  {
    if q == [] {
      assert q + [x] == [x] && [x][1..] == [];
      assert Reversed([x]) == Reversed([x][1..]) + [x];
    } else {
      assert (q + [x])[1..] == q[1..] + [x];
      ReversedAppend(q[1..], x);
    }
  }

  function Min(a: int, b: int): int { if a < b then a else b }

  /** From the top of the depot: the stacks of this size, at most `room`; those of
      other sizes met on the way; what is left. */
  function RefillOf(depot: seq<Stack>, size: nat, room: nat): (r: (seq<Stack>, seq<Stack>, seq<Stack>)) {
    if room == 0 || depot == [] then ([], [], depot)
    else if depot[0].size != size then
      var (m, d, r) := RefillOf(depot[1..], size, room); (m, [depot[0]] + d, r)
    else
      var (m, d, r) := RefillOf(depot[1..], size, room - 1); ([depot[0]] + m, d, r)
  }

  /** A refill loses nothing: what left the depot was cached or unmapped, by size,
      and it stops at 32 or when the depot is empty. */
  lemma {:induction false} RefillConserves(depot: seq<Stack>, size: nat, room: nat)
    ensures var (m, d, r) := RefillOf(depot, size, room);
            && multiset(m) + multiset(d) + multiset(r) == multiset(depot)
            && (forall x | x in m :: x.size == size) && (forall x | x in d :: x.size != size)
            && |m| <= room && (|m| < room ==> r == [])
    decreases |depot|
  {
    if room == 0 || depot == [] {
    } else {
      assert depot == [depot[0]] + depot[1..];
      RefillConserves(depot[1..], size, if depot[0].size != size then room else room - 1);
    }
  }

  /** Pushing these onto the depot while it is below the cap: the depot, and the
      ones that found no room. */
  function FlushOf<T>(moved: seq<T>, depot: seq<T>, cap: int): (r: (seq<T>, seq<T>)) {
    if moved == [] then (depot, [])
    else if |depot| < cap then FlushOf(moved[1..], [moved[0]] + depot, cap)
    else
      var (r, d) := FlushOf(moved[1..], depot, cap); (r, [moved[0]] + d)
  }

  /** The first of them go in, newest last, as many as the cap leaves room for;
      the rest are unmapped; the depot is not raised above the cap. */
  lemma {:induction false} FlushBounded<T>(moved: seq<T>, depot: seq<T>, cap: int)
    ensures var room := Min(|moved|, if cap > |depot| then cap - |depot| else 0);
            && FlushOf(moved, depot, cap).0 == Reversed(moved[..room]) + depot && FlushOf(moved, depot, cap).1 == moved[room..]
            && |FlushOf(moved, depot, cap).0| <= (if |depot| > cap then |depot| else cap)
    decreases |moved|
  {
    var room := Min(|moved|, if cap > |depot| then cap - |depot| else 0);
    if moved == [] {
    } else if |depot| < cap {
      FlushBounded(moved[1..], [moved[0]] + depot, cap);
      assert moved[1..][..room - 1] == moved[..room][1..] && moved[1..][room - 1..] == moved[room..];
      assert Reversed(moved[..room]) == Reversed(moved[..room][1..]) + [moved[0]];
    } else {
      FlushBounded(moved[1..], depot, cap);
      assert moved[1..][0..] == moved[1..] && moved[0..] == moved && moved[..0] == moved[1..][..0] == [];
    }
  }

  /** One thread's cache and the depot, with the counters the source keeps beside
      its lists; `unmapped` records what was given back to the system. */
  class Pools {
    var cache: seq<Stack>
    var cacheN: int
    var depot: seq<Stack>
    var depotN: int
    var unmapped: seq<Stack>

    ghost predicate Valid()
      reads this
    {
      cacheN == |cache| && depotN == |depot|
    }

    constructor ()
      ensures Valid() && cache == [] && depot == [] && unmapped == []
    {
      cache, cacheN, depot, depotN, unmapped := [], 0, [], 0, [];
    }

    /** `runloom_stack_pop_local`: the first stack of this size, every other one
        before it unmapped; none only from a cache left empty. */
    method PopLocal(size: nat) returns (got: Option<Stack>)
      requires Valid()
      modifies this`cache, this`cacheN, this`unmapped
      ensures Valid()
      ensures exists k: nat ::
                && k <= |old(cache)| && unmapped == old(unmapped) + old(cache)[..k]
                && (forall i | 0 <= i < k :: old(cache)[i].size != size)
                && (if k < |old(cache)| then old(cache)[k].size == size && got == Some(old(cache)[k]) && cache == old(cache)[k + 1..]
                    else got.None? && cache == [])
    {
      ghost var k := 0;
      while cache != [] && cache[0].size != size
        invariant Valid() && k <= |old(cache)| && cache == old(cache)[k..] && unmapped == old(unmapped) + old(cache)[..k]
        invariant forall i | 0 <= i < k :: old(cache)[i].size != size
        decreases |cache|
      {
        cacheN := cacheN - 1;
        unmapped := unmapped + [cache[0]];
        cache := cache[1..];
        k := k + 1;
      }
      if cache == [] { return None; }
      got := Some(cache[0]);
      cache := cache[1..];
      cacheN := cacheN - 1;
    }

    /** `runloom_stack_refill_from_global`. */
    method Refill(size: nat) returns (moved: seq<Stack>, dropped: seq<Stack>)
      requires Valid()
      modifies this
      ensures var all := RefillOf(old(depot), size, REFILL_BATCH);
              Valid() && moved == all.0 && dropped == all.1 && depot == all.2
      ensures cache == Reversed(moved) + old(cache) && unmapped == old(unmapped) + dropped
    {
      moved, dropped := [], [];
      while |moved| < REFILL_BATCH && depot != []
        invariant Valid() && |moved| <= REFILL_BATCH
        invariant var (rest, all) := (RefillOf(depot, size, REFILL_BATCH - |moved|), RefillOf(old(depot), size, REFILL_BATCH));
                  moved + rest.0 == all.0 && dropped + rest.1 == all.1 && rest.2 == all.2
        invariant cache == Reversed(moved) + old(cache) && unmapped == old(unmapped) + dropped
        decreases |depot|
      {
        var g := depot[0];
        depot := depot[1..];
        depotN := depotN - 1;
        if g.size != size {
          unmapped := unmapped + [g];
          dropped := dropped + [g];
        } else {
          ReversedAppend(moved, g);
          cache := [g] + cache;
          cacheN := cacheN + 1;
          moved := moved + [g];
        }
      }
    }

    /** `runloom_stack_flush_to_global`: the cache keeps its newest `keep`. */
    method Flush(keep: int, cap: int)
      requires Valid()
      modifies this
      ensures Valid()
      ensures var kept := Min(|old(cache)|, if keep < 0 then 0 else keep);
              && cache == old(cache)[..kept]
              && depot == FlushOf(old(cache)[kept..], old(depot), cap).0
              && unmapped == old(unmapped) + FlushOf(old(cache)[kept..], old(depot), cap).1
    {
      var n := if keep < 0 then 0 else keep;
      if cacheN <= n {
        assert cache[|cache|..] == [];
        return;
      }
      var move := cache[n..];
      cache := cache[..n];
      cacheN := n;
      ghost var dropped: seq<Stack> := [];
      while move != []
        invariant Valid() && cache == old(cache)[..n] && unmapped == old(unmapped) + dropped
        invariant var (rest, all) := (FlushOf(move, depot, cap), FlushOf(old(cache)[n..], old(depot), cap));
                  rest.0 == all.0 && dropped + rest.1 == all.1
        decreases |move|
      {
        if depotN < cap {
          depot := [move[0]] + depot;
          depotN := depotN + 1;
        } else {
          unmapped := unmapped + [move[0]];
          dropped := dropped + [move[0]];
        }
        move := move[1..];
      }
    }
  }
}
