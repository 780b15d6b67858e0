/**
 The stack arena (coro.c:425-666, 766-793): one bump-allocated mapping per size
 class, with a cursor that rewinds on a last-in-first-out free and resets when the
 class drains.  Allocation and freeing run under one lock; a class's mapping,
 once there, stays.
 */
module Arena {
  import opened Options

  /** 8 sizes by 8 NUMA nodes. */
  const TABLE: nat := 64

  /** A class: base, slot size (guard + stack), slots reserved, bump cursor, live
      count, node. */
  datatype Class = Unused | Mapped(base: nat, slot: nat, cap: nat, next: nat, live: nat, node: nat)

  /** `taken` is history: the slots of each class that are in use. */
  datatype Arena = Arena(classes: seq<Class>, taken: seq<set<nat>>)

  datatype Region = Region(base: nat, cap: nat)

  // ------------------------------------------- the operations, as functions

  predicate IsKey(c: Class, slot: nat, node: nat) { c.Mapped? && c.slot == slot && c.node == node }

  /** The first class from i on with this key, or the number of classes. */
  function Find(cs: seq<Class>, slot: nat, node: nat, i: nat): (r: nat)
    requires i <= |cs|
    ensures i <= r <= |cs| && (r < |cs| ==> IsKey(cs[r], slot, node))
    ensures forall k | i <= k < r :: !IsKey(cs[k], slot, node)
    decreases |cs| - i
  {
    if i == |cs| || IsKey(cs[i], slot, node) then i else Find(cs, slot, node, i + 1)
  }

  function FirstUnused(cs: seq<Class>, i: nat): (r: nat)
    requires i <= |cs|
    ensures i <= r <= |cs| && (r < |cs| ==> cs[r].Unused?) && forall k | i <= k < r :: !cs[k].Unused?
    decreases |cs| - i
  {
    if i == |cs| || cs[i].Unused? then i else FirstUnused(cs, i + 1)
  }

  function Range(start: nat, n: nat): (r: set<nat>)
    ensures |r| == n && forall i: nat :: i in r <==> start <= i < start + n
  {
    if n == 0 then {} else Range(start, n - 1) + {start + n - 1}
  }

  /** `runloom_arena_class_for_locked`: the class of this key, mapping a new one
      into the first free entry; none if the table is full or the map fails. */
  function ClassFor(a: Arena, slot: nat, node: nat, mapped: Option<Region>): (r: (Arena, Option<nat>))
    requires |a.taken| == |a.classes|
    ensures |r.0.taken| == |r.0.classes| == |a.classes|
    ensures r.1.Some? ==> r.1.value < |a.classes| && IsKey(r.0.classes[r.1.value], slot, node)
  {
    var i := Find(a.classes, slot, node, 0);
    if i < |a.classes| then (a, Some(i))
    else
      var k := FirstUnused(a.classes, 0);
      if k == |a.classes| || mapped.None? then (a, None)
      else (Arena(a.classes[k := Mapped(mapped.value.base, slot, mapped.value.cap, 0, 0, node)], a.taken[k := {}]), Some(k))
  }

  /** Move class i's cursor over n slots, if it has them left. */
  function Bump(a: Arena, i: nat, n: nat): (r: (Arena, Option<(nat, nat)>))
    requires |a.taken| == |a.classes| && i < |a.classes| && a.classes[i].Mapped?
  {
    var c := a.classes[i];
    if c.next + n > c.cap then (a, None)
    else
      (Arena(a.classes[i := c.(next := c.next + n, live := c.live + n)], a.taken[i := a.taken[i] + Range(c.next, n)]),
       Some((i, c.next)))
  }

  /** `runloom_arena_alloc`: the class and first slot of n reserved slots. */
  function Alloc(a: Arena, n: nat, slot: nat, node: nat, mapped: Option<Region>): (r: (Arena, Option<(nat, nat)>))
    requires |a.taken| == |a.classes|
  {
    var (a1, i) := ClassFor(a, slot, node, mapped);
    if i.None? then (a1, None) else Bump(a1, i.value, n)
  }

  function Freed(c: Class, start: nat, n: nat): Class
    requires c.Mapped?
  {
    var live := if c.live >= n then c.live - n else c.live;
    c.(live := live, next := if live == 0 then 0 else if start + n == c.next then start else c.next)
  }

  /** `runloom_arena_free`. */
  function Free(a: Arena, start: nat, n: nat, slot: nat, node: nat): Arena
    requires |a.taken| == |a.classes|
  {
    var i := Find(a.classes, slot, node, 0);
    if i == |a.classes| then a
    else Arena(a.classes[i := Freed(a.classes[i], start, n)], a.taken[i := a.taken[i] - Range(start, n)])
  }

  predicate Covers(c: Class, p: nat) { c.Mapped? && c.base <= p < c.base + c.cap * c.slot }

  /** `runloom_arena_class_of_ptr`: the first class from i on whose mapping holds
      the pointer. */
  function ClassOf(cs: seq<Class>, p: nat, i: nat): (r: nat)
    requires i <= |cs|
    ensures i <= r <= |cs| && (r < |cs| ==> Covers(cs[r], p)) && forall k | i <= k < r :: !Covers(cs[k], p)
    decreases |cs| - i
  {
    if i == |cs| || Covers(cs[i], p) then i else ClassOf(cs, p, i + 1)
  }

  /** The usable base of a slot: past the guard. */
  function Usable(c: Class, start: nat, guard: nat): nat
    requires c.Mapped?
  {
    c.base + start * c.slot + guard
  }

  /** The slot index release computes from a pointer. */
  function SlotOf(c: Class, p: nat, guard: nat): nat
    requires c.Mapped? && c.slot > 0 && c.base + guard <= p
  {
    (p - guard - c.base) / c.slot
  }

  // ------------------------------------------------------------- invariant

  predicate ClassInv(c: Class, taken: set<nat>) {
    if c.Unused? then taken == {}
    else
      && c.slot > 0 && c.next <= c.cap && c.live == |taken| && (c.live == 0 ==> c.next == 0)
      && forall i | i in taken :: i < c.next
  }

  predicate Apart(c: Class, base: nat, size: nat) {
    c.Mapped? ==> c.base + c.cap * c.slot <= base || base + size <= c.base
  }

  predicate Inv(a: Arena) {
    && |a.taken| == |a.classes| && (forall i | 0 <= i < |a.classes| :: ClassInv(a.classes[i], a.taken[i]))
    && (forall i, j | 0 <= i < j < |a.classes| && a.classes[j].Mapped? ::
          && Apart(a.classes[i], a.classes[j].base, a.classes[j].cap * a.classes[j].slot)
          && !IsKey(a.classes[i], a.classes[j].slot, a.classes[j].node))
  }

  /** What the system promises of a new mapping. */
  predicate Fresh(a: Arena, mapped: Option<Region>, slot: nat) {
    mapped.Some? ==> forall i | 0 <= i < |a.classes| :: Apart(a.classes[i], mapped.value.base, mapped.value.cap * slot)
  }

  lemma ClassForKeepsInv(a: Arena, slot: nat, node: nat, mapped: Option<Region>)
    requires Inv(a) && slot > 0 && Fresh(a, mapped, slot)
    ensures var (a1, i) := ClassFor(a, slot, node, mapped);
            && Inv(a1) && a1.taken == a.taken && |a1.classes| == |a.classes|
            && (i.Some? ==> i.value < |a1.classes| && IsKey(a1.classes[i.value], slot, node))
  {
    var k := FirstUnused(a.classes, 0);
    if k < |a.classes| { assert ClassInv(a.classes[k], a.taken[k]); }
  }

  /** A change of cursor and count within class i. */
  lemma ClassStep(a: Arena, i: nat, c: Class, taken: set<nat>)
    requires Inv(a) && i < |a.classes| && a.classes[i].Mapped? && c.Mapped? && ClassInv(c, taken)
    requires c == a.classes[i].(next := c.next, live := c.live)
    ensures Inv(Arena(a.classes[i := c], a.taken[i := taken]))
  {
  }

  /** Bumping the cursor of class i hands out slots nobody has. */
  lemma BumpKeepsInv(a: Arena, i: nat, n: nat)
    requires Inv(a) && i < |a.classes| && a.classes[i].Mapped? && n > 0
    ensures var (a', got) := Bump(a, i, n);
            && Inv(a')
            && (got.Some? ==>
                  var start := got.value.1;
                  && got.value.0 == i < |a'.classes| && a'.classes[i].Mapped? && start + n <= a'.classes[i].cap
                  && a'.classes[i].slot == a.classes[i].slot && a'.classes[i].node == a.classes[i].node
                  && Range(start, n) <= a'.taken[i] && Range(start, n) !! a.taken[i])
  {
    var c := a.classes[i];
    assert ClassInv(c, a.taken[i]);
    if c.next + n <= c.cap {
      var taken := a.taken[i] + Range(c.next, n);
      assert |taken| == c.live + n;
      ClassStep(a, i, c.(next := c.next + n, live := c.live + n), taken);
    }
  }

  /** Alloc hands out slots nobody has, and keeps the invariant. */
  lemma AllocKeepsInv(a: Arena, n: nat, slot: nat, node: nat, mapped: Option<Region>)
    requires Inv(a) && slot > 0 && n > 0 && Fresh(a, mapped, slot)
    ensures Inv(Alloc(a, n, slot, node, mapped).0)
    ensures var (a', got) := Alloc(a, n, slot, node, mapped);
            got.Some? ==>
              var (i, start) := got.value;
              && i < |a'.classes| && IsKey(a'.classes[i], slot, node) && start + n <= a'.classes[i].cap
              && i < |a'.taken| && Range(start, n) <= a'.taken[i] && i < |a.taken| && Range(start, n) !! a.taken[i]
  {
    ClassForKeepsInv(a, slot, node, mapped);
    var (a1, i) := ClassFor(a, slot, node, mapped);
    if i.Some? { BumpKeepsInv(a1, i.value, n); }
  }

  /** Alloc succeeds exactly if the class has room left, or, where there is no class yet,
      if there is an entry for one and a mapping with room. */
  lemma AllocSucceedsIff(a: Arena, n: nat, slot: nat, node: nat, mapped: Option<Region>)
    requires Inv(a)
    ensures var got := Alloc(a, n, slot, node, mapped).1;
            && (forall i | 0 <= i < |a.classes| && IsKey(a.classes[i], slot, node) ::
                  got.Some? <==> a.classes[i].next + n <= a.classes[i].cap)
            && ((forall i | 0 <= i < |a.classes| :: !IsKey(a.classes[i], slot, node)) ==>
                  (got.Some? <==>
                     mapped.Some? && n <= mapped.value.cap && exists i :: 0 <= i < |a.classes| && a.classes[i].Unused?))
  {
    forall i | 0 <= i < |a.classes| && IsKey(a.classes[i], slot, node) ensures Find(a.classes, slot, node, 0) == i {
      FindIs(a.classes, i);
    }
  }

  /** Freeing what was last allocated undoes the allocation, so stacks spawned and
      released in turn use the same addresses again. */
  lemma FreeUndoesAlloc(a: Arena, n: nat, slot: nat, node: nat, mapped: Option<Region>)
    requires Inv(a) && slot > 0 && n > 0 && Fresh(a, mapped, slot)
    ensures var (a', got) := Alloc(a, n, slot, node, mapped);
            got.Some? ==> Free(a', got.value.1, n, slot, node) == ClassFor(a, slot, node, mapped).0
  {
    ClassForKeepsInv(a, slot, node, mapped);
    AllocKeepsInv(a, n, slot, node, mapped);
    var (a1, k) := ClassFor(a, slot, node, mapped);
    var (a', got) := Alloc(a, n, slot, node, mapped);
    if got.Some? {
      var (i, start) := got.value;
      assert ClassInv(a1.classes[i], a1.taken[i]);
      FindIs(a'.classes, i);
      assert a'.classes[i := a1.classes[i]] == a1.classes;
      assert a1.taken[i] + Range(start, n) - Range(start, n) == a1.taken[i];
      assert a'.taken[i := a1.taken[i]] == a1.taken;
    }
  }

  /** A free in any order takes exactly the freed slots out of use; whether it
      rewinds, resets or leaves the cursor, no slot still in use is past it. */
  lemma FreeKeepsInv(a: Arena, start: nat, n: nat, i: nat)
    requires Inv(a) && i < |a.classes| && a.classes[i].Mapped? && n > 0 && Range(start, n) <= a.taken[i]
    ensures var a' := Free(a, start, n, a.classes[i].slot, a.classes[i].node);
            && Inv(a') && a'.classes[i].Mapped? && a'.classes[i].live == a.classes[i].live - n
            && a'.taken == a.taken[i := a.taken[i] - Range(start, n)]
  {
    var c := a.classes[i];
    FindIs(a.classes, i);
    var taken := a.taken[i] - Range(start, n);
    assert |taken| == |a.taken[i]| - n by { assert a.taken[i] == taken + Range(start, n) && taken !! Range(start, n); }
    if start + n == c.next {
      forall k | k in taken ensures k < start { assert k in a.taken[i] && k !in Range(start, n); }
    }
    if |taken| == 0 { assert taken == {}; }
    ClassStep(a, i, Freed(c, start, n), taken);
  }

  lemma FindIs(cs: seq<Class>, i: nat)
    requires i < |cs| && cs[i].Mapped?
    requires forall k | 0 <= k < |cs| && k != i :: !IsKey(cs[k], cs[i].slot, cs[i].node)
    ensures Find(cs, cs[i].slot, cs[i].node, 0) == i
  {
  }

  // ------------------------------------------------------ addresses and runs

  lemma MulMono(a: nat, b: nat, k: nat)
    requires a <= b
    ensures a * k <= b * k
  {
  }

  /** A slot in use lies inside its class's mapping. */
  lemma SlotInside(c: Class, taken: set<nat>, x: nat, guard: nat)
    requires c.Mapped? && ClassInv(c, taken) && x in taken && guard < c.slot
    ensures c.base <= Usable(c, x, guard) && Usable(c, x, guard) + (c.slot - guard) <= c.base + c.cap * c.slot
    ensures Usable(c, x, guard) + (c.slot - guard) == c.base + (x + 1) * c.slot
  {
    MulMono(x + 1, c.cap, c.slot);
    assert (x + 1) * c.slot == x * c.slot + c.slot;
  }

  /** The usable ranges of two stacks in use never overlap. */
  lemma NoOverlap(a: Arena, i: nat, x: nat, j: nat, y: nat, guard: nat)
    requires Reachable(a) && i < |a.classes| == |a.taken| && j < |a.classes|
    requires x in a.taken[i] && y in a.taken[j] && (i, x) != (j, y)
    requires a.classes[i].Mapped? && a.classes[j].Mapped? && guard < a.classes[i].slot && guard < a.classes[j].slot
    ensures var c, d := a.classes[i], a.classes[j];
            var p, q := Usable(c, x, guard), Usable(d, y, guard);
            p + (c.slot - guard) <= q || q + (d.slot - guard) <= p
  {
    ReachableInv(a);
    var c, d := a.classes[i], a.classes[j];
    SlotInside(c, a.taken[i], x, guard);
    SlotInside(d, a.taken[j], y, guard);
    if i == j {
      if x < y { MulMono(x + 1, y, c.slot); } else { MulMono(y + 1, x, c.slot); }
    } else if i < j {
      assert Apart(c, d.base, d.cap * d.slot);
    } else {
      assert Apart(d, c.base, c.cap * c.slot);
    }
  }

  lemma DivExact(x: nat, k: nat)
    requires k > 0
    ensures (x * k) / k == x
  {
    var d := x - (x * k) / k;
    assert k * d == x * k - k * ((x * k) / k);
    MulAtLeast(k, d);
  }

  lemma MulAtLeast(k: nat, d: int)
    ensures d >= 1 ==> k * d >= k
    ensures d <= -1 ==> k * d + k <= 0
  {
  }

  /** Release recovers, from the pointer alone, the class and the slot that the
      carve issued; and the free that follows finds that class. */
  lemma ReleaseFindsSlot(a: Arena, i: nat, x: nat, guard: nat)
    requires Reachable(a) && i < |a.classes| == |a.taken| && a.classes[i].Mapped? && x in a.taken[i] && guard < a.classes[i].slot
    ensures var c := a.classes[i];
            var p := Usable(c, x, guard);
            && ClassOf(a.classes, p, 0) == i && c.slot > 0 && SlotOf(c, p, guard) == x
            && Find(a.classes, c.slot, c.node, 0) == i
  {
    ReachableInv(a);
    var c := a.classes[i];
    var p := Usable(c, x, guard);
    assert ClassInv(c, a.taken[i]);
    SlotInside(c, a.taken[i], x, guard);
    DivExact(x, c.slot);
    FindIs(a.classes, i);
    forall k | 0 <= k < |a.classes| && k != i ensures !Covers(a.classes[k], p) {
      if k < i { assert Apart(a.classes[k], c.base, c.cap * c.slot); }
      else if a.classes[k].Mapped? { assert Apart(c, a.classes[k].base, a.classes[k].cap * a.classes[k].slot); }
    }
  }

  /** The stacks the arena's clients hold: class, first slot, count. */
  datatype Op =
    | Carve(n: nat, slot: nat, node: nat, mapped: Option<Region>)
    | Release(i: nat, start: nat, n: nat)

  ghost predicate Legal(a: Arena, op: Op)
    requires |a.taken| == |a.classes|
  {
    match op
    case Carve(n, slot, _, mapped) => n > 0 && slot > 0 && Fresh(a, mapped, slot)
    case Release(i, start, n) => i < |a.classes| && a.classes[i].Mapped? && n > 0 && Range(start, n) <= a.taken[i]
  }

  function Do(a: Arena, op: Op): Arena
    requires |a.taken| == |a.classes|
  {
    match op
    case Carve(n, slot, node, mapped) => Alloc(a, n, slot, node, mapped).0
    case Release(i, start, n) =>
      if i < |a.classes| && a.classes[i].Mapped? then Free(a, start, n, a.classes[i].slot, a.classes[i].node) else a
  }

  ghost predicate Run(states: seq<Arena>, ops: seq<Op>) {
    && |states| == |ops| + 1 && (exists n :: states[0] == Empty(n))
    && forall k | 0 <= k < |ops| ::
         |states[k].taken| == |states[k].classes| && Legal(states[k], ops[k]) && states[k + 1] == Do(states[k], ops[k])
  }

  function Empty(n: nat): Arena {
    Arena(seq(n, _ => Unused), seq(n, _ => {}))
  }

  /** In every run of carves and frees: slots in use are below the cursor, the
      count is their number, an empty class starts over. */
  lemma {:induction false} RunKeepsInv(states: seq<Arena>, ops: seq<Op>, k: nat)
    requires Run(states, ops) && k < |states|
    ensures Inv(states[k])
  {
    if k == 0 {
      assert exists n :: states[0] == Empty(n);
    } else {
      RunKeepsInv(states, ops, k - 1);
      assert Legal(states[k - 1], ops[k - 1]);
      match ops[k - 1] {
        case Carve(n, slot, node, mapped) => AllocKeepsInv(states[k - 1], n, slot, node, mapped);
        case Release(i, start, n) => FreeKeepsInv(states[k - 1], start, n, i);
      }
    }
  }

  /** Some run leads to this arena. */
  ghost predicate Reachable(a: Arena) {
    exists states, ops :: Run(states, ops) && states[|ops|] == a
  }

  lemma ReachableInv(a: Arena)
    requires Reachable(a)
    ensures Inv(a)
  {
    var states, ops :| Run(states, ops) && states[|ops|] == a;
    RunKeepsInv(states, ops, |ops|);
  }

  // --------------------------------------------------- the table in memory

  /** The class table, updated in place. */
  class Table {
    const classes: array<Class>
    ghost var taken: seq<set<nat>>

    ghost predicate Valid()
      reads this
    {
      |taken| == classes.Length
    }

    ghost function Model(): (a: Arena)
      requires Valid()
      reads this, classes
      ensures |a.taken| == |a.classes|
    {
      Arena(classes[..], taken)
    }

    constructor ()
      ensures Valid() && fresh(classes) && Model() == Empty(TABLE)
    {
      classes := new Class[TABLE](_ => Unused);
      taken := seq(TABLE, _ => {});
    }

    /** The class of this key, or a new one; -1 if there is none to be had. */
    method FindClass(slot: nat, node: nat, mapped: Option<Region>) returns (cls: int)
      requires Valid()
      modifies this, classes
      ensures Valid() && Model() == ClassFor(old(Model()), slot, node, mapped).0
      ensures var r := ClassFor(old(Model()), slot, node, mapped).1; cls == if r.Some? then r.value else -1
    {
      ghost var cs := classes[..];
      var i, free := 0, -1;
      while i < classes.Length
        invariant 0 <= i <= classes.Length && classes[..] == cs && taken == old(taken)
        invariant Find(cs, slot, node, 0) == Find(cs, slot, node, i)
        invariant free == -1 ==> FirstUnused(cs, 0) == FirstUnused(cs, i)
        invariant free != -1 ==> 0 <= free < i && free == FirstUnused(cs, 0)
      {
        if classes[i].Mapped? {
          if classes[i].slot == slot && classes[i].node == node { return i; }
        } else if free < 0 {
          free := i;
        }
        i := i + 1;
      }
      if free < 0 || mapped.None? { return -1; }
      classes[free] := Mapped(mapped.value.base, slot, mapped.value.cap, 0, 0, node);
      taken := taken[free := {}];
      return free;
    }

    method MoveCursor(i: nat, n: nat) returns (start: Option<nat>)
      requires Valid() && i < classes.Length && classes[i].Mapped?
      modifies this, classes
      ensures Valid() && Model() == Bump(old(Model()), i, n).0
      ensures var r := Bump(old(Model()), i, n).1; start == if r.None? then None else Some(r.value.1)
    {
      var c := classes[i];
      if c.next + n > c.cap { return None; }
      start := Some(c.next);
      classes[i] := c.(next := c.next + n, live := c.live + n);
      taken := taken[i := taken[i] + Range(c.next, n)];
    }

    /** `runloom_arena_alloc`. */
    method Reserve(n: nat, slot: nat, node: nat, mapped: Option<Region>) returns (start: Option<nat>, cls: int)
      requires Valid()
      modifies this, classes
      ensures Valid() && Model() == Alloc(old(Model()), n, slot, node, mapped).0
      ensures var r := Alloc(old(Model()), n, slot, node, mapped).1;
              if r.None? then start.None? else start == Some(r.value.1) && cls == r.value.0
    {
      start := None;
      cls := FindClass(slot, node, mapped);
      if cls >= 0 { start := MoveCursor(cls, n); }
    }

    /** `runloom_arena_free`. */
    method GiveBack(start: nat, n: nat, slot: nat, node: nat)
      requires Valid()
      modifies this, classes
      ensures Valid() && Model() == Free(old(Model()), start, n, slot, node)
    {
      ghost var cs := classes[..];
      var i := 0;
      while i < classes.Length
        invariant 0 <= i <= classes.Length && classes[..] == cs && taken == old(taken)
        invariant Find(cs, slot, node, 0) == Find(cs, slot, node, i)
      {
        var c := classes[i];
        if c.Mapped? && c.slot == slot && c.node == node {
          var live := if c.live >= n then c.live - n else c.live;
          var next := if live == 0 then 0 else if start + n == c.next then start else c.next;
          classes[i] := c.(live := live, next := next);
          taken := taken[i := taken[i] - Range(start, n)];
          return;
        }
        i := i + 1;
      }
    }

    /** `runloom_arena_class_of_ptr`. */
    method LookUp(p: nat) returns (cls: int)
      requires Valid()
      ensures var r := ClassOf(classes[..], p, 0); cls == if r < classes.Length then r else -1
    {
      var i := 0;
      while i < classes.Length
        invariant 0 <= i <= classes.Length && ClassOf(classes[..], p, 0) == ClassOf(classes[..], p, i)
      {
        if classes[i].Mapped? && classes[i].base <= p < classes[i].base + classes[i].cap * classes[i].slot { return i; }
        i := i + 1;
      }
      return -1;
    }
  }
}
