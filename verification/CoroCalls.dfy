/**
 What a caller of the coroutine pools gets, call by call, in any run of the machine
 of CoroPool: the size asked for against the coro handed out, and what becomes of a
 destroyed one.
 */
module CoroCalls {
  import opened Options
  import opened Runs
  import opened CoroPool

  /** In the states after j, up to m, thread t is in the call it makes at j; at m it
      may have returned from it. */
  ghost predicate During(ss: seq<State>, acts: seq<Action>, j: nat, m: nat, t: Tid) {
    && Run(ss, acts) && j < m < |ss| && !acts[j].Step? && acts[j].t == t
    && forall k | j < k < m :: t in ss[k].pcs && !ss[k].pcs[t].Idle?
  }

  // -------------------------------------------------------------------- new

  ghost predicate Making(s: State, t: Tid, size: nat) {
    t in s.pcs && t in s.pools && Asked(s.pcs[t]) == Some(size)
  }

  /** The step hands out one more coro, pooled or new, and it is of this size. */
  ghost predicate HandsOut(s: State, s': State, size: nat) {
    exists id :: && id in s'.places && s'.places[id].InUse? && !(id in s.places && s.places[id].InUse?)
                 && s'.places == s.places[id := InUse] && id in s'.sizes && s'.sizes[id] == size
  }

  /** It ends the call: with a coro, unless the pool's first is of another size and no
      new one could be made. */
  ghost predicate EndsNew(s: State, s': State, t: Tid, size: nat, made: bool) {
    && t in s.pcs && t in s.pools && t in s'.pcs && s'.pcs[t].Idle?
    && if !made && (s.pools[t] == [] || Size(s, s.pools[t][0]) != size) then s'.places == s.places
       else HandsOut(s, s', size)
  }

  lemma ServeLaw(s: State, t: Tid, size: nat, made: bool)
    requires Base(s) && Making(s, t, size) && s.pcs[t].Serve?
    ensures EndsNew(s, ServeStep(s, t, size, made), t, size, made)
  {
    assert ThreadInv(t, s.pcs[t], s.pools[t], s.places);
    var p, s' := s.pools[t], ServeStep(s, t, size, made);
    if p != [] && Size(s, p[0]) == size {
      assert p[0] in s.places && s.places[p[0]] == Pool(t) && p[0] in s.sizes;
      assert s'.places == s.places[p[0] := InUse];
    } else if made {
      assert s.nextId !in s.places && s'.places == s.places[s.nextId := InUse];
    }
  }

  lemma NewLaw(s: State, a: Action, size: nat)
    requires Base(s) && Enabled(s, a) && a.Step? && Making(s, a.t, size)
    ensures Making(Apply(s, a), a.t, size) || EndsNew(s, Apply(s, a), a.t, size, a.made)
  {
    if s.pcs[a.t].Serve? { ServeLaw(s, a.t, size, a.made); } else { NewMoves(s, a, size); }
  }

  lemma NewMoves(s: State, a: Action, size: nat)
    requires Enabled(s, a) && a.Step? && Making(s, a.t, size) && !s.pcs[a.t].Serve?
    ensures Making(Apply(s, a), a.t, size)
  {
  }

  lemma NewAt(ss: seq<State>, acts: seq<Action>, j: nat, k: nat, t: Tid)
    requires During(ss, acts, j, k + 1, t) && acts[j].CallNew? && (k > j ==> Making(ss[k], t, acts[j].size))
    ensures if k > j && acts[k].t == t
            then acts[k].Step? && (Making(ss[k + 1], t, acts[j].size) || EndsNew(ss[k], ss[k + 1], t, acts[j].size, acts[k].made))
            else Making(ss[k + 1], t, acts[j].size)
  {
    assert Enabled(ss[k], acts[k]) && ss[k + 1] == Apply(ss[k], acts[k]);
    if k > j {
      if acts[k].t == t {
        assert Base(ss[k]) by { RunKeepsBase(ss, acts, k); }
        NewLaw(ss[k], acts[k], acts[j].size);
      } else {
        DrainUndisturbed(ss[k], acts[k], t);
      }
    }
  }

  ghost function Makings(ss: seq<State>, t: Tid, size: nat): (b: seq<bool>)
    ensures |b| == |ss| && forall k | 0 <= k < |ss| :: b[k] == Making(ss[k], t, size)
  {
    seq(|ss|, k requires 0 <= k < |ss| => Making(ss[k], t, size))
  }

  lemma NewGoesOn(ss: seq<State>, acts: seq<Action>, j: nat, m: nat, t: Tid)
    requires During(ss, acts, j, m, t) && acts[j].CallNew? && t in ss[m].pcs && !ss[m].pcs[t].Idle?
    ensures Making(ss[m], t, acts[j].size)
  {
    var b := Makings(ss, t, acts[j].size);
    forall k | j + 1 <= k < m ensures b[k] ==> b[k + 1] {
      if b[k] { NewAt(ss, acts, j, k, t); }
    }
    NewAt(ss, acts, j, j, t);
    Carry(b, j + 1, m);
  }

  /** In every run, a new of `size` hands out a coro of that size, unless none can be
      made. */
  lemma NewServes(ss: seq<State>, acts: seq<Action>, j: nat, m: nat, t: Tid)
    requires During(ss, acts, j, m + 1, t) && acts[j].CallNew? && t in ss[m + 1].pcs && ss[m + 1].pcs[t].Idle?
    ensures m > j && acts[m].t == t && acts[m].Step? && EndsNew(ss[m], ss[m + 1], t, acts[j].size, acts[m].made)
  {
    if m > j { NewGoesOn(ss, acts, j, m, t); }
    NewAt(ss, acts, j, m, t);
  }

  // ---------------------------------------------------------------- destroy

  /** Where thread t's destroy of this coro is: discarding a grown one, or on its way
      to the pool, perhaps by a flush of the full pool. */
  ghost predicate Destroying(s: State, t: Tid, id: Id, grown: bool) {
    && t in s.pcs && t in s.pools
    && if grown then s.pcs[t] == Drop(id)
       else s.pcs[t] == Keep(id) || s.pcs[t] == Put(id) || (InFlush(s.pcs[t]) && s.pcs[t].next == Some(id))
  }

  /** A grown coro is freed; another is first in its thread's pool, keeping its size. */
  ghost predicate Destroyed(s: State, t: Tid, id: Id, grown: bool) {
    && t in s.pcs && t in s.pools && s.pcs[t].Idle? && id in s.places
    && if grown then s.places[id].Freed? else s.places[id] == Pool(t) && s.pools[t] != [] && s.pools[t][0] == id
  }

  /** A flush comes back to what it was made room for. */
  ghost predicate OnTheWay(pc: Pc, id: Id) { pc == Put(id) || (InFlush(pc) && pc.next == Some(id)) }

  lemma ClaimsGoOn(s: State, t: Tid, id: Id)
    requires t in s.pcs && t in s.pools && OnTheWay(s.pcs[t], id)
    requires s.pcs[t].ClaimLoad? || s.pcs[t].ClaimStore? || s.pcs[t].ClaimRead? || s.pcs[t].Sort?
    ensures t in StepOf(s, t, false).pools && OnTheWay(StepOf(s, t, false).pcs[t], id)
  {
  }

  lemma GivesGoOn(s: State, t: Tid, id: Id)
    requires t in s.pcs && t in s.pools && OnTheWay(s.pcs[t], id)
    requires s.pcs[t].GiveLock? || s.pcs[t].Give? || s.pcs[t].Spill?
    ensures t in StepOf(s, t, false).pools && OnTheWay(StepOf(s, t, false).pcs[t], id)
  {
  }

  lemma Ends(s: State, t: Tid, id: Id, grown: bool)
    requires t in s.pcs && t in s.pools && s.pcs[t] == if grown then Drop(id) else Put(id)
    ensures Destroyed(StepOf(s, t, false), t, id, grown)
  {
  }

  lemma DestroyLaw(s: State, a: Action, id: Id, grown: bool)
    requires Enabled(s, a) && a.Step? && Destroying(s, a.t, id, grown)
    ensures Destroying(Apply(s, a), a.t, id, grown) || Destroyed(Apply(s, a), a.t, id, grown)
  {
    var t := a.t;
    match s.pcs[t] {
      case Drop(_) => Ends(s, t, id, grown);
      case Put(_) => Ends(s, t, id, grown);
      case Keep(_) =>
      case GiveLock(_, _) => GivesGoOn(s, t, id);
      case Give(_, _) => GivesGoOn(s, t, id);
      case Spill(_, _) => GivesGoOn(s, t, id);
      case _ => ClaimsGoOn(s, t, id);
    }
  }

  lemma DestroyAt(ss: seq<State>, acts: seq<Action>, j: nat, k: nat, t: Tid)
    requires During(ss, acts, j, k + 1, t) && acts[j].CallDestroy?
    requires k > j ==> Destroying(ss[k], t, acts[j].id, acts[j].grown)
    ensures Destroying(ss[k + 1], t, acts[j].id, acts[j].grown)
         || (k > j && acts[k].t == t && Destroyed(ss[k + 1], t, acts[j].id, acts[j].grown))
  {
    assert Enabled(ss[k], acts[k]) && ss[k + 1] == Apply(ss[k], acts[k]);
    if k > j {
      if acts[k].t == t {
        DestroyLaw(ss[k], acts[k], acts[j].id, acts[j].grown);
      } else {
        DrainUndisturbed(ss[k], acts[k], t);
      }
    }
  }

  /** Only a full pool is flushed first. */
  lemma FlushesOnlyFull(s: State, a: Action)
    requires Enabled(s, a) && a.Step? && s.pcs[a.t].Keep?
    ensures InFlush(Apply(s, a).pcs[a.t]) <==> |s.pools[a.t]| >= POOL_CAP
    ensures !InFlush(Apply(s, a).pcs[a.t]) ==> Apply(s, a).pcs[a.t] == Put(s.pcs[a.t].id)
  {
  }

  ghost function Destroyings(ss: seq<State>, t: Tid, id: Id, grown: bool): (b: seq<bool>)
    ensures |b| == |ss| && forall k | 0 <= k < |ss| :: b[k] == Destroying(ss[k], t, id, grown)
  {
    seq(|ss|, k requires 0 <= k < |ss| => Destroying(ss[k], t, id, grown))
  }

  /** In every run, a destroy ends with the coro first in its thread's pool, or freed
      if its stack had grown. */
  lemma DestroyPools(ss: seq<State>, acts: seq<Action>, j: nat, m: nat, t: Tid)
    requires During(ss, acts, j, m + 1, t) && acts[j].CallDestroy? && t in ss[m + 1].pcs && ss[m + 1].pcs[t].Idle?
    ensures Destroyed(ss[m + 1], t, acts[j].id, acts[j].grown)
  {
    var b := Destroyings(ss, t, acts[j].id, acts[j].grown);
    DestroyAt(ss, acts, j, j, t);
    if m > j {
      forall k | j + 1 <= k < m ensures b[k] ==> b[k + 1] {
        if b[k] { DestroyAt(ss, acts, j, k, t); }
      }
      Carry(b, j + 1, m);
      DestroyAt(ss, acts, j, m, t);
    }
  }
}
