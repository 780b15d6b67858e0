/**
 What a caller of the stack pool gets, call by call, in any run of the machine of
 StackPool: the size asked for against the stack handed out, and what becomes of a
 stack given back.
 */
module StackCalls {
  import opened Options
  import opened Runs
  import opened StackPool
  import StackLists

  /** In the states after j, up to m, thread t is in the call it makes at j; at m it
      may have returned from it. */
  ghost predicate During(ss: seq<State>, acts: seq<Action>, j: nat, m: nat, t: Tid) {
    && Run(ss, acts) && j < m < |ss| && !acts[j].Step? && acts[j].t == t
    && forall k | j < k < m :: t in ss[k].pcs && !ss[k].pcs[t].Idle?
  }

  ghost predicate HasSize(s: State, id: Id, size: nat) { id in s.sizes && s.sizes[id] == size }

  // ---------------------------------------------------------------- acquire

  /** Thread t is in an acquire of this size; what its cache then holds. */
  ghost predicate Acquiring(s: State, t: Tid, size: nat) {
    && t in s.pcs && t in s.caches
    && match s.pcs[t]
       case Pop(sz, second) => sz == size && (second ==> forall i | 0 <= i < |s.caches[t]| :: HasSize(s, s.caches[t][i], size))
       case RefillLock(sz) => sz == size && s.caches[t] == []
       case Refill(sz, _) => sz == size && forall i | 0 <= i < |s.caches[t]| :: HasSize(s, s.caches[t][i], size)
       case MapNew(sz) => sz == size && s.caches[t] == []
       case _ => false
  }

  /** What a step of an acquire of `size` by thread t may do to a mapping: hand it out
      or move it to the thread's cache if it is of that size, unmap it if it is not. */
  ghost predicate Lawful(s: State, s': State, t: Tid, size: nat) {
    && (forall id | id in s.places && id in s'.places && s'.places[id] != s.places[id] ::
          if HasSize(s, id, size) then s'.places[id].Held? || s'.places[id] == Cache(t) else s'.places[id].Gone?)
    && (forall id | id in s'.places && id !in s.places :: s'.places[id].Held? && HasSize(s', id, size))
    && (forall id | id in s.places :: id in s'.places && (id in s.sizes ==> id in s'.sizes && s'.sizes[id] == s.sizes[id]))
  }

  /** The step ends the acquire: with one more mapping held, of the size asked for, or
      because the system refused a new one. */
  ghost predicate Ends(s: State, s': State, t: Tid, size: nat, mapped: bool) {
    && t in s.pcs && t in s'.pcs && s'.pcs[t].Idle?
    && if s.pcs[t].MapNew? && !mapped then s'.held == s.held
       else exists id :: id !in s.held && s'.held == s.held + {id} && HasSize(s', id, size)
  }

  /** What the invariant says of thread t's cache, the depot and what is held. */
  ghost predicate Near(s: State, t: Tid) {
    && t in s.pcs && t in s.caches
    && (forall i | 0 <= i < |s.caches[t]| :: s.caches[t][i] in s.places && s.places[s.caches[t][i]] == Cache(t))
    && (forall i | 0 <= i < |s.depot| :: s.depot[i] in s.places && s.places[s.depot[i]] == Depot)
    && (forall id | id in s.held :: id in s.places && s.places[id].Held?) && s.nextId !in s.places
  }

  lemma InvNear(s: State, t: Tid)
    requires Inv(s) && t in s.pcs
    ensures Near(s, t)
  {
    assert ThreadInv(t, s.pcs[t], s.caches[t], s.places);
  }

  lemma PopServes(s: State, t: Tid, size: nat)
    requires Near(s, t) && s.pcs[t].Pop? && s.caches[t] != [] && HasSize(s, s.caches[t][0], size)
    ensures var s' := PopStep(s, t, size, s.pcs[t].second); Lawful(s, s', t, size) && Ends(s, s', t, size, false)
  {
    var id, s' := s.caches[t][0], PopStep(s, t, size, s.pcs[t].second);
    assert id !in s.held && s'.held == s.held + {id} && HasSize(s', id, size);
  }

  lemma PopSkips(s: State, t: Tid, size: nat)
    requires Near(s, t) && Acquiring(s, t, size) && s.pcs[t].Pop?
    requires s.caches[t] == [] || !HasSize(s, s.caches[t][0], size)
    ensures var s' := PopStep(s, t, size, s.pcs[t].second); Lawful(s, s', t, size) && Acquiring(s', t, size)
  {
  }

  lemma RefillLaw(s: State, t: Tid, size: nat)
    requires Near(s, t) && Acquiring(s, t, size) && s.pcs[t].Refill?
    ensures var s' := RefillStep(s, t, size, s.pcs[t].moved); Lawful(s, s', t, size) && Acquiring(s', t, size)
  {
  }

  lemma MapLaw(s: State, t: Tid, size: nat, mapped: bool)
    requires Near(s, t) && s.pcs[t].MapNew?
    ensures var s' := MapStep(s, t, size, mapped); Lawful(s, s', t, size) && Ends(s, s', t, size, mapped)
  {
    var id, s' := s.nextId, MapStep(s, t, size, mapped);
    if mapped { assert id !in s.held && s'.held == s.held + {id} && HasSize(s', id, size); }
  }

  lemma AcquireLaw(s: State, a: Action, size: nat)
    requires Inv(s) && Enabled(s, a) && a.Step? && Acquiring(s, a.t, size)
    ensures Lawful(s, Apply(s, a), a.t, size)
    ensures Acquiring(Apply(s, a), a.t, size) || Ends(s, Apply(s, a), a.t, size, a.mapped)
  {
    InvNear(s, a.t);
    match s.pcs[a.t] {
      case Pop(_, _) =>
        if s.caches[a.t] != [] && HasSize(s, s.caches[a.t][0], size) { PopServes(s, a.t, size); } else { PopSkips(s, a.t, size); }
      case RefillLock(_) =>
      case Refill(_, _) => RefillLaw(s, a.t, size);
      case MapNew(_) => MapLaw(s, a.t, size, a.mapped);
    }
  }

  /** A step of another thread leaves this one's program counter and cache alone, and
      the sizes of the mappings there are. */
  ghost predicate Spares(s: State, s': State, t: Tid)
    requires t in s.pcs && t in s.caches
  {
    && t in s'.pcs && t in s'.caches && s'.pcs[t] == s.pcs[t] && s'.caches[t] == s.caches[t]
    && (forall id | id in s.sizes && id != s.nextId :: id in s'.sizes && s'.sizes[id] == s.sizes[id])
  }

  lemma AcquireSpares(s: State, a: Action, t: Tid)
    requires Enabled(s, a) && a.Step? && t in s.pcs && t in s.caches && a.t != t && InAcquire(s.pcs[a.t])
    ensures Spares(s, Apply(s, a), t)
  {
  }

  lemma ReleaseSpares(s: State, a: Action, t: Tid)
    requires Enabled(s, a) && a.Step? && t in s.pcs && t in s.caches && a.t != t
    requires s.pcs[a.t].Warm? || s.pcs[a.t].Put? || s.pcs[a.t].Cut? || s.pcs[a.t].FlushLock?
    ensures Spares(s, Apply(s, a), t)
  {
  }

  lemma PushSpares(s: State, a: Action, t: Tid)
    requires Enabled(s, a) && a.Step? && t in s.pcs && t in s.caches && a.t != t
    requires s.pcs[a.t].Flush? || s.pcs[a.t].PreCheck? || s.pcs[a.t].PreMap? || s.pcs[a.t].PrePush?
    ensures Spares(s, Apply(s, a), t)
  {
  }

  lemma OthersSpare(s: State, a: Action, t: Tid)
    requires Enabled(s, a) && t in s.pcs && t in s.caches && a.t != t
    ensures Spares(s, Apply(s, a), t)
  {
    if a.Step? {
      match s.pcs[a.t] {
        case Warm(_) => ReleaseSpares(s, a, t);
        case Put(_) => ReleaseSpares(s, a, t);
        case Cut(_) => ReleaseSpares(s, a, t);
        case FlushLock(_, _) => ReleaseSpares(s, a, t);
        case Pop(_, _) => AcquireSpares(s, a, t);
        case RefillLock(_) => AcquireSpares(s, a, t);
        case Refill(_, _) => AcquireSpares(s, a, t);
        case MapNew(_) => AcquireSpares(s, a, t);
        case _ => PushSpares(s, a, t);
      }
    }
  }

  lemma AcquireUndisturbed(s: State, a: Action, t: Tid, size: nat)
    requires Near(s, t) && Enabled(s, a) && a.t != t && Acquiring(s, t, size)
    ensures Acquiring(Apply(s, a), t, size)
  {
    OthersSpare(s, a, t);
  }

  lemma AcquireAt(ss: seq<State>, acts: seq<Action>, j: nat, k: nat, t: Tid)
    requires During(ss, acts, j, k + 1, t) && acts[j].CallAcquire?
    requires k > j ==> Acquiring(ss[k], t, acts[j].size)
    ensures if k > j && acts[k].t == t
            then acts[k].Step? && Lawful(ss[k], ss[k + 1], t, acts[j].size)
                 && (Acquiring(ss[k + 1], t, acts[j].size) || Ends(ss[k], ss[k + 1], t, acts[j].size, acts[k].mapped))
            else Acquiring(ss[k + 1], t, acts[j].size)
  {
    assert Enabled(ss[k], acts[k]) && ss[k + 1] == Apply(ss[k], acts[k]);
    if k > j {
      assert Inv(ss[k]) by { RunKeepsInv(ss, acts, k); }
      if acts[k].t == t {
        AcquireLaw(ss[k], acts[k], acts[j].size);
      } else {
        InvNear(ss[k], t);
        AcquireUndisturbed(ss[k], acts[k], t, acts[j].size);
      }
    }
  }

  /** Where along a run thread t is in an acquire of this size. */
  ghost function Acquirings(ss: seq<State>, t: Tid, size: nat): (b: seq<bool>)
    ensures |b| == |ss| && forall k | 0 <= k < |ss| :: b[k] == Acquiring(ss[k], t, size)
  {
    seq(|ss|, k requires 0 <= k < |ss| => Acquiring(ss[k], t, size))
  }

  lemma AcquireGoesOn(ss: seq<State>, acts: seq<Action>, j: nat, m: nat, t: Tid)
    requires During(ss, acts, j, m, t) && acts[j].CallAcquire? && t in ss[m].pcs && !ss[m].pcs[t].Idle?
    ensures Acquiring(ss[m], t, acts[j].size)
  {
    var b := Acquirings(ss, t, acts[j].size);
    forall k | j + 1 <= k < m ensures b[k] ==> b[k + 1] {
      if b[k] { AcquireAt(ss, acts, j, k, t); }
    }
    AcquireAt(ss, acts, j, j, t);
    Carry(b, j + 1, m);
  }

  /** In every run, an acquire of `size` ends with one more mapping held, which is of
      that size, unless the system refuses a new one. */
  lemma AcquireServes(ss: seq<State>, acts: seq<Action>, j: nat, m: nat, t: Tid)
    requires During(ss, acts, j, m + 1, t) && acts[j].CallAcquire? && t in ss[m + 1].pcs && ss[m + 1].pcs[t].Idle?
    ensures m > j && acts[m].t == t && acts[m].Step? && Ends(ss[m], ss[m + 1], t, acts[j].size, acts[m].mapped)
  {
    if m > j { AcquireGoesOn(ss, acts, j, m, t); }
    AcquireAt(ss, acts, j, m, t);
  }

  /** On the way, what its steps unmap is of another size, and what they take from the
      depot of that one. */
  lemma AcquireIsLawful(ss: seq<State>, acts: seq<Action>, j: nat, k: nat, t: Tid)
    requires During(ss, acts, j, k + 1, t) && acts[j].CallAcquire? && k > j && acts[k].t == t
    ensures Lawful(ss[k], ss[k + 1], t, acts[j].size)
  {
    AcquireGoesOn(ss, acts, j, k, t);
    AcquireAt(ss, acts, j, k, t);
  }

  function Stage(pc: Pc): nat {
    match pc
    case Pop(_, second) => if second then 2 else 5
    case RefillLock(_) => 4
    case Refill(_, _) => 3
    case MapNew(_) => 1
    case _ => 0
  }

  /** The step brings thread t's acquire to a later stage, or has left it one stack
      fewer to look at. */
  ghost predicate Nearer(s: State, s': State, t: Tid)
    requires t in s.pcs && t in s.caches
  {
    && t in s'.pcs && t in s'.caches
    && (|| Stage(s'.pcs[t]) < Stage(s.pcs[t])
        || (Stage(s'.pcs[t]) == Stage(s.pcs[t])
            && ((s.pcs[t].Pop? && |s'.caches[t]| < |s.caches[t]|) || (s.pcs[t].Refill? && |s'.depot| < |s.depot|))))
  }

  lemma PopAdvances(s: State, t: Tid, size: nat, second: bool)
    requires t in s.pcs && t in s.caches && s.pcs[t] == Pop(size, second)
    ensures var s' := PopStep(s, t, size, second);
            Nearer(s, s', t) && (s'.pcs[t].RefillLock? || s'.pcs[t].MapNew? ==> s.caches[t] == [])
  {
  }

  lemma RefillAdvances(s: State, t: Tid, size: nat, moved: nat)
    requires t in s.pcs && t in s.caches && s.pcs[t] == Refill(size, moved)
    ensures var s' := RefillStep(s, t, size, moved);
            && Nearer(s, s', t) && (!s'.pcs[t].Refill? ==> moved >= REFILL_BATCH || s.depot == [])
            && (s'.caches[t] != s.caches[t] ==> s'.pcs[t] == Refill(size, moved + 1))
  {
  }

  /** Each step of an acquire brings it nearer its end; it refills only from an empty
      cache, until it has 32 or the depot is empty, and maps only with an empty cache. */
  lemma AcquireAdvances(s: State, a: Action)
    requires Enabled(s, a) && a.Step? && InAcquire(s.pcs[a.t])
    ensures var t, s' := a.t, Apply(s, a);
            && Nearer(s, s', t) && (s'.pcs[t].RefillLock? || s'.pcs[t].MapNew? ==> s.caches[t] == [])
            && (s.pcs[t].Refill? && !s'.pcs[t].Refill? ==> s.pcs[t].moved >= REFILL_BATCH || s.depot == [])
  {
    match s.pcs[a.t] {
      case Pop(size, second) => PopAdvances(s, a.t, size, second);
      case Refill(size, moved) => RefillAdvances(s, a.t, size, moved);
      case RefillLock(_) =>
      case MapNew(_) =>
    }
  }

  // ---------------------------------------------------------------- release

  /** A release goes to the front of its thread's cache, unless this one is sampled
      for unmapping. */
  ghost predicate Released(s: State, t: Tid, id: Id, sampled: bool) {
    && id in s.places && t in s.caches
    && if sampled then s.places[id].Gone? else s.places[id] == Cache(t) && s.caches[t] != [] && s.caches[t][0] == id
  }

  ghost predicate Releasing(s: State, t: Tid, id: Id) {
    t in s.pcs && t in s.caches && s.pcs[t] == Put(id) && id !in s.held
  }

  lemma HeldElsewhere(s: State, a: Action, id: Id)
    requires Enabled(s, a) && id in s.places && id !in s.held && s.nextId != id
    requires a.Step? && s.pcs[a.t].Pop? && s.caches[a.t] != [] ==> s.caches[a.t][0] != id
    ensures id !in Apply(s, a).held
  {
  }

  lemma ReleaseStep(s: State, a: Action, t: Tid, id: Id)
    requires Inv(s) && Enabled(s, a) && Releasing(s, t, id)
    ensures if a.t == t then a.Step? && Released(Apply(s, a), t, id, a.sampled) && id !in Apply(s, a).held
            else Releasing(Apply(s, a), t, id)
  {
    assert ThreadInv(t, s.pcs[t], s.caches[t], s.places);
    assert HandOf(s.pcs[t])[0] == id;
    InvNear(s, a.t);
    if a.t != t { OthersSpare(s, a, t); }
    HeldElsewhere(s, a, id);
  }

  lemma ReleaseAt(ss: seq<State>, acts: seq<Action>, k: nat, t: Tid, id: Id)
    requires Run(ss, acts) && k < |acts| && Releasing(ss[k], t, id)
    ensures if acts[k].t == t then acts[k].Step? && Released(ss[k + 1], t, id, acts[k].sampled) && id !in ss[k + 1].held
            else Releasing(ss[k + 1], t, id)
  {
    RunKeepsInv(ss, acts, k);
    assert Enabled(ss[k], acts[k]);
    ReleaseStep(ss[k], acts[k], t, id);
  }

  lemma ReleaseStarts(ss: seq<State>, acts: seq<Action>, j: nat)
    requires Run(ss, acts) && j < |acts| && acts[j].CallRelease?
    ensures Releasing(ss[j + 1], acts[j].t, acts[j].id)
  {
    assert Enabled(ss[j], acts[j]) && ss[j + 1] == Apply(ss[j], acts[j]);
  }

  ghost function Releasings(ss: seq<State>, t: Tid, id: Id): (b: seq<bool>)
    ensures |b| == |ss| && forall k | 0 <= k < |ss| :: b[k] == Releasing(ss[k], t, id)
  {
    seq(|ss|, k requires 0 <= k < |ss| => Releasing(ss[k], t, id))
  }

  /** In every run, the first step of a release of `id` puts it where Released says,
      and it is no longer held. */
  lemma ReleaseCaches(ss: seq<State>, acts: seq<Action>, j: nat, m: nat)
    requires Run(ss, acts) && j < m < |acts| && acts[j].CallRelease? && acts[m].t == acts[j].t
    requires forall k | j < k < m :: acts[k].t != acts[j].t
    ensures acts[m].Step? && Released(ss[m + 1], acts[j].t, acts[j].id, acts[m].sampled) && acts[j].id !in ss[m + 1].held
  {
    var t, id := acts[j].t, acts[j].id;
    var b := Releasings(ss, t, id);
    ReleaseStarts(ss, acts, j);
    forall k | j + 1 <= k < m ensures b[k] ==> b[k + 1] {
      if b[k] { ReleaseAt(ss, acts, k, t, id); }
    }
    Carry(b, j + 1, m);
    ReleaseAt(ss, acts, m, t, id);
  }

  // ----------------------------------------------------- warm-up, prewarm

  /** Thread t has a new mapping of this size in hand, for its cache or the depot. */
  ghost predicate Warming(s: State, t: Tid, size: nat) {
    && t in s.pcs && t in s.caches
    && (s.pcs[t].Warm? || s.pcs[t].Put?) && s.pcs[t].id != s.nextId && HasSize(s, s.pcs[t].id, size)
  }

  ghost predicate Prewarming(s: State, t: Tid, size: nat, cap: int) {
    && t in s.pcs && t in s.caches
    && match s.pcs[t]
       case PreCheck(sz, c) => sz == size && c == cap
       case PreMap(sz, c) => sz == size && c == cap
       case PrePush(id, c) => c == cap && id != s.nextId && HasSize(s, id, size)
       case _ => false
  }

  /** How a prewarm ends: the depot is at its cap, the system refuses a mapping, or a
      mapping of the size asked for is first in the depot, unmapped if by then that is
      full. */
  ghost predicate EndsPrewarm(s: State, s': State, t: Tid, size: nat, cap: int, mapped: bool) {
    && t in s.pcs && t in s'.pcs && s'.pcs[t].Idle?
    && match s.pcs[t]
       case PreCheck(_, _) => |s.depot| >= cap && s'.depot == s.depot && s'.places == s.places
       case PreMap(_, _) => !mapped && s'.depot == s.depot && s'.places == s.places
       case PrePush(id, _) =>
         && HasSize(s', id, size) && id in s'.places
         && if |s.depot| < cap then s'.depot == [id] + s.depot && s'.places[id] == Depot
            else s'.depot == s.depot && s'.places[id].Gone?
       case _ => false
  }

  /** How a warm-up ends: with a mapping of the size asked for first in the cache, or
      unmapped if that is sampled. */
  ghost predicate EndsWarm(s: State, s': State, t: Tid, size: nat, sampled: bool) {
    && t in s.pcs && s.pcs[t].Put? && t in s'.pcs && (s'.pcs[t].Idle? || s'.pcs[t].Cut?)
    && HasSize(s', s.pcs[t].id, size) && Released(s', t, s.pcs[t].id, sampled)
  }

  lemma WarmLaw(s: State, a: Action, size: nat)
    requires Enabled(s, a) && a.Step? && Warming(s, a.t, size)
    ensures if s.pcs[a.t].Warm? then Warming(Apply(s, a), a.t, size) && Apply(s, a).pcs[a.t] == Put(s.pcs[a.t].id)
            else EndsWarm(s, Apply(s, a), a.t, size, a.sampled)
  {
  }

  lemma PrewarmLaw(s: State, a: Action, size: nat, cap: int)
    requires Enabled(s, a) && a.Step? && Prewarming(s, a.t, size, cap)
    ensures Prewarming(Apply(s, a), a.t, size, cap) || EndsPrewarm(s, Apply(s, a), a.t, size, cap, a.mapped)
  {
  }

  lemma AcquireIds(s: State, a: Action)
    requires Enabled(s, a) && a.Step? && InAcquire(s.pcs[a.t])
    ensures s.nextId <= Apply(s, a).nextId
  {
  }

  lemma IdsGrow(s: State, a: Action)
    requires Enabled(s, a)
    ensures s.nextId <= Apply(s, a).nextId
  {
    if a.Step? && InAcquire(s.pcs[a.t]) { AcquireIds(s, a); }
  }

  lemma NewIdsBelow(s: State, a: Action, t: Tid, id: Id)
    requires Inv(s) && Enabled(s, a) && t in s.pcs && HandOf(s.pcs[t]) == [id]
    ensures id < s.nextId && id < Apply(s, a).nextId
  {
    assert ThreadInv(t, s.pcs[t], s.caches[t], s.places);
    assert HandOf(s.pcs[t])[0] == id;
    IdsGrow(s, a);
  }

  lemma WarmUndisturbed(s: State, a: Action, t: Tid, size: nat)
    requires Inv(s) && Enabled(s, a) && a.t != t && Warming(s, t, size)
    ensures Warming(Apply(s, a), t, size)
  {
    OthersSpare(s, a, t);
    NewIdsBelow(s, a, t, s.pcs[t].id);
  }

  lemma PrewarmUndisturbed(s: State, a: Action, t: Tid, size: nat, cap: int)
    requires Inv(s) && Enabled(s, a) && a.t != t && Prewarming(s, t, size, cap)
    ensures Prewarming(Apply(s, a), t, size, cap)
  {
    OthersSpare(s, a, t);
    if s.pcs[t].PrePush? { NewIdsBelow(s, a, t, s.pcs[t].id); }
  }

  lemma WarmAt(ss: seq<State>, acts: seq<Action>, j: nat, k: nat, t: Tid)
    requires During(ss, acts, j, k + 1, t) && acts[j].CallWarm? && acts[j].mapped && (k > j ==> Warming(ss[k], t, acts[j].size))
    ensures Warming(ss[k + 1], t, acts[j].size)
         || (k > j && acts[k].t == t && acts[k].Step? && EndsWarm(ss[k], ss[k + 1], t, acts[j].size, acts[k].sampled))
  {
    assert Enabled(ss[k], acts[k]) && ss[k + 1] == Apply(ss[k], acts[k]);
    if k > j {
      if acts[k].t == t {
        WarmLaw(ss[k], acts[k], acts[j].size);
      } else {
        assert Inv(ss[k]) by { RunKeepsInv(ss, acts, k); }
        WarmUndisturbed(ss[k], acts[k], t, acts[j].size);
      }
    }
  }

  lemma PrewarmAt(ss: seq<State>, acts: seq<Action>, j: nat, k: nat, t: Tid)
    requires During(ss, acts, j, k + 1, t) && acts[j].CallPrewarm?
    requires k > j ==> Prewarming(ss[k], t, acts[j].size, acts[j].cap)
    ensures Prewarming(ss[k + 1], t, acts[j].size, acts[j].cap)
         || (k > j && acts[k].t == t && acts[k].Step?
             && EndsPrewarm(ss[k], ss[k + 1], t, acts[j].size, acts[j].cap, acts[k].mapped))
  {
    assert Enabled(ss[k], acts[k]) && ss[k + 1] == Apply(ss[k], acts[k]);
    if k > j {
      if acts[k].t == t {
        PrewarmLaw(ss[k], acts[k], acts[j].size, acts[j].cap);
      } else {
        assert Inv(ss[k]) by { RunKeepsInv(ss, acts, k); }
        PrewarmUndisturbed(ss[k], acts[k], t, acts[j].size, acts[j].cap);
      }
    }
  }

  ghost function Warmings(ss: seq<State>, t: Tid, size: nat): (b: seq<bool>)
    ensures |b| == |ss| && forall k | 0 <= k < |ss| :: b[k] == Warming(ss[k], t, size)
  {
    seq(|ss|, k requires 0 <= k < |ss| => Warming(ss[k], t, size))
  }

  ghost function Prewarmings(ss: seq<State>, t: Tid, size: nat, cap: int): (b: seq<bool>)
    ensures |b| == |ss| && forall k | 0 <= k < |ss| :: b[k] == Prewarming(ss[k], t, size, cap)
  {
    seq(|ss|, k requires 0 <= k < |ss| => Prewarming(ss[k], t, size, cap))
  }

  /** In every run, a warm-up that got its mapping ends as EndsWarm says. */
  lemma WarmCaches(ss: seq<State>, acts: seq<Action>, j: nat, m: nat, t: Tid)
    requires During(ss, acts, j, m + 1, t) && acts[j].CallWarm? && acts[j].mapped && m > j
    requires forall k | j < k <= m :: ss[k].pcs[t].Warm? || ss[k].pcs[t].Put?
    requires t in ss[m + 1].pcs && !ss[m + 1].pcs[t].Warm? && !ss[m + 1].pcs[t].Put?
    ensures acts[m].t == t && acts[m].Step? && EndsWarm(ss[m], ss[m + 1], t, acts[j].size, acts[m].sampled)
  {
    var b := Warmings(ss, t, acts[j].size);
    WarmAt(ss, acts, j, j, t);
    forall k | j + 1 <= k < m ensures b[k] ==> b[k + 1] {
      if b[k] { WarmAt(ss, acts, j, k, t); }
    }
    Carry(b, j + 1, m);
    WarmAt(ss, acts, j, m, t);
  }

  /** In every run, a prewarm ends as EndsPrewarm says. */
  lemma PrewarmFills(ss: seq<State>, acts: seq<Action>, j: nat, m: nat, t: Tid)
    requires During(ss, acts, j, m + 1, t) && acts[j].CallPrewarm? && t in ss[m + 1].pcs && ss[m + 1].pcs[t].Idle?
    ensures m > j && acts[m].t == t && acts[m].Step?
    ensures EndsPrewarm(ss[m], ss[m + 1], t, acts[j].size, acts[j].cap, acts[m].mapped)
  {
    var b := Prewarmings(ss, t, acts[j].size, acts[j].cap);
    PrewarmAt(ss, acts, j, j, t);
    if m > j {
      forall k | j + 1 <= k < m ensures b[k] ==> b[k + 1] {
        if b[k] { PrewarmAt(ss, acts, j, k, t); }
      }
      Carry(b, j + 1, m);
      PrewarmAt(ss, acts, j, m, t);
    }
  }

  // ------------------------------------------------------------------ flush

  /** A cut keeps the front of the cache and takes the rest in hand. */
  lemma CutSplits(s: State, a: Action)
    requires Enabled(s, a) && a.Step? && s.pcs[a.t].Cut?
    ensures var c, s', t := s.caches[a.t], Apply(s, a), a.t;
            if |c| <= s.pcs[t].keep then s'.pcs[t].Idle? && s'.caches == s.caches
            else s'.pcs[t].FlushLock? && |s'.caches[t]| == s.pcs[t].keep && c == s'.caches[t] + s'.pcs[t].hand
  {
    assert s.caches[a.t := s.caches[a.t]] == s.caches;
  }

  /** Thread t, with the lock, is flushing this hand onto this depot. */
  ghost predicate Flushing(s: State, t: Tid, hand: seq<Id>, depot: seq<Id>, cap: int) {
    && t in s.pcs && t in s.caches && s.pcs[t].Flush? && s.pcs[t].cap == cap && s.lock == Some(t)
    && StackLists.FlushOf(s.pcs[t].hand, s.depot, cap).0 == StackLists.FlushOf(hand, depot, cap).0
  }

  lemma DepotLocked(s: State, a: Action, t: Tid)
    requires LockOk(s.lock, s.pcs) && Enabled(s, a) && a.t != t && s.lock == Some(t)
    ensures Apply(s, a).depot == s.depot && Apply(s, a).lock == s.lock
  {
    if a.Step? { assert !HoldsLock(s.pcs[a.t]); }
  }

  lemma FlushOwn(s: State, t: Tid, hand: seq<Id>, depot: seq<Id>, cap: int)
    requires Flushing(s, t, hand, depot, cap)
    ensures var s' := FlushStep(s, t, s.pcs[t].hand, cap);
            if s.pcs[t].hand == [] then s'.pcs[t].Idle? && s'.depot == StackLists.FlushOf(hand, depot, cap).0
            else Flushing(s', t, hand, depot, cap)
  {
  }

  lemma FlushAt(ss: seq<State>, acts: seq<Action>, k: nat, t: Tid, hand: seq<Id>, depot: seq<Id>, cap: int)
    requires Run(ss, acts) && k < |acts| && Flushing(ss[k], t, hand, depot, cap)
    ensures Flushing(ss[k + 1], t, hand, depot, cap)
         || (t in ss[k + 1].pcs && ss[k + 1].pcs[t].Idle? && ss[k + 1].depot == StackLists.FlushOf(hand, depot, cap).0)
  {
    assert Enabled(ss[k], acts[k]) && ss[k + 1] == Apply(ss[k], acts[k]);
    if acts[k].t == t {
      FlushOwn(ss[k], t, hand, depot, cap);
    } else {
      assert LockOk(ss[k].lock, ss[k].pcs) by { RunKeepsInv(ss, acts, k); }
      DepotLocked(ss[k], acts[k], t);
      OthersSpare(ss[k], acts[k], t);
    }
  }

  lemma FlushStarts(ss: seq<State>, acts: seq<Action>, j: nat)
    requires Run(ss, acts) && j < |acts| && acts[j].Step? && acts[j].t in ss[j].pcs && ss[j].pcs[acts[j].t].FlushLock?
    ensures Flushing(ss[j + 1], acts[j].t, ss[j].pcs[acts[j].t].hand, ss[j].depot, ss[j].pcs[acts[j].t].cap)
  {
    assert Enabled(ss[j], acts[j]) && ss[j + 1] == Apply(ss[j], acts[j]);
  }

  ghost function Flushings(ss: seq<State>, t: Tid, hand: seq<Id>, depot: seq<Id>, cap: int): (b: seq<bool>)
    ensures |b| == |ss| && forall k | 0 <= k < |ss| :: b[k] == Flushing(ss[k], t, hand, depot, cap)
  {
    seq(|ss|, k requires 0 <= k < |ss| => Flushing(ss[k], t, hand, depot, cap))
  }

  /** In every run, whatever the other threads do meanwhile, a flush leaves the depot
      as the loop of StackLists would: filled up to its cap with the first of the
      hand (see FlushBounded). */
  lemma FlushFills(ss: seq<State>, acts: seq<Action>, j: nat, m: nat, t: Tid)
    requires Run(ss, acts) && j < m < |acts| && acts[j].Step? && acts[j].t == t && t in ss[j].pcs && ss[j].pcs[t].FlushLock?
    requires (forall k | j < k <= m :: t in ss[k].pcs && ss[k].pcs[t].Flush?) && t in ss[m + 1].pcs && ss[m + 1].pcs[t].Idle?
    ensures ss[m + 1].depot == StackLists.FlushOf(ss[j].pcs[t].hand, ss[j].depot, ss[j].pcs[t].cap).0
  {
    var hand, depot, cap := ss[j].pcs[t].hand, ss[j].depot, ss[j].pcs[t].cap;
    var b := Flushings(ss, t, hand, depot, cap);
    FlushStarts(ss, acts, j);
    forall k | j + 1 <= k < m ensures b[k] ==> b[k + 1] {
      if b[k] { FlushAt(ss, acts, k, t, hand, depot, cap); }
    }
    Carry(b, j + 1, m);
    FlushAt(ss, acts, m, t, hand, depot, cap);
  }
}
