/**
 The work-stealing deque of cldeque.c: one owner pushes and pops at the bottom,
 any number of thieves take from the top with a compare-and-swap.

 `State`/`Apply` is the code as a sequentially consistent step machine, one
 atomic load, store or CAS per step.  `Atomic` is a deque whose operations take
 effect in one instant between their call and their return.  `Refines` shows
 that every step of the code is a step (or a stutter) of the atomic deque with
 the same visible calls and results.
 */
module Deque {
  import opened Options
  import opened Runs

  type Item = int
  type Tid = nat

  // ---------------------------------------------------------------- machine

  /** Where the owner is; the arguments are its local variables. */
  datatype OwnerPc =
    | Idle
    | PushLoadBottom(item: Item)
    | PushLoadTop(item: Item, b: int)
    | PushStoreSlot(item: Item, b: int)
    | PushStoreBottom(item: Item, b: int)
    | PushDone(ok: bool)
    | PopLoadBottom
    | PopStoreBottom(b: int)
    | PopLoadTop(b: int)
    | PopReset(t: int)
    | PopReadSlot(b: int, t: int)
    | PopCas(t: int, item: Item)
    | PopRestore(t: int, result: Option<Item>)
    | PopDone(result: Option<Item>)

  /** `since` is history: `top` when the steal was called. */
  datatype ThiefPc =
    | Away
    | StealLoadTop(since: int)
    | StealLoadBottom(since: int, t: int)
    | StealReadSlot(since: int, t: int)
    | StealCas(since: int, t: int, item: Item)
    | StealDone(result: Option<Item>)

  /** `pushed` and `taken` log the items at the source's ghost hooks. */
  datatype State = State(
    cap: nat, top: int, bottom: int, buf: seq<Item>,
    owner: OwnerPc, thieves: map<Tid, ThiefPc>,
    pushed: multiset<Item>, taken: multiset<Item>)

  datatype Action =
    | CallPush(item: Item) | CallPop | OwnerStep
    | CallSteal(tid: Tid) | ThiefStep(tid: Tid)

  /** What a caller can see of a step. */
  datatype Label =
    | Tau
    | PushCall(item: Item) | PushReturn(ok: bool)
    | PopCall | PopReturn(result: Option<Item>)
    | StealCall(tid: Tid) | StealReturn(tid: Tid, result: Option<Item>)

  /** `buf[i & MASK]`: the ring slot of index i. */
  function Slot(i: int, cap: nat): (k: nat)
    requires cap > 0
    ensures k < cap
  {
    i % cap
  }

  ghost predicate WellFormed(s: State) {
    s.cap > 0 && |s.buf| == s.cap
  }

  predicate Enabled(s: State, a: Action) {
    match a
    case CallPush(_) => s.owner.Idle?
    case CallPop => s.owner.Idle?
    case OwnerStep => !s.owner.Idle?
    case CallSteal(tid) => tid in s.thieves && s.thieves[tid].Away?
    case ThiefStep(tid) => tid in s.thieves && !s.thieves[tid].Away?
  }

  function OwnerApply(s: State): (State, Label)
    requires WellFormed(s) && !s.owner.Idle?
  {
    match s.owner
    case PushLoadBottom(item) => (s.(owner := PushLoadTop(item, s.bottom)), Tau)
    case PushLoadTop(item, b) =>
      (s.(owner := if b - s.top >= s.cap then PushDone(false) else PushStoreSlot(item, b)), Tau)
    case PushStoreSlot(item, b) =>
      (s.(buf := s.buf[Slot(b, s.cap) := item], owner := PushStoreBottom(item, b)), Tau)
    case PushStoreBottom(item, b) =>
      (s.(bottom := b + 1, owner := PushDone(true), pushed := s.pushed + multiset{item}), Tau)
    case PushDone(ok) => (s.(owner := Idle), PushReturn(ok))
    case PopLoadBottom => (s.(owner := PopStoreBottom(s.bottom - 1)), Tau)
    case PopStoreBottom(b) => (s.(bottom := b, owner := PopLoadTop(b)), Tau)
    case PopLoadTop(b) =>
      if s.top > b then (s.(owner := PopReset(s.top)), Tau)
      else if s.top < b then
        (s.(owner := PopReadSlot(b, s.top), taken := s.taken + multiset{s.buf[Slot(b, s.cap)]}), Tau)
      else (s.(owner := PopReadSlot(b, s.top)), Tau)
    case PopReset(t) => (s.(bottom := t, owner := PopDone(None)), Tau)
    case PopReadSlot(b, t) =>
      var item := s.buf[Slot(b, s.cap)];
      (s.(owner := if t < b then PopDone(Some(item)) else PopCas(t, item)), Tau)
    case PopCas(t, item) =>
      if s.top == t then
        (s.(top := t + 1, owner := PopRestore(t, Some(item)), taken := s.taken + multiset{item}), Tau)
      else (s.(owner := PopRestore(t, None)), Tau)
    case PopRestore(t, result) => (s.(bottom := t + 1, owner := PopDone(result)), Tau)
    case PopDone(result) => (s.(owner := Idle), PopReturn(result))
  }

  function ThiefApply(s: State, tid: Tid): (State, Label)
    requires WellFormed(s) && tid in s.thieves && !s.thieves[tid].Away?
  {
    match s.thieves[tid]
    case StealLoadTop(since) => (s.(thieves := s.thieves[tid := StealLoadBottom(since, s.top)]), Tau)
    case StealLoadBottom(since, t) =>
      (s.(thieves := s.thieves[tid := if t >= s.bottom then StealDone(None) else StealReadSlot(since, t)]), Tau)
    case StealReadSlot(since, t) =>
      (s.(thieves := s.thieves[tid := StealCas(since, t, s.buf[Slot(t, s.cap)])]), Tau)
    case StealCas(_, t, item) =>
      if s.top == t then
        (s.(top := t + 1, thieves := s.thieves[tid := StealDone(Some(item))],
            taken := s.taken + multiset{item}), Tau)
      else (s.(thieves := s.thieves[tid := StealDone(None)]), Tau)
    case StealDone(result) => (s.(thieves := s.thieves[tid := Away]), StealReturn(tid, result))
  }

  function Apply(s: State, a: Action): (State, Label)
    requires WellFormed(s) && Enabled(s, a)
  {
    match a
    case CallPush(item) => (s.(owner := PushLoadBottom(item)), PushCall(item))
    case CallPop => (s.(owner := PopLoadBottom), PopCall)
    case OwnerStep => OwnerApply(s)
    case CallSteal(tid) => (s.(thieves := s.thieves[tid := StealLoadTop(s.top)]), StealCall(tid))
    case ThiefStep(tid) => ThiefApply(s, tid)
  }

  /** `runloom_cldeque_init`, with the ring's initial words arbitrary. */
  ghost predicate Init(s: State) {
    && WellFormed(s) && s.top == 0 && s.bottom == 0 && s.owner.Idle?
    && (forall tid | tid in s.thieves :: s.thieves[tid].Away?)
    && s.pushed == multiset{} && s.taken == multiset{}
  }

  // ---------------------------------------------------- the atomic deque

  datatype AtomicOwner = ANone | APush(item: Item) | APushed(ok: bool) | APop | APopped(result: Option<Item>)
  datatype AtomicThief = AAway | ASteal(since: int) | AStolen(result: Option<Item>)

  /** `front` counts the times the oldest item was taken. */
  datatype Atomic = Atomic(
    cap: nat, contents: seq<Item>, front: int, owner: AtomicOwner, thieves: map<Tid, AtomicThief>,
    pushed: multiset<Item>, taken: multiset<Item>)

  /** Push takes effect: append, or fail because the deque is full. */
  ghost predicate CommitPush(a: Atomic, a': Atomic) {
    a.owner.APush? &&
    if |a.contents| < a.cap
    then a' == a.(contents := a.contents + [a.owner.item], owner := APushed(true),
                  pushed := a.pushed + multiset{a.owner.item})
    else a' == a.(owner := APushed(false))
  }

  /** Pop takes effect: the newest item, or NULL because the deque is empty. */
  ghost predicate CommitPop(a: Atomic, a': Atomic) {
    a.owner.APop? &&
    if a.contents == [] then a' == a.(owner := APopped(None))
    else
      var last := a.contents[|a.contents| - 1];
      a' == a.(contents := a.contents[..|a.contents| - 1], owner := APopped(Some(last)),
               front := if |a.contents| == 1 then a.front + 1 else a.front, taken := a.taken + multiset{last})
  }

  /** Steal takes effect: the oldest item; or NULL, but only if the deque is empty,
      a pop is about to take effect, or somebody else has taken an oldest item since
      the steal was called. */
  ghost predicate CommitSteal(a: Atomic, tid: Tid, a': Atomic) {
    tid in a.thieves && a.thieves[tid].ASteal? &&
    ( (a' == a.(thieves := a.thieves[tid := AStolen(None)])
       && (a.contents == [] || a.owner.APop? || a.front > a.thieves[tid].since))
    || (a.contents != [] &&
        a' == a.(contents := a.contents[1..], front := a.front + 1, thieves := a.thieves[tid := AStolen(Some(a.contents[0]))],
                 taken := a.taken + multiset{a.contents[0]})))
  }

  ghost predicate AtomicStep(a: Atomic, l: Label, a': Atomic) {
    match l
    case Tau =>
      a' == a || CommitPush(a, a') || CommitPop(a, a') || exists tid :: CommitSteal(a, tid, a')
    case PushCall(item) => a.owner.ANone? && a' == a.(owner := APush(item))
    case PushReturn(ok) => a.owner == APushed(ok) && a' == a.(owner := ANone)
    case PopCall => a.owner.ANone? && a' == a.(owner := APop)
    case PopReturn(r) => a.owner == APopped(r) && a' == a.(owner := ANone)
    case StealCall(tid) =>
      tid in a.thieves && a.thieves[tid].AAway? && a' == a.(thieves := a.thieves[tid := ASteal(a.front)])
    case StealReturn(tid, r) =>
      tid in a.thieves && a.thieves[tid] == AStolen(r) && a' == a.(thieves := a.thieves[tid := AAway])
  }

  // ------------------------------------------------ abstraction, invariant

  /** The end of the deque as the operations decided so far leave it: `bottom`,
      except while a pop has lowered it without having settled its outcome. */
  function LogicalBottom(o: OwnerPc, bottom: int): int {
    match o
    case PopLoadTop(b) => b + 1
    case PopReset(t) => t
    case PopReadSlot(b, t) => if t < b then b else b + 1
    case PopCas(t, _) => t + 1
    case PopRestore(t, _) => t + 1
    case _ => bottom
  }

  function End(s: State): int { LogicalBottom(s.owner, s.bottom) }

  function Segment(buf: seq<Item>, cap: nat, lo: int, hi: int): (r: seq<Item>)
    requires cap > 0 && |buf| == cap && lo <= hi
    ensures |r| == hi - lo
  {
    seq(hi - lo, i requires 0 <= i < hi - lo => buf[Slot(lo + i, cap)])
  }

  ghost predicate Owns(o: OwnerPc, cap: nat, top: int, bottom: int, buf: seq<Item>)
    requires cap > 0 && |buf| == cap
  {
    && top <= LogicalBottom(o, bottom) <= top + cap
    && match o
       case PushLoadTop(_, b) => b == bottom
       case PushStoreSlot(_, b) => b == bottom < top + cap
       case PushStoreBottom(item, b) => b == bottom < top + cap && buf[Slot(b, cap)] == item
       case PopStoreBottom(b) => bottom == b + 1
       case PopLoadTop(b) => bottom == b
       case PopReset(t) => bottom == t - 1 && top == t
       case PopReadSlot(b, t) => t <= b && t <= top && bottom == b
       case PopCas(t, item) => bottom == t && t <= top && item == buf[Slot(t, cap)]
       case PopRestore(t, _) => bottom == t && top == t + 1
       case _ => true
  }

  ghost predicate OwnerInv(s: State)
    requires WellFormed(s)
  {
    Owns(s.owner, s.cap, s.top, s.bottom, s.buf)
  }

  /** A thief's `t` is never ahead of `top`; if it is current, the item is still
      there and the copy the thief read before its CAS is that item. */
  ghost predicate Knows(p: ThiefPc, top: int, end: int, oldest: Item) {
    match p
    case StealLoadTop(since) => since <= top
    case StealLoadBottom(since, t) => since <= t <= top
    case StealReadSlot(since, t) => since <= t <= top && (t == top ==> t < end)
    case StealCas(since, t, item) => since <= t <= top && (t == top ==> t < end && item == oldest)
    case _ => true
  }

  ghost predicate ThiefInv(s: State, p: ThiefPc)
    requires WellFormed(s)
  {
    Knows(p, s.top, End(s), s.buf[Slot(s.top, s.cap)])
  }

  ghost predicate Inv(s: State) {
    && WellFormed(s) && OwnerInv(s)
    && (forall tid | tid in s.thieves :: ThiefInv(s, s.thieves[tid]))
  }

  function AbsOwner(o: OwnerPc, buf: seq<Item>, cap: nat): AtomicOwner
    requires cap > 0 && |buf| == cap
  {
    match o
    case Idle => ANone
    case PushLoadBottom(item) => APush(item)
    case PushLoadTop(item, _) => APush(item)
    case PushStoreSlot(item, _) => APush(item)
    case PushStoreBottom(item, _) => APush(item)
    case PushDone(ok) => APushed(ok)
    case PopReset(_) => APopped(None)
    case PopReadSlot(b, t) => if t < b then APopped(Some(buf[Slot(b, cap)])) else APop
    case PopRestore(_, result) => APopped(result)
    case PopDone(result) => APopped(result)
    case _ => APop
  }

  function AbsThief(p: ThiefPc): AtomicThief {
    match p
    case Away => AAway
    case StealDone(result) => AStolen(result)
    case _ => ASteal(p.since)
  }

  function Abs(s: State): Atomic
    requires WellFormed(s) && s.top <= End(s)
  {
    Atomic(s.cap, Segment(s.buf, s.cap, s.top, End(s)), s.top, AbsOwner(s.owner, s.buf, s.cap),
           map tid | tid in s.thieves :: AbsThief(s.thieves[tid]), s.pushed, s.taken)
  }

  // ------------------------------------------------------------- ring facts

  lemma SlotsDistinct(i: int, j: int, cap: nat)
    requires cap > 0 && i < j < i + cap
    ensures Slot(i, cap) != Slot(j, cap)
  {
    var q := j / cap - i / cap;
    assert j - i == cap * q + (j % cap - i % cap) by {
      assert i == cap * (i / cap) + i % cap;
      assert j == cap * (j / cap) + j % cap;
    }
    if q >= 1 { assert cap * q >= cap; } else { assert cap * q <= 0; }
  }

  /** Writing the slot of index `b` disturbs no index of a segment that `b` is
      outside of, as long as both fit in one turn of the ring. */
  lemma WriteOutside(buf: seq<Item>, cap: nat, lo: int, b: int, item: Item)
    requires cap > 0 && |buf| == cap && lo <= b < lo + cap
    ensures forall i | lo <= i < b :: buf[Slot(b, cap) := item][Slot(i, cap)] == buf[Slot(i, cap)]
    ensures Segment(buf[Slot(b, cap) := item], cap, lo, b) == Segment(buf, cap, lo, b)
  {
    forall i | lo <= i < b
      ensures buf[Slot(b, cap) := item][Slot(i, cap)] == buf[Slot(i, cap)]
    {
      SlotsDistinct(i, b, cap);
    }
  }

  // ------------------------------------------------------------- refinement

  /** What a step must respect for the other thieves' knowledge to survive it. */
  lemma ThievesKept(s: State, s': State)
    requires Inv(s) && WellFormed(s') && s'.cap == s.cap
    requires s.top < s'.top
          || (s.top == s'.top
              && (s.top < End(s) ==>
                    s.top < End(s') && s'.buf[Slot(s.top, s.cap)] == s.buf[Slot(s.top, s.cap)]))
    ensures forall tid | tid in s'.thieves && tid in s.thieves && s'.thieves[tid] == s.thieves[tid] ::
              ThiefInv(s', s'.thieves[tid])
  {
    forall tid | tid in s'.thieves && tid in s.thieves && s'.thieves[tid] == s.thieves[tid]
      ensures ThiefInv(s', s'.thieves[tid])
    {
      assert ThiefInv(s, s.thieves[tid]);
    }
  }

  lemma PushKeepsInv(s: State)
    requires Inv(s)
    requires s.owner.PushLoadBottom? || s.owner.PushLoadTop? || s.owner.PushStoreSlot?
          || s.owner.PushStoreBottom? || s.owner.PushDone?
    ensures Inv(OwnerApply(s).0)
  {
    if s.owner.PushStoreSlot? { WriteOutside(s.buf, s.cap, s.top, s.owner.b, s.owner.item); }
    ThievesKept(s, OwnerApply(s).0);
  }

  lemma PopKeepsInv(s: State)
    requires Inv(s)
    requires s.owner.PopLoadBottom? || s.owner.PopStoreBottom? || s.owner.PopLoadTop? || s.owner.PopReset?
          || s.owner.PopReadSlot? || s.owner.PopCas? || s.owner.PopRestore? || s.owner.PopDone?
    ensures Inv(OwnerApply(s).0)
  {
    ThievesKept(s, OwnerApply(s).0);
  }

  lemma TopAdvances(s: State, s': State)
    requires Inv(s) && s.top < End(s)
    requires WellFormed(s') && s'.cap == s.cap && s'.top == s.top + 1 && s'.bottom == s.bottom
    requires s'.buf == s.buf && s'.owner == s.owner
    ensures OwnerInv(s')
  {
  }

  lemma ThiefKeepsInv(s: State, tid: Tid)
    requires Inv(s) && tid in s.thieves && !s.thieves[tid].Away?
    ensures Inv(ThiefApply(s, tid).0)
  {
    var s' := ThiefApply(s, tid).0;
    var p := s.thieves[tid];
    assert ThiefInv(s, p);
    if p.StealCas? && s.top == p.t { TopAdvances(s, s'); } else { assert OwnerInv(s'); }
    ThievesKept(s, s');
    assert ThiefInv(s', s'.thieves[tid]);
  }

  lemma PushRefines(s: State)
    requires Inv(s)
    requires s.owner.PushLoadBottom? || s.owner.PushLoadTop? || s.owner.PushStoreSlot?
          || s.owner.PushStoreBottom? || s.owner.PushDone?
    ensures Inv(OwnerApply(s).0)
    ensures AtomicStep(Abs(s), OwnerApply(s).1, Abs(OwnerApply(s).0))
  {
    PushKeepsInv(s);
    var s' := OwnerApply(s).0;
    if s.owner.PushStoreSlot? { WriteOutside(s.buf, s.cap, s.top, s.owner.b, s.owner.item); }
    if s.owner.PushStoreBottom? {
      assert Abs(s').contents == Abs(s).contents + [s.owner.item];
    } else {
      assert Abs(s').contents == Abs(s).contents;
    }
    assert Abs(s').thieves == Abs(s).thieves;
  }

  /** The steps at which a pop's outcome is settled. */
  lemma PopCommits(s: State)
    requires Inv(s) && (s.owner.PopLoadTop? || s.owner.PopCas?)
    ensures Inv(OwnerApply(s).0)
    ensures AtomicStep(Abs(s), OwnerApply(s).1, Abs(OwnerApply(s).0))
  {
    PopKeepsInv(s);
    var s' := OwnerApply(s).0;
    if (s.owner.PopLoadTop? && s.top < s.owner.b) || (s.owner.PopCas? && s.top == s.owner.t) {
      assert Abs(s').contents == Abs(s).contents[..|Abs(s).contents| - 1];
    } else {
      assert Abs(s').contents == Abs(s).contents;
    }
    assert Abs(s').thieves == Abs(s).thieves;
  }

  lemma PopRefines(s: State)
    requires Inv(s)
    requires s.owner.PopLoadBottom? || s.owner.PopStoreBottom? || s.owner.PopLoadTop? || s.owner.PopReset?
          || s.owner.PopReadSlot? || s.owner.PopCas? || s.owner.PopRestore? || s.owner.PopDone?
    ensures Inv(OwnerApply(s).0)
    ensures AtomicStep(Abs(s), OwnerApply(s).1, Abs(OwnerApply(s).0))
  {
    if s.owner.PopLoadTop? || s.owner.PopCas? {
      PopCommits(s);
    } else {
      PopKeepsInv(s);
      assert Abs(OwnerApply(s).0).contents == Abs(s).contents;
      assert Abs(OwnerApply(s).0).thieves == Abs(s).thieves;
    }
  }

  /** A steal that gives up: the load of bottom finds nothing, or the CAS fails. */
  lemma StealGivesUp(s: State, tid: Tid)
    requires Inv(s) && tid in s.thieves
    requires match s.thieves[tid]
             case StealLoadBottom(_, t) => t >= s.bottom
             case StealCas(_, t, _) => t != s.top
             case _ => false
    ensures CommitSteal(Abs(s), tid, Abs(ThiefApply(s, tid).0))
  {
    var s' := ThiefApply(s, tid).0;
    assert ThiefInv(s, s.thieves[tid]);
    assert Abs(s').thieves == Abs(s).thieves[tid := AStolen(None)];
    assert Abs(s').contents == Abs(s).contents;
  }

  lemma StealTakes(s: State, tid: Tid)
    requires Inv(s) && tid in s.thieves && s.thieves[tid].StealCas? && s.thieves[tid].t == s.top
    ensures Inv(ThiefApply(s, tid).0) && CommitSteal(Abs(s), tid, Abs(ThiefApply(s, tid).0))
  {
    ThiefKeepsInv(s, tid);
    var s' := ThiefApply(s, tid).0;
    assert ThiefInv(s, s.thieves[tid]);
    assert Abs(s').thieves == Abs(s).thieves[tid := AbsThief(s'.thieves[tid])];
    assert Abs(s').contents == Abs(s).contents[1..];
  }

  lemma ThiefRefines(s: State, tid: Tid)
    requires Inv(s) && tid in s.thieves && !s.thieves[tid].Away?
    ensures Inv(ThiefApply(s, tid).0)
    ensures AtomicStep(Abs(s), ThiefApply(s, tid).1, Abs(ThiefApply(s, tid).0))
  {
    ThiefKeepsInv(s, tid);
    var s' := ThiefApply(s, tid).0;
    var p := s.thieves[tid];
    if p.StealCas? && p.t == s.top {
      StealTakes(s, tid);
    } else if p.StealCas? || (p.StealLoadBottom? && p.t >= s.bottom) {
      StealGivesUp(s, tid);
    } else {
      assert Abs(s').thieves == Abs(s).thieves[tid := AbsThief(s'.thieves[tid])];
      assert Abs(s').contents == Abs(s).contents;
      if !p.StealDone? { assert Abs(s').thieves == Abs(s).thieves; }
    }
  }

  /** Every step of the code is a step of the atomic deque: same calls, same
      results, effect in one instant, NULL pops only when it is empty. */
  lemma Refines(s: State, a: Action)
    requires Inv(s) && Enabled(s, a)
    ensures Inv(Apply(s, a).0)
    ensures AtomicStep(Abs(s), Apply(s, a).1, Abs(Apply(s, a).0))
  {
    var s' := Apply(s, a).0;
    match a {
      case OwnerStep =>
        match s.owner {
          case PushLoadBottom(_) => PushRefines(s);
          case PushLoadTop(_, _) => PushRefines(s);
          case PushStoreSlot(_, _) => PushRefines(s);
          case PushStoreBottom(_, _) => PushRefines(s);
          case PushDone(_) => PushRefines(s);
          case _ => PopRefines(s);
        }
      case ThiefStep(tid) => ThiefRefines(s, tid);
      case CallSteal(tid) =>
        ThievesKept(s, s');
        assert Abs(s').thieves == Abs(s).thieves[tid := ASteal(s.top)];
      case _ =>
        ThievesKept(s, s');
        assert Abs(s').thieves == Abs(s).thieves;
    }
  }

  // ------------------------------------------------------------------- runs

  /** Pushed items are exactly the taken ones and the ones still in the deque. */
  ghost predicate Conserved(a: Atomic) {
    a.pushed == a.taken + multiset(a.contents)
  }

  lemma LastApart(c: seq<Item>)
    requires c != []
    ensures multiset(c) == multiset(c[..|c| - 1]) + multiset{c[|c| - 1]}
  {
    assert c == c[..|c| - 1] + [c[|c| - 1]];
  }

  lemma FirstApart(c: seq<Item>)
    requires c != []
    ensures multiset(c) == multiset{c[0]} + multiset(c[1..])
  {
    assert c == [c[0]] + c[1..];
  }

  lemma PushConserves(a: Atomic, a': Atomic)
    requires Conserved(a) && CommitPush(a, a')
    ensures Conserved(a')
  {
  }

  lemma PopConserves(a: Atomic, a': Atomic)
    requires Conserved(a) && CommitPop(a, a')
    ensures Conserved(a')
  {
    if a.contents != [] { LastApart(a.contents); }
  }

  lemma StealConserves(a: Atomic, tid: Tid, a': Atomic)
    requires Conserved(a) && CommitSteal(a, tid, a')
    ensures Conserved(a')
  {
    if a.contents != [] { FirstApart(a.contents); }
  }

  lemma AtomicConserves(a: Atomic, l: Label, a': Atomic)
    requires Conserved(a) && AtomicStep(a, l, a')
    ensures Conserved(a')
  {
    if l.Tau? && a' != a {
      if CommitPush(a, a') { PushConserves(a, a'); }
      else if CommitPop(a, a') { PopConserves(a, a'); }
      else { var tid :| CommitSteal(a, tid, a'); StealConserves(a, tid, a'); }
    }
  }

  /** A run of the code from an initialised deque, under any interleaving. */
  ghost predicate Run(ss: seq<State>, acts: seq<Action>) {
    && |ss| == |acts| + 1 && Init(ss[0])
    && (forall i | 0 <= i < |acts| ::
          WellFormed(ss[i]) && Enabled(ss[i], acts[i]) && ss[i + 1] == Apply(ss[i], acts[i]).0)
  }

  ghost predicate AtomicRun(atoms: seq<Atomic>, labels: seq<Label>) {
    && |atoms| == |labels| + 1
    && atoms[0].contents == [] && atoms[0].front == 0 && atoms[0].owner.ANone?
    && (forall tid | tid in atoms[0].thieves :: atoms[0].thieves[tid].AAway?)
    && (forall i | 0 <= i < |labels| :: AtomicStep(atoms[i], labels[i], atoms[i + 1]))
  }

  lemma {:induction false} RunKeepsInv(ss: seq<State>, acts: seq<Action>, i: nat)
    requires Run(ss, acts) && i < |ss|
    ensures Inv(ss[i]) && Conserved(Abs(ss[i]))
    decreases i
  {
    if i == 0 {
      assert Abs(ss[0]).contents == [];
    } else {
      RunKeepsInv(ss, acts, i - 1);
      Refines(ss[i - 1], acts[i - 1]);
      AtomicConserves(Abs(ss[i - 1]), Apply(ss[i - 1], acts[i - 1]).1, Abs(ss[i]));
    }
  }

  /** The label shows the caller's side of the action: which call, with what. */
  predicate Shows(a: Action, l: Label) {
    match a
    case CallPush(item) => l == PushCall(item)
    case CallPop => l == PopCall
    case CallSteal(tid) => l == StealCall(tid)
    case OwnerStep => l.Tau? || l.PushReturn? || l.PopReturn?
    case ThiefStep(tid) => l.Tau? || (l.StealReturn? && l.tid == tid)
  }

  /** Linearizability: the calls and results of any run of the code are those of
      a run of the atomic deque, state by state. */
  lemma {:induction false} RunsAreAtomic(ss: seq<State>, acts: seq<Action>)
      returns (atoms: seq<Atomic>, labels: seq<Label>)
    requires Run(ss, acts)
    ensures |atoms| == |ss| && |labels| == |acts|
    ensures forall i | 0 <= i < |ss| ::
              Inv(ss[i]) && atoms[i] == Abs(ss[i]) && Conserved(atoms[i])
    ensures forall i | 0 <= i < |acts| :: labels[i] == Apply(ss[i], acts[i]).1 && Shows(acts[i], labels[i])
    ensures AtomicRun(atoms, labels)
  {
    forall i | 0 <= i < |ss| ensures Inv(ss[i]) && Conserved(Abs(ss[i])) {
      RunKeepsInv(ss, acts, i);
    }
    atoms := seq(|ss|, i requires 0 <= i < |ss| => Abs(ss[i]));
    labels := seq(|acts|, i requires 0 <= i < |acts| => Apply(ss[i], acts[i]).1);
    forall i | 0 <= i < |labels| ensures AtomicStep(atoms[i], labels[i], atoms[i + 1]) {
      Refines(ss[i], acts[i]);
    }
  }

  // ------------------------------------------------------- every call returns

  /** The steps the owner's call has left, at most. */
  function OwnerLeft(o: OwnerPc): nat {
    match o
    case Idle => 0
    case PushLoadBottom(_) => 5
    case PushLoadTop(_, _) => 4
    case PushStoreSlot(_, _) => 3
    case PushStoreBottom(_, _) => 2
    case PushDone(_) => 1
    case PopLoadBottom => 7
    case PopStoreBottom(_) => 6
    case PopLoadTop(_) => 5
    case PopReset(_) => 2
    case PopReadSlot(_, _) => 4
    case PopCas(_, _) => 3
    case PopRestore(_, _) => 2
    case PopDone(_) => 1
  }

  function ThiefLeft(p: ThiefPc): nat {
    match p
    case Away => 0
    case StealLoadTop(_) => 5
    case StealLoadBottom(_, _) => 4
    case StealReadSlot(_, _) => 3
    case StealCas(_, _, _) => 2
    case StealDone(_) => 1
  }

  /** The steps that thread `who` (none for the owner) has left. */
  function Left(s: State, who: Option<Tid>): nat {
    if who.None? then OwnerLeft(s.owner) else if who.value in s.thieves then ThiefLeft(s.thieves[who.value]) else 0
  }

  predicate OwnStep(a: Action, who: Option<Tid>) {
    if who.None? then a.OwnerStep? else a == ThiefStep(who.value)
  }

  predicate Calls(a: Action, who: Option<Tid>) {
    if who.None? then a.CallPush? || a.CallPop? else a == CallSteal(who.value)
  }

  lemma OwnerAdvances(s: State)
    requires WellFormed(s) && !s.owner.Idle?
    ensures OwnerLeft(OwnerApply(s).0.owner) < OwnerLeft(s.owner) && OwnerApply(s).0.thieves == s.thieves
  {
  }

  lemma ThiefAdvances(s: State, tid: Tid)
    requires WellFormed(s) && tid in s.thieves && !s.thieves[tid].Away?
    ensures var s' := ThiefApply(s, tid).0;
            && tid in s'.thieves && ThiefLeft(s'.thieves[tid]) < ThiefLeft(s.thieves[tid]) && s'.owner == s.owner
            && s'.thieves == s.thieves[tid := s'.thieves[tid]]
  {
  }

  lemma Advances(s: State, a: Action, who: Option<Tid>)
    requires WellFormed(s) && Enabled(s, a) && !Calls(a, who)
    ensures Left(Apply(s, a).0, who) + (if OwnStep(a, who) then 1 else 0) <= Left(s, who)
  {
    if a.OwnerStep? { OwnerAdvances(s); }
    if a.ThiefStep? { ThiefAdvances(s, a.tid); }
  }

  lemma AdvancesAt(ss: seq<State>, acts: seq<Action>, k: nat, who: Option<Tid>)
    requires Run(ss, acts) && k < |acts| && !Calls(acts[k], who)
    ensures Left(ss[k + 1], who) + (if OwnStep(acts[k], who) then 1 else 0) <= Left(ss[k], who)
  {
    assert WellFormed(ss[k]) && Enabled(ss[k], acts[k]);
    Advances(ss[k], acts[k], who);
  }

  lemma CallLeaves(ss: seq<State>, acts: seq<Action>, j: nat, who: Option<Tid>)
    requires Run(ss, acts) && j < |acts| && Calls(acts[j], who)
    ensures Left(ss[j + 1], who) <= 7
  {
    assert WellFormed(ss[j]) && Enabled(ss[j], acts[j]) && ss[j + 1] == Apply(ss[j], acts[j]).0;
  }

  function Lefts(ss: seq<State>, who: Option<Tid>): (left: seq<nat>)
    ensures |left| == |ss| && forall k | 0 <= k < |ss| :: left[k] == Left(ss[k], who)
  {
    seq(|ss|, k requires 0 <= k < |ss| => Left(ss[k], who))
  }

  function Mine(acts: seq<Action>, who: Option<Tid>): (own: seq<bool>)
    ensures |own| == |acts| && forall k | 0 <= k < |acts| :: own[k] == OwnStep(acts[k], who)
  {
    seq(|acts|, k requires 0 <= k < |acts| => OwnStep(acts[k], who))
  }

  /** Push, pop and steal are wait-free: whatever the other threads do, a call returns
      within seven steps of its own. */
  lemma CallsReturn(ss: seq<State>, acts: seq<Action>, j: nat, m: nat, who: Option<Tid>)
    requires Run(ss, acts) && j < m <= |acts| && Calls(acts[j], who) && forall k | j < k < m :: !Calls(acts[k], who)
    ensures Own(Mine(acts, who), j + 1, m) + Left(ss[m], who) <= 7
  {
    var left, own := Lefts(ss, who), Mine(acts, who);
    CallLeaves(ss, acts, j, who);
    forall k | j + 1 <= k < m ensures left[k + 1] + (if own[k] then 1 else 0) <= left[k] {
      AdvancesAt(ss, acts, k, who);
    }
    Spent(left, own, j + 1, m);
  }

  // ---------------------------------------------------- one thread at a time

  /** The deque as a mutable object, each operation running alone. */
  class ClDeque {
    var top: int
    var bottom: int
    const buf: array<Item>

    ghost predicate Valid()
      reads this, buf
    {
      buf.Length > 0 && top <= bottom <= top + buf.Length
    }

    ghost function Contents(): (r: seq<Item>)
      requires Valid()
      reads this, buf
    {
      Segment(buf[..], buf.Length, top, bottom)
    }

    constructor (capacity: nat)
      requires capacity > 0
      ensures Valid() && Contents() == [] && buf.Length == capacity && fresh(buf)
    {
      buf := new Item[capacity];
      top, bottom := 0, 0;
    }

    method Push(item: Item) returns (rc: int)
      requires Valid()
      modifies this, buf
      ensures Valid()
      ensures rc == if |old(Contents())| == buf.Length then -1 else 0
      ensures Contents() == if rc == 0 then old(Contents()) + [item] else old(Contents())
    {
      var b := bottom;
      var t := top;
      if b - t >= buf.Length { return -1; }
      WriteOutside(buf[..], buf.Length, top, b, item);
      buf[Slot(b, buf.Length)] := item;
      assert buf[..] == old(buf[..])[Slot(b, buf.Length) := item];
      bottom := b + 1;
      assert Contents() == old(Contents()) + [item];
      rc := 0;
    }

    method Pop() returns (item: Option<Item>)
      requires Valid()
      modifies this
      ensures Valid()
      ensures item == if old(Contents()) == [] then None
                      else Some(old(Contents())[|old(Contents())| - 1])
      ensures Contents() == if item.None? then [] else old(Contents())[..|old(Contents())| - 1]
    {
      var b := bottom - 1;
      bottom := b;
      var t := top;
      if t > b {
        bottom := t;
        return None;
      }
      var x := buf[Slot(b, buf.Length)];
      if t < b { return Some(x); }
      top := t + 1;     // the CAS: with no thief about, it wins
      bottom := t + 1;
      item := Some(x);
    }

    method Steal() returns (item: Option<Item>)
      requires Valid()
      modifies this
      ensures Valid()
      ensures item == if old(Contents()) == [] then None else Some(old(Contents())[0])
      ensures Contents() == if item.None? then [] else old(Contents())[1..]
    {
      var t := top;
      var b := bottom;
      if t >= b { return None; }
      var x := buf[Slot(t, buf.Length)];
      top := t + 1;     // the CAS, as in Pop
      item := Some(x);
    }

    method Size() returns (n: int)
      requires Valid()
      ensures n == |Contents()|
    {
      n := bottom - top;
    }
  }
}
