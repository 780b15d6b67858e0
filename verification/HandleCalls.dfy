/**
 What a caller of the handle table gets, call by call, in any run of the machine
 of HandleTable: the arguments of a call against what it did and returned.
 */
module HandleCalls {
  import opened Options
  import opened HandleTable
  import opened Runs

  /** In the states after j, up to m, thread t is in the call it makes at j; at m it
      may have returned from it. */
  ghost predicate During(ss: seq<State>, acts: seq<Action>, j: nat, m: nat, t: Tid) {
    && Run(ss, acts) && j < m < |ss| && !acts[j].Step? && acts[j].t == t
    && forall k | j < k < m :: t in ss[k].threads && !ss[k].threads[t].Ready?
  }

  lemma RegisterSpares(s: State, u: Tid, grown: bool, t: Tid)
    requires Safe(s) && u in s.threads && t in s.threads && u != t
    ensures var s' := RegisterStep(s, u, grown); t in s'.threads && s'.threads[t] == s.threads[t]
  {
  }

  lemma PinSpares(s: State, u: Tid, t: Tid)
    requires Safe(s) && u in s.threads && t in s.threads && u != t
    ensures var s' := PinStep(s, u); t in s'.threads && s'.threads[t] == s.threads[t]
  {
  }

  lemma DropSpares(s: State, u: Tid, t: Tid)
    requires Safe(s) && u in s.threads && t in s.threads && u != t
    ensures var s' := DropStep(s, u); t in s'.threads && s'.threads[t] == s.threads[t]
  {
  }

  lemma ReclaimSpares(s: State, u: Tid, t: Tid)
    requires Safe(s) && u in s.threads && t in s.threads && u != t
    ensures var s' := ReclaimStep(s, u); t in s'.threads && s'.threads[t] == s.threads[t]
  {
  }

  /** A thread moves only by its own steps. */
  lemma OthersSparePc(s: State, a: Action, t: Tid)
    requires Safe(s) && Enabled(s, a) && t in s.threads && a.t != t
    ensures t in Apply(s, a).threads && Apply(s, a).threads[t] == s.threads[t]
  {
    if a.Step? {
      RegisterSpares(s, a.t, a.grown, t);
      PinSpares(s, a.t, t);
      DropSpares(s, a.t, t);
      ReclaimSpares(s, a.t, t);
    }
  }

  // --------------------------------------------------------------- register

  /** What the register that this thread is in was called with. */
  function RegArgs(pc: Pc): Option<Record> {
    match pc
    case RegTake(ptr, freeFn) => Some(Record(ptr, freeFn))
    case RegFill(ptr, freeFn, _) => Some(Record(ptr, freeFn))
    case RegPublish(_, _, args) => Some(args)
    case RegCount(_, _, _, args) => Some(args)
    case RegDone(_, _, args) => Some(args)
    case _ => None
  }

  lemma RegisterStepArgs(s: State, a: Action, t: Tid, args: Record)
    requires Safe(s) && Enabled(s, a) && t in s.threads && RegArgs(s.threads[t]) == Some(args)
    ensures t in Apply(s, a).threads
    ensures Apply(s, a).threads[t].Ready? || RegArgs(Apply(s, a).threads[t]) == Some(args)
  {
    if a.t != t { OthersSparePc(s, a, t); }
  }

  ghost predicate InRegister(s: State, t: Tid, args: Record) {
    t in s.threads && (s.threads[t].Ready? || RegArgs(s.threads[t]) == Some(args))
  }

  lemma RegisterArgsAt(ss: seq<State>, acts: seq<Action>, j: nat, k: nat, t: Tid)
    requires During(ss, acts, j, k + 1, t) && acts[j].CallRegister?
    requires k > j ==> InRegister(ss[k], t, Record(acts[j].ptr, acts[j].freeFn))
    ensures InRegister(ss[k + 1], t, Record(acts[j].ptr, acts[j].freeFn))
  {
    assert Safe(ss[k]) && Enabled(ss[k], acts[k]) && ss[k + 1] == Apply(ss[k], acts[k]);
    if k > j { RegisterStepArgs(ss[k], acts[k], t, Record(acts[j].ptr, acts[j].freeFn)); }
  }

  lemma {:induction false} RegisterArgs(ss: seq<State>, acts: seq<Action>, j: nat, m: nat, t: Tid)
    requires During(ss, acts, j, m, t) && acts[j].CallRegister?
    ensures InRegister(ss[m], t, Record(acts[j].ptr, acts[j].freeFn))
  {
    if m == j + 1 {
    } else {
      assert InRegister(ss[m - 1], t, Record(acts[j].ptr, acts[j].freeFn)) by { RegisterArgs(ss, acts, j, m - 1, t); }
    }
    RegisterArgsAt(ss, acts, j, m - 1, t);
  }

  /** A register that returns a handle has made, under that handle, a registration of
      what it was called with, and its caller holds a reference to it. */
  lemma RegisterRecords(ss: seq<State>, acts: seq<Action>, j: nat, m: nat, t: Tid)
    requires During(ss, acts, j, m, t) && CountsFit(ss) && acts[j].CallRegister?
    requires t in ss[m].threads && ss[m].threads[t].RegDone? && ss[m].threads[t].result.Some?
    ensures var s, pc := ss[m], ss[m].threads[t];
            && pc.tok in s.tokens && s.tokens[pc.tok].user == Some(t)
            && var r := s.tokens[pc.tok].reg;
               pc.result.value == HandleOf(r) && RecordedAs(r, s.slots, Record(acts[j].ptr, acts[j].freeFn))
               && s.slots[r.idx].epoch == r.epoch && s.slots[r.idx].ptr == acts[j].ptr
  {
    RegisterArgs(ss, acts, j, m, t);
    RunKeepsInv(ss, acts, m);
    var s := ss[m];
    assert ThreadInv(t, s.threads[t], s.slots, s.tokens);
    HolderPins(s, s.threads[t].tok);
  }

  /** No slot is free and the table does not grow. */
  ghost predicate Exhausted(s: State, a: Action) {
    (forall i | 0 <= i < |s.slots| :: !s.slots[i].at.InFree?) && (s.nsegs >= MAX_SEGS || (a.Step? && !a.grown))
  }

  lemma TakeFailsIff(s: State, a: Action)
    requires Inv(s) && Safe(s) && Enabled(s, a) && a.Step? && s.threads[a.t].RegTake?
    ensures Apply(s, a).threads[a.t].RegDone? || Apply(s, a).threads[a.t].RegFill?
    ensures Apply(s, a).threads[a.t].RegDone? <==> Exhausted(s, a)
  {
    if s.free != [] { assert s.slots[s.free[0]].at.InFree?; }
  }

  predicate Failed(pc: Pc) { pc.RegDone? && pc.result.None? }

  lemma FailsAt(s: State, a: Action)
    requires Inv(s) && Safe(s) && Enabled(s, a) && a.Step? && RegArgs(s.threads[a.t]).Some?
    ensures Failed(Apply(s, a).threads[a.t]) ==> s.threads[a.t].RegTake? && Exhausted(s, a)
  {
    if s.threads[a.t].RegTake? { TakeFailsIff(s, a); }
  }

  /** This is why thread t has failed. */
  ghost predicate FailsHere(s: State, a: Action, t: Tid) {
    a.t == t && if a.CallRegister? then a.ptr == 0 else Exhausted(s, a)
  }

  lemma FailsStep(s: State, a: Action, t: Tid)
    requires Inv(s) && Safe(s) && Enabled(s, a) && t in s.threads
    requires RegArgs(s.threads[t]).Some? || (a.t == t && a.CallRegister?)
    ensures t in Apply(s, a).threads
    ensures Failed(Apply(s, a).threads[t]) ==> Failed(s.threads[t]) || FailsHere(s, a, t)
  {
    if a.t != t { OthersSparePc(s, a, t); } else if a.Step? { FailsAt(s, a); }
  }

  lemma FailsBetween(ss: seq<State>, acts: seq<Action>, j: nat, k: nat, t: Tid)
    requires During(ss, acts, j, k + 1, t) && CountsFit(ss) && acts[j].CallRegister?
    ensures t in ss[k].threads && t in ss[k + 1].threads
    ensures Failed(ss[k + 1].threads[t]) ==> Failed(ss[k].threads[t]) || FailsHere(ss[k], acts[k], t)
  {
    if k > j { RegisterArgs(ss, acts, j, k, t); }
    assert Inv(ss[k]) by { RunKeepsInv(ss, acts, k); }
    FailsStep(ss[k], acts[k], t);
  }

  function Failures(ss: seq<State>, t: Tid): (b: seq<bool>)
    ensures |b| == |ss|
  {
    seq(|ss|, i requires 0 <= i < |ss| => t in ss[i].threads && Failed(ss[i].threads[t]))
  }

  /** A register fails only for NULL, or if at its turn no slot is free and the table
      does not grow. */
  lemma RegisterFailsOnly(ss: seq<State>, acts: seq<Action>, j: nat, m: nat, t: Tid) returns (k: nat)
    requires During(ss, acts, j, m, t) && CountsFit(ss) && acts[j].CallRegister?
    requires t in ss[m].threads && Failed(ss[m].threads[t])
    ensures j <= k < m && FailsHere(ss[k], acts[k], t)
  {
    var b := Failures(ss, t);
    assert !b[j] by { assert Enabled(ss[j], acts[j]); }
    k := Starts(b, j, m);
    FailsBetween(ss, acts, j, k, t);
  }

  /** The steps a register has left, at most. */
  function RegLeft(pc: Pc): nat {
    match pc
    case RegTake(_, _) => 5
    case RegFill(_, _, _) => 4
    case RegPublish(_, _, _) => 3
    case RegCount(_, _, _, _) => 2
    case RegDone(_, _, _) => 1
    case _ => 0
  }

  /** Which actions are thread t's. */
  function Mine(acts: seq<Action>, t: Tid): (own: seq<bool>)
    ensures |own| == |acts| && forall k | 0 <= k < |acts| :: own[k] == (acts[k].t == t)
  {
    seq(|acts|, k requires 0 <= k < |acts| => acts[k].t == t)
  }

  lemma RegisterAdvances(s: State, a: Action, t: Tid)
    requires Safe(s) && Enabled(s, a) && t in s.threads && RegArgs(s.threads[t]).Some?
    ensures t in Apply(s, a).threads
    ensures RegLeft(Apply(s, a).threads[t]) + (if a.t == t then 1 else 0) <= RegLeft(s.threads[t])
  {
    if a.t != t { OthersSparePc(s, a, t); }
  }

  lemma AdvancesAt(ss: seq<State>, acts: seq<Action>, j: nat, k: nat, t: Tid)
    requires During(ss, acts, j, k + 1, t) && acts[j].CallRegister?
    ensures t in ss[k].threads && t in ss[k + 1].threads
    ensures if k == j then RegLeft(ss[k + 1].threads[t]) <= 5
            else RegLeft(ss[k + 1].threads[t]) + (if acts[k].t == t then 1 else 0) <= RegLeft(ss[k].threads[t])
  {
    assert Safe(ss[k]) && Enabled(ss[k], acts[k]) && ss[k + 1] == Apply(ss[k], acts[k]);
    if k > j {
      RegisterArgs(ss, acts, j, k, t);
      RegisterAdvances(ss[k], acts[k], t);
    }
  }

  function Lefts(ss: seq<State>, t: Tid): (left: seq<nat>)
    ensures |left| == |ss|
  {
    seq(|ss|, i requires 0 <= i < |ss| => if t in ss[i].threads then RegLeft(ss[i].threads[t]) else 0)
  }

  /** It returns within five steps of its own, whatever the other threads do. */
  lemma RegisterReturns(ss: seq<State>, acts: seq<Action>, j: nat, m: nat, t: Tid)
    requires During(ss, acts, j, m, t) && acts[j].CallRegister?
    ensures t in ss[m].threads && Own(Mine(acts, t), j + 1, m) + RegLeft(ss[m].threads[t]) <= 5
  {
    var left, own := Lefts(ss, t), Mine(acts, t);
    forall k | j + 1 <= k < m ensures left[k + 1] + (if own[k] then 1 else 0) <= left[k] {
      AdvancesAt(ss, acts, j, k, t);
    }
    AdvancesAt(ss, acts, j, j, t);
    AdvancesAt(ss, acts, j, m - 1, t);
    Spent(left, own, j + 1, m);
  }

  // -------------------------------------------------------------------- pin

  function PinOf(pc: Pc): Option<Handle> {
    if pc.PinLoad? || pc.PinTry? || pc.PinRead? || pc.PinDone? then Some(pc.h) else None
  }

  lemma PinStepHandle(s: State, a: Action, u: Tid, h: Handle)
    requires Safe(s) && Enabled(s, a) && u in s.threads && PinOf(s.threads[u]) == Some(h)
    ensures u in Apply(s, a).threads
    ensures Apply(s, a).threads[u].Ready? || PinOf(Apply(s, a).threads[u]) == Some(h)
  {
    if a.t != u { OthersSparePc(s, a, u); }
  }

  ghost predicate InPin(s: State, u: Tid, h: Handle) {
    u in s.threads && (s.threads[u].Ready? || PinOf(s.threads[u]) == Some(h))
  }

  lemma PinHandleAt(ss: seq<State>, acts: seq<Action>, k: nat, i: nat, u: Tid)
    requires During(ss, acts, k, i + 1, u) && acts[k].CallPin? && (i > k ==> InPin(ss[i], u, acts[k].h))
    ensures InPin(ss[i + 1], u, acts[k].h)
  {
    assert Safe(ss[i]) && Enabled(ss[i], acts[i]) && ss[i + 1] == Apply(ss[i], acts[i]);
    if i > k { PinStepHandle(ss[i], acts[i], u, acts[k].h); }
  }

  lemma {:induction false} PinHandle(ss: seq<State>, acts: seq<Action>, k: nat, m: nat, u: Tid)
    requires During(ss, acts, k, m, u) && acts[k].CallPin?
    ensures InPin(ss[m], u, acts[k].h)
  {
    if m == k + 1 {
    } else {
      assert InPin(ss[m - 1], u, acts[k].h) by { PinHandle(ss, acts, k, m - 1, u); }
    }
    PinHandleAt(ss, acts, k, m - 1, u);
  }

  /** What a registration was made with is never changed. */
  lemma RecsGrow(s: State, a: Action, i: nat)
    requires Safe(s) && Enabled(s, a) && i < |s.slots|
    ensures i < |Apply(s, a).slots| && s.slots[i].recs <= Apply(s, a).slots[i].recs
  {
    if a.Step? {
      RegisterRecs(s, a.t, a.grown, i);
      PinRecs(s, a.t, i);
      DropRecs(s, a.t, i);
      ReclaimRecs(s, a.t, i);
    }
  }

  lemma RegisterRecs(s: State, u: Tid, grown: bool, i: nat)
    requires Safe(s) && u in s.threads && i < |s.slots|
    ensures var s' := RegisterStep(s, u, grown); i < |s'.slots| && s.slots[i].recs <= s'.slots[i].recs
  {
    if s.threads[u].RegTake? { TakeRecs(s, u, s.threads[u].ptr, s.threads[u].freeFn, grown, i); }
  }

  lemma TakeRecs(s: State, u: Tid, ptr: Obj, freeFn: bool, grown: bool, i: nat)
    requires Safe(s) && u in s.threads && i < |s.slots|
    ensures var s' := Take(s, u, ptr, freeFn, grown); i < |s'.slots| && s.slots[i].recs <= s'.slots[i].recs
  {
  }

  lemma PinRecs(s: State, u: Tid, i: nat)
    requires Safe(s) && u in s.threads && i < |s.slots|
    ensures var s' := PinStep(s, u); i < |s'.slots| && s.slots[i].recs <= s'.slots[i].recs
  {
  }

  lemma DropRecs(s: State, u: Tid, i: nat)
    requires Safe(s) && u in s.threads && i < |s.slots|
    ensures var s' := DropStep(s, u); i < |s'.slots| && s.slots[i].recs <= s'.slots[i].recs
  {
  }

  lemma ReclaimRecs(s: State, u: Tid, i: nat)
    requires Safe(s) && u in s.threads && i < |s.slots|
    ensures var s' := ReclaimStep(s, u); i < |s'.slots| && s.slots[i].recs <= s'.slots[i].recs
  {
  }

  lemma {:induction false} RecordKept(ss: seq<State>, acts: seq<Action>, n: nat, m: nat, r: Reg, args: Record)
    requires Run(ss, acts) && n <= m < |ss| && RecordedAs(r, ss[n].slots, args)
    ensures RecordedAs(r, ss[m].slots, args)
    decreases m
  {
    if m == n {
    } else {
      RecordKept(ss, acts, n, m - 1, r, args);
      assert Safe(ss[m - 1]) && Enabled(ss[m - 1], acts[m - 1]);
      RecsGrow(ss[m - 1], acts[m - 1], r.idx);
    }
  }

  /** Thread t's register is about to return the handle of registration r. */
  predicate Returns(s: State, t: Tid, r: Reg) {
    && t in s.threads && s.threads[t].RegDone? && s.threads[t].result == Some(HandleOf(r))
    && s.threads[t].tok in s.tokens && s.tokens[s.threads[t].tok].reg == r
  }

  /** A register of `ptr` that returned handle h, and a pin of h that returns an
      object, before 2^32 reclaims of the slot: that object is `ptr`, whoever pins
      and whatever else goes on. */
  lemma PinReturnsCallersPtr(ss: seq<State>, acts: seq<Action>, j: nat, n: nat, t: Tid, r: Reg, k: nat, m: nat, u: Tid)
    requires During(ss, acts, j, n, t) && CountsFit(ss) && acts[j].CallRegister? && Returns(ss[n], t, r)
    requires During(ss, acts, k, m, u) && acts[k] == CallPin(u, HandleOf(r)) && n <= m
    requires u in ss[m].threads && ss[m].threads[u].PinDone? && ss[m].threads[u].ptr != 0
    requires r.idx < |ss[m].slots| && r.epoch <= ss[m].slots[r.idx].epoch < r.epoch + GENS
    ensures ss[m].threads[u].ptr == acts[j].ptr
  {
    RegisterRecords(ss, acts, j, n, t);
    RecordKept(ss, acts, n, m, r, Record(acts[j].ptr, acts[j].freeFn));
    PinHandle(ss, acts, k, m, u);
    RunReachable(ss, acts, m);
    PinReturnsRegistered(ss[m], u, r);
  }

  lemma RunReachable(ss: seq<State>, acts: seq<Action>, n: nat)
    requires Run(ss, acts) && CountsFit(ss) && n < |ss|
    ensures Reachable(ss[n])
  {
    var ss', acts' := ss[..n + 1], acts[..n];
    assert Run(ss', acts') && CountsFit(ss') && ss'[|acts'|] == ss[n];
  }

  /** And once reclaimed, and at rest, its free_fn has run once if the caller passed
      one and not at all otherwise. */
  lemma CallersFreeFnRuns(ss: seq<State>, acts: seq<Action>, j: nat, n: nat, t: Tid, r: Reg, m: nat)
    requires During(ss, acts, j, n, t) && CountsFit(ss) && acts[j].CallRegister? && n <= m < |ss| && Returns(ss[n], t, r)
    ensures r.idx < |ss[m].slots|
    ensures var sl := ss[m].slots[r.idx];
            && (r.epoch >= sl.epoch ==> sl.freed[r.epoch] == 0)
            && (r.epoch < sl.epoch && PhaseTid(sl.at).None? ==> sl.freed[r.epoch] == if acts[j].freeFn then 1 else 0)
  {
    RegisterRecords(ss, acts, j, n, t);
    RecordKept(ss, acts, n, m, r, Record(acts[j].ptr, acts[j].freeFn));
    RunKeepsInv(ss, acts, m);
    assert SlotInv(ss[m].slots[r.idx], r.idx, r.idx in ss[m].counted);
  }

  /** The slot is in use by registration r. */
  predicate LiveAt(s: State, r: Reg) {
    r.idx < |s.slots| && s.slots[r.idx].at.InUse? && s.slots[r.idx].epoch == r.epoch
  }

  /** The pin has seen nothing but a live slot. */
  predicate GoingWell(pc: Pc, h: Handle) {
    match pc
    case PinLoad(h') => h' == h
    case PinTry(h', gr) => h' == h && gr.gen == h.gen && gr.rc > 0
    case PinRead(h', _) => h' == h
    case PinDone(h', ptr, _) => h' == h && ptr != 0
    case _ => false
  }

  lemma PinGoesOnWell(s: State, u: Tid, r: Reg)
    requires Safe(s) && u in s.threads && LiveAt(s, r) && SlotInv(s.slots[r.idx], r.idx, r.idx in s.counted)
    requires GoingWell(s.threads[u], HandleOf(r))
    ensures var pc := PinStep(s, u).threads[u]; pc.Ready? || GoingWell(pc, HandleOf(r))
  {
  }

  lemma PinWellAt(ss: seq<State>, acts: seq<Action>, k: nat, i: nat, u: Tid, r: Reg)
    requires During(ss, acts, k, i + 1, u) && CountsFit(ss) && acts[k] == CallPin(u, HandleOf(r)) && LiveAt(ss[i], r)
    requires i > k ==> u in ss[i].threads && GoingWell(ss[i].threads[u], HandleOf(r))
    ensures u in ss[i + 1].threads && (ss[i + 1].threads[u].Ready? || GoingWell(ss[i + 1].threads[u], HandleOf(r)))
  {
    var s, a := ss[i], acts[i];
    assert Safe(s) && Enabled(s, a) && ss[i + 1] == Apply(s, a);
    if i > k {
      if a.t != u {
        OthersSparePc(s, a, u);
      } else {
        assert SlotInv(s.slots[r.idx], r.idx, r.idx in s.counted) by { RunKeepsInv(ss, acts, i); }
        PinGoesOnWell(s, u, r);
      }
    }
  }

  /** A pin of a registration that stays in use throughout does not fail. */
  lemma {:induction false} PinSucceeds(ss: seq<State>, acts: seq<Action>, k: nat, m: nat, u: Tid, r: Reg)
    requires During(ss, acts, k, m, u) && CountsFit(ss) && acts[k] == CallPin(u, HandleOf(r))
    requires forall i | k <= i < m :: LiveAt(ss[i], r)
    ensures u in ss[m].threads && (ss[m].threads[u].Ready? || GoingWell(ss[m].threads[u], HandleOf(r)))
  {
    if m == k + 1 {
    } else {
      assert u in ss[m - 1].threads && GoingWell(ss[m - 1].threads[u], HandleOf(r)) by {
        PinSucceeds(ss, acts, k, m - 1, u, r);
      }
    }
    PinWellAt(ss, acts, k, m - 1, u, r);
  }

  // ------------------------------------------------------------------- drop

  /** Where a drop of reference tok, to registration r, is: it has the reference, or
      has given it up and is reclaiming the slot, waiting for that, or done. */
  ghost predicate Dropping(s: State, t: Tid, tok: Token, wait: bool, r: Reg) {
    && t in s.threads && tok < s.nextTok && r.idx < |s.slots|
    && var pc, epoch := s.threads[t], s.slots[r.idx].epoch;
       if pc.DropLoad? || pc.DropTry? then
         pc.h == HandleOf(r) && pc.tok == tok && pc.wait == wait && tok in s.tokens && s.tokens[tok].reg == r
       else
         && tok !in s.tokens
         && match pc
            case RcRead(h, w) => h == HandleOf(r) && w == wait && epoch == r.epoch
            case RcClear(h, w, _) => h == HandleOf(r) && w == wait && epoch == r.epoch
            case RcBump(h, w, _) => h == HandleOf(r) && w == wait && epoch == r.epoch
            case RcFree(h, w, _) => h == HandleOf(r) && w == wait && epoch == r.epoch + 1
            case RcCount(h, w) => h == HandleOf(r) && w == wait && epoch == r.epoch + 1
            case RcPush(h, w) => h == HandleOf(r) && w == wait && epoch == r.epoch + 1
            case Spin(h, e) => wait && h == HandleOf(r) && e == r.epoch
            case Ready => wait ==> Unheld(s, r)
            case _ => false
  }

  /** Nobody has, or can get, a reference to r. */
  ghost predicate Unheld(s: State, r: Reg) {
    r.idx < |s.slots| && r.epoch < s.slots[r.idx].epoch && forall k | k in s.tokens :: s.tokens[k].reg != r
  }

  /** The dropper's own steps. */
  lemma DropGivesUp(s: State, t: Tid, tok: Token, wait: bool, r: Reg)
    requires Safe(s) && Dropping(s, t, tok, wait, r) && (s.threads[t].DropLoad? || s.threads[t].DropTry?)
    requires s.slots[r.idx].epoch == r.epoch
    requires s.threads[t].DropTry? ==> s.threads[t].gr.gen == r.epoch % GENS && s.threads[t].gr.rc > 0
    ensures Dropping(DropStep(s, t), t, tok, wait, r)
  {
  }

  lemma DropGoesOn(s: State, t: Tid, tok: Token, wait: bool, r: Reg)
    requires Inv(s) && Safe(s) && Dropping(s, t, tok, wait, r) && (s.threads[t].DropLoad? || s.threads[t].DropTry?)
    ensures Dropping(DropStep(s, t), t, tok, wait, r)
  {
    assert s.slots[r.idx].epoch == r.epoch by { HolderPins(s, tok); }
    assert ThreadInv(t, s.threads[t], s.slots, s.tokens);
    DropGivesUp(s, t, tok, wait, r);
  }

  lemma ReclaimBegins(s: State, t: Tid, tok: Token, wait: bool, r: Reg)
    requires Safe(s) && Dropping(s, t, tok, wait, r) && (s.threads[t].RcRead? || s.threads[t].RcClear? || s.threads[t].RcBump?)
    ensures Dropping(ReclaimStep(s, t), t, tok, wait, r)
  {
  }

  lemma ReclaimEnds(s: State, t: Tid, tok: Token, wait: bool, r: Reg)
    requires Safe(s) && Dropping(s, t, tok, wait, r) && (s.threads[t].RcFree? || s.threads[t].RcCount? || s.threads[t].RcPush?)
    ensures Dropping(ReclaimStep(s, t), t, tok, wait, r)
  {
  }

  lemma WaitEnds(s: State, t: Tid, tok: Token, r: Reg)
    requires Reachable(s) && Safe(s) && Dropping(s, t, tok, true, r) && s.threads[t].Spin?
    ensures Dropping(DropStep(s, t), t, tok, true, r)
  {
    if DropStep(s, t).threads[t].Ready? { ReleaseWaitReturnsUnheld(s, t); }
  }

  /** A step neither gives up reference tok nor reclaims slot i. */
  ghost predicate Leaves(s: State, s': State, tok: Token, i: nat) {
    && s.nextTok <= s'.nextTok && |s.slots| <= |s'.slots| && (tok < s.nextTok ==> (tok in s'.tokens <==> tok in s.tokens))
    && (tok in s.tokens && tok in s'.tokens ==> s'.tokens[tok].reg == s.tokens[tok].reg)
    && (i < |s.slots| ==> s'.slots[i].epoch == s.slots[i].epoch)
  }

  lemma RegisterLeaves(s: State, u: Tid, grown: bool, tok: Token, i: nat)
    requires Safe(s) && u in s.threads && tok < s.nextTok
    ensures Leaves(s, RegisterStep(s, u, grown), tok, i)
  {
  }

  lemma PinLeaves(s: State, u: Tid, tok: Token, i: nat)
    requires Safe(s) && u in s.threads && tok < s.nextTok
    ensures Leaves(s, PinStep(s, u), tok, i)
  {
  }

  lemma DropLeaves(s: State, u: Tid, tok: Token, i: nat)
    requires Safe(s) && u in s.threads && tok < s.nextTok && (s.threads[u].DropTry? ==> s.threads[u].tok != tok)
    ensures Leaves(s, DropStep(s, u), tok, i)
  {
  }

  lemma ReclaimLeaves(s: State, u: Tid, tok: Token, i: nat)
    requires Safe(s) && u in s.threads && tok < s.nextTok && (s.threads[u].RcBump? ==> s.threads[u].h.idx != i)
    ensures Leaves(s, ReclaimStep(s, u), tok, i)
  {
  }

  lemma OthersLeave(s: State, a: Action, tok: Token, i: nat)
    requires Safe(s) && Enabled(s, a) && tok < s.nextTok
    requires s.threads[a.t].DropTry? ==> s.threads[a.t].tok != tok
    requires s.threads[a.t].RcBump? ==> s.threads[a.t].h.idx != i
    ensures Leaves(s, Apply(s, a), tok, i)
  {
    if a.Step? {
      RegisterLeaves(s, a.t, a.grown, tok, i);
      PinLeaves(s, a.t, tok, i);
      DropLeaves(s, a.t, tok, i);
      ReclaimLeaves(s, a.t, tok, i);
    }
  }

  /** The thread has its slot to itself. */
  predicate Reclaims(pc: Pc) {
    pc.RcRead? || pc.RcClear? || pc.RcBump? || pc.RcFree? || pc.RcCount? || pc.RcPush?
  }

  lemma OthersApart(s: State, t: Tid, u: Tid, tok: Token, wait: bool, r: Reg)
    requires Inv(s) && Dropping(s, t, tok, wait, r) && u in s.threads && u != t
    ensures s.threads[u].DropTry? ==> s.threads[u].tok != tok
    ensures s.threads[u].RcBump? && Reclaims(s.threads[t]) ==> s.threads[u].h.idx != r.idx
  {
    assert ThreadInv(t, s.threads[t], s.slots, s.tokens) && ThreadInv(u, s.threads[u], s.slots, s.tokens);
  }

  /** Nobody else's step disturbs a drop. */
  lemma DropUndisturbed(s: State, a: Action, t: Tid, tok: Token, wait: bool, r: Reg)
    requires Inv(s) && Safe(s) && Enabled(s, a) && a.t != t && Dropping(s, t, tok, wait, r) && !s.threads[t].Ready?
    ensures Dropping(Apply(s, a), t, tok, wait, r)
  {
    OthersSparePc(s, a, t);
    var i := if Reclaims(s.threads[t]) then r.idx else |s.slots|;
    assert Leaves(s, Apply(s, a), tok, i) by {
      OthersApart(s, t, a.t, tok, wait, r);
      if s.threads[a.t].RcBump? { assert ThreadInv(a.t, s.threads[a.t], s.slots, s.tokens); }
      OthersLeave(s, a, tok, i);
    }
    LeftAlone(s, Apply(s, a), t, tok, wait, r);
  }

  lemma LeftAlone(s: State, s': State, t: Tid, tok: Token, wait: bool, r: Reg)
    requires Dropping(s, t, tok, wait, r) && !s.threads[t].Ready? && t in s'.threads && s'.threads[t] == s.threads[t]
    requires Leaves(s, s', tok, if Reclaims(s.threads[t]) then r.idx else |s.slots|)
    ensures Dropping(s', t, tok, wait, r)
  {
  }

  lemma DropStepKept(s: State, a: Action, t: Tid, tok: Token, wait: bool, r: Reg)
    requires Reachable(s) && Inv(s) && Safe(s) && Enabled(s, a) && Dropping(s, t, tok, wait, r) && !s.threads[t].Ready?
    ensures Dropping(Apply(s, a), t, tok, wait, r)
  {
    if a.t != t {
      DropUndisturbed(s, a, t, tok, wait, r);
    } else if s.threads[t].Spin? {
      WaitEnds(s, t, tok, r);
    } else if s.threads[t].RcRead? || s.threads[t].RcClear? || s.threads[t].RcBump? {
      ReclaimBegins(s, t, tok, wait, r);
    } else if Reclaims(s.threads[t]) {
      ReclaimEnds(s, t, tok, wait, r);
    } else {
      DropGoesOn(s, t, tok, wait, r);
    }
  }

  lemma DropStarts(s: State, a: Action)
    requires Inv(s) && Safe(s) && Enabled(s, a) && a.CallDrop?
    ensures Dropping(Apply(s, a), a.t, a.tok, a.wait, s.tokens[a.tok].reg)
  {
    HolderPins(s, a.tok);
  }

  lemma DropAt(ss: seq<State>, acts: seq<Action>, j: nat, k: nat, t: Tid, r: Reg)
    requires During(ss, acts, j, k + 1, t) && CountsFit(ss) && acts[j].CallDrop?
    requires acts[j].tok in ss[j].tokens && ss[j].tokens[acts[j].tok].reg == r
    requires k > j ==> Dropping(ss[k], t, acts[j].tok, acts[j].wait, r)
    ensures Dropping(ss[k + 1], t, acts[j].tok, acts[j].wait, r)
  {
    assert Safe(ss[k]) && Enabled(ss[k], acts[k]) && ss[k + 1] == Apply(ss[k], acts[k]);
    assert Inv(ss[k]) by { RunKeepsInv(ss, acts, k); }
    if k == j {
      DropStarts(ss[k], acts[k]);
    } else {
      RunReachable(ss, acts, k);
      DropStepKept(ss[k], acts[k], t, acts[j].tok, acts[j].wait, r);
    }
  }

  ghost function Droppings(ss: seq<State>, t: Tid, tok: Token, wait: bool, r: Reg): (b: seq<bool>)
    ensures |b| == |ss| && forall k | 0 <= k < |ss| :: b[k] == Dropping(ss[k], t, tok, wait, r)
  {
    seq(|ss|, k requires 0 <= k < |ss| => Dropping(ss[k], t, tok, wait, r))
  }

  /** A release, whatever else goes on: it gives up the reference it was called with,
      reclaims the slot if that was the last, and, for release_wait, returns only
      when nobody has or can get a reference to the registration. */
  lemma ReleaseReleases(ss: seq<State>, acts: seq<Action>, j: nat, m: nat, t: Tid, r: Reg)
    requires During(ss, acts, j, m, t) && CountsFit(ss) && acts[j].CallDrop?
    requires acts[j].tok in ss[j].tokens && ss[j].tokens[acts[j].tok].reg == r
    ensures Dropping(ss[m], t, acts[j].tok, acts[j].wait, r)
  {
    var b := Droppings(ss, t, acts[j].tok, acts[j].wait, r);
    DropAt(ss, acts, j, j, t, r);
    forall k | j + 1 <= k < m ensures b[k] ==> b[k + 1] {
      if b[k] { DropAt(ss, acts, j, k, t, r); }
    }
    Carry(b, j + 1, m);
  }

  // --------------------------------------------------------------- progress

  /** A measure of what a call has left to do. */
  function Left(pc: Pc): nat {
    match pc
    case PinLoad(_) => 4
    case PinTry(_, _) => 3
    case PinRead(_, _) => 2
    case PinDone(_, _, _) => 1
    case DropLoad(_, _, _) => 10
    case DropTry(_, _, _, _) => 9
    case RcRead(_, _) => 8
    case RcClear(_, _, _) => 7
    case RcBump(_, _, _) => 6
    case RcFree(_, _, _) => 5
    case RcCount(_, _) => 4
    case RcPush(_, _) => 3
    case Spin(_, _) => 2
    case _ => RegLeft(pc)
  }

  /** The CAS this thread is about to try has been overtaken: the slot's word is not
      what it read. */
  predicate Overtaken(s: State, pc: Pc) {
    (pc.PinTry? || pc.DropTry?) && pc.h.idx < |s.slots| && pc.gr != GenRef(s.slots[pc.h.idx].gen, s.slots[pc.h.idx].rc)
  }

  /** Every step of a call takes it nearer its return, but for a CAS that another
      thread has overtaken and for release_wait's wait for the slot's reclaim. */
  lemma CallAdvances(s: State, a: Action)
    requires Safe(s) && Enabled(s, a) && a.Step?
    ensures var pc, pc' := s.threads[a.t], Apply(s, a).threads[a.t];
            || Left(pc') < Left(pc)
            || (Overtaken(s, pc) && Left(pc') == Left(pc) && !Overtaken(Apply(s, a), pc'))
            || (pc.Spin? && pc' == pc && s.slots[pc.h.idx].gen == pc.h.gen)
  {
    var pc := s.threads[a.t];
    if pc.DropLoad? || pc.DropTry? || pc.Spin? { DropAdvances(s, a.t); }
    else if pc.PinLoad? || pc.PinTry? || pc.PinRead? || pc.PinDone? { PinAdvances(s, a.t); }
    else if RegArgs(pc).Some? { RegisterAdvances(s, a, a.t); }
    else { ReclaimAdvances(s, a.t); }
  }

  lemma DropAdvances(s: State, t: Tid)
    requires Safe(s) && t in s.threads && (s.threads[t].DropLoad? || s.threads[t].DropTry? || s.threads[t].Spin?)
    ensures var pc, pc' := s.threads[t], DropStep(s, t).threads[t];
            || Left(pc') < Left(pc)
            || (Overtaken(s, pc) && Left(pc') == Left(pc) && !Overtaken(DropStep(s, t), pc'))
            || (pc.Spin? && pc' == pc && s.slots[pc.h.idx].gen == pc.h.gen)
  {
  }

  lemma PinAdvances(s: State, t: Tid)
    requires Safe(s) && t in s.threads && PinOf(s.threads[t]).Some?
    ensures var pc, pc' := s.threads[t], PinStep(s, t).threads[t];
            Left(pc') < Left(pc) || (Overtaken(s, pc) && Left(pc') == Left(pc) && !Overtaken(PinStep(s, t), pc'))
  {
  }

  lemma ReclaimAdvances(s: State, t: Tid)
    requires Safe(s) && t in s.threads && Reclaims(s.threads[t])
    ensures Left(ReclaimStep(s, t).threads[t]) < Left(s.threads[t])
  {
  }
}
