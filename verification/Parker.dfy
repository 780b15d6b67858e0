/**
 The netpoll parker (netpoll.c:98-183): one fiber parking on a file descriptor
 against any number of claimers (pump, timeout sweep, cancel, unpark, reap).

 A claimer works under the pool's lock from finding the linked parker to its last
 access to it; a reap posts its wake after unlocking.  A parked fiber may be
 resumed at any moment.
 */
module Parker {
  import opened Options

  type Tid = nat

  datatype Commit = Armed | Parked | Woken

  datatype Event = CommitPark | Claim

  /** `runloom_park_table`. */
  function Table(from: Commit, e: Event): Option<Commit> {
    match (from, e)
    case (Armed, CommitPark) => Some(Parked)
    case (Armed, Claim) => Some(Woken)
    case (Parked, Claim) => Some(Woken)
    case _ => None
  }

  datatype Holder = Free | Fiber | Claimer(t: Tid)

  /** A claimer: what it will write to ready_mask, whether it defers the wake. */
  datatype ClaimPc =
    | Idle
    | Load(v: int, defer: bool)
    | Cas(v: int, defer: bool, cur: Commit)
    | Fill(v: int, defer: bool, from: Commit)
    | Unlink(v: int, defer: bool, from: Commit)
    | Wake(v: int, defer: bool)
    | Unlock(v: int, owesWake: bool)
    | LateWake(v: int)

  /** The fiber: the two early exits (pending readiness, failed registration), the
      commit, and the two ways to the lock that ends the wait. */
  datatype FiberPc =
    | Check | Commit
    | Yielded | Resumed | Aborting
    | Leaving(r: Option<int>)      // takes the lock to unlink; None: report ready_mask
    | Locked(r: Option<int>)
    | Done(value: int, early: bool)

  /** The claimer that moved commit to WOKEN, its value, and from where. */
  datatype Won = Won(t: Tid, v: int, from: Commit)

  /** History: the winner, and how often the fiber was re-queued and resumed. */
  datatype State = State(
    commit: Commit, linked: bool, mask: int, lock: Holder, pc: FiberPc, claimers: map<Tid, ClaimPc>,
    won: Option<Won>, requeues: nat, resumes: nat)

  datatype Action =
    | Fstep(early: Option<int>)
    | ResumeFiber
    | StartClaim(t: Tid, v: int, defer: bool)
    | ClaimStep(t: Tid)

  predicate Enabled(s: State, a: Action) {
    match a
    case Fstep(early) =>
      && !s.pc.Yielded? && !s.pc.Done? && (early.Some? ==> s.pc.Check?)
      && (s.pc.Leaving? ==> s.lock.Free?)
    case ResumeFiber => s.pc.Yielded?
    case StartClaim(t, _, _) => t in s.claimers && s.claimers[t].Idle? && s.lock.Free? && s.linked
    case ClaimStep(t) => t in s.claimers && !s.claimers[t].Idle?
  }

  function FiberApply(s: State, early: Option<int>): State {
    match s.pc
    case Check => if early.Some? then s.(pc := Leaving(early)) else s.(pc := Commit)
    case Commit => if s.commit.Armed? then s.(commit := Parked, pc := Yielded) else s.(pc := Aborting)
    case Aborting => s.(pc := Leaving(None))
    case Resumed => s.(pc := Leaving(None))
    case Leaving(r) => s.(lock := Fiber, pc := Locked(r))
    case Locked(r) => s.(lock := Free, linked := false, pc := Done(if r.Some? then r.value else s.mask, r.Some?))
    case _ => s
  }

  function Move(s: State, t: Tid, pc: ClaimPc): State { s.(claimers := s.claimers[t := pc]) }

  function ClaimApply(s: State, t: Tid): State
    requires t in s.claimers
  {
    match s.claimers[t]
    case Load(v, defer) => Move(s, t, if s.commit.Woken? then Unlock(v, false) else Cas(v, defer, s.commit))
    case Cas(v, defer, cur) =>
      if s.commit == cur then Move(s, t, Fill(v, defer, cur)).(commit := Woken, won := Some(Won(t, v, cur)))
      else Move(s, t, Load(v, defer))
    case Fill(v, defer, from) => Move(s, t, Unlink(v, defer, from)).(mask := v)
    case Unlink(v, defer, from) =>
      Move(s, t, if from.Parked? && !defer then Wake(v, defer) else Unlock(v, from.Parked?)).(linked := false)
    case Wake(v, _) => Move(s, t, Unlock(v, false)).(requeues := s.requeues + 1)
    case Unlock(v, owesWake) => Move(s, t, if owesWake then LateWake(v) else Idle).(lock := Free)
    case LateWake(_) => Move(s, t, Idle).(requeues := s.requeues + 1)
    case Idle => s
  }

  function Apply(s: State, a: Action): State
    requires Enabled(s, a)
  {
    match a
    case Fstep(early) => FiberApply(s, early)
    case ResumeFiber => s.(pc := Resumed, resumes := s.resumes + 1)
    case StartClaim(t, v, defer) => Move(s, t, Load(v, defer)).(lock := Claimer(t))
    case ClaimStep(t) => ClaimApply(s, t)
  }

  ghost predicate Init(s: State) {
    && s.commit.Armed? && s.linked && s.mask == 0 && s.lock.Free? && s.pc.Check?
    && s.won.None? && s.requeues == 0 && s.resumes == 0
    && forall t | t in s.claimers :: s.claimers[t].Idle?
  }

  // ------------------------------------------------------------- invariant

  /** The claimer holds the lock, and so may touch the parker. */
  predicate Holding(pc: ClaimPc) { !pc.Idle? && !pc.LateWake? }

  /** The claimer is the winner and has yet to do the rest. */
  predicate Winning(pc: ClaimPc) {
    pc.Fill? || pc.Unlink? || pc.Wake? || pc.LateWake? || (pc.Unlock? && pc.owesWake)
  }

  predicate ClaimerInv(t: Tid, pc: ClaimPc, commit: Commit, linked: bool, mask: int, won: Option<Won>, requeues: nat) {
    && (pc.Load? || pc.Cas? ==> linked)
    && (pc.Cas? ==> !pc.cur.Woken?)
    && (Winning(pc) ==> won.Some? && won.value.t == t && won.value.v == pc.v && requeues == 0)
    && (pc.Fill? || pc.Unlink? ==> pc.from == won.value.from && linked)
    && (pc.Wake? || pc.LateWake? || (pc.Unlock? && pc.owesWake) ==> won.value.from.Parked? && !linked)
    && (Winning(pc) && !pc.Fill? ==> mask == won.value.v)
  }

  /** The fiber is past its commit to parking. */
  predicate Committed(commit: Commit, won: Option<Won>) {
    commit.Parked? || (won.Some? && won.value.from.Parked?)
  }

  predicate FiberInv(pc: FiberPc, commit: Commit, won: Option<Won>, linked: bool, lock: Holder, resumes: nat) {
    && (pc.Check? || pc.Commit? ==> !Committed(commit, won))
    && (pc.Yielded? || pc.Resumed? ==> Committed(commit, won))
    && (pc.Aborting? ==> commit.Woken? && !Committed(commit, won))
    && (pc == Leaving(None) || pc == Locked(None) ==> commit.Woken? || Committed(commit, won))
    && ((pc.Leaving? || pc.Locked?) && pc.r.Some? ==> !Committed(commit, won))
    && (pc.Done? ==>
         && !linked && lock.Free? && (pc.early ==> !Committed(commit, won))
         && (!pc.early ==> commit.Woken? || Committed(commit, won)))
    && (pc.Locked? <==> lock.Fiber?)
    && (!pc.Done? && !commit.Woken? ==> linked)
    && resumes == (if Committed(commit, won) && !pc.Yielded? then 1 else 0)
  }

  predicate ClaimOk(commit: Commit, won: Option<Won>, mask: int, linked: bool, requeues: nat, claimers: map<Tid, ClaimPc>) {
    && (commit.Woken? <==> won.Some?) && requeues <= 1
    && (won.None? ==> mask == 0 && requeues == 0)
    && (won.Some? ==>
          && !won.value.from.Woken? && (requeues > 0 ==> won.value.from.Parked?)
          && won.value.t in claimers
          && (Winning(claimers[won.value.t])
              || (mask == won.value.v && !linked && requeues == if won.value.from.Parked? then 1 else 0)))
  }

  predicate ClaimersOk(s: State) {
    && (s.lock.Claimer? ==> s.lock.t in s.claimers)
    && (forall t | t in s.claimers ::
          && (Holding(s.claimers[t]) <==> s.lock == Claimer(t))
          && ClaimerInv(t, s.claimers[t], s.commit, s.linked, s.mask, s.won, s.requeues))
  }

  /** What the fiber returns: the winner's value, or 0 if a stray wake ended the
      park before any claim; on the early exits, what sent it there. */
  predicate DoneInv(s: State) {
    s.pc.Done? && !s.pc.early ==> s.pc.value == if s.won.Some? then s.won.value.v else 0
  }

  predicate Inv(s: State) {
    && FiberInv(s.pc, s.commit, s.won, s.linked, s.lock, s.resumes)
    && ClaimOk(s.commit, s.won, s.mask, s.linked, s.requeues, s.claimers) && ClaimersOk(s) && DoneInv(s)
  }

  lemma FiberKeepsInv(s: State, early: Option<int>)
    requires Inv(s) && Enabled(s, Fstep(early))
    ensures Inv(FiberApply(s, early))
  {
  }

  lemma ResumeKeepsInv(s: State)
    requires Inv(s) && Enabled(s, ResumeFiber)
    ensures Inv(Apply(s, ResumeFiber))
  {
  }

  lemma StartKeepsInv(s: State, a: Action)
    requires Inv(s) && a.StartClaim? && Enabled(s, a)
    ensures Inv(Apply(s, a))
  {
  }

  lemma CasKeepsInv(s: State, t: Tid)
    requires Inv(s) && t in s.claimers && (s.claimers[t].Load? || s.claimers[t].Cas?)
    ensures Inv(ClaimApply(s, t))
  {
  }

  lemma FillKeepsInv(s: State, t: Tid)
    requires Inv(s) && t in s.claimers && (s.claimers[t].Fill? || s.claimers[t].Unlink?)
    ensures Inv(ClaimApply(s, t))
  {
  }

  lemma WakeKeepsInv(s: State, t: Tid)
    requires Inv(s) && t in s.claimers && (s.claimers[t].Wake? || s.claimers[t].Unlock? || s.claimers[t].LateWake?)
    ensures Inv(ClaimApply(s, t))
  {
  }

  lemma StepKeepsInv(s: State, a: Action)
    requires Inv(s) && Enabled(s, a)
    ensures Inv(Apply(s, a))
  {
    match a {
      case Fstep(early) => FiberKeepsInv(s, early);
      case ResumeFiber => ResumeKeepsInv(s);
      case StartClaim(_, _, _) => StartKeepsInv(s, a);
      case ClaimStep(t) =>
        match s.claimers[t] {
          case Load(_, _) => CasKeepsInv(s, t);
          case Cas(_, _, _) => CasKeepsInv(s, t);
          case Fill(_, _, _) => FillKeepsInv(s, t);
          case Unlink(_, _, _) => FillKeepsInv(s, t);
          case _ => WakeKeepsInv(s, t);
        }
    }
  }

  ghost predicate Run(ss: seq<State>, acts: seq<Action>) {
    && |ss| == |acts| + 1 && Init(ss[0])
    && forall i | 0 <= i < |acts| :: Enabled(ss[i], acts[i]) && ss[i + 1] == Apply(ss[i], acts[i])
  }

  lemma {:induction false} RunKeepsInv(ss: seq<State>, acts: seq<Action>, n: nat)
    requires Run(ss, acts) && n < |ss|
    ensures Inv(ss[n])
  {
    if n == 0 {
      assert Init(ss[0]);
    } else {
      RunKeepsInv(ss, acts, n - 1);
      StepKeepsInv(ss[n - 1], acts[n - 1]);
    }
  }

  /** Some run leads to this state. */
  ghost predicate Reachable(s: State) {
    exists ss, acts :: Run(ss, acts) && ss[|acts|] == s
  }

  lemma ReachableInv(s: State)
    requires Reachable(s)
    ensures Inv(s)
  {
    var ss, acts :| Run(ss, acts) && ss[|acts|] == s;
    RunKeepsInv(ss, acts, |acts|);
  }

  // ------------------------------------------------------------ the theorems

  /** Every move of `commit` is an edge of the table; ARMED is left once. */
  lemma EdgesAreInTable(s: State, a: Action)
    requires Reachable(s) && Enabled(s, a) && Apply(s, a).commit != s.commit
    ensures exists e :: Table(s.commit, e) == Some(Apply(s, a).commit)
    ensures !Apply(s, a).commit.Armed?
  {
    ReachableInv(s);
    assert Table(s.commit, CommitPark) == Some(Apply(s, a).commit) || Table(s.commit, Claim) == Some(Apply(s, a).commit);
  }

  /** Re-queued at most once, and, once the claimers are through, exactly when the
      claim found the fiber parked. */
  lemma RequeuedOnce(s: State)
    requires Reachable(s)
    ensures s.requeues <= 1 && (s.requeues == 1 ==> s.won.Some? && s.won.value.from.Parked?)
    ensures (forall t | t in s.claimers :: s.claimers[t].Idle?) ==>
              (s.requeues == 1 <==> s.won.Some? && s.won.value.from.Parked?)
  {
    ReachableInv(s);
  }

  /** No lost wake: a sleeping fiber is linked where the next claimer will find
      it, or has been claimed by one that has re-queued it or is about to. */
  lemma SleeperIsReachable(s: State)
    requires Reachable(s) && s.pc.Yielded?
    ensures (s.commit.Parked? && s.linked)
         || (s.won.Some? && s.won.value.from.Parked?
             && (s.requeues == 1 || (s.won.value.t in s.claimers && Winning(s.claimers[s.won.value.t]))))
  {
    ReachableInv(s);
  }

  /** A fiber that did not leave early reports the winner's value, whatever wakes
      it got; it was resumed once if it had parked and not at all otherwise; and
      nobody holds its parker any more. */
  lemma ReturnsWinner(s: State)
    requires Reachable(s) && s.pc.Done?
    ensures !s.pc.early && s.won.Some? ==> s.pc.value == s.won.value.v
    ensures !s.pc.early && s.won.None? ==> s.pc.value == 0 && s.resumes == 1
    ensures s.resumes == if Committed(s.commit, s.won) then 1 else 0
    ensures !s.linked && forall t | t in s.claimers :: !Holding(s.claimers[t])
  {
    ReachableInv(s);
  }

  // ------------------------------------------------------ a claim, as a call

  /** What a claimer's section has done so far; only one that was told to defers its
      wake past the unlock. */
  predicate Section(s: State, t: Tid, v: int, defer: bool) {
    && t in s.claimers
    && match s.claimers[t]
       case Load(v', d) => v' == v && d == defer
       case Cas(v', d, cur) => v' == v && d == defer && !cur.Woken?
       case Fill(v', d, _) => v' == v && d == defer && s.commit.Woken?
       case Unlink(v', d, _) => v' == v && d == defer && s.commit.Woken?
       case Wake(v', _) => v' == v && !defer && s.commit.Woken?
       case Unlock(v', owes) => v' == v && (owes ==> defer) && s.commit.Woken?
       case LateWake(v') => v' == v && defer && s.commit.Woken?
       case Idle => s.commit.Woken?
  }

  lemma WokenForGood(s: State, a: Action)
    requires Enabled(s, a)
    ensures s.commit.Woken? ==> Apply(s, a).commit.Woken?
  {
  }

  lemma SectionStep(s: State, a: Action, t: Tid, v: int, defer: bool)
    requires Enabled(s, a) && Section(s, t, v, defer) && Holding(s.claimers[t])
    ensures Section(Apply(s, a), t, v, defer)
  {
    WokenForGood(s, a);
  }

  /** Thread t is in the section that it starts at i; at n it may have let go of the
      lock. */
  ghost predicate InSection(ss: seq<State>, acts: seq<Action>, i: nat, n: nat, t: Tid) {
    && Run(ss, acts) && i < n < |ss| && acts[i].StartClaim? && acts[i].t == t
    && forall k | i < k < n :: t in ss[k].claimers && Holding(ss[k].claimers[t])
  }

  lemma {:induction false} SectionKept(ss: seq<State>, acts: seq<Action>, i: nat, n: nat, t: Tid)
    requires InSection(ss, acts, i, n, t)
    ensures Section(ss[n], t, acts[i].v, acts[i].defer)
  {
    assert Enabled(ss[n - 1], acts[n - 1]) && ss[n] == Apply(ss[n - 1], acts[n - 1]);
    if n == i + 1 {
    } else {
      SectionKept(ss, acts, i, n - 1, t);
      SectionStep(ss[n - 1], acts[n - 1], t, acts[i].v, acts[i].defer);
    }
  }

  /** A claimer that has been through its section leaves the parker claimed. */
  lemma SectionClaims(ss: seq<State>, acts: seq<Action>, i: nat, n: nat, t: Tid)
    requires InSection(ss, acts, i, n, t) && t in ss[n].claimers && !Holding(ss[n].claimers[t])
    ensures ss[n].commit.Woken? && ss[n].won.Some?
  {
    SectionKept(ss, acts, i, n, t);
    RunKeepsInv(ss, acts, n);
  }

  lemma {:induction false} LaterOn(ss: seq<State>, acts: seq<Action>, i: nat, m: nat)
    requires Run(ss, acts) && i <= m < |ss|
    ensures ss[i].commit.Woken? ==> ss[m].commit.Woken?
    ensures Committed(ss[i].commit, ss[i].won) ==> Committed(ss[m].commit, ss[m].won)
    decreases m
  {
    if m == i {
    } else {
      LaterOn(ss, acts, i, m - 1);
      RunKeepsInv(ss, acts, m - 1);
      assert Enabled(ss[m - 1], acts[m - 1]);
      StaysCommitted(ss[m - 1], acts[m - 1]);
    }
  }

  lemma StaysCommitted(s: State, a: Action)
    requires Inv(s) && Enabled(s, a)
    ensures s.commit.Woken? ==> Apply(s, a).commit.Woken?
    ensures Committed(s.commit, s.won) ==> Committed(Apply(s, a).commit, Apply(s, a).won)
  {
  }

  /** So a fiber that was PARKED when a claimer took the lock has been re-queued, once,
      by the time the claimers are through. */
  lemma SectionRequeues(ss: seq<State>, acts: seq<Action>, i: nat, n: nat, t: Tid, m: nat)
    requires InSection(ss, acts, i, n, t) && t in ss[n].claimers && !Holding(ss[n].claimers[t]) && n <= m < |ss|
    requires ss[i].commit.Parked? && forall u | u in ss[m].claimers :: ss[m].claimers[u].Idle?
    ensures ss[m].requeues == 1
  {
    SectionClaims(ss, acts, i, n, t);
    LaterOn(ss, acts, i, m);
    LaterOn(ss, acts, n, m);
    RunKeepsInv(ss, acts, m);
  }

  /** Thread t was called to claim with this value before step n. */
  ghost predicate Called(acts: seq<Action>, n: nat, t: Tid, v: int) {
    exists i :: 0 <= i < n && i < |acts| && acts[i].StartClaim? && acts[i].t == t && acts[i].v == v
  }

  ghost predicate AllCalled(s: State, acts: seq<Action>, n: nat)
    requires n <= |acts|
  {
    && (forall t | t in s.claimers && !s.claimers[t].Idle? :: Called(acts, n, t, s.claimers[t].v))
    && (s.won.Some? ==> Called(acts, n, s.won.value.t, s.won.value.v))
    && ((s.pc.Leaving? || s.pc.Locked?) && s.pc.r.Some? ==> Fstep(s.pc.r) in acts[..n])
    && (s.pc.Done? && s.pc.early ==> Fstep(Some(s.pc.value)) in acts[..n])
  }

  lemma CalledStep(s: State, acts: seq<Action>, n: nat)
    requires n < |acts| && Enabled(s, acts[n]) && AllCalled(s, acts, n)
    ensures AllCalled(Apply(s, acts[n]), acts, n + 1)
  {
    var s' := Apply(s, acts[n]);
    assert acts[..n + 1] == acts[..n] + [acts[n]];
    forall t | t in s'.claimers && !s'.claimers[t].Idle? ensures Called(acts, n + 1, t, s'.claimers[t].v) {
      if acts[n].StartClaim? && acts[n].t == t {
        assert acts[n].v == s'.claimers[t].v;
      } else {
        assert Called(acts, n, t, s.claimers[t].v);
      }
    }
  }

  lemma {:induction false} RunAllCalled(ss: seq<State>, acts: seq<Action>, n: nat)
    requires Run(ss, acts) && n < |ss|
    ensures AllCalled(ss[n], acts, n)
  {
    if n == 0 {
      assert Init(ss[0]);
    } else {
      RunAllCalled(ss, acts, n - 1);
      assert Enabled(ss[n - 1], acts[n - 1]);
      CalledStep(ss[n - 1], acts, n - 1);
    }
  }

  /** What a fiber returns is what the winner claimed with, or 0 if nobody claimed; or,
      if it left early, what sent it off. */
  lemma ReturnsClaimed(ss: seq<State>, acts: seq<Action>, n: nat)
    requires Run(ss, acts) && n < |ss| && ss[n].pc.Done?
    ensures if ss[n].pc.early then Fstep(Some(ss[n].pc.value)) in acts[..n]
            else if ss[n].won.Some? then Called(acts, n, ss[n].won.value.t, ss[n].pc.value)
            else ss[n].pc.value == 0
  {
    RunAllCalled(ss, acts, n);
    RunKeepsInv(ss, acts, n);
  }

  /** The steps a claimer has left, and the fiber between its sleep and its return. */
  function ClaimLeft(pc: ClaimPc): nat {
    match pc
    case Idle => 0
    case LateWake(_) => 1
    case Unlock(_, _) => 2
    case Wake(_, _) => 3
    case Unlink(_, _, _) => 4
    case Fill(_, _, _) => 5
    case Cas(_, _, _) => 6
    case Load(_, _) => 7
  }

  function FiberLeft(pc: FiberPc): nat {
    match pc
    case Check => 7
    case Commit => 6
    case Yielded => 5
    case Resumed => 4
    case Aborting => 4
    case Leaving(_) => 3
    case Locked(_) => 2
    case Done(_, _) => 0
  }

  /** Every step of theirs takes them nearer their end, but for a CAS that failed
      because commit had changed since it was read. */
  lemma ClaimAdvances(s: State, a: Action)
    requires Enabled(s, a)
    ensures a.Fstep? || a.ResumeFiber? ==> FiberLeft(Apply(s, a).pc) < FiberLeft(s.pc)
    ensures a.ClaimStep? ==>
              || ClaimLeft(Apply(s, a).claimers[a.t]) < ClaimLeft(s.claimers[a.t])
              || (s.claimers[a.t].Cas? && s.claimers[a.t].cur != s.commit && Apply(s, a).claimers[a.t].Load?)
  {
  }

  lemma Extend(ss: seq<State>, acts: seq<Action>, a: Action)
    requires Run(ss, acts) && Enabled(ss[|acts|], a)
    ensures Run(ss + [Apply(ss[|acts|], a)], acts + [a])
  {
  }

  /** A claimer of an ARMED parker goes through its whole section. */
  lemma ClaimRun(v: int) returns (ss: seq<State>, acts: seq<Action>)
    ensures Run(ss, acts)
    ensures ss[|acts|] == State(Woken, false, v, Free, Check, map[0 := Idle], Some(Won(0, v, Armed)), 0, 0)
  {
    ss, acts := [State(Armed, true, 0, Free, Check, map[0 := Idle], None, 0, 0)], [];
    var todo := [StartClaim(0, v, false), ClaimStep(0), ClaimStep(0), ClaimStep(0), ClaimStep(0), ClaimStep(0)];
    var pcs := [Load(v, false), Cas(v, false, Armed), Fill(v, false, Armed), Unlink(v, false, Armed), Unlock(v, false), Idle];
    var i := 0;
    while i < 6
      invariant 0 <= i <= 6 && Run(ss, acts) && |acts| == i && ss[i].pc.Check?
      invariant ss[i].claimers == map[0 := if i == 0 then Idle else pcs[i - 1]]
      invariant ss[i].commit == (if i < 3 then Armed else Woken) && ss[i].linked == (i < 5)
      invariant ss[i].mask == (if i < 4 then 0 else v) && ss[i].lock == (if 0 < i < 6 then Claimer(0) else Free)
      invariant ss[i].won == (if i < 3 then None else Some(Won(0, v, Armed))) && ss[i].requeues == 0 && ss[i].resumes == 0
    {
      Extend(ss, acts, todo[i]);
      ss, acts := ss + [Apply(ss[i], todo[i])], acts + [todo[i]];
      i := i + 1;
    }
  }

  /** A fiber that does leave early, on pending readiness or a failed
      registration, drops the value of whoever had claimed it by then. */
  lemma EarlyExitDropsClaim(v: int, r: int) returns (ss: seq<State>, acts: seq<Action>)
    ensures Run(ss, acts)
    ensures var s := ss[|acts|]; s.pc == Done(r, true) && s.won == Some(Won(0, v, Armed)) && s.requeues == 0
  {
    ss, acts := ClaimRun(v);
    var s := ss[|acts|];
    Extend(ss, acts, Fstep(Some(r)));
    ss, acts := ss + [s.(pc := Leaving(Some(r)))], acts + [Fstep(Some(r))];
    Extend(ss, acts, Fstep(None));
    ss, acts := ss + [s.(pc := Locked(Some(r)), lock := Fiber)], acts + [Fstep(None)];
    Extend(ss, acts, Fstep(None));
    ss, acts := ss + [s.(pc := Done(r, true))], acts + [Fstep(None)];
  }

  /** And one that is resumed by nobody's claim reports 0. */
  lemma StrayResumeReportsNothing() returns (ss: seq<State>, acts: seq<Action>)
    ensures Run(ss, acts)
    ensures var s := ss[|acts|]; s.pc == Done(0, false) && s.won.None? && s.resumes == 1 && s.requeues == 0
  {
    var s := State(Armed, true, 0, Free, Check, map[], None, 0, 0);
    ss, acts := [s], [];
    var todo := [Fstep(None), Fstep(None), ResumeFiber, Fstep(None), Fstep(None), Fstep(None)];
    var pcs := [Check, Commit, Yielded, Resumed, Leaving(None), Locked(None), Done(0, false)];
    var i := 0;
    while i < 6
      invariant 0 <= i <= 6 && Run(ss, acts) && |acts| == i && ss[i].pc == pcs[i] && ss[i].won.None? && ss[i].requeues == 0
      invariant ss[i].commit == (if i < 2 then Armed else Parked) && ss[i].mask == 0 && ss[i].resumes == if i < 3 then 0 else 1
      invariant ss[i].lock == if i == 5 then Fiber else Free
    {
      Extend(ss, acts, todo[i]);
      ss, acts := ss + [Apply(ss[i], todo[i])], acts + [todo[i]];
      i := i + 1;
    }
  }
}

/**
 The same handshake for a single io_uring operation (io_uring.c:154-185): the
 submitting fiber against the drainer that completes its operation.  The operation
 record is on the fiber's stack, and the drainer stores the result before it
 touches the record for the last time.
 */
module UringWait {
  import opened Options

  datatype Wait = Inflight | Parked | Done

  datatype DrainPc = Waiting | Stored | Exchanged(prev: Wait) | Through

  datatype FiberPc = LoadWait | Commit | Yielded | Test | Returned(r: Option<int>)

  /** `completion` (what the kernel reported), `wakes` are history. */
  datatype State = State(
    wait: Wait, result: Option<int>, drainer: DrainPc, pc: FiberPc,
    completion: Option<int>, wakes: nat)

  datatype Action = Complete(res: int) | DrainStep | FiberStep | Resume

  predicate Enabled(s: State, a: Action) {
    match a
    case Complete(_) => s.drainer.Waiting?
    case DrainStep => s.drainer.Stored? || s.drainer.Exchanged?
    case FiberStep => !s.pc.Yielded? && !s.pc.Returned?
    case Resume => s.pc.Yielded?
  }

  function Apply(s: State, a: Action): State
    requires Enabled(s, a)
  {
    match a
    case Complete(res) => s.(result := Some(res), completion := Some(res), drainer := Stored)
    case DrainStep =>
      if s.drainer.Stored? then s.(wait := Done, drainer := if s.wait.Parked? then Exchanged(s.wait) else Through)
      else s.(wakes := s.wakes + 1, drainer := Through)
    case FiberStep =>
      (match s.pc
       case LoadWait => if s.wait.Done? then s.(pc := Returned(s.result)) else s.(pc := Commit)
       case Commit => if s.wait.Inflight? then s.(wait := Parked, pc := Yielded) else s.(pc := Returned(s.result))
       case Test => if s.result.Some? then s.(pc := Returned(s.result)) else s.(pc := Yielded)
       case _ => s)
    case Resume => s.(pc := Test)
  }

  ghost predicate Init(s: State) {
    s == State(Inflight, None, Waiting, LoadWait, None, 0)
  }

  /** The drainer will still read or write the operation record. */
  predicate Touching(d: DrainPc) { d.Stored? || d.Exchanged? }

  predicate Inv(s: State) {
    && s.result == s.completion && (s.result.None? <==> s.drainer.Waiting?)
    && (s.drainer.Waiting? || s.drainer.Stored? ==> !s.wait.Done? && s.wakes == 0)
    && (s.drainer.Exchanged? ==> s.wait.Done? && s.drainer.prev.Parked? && s.wakes == 0)
    && (s.drainer.Through? ==> s.wait.Done?)
    && (s.pc.LoadWait? || s.pc.Commit? ==> !s.wait.Parked? && !s.drainer.Exchanged? && s.wakes == 0)
    && (s.pc.Yielded? || s.pc.Test? ==> s.wait.Parked? || s.drainer.Exchanged? || s.wakes == 1)
    && (s.pc.Returned? ==> s.pc.r == s.completion && s.completion.Some?)
    && s.wakes <= 1
  }

  lemma StepKeepsInv(s: State, a: Action)
    requires Inv(s) && Enabled(s, a)
    ensures Inv(Apply(s, a))
  {
  }

  ghost predicate Run(ss: seq<State>, acts: seq<Action>) {
    && |ss| == |acts| + 1 && Init(ss[0])
    && forall i | 0 <= i < |acts| :: Enabled(ss[i], acts[i]) && ss[i + 1] == Apply(ss[i], acts[i])
  }

  lemma {:induction false} RunKeepsInv(ss: seq<State>, acts: seq<Action>, n: nat)
    requires Run(ss, acts) && n < |ss|
    ensures Inv(ss[n])
  {
    if n == 0 {
      assert Init(ss[0]);
    } else {
      RunKeepsInv(ss, acts, n - 1);
      StepKeepsInv(ss[n - 1], acts[n - 1]);
    }
  }

  /** In every run, however the fiber is woken, it returns the kernel's result,
      never the sentinel; it is woken by the drainer at most once, and a sleeping
      fiber's operation is still to complete or its wake to come or posted. */
  lemma ReturnsCompletion(ss: seq<State>, acts: seq<Action>, n: nat)
    requires Run(ss, acts) && n < |ss|
    ensures ss[n].pc.Returned? ==> ss[n].pc.r.Some? && ss[n].pc.r == ss[n].completion
    ensures ss[n].wakes <= 1
    ensures ss[n].pc.Yielded? ==>
              ss[n].drainer.Waiting? || Touching(ss[n].drainer) || ss[n].wakes == 1
  {
    RunKeepsInv(ss, acts, n);
  }

  /** ... which is what the operation completed with. */
  lemma {:induction false} CompletionReported(ss: seq<State>, acts: seq<Action>, n: nat)
    requires Run(ss, acts) && n < |ss|
    ensures ss[n].completion.Some? ==> Complete(ss[n].completion.value) in acts[..n]
  {
    if n == 0 {
      assert Init(ss[0]);
    } else {
      CompletionReported(ss, acts, n - 1);
      assert Enabled(ss[n - 1], acts[n - 1]) && ss[n] == Apply(ss[n - 1], acts[n - 1]);
      assert acts[..n] == acts[..n - 1] + [acts[n - 1]];
    }
  }

  function DrainLeft(d: DrainPc): nat {
    match d
    case Waiting => 3
    case Stored => 2
    case Exchanged(_) => 1
    case Through => 0
  }

  /** The drainer is through in three steps; once the result is there, the fiber
      returns at its next step after a resume, or within two if it has not slept. */
  lemma WaitAdvances(s: State, a: Action)
    requires Inv(s) && Enabled(s, a)
    ensures a.Complete? || a.DrainStep? ==> DrainLeft(Apply(s, a).drainer) < DrainLeft(s.drainer)
    ensures a.FiberStep? && s.pc.Test? ==> (Apply(s, a).pc.Returned? <==> s.result.Some?)
    ensures a.FiberStep? && s.pc.LoadWait? ==> if s.wait.Done? then Apply(s, a).pc.Returned? else Apply(s, a).pc.Commit?
    ensures a.FiberStep? && s.pc.Commit? ==> if s.wait.Done? then Apply(s, a).pc.Returned? else Apply(s, a).pc.Yielded?
    ensures a.Resume? ==> Apply(s, a).pc.Test?
  {
  }

  // -------------------------------------------- how long the record lives

  /** Every resume of the fiber is the drainer's wake. */
  ghost predicate DrainersWakes(ss: seq<State>, acts: seq<Action>) {
    forall i | 0 <= i < |acts| && i < |ss| && acts[i].Resume? :: ss[i].wakes == 1
  }

  /** Then the record outlives the drainer's use of it. */
  lemma {:induction false} RecordOutlivesDrainer(ss: seq<State>, acts: seq<Action>, n: nat)
    requires Run(ss, acts) && DrainersWakes(ss, acts) && n < |ss|
    ensures ss[n].pc.Test? ==> ss[n].wakes == 1
    ensures ss[n].pc.Returned? ==> !Touching(ss[n].drainer)
  {
    if n == 0 {
      assert Init(ss[0]);
    } else {
      RecordOutlivesDrainer(ss, acts, n - 1);
      RunKeepsInv(ss, acts, n - 1);
      assert Enabled(ss[n - 1], acts[n - 1]) && ss[n] == Apply(ss[n - 1], acts[n - 1]);
    }
  }

  /** The operation completes unless it has, the sleeping fiber is resumed, and
      tests the result. */
  function ResumeEarly(s: State, res: int): State
    requires s.pc.Yielded?
  {
    var s1 := if s.drainer.Waiting? then Apply(s, Complete(res)) else s;
    var s2 := Apply(s1, Resume);
    Apply(s2, FiberStep)
  }

  /** Whatever run led to a sleeping fiber, resuming it can free the record under
      the drainer exactly while the drainer has not woken it. */
  lemma ResumeOvertakesIff(ss: seq<State>, acts: seq<Action>, res: int)
    requires Run(ss, acts) && ss[|acts|].pc.Yielded?
    ensures var s := ResumeEarly(ss[|acts|], res);
            s.pc.Returned? && Touching(s.drainer) <==> ss[|acts|].wakes == 0
  {
    RunKeepsInv(ss, acts, |acts|);
  }

  lemma Extend(ss: seq<State>, acts: seq<Action>, a: Action)
    requires Run(ss, acts) && Enabled(ss[|acts|], a)
    ensures Run(ss + [Apply(ss[|acts|], a)], acts + [a])
  {
  }

  /** So every run to a fiber that sleeps unwoken has a continuation in which a
      stray wake overtakes the drainer. */
  lemma StrayWakeOvertakes(ss: seq<State>, acts: seq<Action>, res: int) returns (ss': seq<State>, acts': seq<Action>)
    requires Run(ss, acts) && ss[|acts|].pc.Yielded? && ss[|acts|].wakes == 0
    ensures Run(ss', acts') && acts < acts' && ss'[..|ss|] == ss
    ensures ss'[|acts'|].pc.Returned? && Touching(ss'[|acts'|].drainer)
  {
    ResumeOvertakesIff(ss, acts, res);
    ss', acts' := ss, acts;
    if ss[|acts|].drainer.Waiting? {
      Extend(ss', acts', Complete(res));
      ss', acts' := ss' + [Apply(ss'[|acts'|], Complete(res))], acts' + [Complete(res)];
    }
    Extend(ss', acts', Resume);
    ss', acts' := ss' + [Apply(ss'[|acts'|], Resume)], acts' + [Resume];
    Extend(ss', acts', FiberStep);
    ss', acts' := ss' + [Apply(ss'[|acts'|], FiberStep)], acts' + [FiberStep];
  }

  /** And there is such a run. */
  lemma SleepRun() returns (ss: seq<State>, acts: seq<Action>)
    ensures Run(ss, acts) && ss[|acts|].pc.Yielded? && ss[|acts|].wakes == 0
  {
    var s := State(Inflight, None, Waiting, LoadWait, None, 0);
    ss := [s, s.(pc := Commit), s.(wait := Parked, pc := Yielded)];
    acts := [FiberStep, FiberStep];
  }
}
