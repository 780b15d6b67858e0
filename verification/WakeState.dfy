/**
 The per-fiber wake state machine of the M:N scheduler (mn_sched.c:75-116 and the
 code that drives it) for one fiber g, with any number of threads waking it,
 pulling and running it, sweeping its stack and expiring its sleep.

 Moving wake_state and moving the queue entry are separate steps, so an entry may
 be in a thread's hands on its way to or from a queue.  "The queue" is any of the
 places a woken g is put (a hub's deque, the global run queue); "the local queue"
 is where a hub leaves a g it switched out still runnable (yield queue, ring).
 */
module WakeState {
  type Tid = nat

  datatype WS = Parked | Queued | Running | RunningWoken | Sweeping | SweepingWoken

  datatype Event = Wake | Pull | Release | SweepClaim | SweepRelease | TimerClaim

  datatype Edge = Invalid | To(ws: WS)

  /** `runloom_ws_table`. */
  function Table(from: WS, e: Event): Edge {
    match from
    case Parked => (match e case Wake => To(Queued) case SweepClaim => To(Sweeping) case TimerClaim => To(Running)
                            case _ => Invalid)
    case Queued => (match e case Pull => To(Running) case Release => Invalid case SweepRelease => Invalid
                            case _ => To(Queued))
    case Running => (match e case Wake => To(RunningWoken) case Release => To(Parked) case SweepClaim => To(Running)
                             case _ => Invalid)
    case RunningWoken => (match e case Wake => To(RunningWoken) case Release => To(Queued)
                                  case SweepClaim => To(RunningWoken) case _ => Invalid)
    case Sweeping => (match e case Wake => To(SweepingWoken) case SweepClaim => To(Sweeping)
                              case SweepRelease => To(Parked) case _ => Invalid)
    case SweepingWoken => (match e case Wake => To(SweepingWoken) case SweepClaim => To(SweepingWoken)
                                   case SweepRelease => To(Queued) case _ => Invalid)
  }

  /** What a thread is doing with g.  `Push` and `PushLocal` have taken the edge
      and are about to queue g; `Pulled` and `LocalPulled` have dequeued it. */
  datatype Pc =
    | Idle
    | WakeTry(st: WS) | TimerTry(st: WS, elsewhere: bool)
    | Push | PushLocal | StoreQueued
    | Pulled | LocalPulled | OnCpu | ParkEnd | YieldEnd
    | Sweep

  /** Where g is (history). */
  datatype Where = Nowhere | Entry | Local | At(t: Tid) | Gone

  /** `entries` and `locals` count g's entries on the two kinds of queue.
      History: where g is, how many resumes have begun, and whether anybody has
      woken g since the last one began. */
  datatype State = State(
    ws: WS, entries: nat, locals: nat, threads: map<Tid, Pc>,
    at: Where, resumes: nat, woken: bool)

  datatype Action =
    | StartWake(t: Tid)
    | StartTimer(t: Tid, elsewhere: bool)
    | StartSweep(t: Tid)
    | TakeEntry(t: Tid)
    | TakeLocal(t: Tid)
    | EndResume(t: Tid, how: End)
    | Step(t: Tid)

  datatype End = Parks | Yields | Finishes

  function Move(s: State, t: Tid, pc: Pc): State { s.(threads := s.threads[t := pc]) }

  predicate Enabled(s: State, a: Action) {
    && a.t in s.threads
    && match a
       case TakeEntry(t) => s.threads[t].Idle? && s.entries > 0
       case TakeLocal(t) => s.threads[t].Idle? && s.locals > 0
       case EndResume(t, _) => s.threads[t].OnCpu?
       case Step(t) => !s.threads[t].Idle? && !s.threads[t].OnCpu?
       case _ => s.threads[a.t].Idle?
  }

  predicate Marked(ws: WS) { ws.Queued? || ws.RunningWoken? || ws.SweepingWoken? }

  /** A waker loads wake_state: if a wake is pending already, its own is dropped
      in favour of that one. */
  function See(s: State, t: Tid, pc: Pc): State {
    Move(s, t, pc).(woken := s.woken || Marked(s.ws))
  }

  /** `runloom_mn_wake_g` after its load, or a failed CAS's reload, saw `st`. */
  function WakeStep(s: State, t: Tid, st: WS): State {
    if st.Parked? then
      if s.ws == st then Move(s, t, Push).(ws := Queued, at := At(t), woken := true) else See(s, t, WakeTry(s.ws))
    else if st.Running? then
      if s.ws == st then Move(s, t, Idle).(ws := RunningWoken, woken := true) else See(s, t, WakeTry(s.ws))
    else if st.Sweeping? then
      if s.ws == st then Move(s, t, Idle).(ws := SweepingWoken, woken := true) else See(s, t, WakeTry(s.ws))
    else Move(s, t, Idle)
  }

  /** The timer-expiry claim of hub_main. */
  function TimerStep(s: State, t: Tid, st: WS, elsewhere: bool): State {
    if st.Parked? then
      if s.ws != st then See(s, t, TimerTry(s.ws, elsewhere))
      else if elsewhere then Move(s, t, Push).(ws := Queued, at := At(t), woken := true)
      else Move(s, t, PushLocal).(ws := Running, at := At(t), woken := true)
    else if st.Sweeping? then
      if s.ws != st then See(s, t, TimerTry(s.ws, elsewhere))
      else Move(s, t, Idle).(ws := SweepingWoken, woken := true)
    else Move(s, t, Idle)
  }

  function Resume(s: State, t: Tid): State {
    Move(s, t, OnCpu).(resumes := s.resumes + 1, woken := false)
  }

  function StepOf(s: State, t: Tid): State
    requires t in s.threads
  {
    match s.threads[t]
    case WakeTry(st) => WakeStep(s, t, st)
    case TimerTry(st, elsewhere) => TimerStep(s, t, st, elsewhere)
    case Push => Move(s, t, Idle).(entries := s.entries + 1, at := Entry)
    case PushLocal => Move(s, t, Idle).(locals := s.locals + 1, at := Local)
    case StoreQueued => Move(s, t, Push).(ws := Queued)
    case Pulled =>
      if s.ws.Queued? then Resume(s.(ws := Running), t) else Move(s, t, Idle).(at := Nowhere)
    case LocalPulled => if s.ws.Queued? then Move(s, t, Pulled) else Resume(s, t)
    case ParkEnd =>
      if s.ws.Running? then Move(s, t, Idle).(ws := Parked, at := Nowhere) else Move(s, t, StoreQueued)
    case YieldEnd => Move(s, t, PushLocal).(ws := Running)
    case Sweep =>
      if s.ws.Sweeping? then Move(s, t, Idle).(ws := Parked, at := Nowhere) else Move(s, t, StoreQueued)
    case _ => s
  }

  function Apply(s: State, a: Action): State
    requires Enabled(s, a)
  {
    match a
    case StartWake(t) => See(s, t, WakeTry(s.ws))
    case StartTimer(t, elsewhere) => Move(s, t, TimerTry(Parked, elsewhere))
    case StartSweep(t) => if s.ws.Parked? then Move(s, t, Sweep).(ws := Sweeping, at := At(t)) else s
    case TakeEntry(t) => Move(s, t, Pulled).(entries := s.entries - 1, at := At(t))
    case TakeLocal(t) => Move(s, t, LocalPulled).(locals := s.locals - 1, at := At(t))
    case EndResume(t, how) =>
      (match how
       case Parks => Move(s, t, ParkEnd)
       case Yields => Move(s, t, YieldEnd)
       case Finishes => Move(s, t, Idle).(at := Gone))
    case Step(t) => StepOf(s, t)
  }

  /** A fresh g: RUNNING, on a local queue of its hub, and no thread doing anything
      with it. */
  ghost predicate Init(s: State) {
    && s.ws.Running? && s.entries == 0 && s.locals == 1 && s.at.Local? && s.resumes == 0 && !s.woken
    && forall t | t in s.threads :: s.threads[t].Idle?
  }

  // ------------------------------------------------------------- invariant

  predicate Owning(pc: Pc) { !pc.Idle? && !pc.WakeTry? && !pc.TimerTry? }

  predicate IsRunning(ws: WS) { ws.Running? || ws.RunningWoken? }

  /** What the owner's program counter says about wake_state. */
  predicate OwnerWs(pc: Pc, ws: WS) {
    match pc
    case Push => ws.Queued?
    case Pulled => ws.Queued?
    case StoreQueued => ws.RunningWoken? || ws.SweepingWoken?
    case Sweep => ws.Sweeping? || ws.SweepingWoken?
    case _ => IsRunning(ws)
  }

  predicate PlaceOk(s: State) {
    && s.entries == (if s.at.Entry? then 1 else 0) && s.locals == (if s.at.Local? then 1 else 0)
    && match s.at
       case Nowhere => s.ws.Parked?
       case Entry => s.ws.Queued?
       case Local => IsRunning(s.ws)
       case Gone => IsRunning(s.ws)
       case At(t) => t in s.threads && Owning(s.threads[t]) && OwnerWs(s.threads[t], s.ws)
  }

  /** A wake since the last resume began is not lost. */
  predicate WakeKept(s: State) {
    s.woken ==> Marked(s.ws) || Requeued(s)
  }

  /** g is runnable, on a local queue or on its way to or from one. */
  predicate Requeued(s: State) {
    s.at.Local? || s.at.Gone?
    || (s.at.At? && s.at.t in s.threads && (s.threads[s.at.t].PushLocal? || s.threads[s.at.t].LocalPulled?))
  }

  predicate Inv(s: State) {
    && PlaceOk(s) && WakeKept(s)
    && (forall t | t in s.threads && Owning(s.threads[t]) :: s.at == At(t))
  }

  lemma StartKeepsInv(s: State, a: Action)
    requires Inv(s) && Enabled(s, a) && !a.Step?
    ensures Inv(Apply(s, a))
  {
  }

  /** A waker that only moves on, or only leaves its mark. */
  lemma MarkKeepsInv(s: State, t: Tid, pc: Pc, ws: WS)
    requires Inv(s) && t in s.threads && !Owning(s.threads[t]) && !Owning(pc)
    requires ws == s.ws || (s.ws.Running? && ws.RunningWoken?) || (s.ws.Sweeping? && ws.SweepingWoken?)
    ensures ws == s.ws ==> Inv(Move(s, t, pc)) && Inv(See(s, t, pc))
    ensures ws.RunningWoken? || ws.SweepingWoken? ==> Inv(Move(s, t, pc).(ws := ws, woken := true))
  {
  }

  /** A waker that takes a parked g for itself. */
  lemma ClaimKeepsInv(s: State, t: Tid)
    requires Inv(s) && t in s.threads && !Owning(s.threads[t]) && s.ws.Parked?
    ensures Inv(Move(s, t, Push).(ws := Queued, at := At(t), woken := true))
    ensures Inv(Move(s, t, PushLocal).(ws := Running, at := At(t), woken := true))
  {
  }

  lemma WakeKeepsInv(s: State, t: Tid)
    requires Inv(s) && t in s.threads && (s.threads[t].WakeTry? || s.threads[t].TimerTry?)
    ensures Inv(StepOf(s, t))
  {
    var pc := s.threads[t];
    if s.ws == pc.st == Parked { ClaimKeepsInv(s, t); }
    else if s.ws == pc.st == Running && pc.WakeTry? { MarkKeepsInv(s, t, Idle, RunningWoken); }
    else if s.ws == pc.st == Sweeping { MarkKeepsInv(s, t, Idle, SweepingWoken); }
    else {
      MarkKeepsInv(s, t, Idle, s.ws);
      MarkKeepsInv(s, t, if pc.WakeTry? then WakeTry(s.ws) else TimerTry(s.ws, pc.elsewhere), s.ws);
    }
  }

  lemma QueueKeepsInv(s: State, t: Tid)
    requires Inv(s) && t in s.threads && (s.threads[t].Push? || s.threads[t].PushLocal? || s.threads[t].StoreQueued?)
    ensures Inv(StepOf(s, t))
  {
  }

  lemma ResumeKeepsInv(s: State, t: Tid)
    requires Inv(s) && t in s.threads && (s.threads[t].Pulled? || s.threads[t].LocalPulled?)
    ensures Inv(StepOf(s, t))
  {
  }

  lemma ReleaseKeepsInv(s: State, t: Tid)
    requires Inv(s) && t in s.threads && (s.threads[t].ParkEnd? || s.threads[t].YieldEnd? || s.threads[t].Sweep?)
    ensures Inv(StepOf(s, t))
  {
  }

  lemma StepKeepsInv(s: State, a: Action)
    requires Inv(s) && Enabled(s, a)
    ensures Inv(Apply(s, a))
  {
    if a.Step? {
      match s.threads[a.t] {
        case WakeTry(_) => WakeKeepsInv(s, a.t);
        case TimerTry(_, _) => WakeKeepsInv(s, a.t);
        case Push => QueueKeepsInv(s, a.t);
        case PushLocal => QueueKeepsInv(s, a.t);
        case StoreQueued => QueueKeepsInv(s, a.t);
        case Pulled => ResumeKeepsInv(s, a.t);
        case LocalPulled => ResumeKeepsInv(s, a.t);
        case _ => ReleaseKeepsInv(s, a.t);
      }
    } else {
      StartKeepsInv(s, a);
    }
  }

  ghost predicate Run(ss: seq<State>, acts: seq<Action>) {
    && |ss| == |acts| + 1 && Init(ss[0])
    && forall i | 0 <= i < |acts| :: Enabled(ss[i], acts[i]) && ss[i + 1] == Apply(ss[i], acts[i])
  }

  lemma {:induction false} RunKeepsInv(ss: seq<State>, acts: seq<Action>, n: nat)
    requires Run(ss, acts) && n < |ss|
    ensures Inv(ss[n])
  {
    if n == 0 {
      assert Init(ss[0]);
    } else {
      RunKeepsInv(ss, acts, n - 1);
      StepKeepsInv(ss[n - 1], acts[n - 1]);
    }
  }

  /** Some run leads to this state. */
  ghost predicate Reachable(s: State) {
    exists ss, acts :: Run(ss, acts) && ss[|acts|] == s
  }

  lemma ReachableInv(s: State)
    requires Reachable(s)
    ensures Inv(s)
  {
    var ss, acts :| Run(ss, acts) && ss[|acts|] == s;
    RunKeepsInv(ss, acts, |acts|);
  }

  // ------------------------------------------------------------ the theorems

  /** One entry exactly when QUEUED, give or take the thread that carries it to
      or from the queue; never two. */
  lemma QueuedExactlyOnce(s: State)
    requires Reachable(s)
    ensures s.entries <= 1 && s.locals <= 1
    ensures s.ws.Queued? <==>
              s.entries == 1
              || exists t :: t in s.threads && (s.threads[t].Push? || s.threads[t].Pulled?)
    ensures s.entries == 1 ==> forall t | t in s.threads :: !Owning(s.threads[t])
  {
    ReachableInv(s);
    if s.ws.Queued? && s.entries == 0 {
      assert s.at.At? && s.at.t in s.threads;
    }
  }

  /** At most one thread owns g: nobody else can be resuming it, switching it
      out, sweeping its stack or queueing it. */
  lemma OwnedByOne(s: State, t: Tid, u: Tid)
    requires Reachable(s) && t in s.threads && u in s.threads && Owning(s.threads[t]) && Owning(s.threads[u])
    ensures t == u && s.entries == 0 && s.locals == 0 && !s.ws.Parked?
  {
    ReachableInv(s);
  }

  /** The two claims that cannot lose do not: a pulled entry is QUEUED, and an
      entry popped from a local queue never is. */
  lemma ClaimsWin(s: State, t: Tid)
    requires Reachable(s) && t in s.threads
    ensures s.threads[t].Pulled? ==> StepOf(s, t).threads[t].OnCpu? && StepOf(s, t).resumes == s.resumes + 1
    ensures s.threads[t].LocalPulled? ==> StepOf(s, t).threads[t].OnCpu? && StepOf(s, t).resumes == s.resumes + 1
  {
    ReachableInv(s);
    if s.threads[t].Pulled? || s.threads[t].LocalPulled? { assert s.at == At(t); }
  }

  /** The steps left, by whoever owns g or takes it from its queue, before g is
      resumed; none are due when g is not runnable. */
  function StepsToResume(s: State): (n: nat)
    requires s.at.At? ==> s.at.t in s.threads
  {
    match s.at
    case Entry => 2
    case Local => 2
    case At(t) =>
      (match s.threads[t]
       case Pulled => 1
       case LocalPulled => 1
       case Push => 3
       case PushLocal => 3
       case StoreQueued => 4
       case YieldEnd => 4
       case ParkEnd => if s.ws.RunningWoken? then 5 else 0
       case Sweep => if s.ws.SweepingWoken? then 5 else 0
       case _ => 0)
    case _ => 0
  }

  /** No lost wake: if g has been woken since its last resume began, it is done,
      on the CPU with the wake recorded, or a bounded number of owner steps from
      its next resume. */
  lemma WokenWillResume(s: State)
    requires Reachable(s) && s.woken
    ensures s.at.At? ==> s.at.t in s.threads
    ensures StepsToResume(s) > 0 || s.at.Gone? || (s.at.At? && s.threads[s.at.t].OnCpu? && s.ws.RunningWoken?)
  {
    ReachableInv(s);
  }

  /** The step is g's owner's, or takes g off a queue. */
  predicate OwnerStep(s: State, a: Action) {
    a.TakeEntry? || a.TakeLocal? || (a.Step? && s.at == At(a.t))
  }

  /** ... and the count goes down by one at each of those, to a resume, while no
      other step touches it. */
  lemma OwnerStepsLeadToResume(s: State, a: Action)
    requires Reachable(s) && Enabled(s, a)
    ensures (s.at.At? ==> s.at.t in s.threads) && (Apply(s, a).at.At? ==> Apply(s, a).at.t in Apply(s, a).threads)
    ensures StepsToResume(s) > 0 ==>
              if OwnerStep(s, a) then
                if StepsToResume(s) == 1 then Apply(s, a).resumes == s.resumes + 1
                else StepsToResume(Apply(s, a)) == StepsToResume(s) - 1
              else StepsToResume(Apply(s, a)) == StepsToResume(s)
  {
    ReachableInv(s);
    StepKeepsInv(s, a);
    if a.Step? {
      if s.at == At(a.t) { if StepsToResume(s) > 0 { OwnerCounts(s, a.t); } } else { OthersDoNotCount(s, a.t); }
    }
  }

  lemma OthersDoNotCount(s: State, t: Tid)
    requires Inv(s) && t in s.threads && s.at != At(t) && (s.at.At? ==> s.at.t in s.threads)
    ensures StepOf(s, t).at.At? ==> StepOf(s, t).at.t in StepOf(s, t).threads
    ensures StepsToResume(s) > 0 ==> StepsToResume(StepOf(s, t)) == StepsToResume(s)
  {
    assert !Owning(s.threads[t]);
  }

  lemma OwnerCounts(s: State, t: Tid)
    requires Inv(s) && t in s.threads && s.at == At(t) && StepsToResume(s) > 0
    ensures if StepsToResume(s) == 1 then StepOf(s, t).resumes == s.resumes + 1
            else (StepOf(s, t).at.At? ==> StepOf(s, t).at.t in StepOf(s, t).threads)
                 && StepsToResume(StepOf(s, t)) == StepsToResume(s) - 1
  {
  }

  ghost predicate Path(ss: seq<State>, acts: seq<Action>) {
    && |ss| == |acts| + 1
    && forall i | 0 <= i < |acts| :: Enabled(ss[i], acts[i]) && ss[i + 1] == Apply(ss[i], acts[i])
  }

  /** The owner steps among the first n. */
  function OwnerSteps(ss: seq<State>, acts: seq<Action>, n: nat): nat
    requires n <= |acts| && n <= |ss|
  {
    if n == 0 then 0 else OwnerSteps(ss, acts, n - 1) + if OwnerStep(ss[n - 1], acts[n - 1]) then 1 else 0
  }

  function Due(s: State): nat { if s.at.At? && s.at.t !in s.threads then 0 else StepsToResume(s) }

  lemma {:induction false} PathKeepsReachable(ss: seq<State>, acts: seq<Action>, n: nat)
    requires Path(ss, acts) && Reachable(ss[0]) && n < |ss|
    ensures Reachable(ss[n])
  {
    if n == 0 {
    } else {
      PathKeepsReachable(ss, acts, n - 1);
      var s' := Then(ss[n - 1], acts[n - 1]);
    }
  }

  /** One step of anybody's: a resume, or one fewer owner steps due. */
  lemma DueStep(s: State, a: Action)
    requires Reachable(s) && Enabled(s, a) && Due(s) > 0
    ensures var s' := Apply(s, a);
            s'.resumes == s.resumes + 1
            || (s'.resumes == s.resumes && Due(s') > 0 && Due(s') + (if OwnerStep(s, a) then 1 else 0) == Due(s))
  {
    OwnerStepsLeadToResume(s, a);
    ResumesGrow(s, a);
  }

  lemma ResumesGrow(s: State, a: Action)
    requires Enabled(s, a)
    ensures s.resumes <= Apply(s, a).resumes <= s.resumes + 1
  {
  }

  lemma DueStepAt(ss: seq<State>, acts: seq<Action>, i: nat)
    requires Path(ss, acts) && Reachable(ss[0]) && i < |acts| && Due(ss[i]) > 0
    ensures ss[i + 1].resumes == ss[i].resumes + 1
         || (ss[i + 1].resumes == ss[i].resumes && Due(ss[i + 1]) > 0
             && Due(ss[i + 1]) + (if OwnerStep(ss[i], acts[i]) then 1 else 0) == Due(ss[i]))
  {
    PathKeepsReachable(ss, acts, i);
    DueStep(ss[i], acts[i]);
  }

  lemma {:induction false} DueCounts(ss: seq<State>, acts: seq<Action>, n: nat)
    requires Path(ss, acts) && Reachable(ss[0]) && Due(ss[0]) > 0 && n < |ss|
    requires forall k | 0 <= k <= n :: ss[k].resumes <= ss[0].resumes
    ensures ss[n].resumes == ss[0].resumes && Due(ss[n]) > 0 && Due(ss[n]) + OwnerSteps(ss, acts, n) == Due(ss[0])
  {
    if n == 0 {
    } else {
      DueCounts(ss, acts, n - 1);
      DueStepAt(ss, acts, n - 1);
    }
  }

  /** So a runnable g is resumed: whatever else happens, by the time as many owner
      steps have been taken as were due, a resume has begun. */
  lemma RunnableIsResumed(ss: seq<State>, acts: seq<Action>)
    requires Path(ss, acts) && Reachable(ss[0]) && Due(ss[0]) > 0 && OwnerSteps(ss, acts, |acts|) >= Due(ss[0])
    ensures exists n :: 0 <= n < |ss| && ss[n].resumes > ss[0].resumes
  {
    if forall n | 0 <= n < |ss| :: ss[n].resumes <= ss[0].resumes { DueCounts(ss, acts, |acts|); }
  }

  // ------------------------------------------------------- a wake, as a call

  /** Since `base` resumes, g has been woken or has been resumed again. */
  predicate Served(s: State, base: nat) { s.resumes > base || (s.resumes == base && s.woken) }

  /** A wake under way, begun at `base` resumes: a mark that it has seen, and will
      leave its own wake to, is or has been served. */
  predicate Waking(s: State, t: Tid, base: nat) {
    && t in s.threads && s.threads[t].WakeTry? && base <= s.resumes
    && (Marked(s.threads[t].st) ==> Served(s, base))
  }

  lemma OthersKeepServed(s: State, a: Action, t: Tid, base: nat)
    requires Enabled(s, a) && t in s.threads && a.t != t
    ensures t in Apply(s, a).threads && Apply(s, a).threads[t] == s.threads[t]
    ensures base <= s.resumes ==> base <= Apply(s, a).resumes
    ensures Served(s, base) ==> Served(Apply(s, a), base)
  {
    if a.Step? { StepKeepsServed(s, a.t, base); }
  }

  lemma StepKeepsServed(s: State, u: Tid, base: nat)
    requires u in s.threads
    ensures StepOf(s, u).threads == s.threads || StepOf(s, u).threads == s.threads[u := StepOf(s, u).threads[u]]
    ensures base <= s.resumes ==> base <= StepOf(s, u).resumes
    ensures Served(s, base) ==> Served(StepOf(s, u), base)
  {
    if s.threads[u].WakeTry? || s.threads[u].TimerTry? { TryKeepsServed(s, u, base); }
  }

  lemma TryKeepsServed(s: State, u: Tid, base: nat)
    requires u in s.threads && (s.threads[u].WakeTry? || s.threads[u].TimerTry?)
    ensures u in StepOf(s, u).threads && StepOf(s, u).threads == s.threads[u := StepOf(s, u).threads[u]]
    ensures StepOf(s, u).resumes == s.resumes && (Served(s, base) ==> Served(StepOf(s, u), base))
  {
  }

  /** A step of a wake leaves it under way, or done and served. */
  lemma WakingStep(s: State, a: Action, t: Tid, base: nat)
    requires Enabled(s, a) && Waking(s, t, base)
    ensures t in Apply(s, a).threads
    ensures Waking(Apply(s, a), t, base) || (!Apply(s, a).threads[t].WakeTry? && Served(Apply(s, a), base))
  {
    if a.t != t { OthersKeepServed(s, a, t, base); }
  }

  /** A wake or a timer's claim goes round again only if wake_state has changed since it
      was read, and then with what it is now. */
  lemma WakeAdvances(s: State, t: Tid)
    requires t in s.threads && (s.threads[t].WakeTry? || s.threads[t].TimerTry?)
    ensures var pc, pc' := s.threads[t], StepOf(s, t).threads[t];
            pc'.WakeTry? || pc'.TimerTry? ==>
              pc.st != s.ws && pc' == (if pc.WakeTry? then WakeTry(s.ws) else TimerTry(s.ws, pc.elsewhere))
  {
  }

  /** A sweep gets g's stack exactly if g is PARKED, and gives it back at its next step,
      to be queued if a wake has come in meanwhile. */
  lemma SweepClaimsIff(s: State, t: Tid)
    requires Reachable(s) && t in s.threads
    ensures s.threads[t].Idle? ==>
              var s' := Apply(s, StartSweep(t));
              (s'.threads[t].Sweep? <==> s.ws.Parked?) && (s'.threads[t].Sweep? ==> s'.ws.Sweeping? && s'.at == At(t))
              && (!s.ws.Parked? ==> s' == s)
    ensures s.threads[t].Sweep? ==>
              var s' := StepOf(s, t);
              if s.ws.SweepingWoken? then s'.threads[t].StoreQueued? else s'.threads[t].Idle? && s'.ws.Parked?
  {
    ReachableInv(s);
    if s.threads[t].Sweep? { assert s.at == At(t); }
  }

  /** Thread t is in the wake that it starts at i; at n it may be done with it. */
  ghost predicate InWake(ss: seq<State>, acts: seq<Action>, i: nat, n: nat, t: Tid) {
    && Path(ss, acts) && i < n < |ss| && acts[i] == StartWake(t)
    && forall k | i < k < n :: t in ss[k].threads && ss[k].threads[t].WakeTry?
  }

  /** Every wake, by the time its caller is done with it, has woken g, or g has been
      resumed since it began. */
  lemma {:induction false} WakeServes(ss: seq<State>, acts: seq<Action>, i: nat, n: nat, t: Tid)
    requires InWake(ss, acts, i, n, t)
    ensures t in ss[n].threads
    ensures if ss[n].threads[t].WakeTry? then Waking(ss[n], t, ss[i].resumes) else Served(ss[n], ss[i].resumes)
  {
    assert Enabled(ss[n - 1], acts[n - 1]) && ss[n] == Apply(ss[n - 1], acts[n - 1]);
    if n == i + 1 {
    } else {
      WakeServes(ss, acts, i, n - 1, t);
      WakingStep(ss[n - 1], acts[n - 1], t, ss[i].resumes);
    }
  }

  /** So no wake is lost: once it is done, g has been resumed since it began, or is
      done, or on the CPU with the wake recorded, or a bounded number of owner steps
      from a resume (see RunnableIsResumed). */
  lemma WakeIsNotLost(ss: seq<State>, acts: seq<Action>, i: nat, n: nat, t: Tid)
    requires InWake(ss, acts, i, n, t) && Reachable(ss[0]) && t in ss[n].threads && !ss[n].threads[t].WakeTry?
    ensures var s := ss[n];
            || s.resumes > ss[i].resumes || Due(s) > 0 || s.at.Gone?
            || (s.at.At? && s.at.t in s.threads && s.threads[s.at.t].OnCpu? && s.ws.RunningWoken?)
  {
    WakeServes(ss, acts, i, n, t);
    PathKeepsReachable(ss, acts, n);
    if ss[n].woken { WokenWillResume(ss[n]); }
  }

  /** The same for a timer's claim, but that it may find g running, its sleep already
      over. */
  predicate Expiring(s: State, t: Tid, base: nat, ran: bool) {
    && t in s.threads && s.threads[t].TimerTry? && base <= s.resumes
    && (Marked(s.threads[t].st) ==> Served(s, base)) && (s.threads[t].st.Running? ==> ran)
  }

  lemma ExpiringStep(s: State, a: Action, t: Tid, base: nat, ran: bool)
    requires Enabled(s, a) && Expiring(s, t, base, ran)
    ensures t in Apply(s, a).threads
    ensures Expiring(Apply(s, a), t, base, ran || s.ws.Running?)
         || (!Apply(s, a).threads[t].TimerTry? && (ran || Served(Apply(s, a), base)))
  {
    if a.t != t { OthersKeepServed(s, a, t, base); }
  }

  ghost predicate InTimer(ss: seq<State>, acts: seq<Action>, i: nat, n: nat, t: Tid) {
    && Path(ss, acts) && i < n < |ss| && acts[i].StartTimer? && acts[i].t == t
    && forall k | i < k < n :: t in ss[k].threads && ss[k].threads[t].TimerTry?
  }

  ghost predicate RanBetween(ss: seq<State>, i: nat, n: nat) { exists k :: i <= k < n && k < |ss| && ss[k].ws.Running? }

  lemma {:induction false} TimerServes(ss: seq<State>, acts: seq<Action>, i: nat, n: nat, t: Tid)
    requires InTimer(ss, acts, i, n, t)
    ensures t in ss[n].threads
    ensures if ss[n].threads[t].TimerTry? then Expiring(ss[n], t, ss[i].resumes, RanBetween(ss, i, n))
            else Served(ss[n], ss[i].resumes) || RanBetween(ss, i, n)
  {
    assert Enabled(ss[n - 1], acts[n - 1]) && ss[n] == Apply(ss[n - 1], acts[n - 1]);
    if n == i + 1 {
    } else {
      TimerServes(ss, acts, i, n - 1, t);
      ExpiringStep(ss[n - 1], acts[n - 1], t, ss[i].resumes, RanBetween(ss, i, n - 1));
    }
  }

  // -------------------------------------------------- the table, and its gaps

  /** The release of a yield stores RUNNING whatever was there. */
  predicate YieldDropsMark(s: State, a: Action) {
    a.Step? && a.t in s.threads && s.threads[a.t].YieldEnd? && s.ws.RunningWoken?
  }

  predicate Legal(from: WS, to: WS) { exists e :: Table(from, e) == To(to) }

  lemma EdgeStep(s: State, a: Action)
    requires Enabled(s, a) && Apply(s, a).ws != s.ws
    requires Owning(s.threads[a.t]) ==> OwnerWs(s.threads[a.t], s.ws)
    ensures Legal(s.ws, Apply(s, a).ws) <==> !YieldDropsMark(s, a)
  {
    var to := Apply(s, a).ws;
    assert Table(s.ws, Wake) == To(to) || Table(s.ws, Pull) == To(to) || Table(s.ws, Release) == To(to)
        || Table(s.ws, SweepClaim) == To(to) || Table(s.ws, SweepRelease) == To(to) || Table(s.ws, TimerClaim) == To(to)
        || YieldDropsMark(s, a);
  }

  /** Every change of wake_state is an edge of the table, except exactly the
      yield release that finds RUNNING_WOKEN. */
  lemma EdgesAreInTable(s: State, a: Action)
    requires Reachable(s) && Enabled(s, a) && Apply(s, a).ws != s.ws
    ensures Legal(s.ws, Apply(s, a).ws) <==> !YieldDropsMark(s, a)
  {
    assert Owning(s.threads[a.t]) ==> OwnerWs(s.threads[a.t], s.ws) by { ReachableInv(s); }
    EdgeStep(s, a);
  }

  /** A wake since the last resume began shows in wake_state, and only that. */
  predicate Exact(s: State) {
    s.woken <==> Marked(s.ws)
  }

  /** g is resumed off a local queue with the mark of an earlier wake on it. */
  predicate ResumesMarked(s: State, a: Action) {
    a.Step? && a.t in s.threads && s.threads[a.t].LocalPulled? && s.ws.RunningWoken?
  }

  /** The timer moved g straight to RUNNING, as a wake that leaves no mark. */
  predicate TimerRuns(s: State, a: Action) {
    a.Step? && a.t in s.threads && s.threads[a.t] == TimerTry(Parked, false) && s.ws.Parked?
  }

  /** "Pending if and only if QUEUED or a WOKEN state" is kept by every step but
      these three, each of which breaks it. */
  lemma ExactUnless(s: State, a: Action)
    requires Reachable(s) && Enabled(s, a) && Exact(s)
    ensures Exact(Apply(s, a)) <==> !YieldDropsMark(s, a) && !ResumesMarked(s, a) && !TimerRuns(s, a)
  {
    ReachableInv(s);
    if a.Step? && Owning(s.threads[a.t]) { assert s.at == At(a.t); }
  }

  // --------------------------------------------- and each of them does happen

  lemma Then(s: State, a: Action) returns (s': State)
    requires Reachable(s) && Enabled(s, a)
    ensures s' == Apply(s, a) && Reachable(s')
  {
    var ss, acts :| Run(ss, acts) && ss[|acts|] == s;
    s' := Apply(s, a);
    assert Run(ss + [s'], acts + [a]);
  }

  /** A fresh g and two threads that have not touched it. */
  lemma Fresh() returns (s: State)
    ensures Reachable(s) && s.ws.Running? && s.locals == 1 && !s.woken
    ensures 0 in s.threads && 1 in s.threads && s.threads[0].Idle? && s.threads[1].Idle?
  {
    s := State(Running, 0, 1, map[0 := Idle, 1 := Idle], Local, 0, false);
    assert Run([s], []);
  }

  /** g on thread 0's CPU for the first time. */
  lemma First() returns (s: State)
    ensures Reachable(s) && s.ws.Running? && s.at == At(0) && !s.woken
    ensures 0 in s.threads && 1 in s.threads && s.threads[0].OnCpu? && s.threads[1].Idle?
  {
    s := Fresh();
    s := Then(s, TakeLocal(0));
    s := Then(s, Step(0));
  }

  /** g is woken while it runs, and then yields. */
  lemma YieldDropsMarkHappens() returns (s: State)
    ensures Reachable(s) && Exact(s) && Enabled(s, Step(0)) && YieldDropsMark(s, Step(0))
  {
    s := First();
    s := Then(s, StartWake(1));
    s := Then(s, Step(1));
    s := Then(s, EndResume(0, Yields));
  }

  /** g is woken before its first resume. */
  lemma ResumesMarkedHappens() returns (s: State)
    ensures Reachable(s) && Exact(s) && Enabled(s, Step(0)) && ResumesMarked(s, Step(0))
  {
    s := Fresh();
    s := Then(s, StartWake(1));
    s := Then(s, Step(1));
    s := Then(s, TakeLocal(0));
  }

  /** g parks, and its sleep expires on its own hub. */
  lemma TimerRunsHappens() returns (s: State)
    ensures Reachable(s) && Exact(s) && Enabled(s, Step(1)) && TimerRuns(s, Step(1))
  {
    s := First();
    s := Then(s, EndResume(0, Parks));
    s := Then(s, Step(0));
    s := Then(s, StartTimer(1, false));
  }
}
