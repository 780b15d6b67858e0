/**
 One blocking `runloom_chan_select` call against every operation that other
 fibers may run on its channels (chan_select_main.c.inc, chan_waiters.c.inc).

 A step is one atomic access or one access to data guarded by a channel lock.
 The channels' own contents and the other waiters on their queues are the
 environment's business: an operation holding a channel's lock may or may not
 get as far as one of our waiters, and whether a channel looks ready at install
 time is its choice.  A parked fiber may be resumed at any moment.
 */
module Select {
  import opened Options

  type Val = nat

  datatype Case = Send(ch: nat, v: Val) | Recv(ch: nat)

  /** A waiter record of ours: `value` is NULL or a reference, ok and sendOk are
      the receiver's and the sender's result fields. */
  datatype Waiter = Waiter(linked: bool, value: Option<Val>, ok: int, sendOk: bool)

  /** An operation of another fiber, with the value it has in hand; a sender's
      `v` is history, the value it came with. */
  datatype EnvOp = Sender(v: Val, hand: Option<Val>) | Receiver(got: Option<Val>) | Closer

  /** How far an operation that holds a channel's lock is with its waiter. */
  datatype Stage = Scanning | Popped(i: nat) | Won(i: nat) | Delivered(i: nat) | Finished

  datatype Holder = Free | Ours | Env(op: EnvOp, stage: Stage)

  datatype Mode = Aborting | Spurious | Fired

  datatype Result = Scanned(i: nat) | Received(i: nat, v: Val) | Sent(i: nat) | ClosedError(i: nat)

  datatype Pc =
    | Scan
    | Install(i: nat) | InstallLocked(i: nat) | AbortCas(i: nat)
    | Park(installed: nat) | Parked(installed: nat) | ReadFired(installed: nat)
    | Evict(j: nat, skip: Option<nat>, mode: Mode) | EvictLocked(j: nat, skip: Option<nat>, mode: Mode)
    | ReRead
    | Finish(f: nat)
    | Done(r: Result)

  /** Who moved fired_case off -1. */
  datatype Claim = Unclaimed | BySelf(i: nat) | ByEnv(i: nat)

  /** What the winning operation did to our waiter (history). */
  datatype Given = Gave(v: Val) | Took(v: Val) | Closed

  /** `given` and `exchanges` are history: what the winner of the present park
      did, and how many values have changed hands in the call so far. */
  datatype State = State(
    cases: seq<Case>, locks: seq<Holder>,
    fired: Claim, ws: seq<Waiter>, pc: Pc, woken: bool,
    given: Option<Given>, exchanges: nat)

  datatype Action =
    | Fiber(ready: bool, which: nat)
    | Resume
    | EnvLock(c: nat, op: EnvOp)
    | EnvPop(c: nat, i: nat)
    | EnvStep(c: nat)

  predicate WellFormed(s: State) {
    && |s.cases| > 0 && |s.ws| == |s.cases|
    && forall i | 0 <= i < |s.cases| :: s.cases[i].ch < |s.locks|
  }

  function FreshWaiter(c: Case): Waiter {
    if c.Send? then Waiter(false, Some(c.v), 0, false) else Waiter(false, None, -1, false)
  }

  function FreshWaiters(cases: seq<Case>): (ws: seq<Waiter>)
    ensures |ws| == |cases|
  {
    seq(|cases|, i requires 0 <= i < |cases| => FreshWaiter(cases[i]))
  }

  predicate Matches(op: EnvOp, c: Case) {
    (op.Sender? ==> c.Recv?) && (op.Receiver? ==> c.Send?)
  }

  /** The waiter of ours that the holder of a lock is about to touch. */
  function Ref(h: Holder): Option<nat> {
    if h.Env? && (h.stage.Popped? || h.stage.Won? || h.stage.Delivered?) then Some(h.stage.i) else None
  }

  predicate Window(h: Holder, i: nat) {
    h.Env? && (h.stage == Won(i) || h.stage == Delivered(i))
  }

  // ------------------------------------------------------------- the fiber

  function Channel(s: State, i: nat): nat
    requires WellFormed(s) && i < |s.cases|
  {
    s.cases[i].ch
  }

  predicate FiberEnabled(s: State, which: nat)
    requires WellFormed(s)
  {
    match s.pc
    case Scan => which <= |s.cases|
    case Install(i) => i < |s.cases| && s.locks[Channel(s, i)].Free?
    case InstallLocked(i) => i < |s.cases|
    case AbortCas(i) => i < |s.cases|
    case Evict(j, skip, mode) =>
      && j <= |s.cases|
      && (j < |s.cases| && skip != Some(j) ==> s.locks[Channel(s, j)].Free?)
      && (j == |s.cases| && mode.Fired? ==> skip.Some?)
    case EvictLocked(j, _, _) => j < |s.cases|
    case Finish(f) => f < |s.cases|
    case Parked(_) => false
    case Done(_) => false
    case _ => true
  }

  function SetLock(s: State, c: nat, h: Holder): State
    requires c < |s.locks|
  {
    s.(locks := s.locks[c := h])
  }

  /** Phase 1, `select_try_each`: a case fires on the spot, or the park record
      and the waiters are set up. */
  function ScanStep(s: State, which: nat): State {
    if which < |s.cases| then s.(pc := Done(Scanned(which)))
    else s.(fired := Unclaimed, ws := FreshWaiters(s.cases), given := None, pc := Install(0))
  }

  /** The re-check of case i under its channel's lock. */
  function InstallStep(s: State, i: nat, ready: bool): State
    requires WellFormed(s) && i < |s.cases|
  {
    var s1 := SetLock(s, Channel(s, i), Free);
    if ready then s1.(pc := AbortCas(i))
    else s1.(ws := s.ws[i := s.ws[i].(linked := true)],
             pc := if i + 1 < |s.cases| then Install(i + 1) else Park(|s.cases|))
  }

  function AfterEvict(s: State, skip: Option<nat>, mode: Mode): State
    requires mode.Fired? ==> skip.Some?
  {
    match mode
    case Aborting => s.(pc := Scan)
    case Spurious => s.(pc := ReRead)
    case Fired => s.(pc := Finish(skip.value))
  }

  function FinishStep(s: State, f: nat): State
    requires WellFormed(s) && f < |s.cases|
  {
    if s.cases[f].Send? then
      s.(pc := Done(if s.ws[f].sendOk then Sent(f) else ClosedError(f)))
    else if s.ws[f].value.Some? then s.(pc := Done(Received(f, s.ws[f].value.value)))
    else s.(pc := Scan)
  }

  function FiredIndex(c: Claim): Option<nat> {
    if c.Unclaimed? then None else Some(c.i)
  }

  function FiberStep(s: State, ready: bool, which: nat): State
    requires WellFormed(s) && FiberEnabled(s, which)
  {
    match s.pc
    case Scan => ScanStep(s, which)
    case Install(i) => SetLock(s, Channel(s, i), Ours).(pc := InstallLocked(i))
    case InstallLocked(i) => InstallStep(s, i, ready)
    case AbortCas(i) =>
      if s.fired.Unclaimed? then s.(fired := BySelf(i), pc := Evict(0, None, Aborting))
      else s.(pc := Park(i))
    case Park(k) => s.(pc := Parked(k))
    case ReadFired(_) =>
      if FiredIndex(s.fired).Some? then s.(pc := Evict(0, FiredIndex(s.fired), Fired))
      else s.(pc := Evict(0, None, Spurious))
    case Evict(j, skip, mode) =>
      if j == |s.cases| then AfterEvict(s, skip, mode)
      else if skip == Some(j) then s.(pc := Evict(j + 1, skip, mode))
      else SetLock(s, Channel(s, j), Ours).(pc := EvictLocked(j, skip, mode))
    case EvictLocked(j, skip, mode) =>
      SetLock(s, Channel(s, j), Free)
        .(ws := s.ws[j := s.ws[j].(linked := false)], pc := Evict(j + 1, skip, mode))
    case ReRead =>
      if FiredIndex(s.fired).Some? then s.(pc := Evict(0, FiredIndex(s.fired), Fired)) else s.(pc := Scan)
    case Finish(f) => FinishStep(s, f)
    case _ => s
  }

  // ------------------------------------------------------- the other fibers

  /** The winner fills in our waiter, under its channel's lock. */
  function Deliver(s: State, c: nat, op: EnvOp, i: nat): State
    requires WellFormed(s) && c < |s.locks| && i < |s.cases|
  {
    var w := s.ws[i];
    match op
    case Sender(v, hand) =>
      SetLock(s, c, Env(Sender(v, None), Delivered(i)))
        .(ws := s.ws[i := w.(value := hand, ok := 1)], given := if hand.Some? then Some(Gave(hand.value)) else None,
          exchanges := s.exchanges + 1)
    case Receiver(_) =>
      SetLock(s, c, Env(Receiver(w.value), Delivered(i)))
        .(ws := s.ws[i := w.(value := None, sendOk := true)],
          given := if w.value.Some? then Some(Took(w.value.value)) else None, exchanges := s.exchanges + 1)
    case Closer =>
      SetLock(s, c, Env(op, Delivered(i)))
        .(ws := s.ws[i := if s.cases[i].Send? then w.(sendOk := false) else w.(value := None, ok := 0)],
          given := Some(Closed))
  }

  /** `waiter_claim`: the popped waiter is ours if fired_case is still -1;
      otherwise it is a tombstone and the scan goes on. */
  function ClaimStep(s: State, c: nat, op: EnvOp, i: nat): State
    requires c < |s.locks|
  {
    if s.fired.Unclaimed? then SetLock(s, c, Env(op, Won(i))).(fired := ByEnv(i))
    else SetLock(s, c, Env(op, Scanning))
  }

  function EnvApply(s: State, c: nat, op: EnvOp, stage: Stage): State
    requires WellFormed(s) && c < |s.locks| && (stage.Won? ==> stage.i < |s.cases|)
  {
    match stage
    case Popped(i) => ClaimStep(s, c, op, i)
    case Won(i) => Deliver(s, c, op, i)
    case Delivered(_) => SetLock(s, c, Env(op, if op.Closer? then Scanning else Finished)).(woken := true)
    case _ => SetLock(s, c, Free)
  }

  predicate Enabled(s: State, a: Action)
    requires WellFormed(s)
  {
    match a
    case Fiber(_, which) => FiberEnabled(s, which)
    case Resume => s.pc.Parked?
    case EnvLock(c, op) =>
      c < |s.locks| && s.locks[c].Free? && (op.Sender? ==> op.hand == Some(op.v)) && (op.Receiver? ==> op.got.None?)
    case EnvPop(c, i) =>
      && c < |s.locks| && i < |s.cases| && s.cases[i].ch == c && s.ws[i].linked
      && s.locks[c].Env? && s.locks[c].stage.Scanning? && Matches(s.locks[c].op, s.cases[i])
    case EnvStep(c) =>
      c < |s.locks| && s.locks[c].Env? && (s.locks[c].stage.Won? ==> s.locks[c].stage.i < |s.cases|)
  }

  function Apply(s: State, a: Action): (s': State)
    requires WellFormed(s) && Enabled(s, a)
    ensures WellFormed(s') && s'.cases == s.cases && |s'.locks| == |s.locks|
  {
    match a
    case Fiber(ready, which) => FiberStep(s, ready, which)
    case Resume => s.(pc := ReadFired(s.pc.installed), woken := false)
    case EnvLock(c, op) => SetLock(s, c, Env(op, Scanning))
    case EnvPop(c, i) =>
      SetLock(s, c, Env(s.locks[c].op, Popped(i))).(ws := s.ws[i := s.ws[i].(linked := false)])
    case EnvStep(c) => EnvApply(s, c, s.locks[c].op, s.locks[c].stage)
  }

  // ------------------------------------------------------------- invariant

  /** Where case i stands, given where the fiber is. */
  datatype Zone = Out | In | Skip

  function ZoneOf(pc: Pc, i: nat): Zone {
    match pc
    case Install(k) => if i < k then In else Out
    case InstallLocked(k) => if i < k then In else Out
    case AbortCas(k) => if i < k then In else Out
    case Park(k) => if i < k then In else Out
    case Parked(k) => if i < k then In else Out
    case ReadFired(k) => if i < k then In else Out
    case Evict(j, skip, _) => if skip == Some(i) then Skip else if i < j then Out else In
    case EvictLocked(j, skip, _) => if skip == Some(i) then Skip else if i < j then Out else In
    case _ => Out
  }

  /** Before the park is over, every installed case can still claim it. */
  predicate Waiting(pc: Pc) {
    pc.Install? || pc.InstallLocked? || pc.AbortCas? || pc.Park? || pc.Parked? || pc.ReadFired?
  }

  /** Case i's waiter `w` and its channel's holder `h`. */
  predicate CaseInv(i: nat, c: Case, w: Waiter, h: Holder, fired: Claim, pc: Pc) {
    && (w.linked ==> ZoneOf(pc, i).In? && fired != ByEnv(i) && fired != BySelf(i) && Ref(h) != Some(i))
    && (Ref(h) == Some(i) ==> !ZoneOf(pc, i).Out? && Matches(h.op, c))
    && (Window(h, i) ==> fired == ByEnv(i))
    && (Ref(h) == Some(i) && h.stage.Popped? ==> ZoneOf(pc, i).In? && fired != ByEnv(i) && fired != BySelf(i))
    && (Waiting(pc) && ZoneOf(pc, i).In? && fired.Unclaimed? ==> w.linked || Ref(h) == Some(i))
    && (Waiting(pc) && fired == ByEnv(i) ==> ZoneOf(pc, i).In?)
    && (fired == ByEnv(i) || w == FreshWaiter(c).(linked := w.linked))
  }

  /** Whoever holds channel c's lock touches waiters of c only, and a sender has
      its value in hand until it has delivered it. */
  predicate HolderInv(c: nat, h: Holder, cases: seq<Case>) {
    && (Ref(h).Some? ==> Ref(h).value < |cases| && cases[Ref(h).value].ch == c)
    && (h.Env? && h.op.Sender? ==> (h.op.hand.None? <==> h.stage.Delivered? || h.stage.Finished?))
  }

  /** The channel whose lock the fiber holds. */
  function Inside(pc: Pc, cases: seq<Case>): Option<nat> {
    if pc.InstallLocked? && pc.i < |cases| then Some(cases[pc.i].ch)
    else if pc.EvictLocked? && pc.j < |cases| then Some(cases[pc.j].ch)
    else None
  }

  predicate OursInv(locks: seq<Holder>, cases: seq<Case>, pc: Pc) {
    forall c | 0 <= c < |locks| ::
      locks[c].Ours? <==> Inside(pc, cases) == Some(c)
  }

  /** The winner has done to waiter w what `given` says. */
  predicate Filled(c: Case, w: Waiter, g: Given) {
    match g
    case Gave(v) => c.Recv? && w.value == Some(v) && w.ok == 1
    case Took(v) => c.Send? && v == c.v && w.value == None && w.sendOk
    case Closed => if c.Send? then !w.sendOk && w.value == Some(c.v) else w.value == None && w.ok == 0
  }

  /** The winner is about to fill case i's waiter in, or has. */
  predicate ClaimInv(i: nat, c: Case, w: Waiter, h: Holder, given: Option<Given>) {
    if given.None? then h.Env? && h.stage == Won(i) && w == FreshWaiter(c)
    else !(h.Env? && h.stage == Won(i)) && !w.linked && Filled(c, w, given.value)
  }

  /** Some case after j other than f is on f's channel: evicting it waits for the
      winner to let go of the lock. */
  predicate Guarded(cases: seq<Case>, f: nat, j: nat)
    requires f < |cases|
  {
    exists k :: j <= k < |cases| && k != f && cases[k].ch == cases[f].ch
  }

  /** What the fiber knows at each point. */
  predicate PcInv(s: State)
    requires WellFormed(s)
  {
    match s.pc
    case Scan => s.given in {None, Some(Closed)}
    case Install(i) => i < |s.cases| && !s.fired.BySelf?
    case InstallLocked(i) => i < |s.cases| && !s.fired.BySelf?
    case AbortCas(i) => i < |s.cases| && !s.fired.BySelf?
    case Park(k) => k <= |s.cases| && !s.fired.BySelf? && (s.fired.Unclaimed? ==> k == |s.cases|)
    case Parked(k) => k <= |s.cases| && !s.fired.BySelf? && (s.fired.Unclaimed? ==> k == |s.cases|)
    case ReadFired(k) => k <= |s.cases| && !s.fired.BySelf? && (s.fired.Unclaimed? ==> k == |s.cases|)
    case Evict(j, skip, mode) =>
      j <= |s.cases| && EvictInv(s.cases, s.locks, s.fired, j, skip, mode)
    case EvictLocked(j, skip, mode) =>
      j < |s.cases| && skip != Some(j) && EvictInv(s.cases, s.locks, s.fired, j, skip, mode)
    case ReRead => !s.fired.BySelf?
    case Finish(f) => f < |s.cases| && s.fired == ByEnv(f)
    case Done(r) => DoneInv(s.cases, s.fired, s.given, s.exchanges, r)
  }

  predicate EvictInv(cases: seq<Case>, locks: seq<Holder>, fired: Claim, j: nat, skip: Option<nat>, mode: Mode)
    requires forall i | 0 <= i < |cases| :: cases[i].ch < |locks|
  {
    match mode
    case Aborting => skip == None && fired.BySelf?
    case Spurious => skip == None && !fired.BySelf?
    case Fired =>
      && skip.Some? && skip.value < |cases| && fired == ByEnv(skip.value)
      && (Window(locks[cases[skip.value].ch], skip.value) ==> Guarded(cases, skip.value, j))
  }

  /** What a returned select tells its caller is what one other operation did. */
  predicate DoneInv(cases: seq<Case>, fired: Claim, given: Option<Given>, exchanges: nat, r: Result) {
    match r
    case Scanned(i) => i < |cases| && exchanges == 0
    case Received(i, v) => i < |cases| && cases[i].Recv? && fired == ByEnv(i) && given == Some(Gave(v)) && exchanges == 1
    case Sent(i) => i < |cases| && cases[i].Send? && fired == ByEnv(i) && given == Some(Took(cases[i].v)) && exchanges == 1
    case ClosedError(i) => i < |cases| && cases[i].Send? && fired == ByEnv(i) && given == Some(Closed) && exchanges == 0
  }

  predicate CasesOk(cases: seq<Case>, ws: seq<Waiter>, locks: seq<Holder>, fired: Claim, pc: Pc)
    requires |ws| == |cases| && forall i | 0 <= i < |cases| :: cases[i].ch < |locks|
  {
    forall i | 0 <= i < |cases| :: CaseInv(i, cases[i], ws[i], locks[cases[i].ch], fired, pc)
  }

  predicate HoldersOk(locks: seq<Holder>, cases: seq<Case>) {
    forall c | 0 <= c < |locks| :: HolderInv(c, locks[c], cases)
  }

  predicate FiredOk(s: State)
    requires WellFormed(s)
  {
    && (s.fired.ByEnv? ==>
          && s.fired.i < |s.cases|
          && ClaimInv(s.fired.i, s.cases[s.fired.i], s.ws[s.fired.i], s.locks[s.cases[s.fired.i].ch], s.given))
    && (!s.fired.ByEnv? ==> s.given.None?)
    && s.exchanges == (if s.given.Some? && !s.given.value.Closed? then 1 else 0)
  }

  /** A claimed, parked fiber has its wake coming or already posted. */
  predicate WakeOk(s: State)
    requires WellFormed(s)
  {
    Waiting(s.pc) && !s.pc.ReadFired? && s.fired.ByEnv? && s.fired.i < |s.cases| ==>
      Window(s.locks[s.cases[s.fired.i].ch], s.fired.i) || s.woken
  }

  predicate Inv(s: State) {
    && WellFormed(s)
    && CasesOk(s.cases, s.ws, s.locks, s.fired, s.pc) && HoldersOk(s.locks, s.cases)
    && OursInv(s.locks, s.cases, s.pc) && FiredOk(s) && PcInv(s) && WakeOk(s)
  }

  /** The load of fired_case at the end of the park does not fall between a
      winner's claim and its last access to our waiter, unless a further case on
      the winner's channel makes the eviction wait for that lock. */
  predicate Settled(s: State)
    requires WellFormed(s)
  {
    s.pc.ReadFired? && s.fired.ByEnv? && s.fired.i < |s.cases| ==>
      (Window(s.locks[s.cases[s.fired.i].ch], s.fired.i) ==> Guarded(s.cases, s.fired.i, 0))
  }

  // --------------------------------------------- steps of the other fibers

  /** An operation that holds channel c's lock, or takes or drops it, changed
      that lock, waiters of that channel, and perhaps claimed the park. */
  ghost predicate EnvTouches(s: State, s': State, c: nat) {
    && WellFormed(s) && WellFormed(s') && s'.cases == s.cases && s'.pc == s.pc
    && c < |s.locks| && |s'.locks| == |s.locks| && s'.locks == s.locks[c := s'.locks[c]]
    && !s.locks[c].Ours? && !s'.locks[c].Ours?
    && (forall k | 0 <= k < |s.ws| && s.cases[k].ch != c :: s'.ws[k] == s.ws[k])
    && (s'.fired == s.fired ||
        (s.fired.Unclaimed? && s'.fired.ByEnv? && s'.fired.i < |s.cases| && s.cases[s'.fired.i].ch == c))
  }

  lemma EnvCases(s: State, s': State, c: nat)
    requires EnvTouches(s, s', c) && CasesOk(s.cases, s.ws, s.locks, s.fired, s.pc)
    requires forall k | 0 <= k < |s.cases| && s.cases[k].ch == c ::
               CaseInv(k, s.cases[k], s'.ws[k], s'.locks[c], s'.fired, s.pc)
    ensures CasesOk(s'.cases, s'.ws, s'.locks, s'.fired, s'.pc)
  {
    forall k | 0 <= k < |s.cases|
      ensures CaseInv(k, s'.cases[k], s'.ws[k], s'.locks[s'.cases[k].ch], s'.fired, s'.pc)
    {
      assert CaseInv(k, s.cases[k], s.ws[k], s.locks[s.cases[k].ch], s.fired, s.pc);
    }
  }

  lemma EnvPc(s: State, s': State, c: nat)
    requires EnvTouches(s, s', c) && PcInv(s)
    requires (s'.given == s.given && s'.exchanges == s.exchanges) || (!s.pc.Scan? && !s.pc.Done?)
    requires s.fired.ByEnv? && Window(s'.locks[c], s.fired.i) ==> Window(s.locks[c], s.fired.i)
    ensures PcInv(s')
  {
  }

  lemma EnvHolders(s: State, s': State, c: nat)
    requires EnvTouches(s, s', c) && HoldersOk(s.locks, s.cases) && OursInv(s.locks, s.cases, s.pc)
    requires HolderInv(c, s'.locks[c], s.cases)
    ensures HoldersOk(s'.locks, s'.cases) && OursInv(s'.locks, s'.cases, s'.pc)
  {
  }

  /** Everything but the claim and the wake. */
  lemma EnvKeeps(s: State, s': State, c: nat)
    requires Inv(s) && EnvTouches(s, s', c)
    requires forall k | 0 <= k < |s.cases| && s.cases[k].ch == c ::
               CaseInv(k, s.cases[k], s'.ws[k], s'.locks[c], s'.fired, s.pc)
    requires HolderInv(c, s'.locks[c], s.cases)
    requires (s'.given == s.given && s'.exchanges == s.exchanges) || (!s.pc.Scan? && !s.pc.Done?)
    requires s.fired.ByEnv? && Window(s'.locks[c], s.fired.i) ==> Window(s.locks[c], s.fired.i)
    requires FiredOk(s') && WakeOk(s')
    ensures Inv(s')
  {
    EnvCases(s, s', c);
    EnvPc(s, s', c);
    EnvHolders(s, s', c);
  }

  /** The facts about channel c that a step of its lock's holder needs. */
  ghost predicate Here(s: State, c: nat) {
    && WellFormed(s) && c < |s.locks| && HolderInv(c, s.locks[c], s.cases) && FiredOk(s) && WakeOk(s)
    && (forall k | 0 <= k < |s.cases| && s.cases[k].ch == c ::
          CaseInv(k, s.cases[k], s.ws[k], s.locks[c], s.fired, s.pc))
  }

  lemma InvHere(s: State, c: nat)
    requires Inv(s) && c < |s.locks|
    ensures Here(s, c)
  {
    forall k | 0 <= k < |s.cases| && s.cases[k].ch == c
      ensures CaseInv(k, s.cases[k], s.ws[k], s.locks[c], s.fired, s.pc)
    {
      assert CaseInv(k, s.cases[k], s.ws[k], s.locks[s.cases[k].ch], s.fired, s.pc);
    }
  }

  /** A step of channel c's holder is good when it meets what EnvKeeps asks. */
  ghost predicate Good(s: State, s': State, c: nat) {
    && EnvTouches(s, s', c)
    && (forall k | 0 <= k < |s.cases| && s.cases[k].ch == c ::
          CaseInv(k, s.cases[k], s'.ws[k], s'.locks[c], s'.fired, s.pc))
    && HolderInv(c, s'.locks[c], s.cases)
    && ((s'.given == s.given && s'.exchanges == s.exchanges) || (!s.pc.Scan? && !s.pc.Done?))
    && (s.fired.ByEnv? && Window(s'.locks[c], s.fired.i) ==> Window(s.locks[c], s.fired.i))
    && FiredOk(s') && WakeOk(s')
  }

  lemma LockGood(s: State, a: Action)
    requires a.EnvLock? && Here(s, a.c) && Enabled(s, a)
    ensures Good(s, Apply(s, a), a.c)
  {
  }

  lemma PopGood(s: State, a: Action)
    requires a.EnvPop? && Here(s, a.c) && Enabled(s, a)
    ensures Good(s, Apply(s, a), a.c)
  {
  }

  lemma ClaimWins(s: State, c: nat)
    requires Here(s, c) && Enabled(s, EnvStep(c)) && s.locks[c].stage.Popped? && s.fired.Unclaimed?
    ensures Good(s, Apply(s, EnvStep(c)), c)
  {
  }

  lemma ClaimLoses(s: State, c: nat)
    requires Here(s, c) && Enabled(s, EnvStep(c)) && s.locks[c].stage.Popped? && !s.fired.Unclaimed?
    ensures Good(s, Apply(s, EnvStep(c)), c)
  {
  }

  lemma DeliverGood(s: State, c: nat)
    requires Here(s, c) && Enabled(s, EnvStep(c)) && s.locks[c].stage.Won?
    ensures Good(s, Apply(s, EnvStep(c)), c)
  {
  }

  lemma WakeGood(s: State, c: nat)
    requires Here(s, c) && Enabled(s, EnvStep(c)) && s.locks[c].stage.Delivered?
    ensures Good(s, Apply(s, EnvStep(c)), c)
  {
  }

  lemma ReleaseGood(s: State, c: nat)
    requires Here(s, c) && Enabled(s, EnvStep(c)) && (s.locks[c].stage.Scanning? || s.locks[c].stage.Finished?)
    ensures Good(s, Apply(s, EnvStep(c)), c)
  {
  }

  lemma EnvKeepsInv(s: State, a: Action)
    requires Inv(s) && Enabled(s, a) && (a.EnvLock? || a.EnvPop? || a.EnvStep?)
    ensures Inv(Apply(s, a))
  {
    InvHere(s, a.c);
    match a {
      case EnvLock(_, _) => LockGood(s, a);
      case EnvPop(_, _) => PopGood(s, a);
      case EnvStep(c) =>
        match s.locks[c].stage {
          case Popped(_) => if s.fired.Unclaimed? { ClaimWins(s, c); } else { ClaimLoses(s, c); }
          case Won(_) => DeliverGood(s, c);
          case Delivered(_) => WakeGood(s, c);
          case _ => ReleaseGood(s, c);
        }
    }
    EnvKeeps(s, Apply(s, a), a.c);
  }

  // ---------------------------------------------------- steps of the fiber

  lemma FreshCases(s: State)
    requires WellFormed(s) && CasesOk(s.cases, s.ws, s.locks, s.fired, s.pc) && s.pc.Scan?
    ensures CasesOk(s.cases, FreshWaiters(s.cases), s.locks, Unclaimed, Install(0))
  {
    var ws := FreshWaiters(s.cases);
    forall i | 0 <= i < |s.cases| ensures CaseInv(i, s.cases[i], ws[i], s.locks[s.cases[i].ch], Unclaimed, Install(0)) {
      assert CaseInv(i, s.cases[i], s.ws[i], s.locks[s.cases[i].ch], s.fired, s.pc);
    }
  }

  lemma ScanKeepsInv(s: State, which: nat)
    requires Inv(s) && s.pc.Scan? && FiberEnabled(s, which)
    ensures Inv(FiberStep(s, false, which))
  {
    if which < |s.cases| { OutCases(s, Done(Scanned(which))); } else { FreshCases(s); }
  }

  lemma AcquireCases(s: State)
    requires WellFormed(s) && CasesOk(s.cases, s.ws, s.locks, s.fired, s.pc)
    requires s.pc.Install? && s.pc.i < |s.cases| && s.locks[s.cases[s.pc.i].ch].Free?
    ensures var s' := FiberStep(s, false, 0); CasesOk(s.cases, s.ws, s'.locks, s.fired, s'.pc)
  {
    var s' := FiberStep(s, false, 0);
    forall i | 0 <= i < |s.cases|
      ensures CaseInv(i, s.cases[i], s.ws[i], s'.locks[s.cases[i].ch], s.fired, s'.pc)
    {
      assert CaseInv(i, s.cases[i], s.ws[i], s.locks[s.cases[i].ch], s.fired, s.pc);
    }
  }

  lemma AcquireKeepsInv(s: State)
    requires Inv(s) && s.pc.Install? && FiberEnabled(s, 0)
    ensures Inv(FiberStep(s, false, 0))
  {
    AcquireCases(s);
    LockMoves(s.locks, s.cases, s.cases[s.pc.i].ch, Ours, s.pc, InstallLocked(s.pc.i));
  }

  /** The fiber takes or drops channel c's lock. */
  lemma LockMoves(locks: seq<Holder>, cases: seq<Case>, c: nat, h: Holder, pc: Pc, pc': Pc)
    requires HoldersOk(locks, cases) && OursInv(locks, cases, pc) && c < |locks|
    requires (h.Free? && Inside(pc, cases) == Some(c) && Inside(pc', cases).None?)
          || (h.Ours? && Inside(pc, cases).None? && Inside(pc', cases) == Some(c))
    ensures HoldersOk(locks[c := h], cases) && OursInv(locks[c := h], cases, pc')
  {
  }

  lemma InstallCases(s: State, ready: bool)
    requires WellFormed(s) && CasesOk(s.cases, s.ws, s.locks, s.fired, s.pc)
    requires s.pc.InstallLocked? && s.pc.i < |s.cases| && s.locks[s.cases[s.pc.i].ch].Ours? && !s.fired.BySelf?
    ensures var s' := FiberStep(s, ready, 0); CasesOk(s.cases, s'.ws, s'.locks, s'.fired, s'.pc)
  {
    var s' := FiberStep(s, ready, 0);
    forall i | 0 <= i < |s.cases|
      ensures CaseInv(i, s.cases[i], s'.ws[i], s'.locks[s.cases[i].ch], s'.fired, s'.pc)
    {
      assert CaseInv(i, s.cases[i], s.ws[i], s.locks[s.cases[i].ch], s.fired, s.pc);
    }
  }

  lemma InstallKeepsInv(s: State, ready: bool)
    requires Inv(s) && s.pc.InstallLocked? && FiberEnabled(s, 0)
    ensures Inv(FiberStep(s, ready, 0))
  {
    var c := s.cases[s.pc.i].ch;
    assert s.locks[c].Ours?;
    InstallCases(s, ready);
    LockMoves(s.locks, s.cases, c, Free, s.pc, FiberStep(s, ready, 0).pc);
  }

  lemma AbortCases(s: State)
    requires WellFormed(s) && CasesOk(s.cases, s.ws, s.locks, s.fired, s.pc)
    requires s.pc.AbortCas? && s.pc.i < |s.cases|
    ensures var s' := FiberStep(s, false, 0); CasesOk(s.cases, s.ws, s.locks, s'.fired, s'.pc)
  {
    var s' := FiberStep(s, false, 0);
    forall i | 0 <= i < |s.cases|
      ensures CaseInv(i, s.cases[i], s.ws[i], s.locks[s.cases[i].ch], s'.fired, s'.pc)
    {
      assert CaseInv(i, s.cases[i], s.ws[i], s.locks[s.cases[i].ch], s.fired, s.pc);
    }
  }

  lemma AbortKeepsInv(s: State)
    requires Inv(s) && s.pc.AbortCas? && FiberEnabled(s, 0)
    ensures Inv(FiberStep(s, false, 0))
  {
    AbortCases(s);
  }

  lemma ParkKeepsInv(s: State)
    requires Inv(s) && s.pc.Park?
    ensures Inv(FiberStep(s, false, 0))
  {
  }

  lemma ReadCases(s: State)
    requires WellFormed(s) && CasesOk(s.cases, s.ws, s.locks, s.fired, s.pc)
    requires s.pc.ReadFired? && !s.fired.BySelf?
    ensures CasesOk(s.cases, s.ws, s.locks, s.fired, FiberStep(s, false, 0).pc)
  {
    forall i | 0 <= i < |s.cases|
      ensures CaseInv(i, s.cases[i], s.ws[i], s.locks[s.cases[i].ch], s.fired, FiberStep(s, false, 0).pc)
    {
      assert CaseInv(i, s.cases[i], s.ws[i], s.locks[s.cases[i].ch], s.fired, s.pc);
    }
  }

  lemma ReadKeepsInv(s: State)
    requires Inv(s) && s.pc.ReadFired? && Settled(s)
    ensures Inv(FiberStep(s, false, 0))
  {
    ReadCases(s);
  }

  lemma EvictCases(s: State)
    requires WellFormed(s) && CasesOk(s.cases, s.ws, s.locks, s.fired, s.pc)
    requires s.pc.Evict? && FiberEnabled(s, 0) && (!s.pc.mode.Fired? ==> s.pc.skip.None?)
    requires s.pc.j == |s.cases| && s.pc.mode.Fired? ==>
               s.pc.skip.value < |s.cases| && !Window(s.locks[s.cases[s.pc.skip.value].ch], s.pc.skip.value)
    ensures var s' := FiberStep(s, false, 0); CasesOk(s.cases, s.ws, s'.locks, s.fired, s'.pc)
  {
    var s' := FiberStep(s, false, 0);
    forall i | 0 <= i < |s.cases|
      ensures CaseInv(i, s.cases[i], s.ws[i], s'.locks[s.cases[i].ch], s.fired, s'.pc)
    {
      assert CaseInv(i, s.cases[i], s.ws[i], s.locks[s.cases[i].ch], s.fired, s.pc);
    }
  }

  lemma EvictMoves(s: State)
    requires WellFormed(s) && s.pc.Evict? && FiberEnabled(s, 0) && PcInv(s) && FiredOk(s)
    requires s.pc.mode.Aborting? ==> s.given.None?
    ensures PcInv(FiberStep(s, false, 0)) && FiredOk(FiberStep(s, false, 0)) && WakeOk(FiberStep(s, false, 0))
  {
  }

  lemma EvictKeepsInv(s: State)
    requires Inv(s) && s.pc.Evict? && FiberEnabled(s, 0)
    ensures Inv(FiberStep(s, false, 0))
  {
    EvictCases(s);
    EvictMoves(s);
    if s.pc.j < |s.cases| && s.pc.skip != Some(s.pc.j) {
      LockMoves(s.locks, s.cases, s.cases[s.pc.j].ch, Ours, s.pc, FiberStep(s, false, 0).pc);
    }
  }

  lemma UnlinkCases(s: State)
    requires WellFormed(s) && CasesOk(s.cases, s.ws, s.locks, s.fired, s.pc)
    requires s.pc.EvictLocked? && s.pc.j < |s.cases| && s.locks[s.cases[s.pc.j].ch].Ours?
    ensures var s' := FiberStep(s, false, 0); CasesOk(s.cases, s'.ws, s'.locks, s.fired, s'.pc)
  {
    var s' := FiberStep(s, false, 0);
    forall i | 0 <= i < |s.cases|
      ensures CaseInv(i, s.cases[i], s'.ws[i], s'.locks[s.cases[i].ch], s.fired, s'.pc)
    {
      assert CaseInv(i, s.cases[i], s.ws[i], s.locks[s.cases[i].ch], s.fired, s.pc);
    }
  }

  lemma UnlinkKeepsInv(s: State)
    requires Inv(s) && s.pc.EvictLocked? && FiberEnabled(s, 0)
    ensures Inv(FiberStep(s, false, 0))
  {
    var c := s.cases[s.pc.j].ch;
    assert s.locks[c].Ours?;
    UnlinkCases(s);
    LockMoves(s.locks, s.cases, c, Free, s.pc, FiberStep(s, false, 0).pc);
  }

  lemma ReReadKeepsInv(s: State)
    requires Inv(s) && s.pc.ReRead?
    ensures Inv(FiberStep(s, false, 0))
  {
  }

  /** A fiber whose waiters are all out of play moves on. */
  lemma OutCases(s: State, pc: Pc)
    requires WellFormed(s) && CasesOk(s.cases, s.ws, s.locks, s.fired, s.pc)
    requires (s.pc.Finish? || s.pc.ReRead? || s.pc.Scan?) && !Waiting(pc)
    requires pc.Evict? && pc.skip.Some? ==> s.fired == ByEnv(pc.skip.value)
    ensures CasesOk(s.cases, s.ws, s.locks, s.fired, pc)
  {
    forall i | 0 <= i < |s.cases|
      ensures CaseInv(i, s.cases[i], s.ws[i], s.locks[s.cases[i].ch], s.fired, pc)
    {
      assert CaseInv(i, s.cases[i], s.ws[i], s.locks[s.cases[i].ch], s.fired, s.pc);
    }
  }

  lemma FinishKeepsInv(s: State)
    requires Inv(s) && s.pc.Finish? && FiberEnabled(s, 0)
    ensures Inv(FiberStep(s, false, 0))
  {
    OutCases(s, FiberStep(s, false, 0).pc);
    var f := s.pc.f;
    assert CaseInv(f, s.cases[f], s.ws[f], s.locks[s.cases[f].ch], s.fired, s.pc);
    assert s.given.Some?;
  }

  lemma ResumeKeepsInv(s: State)
    requires Inv(s) && s.pc.Parked?
    ensures Inv(Apply(s, Resume))
  {
  }

  lemma FiberKeepsInv(s: State, a: Action)
    requires Inv(s) && a.Fiber? && Enabled(s, a) && Settled(s)
    ensures Inv(Apply(s, a))
  {
    match s.pc {
      case Scan => ScanKeepsInv(s, a.which);
      case Install(_) => AcquireKeepsInv(s);
      case InstallLocked(_) => InstallKeepsInv(s, a.ready);
      case AbortCas(_) => AbortKeepsInv(s);
      case Park(_) => ParkKeepsInv(s);
      case ReadFired(_) => ReadKeepsInv(s);
      case Evict(_, _, _) => EvictKeepsInv(s);
      case EvictLocked(_, _, _) => UnlinkKeepsInv(s);
      case ReRead => ReReadKeepsInv(s);
      case Finish(_) => FinishKeepsInv(s);
    }
  }

  lemma StepKeepsInv(s: State, a: Action)
    requires Inv(s) && Enabled(s, a) && (a.Fiber? ==> Settled(s))
    ensures Inv(Apply(s, a))
  {
    match a {
      case Fiber(_, _) => FiberKeepsInv(s, a);
      case Resume => ResumeKeepsInv(s);
      case _ => EnvKeepsInv(s, a);
    }
  }

  // ------------------------------------------------------------- whole runs

  ghost predicate Init(s: State) {
    && WellFormed(s) && s.pc.Scan? && s.fired.Unclaimed? && s.given.None? && s.exchanges == 0
    && s.ws == FreshWaiters(s.cases)
    && forall c | 0 <= c < |s.locks| :: s.locks[c].Free?
  }

  ghost predicate Run(ss: seq<State>, acts: seq<Action>) {
    && |ss| == |acts| + 1 && Init(ss[0])
    && forall i | 0 <= i < |acts| :: WellFormed(ss[i]) && Enabled(ss[i], acts[i]) && ss[i + 1] == Apply(ss[i], acts[i])
  }

  /** Whenever the fiber reads fired_case to end its park, no winner is in
      mid-delivery. */
  ghost predicate NoEarlyRead(ss: seq<State>, acts: seq<Action>) {
    forall i | 0 <= i < |acts| && i < |ss| && acts[i].Fiber? :: WellFormed(ss[i]) ==> Settled(ss[i])
  }

  lemma InitInv(s: State)
    requires Init(s)
    ensures Inv(s)
  {
  }

  lemma {:induction false} RunKeepsInv(ss: seq<State>, acts: seq<Action>, n: nat)
    requires Run(ss, acts) && NoEarlyRead(ss, acts) && n < |ss|
    ensures Inv(ss[n])
  {
    if n == 0 {
      InitInv(ss[0]);
    } else {
      RunKeepsInv(ss, acts, n - 1);
      assert Enabled(ss[n - 1], acts[n - 1]);
      StepKeepsInv(ss[n - 1], acts[n - 1]);
    }
  }

  // ------------------------------------ every resume is the winner's wake

  /** The fiber is not woken before the call, and resumed only by a wake that a
      winner posted during it: what the comment on the park assumes. */
  ghost predicate WinnersWakes(ss: seq<State>, acts: seq<Action>) {
    && (|ss| > 0 ==> !ss[0].woken)
    && forall i | 0 <= i < |acts| && i < |ss| && acts[i].Resume? :: ss[i].woken
  }

  /** A winner that has yet to fill in our waiter or to wake us. */
  predicate Delivering(h: Holder) { h.Env? && (h.stage.Won? || h.stage.Delivered?) }

  predicate Asleep(pc: Pc) { Waiting(pc) && !pc.ReadFired? }

  /** A wake is posted only after the winner's last access, and the fiber goes on
      only with it. */
  ghost predicate WakeInv(s: State) {
    && (s.woken ==> s.fired.ByEnv? && Asleep(s.pc))
    && (s.pc.ReadFired? ==> s.fired.ByEnv?)
    && (forall c | 0 <= c < |s.locks| && Delivering(s.locks[c]) :: Asleep(s.pc) && !s.woken)
    && !((s.pc.Evict? || s.pc.EvictLocked?) && s.pc.mode.Spurious?) && !s.pc.ReRead?
  }

  /** Two channels' holders cannot both be the winner. */
  lemma OneWinner(s: State, c: nat, d: nat)
    requires Inv(s) && c < |s.locks| && d < |s.locks| && Delivering(s.locks[c]) && Delivering(s.locks[d])
    ensures c == d && s.fired == ByEnv(s.locks[c].stage.i)
  {
    var i, j := s.locks[c].stage.i, s.locks[d].stage.i;
    assert HolderInv(c, s.locks[c], s.cases) && HolderInv(d, s.locks[d], s.cases);
    assert CaseInv(i, s.cases[i], s.ws[i], s.locks[s.cases[i].ch], s.fired, s.pc);
    assert CaseInv(j, s.cases[j], s.ws[j], s.locks[s.cases[j].ch], s.fired, s.pc);
  }

  lemma FiberKeepsWake(s: State, a: Action)
    requires WellFormed(s) && WakeInv(s) && Enabled(s, a) && a.Fiber?
    requires forall c | 0 <= c < |s.locks| && Delivering(s.locks[c]) :: s.fired.ByEnv?
    ensures WakeInv(Apply(s, a))
  {
  }

  /** Only an unclaimed park can be won, and one nobody has left. */
  lemma ClaimKeepsWake(s: State, c: nat)
    requires Inv(s) && WakeInv(s) && Enabled(s, EnvStep(c)) && s.locks[c].stage.Popped?
    ensures WakeInv(Apply(s, EnvStep(c)))
  {
    var i := s.locks[c].stage.i;
    assert HolderInv(c, s.locks[c], s.cases);
    assert CaseInv(i, s.cases[i], s.ws[i], s.locks[s.cases[i].ch], s.fired, s.pc);
  }

  lemma EnvKeepsWake(s: State, a: Action)
    requires Inv(s) && WakeInv(s) && Enabled(s, a) && (a.EnvLock? || a.EnvPop? || a.EnvStep?)
    ensures WakeInv(Apply(s, a))
  {
    if a.EnvStep? && s.locks[a.c].stage.Popped? {
      ClaimKeepsWake(s, a.c);
    } else if a.EnvStep? && Delivering(s.locks[a.c]) {
      OneWinner(s, a.c, a.c);
      forall d | 0 <= d < |s.locks| && d != a.c ensures !Delivering(s.locks[d]) {
        if Delivering(s.locks[d]) { OneWinner(s, a.c, d); }
      }
    }
  }

  lemma StepKeepsWake(s: State, a: Action)
    requires Inv(s) && WakeInv(s) && Enabled(s, a) && (a.Resume? ==> s.woken)
    ensures WakeInv(Apply(s, a))
  {
    match a {
      case Fiber(_, _) =>
        forall c | 0 <= c < |s.locks| && Delivering(s.locks[c]) ensures s.fired.ByEnv? { OneWinner(s, c, c); }
        FiberKeepsWake(s, a);
      case Resume =>
      case _ => EnvKeepsWake(s, a);
    }
  }

  lemma WakeSettles(s: State)
    requires Inv(s) && WakeInv(s)
    ensures Settled(s)
  {
  }

  lemma {:induction false} WokenRunKeepsInv(ss: seq<State>, acts: seq<Action>, n: nat)
    requires Run(ss, acts) && WinnersWakes(ss, acts) && n < |ss|
    ensures Inv(ss[n]) && WakeInv(ss[n])
  {
    if n == 0 {
      InitInv(ss[0]);
    } else {
      WokenRunKeepsInv(ss, acts, n - 1);
      var s, a := ss[n - 1], acts[n - 1];
      assert Enabled(s, a);
      WakeSettles(s);
      StepKeepsInv(s, a);
      StepKeepsWake(s, a);
    }
  }

  /** The assumption is enough: no read is early, so all that RunKeepsInv gives
      holds of every run that meets it. */
  lemma WinnersWakesSuffice(ss: seq<State>, acts: seq<Action>)
    requires Run(ss, acts) && WinnersWakes(ss, acts)
    ensures NoEarlyRead(ss, acts)
  {
    forall i | 0 <= i < |acts| && i < |ss| && acts[i].Fiber? ensures WellFormed(ss[i]) ==> Settled(ss[i]) {
      WokenRunKeepsInv(ss, acts, i);
      WakeSettles(ss[i]);
    }
  }

  // ------------------------------------------------------------ the theorems

  /** None of our waiters is on a queue or in another operation's hands. */
  ghost predicate Unreferenced(s: State) {
    && (forall i | 0 <= i < |s.ws| :: !s.ws[i].linked)
    && (forall c | 0 <= c < |s.locks| :: Ref(s.locks[c]).None?)
  }

  lemma OutUnreferenced(s: State)
    requires Inv(s) && (s.pc.Done? || s.pc.Scan?)
    ensures Unreferenced(s)
  {
    forall i | 0 <= i < |s.ws| ensures !s.ws[i].linked && Ref(s.locks[s.cases[i].ch]) != Some(i) {
      assert CaseInv(i, s.cases[i], s.ws[i], s.locks[s.cases[i].ch], s.fired, s.pc);
    }
    forall c | 0 <= c < |s.locks| ensures Ref(s.locks[c]).None? {
      assert HolderInv(c, s.locks[c], s.cases);
    }
  }

  /** Nothing refers to the waiters once they are gone, on return or for a retry. */
  ghost predicate GoneSafely(s: State) { s.pc.Scan? || s.pc.Done? ==> Unreferenced(s) }

  /** A retry has dropped no value, and a return reports what exactly one other
      operation did. */
  predicate Honest(s: State) {
    && (s.pc.Scan? ==> s.exchanges == 0)
    && (s.pc.Done? ==> DoneInv(s.cases, s.fired, s.given, s.exchanges, s.pc.r))
  }

  /** Both hold in every run, stray wakes and retries included, whose reads of
      fired_case are not early. */
  lemma ReturnedOnce(ss: seq<State>, acts: seq<Action>, n: nat)
    requires Run(ss, acts) && NoEarlyRead(ss, acts) && n < |ss|
    ensures GoneSafely(ss[n]) && Honest(ss[n])
  {
    RunKeepsInv(ss, acts, n);
    if ss[n].pc.Done? || ss[n].pc.Scan? { OutUnreferenced(ss[n]); }
  }

  /** No lost wake: a parked select nobody has claimed can still be claimed
      through every one of its cases, and a claimed one has its wake coming or
      already posted. */
  lemma ParkedIsReachable(ss: seq<State>, acts: seq<Action>, n: nat)
    requires Run(ss, acts) && NoEarlyRead(ss, acts) && n < |ss| && ss[n].pc.Parked?
    ensures WellFormed(ss[n])
    ensures ss[n].fired.Unclaimed? ==>
              forall i | 0 <= i < |ss[n].cases| ::
                ss[n].ws[i].linked || Ref(ss[n].locks[ss[n].cases[i].ch]) == Some(i)
    ensures !ss[n].fired.Unclaimed? ==>
              && ss[n].fired.ByEnv? && ss[n].fired.i < |ss[n].cases|
              && (Window(ss[n].locks[ss[n].cases[ss[n].fired.i].ch], ss[n].fired.i) || ss[n].woken)
  {
    RunKeepsInv(ss, acts, n);
    var s := ss[n];
    if s.fired.Unclaimed? {
      forall i | 0 <= i < |s.cases| ensures s.ws[i].linked || Ref(s.locks[s.cases[i].ch]) == Some(i) {
        assert CaseInv(i, s.cases[i], s.ws[i], s.locks[s.cases[i].ch], s.fired, s.pc);
      }
    }
  }

  // ----------------------------------- what the other operations hold on to

  /** The operation has filled in a waiter of ours. */
  predicate Exchanged(h: Holder) { h.Env? && (h.stage.Delivered? || h.stage.Finished?) }

  /** A sender has the value it came with until it has filled in our waiter, and a
      receiver nothing. */
  predicate HandInv(h: Holder) {
    && (h.Env? && h.op.Sender? ==> h.op.hand == if Exchanged(h) then None else Some(h.op.v))
    && (h.Env? && h.op.Receiver? && !Exchanged(h) ==> h.op.got.None?)
  }

  lemma StepKeepsHand(s: State, a: Action, c: nat)
    requires WellFormed(s) && Enabled(s, a) && c < |s.locks| && HandInv(s.locks[c])
    ensures HandInv(Apply(s, a).locks[c])
  {
    match a {
      case Fiber(_, _) => assert Apply(s, a).locks[c] in {s.locks[c], Free, Ours};
      case _ =>
    }
  }

  lemma {:induction false} RunKeepsHands(ss: seq<State>, acts: seq<Action>, n: nat, c: nat)
    requires Run(ss, acts) && n < |ss| && c < |ss[n].locks|
    ensures HandInv(ss[n].locks[c])
  {
    if n == 0 {
      assert Init(ss[0]);
    } else {
      assert Enabled(ss[n - 1], acts[n - 1]) && ss[n] == Apply(ss[n - 1], acts[n - 1]);
      RunKeepsHands(ss, acts, n - 1, c);
      StepKeepsHand(ss[n - 1], acts[n - 1], c);
    }
  }

  /** What filling it in exchanged is what the select will report. */
  predicate GivenInv(h: Holder, given: Option<Given>) {
    && (Exchanged(h) && h.op.Sender? ==> given == Some(Gave(h.op.v)))
    && (Exchanged(h) && h.op.Receiver? ==> h.op.got.Some? && given == Some(Took(h.op.got.value)))
  }

  ghost predicate GivensOk(s: State) {
    forall c | 0 <= c < |s.locks| :: HandInv(s.locks[c]) && GivenInv(s.locks[c], s.given)
  }

  lemma FiberKeepsGivens(s: State, a: Action)
    requires WellFormed(s) && PcInv(s) && GivensOk(s) && Enabled(s, a) && a.Fiber?
    ensures GivensOk(Apply(s, a))
  {
  }

  /** The one exchange of a park: nobody has made another. */
  lemma DeliverKeepsGivens(s: State, c: nat, op: EnvOp, i: nat)
    requires WellFormed(s) && GivensOk(s) && s.given.None? && c < |s.locks| && s.locks[c] == Env(op, Won(i))
    requires i < |s.cases| && (op.Receiver? ==> s.ws[i].value.Some?)
    ensures GivensOk(Deliver(s, c, op, i))
  {
  }

  lemma EnvKeepsGivens(s: State, a: Action)
    requires WellFormed(s) && GivensOk(s) && Enabled(s, a) && !a.Fiber? && !(a.EnvStep? && s.locks[a.c].stage.Won?)
    ensures GivensOk(Apply(s, a))
  {
  }

  lemma WinnersWaiter(s: State, c: nat)
    requires Inv(s) && c < |s.locks| && s.locks[c].Env? && s.locks[c].stage.Won?
    ensures var i := s.locks[c].stage.i;
            s.given.None? && i < |s.cases| && (s.locks[c].op.Receiver? ==> s.ws[i].value.Some?)
  {
    OneWinner(s, c, c);
    var i := s.locks[c].stage.i;
    assert HolderInv(c, s.locks[c], s.cases);
    assert CaseInv(i, s.cases[i], s.ws[i], s.locks[s.cases[i].ch], s.fired, s.pc);
  }

  lemma StepKeepsGivens(s: State, a: Action)
    requires Inv(s) && GivensOk(s) && Enabled(s, a)
    ensures GivensOk(Apply(s, a))
  {
    if a.Fiber? {
      FiberKeepsGivens(s, a);
    } else if a.EnvStep? && s.locks[a.c].stage.Won? {
      WinnersWaiter(s, a.c);
      DeliverKeepsGivens(s, a.c, s.locks[a.c].op, s.locks[a.c].stage.i);
    } else {
      EnvKeepsGivens(s, a);
    }
  }

  lemma InitGivens(s: State)
    requires Init(s)
    ensures GivensOk(s)
  {
  }

  lemma GivensAt(ss: seq<State>, acts: seq<Action>, i: nat)
    requires Run(ss, acts) && NoEarlyRead(ss, acts) && i < |acts| && GivensOk(ss[i])
    ensures GivensOk(ss[i + 1])
  {
    assert WellFormed(ss[i]) && Enabled(ss[i], acts[i]);
    RunKeepsInv(ss, acts, i);
    StepKeepsGivens(ss[i], acts[i]);
  }

  lemma {:induction false} RunKeepsGivens(ss: seq<State>, acts: seq<Action>, n: nat)
    requires Run(ss, acts) && NoEarlyRead(ss, acts) && n < |ss|
    ensures GivensOk(ss[n])
  {
    if n == 0 {
      InitGivens(ss[0]);
    } else {
      RunKeepsGivens(ss, acts, n - 1);
      GivensAt(ss, acts, n - 1);
    }
  }

  /** The operation has what it came with, or has made the one exchange of the call. */
  predicate KeepsValue(s: State, op: EnvOp) {
    && (op.Sender? ==>
          || op.hand == Some(op.v)
          || (op.hand.None? && s.fired.ByEnv? && s.given == Some(Gave(op.v)) && s.exchanges == 1))
    && (op.Receiver? ==>
          || op.got.None?
          || (s.fired.ByEnv? && s.fired.i < |s.cases| && s.cases[s.fired.i] == Send(s.cases[s.fired.i].ch, op.got.value)
              && s.given == Some(Took(op.got.value)) && s.exchanges == 1))
  }

  /** No operation consumes or drops a value but by the one exchange of the call:
      whoever holds a channel's lock has what it came with, unless it won the
      claim and is past its exchange; then what it gave or took is what the select
      got or gave for the claimed case. */
  lemma LostClaimKeepsValue(ss: seq<State>, acts: seq<Action>, n: nat, c: nat)
    requires Run(ss, acts) && NoEarlyRead(ss, acts) && n < |ss| && c < |ss[n].locks| && ss[n].locks[c].Env?
    ensures KeepsValue(ss[n], ss[n].locks[c].op)
  {
    RunKeepsInv(ss, acts, n);
    RunKeepsGivens(ss, acts, n);
    assert HandInv(ss[n].locks[c]) && GivenInv(ss[n].locks[c], ss[n].given);
  }

  /** All of this holds of every run that is resumed by its winners' wakes. */
  lemma WinnersWakesCorollary(ss: seq<State>, acts: seq<Action>, n: nat)
    requires Run(ss, acts) && WinnersWakes(ss, acts) && n < |ss|
    ensures Honest(ss[n]) && GoneSafely(ss[n])
    ensures forall c | 0 <= c < |ss[n].locks| && ss[n].locks[c].Env? :: KeepsValue(ss[n], ss[n].locks[c].op)
  {
    WinnersWakesSuffice(ss, acts);
    ReturnedOnce(ss, acts, n);
    forall c | 0 <= c < |ss[n].locks| && ss[n].locks[c].Env? ensures KeepsValue(ss[n], ss[n].locks[c].op) {
      LostClaimKeepsValue(ss, acts, n, c);
    }
  }

  // ------------------------------------------------ the condition is exact

  predicate Possible(s: State, acts: seq<Action>)
    requires WellFormed(s)
    decreases |acts|
  {
    acts == [] || (Enabled(s, acts[0]) && Possible(Apply(s, acts[0]), acts[1..]))
  }

  function After(s: State, acts: seq<Action>): (s': State)
    requires WellFormed(s) && Possible(s, acts)
    ensures WellFormed(s') && s'.cases == s.cases && |s'.locks| == |s.locks|
    decreases |acts|
  {
    if acts == [] then s else After(Apply(s, acts[0]), acts[1..])
  }

  lemma {:induction false} AfterConcat(s: State, a: seq<Action>, b: seq<Action>)
    requires WellFormed(s) && Possible(s, a) && Possible(After(s, a), b)
    ensures Possible(s, a + b) && After(s, a + b) == After(After(s, a), b)
    decreases |a|
  {
    if a == [] {
      assert a + b == b;
    } else {
      AfterConcat(Apply(s, a[0]), a[1..], b);
      assert (a + b)[0] == a[0] && (a + b)[1..] == a[1..] + b;
    }
  }

  lemma First(s: State, a: Action, rest: seq<Action>)
    requires WellFormed(s) && Enabled(s, a) && Possible(Apply(s, a), rest)
    ensures Possible(s, [a] + rest) && After(s, [a] + rest) == After(Apply(s, a), rest)
  {
    assert ([a] + rest)[1..] == rest;
  }

  /** The winner of case f is in mid-delivery while the fiber evicts the rest. */
  ghost predicate Overtaking(s: State, f: nat) {
    && WellFormed(s) && f < |s.cases| && s.fired == ByEnv(f) && Window(s.locks[s.cases[f].ch], f)
    && (forall k | 0 <= k < |s.cases| && k != f :: s.cases[k].ch != s.cases[f].ch)
    && (forall c | 0 <= c < |s.locks| && c != s.cases[f].ch ::
          !s.locks[c].Ours? && !(s.locks[c].Env? && (s.locks[c].stage.Won? || s.locks[c].stage.Delivered?)))
  }

  /** Case f's waiter, its channel's holder and the exchange are as they were. */
  ghost predicate Spares(s: State, s': State, f: nat) {
    && WellFormed(s) && WellFormed(s') && f < |s.cases| && s'.cases == s.cases && |s'.locks| == |s.locks|
    && s'.locks[s.cases[f].ch] == s.locks[s.cases[f].ch] && s'.ws[f] == s.ws[f]
    && s'.given == s.given && s'.exchanges == s.exchanges
  }

  /** Any other operation can finish with its channel. */
  lemma LetGo(s: State, f: nat, c: nat) returns (acts: seq<Action>)
    requires Overtaking(s, f) && c < |s.locks| && c != s.cases[f].ch
    ensures Possible(s, acts) && After(s, acts) == s.(locks := s.locks[c := Free])
  {
    match s.locks[c] {
      case Free =>
        acts := [];
        assert s.locks[c := Free] == s.locks;
      case Env(op, stage) =>
        acts := [EnvStep(c)] + [];
        if stage.Popped? {
          var s1 := Apply(s, EnvStep(c));
          First(s1, EnvStep(c), []);
          First(s, EnvStep(c), acts);
          acts := [EnvStep(c)] + acts;
          assert s1.locks[c := Free] == s.locks[c := Free];
        } else {
          First(s, EnvStep(c), []);
        }
    }
  }

  lemma EvictKeepsOvertaking(s: State, f: nat, j: nat)
    requires Overtaking(s, f) && s.pc == Evict(j, Some(f), Fired) && j < |s.cases| && j != f
    requires s.locks[s.cases[j].ch].Free?
    ensures var s1 := Apply(s, Fiber(false, 0));
            var s2 := Apply(s1, Fiber(false, 0));
            Overtaking(s2, f) && s2.pc == Evict(j + 1, Some(f), Fired) && Spares(s, s2, f)
  {
  }

  lemma EvictOne(s: State, f: nat, j: nat)
    requires Overtaking(s, f) && s.pc == Evict(j, Some(f), Fired) && j < |s.cases| && j != f
    requires s.locks[s.cases[j].ch].Free?
    ensures var acts := [Fiber(false, 0)] + ([Fiber(false, 0)] + []);
            && Possible(s, acts) && Overtaking(After(s, acts), f)
            && After(s, acts).pc == Evict(j + 1, Some(f), Fired) && Spares(s, After(s, acts), f)
  {
    var step := Fiber(false, 0);
    First(Apply(s, step), step, []);
    First(s, step, [step] + []);
    EvictKeepsOvertaking(s, f, j);
  }

  /** Evicting one case does not wait for the winner. */
  lemma EvictPast(s: State, f: nat) returns (acts: seq<Action>)
    requires Overtaking(s, f) && s.pc.Evict? && s.pc.skip == Some(f) && s.pc.mode.Fired? && s.pc.j < |s.cases|
    ensures Possible(s, acts) && Overtaking(After(s, acts), f)
    ensures After(s, acts).pc == Evict(s.pc.j + 1, Some(f), Fired) && Spares(s, After(s, acts), f)
  {
    var j := s.pc.j;
    var step := Fiber(false, 0);
    if j == f {
      First(s, step, []);
      acts := [step] + [];
    } else {
      var free := LetGo(s, f, s.cases[j].ch);
      EvictOne(After(s, free), f, j);
      AfterConcat(s, free, [step] + ([step] + []));
      acts := free + ([step] + ([step] + []));
    }
  }

  lemma {:induction false} EvictAllPast(s: State, f: nat) returns (acts: seq<Action>)
    requires Overtaking(s, f) && s.pc.Evict? && s.pc.skip == Some(f) && s.pc.mode.Fired? && s.pc.j <= |s.cases|
    ensures Possible(s, acts) && Overtaking(After(s, acts), f)
    ensures After(s, acts).pc == Evict(|s.cases|, Some(f), Fired) && Spares(s, After(s, acts), f)
    decreases |s.cases| - s.pc.j
  {
    if s.pc.j == |s.cases| {
      acts := [];
    } else {
      var first := EvictPast(s, f);
      var rest := EvictAllPast(After(s, first), f);
      AfterConcat(s, first, rest);
      acts := first + rest;
    }
  }

  lemma EarlyReadOvertakes(s: State)
    requires Inv(s) && s.pc.ReadFired? && !Settled(s)
    ensures Overtaking(Apply(s, Fiber(false, 0)), s.fired.i)
    ensures Apply(s, Fiber(false, 0)).pc == Evict(0, Some(s.fired.i), Fired)
  {
    var c := s.cases[s.fired.i].ch;
    forall d | 0 <= d < |s.locks| && d != c
      ensures !s.locks[d].Ours? && !(s.locks[d].Env? && (s.locks[d].stage.Won? || s.locks[d].stage.Delivered?))
    {
      assert HolderInv(d, s.locks[d], s.cases);
      if Ref(s.locks[d]).Some? {
        var i := Ref(s.locks[d]).value;
        assert CaseInv(i, s.cases[i], s.ws[i], s.locks[s.cases[i].ch], s.fired, s.pc);
      }
    }
  }

  /** From the end of the eviction, two more steps free the waiters. */
  lemma FreesEarly(s: State, f: nat)
    requires Overtaking(s, f) && s.pc == Evict(|s.cases|, Some(f), Fired)
    ensures var acts := [Fiber(false, 0)] + ([Fiber(false, 0)] + []);
            Possible(s, acts) && After(s, acts) == FinishStep(s, f)
  {
    var s1 := Apply(s, Fiber(false, 0));
    First(s1, Fiber(false, 0), []);
    First(s, Fiber(false, 0), [Fiber(false, 0)] + []);
  }

  /** Any state from which the fiber reads fired_case too early has a continuation
      that frees the waiters while the winner still holds one, on what the winner
      had put there by then. */
  lemma EarlyReadFreesEarly(s: State) returns (acts: seq<Action>)
    requires Inv(s) && s.pc.ReadFired? && !Settled(s)
    ensures Possible(s, acts) && !GoneSafely(After(s, acts)) && Spares(s, After(s, acts), s.fired.i)
    ensures After(s, acts).pc == FinishStep(s, s.fired.i).pc
  {
    EarlyReadOvertakes(s);
    var s1 := Apply(s, Fiber(false, 0));
    var evict := EvictAllPast(s1, s.fired.i);
    var s2 := After(s1, evict);
    var last := [Fiber(false, 0)] + ([Fiber(false, 0)] + []);
    FreesEarly(s2, s.fired.i);
    AfterConcat(s1, evict, last);
    First(s, Fiber(false, 0), evict + last);
    acts := [Fiber(false, 0)] + (evict + last);
    assert Ref(After(s, acts).locks[s.cases[s.fired.i].ch]) == Some(s.fired.i);
  }

  // ------------------------------------- which selects need the assumption

  /** Some case is the only one on its channel. */
  predicate Lone(cases: seq<Case>, f: nat) {
    f < |cases| && forall k | 0 <= k < |cases| && k != f :: cases[k].ch != cases[f].ch
  }

  lemma SharedSettles(s: State)
    requires Inv(s) && forall f | 0 <= f < |s.cases| :: !Lone(s.cases, f)
    ensures Settled(s)
  {
    if s.pc.ReadFired? && s.fired.ByEnv? && s.fired.i < |s.cases| {
      assert !Lone(s.cases, s.fired.i);
    }
  }

  lemma {:induction false} SharedKeepsInv(s: State, acts: seq<Action>)
    requires Inv(s) && Possible(s, acts) && forall f | 0 <= f < |s.cases| :: !Lone(s.cases, f)
    ensures Inv(After(s, acts))
    decreases |acts|
  {
    if acts == [] {
    } else {
      SharedSettles(s);
      StepKeepsInv(s, acts[0]);
      SharedKeepsInv(Apply(s, acts[0]), acts[1..]);
    }
  }

  lemma {:induction false} SharedRunKeepsInv(ss: seq<State>, acts: seq<Action>, n: nat)
    requires Run(ss, acts) && n < |ss| && forall f | 0 <= f < |ss[0].cases| :: !Lone(ss[0].cases, f)
    ensures Inv(ss[n]) && ss[n].cases == ss[0].cases
  {
    if n == 0 {
      InitInv(ss[0]);
    } else {
      SharedRunKeepsInv(ss, acts, n - 1);
      assert Enabled(ss[n - 1], acts[n - 1]);
      SharedSettles(ss[n - 1]);
      StepKeepsInv(ss[n - 1], acts[n - 1]);
    }
  }

  /** Without a lone case no run, whatever its wakes, has an early read: it meets
      what ReturnedOnce, ParkedIsReachable and LostClaimKeepsValue ask for. */
  lemma SharedSuffices(ss: seq<State>, acts: seq<Action>)
    requires Run(ss, acts) && forall f | 0 <= f < |ss[0].cases| :: !Lone(ss[0].cases, f)
    ensures NoEarlyRead(ss, acts)
  {
    forall i | 0 <= i < |acts| && i < |ss| && acts[i].Fiber? ensures WellFormed(ss[i]) ==> Settled(ss[i]) {
      SharedRunKeepsInv(ss, acts, i);
      SharedSettles(ss[i]);
    }
  }

  /** The waiters with the first n of them on their queues. */
  function Linked(cases: seq<Case>, n: nat): (ws: seq<Waiter>)
    ensures |ws| == |cases|
  {
    seq(|cases|, i requires 0 <= i < |cases| => FreshWaiter(cases[i]).(linked := i < n))
  }

  /** A select of these cases that has installed the first n. */
  function Installed(s0: State, n: nat): State {
    s0.(ws := Linked(s0.cases, n), pc := if n < |s0.cases| then Install(n) else Park(n))
  }

  lemma InstallOne(s0: State, n: nat)
    requires Init(s0) && n < |s0.cases|
    ensures var acts := [Fiber(false, 0)] + ([Fiber(false, 0)] + []);
            Possible(Installed(s0, n), acts) && After(Installed(s0, n), acts) == Installed(s0, n + 1)
  {
    var f, s := Fiber(false, 0), Installed(s0, n);
    var c := s0.cases[n].ch;
    var s1 := s.(locks := s.locks[c := Ours], pc := InstallLocked(n));
    assert s.locks[c].Free? && Apply(s, f) == s1;
    assert s1.locks[c := Free] == s0.locks && s.ws[n := s.ws[n].(linked := true)] == Linked(s0.cases, n + 1);
    assert Apply(s1, f) == Installed(s0, n + 1);
    First(s1, f, []);
    First(s, f, [f] + []);
  }

  lemma InstallNext(s0: State, n: nat, before: seq<Action>) returns (acts: seq<Action>)
    requires Init(s0) && n < |s0.cases| && Possible(s0, before) && After(s0, before) == Installed(s0, n)
    ensures Possible(s0, acts) && After(s0, acts) == Installed(s0, n + 1)
  {
    var one := [Fiber(false, 0)] + ([Fiber(false, 0)] + []);
    InstallOne(s0, n);
    AfterConcat(s0, before, one);
    acts := before + one;
  }

  lemma {:induction false} InstallRun(s0: State, n: nat) returns (acts: seq<Action>)
    requires Init(s0) && n <= |s0.cases|
    ensures Possible(s0, acts) && After(s0, acts) == Installed(s0, n)
  {
    if n == 0 {
      var f := Fiber(false, |s0.cases|);
      assert FreshWaiters(s0.cases) == Linked(s0.cases, 0);
      First(s0, f, []);
      acts := [f] + [];
    } else {
      var before := InstallRun(s0, n - 1);
      acts := InstallNext(s0, n - 1, before);
    }
  }

  /** Any case of a select can come to be parked on. */
  lemma ParkRun(s0: State) returns (acts: seq<Action>)
    requires Init(s0)
    ensures Possible(s0, acts) && After(s0, acts) == Installed(s0, |s0.cases|).(pc := Parked(|s0.cases|))
  {
    var n := |s0.cases|;
    var f := Fiber(false, 0);
    var install := InstallRun(s0, n);
    First(Installed(s0, n), f, []);
    AfterConcat(s0, install, [f] + []);
    acts := install + ([f] + []);
  }

  /** The operation that meets this case, about to fill in its waiter. */
  function Claimer(c: Case, v: Val): EnvOp { if c.Recv? then Sender(v, Some(v)) else Receiver(None) }

  function Claimed(s: State, f: nat, v: Val): State
    requires WellFormed(s) && f < |s.cases|
  {
    s.(locks := s.locks[s.cases[f].ch := Env(Claimer(s.cases[f], v), Won(f))],
       ws := s.ws[f := s.ws[f].(linked := false)], fired := ByEnv(f))
  }

  lemma ClaimRun(s: State, f: nat, v: Val) returns (acts: seq<Action>)
    requires WellFormed(s) && f < |s.cases| && s.ws[f].linked && s.locks[s.cases[f].ch].Free? && s.fired.Unclaimed?
    ensures Possible(s, acts) && After(s, acts) == Claimed(s, f, v) && forall a | a in acts :: !a.Fiber?
  {
    var c, op := s.cases[f].ch, Claimer(s.cases[f], v);
    var s1 := s.(locks := s.locks[c := Env(op, Scanning)]);
    var s2 := s.(locks := s.locks[c := Env(op, Popped(f))], ws := s.ws[f := s.ws[f].(linked := false)]);
    assert Apply(s, EnvLock(c, op)) == s1;
    assert Apply(s1, EnvPop(c, f)) == s2 by { assert s1.locks[c := Env(op, Popped(f))] == s2.locks; }
    assert Apply(s2, EnvStep(c)) == Claimed(s, f, v) by {
      assert s2.locks[c := Env(op, Won(f))] == s.locks[c := Env(op, Won(f))];
    }
    First(s2, EnvStep(c), []);
    First(s1, EnvPop(c, f), [EnvStep(c)] + []);
    First(s, EnvLock(c, op), [EnvPop(c, f)] + ([EnvStep(c)] + []));
    acts := [EnvLock(c, op)] + ([EnvPop(c, f)] + ([EnvStep(c)] + []));
  }

  lemma {:induction false} OthersKeepInv(s: State, acts: seq<Action>)
    requires Inv(s) && Possible(s, acts) && forall a | a in acts :: !a.Fiber?
    ensures Inv(After(s, acts))
    decreases |acts|
  {
    if acts == [] {
    } else {
      StepKeepsInv(s, acts[0]);
      OthersKeepInv(Apply(s, acts[0]), acts[1..]);
    }
  }

  lemma ParkedInv(s0: State)
    requires Init(s0)
    ensures Inv(Installed(s0, |s0.cases|).(pc := Parked(|s0.cases|)))
  {
  }

  /** With a case alone on its channel, that case's winner and a stray wake get the
      waiters freed before the winner has filled its own in. */
  lemma LoneFreesEarly(s0: State, f: nat, v: Val) returns (acts: seq<Action>)
    requires Init(s0) && Lone(s0.cases, f)
    ensures Possible(s0, acts) && !GoneSafely(After(s0, acts))
    ensures var s, c := After(s0, acts), s0.cases[f];
            && s.locks[c.ch] == Env(Claimer(c, v), Won(f)) && s.ws[f] == FreshWaiter(c) && s.exchanges == 0
            && s.pc == if c.Recv? then Scan else Done(ClosedError(f))
  {
    var park := ParkRun(s0);
    ParkedInv(s0);
    var s1 := After(s0, park);
    var claim := ClaimRun(s1, f, v);
    var s2 := After(s1, claim);
    OthersKeepInv(s1, claim);
    StepKeepsInv(s2, Resume);
    var free := EarlyReadFreesEarly(Apply(s2, Resume));
    First(s2, Resume, free);
    AfterConcat(s1, claim, [Resume] + free);
    AfterConcat(s0, park, claim + ([Resume] + free));
    acts := park + (claim + ([Resume] + free));
  }

  /** Whatever the wakes, a select's waiters outlive every use of them, if and only
      if each of its channels appears in more than one case. */
  lemma StrayWakesSafeIff(s0: State)
    requires Init(s0)
    ensures (forall acts | Possible(s0, acts) :: GoneSafely(After(s0, acts))) <==>
              forall f | 0 <= f < |s0.cases| :: !Lone(s0.cases, f)
  {
    if f :| 0 <= f < |s0.cases| && Lone(s0.cases, f) {
      var acts := LoneFreesEarly(s0, f, 0);
    } else {
      InitInv(s0);
      forall acts | Possible(s0, acts) ensures GoneSafely(After(s0, acts)) {
        SharedKeepsInv(s0, acts);
        var s := After(s0, acts);
        if s.pc.Scan? || s.pc.Done? { OutUnreferenced(s); }
      }
    }
  }

  /** With a case alone on its channel, a stray wake loses the exchange: a receive
      takes the empty waiter for a close and retries, and a send reports a closed
      channel; then the winner makes the exchange all the same. */
  lemma EarlyReadLosesValue(s0: State, f: nat, v: Val) returns (acts: seq<Action>)
    requires Init(s0) && Lone(s0.cases, f)
    ensures Possible(s0, acts) && !Honest(After(s0, acts)) && After(s0, acts).exchanges == 1
    ensures var s, c := After(s0, acts), s0.cases[f];
            if c.Recv? then s.pc == Scan && s.given == Some(Gave(v))
            else s.pc == Done(ClosedError(f)) && s.given == Some(Took(c.v))
  {
    var free := LoneFreesEarly(s0, f, v);
    var s := After(s0, free);
    var deliver := EnvStep(s0.cases[f].ch);
    First(s, deliver, []);
    AfterConcat(s0, free, [deliver] + []);
    acts := free + ([deliver] + []);
  }

  /** Whatever the wakes, what a select reports is what was exchanged, if and only if
      each of its channels appears in more than one case. */
  lemma StrayWakesHonestIff(s0: State)
    requires Init(s0)
    ensures (forall acts | Possible(s0, acts) :: Honest(After(s0, acts))) <==>
              forall f | 0 <= f < |s0.cases| :: !Lone(s0.cases, f)
  {
    if f :| 0 <= f < |s0.cases| && Lone(s0.cases, f) {
      var acts := EarlyReadLosesValue(s0, f, 0);
    } else {
      InitInv(s0);
      forall acts | Possible(s0, acts) ensures Honest(After(s0, acts)) {
        SharedKeepsInv(s0, acts);
      }
    }
  }
}
