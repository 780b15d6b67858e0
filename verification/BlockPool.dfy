/**
 The blocking-offload pool (runloom_blockpool.c) with the park/wake handshake it
 rests on (runloom_sched_parkwake.c.inc): any number of fibers making offloads,
 any number of workers, any number of stray wakers.

 A job lives on its fiber's stack, so it may be touched only while that very call
 is still under way.  Jobs are named by call; a job's stage says how far the
 worker that owns it has got.  Only the owner lowers wake_pending, so its test and
 its decrement are one step here.
 */
module BlockPool {
  import opened Options

  type Fid = nat
  type Jid = nat
  type Tid = nat

  /** The submitting fiber's part (Created, Counted), then the worker's. */
  datatype Stage = Created | Counted | InQueue | Taken | Ran | Published | Bumped | Signalled | Retired

  function Rank(st: Stage): nat {
    match st
    case Created => 0 case Counted => 1 case InQueue => 2 case Taken => 3 case Ran => 4
    case Published => 5 case Bumped => 6 case Signalled => 7 case Retired => 8
  }

  /** `runs` is history: calls of fn for this job. */
  datatype Job = Job(f: Fid, shard: nat, stage: Stage, runs: nat)

  datatype Pc = Idle | Count | Enqueue | Park0 | Park1 | Park2 | Park3 | Yielded | Eat | Test

  /** wake_pending, parked_safe and the entry on a ready list are the C fields;
      the rest is the history of the present call: credit on entry, credits given
      and eaten, and whether only its own worker has meddled with the fiber. */
  datatype Fiber = Fiber(
    pc: Pc, job: Jid, credit: nat, parked: bool, ready: bool,
    entry: nat, bumps: nat, eats: nat, alone: bool)

  /** `wakers` are stray wake_safe calls between their two accesses. */
  datatype State = State(
    fibers: map<Fid, Fiber>, jobs: map<Jid, Job>, shards: seq<seq<Jid>>, inflight: int,
    wakers: map<Tid, Fid>, counted: set<Jid>, nextJid: Jid)

  datatype Action =
    | Call(f: Fid, shard: nat)
    | FiberStep(f: Fid)
    | Take(shard: nat)
    | WorkerStep(j: Jid)
    | StrayBump(t: Tid, f: Fid)
    | StrayCas(t: Tid)

  predicate Safe(s: State) {
    && (forall f | f in s.fibers && !s.fibers[f].pc.Idle? ::
          s.fibers[f].job in s.jobs && s.jobs[s.fibers[f].job].shard < |s.shards|)
    && (forall j | j in s.jobs :: s.jobs[j].f in s.fibers)
    && (forall t | t in s.wakers :: s.wakers[t] in s.fibers)
    && (forall i | 0 <= i < |s.shards| && s.shards[i] != [] :: s.shards[i][0] in s.jobs)
  }

  function SetFiber(s: State, f: Fid, fb: Fiber): State { s.(fibers := s.fibers[f := fb]) }
  function SetJob(s: State, j: Jid, job: Job): State { s.(jobs := s.jobs[j := job]) }

  // -------------------------------------------------- park_safe / wake_safe

  function EatOne(fb: Fiber, pc: Pc): Fiber
    requires fb.credit > 0
  {
    fb.(credit := fb.credit - 1, eats := fb.eats + 1, pc := pc)
  }

  /** A step of the park loop; `done` is what a load of job.done returns. */
  function ParkStep(fb: Fiber, done: bool): Fiber {
    match fb.pc
    case Park0 => if fb.credit > 0 then EatOne(fb, Test) else fb.(pc := Park1)
    case Park1 => fb.(parked := true, pc := Park2)
    case Park2 => if fb.credit > 0 then fb.(pc := Park3) else fb.(pc := Yielded)
    case Park3 =>
      if fb.parked && fb.credit > 0 then EatOne(fb.(parked := false), Test) else fb.(pc := Yielded)
    case Yielded => if fb.ready then fb.(ready := false, pc := Eat) else fb
    case Eat => if fb.credit > 0 then EatOne(fb, Test) else fb.(pc := Test)
    case Test => fb.(pc := if done then Idle else Park0)
    case _ => fb
  }

  /** wake_safe's credit, by this call's own worker or by another. */
  function Bump(fb: Fiber, own: bool): Fiber {
    fb.(credit := fb.credit + 1, bumps := fb.bumps + 1, alone := fb.alone && own)
  }

  /** wake_safe's claim: 1 -> 0 on parked_safe puts the fiber on a ready list. */
  function Cas(fb: Fiber, own: bool): Fiber {
    var fb1 := fb.(alone := fb.alone && own);
    if fb.parked then fb1.(parked := false, ready := true) else fb1
  }

  /** The worker is serving the call the fiber is in. */
  predicate Own(fb: Fiber, j: Jid) { !fb.pc.Idle? && fb.job == j }

  // ------------------------------------------------------------------ steps

  predicate Enabled(s: State, a: Action) {
    match a
    case Call(f, shard) => f in s.fibers && s.fibers[f].pc.Idle? && shard < |s.shards| && s.nextJid !in s.jobs
    case FiberStep(f) => f in s.fibers && !s.fibers[f].pc.Idle?
    case Take(i) => i < |s.shards| && s.shards[i] != []
    case WorkerStep(j) => j in s.jobs && Rank(Taken) <= Rank(s.jobs[j].stage) < Rank(Retired)
    case StrayBump(t, f) => f in s.fibers && t !in s.wakers
    case StrayCas(t) => t in s.wakers
  }

  function CallStep(s: State, f: Fid, shard: nat): State
    requires f in s.fibers
  {
    var fb := s.fibers[f];
    SetJob(SetFiber(s, f, fb.(pc := Count, job := s.nextJid, entry := fb.credit, bumps := 0, eats := 0, alone := true)),
           s.nextJid, Job(f, shard, Created, 0)).(nextJid := s.nextJid + 1)
  }

  function FiberApply(s: State, f: Fid): State
    requires f in s.fibers && s.fibers[f].job in s.jobs && s.jobs[s.fibers[f].job].shard < |s.shards|
  {
    var fb := s.fibers[f];
    var j := fb.job;
    var job := s.jobs[j];
    match fb.pc
    case Count =>
      SetJob(SetFiber(s, f, fb.(pc := Enqueue)), j, job.(stage := Counted))
        .(inflight := s.inflight + 1, counted := s.counted + {j})
    case Enqueue =>
      SetJob(SetFiber(s, f, fb.(pc := Park0)), j, job.(stage := InQueue))
        .(shards := s.shards[job.shard := s.shards[job.shard] + [j]])
    case _ => SetFiber(s, f, ParkStep(fb, Rank(job.stage) >= Rank(Published)))
  }

  function WorkerApply(s: State, j: Jid): State
    requires j in s.jobs && s.jobs[j].f in s.fibers
  {
    var job := s.jobs[j];
    var fb := s.fibers[job.f];
    match job.stage
    case Taken => SetJob(s, j, job.(stage := Ran, runs := job.runs + 1))
    case Ran => SetJob(s, j, job.(stage := Published))
    case Published => SetJob(SetFiber(s, job.f, Bump(fb, Own(fb, j))), j, job.(stage := Bumped))
    case Bumped => SetJob(SetFiber(s, job.f, Cas(fb, Own(fb, j))), j, job.(stage := Signalled))
    case Signalled =>
      SetJob(s, j, job.(stage := Retired)).(inflight := s.inflight - 1, counted := s.counted - {j})
    case _ => s
  }

  function Apply(s: State, a: Action): State
    requires Safe(s) && Enabled(s, a)
  {
    match a
    case Call(f, shard) => CallStep(s, f, shard)
    case FiberStep(f) => FiberApply(s, f)
    case Take(i) =>
      var j := s.shards[i][0];
      SetJob(s, j, s.jobs[j].(stage := Taken)).(shards := s.shards[i := s.shards[i][1..]])
    case WorkerStep(j) => WorkerApply(s, j)
    case StrayBump(t, f) => SetFiber(s, f, Bump(s.fibers[f], false)).(wakers := s.wakers[t := f])
    case StrayCas(t) =>
      var f := s.wakers[t];
      SetFiber(s, f, Cas(s.fibers[f], false)).(wakers := s.wakers - {t})
  }

  ghost predicate Init(s: State) {
    && (forall f | f in s.fibers :: s.fibers[f].pc.Idle? && !s.fibers[f].parked && !s.fibers[f].ready)
    && s.jobs == map[] && s.inflight == 0 && s.wakers == map[] && s.counted == {}
    && forall i | 0 <= i < |s.shards| :: s.shards[i] == []
  }

  // ------------------------------------------------------------- invariant

  predicate InLoop(pc: Pc) {
    pc.Park0? || pc.Park1? || pc.Park2? || pc.Park3? || pc.Yielded? || pc.Eat? || pc.Test?
  }

  /** parked_safe is 1, or a claim has put the fiber on a ready list, exactly
      between the park's store and its resume. */
  predicate ParkOk(fb: Fiber) {
    if fb.pc.Park2? || fb.pc.Park3? || fb.pc.Yielded? then fb.parked != fb.ready else !fb.parked && !fb.ready
  }

  /** Once its worker has given its credit, the fiber holds one until it eats
      it on the way out; so it never sleeps past its worker's claim. */
  predicate CreditOk(fb: Fiber, st: Stage) {
    && (InLoop(fb.pc) && !fb.pc.Test? && Rank(st) >= Rank(Bumped) ==> fb.credit > 0)
    && (fb.pc.Park3? && fb.parked ==> fb.credit > 0)
    && (fb.pc.Yielded? && fb.parked ==> Rank(st) < Rank(Signalled))
  }

  predicate BooksOk(fb: Fiber, st: Stage) {
    && fb.credit + fb.eats == fb.entry + fb.bumps
    && (fb.alone ==> fb.bumps == if Rank(st) >= Rank(Bumped) then 1 else 0)
    && (fb.alone && (fb.ready || fb.pc.Eat?) ==> Rank(st) >= Rank(Signalled))
    && (fb.alone && fb.entry == 0 ==> fb.eats == if fb.pc.Test? then 1 else 0)
  }

  predicate StageOk(pc: Pc, st: Stage) {
    && (pc.Count? <==> st.Created?) && (pc.Enqueue? <==> st.Counted?)
  }

  predicate FiberInv(fb: Fiber, st: Stage) {
    ParkOk(fb) && (!fb.pc.Idle? ==> CreditOk(fb, st) && BooksOk(fb, st) && StageOk(fb.pc, st))
  }

  predicate FibersOk(fibers: map<Fid, Fiber>, jobs: map<Jid, Job>, n: nat) {
    forall f | f in fibers ::
      if fibers[f].pc.Idle? then ParkOk(fibers[f])
      else
        && fibers[f].job in jobs && jobs[fibers[f].job].f == f && jobs[fibers[f].job].shard < n
        && FiberInv(fibers[f], jobs[fibers[f].job].stage)
  }

  /** Until it is published, a job's call is still under way. */
  predicate JobInv(j: Jid, job: Job, fibers: map<Fid, Fiber>, counted: set<Jid>) {
    && job.f in fibers && job.runs == (if Rank(job.stage) >= Rank(Ran) then 1 else 0)
    && (j in counted <==> Rank(Counted) <= Rank(job.stage) < Rank(Retired))
    && (Rank(job.stage) < Rank(Published) ==> Own(fibers[job.f], j))
  }

  predicate JobsOk(s: State) {
    forall j | j in s.jobs :: j < s.nextJid && JobInv(j, s.jobs[j], s.fibers, s.counted)
  }

  predicate ShardInv(i: nat, q: seq<Jid>, jobs: map<Jid, Job>) {
    && (forall k | 0 <= k < |q| :: q[k] in jobs && jobs[q[k]].stage.InQueue? && jobs[q[k]].shard == i)
    && (forall k, l | 0 <= k < l < |q| :: q[k] != q[l])
    && (forall j | j in jobs && jobs[j].stage.InQueue? && jobs[j].shard == i :: j in q)
  }

  predicate ShardsOk(shards: seq<seq<Jid>>, jobs: map<Jid, Job>) {
    forall i | 0 <= i < |shards| :: ShardInv(i, shards[i], jobs)
  }

  predicate CountOk(s: State) {
    s.inflight == |s.counted| && forall j | j in s.counted :: j in s.jobs
  }

  predicate WakersOk(s: State) {
    forall t | t in s.wakers :: s.wakers[t] in s.fibers
  }

  predicate Inv(s: State) {
    && FibersOk(s.fibers, s.jobs, |s.shards|) && JobsOk(s) && ShardsOk(s.shards, s.jobs) && CountOk(s) && WakersOk(s)
  }

  lemma InvIsSafe(s: State)
    requires Inv(s)
    ensures Safe(s)
  {
    forall i | 0 <= i < |s.shards| && s.shards[i] != [] ensures s.shards[i][0] in s.jobs {
      assert ShardInv(i, s.shards[i], s.jobs);
    }
  }

  // ------------------------------------------------------ one fiber's story

  lemma ParkKeeps(fb: Fiber, st: Stage)
    requires FiberInv(fb, st) && InLoop(fb.pc)
    ensures var fb' := ParkStep(fb, Rank(st) >= Rank(Published)); ParkOk(fb') && (!fb'.pc.Idle? ==> FiberInv(fb', st))
    ensures ParkStep(fb, Rank(st) >= Rank(Published)).pc.Idle? ==> fb.pc.Test? && Rank(st) >= Rank(Published)
  {
  }

  lemma BumpKeeps(fb: Fiber, st: Stage)
    requires FiberInv(fb, st) && !fb.pc.Idle?
    ensures FiberInv(Bump(fb, false), st)
    ensures st.Published? ==> FiberInv(Bump(fb, true), Bumped)
  {
  }

  lemma CasKeeps(fb: Fiber, st: Stage)
    requires FiberInv(fb, st) && !fb.pc.Idle?
    ensures FiberInv(Cas(fb, false), st)
    ensures st.Bumped? ==> FiberInv(Cas(fb, true), Signalled)
  {
  }

  // ------------------------------------------------------------ frame lemmas

  /** Fiber f and its job j are all that changed. */
  ghost predicate Touches(s: State, s': State, f: Fid, j: Jid) {
    && f in s.fibers && f in s'.fibers && s'.fibers == s.fibers[f := s'.fibers[f]]
    && j in s'.jobs && s'.jobs == s.jobs[j := s'.jobs[j]] && s'.jobs[j].f == f && (j in s.jobs ==> s.jobs[j].f == f)
    && (forall k | k != j :: k in s'.counted <==> k in s.counted)
    && s.nextJid <= s'.nextJid && j < s'.nextJid && |s'.shards| == |s.shards|
  }

  /** What the step owes about f and j themselves. */
  ghost predicate Good(s: State, s': State, f: Fid, j: Jid) {
    && Touches(s, s', f, j)
    && (if s'.fibers[f].pc.Idle? then ParkOk(s'.fibers[f])
        else
          var k := s'.fibers[f].job;
          k in s'.jobs && s'.jobs[k].f == f && s'.jobs[k].shard < |s.shards| && FiberInv(s'.fibers[f], s'.jobs[k].stage))
    && JobInv(j, s'.jobs[j], s'.fibers, s'.counted)
    && (forall k | k != j && Own(s.fibers[f], k) :: Own(s'.fibers[f], k))
  }

  lemma FibersKept(s: State, s': State, f: Fid, j: Jid)
    requires FibersOk(s.fibers, s.jobs, |s.shards|) && Good(s, s', f, j)
    ensures FibersOk(s'.fibers, s'.jobs, |s'.shards|)
  {
  }

  lemma JobsKept(s: State, s': State, f: Fid, j: Jid)
    requires JobsOk(s) && Good(s, s', f, j)
    ensures JobsOk(s')
  {
    forall k | k in s'.jobs ensures k < s'.nextJid && JobInv(k, s'.jobs[k], s'.fibers, s'.counted) {
      if k != j { assert JobInv(k, s.jobs[k], s.fibers, s.counted); }
    }
  }

  lemma LocalStep(s: State, s': State, f: Fid, j: Jid)
    requires Inv(s) && Good(s, s', f, j) && ShardsOk(s'.shards, s'.jobs) && s'.inflight == |s'.counted|
    requires (j in s'.counted ==> j in s'.jobs) && WakersOk(s')
    ensures Inv(s')
  {
    FibersKept(s, s', f, j);
    JobsKept(s, s', f, j);
  }

  /** The queues do not notice a job that was and stays off them. */
  lemma ShardsKept(s: State, j: Jid, job: Job)
    requires ShardsOk(s.shards, s.jobs) && !job.stage.InQueue? && (j in s.jobs ==> !s.jobs[j].stage.InQueue?)
    ensures ShardsOk(s.shards, s.jobs[j := job])
  {
    forall i | 0 <= i < |s.shards| ensures ShardInv(i, s.shards[i], s.jobs[j := job]) {
      assert ShardInv(i, s.shards[i], s.jobs);
    }
  }

  lemma ShardPush(s: State, j: Jid, job: Job)
    requires ShardsOk(s.shards, s.jobs) && job.stage.InQueue? && job.shard < |s.shards|
    requires j in s.jobs ==> !s.jobs[j].stage.InQueue?
    ensures ShardsOk(s.shards[job.shard := s.shards[job.shard] + [j]], s.jobs[j := job])
  {
    var shards' := s.shards[job.shard := s.shards[job.shard] + [j]];
    forall i | 0 <= i < |shards'| ensures ShardInv(i, shards'[i], s.jobs[j := job]) {
      assert ShardInv(i, s.shards[i], s.jobs);
    }
  }

  lemma ShardPop(s: State, i: nat, job: Job)
    requires ShardsOk(s.shards, s.jobs) && i < |s.shards| && s.shards[i] != [] && !job.stage.InQueue?
    ensures ShardsOk(s.shards[i := s.shards[i][1..]], s.jobs[s.shards[i][0] := job])
  {
    var j := s.shards[i][0];
    var shards' := s.shards[i := s.shards[i][1..]];
    assert ShardInv(i, s.shards[i], s.jobs);
    forall k | 0 <= k < |shards'| ensures ShardInv(k, shards'[k], s.jobs[j := job]) {
      assert ShardInv(k, s.shards[k], s.jobs);
    }
  }

  /** The part of the invariant about one fiber and one of its jobs. */
  ghost predicate Here(s: State, f: Fid, j: Jid) {
    && f in s.fibers && j in s.jobs && s.jobs[j].f == f && j < s.nextJid
    && JobInv(j, s.jobs[j], s.fibers, s.counted)
    && (if s.fibers[f].pc.Idle? then ParkOk(s.fibers[f])
        else
          var k := s.fibers[f].job;
          && k in s.jobs && s.jobs[k].f == f && k < s.nextJid && s.jobs[k].shard < |s.shards|
          && FiberInv(s.fibers[f], s.jobs[k].stage) && JobInv(k, s.jobs[k], s.fibers, s.counted))
  }

  // ------------------------------------------------------------ step lemmas

  lemma CallKeepsInv(s: State, f: Fid, shard: nat)
    requires Inv(s) && Enabled(s, Call(f, shard))
    ensures Inv(CallStep(s, f, shard))
  {
    var j := s.nextJid;
    ShardsKept(s, j, Job(f, shard, Created, 0));
    assert j !in s.counted;
    LocalStep(s, CallStep(s, f, shard), f, j);
  }

  lemma SubmitGood(s: State, f: Fid)
    requires f in s.fibers && Here(s, f, s.fibers[f].job) && (s.fibers[f].pc.Count? || s.fibers[f].pc.Enqueue?)
    ensures Good(s, FiberApply(s, f), f, s.fibers[f].job)
    ensures s.fibers[f].pc.Count? <==> s.jobs[s.fibers[f].job].stage.Created?
    ensures s.fibers[f].pc.Count? ==> s.fibers[f].job !in s.counted
    ensures s.fibers[f].pc.Enqueue? ==> s.jobs[s.fibers[f].job].stage.Counted?
  {
  }

  lemma SubmitKeepsInv(s: State, f: Fid)
    requires Inv(s) && f in s.fibers && (s.fibers[f].pc.Count? || s.fibers[f].pc.Enqueue?)
    ensures s.fibers[f].job in s.jobs && s.jobs[s.fibers[f].job].shard < |s.shards|
    ensures Inv(FiberApply(s, f))
  {
    var j := s.fibers[f].job;
    assert JobInv(j, s.jobs[j], s.fibers, s.counted);
    SubmitGood(s, f);
    if s.fibers[f].pc.Count? {
      ShardsKept(s, j, s.jobs[j].(stage := Counted));
    } else {
      ShardPush(s, j, s.jobs[j].(stage := InQueue));
    }
    LocalStep(s, FiberApply(s, f), f, j);
  }

  lemma LoopGood(s: State, f: Fid)
    requires f in s.fibers && Here(s, f, s.fibers[f].job) && InLoop(s.fibers[f].pc)
    ensures var s' := FiberApply(s, f);
            Good(s, s', f, s.fibers[f].job) && s' == SetFiber(s, f, s'.fibers[f])
  {
    ParkKeeps(s.fibers[f], s.jobs[s.fibers[f].job].stage);
    assert s.jobs[s.fibers[f].job := s.jobs[s.fibers[f].job]] == s.jobs;
  }

  lemma LoopKeepsInv(s: State, f: Fid)
    requires Inv(s) && f in s.fibers && InLoop(s.fibers[f].pc)
    ensures s.fibers[f].job in s.jobs && s.jobs[s.fibers[f].job].shard < |s.shards|
    ensures Inv(FiberApply(s, f))
  {
    var j := s.fibers[f].job;
    assert JobInv(j, s.jobs[j], s.fibers, s.counted);
    LoopGood(s, f);
    LocalStep(s, FiberApply(s, f), f, j);
  }

  lemma TakeGood(s: State, i: nat, j: Jid)
    requires j in s.jobs && Here(s, s.jobs[j].f, j) && s.jobs[j].stage.InQueue?
    ensures var s' := SetJob(s, j, s.jobs[j].(stage := Taken)); Good(s, s', s.jobs[j].f, j)
  {
  }

  lemma TakeKeepsInv(s: State, i: nat)
    requires Inv(s) && i < |s.shards| && s.shards[i] != []
    ensures var j := s.shards[i][0];
            j in s.jobs && Inv(SetJob(s, j, s.jobs[j].(stage := Taken)).(shards := s.shards[i := s.shards[i][1..]]))
  {
    assert ShardInv(i, s.shards[i], s.jobs);
    var j := s.shards[i][0];
    assert JobInv(j, s.jobs[j], s.fibers, s.counted);
    TakeGood(s, i, j);
    ShardPop(s, i, s.jobs[j].(stage := Taken));
    LocalStep(s, SetJob(s, j, s.jobs[j].(stage := Taken)).(shards := s.shards[i := s.shards[i][1..]]), s.jobs[j].f, j);
  }

  /** The worker's steps that do not touch the fiber. */
  lemma QuietGood(s: State, j: Jid)
    requires j in s.jobs && Here(s, s.jobs[j].f, j)
    requires s.jobs[j].stage.Taken? || s.jobs[j].stage.Ran? || s.jobs[j].stage.Signalled?
    ensures Good(s, WorkerApply(s, j), s.jobs[j].f, j)
    ensures s.jobs[j].stage.Signalled? ==> j in s.counted
  {
  }

  lemma WakeGood(s: State, j: Jid)
    requires j in s.jobs && Here(s, s.jobs[j].f, j) && (s.jobs[j].stage.Published? || s.jobs[j].stage.Bumped?)
    ensures Good(s, WorkerApply(s, j), s.jobs[j].f, j)
  {
    var fb := s.fibers[s.jobs[j].f];
    if !fb.pc.Idle? {
      BumpKeeps(fb, s.jobs[fb.job].stage);
      CasKeeps(fb, s.jobs[fb.job].stage);
    }
  }

  lemma WorkerGood(s: State, j: Jid)
    requires j in s.jobs && Here(s, s.jobs[j].f, j) && Enabled(s, WorkerStep(j))
    ensures Good(s, WorkerApply(s, j), s.jobs[j].f, j) && !WorkerApply(s, j).jobs[j].stage.InQueue?
    ensures WorkerApply(s, j).shards == s.shards && WorkerApply(s, j).wakers == s.wakers
    ensures s.inflight == |s.counted| ==> WorkerApply(s, j).inflight == |WorkerApply(s, j).counted|
  {
    match s.jobs[j].stage {
      case Published => WakeGood(s, j);
      case Bumped => WakeGood(s, j);
      case _ => QuietGood(s, j);
    }
  }

  lemma WorkerKeepsInv(s: State, j: Jid)
    requires Inv(s) && Enabled(s, WorkerStep(j))
    ensures s.jobs[j].f in s.fibers && Inv(WorkerApply(s, j))
  {
    assert JobInv(j, s.jobs[j], s.fibers, s.counted);
    var f := s.jobs[j].f;
    if !s.fibers[f].pc.Idle? {
      assert JobInv(s.fibers[f].job, s.jobs[s.fibers[f].job], s.fibers, s.counted);
    }
    WorkerGood(s, j);
    ShardsKept(s, j, WorkerApply(s, j).jobs[j]);
    LocalStep(s, WorkerApply(s, j), f, j);
  }

  /** A stray waker's access to fiber f. */
  lemma StrayKeepsInv(s: State, f: Fid, fb: Fiber, wakers: map<Tid, Fid>)
    requires Inv(s) && f in s.fibers && fb in {Bump(s.fibers[f], false), Cas(s.fibers[f], false)}
    requires forall t | t in wakers :: wakers[t] in s.fibers
    ensures Inv(SetFiber(s, f, fb).(wakers := wakers))
  {
    var s' := SetFiber(s, f, fb).(wakers := wakers);
    if !s.fibers[f].pc.Idle? {
      BumpKeeps(s.fibers[f], s.jobs[s.fibers[f].job].stage);
      CasKeeps(s.fibers[f], s.jobs[s.fibers[f].job].stage);
    }
    assert FibersOk(s'.fibers, s'.jobs, |s'.shards|);
    forall k | k in s'.jobs ensures k < s'.nextJid && JobInv(k, s'.jobs[k], s'.fibers, s'.counted) {
      assert JobInv(k, s.jobs[k], s.fibers, s.counted);
    }
  }

  lemma StepKeepsInv(s: State, a: Action)
    requires Inv(s) && Safe(s) && Enabled(s, a)
    ensures Inv(Apply(s, a))
  {
    match a {
      case Call(f, shard) => CallKeepsInv(s, f, shard);
      case FiberStep(f) =>
        if InLoop(s.fibers[f].pc) { LoopKeepsInv(s, f); } else { SubmitKeepsInv(s, f); }
      case Take(i) => TakeKeepsInv(s, i);
      case WorkerStep(j) => WorkerKeepsInv(s, j);
      case StrayBump(t, f) => StrayKeepsInv(s, f, Bump(s.fibers[f], false), s.wakers[t := f]);
      case StrayCas(t) => StrayKeepsInv(s, s.wakers[t], Cas(s.fibers[s.wakers[t]], false), s.wakers - {t});
    }
  }

  // ------------------------------------------------------------- whole runs

  ghost predicate Run(ss: seq<State>, acts: seq<Action>) {
    && |ss| == |acts| + 1 && Init(ss[0])
    && forall i | 0 <= i < |acts| :: Safe(ss[i]) && Enabled(ss[i], acts[i]) && ss[i + 1] == Apply(ss[i], acts[i])
  }

  lemma {:induction false} RunKeepsInv(ss: seq<State>, acts: seq<Action>, n: nat)
    requires Run(ss, acts) && n < |ss|
    ensures Inv(ss[n])
  {
    if n == 0 {
      assert Init(ss[0]);
    } else {
      RunKeepsInv(ss, acts, n - 1);
      assert Safe(ss[n - 1]) && Enabled(ss[n - 1], acts[n - 1]);
      StepKeepsInv(ss[n - 1], acts[n - 1]);
    }
  }

  /** Some run leads to this state. */
  ghost predicate Reachable(s: State) {
    exists ss, acts :: Run(ss, acts) && ss[|acts|] == s
  }

  lemma ReachableInv(s: State)
    requires Reachable(s)
    ensures Inv(s)
  {
    var ss, acts :| Run(ss, acts) && ss[|acts|] == s;
    RunKeepsInv(ss, acts, |acts|);
  }

  /** The worker touches a job only while its call is under way, and a returning
      call's job has run exactly once. */
  lemma JobOutlivesWorker(s: State, j: Jid)
    requires Reachable(s) && j in s.jobs
    ensures Rank(s.jobs[j].stage) < Rank(Published) ==>
              s.jobs[j].f in s.fibers && Own(s.fibers[s.jobs[j].f], j)
    ensures s.jobs[j].runs <= 1
    ensures s.jobs[j].f in s.fibers && !Own(s.fibers[s.jobs[j].f], j) ==> s.jobs[j].runs == 1
  {
    ReachableInv(s);
    assert JobInv(j, s.jobs[j], s.fibers, s.counted);
  }

  /** A fiber's step ends its call only on seeing its job published. */
  lemma ReturnsWhenPublished(s: State, f: Fid)
    requires f in s.fibers && !s.fibers[f].pc.Idle? && s.fibers[f].job in s.jobs
    requires s.jobs[s.fibers[f].job].shard < |s.shards| && FiberApply(s, f).fibers[f].pc.Idle?
    ensures Rank(s.jobs[s.fibers[f].job].stage) >= Rank(Published)
  {
  }

  /** What the invariant says of a fiber in a call. */
  lemma CallInv(s: State, f: Fid)
    requires Reachable(s) && f in s.fibers && !s.fibers[f].pc.Idle?
    ensures var j := s.fibers[f].job;
            && j in s.jobs && s.jobs[j].f == f && s.jobs[j].shard < |s.shards| && FiberInv(s.fibers[f], s.jobs[j].stage)
            && JobInv(j, s.jobs[j], s.fibers, s.counted) && s.inflight == |s.counted|
            && ShardInv(s.jobs[j].shard, s.shards[s.jobs[j].shard], s.jobs)
  {
    ReachableInv(s);
    assert JobInv(s.fibers[f].job, s.jobs[s.fibers[f].job], s.fibers, s.counted);
  }

  lemma ReturnsAfterOneRun(s: State, f: Fid)
    requires Reachable(s) && f in s.fibers && !s.fibers[f].pc.Idle?
    ensures var j := s.fibers[f].job;
            && j in s.jobs && s.jobs[j].shard < |s.shards|
            && (FiberApply(s, f).fibers[f].pc.Idle? ==> s.jobs[j].runs == 1 && Rank(s.jobs[j].stage) >= Rank(Published))
  {
    CallInv(s, f);
    if FiberApply(s, f).fibers[f].pc.Idle? { ReturnsWhenPublished(s, f); }
  }

  /** A sleeping fiber is on a ready list, or its worker has yet to claim it: the
      job waits in its shard's queue or is in a worker's hands, and inflight,
      which keeps the scheduler's loop alive, is positive. */
  lemma SleeperHasWakeComing(s: State, f: Fid)
    requires Reachable(s) && f in s.fibers && s.fibers[f].pc.Yielded? && !s.fibers[f].ready
    ensures s.fibers[f].parked && s.fibers[f].job in s.jobs && s.inflight > 0
    ensures var job := s.jobs[s.fibers[f].job];
            && Rank(InQueue) <= Rank(job.stage) < Rank(Signalled) && job.f == f
            && (job.stage.InQueue? ==> job.shard < |s.shards| && s.fibers[f].job in s.shards[job.shard])
  {
    CallInv(s, f);
    var j := s.fibers[f].job;
    assert j in s.counted;
    if s.counted == {} { assert false; }
  }

  /** ... and that claim does put it on a ready list. */
  lemma WorkerWakesSleeper(s: State, j: Jid)
    requires Reachable(s) && j in s.jobs && s.jobs[j].stage.Bumped? && s.jobs[j].f in s.fibers
    requires s.fibers[s.jobs[j].f].pc.Yielded?
    ensures WorkerApply(s, j).fibers[s.jobs[j].f].ready
  {
    CallInv(s, s.jobs[j].f);
    assert ParkOk(s.fibers[s.jobs[j].f]);
  }

  // ------------------------------------------------------ the wake credit

  /** Credit is conserved; and if only its own worker wakes it, a call that comes
      in without credit leaves without. */
  lemma CreditBalanced(s: State, f: Fid)
    requires Reachable(s) && f in s.fibers && s.fibers[f].pc.Test? && s.fibers[f].job in s.jobs
    requires Rank(s.jobs[s.fibers[f].job].stage) >= Rank(Published)
    ensures var fb := s.fibers[f];
            && fb.credit == fb.entry + fb.bumps - fb.eats
            && (fb.alone && fb.entry == 0 ==> fb.credit == fb.entry && fb.bumps == 1 && fb.eats == 1)
  {
    CallInv(s, f);
  }

  /** A call that enters with `credit`, after k steps of a schedule in which the
      worker publishes and is then slow to wake. */
  function LostFiber(credit: nat, k: nat): Fiber
    requires credit > 0
  {
    var fb := Fiber(Idle, 0, credit, false, false, credit, 0, 0, true);
    if k == 0 then fb else if k == 1 then fb.(pc := Count) else if k == 2 then fb.(pc := Enqueue)
    else if k <= 6 then fb.(pc := Park0)
    else fb.(pc := if k == 7 then Test else Idle, credit := credit - 1, eats := 1)
  }

  function LostState(f: Fid, credit: nat, k: nat): State
    requires credit > 0
  {
    var stage :=
      if k <= 1 then Created else if k == 2 then Counted else if k == 3 then InQueue
      else if k == 4 then Taken else if k == 5 then Ran else Published;
    State(map[f := LostFiber(credit, k)],
          if k == 0 then map[] else map[0 := Job(f, 0, stage, if k >= 5 then 1 else 0)],
          [if k == 3 then [0] else []], if k >= 2 then 1 else 0, map[], if k >= 2 then {0} else {}, if k == 0 then 0 else 1)
  }

  function LostAction(f: Fid, k: nat): Action {
    if k == 0 then Call(f, 0) else if k == 3 then Take(0) else if k == 4 || k == 5 then WorkerStep(0) else FiberStep(f)
  }

  ghost predicate LostStep(f: Fid, credit: nat, k: nat)
    requires credit > 0
  {
    var s := LostState(f, credit, k);
    Safe(s) && Enabled(s, LostAction(f, k)) && LostState(f, credit, k + 1) == Apply(s, LostAction(f, k))
  }

  lemma LostSubmit(f: Fid, credit: nat)
    requires credit > 0
    ensures LostStep(f, credit, 0) && LostStep(f, credit, 1)
  {
  }

  lemma LostEnqueue(f: Fid, credit: nat)
    requires credit > 0
    ensures LostStep(f, credit, 2) && LostStep(f, credit, 3)
  {
    var q: seq<Jid> := [];
    assert q + [0] == [0] && [0][1..] == q;
    assert [q][0 := q + [0]] == [q + [0]] && [[0]][0 := [0][1..]] == [[0][1..]];
  }

  lemma LostRuns(f: Fid, credit: nat)
    requires credit > 0
    ensures LostStep(f, credit, 4)
  {
  }

  lemma LostPublishes(f: Fid, credit: nat)
    requires credit > 0
    ensures LostStep(f, credit, 5)
  {
  }

  lemma LostTests(f: Fid, credit: nat)
    requires credit > 0
    ensures LostStep(f, credit, 6)
  {
  }

  lemma LostReturns(f: Fid, credit: nat)
    requires credit > 0
    ensures LostStep(f, credit, 7)
  {
  }

  lemma LostSteps(f: Fid, credit: nat, k: nat)
    requires credit > 0 && k < 8
    ensures LostStep(f, credit, k)
  {
    if k < 2 { LostSubmit(f, credit); } else if k < 4 { LostEnqueue(f, credit); }
    else if k == 4 { LostRuns(f, credit); } else if k == 5 { LostPublishes(f, credit); }
    else if k == 6 { LostTests(f, credit); } else { LostReturns(f, credit); }
  }

  lemma LostEnds(f: Fid, credit: nat)
    requires credit > 0
    ensures Init(LostState(f, credit, 0))
    ensures LostState(f, credit, 8).fibers == map[f := LostFiber(credit, 8)]
  {
  }

  /** With credit on entry it may not: whatever that credit, a worker that
      publishes in time and is slow to wake makes the call return with one less.
      So entry without credit is exactly the case in which every such call is
      balanced. */
  lemma CreditLost(f: Fid, credit: nat) returns (ss: seq<State>, acts: seq<Action>)
    requires credit > 0
    ensures Run(ss, acts) && f in ss[|acts|].fibers
    ensures var fb := ss[|acts|].fibers[f];
            fb.pc.Idle? && fb.alone && fb.entry == credit && fb.credit == credit - 1
  {
    ss := seq(9, k requires 0 <= k < 9 => LostState(f, credit, k));
    acts := seq(8, k requires 0 <= k < 8 => LostAction(f, k));
    forall k | 0 <= k < |acts|
      ensures Safe(ss[k]) && Enabled(ss[k], acts[k]) && ss[k + 1] == Apply(ss[k], acts[k])
    {
      LostSteps(f, credit, k);
    }
    LostEnds(f, credit);
    assert ss[0] == LostState(f, credit, 0) && ss[|acts|] == LostState(f, credit, 8);
  }

  // ------------------------------------------------------ shards and workers

  const SHARDS_MAX: nat := 32
  const WORKERS_MAX: nat := 256
  const WORKERS_DEFAULT: nat := 8
  const WORKERS_PER_SHARD: nat := 3

  /** `bp_resolve_nshard`: the override if there is one, else the hub count. */
  function ResolveShards(override: Option<int>, hubs: int): (n: nat)
    ensures 1 <= n <= SHARDS_MAX
    ensures var asked := if override.Some? then override.value else hubs;
            (1 <= asked <= SHARDS_MAX ==> n == asked) && (asked < 1 ==> n == 1) && (asked > SHARDS_MAX ==> n == SHARDS_MAX)
  {
    var n := if override.Some? then override.value else if hubs <= 0 then 1 else hubs;
    if n < 1 then 1 else if n > SHARDS_MAX then SHARDS_MAX else n
  }

  /** `bp_resolve_workers`. */
  function ResolveWorkers(override: Option<int>, nshard: nat): (n: nat)
    requires nshard <= SHARDS_MAX
    ensures nshard <= n <= WORKERS_MAX && n >= 1
    ensures override.Some? && 0 < override.value && nshard <= override.value <= WORKERS_MAX ==> n == override.value
    ensures override.None? ==> n >= WORKERS_DEFAULT && n >= WORKERS_PER_SHARD * nshard
                               && (n == WORKERS_DEFAULT || n == WORKERS_PER_SHARD * nshard)
  {
    var n := if override.Some? then (if override.value <= 0 then WORKERS_DEFAULT else override.value)
             else if nshard * WORKERS_PER_SHARD < WORKERS_DEFAULT then WORKERS_DEFAULT
             else nshard * WORKERS_PER_SHARD;
    var m := if n < nshard then nshard else n;
    if m > WORKERS_MAX then WORKERS_MAX else m
  }

  /** `bp_shard_for`: the submit shard of a fiber with this hash key. */
  function ShardFor(key: nat, nshard: nat): (i: nat)
    ensures nshard >= 1 ==> i < nshard
  {
    if nshard <= 1 then 0 else (key / 64) % nshard
  }

  /** Every shard is some key's, and hubs a cache line apart take turns. */
  lemma ShardsReached(key: nat, nshard: nat, i: nat)
    requires i < nshard
    ensures ShardFor(64 * i, nshard) == i
    ensures ShardFor(key + 64, nshard) == (if ShardFor(key, nshard) + 1 == nshard then 0 else ShardFor(key, nshard) + 1)
  {
    SmallMod(i, nshard);
    assert 64 * i / 64 == i && (key + 64) / 64 == key / 64 + 1;
    if nshard > 1 { NextMod(key / 64, nshard); }
  }

  lemma NextMod(x: nat, n: nat)
    requires n > 1
    ensures (x + 1) % n == if x % n + 1 == n then 0 else x % n + 1
  {
    var q, r := x / n, x % n;
    assert x == q * n + r;
    if r + 1 == n {
      assert x + 1 == (q + 1) * n;
      ModOf(q + 1, 0, n);
    } else {
      ModOf(q, r + 1, n);
    }
  }

  lemma ModOf(q: nat, r: nat, n: nat)
    requires r < n
    ensures (q * n + r) % n == r
  {
    var x := q * n + r;
    var d := q - x / n;
    assert d * n == x % n - r by { assert x == (x / n) * n + x % n; }
    Multiple(d, n);
  }

  lemma Multiple(d: int, n: int)
    requires n > 0
    ensures (d > 0 ==> d * n >= n) && (d < 0 ==> d * n <= -n)
  {
  }

  /** `runloom_blockpool_init`'s spawn loop: worker i serves shard i % nshard;
      `created` says how many thread creations succeed before one fails.  The
      pool comes up if and only if every shard has a worker, so the job of any
      fiber waits on a queue that somebody serves. */
  method StartWorkers(requested: int, shardsOverride: Option<int>, workersOverride: Option<int>, hubs: int, created: nat)
    returns (up: bool, nshard: nat, serves: seq<nat>)
    ensures 1 <= nshard <= SHARDS_MAX && |serves| <= WORKERS_MAX
    ensures up <==> forall i | 0 <= i < nshard :: i in serves
    ensures created >= WORKERS_MAX ==> up
    ensures forall k | 0 <= k < |serves| :: serves[k] == k % nshard
    ensures 0 < requested <= WORKERS_MAX ==> |serves| == if created < requested then created else requested
    ensures up ==> forall key: nat :: ShardFor(key, nshard) in serves
  {
    nshard := ResolveShards(shardsOverride, hubs);
    var n;
    if requested <= 0 {
      n := ResolveWorkers(workersOverride, nshard);
    } else {
      n := requested;
      if n < nshard { nshard := n; }
      if n > WORKERS_MAX { n := WORKERS_MAX; }
    }
    serves := [];
    var i := 0;
    while i < n && i < created
      invariant 0 <= i <= n && i <= created && |serves| == i
      invariant forall k | 0 <= k < i :: serves[k] == k % nshard
    {
      serves := serves + [i % nshard];
      i := i + 1;
    }
    up := i >= nshard;
    forall k | 0 <= k < nshard && k < i ensures k in serves { SmallMod(k, nshard); assert serves[k] == k; }
    if !up {
      forall k | 0 <= k < i ensures serves[k] == k { SmallMod(k, nshard); }
      assert i !in serves;
    }
  }

  lemma SmallMod(k: nat, n: nat)
    requires k < n
    ensures k % n == k
  {
  }
}
