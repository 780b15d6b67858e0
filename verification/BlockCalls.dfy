/**
 An offload as its caller sees it, in any run of the machine of BlockPool: the job
 goes to the shard asked for, is served in turn, and the call comes back.
 */
module BlockCalls {
  import opened Options
  import opened Runs
  import opened BlockPool

  // ------------------------------------------------------------ the job

  /** Every job is some call's, on the shard that call asked for. */
  ghost predicate AllAsked(s: State, acts: seq<Action>, n: nat)
    requires n <= |acts|
  {
    forall j | j in s.jobs :: Call(s.jobs[j].f, s.jobs[j].shard) in acts[..n]
  }

  lemma StepAsked(s: State, acts: seq<Action>, n: nat)
    requires n < |acts| && Safe(s) && Enabled(s, acts[n]) && AllAsked(s, acts, n)
    ensures AllAsked(Apply(s, acts[n]), acts, n + 1)
  {
    assert acts[..n + 1] == acts[..n] + [acts[n]];
  }

  lemma {:induction false} JobIsAsked(ss: seq<State>, acts: seq<Action>, n: nat)
    requires Run(ss, acts) && n < |ss|
    ensures AllAsked(ss[n], acts, n)
  {
    if n == 0 {
      assert Init(ss[0]);
    } else {
      JobIsAsked(ss, acts, n - 1);
      assert Safe(ss[n - 1]) && Enabled(ss[n - 1], acts[n - 1]);
      StepAsked(ss[n - 1], acts, n - 1);
    }
  }

  /** The jobs ahead of j in this queue. */
  function Ahead(q: seq<Jid>, j: Jid): nat {
    if q == [] || j !in q || q[0] == j then 0 else 1 + Ahead(q[1..], j)
  }

  lemma {:induction false} AheadAppend(q: seq<Jid>, j: Jid, k: Jid)
    requires j in q
    ensures Ahead(q + [k], j) == Ahead(q, j)
  {
    if q[0] == j {
    } else {
      assert (q + [k])[1..] == q[1..] + [k];
      AheadAppend(q[1..], j, k);
    }
  }

  /** How many steps a queued job has left: takes of its queue until its turn, then its
      worker's. */
  function JobLeft(s: State, j: Jid): nat {
    if j !in s.jobs then 0
    else 8 - Rank(s.jobs[j].stage) + if s.jobs[j].shard < |s.shards| then Ahead(s.shards[s.jobs[j].shard], j) else 0
  }

  /** The step is job j's worker's, or a take from its queue. */
  predicate Serves(s: State, a: Action, j: Jid) {
    && j in s.jobs
    && match a
       case WorkerStep(j') => j' == j
       case Take(i) => s.jobs[j].stage.InQueue? && i == s.jobs[j].shard
       case _ => false
  }

  lemma WorkerMoves(s: State, k: Jid)
    requires Safe(s) && Enabled(s, WorkerStep(k))
    ensures var s' := WorkerApply(s, k);
            && s'.shards == s.shards && k in s'.jobs && s'.jobs[k].shard == s.jobs[k].shard
            && Rank(s'.jobs[k].stage) == Rank(s.jobs[k].stage) + 1 && s'.jobs == s.jobs[k := s'.jobs[k]]
  {
  }

  lemma TakeServes(s: State, i: nat, j: Jid)
    requires Inv(s) && Safe(s) && Enabled(s, Take(i)) && j in s.jobs && s.jobs[j].stage.InQueue? && s.jobs[j].shard == i
    ensures JobLeft(Apply(s, Take(i)), j) == JobLeft(s, j) - 1
  {
    assert ShardInv(i, s.shards[i], s.jobs);
    var q := s.shards[i];
    assert q == [q[0]] + q[1..];
    if q[0] == j { assert j !in q[1..]; }
  }

  /** Out of the queue, nothing is ahead. */
  lemma NoneAhead(s: State, j: Jid)
    requires Inv(s) && j in s.jobs && !s.jobs[j].stage.InQueue?
    ensures s.jobs[j].shard < |s.shards| ==> Ahead(s.shards[s.jobs[j].shard], j) == 0
  {
    var i := s.jobs[j].shard;
    if i < |s.shards| { assert ShardInv(i, s.shards[i], s.jobs); }
  }

  /** The fiber's step changes its own job only, and appends to one queue at most. */
  lemma FiberMoves(s: State, f: Fid, j: Jid)
    requires Inv(s) && Safe(s) && Enabled(s, FiberStep(f)) && j in s.jobs && Rank(s.jobs[j].stage) >= Rank(InQueue)
    ensures var s' := FiberApply(s, f);
            && j in s'.jobs && s'.jobs[j] == s.jobs[j] && |s'.shards| == |s.shards|
            && (forall i | 0 <= i < |s.shards| ::
                  s'.shards[i] == s.shards[i] || exists k :: k != j && s'.shards[i] == s.shards[i] + [k])
  {
    assert s.fibers[f].job != j || InLoop(s.fibers[f].pc) by { assert FiberInv(s.fibers[f], s.jobs[s.fibers[f].job].stage); }
    FiberTouches(s, f, j);
  }

  lemma FiberTouches(s: State, f: Fid, j: Jid)
    requires Safe(s) && Enabled(s, FiberStep(f)) && j in s.jobs && (s.fibers[f].job != j || InLoop(s.fibers[f].pc))
    ensures var s', k := FiberApply(s, f), s.fibers[f].job;
            && j in s'.jobs && s'.jobs[j] == s.jobs[j] && |s'.shards| == |s.shards|
            && (forall i | 0 <= i < |s.shards| :: s'.shards[i] == s.shards[i] || (k != j && s'.shards[i] == s.shards[i] + [k]))
  {
  }

  lemma FiberLeavesJob(s: State, f: Fid, j: Jid)
    requires Inv(s) && Safe(s) && Enabled(s, FiberStep(f)) && j in s.jobs && Rank(s.jobs[j].stage) >= Rank(InQueue)
    ensures JobLeft(FiberApply(s, f), j) == JobLeft(s, j)
  {
    FiberMoves(s, f, j);
    var i, s' := s.jobs[j].shard, FiberApply(s, f);
    if i < |s.shards| && s'.shards[i] != s.shards[i] {
      var k :| k != j && s'.shards[i] == s.shards[i] + [k];
      assert ShardInv(i, s.shards[i], s.jobs);
      if j in s.shards[i] { AheadAppend(s.shards[i], j, k); }
    }
  }

  lemma TakeLeaves(s: State, i: nat, j: Jid)
    requires Inv(s) && Safe(s) && Enabled(s, Take(i)) && j in s.jobs && Rank(s.jobs[j].stage) >= Rank(InQueue)
    requires !Serves(s, Take(i), j)
    ensures JobLeft(Apply(s, Take(i)), j) == JobLeft(s, j)
  {
    assert ShardInv(i, s.shards[i], s.jobs);
    if s.jobs[j].shard == i {
      NoneAhead(s, j);
      assert j !in s.shards[i] && j !in s.shards[i][1..];
    }
  }

  /** A step that serves a queued job brings it nearer its end by one, and no other step
      sets it back. */
  lemma JobAdvances(s: State, a: Action, j: Jid)
    requires Inv(s) && Safe(s) && Enabled(s, a) && j in s.jobs && Rank(s.jobs[j].stage) >= Rank(InQueue)
    ensures j in Apply(s, a).jobs && Rank(Apply(s, a).jobs[j].stage) >= Rank(InQueue)
    ensures JobLeft(Apply(s, a), j) + (if Serves(s, a, j) then 1 else 0) <= JobLeft(s, j)
  {
    match a {
      case Call(_, _) =>
      case FiberStep(f) =>
        FiberMoves(s, f, j);
        FiberLeavesJob(s, f, j);
      case Take(i) => if Serves(s, a, j) { TakeServes(s, i, j); } else { TakeLeaves(s, i, j); }
      case WorkerStep(k) => WorkerMoves(s, k);
      case _ =>
    }
  }

  ghost predicate Queued(s: State, j: Jid) { j in s.jobs && Rank(s.jobs[j].stage) >= Rank(InQueue) }

  lemma JobAt(ss: seq<State>, acts: seq<Action>, k: nat, j: Jid)
    requires Run(ss, acts) && k < |acts| && Queued(ss[k], j)
    ensures Queued(ss[k + 1], j) && JobLeft(ss[k + 1], j) + (if Serves(ss[k], acts[k], j) then 1 else 0) <= JobLeft(ss[k], j)
  {
    assert Safe(ss[k]) && Enabled(ss[k], acts[k]);
    RunKeepsInv(ss, acts, k);
    JobAdvances(ss[k], acts[k], j);
  }

  ghost function Queueds(ss: seq<State>, j: Jid): (b: seq<bool>)
    ensures |b| == |ss| && forall k | 0 <= k < |ss| :: b[k] == Queued(ss[k], j)
  {
    seq(|ss|, k requires 0 <= k < |ss| => Queued(ss[k], j))
  }

  function JobLefts(ss: seq<State>, j: Jid): (left: seq<nat>)
    ensures |left| == |ss| && forall k | 0 <= k < |ss| :: left[k] == JobLeft(ss[k], j)
  {
    seq(|ss|, k requires 0 <= k < |ss| => JobLeft(ss[k], j))
  }

  function Serving(ss: seq<State>, acts: seq<Action>, j: Jid): (own: seq<bool>)
    requires |acts| <= |ss|
    ensures |own| == |acts| && forall k | 0 <= k < |acts| :: own[k] == Serves(ss[k], acts[k], j)
  {
    seq(|acts|, k requires 0 <= k < |acts| => Serves(ss[k], acts[k], j))
  }

  lemma QueuedStays(ss: seq<State>, acts: seq<Action>, n: nat, m: nat, j: Jid)
    requires Run(ss, acts) && n <= m < |ss| && Queued(ss[n], j)
    ensures Queued(ss[m], j)
  {
    var b := Queueds(ss, j);
    forall k | n <= k < m ensures b[k] ==> b[k + 1] {
      if b[k] { JobAt(ss, acts, k, j); }
    }
    Carry(b, n, m);
  }

  lemma QueuedAdvances(ss: seq<State>, acts: seq<Action>, n: nat, k: nat, j: Jid)
    requires Run(ss, acts) && n <= k < |acts| && Queued(ss[n], j)
    ensures JobLeft(ss[k + 1], j) + (if Serves(ss[k], acts[k], j) then 1 else 0) <= JobLeft(ss[k], j)
  {
    QueuedStays(ss, acts, n, k, j);
    JobAt(ss, acts, k, j);
  }

  lemma RetiredIffNoneLeft(s: State, j: Jid)
    requires Queued(s, j) && JobLeft(s, j) == 0
    ensures s.jobs[j].stage.Retired?
  {
  }

  /** A queued job is served in turn: whatever else happens, once as many steps have
      served it as it had left, its worker has run it, woken its fiber and retired it. */
  lemma JobRetires(ss: seq<State>, acts: seq<Action>, n: nat, m: nat, j: Jid)
    requires Run(ss, acts) && n <= m < |ss| && Queued(ss[n], j)
    ensures Queued(ss[m], j) && Runs.Own(Serving(ss, acts, j), n, m) + JobLeft(ss[m], j) <= JobLeft(ss[n], j)
    ensures Runs.Own(Serving(ss, acts, j), n, m) >= JobLeft(ss[n], j) ==> ss[m].jobs[j].stage.Retired?
  {
    var left, own := JobLefts(ss, j), Serving(ss, acts, j);
    forall k | n <= k < m ensures left[k + 1] + (if own[k] then 1 else 0) <= left[k] {
      QueuedAdvances(ss, acts, n, k, j);
    }
    Spent(left, own, n, m);
    QueuedStays(ss, acts, n, m, j);
    if left[m] == 0 { RetiredIffNoneLeft(ss[m], j); }
  }

  // ------------------------------------------------------------ the caller

  /** Its first two steps put the job at the end of its queue. */
  lemma SubmitAdvances(s: State, f: Fid)
    requires Inv(s) && Safe(s) && Enabled(s, FiberStep(f)) && (s.fibers[f].pc.Count? || s.fibers[f].pc.Enqueue?)
    ensures var j, s' := s.fibers[f].job, FiberApply(s, f);
            && j in s'.jobs && Rank(s'.jobs[j].stage) == Rank(s.jobs[j].stage) + 1
            && (s.fibers[f].pc.Enqueue? ==> s'.shards[s.jobs[j].shard] == s.shards[s.jobs[j].shard] + [j])
  {
    assert FiberInv(s.fibers[f], s.jobs[s.fibers[f].job].stage);
  }

  function ParkLeft(pc: Pc): nat {
    match pc
    case Idle => 0
    case Test => 1
    case Eat => 2
    case Park0 => 2
    case Yielded => 3
    case Park3 => 4
    case Park2 => 5
    case Park1 => 6
    case _ => 7
  }

  /** Fiber f is in call j, and its worker has woken it. */
  ghost predicate Woken(s: State, f: Fid, j: Jid) {
    f in s.fibers && j in s.jobs && Rank(s.jobs[j].stage) >= Rank(Signalled) && s.jobs[j].f == f && BlockPool.Own(s.fibers[f], j)
  }

  lemma WokenStep(fb: Fiber, st: Stage)
    requires FiberInv(fb, st) && Rank(st) >= Rank(Signalled) && InLoop(fb.pc)
    ensures ParkLeft(ParkStep(fb, true).pc) < ParkLeft(fb.pc)
  {
  }

  lemma WorkerLeavesPc(s: State, k: Jid, f: Fid)
    requires Safe(s) && Enabled(s, WorkerStep(k)) && f in s.fibers
    ensures var s' := WorkerApply(s, k);
            f in s'.fibers && s'.fibers[f].pc == s.fibers[f].pc && s'.fibers[f].job == s.fibers[f].job
  {
  }

  lemma OthersLeavePc(s: State, a: Action, f: Fid)
    requires Safe(s) && Enabled(s, a) && f in s.fibers && !s.fibers[f].pc.Idle? && a != FiberStep(f)
    ensures var s' := Apply(s, a); f in s'.fibers && s'.fibers[f].pc == s.fibers[f].pc && s'.fibers[f].job == s.fibers[f].job
  {
    if a.WorkerStep? { WorkerLeavesPc(s, a.j, f); }
  }

  /** A woken call's job has gone all the way. */
  lemma StaysSignalled(s: State, a: Action, j: Jid)
    requires Inv(s) && Safe(s) && Enabled(s, a) && j in s.jobs && Rank(s.jobs[j].stage) >= Rank(Signalled)
    ensures j in Apply(s, a).jobs && Rank(Apply(s, a).jobs[j].stage) >= Rank(Signalled) && Apply(s, a).jobs[j].f == s.jobs[j].f
  {
    match a {
      case FiberStep(f) => FiberMoves(s, f, j);
      case WorkerStep(k) => WorkerKeepsFiber(s, k);
      case Take(i) => assert ShardInv(i, s.shards[i], s.jobs);
      case _ =>
    }
  }

  lemma WorkerKeepsFiber(s: State, k: Jid)
    requires Safe(s) && Enabled(s, WorkerStep(k))
    ensures var s' := WorkerApply(s, k);
            && k in s'.jobs && s'.jobs[k].f == s.jobs[k].f && s'.jobs == s.jobs[k := s'.jobs[k]]
            && Rank(s'.jobs[k].stage) == Rank(s.jobs[k].stage) + 1
  {
  }

  lemma WokenAdvances(s: State, a: Action, f: Fid, j: Jid)
    requires Inv(s) && Safe(s) && Enabled(s, a) && Woken(s, f, j)
    ensures f in Apply(s, a).fibers
    ensures ParkLeft(Apply(s, a).fibers[f].pc) + (if a == FiberStep(f) then 1 else 0) <= ParkLeft(s.fibers[f].pc)
    ensures Woken(Apply(s, a), f, j) || Apply(s, a).fibers[f].pc.Idle?
  {
    StaysSignalled(s, a, j);
    if a == FiberStep(f) {
      assert FiberInv(s.fibers[f], s.jobs[j].stage);
      WokenStep(s.fibers[f], s.jobs[j].stage);
      assert Apply(s, a).fibers[f] == ParkStep(s.fibers[f], true);
    } else {
      OthersLeavePc(s, a, f);
    }
  }

  lemma WokenAt(ss: seq<State>, acts: seq<Action>, k: nat, f: Fid, j: Jid)
    requires Run(ss, acts) && k < |acts| && Woken(ss[k], f, j)
    ensures f in ss[k + 1].fibers && (Woken(ss[k + 1], f, j) || ss[k + 1].fibers[f].pc.Idle?)
    ensures ParkLeft(ss[k + 1].fibers[f].pc) + (if acts[k] == FiberStep(f) then 1 else 0) <= ParkLeft(ss[k].fibers[f].pc)
  {
    assert Safe(ss[k]) && Enabled(ss[k], acts[k]);
    RunKeepsInv(ss, acts, k);
    WokenAdvances(ss[k], acts[k], f, j);
  }

  function ParkLefts(ss: seq<State>, f: Fid): (left: seq<nat>)
    ensures |left| == |ss| && forall k | 0 <= k < |ss| :: left[k] == if f in ss[k].fibers then ParkLeft(ss[k].fibers[f].pc) else 0
  {
    seq(|ss|, k requires 0 <= k < |ss| => if f in ss[k].fibers then ParkLeft(ss[k].fibers[f].pc) else 0)
  }

  function Mine(acts: seq<Action>, f: Fid): (own: seq<bool>)
    ensures |own| == |acts| && forall k | 0 <= k < |acts| :: own[k] == (acts[k] == FiberStep(f))
  {
    seq(|acts|, k requires 0 <= k < |acts| => acts[k] == FiberStep(f))
  }

  ghost function Wokens(ss: seq<State>, f: Fid, j: Jid): (b: seq<bool>)
    ensures |b| == |ss| && forall k | 0 <= k < |ss| :: b[k] == Woken(ss[k], f, j)
  {
    seq(|ss|, k requires 0 <= k < |ss| => Woken(ss[k], f, j))
  }

  /** From n to m the call has not returned. */
  ghost predicate Out(ss: seq<State>, n: nat, m: nat, f: Fid) {
    forall k | n < k <= m && k < |ss| :: f in ss[k].fibers && !ss[k].fibers[f].pc.Idle?
  }

  lemma WokenStays(ss: seq<State>, acts: seq<Action>, n: nat, m: nat, f: Fid, j: Jid)
    requires Run(ss, acts) && n <= m < |ss| && Woken(ss[n], f, j) && Out(ss, n, m, f)
    ensures Woken(ss[m], f, j)
  {
    var b := Wokens(ss, f, j);
    forall k | n <= k < m ensures b[k] ==> b[k + 1] {
      if b[k] { WokenAt(ss, acts, k, f, j); }
    }
    Carry(b, n, m);
  }

  lemma OutAdvances(ss: seq<State>, acts: seq<Action>, n: nat, k: nat, f: Fid, j: Jid)
    requires Run(ss, acts) && n <= k < |acts| && Woken(ss[n], f, j) && Out(ss, n, k, f)
    ensures f in ss[k].fibers && f in ss[k + 1].fibers
    ensures ParkLeft(ss[k + 1].fibers[f].pc) + (if acts[k] == FiberStep(f) then 1 else 0) <= ParkLeft(ss[k].fibers[f].pc)
  {
    WokenStays(ss, acts, n, k, f, j);
    WokenAt(ss, acts, k, f, j);
  }

  lemma OutHasLeft(ss: seq<State>, acts: seq<Action>, n: nat, m: nat, f: Fid, j: Jid)
    requires Run(ss, acts) && n <= m < |ss| && Woken(ss[n], f, j) && Out(ss, n, m, f)
    ensures f in ss[n].fibers && ParkLeft(ss[n].fibers[f].pc) <= 7
    ensures f in ss[m].fibers && ParkLeft(ss[m].fibers[f].pc) > 0
  {
    WokenStays(ss, acts, n, m, f, j);
  }

  /** Once its worker has woken it, a call returns within seven steps of its own,
      whatever stray wakes it gets: as long as it is out, it has taken fewer. */
  lemma WokenReturns(ss: seq<State>, acts: seq<Action>, n: nat, m: nat, f: Fid, j: Jid)
    requires Run(ss, acts) && n <= m < |ss| && Woken(ss[n], f, j) && Out(ss, n, m, f)
    ensures Runs.Own(Mine(acts, f), n, m) < 7
  {
    var left, own := ParkLefts(ss, f), Mine(acts, f);
    forall k | n <= k < m ensures left[k + 1] + (if own[k] then 1 else 0) <= left[k] {
      OutAdvances(ss, acts, n, k, f, j);
    }
    Spent(left, own, n, m);
    OutHasLeft(ss, acts, n, m, f, j);
  }
}
