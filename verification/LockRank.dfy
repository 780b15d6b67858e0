/**
 The lock-rank checker (runloom_diag.c:740-837, runloom_lockrank.h): a per-thread
 array of held ranks whose silence is meant to rule out deadlock.
 */
module LockRank {
  import opened Options

  const DEPTH: nat := 32

  /** The ranks of runloom_lock_rank_t. */
  const RANKS: set<int> :=
    {5, 10, 15, 20, 30, 35, 40, 50, 55, 60, 70, 80, 85, 86, 87, 88, 90, 100, 110, 120, 130, 140}

  // ------------------------------------------------- the array, as a sequence

  /** The first held rank that is not below the one being acquired. */
  function Conflict(held: seq<int>, rank: int): (r: Option<int>)
    ensures r.None? <==> forall i | 0 <= i < |held| :: held[i] < rank
  {
    if held == [] then None else if held[0] >= rank then Some(held[0])
    else
      var r := Conflict(held[1..], rank);
      assert forall i | 1 <= i < |held| :: held[i] == held[1..][i - 1];
      r
  }

  function Pushed(held: seq<int>, rank: int): seq<int> {
    if |held| < DEPTH then held + [rank] else held
  }

  /** Without the topmost entry of this rank, if there is one. */
  function Popped(held: seq<int>, rank: int): seq<int> {
    if held == [] then []
    else
      var n := |held| - 1;
      if held[n] == rank then held[..n] else Popped(held[..n], rank) + [held[n]]
  }

  lemma {:induction false} PoppedAt(held: seq<int>, rank: int, i: nat)
    requires i < |held| && held[i] == rank && rank !in held[i + 1..]
    ensures Popped(held, rank) == held[..i] + held[i + 1..]
  {
    var n := |held| - 1;
    if i == n {
    } else {
      assert held[n] in held[i + 1..];
      assert held[..n][i + 1..] + [held[n]] == held[i + 1..];
      PoppedAt(held[..n], rank, i);
      assert held[..n][..i] == held[..i];
    }
  }

  lemma {:induction false} PoppedAbsent(held: seq<int>, rank: int)
    requires rank !in held
    ensures Popped(held, rank) == held
  {
    if held == [] {
    } else {
      PoppedAbsent(held[..|held| - 1], rank);
    }
  }

  /** What the thread-local array and its two users do. */
  class HeldRanks {
    const held: array<int>
    var depth: nat
    var noYield: int

    ghost predicate Valid()
      reads this
    {
      held.Length == DEPTH && depth <= DEPTH
    }

    ghost function Ranks(): seq<int>
      requires Valid()
      reads this, held
    {
      held[..depth]
    }

    constructor ()
      ensures Valid() && fresh(held) && Ranks() == [] && noYield == 0
    {
      held := new int[DEPTH];
      depth, noYield := 0, 0;
    }

    /** `runloom_lockrank_push`, and the held rank it reports, if any. */
    method Push(rank: int) returns (reported: Option<int>)
      requires Valid()
      modifies this`depth, held
      ensures Valid() && Ranks() == Pushed(old(Ranks()), rank) && reported == Conflict(old(Ranks()), rank)
    {
      reported := None;
      var i := 0;
      while i < depth && reported.None?
        invariant 0 <= i <= depth && held[..] == old(held[..]) && depth == old(depth)
        invariant reported.None? ==> Conflict(Ranks(), rank) == Conflict(Ranks()[i..], rank)
        invariant reported.Some? ==> reported == Conflict(Ranks(), rank)
      {
        assert Ranks()[i..][0] == held[i] && Ranks()[i..][1..] == Ranks()[i + 1..];
        if held[i] >= rank { reported := Some(held[i]); }
        i := i + 1;
      }
      if depth < DEPTH {
        held[depth] := rank;
        depth := depth + 1;
      }
    }

    /** `runloom_lockrank_pop`: search from the top, close the gap. */
    method Pop(rank: int)
      requires Valid()
      modifies this`depth, held
      ensures Valid() && Ranks() == Popped(old(Ranks()), rank)
    {
      ghost var was := Ranks();
      var i := depth;
      while i > 0
        invariant 0 <= i <= depth && depth == old(depth) && Ranks() == was && rank !in was[i..]
      {
        i := i - 1;
        if held[i] == rank {
          CloseGap(i);
          PoppedAt(was, rank, i);
          return;
        }
        assert was[i..] == [was[i]] + was[i + 1..];
      }
      assert was[0..] == was;
      PoppedAbsent(was, rank);
    }

    /** The shift that removes entry i. */
    method CloseGap(i: nat)
      requires Valid() && i < depth
      modifies this`depth, held
      ensures Valid() && Ranks() == old(Ranks())[..i] + old(Ranks())[i + 1..]
    {
      ghost var was := Ranks();
      var j := i;
      while j < depth - 1
        invariant i <= j <= depth - 1 && depth == old(depth)
        invariant held[..j] == was[..i] + was[i + 1..j + 1]
        invariant held[j..depth] == was[j..]
      {
        assert held[j + 1] == held[j..depth][1] == was[j + 1];
        held[j] := held[j + 1];
        assert held[j + 1..depth] == was[j + 1..];
        j := j + 1;
      }
      depth := depth - 1;
    }

    /** `runloom_ctx_assert_parkable`: what it reports before a yield, if
        anything: the topmost held rank, or 0 for a no-yield region. */
    method AssertParkable() returns (reported: Option<int>)
      requires Valid()
      ensures reported.None? <==> Ranks() == [] && noYield <= 0
      ensures Ranks() != [] ==> reported == Some(Ranks()[|Ranks()| - 1])
    {
      if depth > 0 { return Some(held[depth - 1]); }
      else if noYield > 0 { return Some(0); }
      return None;
    }
  }

  // ----------------------------------------------- many threads, many locks

  type Tid = nat
  type Lock = nat

  /** What a thread is in the middle of: RLOCK has pushed and waits for the mutex,
      RUNLOCK has released it and is about to pop. */
  datatype Busy = No | WaitingFor(l: Lock) | Releasing(l: Lock)

  /** `held` is the checker's array; `sites` is history: the lock each of its
      entries stands for. */
  datatype Thread = Thread(held: seq<int>, busy: Busy, sites: seq<Lock>)

  datatype State = State(rank: map<Lock, int>, owner: map<Lock, Tid>, threads: map<Tid, Thread>)

  datatype Action =
    | Request(t: Tid, l: Lock)
    | Acquire(t: Tid)
    | Unlock(t: Tid, l: Lock)
    | Pop(t: Tid)

  ghost predicate Enabled(s: State, a: Action) {
    && a.t in s.threads
    && match a
       case Request(t, l) => s.threads[t].busy.No? && l in s.rank
       case Acquire(t) => s.threads[t].busy.WaitingFor? && s.threads[t].busy.l !in s.owner
       case Unlock(t, l) => s.threads[t].busy.No? && l in s.owner && s.owner[l] == t
       case Pop(t) => s.threads[t].busy.Releasing? && s.threads[t].busy.l in s.rank
  }

  /** The push of this step reports nothing. */
  predicate Silent(s: State, a: Action) {
    a.Request? && a.t in s.threads && a.l in s.rank ==> Conflict(s.threads[a.t].held, s.rank[a.l]).None?
  }

  function Without(sites: seq<Lock>, l: Lock): seq<Lock> {
    if sites == [] then [] else if sites[0] == l then sites[1..] else [sites[0]] + Without(sites[1..], l)
  }

  function Apply(s: State, a: Action): State
    requires Enabled(s, a)
  {
    var th := s.threads[a.t];
    match a
    case Request(t, l) =>
      s.(threads := s.threads[t := Thread(Pushed(th.held, s.rank[l]), WaitingFor(l), th.sites + [l])])
    case Acquire(t) => s.(owner := s.owner[th.busy.l := t], threads := s.threads[t := th.(busy := No)])
    case Unlock(t, l) => s.(owner := s.owner - {l}, threads := s.threads[t := th.(busy := Releasing(l))])
    case Pop(t) =>
      s.(threads := s.threads[t := Thread(Popped(th.held, s.rank[th.busy.l]), No, Without(th.sites, th.busy.l))])
  }

  ghost predicate Init(s: State) {
    && (forall l | l in s.rank :: s.rank[l] in RANKS) && s.owner == map[]
    && forall t | t in s.threads :: s.threads[t] == Thread([], No, [])
  }

  // ------------------------------------------------------------- invariant

  predicate Increasing(q: seq<int>) { forall i, j | 0 <= i < j < |q| :: q[i] < q[j] }

  /** The array spells out the ranks of `sites`, increasing. */
  predicate Spells(th: Thread, rank: map<Lock, int>) {
    && |th.held| == |th.sites| && Increasing(th.held)
    && forall i | 0 <= i < |th.sites| :: th.sites[i] in rank && th.held[i] == rank[th.sites[i]]
  }

  /** `sites` are the locks t owns and the one it is in the middle of. */
  ghost predicate SitesOk(t: Tid, th: Thread, owner: map<Lock, Tid>) {
    && (forall l :: l in th.sites <==> (l in owner && owner[l] == t) || th.busy == WaitingFor(l) || th.busy == Releasing(l))
    && (!th.busy.No? ==> !(th.busy.l in owner && owner[th.busy.l] == t))
    && (th.busy.WaitingFor? ==> th.sites != [] && th.sites[|th.sites| - 1] == th.busy.l)
  }

  ghost predicate Inv(s: State) {
    && (forall l | l in s.rank :: s.rank[l] in RANKS)
    && (forall l | l in s.owner :: s.owner[l] in s.threads)
    && (forall t | t in s.threads :: Spells(s.threads[t], s.rank) && SitesOk(t, s.threads[t], s.owner))
  }

  /** An increasing sequence of ranks is no longer than there are ranks. */
  lemma {:induction false} Pigeonhole(q: seq<int>, ranks: set<int>)
    requires Increasing(q) && forall i | 0 <= i < |q| :: q[i] in ranks
    ensures |q| <= |ranks|
  {
    if q == [] {
    } else {
      var n := |q| - 1;
      Pigeonhole(q[..n], ranks - {q[n]});
    }
  }

  lemma RanksFit()
    ensures |RANKS| < DEPTH
  {
  }

  /** So silent pushes never find the array full. */
  lemma PushFits(th: Thread, rank: map<Lock, int>, l: Lock)
    requires Spells(th, rank) && (forall k | k in rank :: rank[k] in RANKS) && l in rank
    requires Conflict(th.held, rank[l]).None?
    ensures |th.held| < DEPTH && Spells(Thread(Pushed(th.held, rank[l]), WaitingFor(l), th.sites + [l]), rank)
  {
    Pigeonhole(th.held, RANKS);
    RanksFit();
  }

  lemma {:induction false} WithoutAt(sites: seq<Lock>, l: Lock, i: nat)
    requires i < |sites| && sites[i] == l && l !in sites[..i]
    ensures Without(sites, l) == sites[..i] + sites[i + 1..]
  {
    if i == 0 {
    } else {
      assert sites[0] in sites[..i];
      assert sites[1..][..i - 1] == sites[..i][1..];
      WithoutAt(sites[1..], l, i - 1);
      assert [sites[0]] + sites[1..][..i - 1] == sites[..i] && sites[1..][i..] == sites[i + 1..];
    }
  }

  function Up(i: nat, j: nat): nat { if j < i then j else j + 1 }

  /** Taking out entry i of both sequences. */
  lemma RemoveAt(th: Thread, rank: map<Lock, int>, i: nat)
    requires Spells(th, rank) && i < |th.held|
    ensures Spells(Thread(th.held[..i] + th.held[i + 1..], No, th.sites[..i] + th.sites[i + 1..]), rank)
  {
    var held, sites := th.held[..i] + th.held[i + 1..], th.sites[..i] + th.sites[i + 1..];
    assert forall j | 0 <= j < |held| :: held[j] == th.held[Up(i, j)] && sites[j] == th.sites[Up(i, j)];
  }

  lemma MembersAfter(sites: seq<Lock>, i: nat)
    requires i < |sites| && forall j | 0 <= j < |sites| && j != i :: sites[j] != sites[i]
    ensures forall k :: k in sites[..i] + sites[i + 1..] <==> k in sites && k != sites[i]
  {
    var rest := sites[..i] + sites[i + 1..];
    assert forall j | 0 <= j < |rest| :: rest[j] == sites[Up(i, j)];
    forall k ensures k in rest <==> k in sites && k != sites[i] {
      if k in sites && k != sites[i] {
        var j :| 0 <= j < |sites| && sites[j] == k;
        assert rest[if j < i then j else j - 1] == k;
      }
    }
  }

  lemma SitesDistinct(th: Thread, rank: map<Lock, int>, i: nat)
    requires Spells(th, rank) && i < |th.sites|
    ensures forall j | 0 <= j < |th.sites| && j != i :: th.sites[j] != th.sites[i] && th.held[j] != th.held[i]
  {
  }

  /** A release in any order takes out exactly the released lock's entry. */
  lemma PopExact(th: Thread, rank: map<Lock, int>, l: Lock)
    requires Spells(th, rank) && l in th.sites && l in rank
    ensures Spells(Thread(Popped(th.held, rank[l]), No, Without(th.sites, l)), rank)
    ensures forall k :: k in Without(th.sites, l) <==> k in th.sites && k != l
  {
    var i :| 0 <= i < |th.sites| && th.sites[i] == l;
    SitesDistinct(th, rank, i);
    PoppedAt(th.held, rank[l], i);
    WithoutAt(th.sites, l, i);
    RemoveAt(th, rank, i);
    MembersAfter(th.sites, i);
  }

  /** A thread's step that moves lock l, and its own record, only. */
  lemma ThreadStep(s: State, s': State, t: Tid, l: Lock)
    requires Inv(s) && t in s.threads && t in s'.threads && s'.rank == s.rank
    requires s'.threads == s.threads[t := s'.threads[t]]
    requires forall k | k != l :: (k in s'.owner <==> k in s.owner) && (k in s.owner ==> s'.owner[k] == s.owner[k])
    requires s'.owner == s.owner || ((l in s.owner ==> s.owner[l] == t) && (l in s'.owner ==> s'.owner[l] == t))
    requires Spells(s'.threads[t], s.rank) && SitesOk(t, s'.threads[t], s'.owner)
    ensures Inv(s')
  {
    forall u | u in s'.threads ensures Spells(s'.threads[u], s.rank) && SitesOk(u, s'.threads[u], s'.owner) {
      if u != t { assert Spells(s.threads[u], s.rank) && SitesOk(u, s.threads[u], s.owner); }
    }
  }

  lemma RequestKeepsInv(s: State, t: Tid, l: Lock)
    requires Inv(s) && Enabled(s, Request(t, l)) && Silent(s, Request(t, l))
    ensures Inv(Apply(s, Request(t, l)))
  {
    var th := s.threads[t];
    assert Spells(th, s.rank) && SitesOk(t, th, s.owner);
    PushFits(th, s.rank, l);
    forall i | 0 <= i < |th.sites| ensures th.sites[i] != l { assert th.held[i] < s.rank[l]; }
    var s' := Apply(s, Request(t, l));
    assert SitesOk(t, s'.threads[t], s.owner);
    ThreadStep(s, s', t, l);
  }

  lemma AcquireKeepsInv(s: State, t: Tid)
    requires Inv(s) && Enabled(s, Acquire(t))
    ensures Inv(Apply(s, Acquire(t)))
  {
    var th := s.threads[t];
    assert Spells(th, s.rank) && SitesOk(t, th, s.owner);
    ThreadStep(s, Apply(s, Acquire(t)), t, th.busy.l);
  }

  lemma UnlockKeepsInv(s: State, t: Tid, l: Lock)
    requires Inv(s) && Enabled(s, Unlock(t, l))
    ensures Inv(Apply(s, Unlock(t, l)))
  {
    assert Spells(s.threads[t], s.rank) && SitesOk(t, s.threads[t], s.owner);
    ThreadStep(s, Apply(s, Unlock(t, l)), t, l);
  }

  lemma PopKeepsInv(s: State, t: Tid)
    requires Inv(s) && Enabled(s, Pop(t))
    ensures Inv(Apply(s, Pop(t)))
  {
    var th := s.threads[t];
    assert Spells(th, s.rank) && SitesOk(t, th, s.owner);
    PopExact(th, s.rank, th.busy.l);
    ThreadStep(s, Apply(s, Pop(t)), t, th.busy.l);
  }

  lemma StepKeepsInv(s: State, a: Action)
    requires Inv(s) && Enabled(s, a) && Silent(s, a)
    ensures Inv(Apply(s, a))
  {
    match a {
      case Request(t, l) => RequestKeepsInv(s, t, l);
      case Acquire(t) => AcquireKeepsInv(s, t);
      case Unlock(t, l) => UnlockKeepsInv(s, t, l);
      case Pop(t) => PopKeepsInv(s, t);
    }
  }

  ghost predicate SilentRun(ss: seq<State>, acts: seq<Action>) {
    && |ss| == |acts| + 1 && Init(ss[0])
    && forall i | 0 <= i < |acts| ::
         Enabled(ss[i], acts[i]) && Silent(ss[i], acts[i]) && ss[i + 1] == Apply(ss[i], acts[i])
  }

  lemma {:induction false} RunKeepsInv(ss: seq<State>, acts: seq<Action>, n: nat)
    requires SilentRun(ss, acts) && n < |ss|
    ensures Inv(ss[n])
  {
    if n == 0 {
      assert Init(ss[0]);
    } else {
      RunKeepsInv(ss, acts, n - 1);
      assert Enabled(ss[n - 1], acts[n - 1]);
      StepKeepsInv(ss[n - 1], acts[n - 1]);
    }
  }

  /** Some run without a report leads to this state. */
  ghost predicate Reachable(s: State) {
    exists ss, acts :: SilentRun(ss, acts) && ss[|acts|] == s
  }

  lemma ReachableInv(s: State)
    requires Reachable(s)
    ensures Inv(s)
  {
    var ss, acts :| SilentRun(ss, acts) && ss[|acts|] == s;
    RunKeepsInv(ss, acts, |acts|);
  }

  // ------------------------------------------------------------ the theorems

  /** Thread t waits for a lock that u owns. */
  ghost predicate WaitsFor(s: State, t: Tid, u: Tid) {
    && t in s.threads && u in s.threads && s.threads[t].busy.WaitingFor?
    && s.threads[t].busy.l in s.owner && s.owner[s.threads[t].busy.l] == u
  }

  ghost function WaitedRank(s: State, t: Tid): int {
    if t in s.threads && s.threads[t].busy.WaitingFor? && s.threads[t].busy.l in s.rank
    then s.rank[s.threads[t].busy.l] else 0
  }

  /** Along every edge between waiting threads, the waited-for rank grows. */
  lemma RanksGrow(s: State, t: Tid, u: Tid)
    requires Inv(s) && WaitsFor(s, t, u) && s.threads[u].busy.WaitingFor?
    ensures 0 < WaitedRank(s, t) < WaitedRank(s, u)
  {
    var th := s.threads[u];
    var l := s.threads[t].busy.l;
    assert SitesOk(u, th, s.owner) && Spells(th, s.rank) && SitesOk(t, s.threads[t], s.owner) && Spells(s.threads[t], s.rank);
    var i :| 0 <= i < |th.sites| && th.sites[i] == l;
    assert th.sites[|th.sites| - 1] == th.busy.l != l;
    assert th.held[i] < th.held[|th.sites| - 1];
    assert s.rank[l] in RANKS;
  }

  ghost predicate WaitPath(s: State, path: seq<Tid>) {
    forall i | 0 <= i < |path| - 1 :: WaitsFor(s, path[i], path[i + 1])
  }

  lemma {:induction false} PathGrows(s: State, path: seq<Tid>, n: nat)
    requires Inv(s) && WaitPath(s, path) && 0 < n < |path| - 1
    ensures WaitedRank(s, path[0]) < WaitedRank(s, path[n])
  {
    assert WaitsFor(s, path[n - 1], path[n]) && WaitsFor(s, path[n], path[n + 1]);
    RanksGrow(s, path[n - 1], path[n]);
    if n == 1 {
    } else {
      PathGrows(s, path, n - 1);
    }
  }

  /** No cycle in the wait-for graph, of any length. */
  lemma NoCycle(s: State, path: seq<Tid>)
    requires Reachable(s) && WaitPath(s, path) && |path| >= 2
    ensures path[0] != path[|path| - 1]
  {
    ReachableInv(s);
    assert WaitsFor(s, path[0], path[1]);
    if path[0] == path[|path| - 1] {
      if |path| == 2 {
        RanksGrow(s, path[0], path[0]);
      } else {
        PathGrows(s, path, |path| - 2);
        assert WaitsFor(s, path[|path| - 2], path[|path| - 1]);
        RanksGrow(s, path[|path| - 2], path[0]);
      }
    }
  }

  /** A waiting thread's lock is ranked. */
  lemma WaitsForRanked(s: State, t: Tid)
    requires Inv(s) && t in s.threads && s.threads[t].busy.WaitingFor?
    ensures 0 < WaitedRank(s, t) <= 140
    ensures s.threads[t].busy.l in s.owner ==> s.owner[s.threads[t].busy.l] in s.threads
  {
    assert SitesOk(t, s.threads[t], s.owner) && Spells(s.threads[t], s.rank);
    assert s.rank[s.threads[t].busy.l] in RANKS;
  }

  /** The thread can go on: it is not waiting, or what it waits for is free. */
  ghost predicate CanGoOn(s: State, t: Tid) {
    t in s.threads && (s.threads[t].busy.WaitingFor? ==> Enabled(s, Acquire(t)))
  }

  lemma {:induction false} WaitChain(s: State, t: Tid) returns (path: seq<Tid>)
    requires Inv(s) && t in s.threads
    ensures |path| > 0 && path[0] == t && WaitPath(s, path) && CanGoOn(s, path[|path| - 1])
    decreases if s.threads[t].busy.WaitingFor? then 141 - WaitedRank(s, t) else 0
  {
    path := [t];
    if s.threads[t].busy.WaitingFor? {
      WaitsForRanked(s, t);
      if s.threads[t].busy.l in s.owner {
        var u := s.owner[s.threads[t].busy.l];
        assert WaitsFor(s, t, u);
        if s.threads[u].busy.WaitingFor? { RanksGrow(s, t, u); }
        var rest := WaitChain(s, u);
        path := [t] + rest;
      }
    }
  }

  /** No deadlock: following from any thread who waits for whom, one comes to a
      thread that can go on. */
  lemma SomebodyRuns(s: State, t: Tid) returns (path: seq<Tid>)
    requires Reachable(s) && t in s.threads
    ensures |path| > 0 && path[0] == t && WaitPath(s, path) && CanGoOn(s, path[|path| - 1])
  {
    ReachableInv(s);
    path := WaitChain(s, t);
  }

  /** The array holds exactly the ranks of the locks its thread owns, give or take
      the one RLOCK or RUNLOCK is in the middle of, in the order of the ranks,
      with room to spare; a thread with an empty array owns no ranked lock. */
  lemma ArrayIsExact(s: State, t: Tid)
    requires Reachable(s) && t in s.threads && s.threads[t].busy.No?
    ensures Increasing(s.threads[t].held) && |s.threads[t].held| < DEPTH
    ensures forall l | l in s.owner && s.owner[l] == t :: l in s.rank && s.rank[l] in s.threads[t].held
    ensures forall r | r in s.threads[t].held ::
              exists l :: l in s.owner && s.owner[l] == t && l in s.rank && s.rank[l] == r
    ensures s.threads[t].held == [] <==> forall l | l in s.owner :: s.owner[l] != t
  {
    ReachableInv(s);
    var th := s.threads[t];
    assert Spells(th, s.rank) && SitesOk(t, th, s.owner);
    forall i | 0 <= i < |th.held| ensures th.held[i] in RANKS { assert th.sites[i] in s.rank; }
    Pigeonhole(th.held, RANKS);
    RanksFit();
    forall l | l in s.owner && s.owner[l] == t ensures l in s.rank && s.rank[l] in th.held {
      var i :| 0 <= i < |th.sites| && th.sites[i] == l;
      assert th.held[i] == s.rank[l];
    }
    forall r | r in th.held ensures exists l :: l in s.owner && s.owner[l] == t && l in s.rank && s.rank[l] == r {
      var i :| 0 <= i < |th.held| && th.held[i] == r;
      assert th.sites[i] in th.sites;
    }
    if th.held != [] { assert th.sites[0] in th.sites; }
  }
}
