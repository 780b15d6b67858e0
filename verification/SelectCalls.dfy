/**
 A select as its caller sees it, in any run of the machine of Select: it parks only on
 cases it has found blocked, every step takes it on, and what its first scan fires is
 what it reports.
 */
module SelectCalls {
  import opened Select

  // ----------------------------------------------------- it keeps going

  /** The steps this pass over the cases has left, at most, out of n cases. */
  function Left(pc: Pc, n: nat): nat {
    match pc
    case Install(i) => 10 * n + 100 + 2 * Minus(n, i) + 1
    case InstallLocked(i) => 10 * n + 100 + 2 * Minus(n, i)
    case AbortCas(_) => 10 * n + 90
    case Park(_) => 10 * n + 80
    case Parked(_) => 10 * n + 70
    case ReadFired(_) => 10 * n + 60
    case Evict(j, _, mode) => (if mode.Spurious? then 5 * n + 35 else 10) + 2 * Minus(n, j) + 1
    case EvictLocked(j, _, mode) => (if mode.Spurious? then 5 * n + 35 else 10) + 2 * Minus(n, j)
    case ReRead => 5 * n + 30
    case Finish(_) => 5
    case _ => 0
  }

  function Minus(n: nat, i: nat): nat { if i < n then n - i else 0 }

  /** Every step of the fiber, and every resume, takes it nearer its return or its next
      scan. */
  lemma SelectAdvances(s: State, a: Action)
    requires WellFormed(s) && Enabled(s, a) && (a.Fiber? || a.Resume?) && !s.pc.Scan?
    ensures Left(Apply(s, a).pc, |s.cases|) < Left(s.pc, |s.cases|)
  {
    if s.pc.Evict? || s.pc.EvictLocked? { EvictAdvances(s, a); }
    else if Waiting(s.pc) { WaitAdvances(s, a); }
  }

  lemma EvictAdvances(s: State, a: Action)
    requires WellFormed(s) && Enabled(s, a) && a.Fiber? && (s.pc.Evict? || s.pc.EvictLocked?)
    ensures Left(Apply(s, a).pc, |s.cases|) < Left(s.pc, |s.cases|)
  {
  }

  lemma WaitAdvances(s: State, a: Action)
    requires WellFormed(s) && Enabled(s, a) && (a.Fiber? || a.Resume?) && Waiting(s.pc)
    ensures Left(Apply(s, a).pc, |s.cases|) < Left(s.pc, |s.cases|)
  {
  }

  // ------------------------------------- it parks on blocked cases only

  /** The cases from 0 up to here have been installed. */
  function Level(pc: Pc): nat {
    match pc
    case Install(k) => k
    case InstallLocked(k) => k
    case AbortCas(k) => k
    case Park(k) => k
    case Parked(k) => k
    case ReadFired(k) => k
    case _ => 0
  }

  /** Before n, and since the last scan, case i was looked at under its channel's lock
      and found blocked. */
  ghost predicate FoundBlocked(ss: seq<State>, acts: seq<Action>, n: nat, i: nat) {
    exists m :: && 0 <= m < n && m < |acts| && m < |ss| && acts[m].Fiber? && !acts[m].ready && ss[m].pc == InstallLocked(i)
                && forall l | m <= l <= n && l < |ss| :: !ss[l].pc.Scan?
  }

  ghost predicate AllBlocked(ss: seq<State>, acts: seq<Action>, n: nat)
    requires n < |ss|
  {
    forall i | 0 <= i < Level(ss[n].pc) :: FoundBlocked(ss, acts, n, i)
  }

  lemma LevelMoves(s: State, a: Action)
    requires WellFormed(s) && Enabled(s, a)
    ensures var l, l' := Level(s.pc), Level(Apply(s, a).pc);
            l' <= l || (l' == l + 1 && s.pc == InstallLocked(l) && a.Fiber? && !a.ready)
    ensures Apply(s, a).pc.Scan? ==> Level(Apply(s, a).pc) == 0
  {
  }

  lemma StillBlocked(ss: seq<State>, acts: seq<Action>, n: nat, i: nat)
    requires FoundBlocked(ss, acts, n, i) && n + 1 < |ss| && !ss[n + 1].pc.Scan?
    ensures FoundBlocked(ss, acts, n + 1, i)
  {
    var m :| && 0 <= m < n && m < |acts| && m < |ss| && acts[m].Fiber? && !acts[m].ready && ss[m].pc == InstallLocked(i)
             && forall l | m <= l <= n && l < |ss| :: !ss[l].pc.Scan?;
    assert forall l | m <= l <= n + 1 && l < |ss| :: !ss[l].pc.Scan?;
  }

  lemma BlockedAt(ss: seq<State>, acts: seq<Action>, n: nat)
    requires Run(ss, acts) && n < |acts| && AllBlocked(ss, acts, n)
    ensures AllBlocked(ss, acts, n + 1)
  {
    assert WellFormed(ss[n]) && Enabled(ss[n], acts[n]) && ss[n + 1] == Apply(ss[n], acts[n]);
    LevelMoves(ss[n], acts[n]);
    var n' := n + 1;
    forall i | 0 <= i < Level(ss[n'].pc) ensures FoundBlocked(ss, acts, n', i) {
      if i < Level(ss[n].pc) {
        StillBlocked(ss, acts, n, i);
      } else {
        assert forall l | n <= l <= n' && l < |ss| :: !ss[l].pc.Scan?;
      }
    }
  }

  /** In every run, a select that sleeps has, since its last scan, found each case that
      it sleeps on blocked, under the channel's lock. */
  lemma {:induction false} ParksOnBlocked(ss: seq<State>, acts: seq<Action>, n: nat)
    requires Run(ss, acts) && n < |ss|
    ensures AllBlocked(ss, acts, n)
  {
    if n == 0 {
      assert Init(ss[0]);
    } else {
      assert AllBlocked(ss, acts, n - 1) by { ParksOnBlocked(ss, acts, n - 1); }
      BlockedAt(ss, acts, n - 1);
    }
  }

  // ------------------------------------------- and reports what it scanned

  /** What the scan chose to fire. */
  ghost predicate Chosen(ss: seq<State>, acts: seq<Action>, n: nat, i: nat) {
    exists m :: 0 <= m < n && m < |acts| && m < |ss| && ss[m].pc.Scan? && acts[m].Fiber? && acts[m].which == i
  }

  ghost predicate ScannedOk(ss: seq<State>, acts: seq<Action>, n: nat)
    requires n < |ss|
  {
    ss[n].pc.Done? && ss[n].pc.r.Scanned? ==> Chosen(ss, acts, n, ss[n].pc.r.i)
  }

  lemma ScanMoves(s: State, a: Action)
    requires WellFormed(s) && Enabled(s, a)
    ensures var pc := Apply(s, a).pc;
            pc.Done? && pc.r.Scanned? ==> pc == s.pc || (s.pc.Scan? && a.Fiber? && a.which == pc.r.i)
    ensures s.pc.Scan? && a.Fiber? && a.which < |s.cases| ==> Apply(s, a).pc.Done?
  {
  }

  lemma ScannedAt(ss: seq<State>, acts: seq<Action>, n: nat)
    requires Run(ss, acts) && n < |acts| && ScannedOk(ss, acts, n)
    ensures ScannedOk(ss, acts, n + 1)
  {
    assert WellFormed(ss[n]) && Enabled(ss[n], acts[n]) && ss[n + 1] == Apply(ss[n], acts[n]);
    ScanMoves(ss[n], acts[n]);
    if ss[n + 1].pc == ss[n].pc && ss[n].pc.Done? && ss[n].pc.r.Scanned? {
      var m :| 0 <= m < n && m < |acts| && m < |ss| && ss[m].pc.Scan? && acts[m].Fiber? && acts[m].which == ss[n].pc.r.i;
      assert 0 <= m < n + 1;
    }
  }

  /** In every run, a case reported as fired by the scan is the one that it fired. */
  lemma {:induction false} ScanReports(ss: seq<State>, acts: seq<Action>, n: nat)
    requires Run(ss, acts) && n < |ss|
    ensures ScannedOk(ss, acts, n)
  {
    if n == 0 {
      assert Init(ss[0]);
    } else {
      assert ScannedOk(ss, acts, n - 1) by { ScanReports(ss, acts, n - 1); }
      ScannedAt(ss, acts, n - 1);
    }
  }
}
