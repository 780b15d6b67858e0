/**
 The coroutine recycling pools (coro.c:1301-1565): a pool per thread over one
 global balance pool that is meant to hold a single stack size.  A pooled coro
 keeps its stack.  A step is one access to a thread's own list, one access to the
 global pool under its lock, or one access to the size class.
 */
module CoroPool {
  import opened Options
  import opened Placement

  const POOL_CAP: nat := 512
  const GLOBAL_CAP: nat := 1024
  const BATCH: nat := 128

  type Tid = nat
  type Id = Item

  datatype Place = Pool(t: Tid) | Global | InUse | Hand(t: Tid) | Freed

  /** `next` is the coro a destroy pools after its flush; none in a thread's exit
      drain.  `got` is history: coros the refill brought. */
  datatype Pc =
    | Idle
    | New(size: nat) | TakeLock(size: nat) | Taking(size: nat, n: nat) | Serve(size: nat, got: nat)
    | Keep(id: Id) | Put(id: Id) | Drop(id: Id)
    | Drain
    | ClaimLoad(next: Option<Id>) | ClaimStore(size: nat, next: Option<Id>) | ClaimRead(next: Option<Id>)
    | Sort(klass: nat, scanned: nat, hand: seq<Id>, next: Option<Id>)
    | GiveLock(hand: seq<Id>, next: Option<Id>) | Give(hand: seq<Id>, next: Option<Id>)
    | Spill(hand: seq<Id>, next: Option<Id>)

  /** History: where each coro is; the frees of its record and the releases of its
      stack. */
  datatype State = State(
    sizes: map<Id, nat>, pools: map<Tid, seq<Id>>, global: seq<Id>, klass: nat, lock: Option<Tid>, pcs: map<Tid, Pc>,
    places: map<Id, Place>, frees: multiset<Id>, releases: multiset<Id>, nextId: Id)

  datatype Action =
    | CallNew(t: Tid, size: nat)
    | CallDestroy(t: Tid, id: Id, grown: bool)
    | CallDrain(t: Tid)
    | Step(t: Tid, made: bool)

  function Rest(next: Option<Id>): seq<Id> { if next.Some? then [next.value] else [] }

  function HandOf(pc: Pc): seq<Id> {
    match pc
    case Keep(id) => [id]
    case Put(id) => [id]
    case Drop(id) => [id]
    case ClaimLoad(next) => Rest(next)
    case ClaimStore(_, next) => Rest(next)
    case ClaimRead(next) => Rest(next)
    case Sort(_, _, hand, next) => hand + Rest(next)
    case GiveLock(hand, next) => hand + Rest(next)
    case Give(hand, next) => hand + Rest(next)
    case Spill(hand, next) => hand + Rest(next)
    case _ => []
  }

  predicate Enabled(s: State, a: Action) {
    && a.t in s.pcs && a.t in s.pools
    && match a
       case CallNew(t, size) => s.pcs[t].Idle? && size > 0
       case CallDestroy(t, id, _) => s.pcs[t].Idle? && id in s.places && s.places[id].InUse?
       case CallDrain(t) => s.pcs[t].Idle?
       case Step(t, _) => !s.pcs[t].Idle? && (s.pcs[t].TakeLock? || s.pcs[t].GiveLock? ==> s.lock.None?)
  }

  function Go(s: State, t: Tid, pc: Pc): State { s.(pcs := s.pcs[t := pc]) }
  function To(s: State, id: Id, p: Place): State { s.(places := s.places[id := p]) }

  /** Release the stack, free the record. */
  function Discard(s: State, id: Id): State {
    To(s, id, Freed).(frees := s.frees + multiset{id}, releases := s.releases + multiset{id})
  }

  function Size(s: State, id: Id): nat { if id in s.sizes then s.sizes[id] else 0 }

  /** Where a flush goes when it is done. */
  function Done(next: Option<Id>): Pc { if next.Some? then Put(next.value) else Drain }

  function ServeStep(s: State, t: Tid, size: nat, made: bool): State
    requires t in s.pools
  {
    var p := s.pools[t];
    if p != [] && Size(s, p[0]) == size then Go(To(s, p[0], InUse), t, Idle).(pools := s.pools[t := p[1..]])
    else if made then Go(To(s, s.nextId, InUse), t, Idle).(sizes := s.sizes[s.nextId := size], nextId := s.nextId + 1)
    else Go(s, t, Idle)
  }

  function TakeStep(s: State, t: Tid, size: nat, n: nat): State
    requires t in s.pools
  {
    if n >= BATCH || s.global == [] then Go(s, t, Serve(size, n)).(lock := None)
    else
      Go(To(s, s.global[0], Pool(t)), t, Taking(size, n + 1))
        .(global := s.global[1..], pools := s.pools[t := s.pools[t] + [s.global[0]]])
  }

  function SortStep(s: State, t: Tid, klass: nat, scanned: nat, hand: seq<Id>, next: Option<Id>): State
    requires t in s.pools
  {
    var p := s.pools[t];
    if p == [] || scanned >= BATCH then Go(s, t, if hand == [] then Done(next) else GiveLock(hand, next))
    else
      var s1 := s.(pools := s.pools[t := p[1..]]);
      if Size(s, p[0]) == klass then Go(To(s1, p[0], Hand(t)), t, Sort(klass, scanned + 1, [p[0]] + hand, next))
      else Go(Discard(s1, p[0]), t, Sort(klass, scanned + 1, hand, next))
  }

  function GiveStep(s: State, t: Tid, hand: seq<Id>, next: Option<Id>): State {
    if hand != [] && |s.global| < GLOBAL_CAP then
      Go(To(s, hand[0], Global), t, Give(hand[1..], next)).(global := [hand[0]] + s.global)
    else Go(s, t, Spill(hand, next)).(lock := None)
  }

  function StepOf(s: State, t: Tid, made: bool): State
    requires t in s.pcs && t in s.pools
  {
    match s.pcs[t]
    case New(size) => Go(s, t, if s.pools[t] == [] && s.klass == size then TakeLock(size) else Serve(size, 0))
    case TakeLock(size) => Go(s, t, Taking(size, 0)).(lock := Some(t))
    case Taking(size, n) => TakeStep(s, t, size, n)
    case Serve(size, _) => ServeStep(s, t, size, made)
    case Keep(id) => Go(s, t, if |s.pools[t]| >= POOL_CAP then ClaimLoad(Some(id)) else Put(id))
    case Put(id) => Go(To(s, id, Pool(t)), t, Idle).(pools := s.pools[t := [id] + s.pools[t]])
    case Drop(id) => Go(Discard(s, id), t, Idle)
    case Drain => Go(s, t, if s.pools[t] == [] then Idle else ClaimLoad(None))
    case ClaimLoad(next) =>
      Go(s, t, if s.klass == 0 && s.pools[t] != [] then ClaimStore(Size(s, s.pools[t][0]), next) else ClaimRead(next))
    case ClaimStore(size, next) => Go(s, t, ClaimRead(next)).(klass := size)
    case ClaimRead(next) => Go(s, t, Sort(s.klass, 0, [], next))
    case Sort(klass, scanned, hand, next) => SortStep(s, t, klass, scanned, hand, next)
    case GiveLock(hand, next) => Go(s, t, Give(hand, next)).(lock := Some(t))
    case Give(hand, next) => GiveStep(s, t, hand, next)
    case Spill(hand, next) =>
      if hand == [] then Go(s, t, Done(next)) else Go(Discard(s, hand[0]), t, Spill(hand[1..], next))
    case Idle => s
  }

  function Apply(s: State, a: Action): State
    requires Enabled(s, a)
  {
    match a
    case CallNew(t, size) => Go(s, t, New(size))
    case CallDestroy(t, id, grown) => Go(To(s, id, Hand(t)), t, if grown then Drop(id) else Keep(id))
    case CallDrain(t) => Go(s, t, Drain)
    case Step(t, made) => StepOf(s, t, made)
  }

  ghost predicate Init(s: State) {
    && s.sizes == map[] && s.global == [] && s.klass == 0 && s.lock.None? && s.places == map[]
    && s.frees == multiset{} && s.releases == multiset{} && s.pcs.Keys == s.pools.Keys
    && (forall t | t in s.pools :: s.pools[t] == []) && (forall t | t in s.pcs :: s.pcs[t].Idle?)
  }

  /** This thread acts on a reading of the size class. */
  predicate Carries(pc: Pc) {
    pc.TakeLock? || pc.Taking? || (pc.Sort? && pc.klass != 0) || ((pc.GiveLock? || pc.Give?) && pc.hand != [])
  }

  predicate Claims(s: State, a: Action) { a.Step? && a.t in s.pcs && s.pcs[a.t].ClaimStore? }

  /** The store of a class claim replaces no other class, or one nothing depends on. */
  predicate ClaimIsSafe(s: State, a: Action) {
    Claims(s, a) ==>
      || s.klass == 0 || s.klass == s.pcs[a.t].size
      || (s.global == [] && forall u | u in s.pcs :: !Carries(s.pcs[u]))
  }

  // ------------------------------------------------------------- invariant

  predicate Bound(pc: Pc, n: nat) {
    match pc
    case New(size) => n <= POOL_CAP && size > 0
    case TakeLock(size) => n == 0 && size > 0
    case Taking(size, k) => n == k <= BATCH && size > 0
    case Serve(size, _) => n <= POOL_CAP && size > 0
    case Put(_) => n < POOL_CAP
    case ClaimLoad(_) => 0 < n <= POOL_CAP
    case ClaimStore(size, _) => 0 < n <= POOL_CAP && size > 0
    case ClaimRead(_) => 0 < n <= POOL_CAP
    case Sort(_, scanned, hand, _) => |hand| <= scanned <= BATCH && 0 < n + scanned <= POOL_CAP
    case GiveLock(hand, _) => |hand| <= BATCH && n < POOL_CAP
    case Give(hand, _) => |hand| <= BATCH && n < POOL_CAP
    case Spill(hand, _) => |hand| <= BATCH && n < POOL_CAP
    case _ => n <= POOL_CAP
  }

  ghost predicate ThreadInv(t: Tid, pc: Pc, pool: seq<Id>, places: map<Id, Place>) {
    Lists(pool, Pool(t), places) && Lists(HandOf(pc), Hand(t), places) && Bound(pc, |pool|)
  }

  ghost predicate ThreadsOk(pcs: map<Tid, Pc>, pools: map<Tid, seq<Id>>, places: map<Id, Place>) {
    pcs.Keys == pools.Keys && forall t | t in pcs :: ThreadInv(t, pcs[t], pools[t], places)
  }

  ghost predicate PlacesOk(s: State) {
    && Lists(s.global, Global, s.places) && |s.global| <= GLOBAL_CAP
    && (forall id :: s.frees[id] == s.releases[id] == if id in s.places && s.places[id].Freed? then 1 else 0)
    && (forall id | id in s.places :: id in s.sizes) && (forall id | id in s.sizes :: id < s.nextId)
    && (forall id | id in s.sizes :: s.sizes[id] > 0)
    && (forall id | id in s.places && (s.places[id].Pool? || s.places[id].Hand?) :: s.places[id].t in s.pcs)
  }

  predicate AllOf(q: seq<Id>, size: nat, sizes: map<Id, nat>) {
    forall i | 0 <= i < |q| :: q[i] in sizes && sizes[q[i]] == size
  }

  /** A thread's view of the size class. */
  predicate ClassInv(pc: Pc, pool: seq<Id>, klass: nat, sizes: map<Id, nat>) {
    match pc
    case TakeLock(size) => size == klass
    case Taking(size, n) => size == klass && AllOf(pool, size, sizes)
    case Serve(size, got) => got > 0 ==> pool != [] && AllOf(pool, size, sizes)
    case Sort(k, _, hand, _) => (if k == 0 then hand == [] else k == klass) && AllOf(hand, k, sizes)
    case GiveLock(hand, _) => AllOf(hand, klass, sizes)
    case Give(hand, _) => AllOf(hand, klass, sizes)
    case _ => true
  }

  ghost predicate ClassOk(s: State) {
    && AllOf(s.global, s.klass, s.sizes)
    && forall t | t in s.pcs && t in s.pools :: ClassInv(s.pcs[t], s.pools[t], s.klass, s.sizes)
  }

  predicate HoldsLock(pc: Pc) { pc.Taking? || pc.Give? }

  ghost predicate LockOk(lock: Option<Tid>, pcs: map<Tid, Pc>) {
    forall t | t in pcs :: HoldsLock(pcs[t]) <==> lock == Some(t)
  }

  /** What every step keeps ... */
  ghost predicate Base(s: State) {
    PlacesOk(s) && ThreadsOk(s.pcs, s.pools, s.places) && LockOk(s.lock, s.pcs)
  }

  /** ... and what it keeps while the class claims are safe. */
  ghost predicate Inv(s: State) { Base(s) && ClassOk(s) }

  // ------------------------------------------------------------ frame lemmas

  predicate OpenTo(p: Place, t: Tid) { p.Pool? || p.Hand? ==> p.t == t }

  /** Thread t moves its pc and pool only, and the lock with its pc. */
  ghost predicate Alone(s: State, s': State, t: Tid) {
    && t in s.pcs && t in s.pools && t in s'.pcs && t in s'.pools
    && s'.pcs == s.pcs[t := s'.pcs[t]] && s'.pools == s.pools[t := s'.pools[t]]
    && (if HoldsLock(s'.pcs[t]) == HoldsLock(s.pcs[t]) then s'.lock == s.lock
        else if HoldsLock(s'.pcs[t]) then s.lock.None? && s'.lock == Some(t)
        else s'.lock.None?)
  }

  /** ... and takes coro id from one open place to another. */
  ghost predicate Moves(s: State, s': State, t: Tid, id: Id, to: Place) {
    && s'.places == s.places[id := to] && OpenTo(to, t)
    && (id in s.places ==> OpenTo(s.places[id], t) && !s.places[id].Freed?)
    && (if id in s.places then s'.nextId == s.nextId && s'.sizes == s.sizes
        else && id == s.nextId && s'.nextId == s.nextId + 1
             && id in s'.sizes && s'.sizes[id] > 0 && s'.sizes == s.sizes[id := s'.sizes[id]])
    && s'.frees == (if to.Freed? then s.frees + multiset{id} else s.frees)
    && s'.releases == (if to.Freed? then s.releases + multiset{id} else s.releases)
  }

  ghost predicate Good(s: State, s': State, t: Tid, id: Id, to: Place) {
    && Alone(s, s', t) && Moves(s, s', t, id, to)
    && ThreadInv(t, s'.pcs[t], s'.pools[t], s'.places) && Lists(s'.global, Global, s'.places) && |s'.global| <= GLOBAL_CAP
  }

  ghost predicate Quiet(s: State, s': State, t: Tid) {
    && Alone(s, s', t) && s'.pools == s.pools && s'.global == s.global && s'.places == s.places && s'.sizes == s.sizes
    && s'.frees == s.frees && s'.releases == s.releases && s'.nextId == s.nextId
    && HandOf(s'.pcs[t]) == HandOf(s.pcs[t]) && Bound(s'.pcs[t], |s.pools[t]|)
  }

  lemma OthersKept(u: Tid, pc: Pc, pool: seq<Id>, places: map<Id, Place>, id: Id, to: Place)
    requires ThreadInv(u, pc, pool, places) && to != Pool(u) && to != Hand(u)
    requires id in places ==> places[id] != Pool(u) && places[id] != Hand(u)
    ensures ThreadInv(u, pc, pool, places[id := to])
  {
    ListsKept(pool, Pool(u), places, id, to);
    ListsKept(HandOf(pc), Hand(u), places, id, to);
  }

  lemma ThreadsKept(s: State, s': State, t: Tid, id: Id, to: Place)
    requires ThreadsOk(s.pcs, s.pools, s.places) && Alone(s, s', t) && Moves(s, s', t, id, to)
    requires ThreadInv(t, s'.pcs[t], s'.pools[t], s'.places)
    ensures ThreadsOk(s'.pcs, s'.pools, s'.places)
  {
    forall u | u in s'.pcs ensures ThreadInv(u, s'.pcs[u], s'.pools[u], s'.places) {
      if u != t { OthersKept(u, s.pcs[u], s.pools[u], s.places, id, to); }
    }
  }

  lemma PlacesKept(s: State, s': State, t: Tid, id: Id, to: Place)
    requires PlacesOk(s) && Alone(s, s', t) && Moves(s, s', t, id, to)
    requires Lists(s'.global, Global, s'.places) && |s'.global| <= GLOBAL_CAP
    ensures PlacesOk(s')
  {
  }

  lemma LockKept(s: State, s': State, t: Tid)
    requires LockOk(s.lock, s.pcs) && Alone(s, s', t)
    ensures LockOk(s'.lock, s'.pcs)
  {
  }

  lemma MoveKeepsBase(s: State, s': State, t: Tid, id: Id, to: Place)
    requires Base(s) && Good(s, s', t, id, to)
    ensures Base(s')
  {
    ThreadsKept(s, s', t, id, to);
    PlacesKept(s, s', t, id, to);
    LockKept(s, s', t);
  }

  lemma QuietThreads(s: State, s': State, t: Tid)
    requires ThreadsOk(s.pcs, s.pools, s.places) && Quiet(s, s', t)
    ensures ThreadsOk(s'.pcs, s'.pools, s'.places)
  {
    forall u | u in s'.pcs ensures ThreadInv(u, s'.pcs[u], s'.pools[u], s'.places) {
      assert ThreadInv(u, s.pcs[u], s.pools[u], s.places);
    }
  }

  lemma QuietKeepsBase(s: State, s': State, t: Tid)
    requires Base(s) && Quiet(s, s', t)
    ensures Base(s')
  {
    QuietThreads(s, s', t);
    LockKept(s, s', t);
  }

  // ----------------------------------------------------- the size class

  /** Thread t's part of ClassOk. */
  predicate ClassHere(s: State, t: Tid)
    requires t in s.pcs && t in s.pools
  {
    AllOf(s.global, s.klass, s.sizes) && ClassInv(s.pcs[t], s.pools[t], s.klass, s.sizes)
  }

  /** The class is as it was, and thread t's view of it still right. */
  ghost predicate SameClass(s: State, s': State, t: Tid)
    requires t in s.pcs && t in s.pools && t in s'.pcs && t in s'.pools
  {
    && s'.klass == s.klass && (ClassHere(s, t) ==> ClassHere(s', t))
    && (forall id | id in s.sizes :: id in s'.sizes && s'.sizes[id] == s.sizes[id])
  }

  lemma ClassKept(s: State, s': State, t: Tid)
    requires ClassOk(s) && Alone(s, s', t) && SameClass(s, s', t)
    ensures ClassOk(s')
  {
    assert ClassHere(s, t);
    forall u | u in s'.pcs && u in s'.pools ensures ClassInv(s'.pcs[u], s'.pools[u], s'.klass, s'.sizes) {
      if u != t { assert ClassInv(s.pcs[u], s.pools[u], s.klass, s.sizes); }
    }
  }

  /** One thread's view survives a change of class if it does not depend on it. */
  lemma ViewSurvives(pc: Pc, pool: seq<Id>, klass: nat, klass': nat, sizes: map<Id, nat>)
    requires ClassInv(pc, pool, klass, sizes) && !Carries(pc)
    ensures ClassInv(pc, pool, klass', sizes)
  {
  }

  lemma PositiveClass(q: seq<Id>, size: nat, sizes: map<Id, nat>)
    requires AllOf(q, size, sizes) && forall id | id in sizes :: sizes[id] > 0
    ensures q == [] || size > 0
  {
    if q != [] { assert q[0] in sizes; }
  }

  /** No class is claimed yet, so no view depends on it. */
  lemma NobodyCarries(pc: Pc, n: nat, pool: seq<Id>, sizes: map<Id, nat>)
    requires ClassInv(pc, pool, 0, sizes) && Bound(pc, n) && forall id | id in sizes :: sizes[id] > 0
    ensures !Carries(pc)
  {
    if pc.GiveLock? || pc.Give? { PositiveClass(pc.hand, 0, sizes); }
  }

  lemma ClaimKeepsClass(s: State, t: Tid, size: nat, next: Option<Id>)
    requires Inv(s) && t in s.pcs && s.pcs[t] == ClaimStore(size, next) && ClaimIsSafe(s, Step(t, false))
    ensures ClassOk(Go(s, t, ClaimRead(next)).(klass := size))
  {
    var s' := Go(s, t, ClaimRead(next)).(klass := size);
    PositiveClass(s.global, s.klass, s.sizes);
    forall u | u in s'.pcs && u in s'.pools ensures ClassInv(s'.pcs[u], s'.pools[u], s'.klass, s'.sizes) {
      assert ThreadInv(u, s.pcs[u], s.pools[u], s.places) && ClassInv(s.pcs[u], s.pools[u], s.klass, s.sizes);
      if s.klass == 0 { NobodyCarries(s.pcs[u], |s.pools[u]|, s.pools[u], s.sizes); }
      if s.klass != size { ViewSurvives(s.pcs[u], s.pools[u], s.klass, size, s.sizes); }
    }
  }

  /** A view that depends on the class does not survive another one. */
  lemma ViewBroken(pc: Pc, pool: seq<Id>, klass: nat, klass': nat, sizes: map<Id, nat>)
    requires ClassInv(pc, pool, klass, sizes) && Carries(pc) && klass' != klass && klass' != 0
    ensures !ClassInv(pc, pool, klass', sizes)
  {
    if (pc.GiveLock? || pc.Give?) && pc.hand != [] { assert pc.hand[0] in sizes && sizes[pc.hand[0]] == klass; }
  }

  lemma ClaimBreaksClass(s: State, t: Tid, size: nat, next: Option<Id>)
    requires Inv(s) && t in s.pcs && s.pcs[t] == ClaimStore(size, next) && !ClaimIsSafe(s, Step(t, false))
    ensures !ClassOk(Go(s, t, ClaimRead(next)).(klass := size))
  {
    var s' := Go(s, t, ClaimRead(next)).(klass := size);
    assert ThreadInv(t, s.pcs[t], s.pools[t], s.places);
    if s.global != [] {
      assert s.global[0] in s.sizes && s.sizes[s.global[0]] == s.klass;
    } else {
      var u :| u in s.pcs && Carries(s.pcs[u]);
      assert ClassInv(s.pcs[u], s.pools[u], s.klass, s.sizes);
      ViewBroken(s.pcs[u], s.pools[u], s.klass, size, s.sizes);
      assert u in s'.pcs && s'.pcs[u] == s.pcs[u];
    }
  }

  /** What a step's own proof needs of the invariant. */
  ghost predicate Here(s: State, t: Tid) {
    && t in s.pcs && t in s.pools && ThreadInv(t, s.pcs[t], s.pools[t], s.places)
    && Lists(s.global, Global, s.places) && |s.global| <= GLOBAL_CAP && s.nextId !in s.places && s.nextId !in s.sizes
    && (HoldsLock(s.pcs[t]) ==> s.lock == Some(t))
    && (forall id | id in s.sizes :: s.sizes[id] > 0)
    && (forall id | id in s.places :: id in s.sizes)
  }

  lemma BaseHere(s: State, t: Tid)
    requires Base(s) && t in s.pcs
    ensures Here(s, t)
  {
    assert s.nextId !in s.sizes;
  }

  // ------------------------------------------------------------ step lemmas

  lemma CallQuiet(s: State, a: Action)
    requires Here(s, a.t) && Enabled(s, a) && (a.CallNew? || a.CallDrain?)
    ensures Quiet(s, Apply(s, a), a.t) && SameClass(s, Apply(s, a), a.t)
  {
    assert s.pools[a.t := s.pools[a.t]] == s.pools;
  }

  lemma DestroyGood(s: State, t: Tid, id: Id, pc: Pc)
    requires Here(s, t) && s.pcs[t].Idle? && id in s.places && s.places[id].InUse? && (pc == Keep(id) || pc == Drop(id))
    ensures var s' := Go(To(s, id, Hand(t)), t, pc); Good(s, s', t, id, Hand(t)) && SameClass(s, s', t)
  {
    assert s.pools[t := s.pools[t]] == s.pools;
    ListsKept(s.global, Global, s.places, id, Hand(t));
    ListsKept(s.pools[t], Pool(t), s.places, id, Hand(t));
    ListsPush([], Hand(t), s.places, id);
    assert [id] + [] == [id];
  }

  /** ... and what a step that moves nothing needs of it. */
  ghost predicate Near(s: State, t: Tid) {
    && t in s.pcs && t in s.pools && Bound(s.pcs[t], |s.pools[t]|) && (HoldsLock(s.pcs[t]) ==> s.lock == Some(t))
    && (s.pools[t] != [] ==> Size(s, s.pools[t][0]) > 0)
  }

  lemma HereNear(s: State, t: Tid)
    requires Here(s, t)
    ensures Near(s, t)
  {
    if s.pools[t] != [] { assert s.pools[t][0] in s.places; }
  }

  lemma NewQuiet(s: State, t: Tid, made: bool)
    requires Near(s, t) && (s.pcs[t].TakeLock? ==> s.lock.None?)
    requires match s.pcs[t]
             case Taking(_, n) => n >= BATCH || s.global == []
             case Serve(size, _) => !made && (s.pools[t] == [] || Size(s, s.pools[t][0]) != size)
             case New(_) => true
             case TakeLock(_) => true
             case Keep(_) => true
             case Drain => true
             case _ => false
    ensures Quiet(s, StepOf(s, t, made), t) && SameClass(s, StepOf(s, t, made), t)
  {
    assert s.pools[t := s.pools[t]] == s.pools;
  }

  lemma ClaimsQuiet(s: State, t: Tid)
    requires Near(s, t) && (s.pcs[t].ClaimLoad? || s.pcs[t].ClaimRead?)
    ensures Quiet(s, StepOf(s, t, false), t) && SameClass(s, StepOf(s, t, false), t)
  {
    assert s.pools[t := s.pools[t]] == s.pools;
    assert [] + Rest(s.pcs[t].next) == Rest(s.pcs[t].next);
  }

  lemma SortQuiet(s: State, t: Tid)
    requires Near(s, t) && s.pcs[t].Sort? && (s.pools[t] == [] || s.pcs[t].scanned >= BATCH)
    ensures Quiet(s, StepOf(s, t, false), t) && SameClass(s, StepOf(s, t, false), t)
  {
    assert s.pools[t := s.pools[t]] == s.pools;
    assert [] + Rest(s.pcs[t].next) == Rest(s.pcs[t].next);
  }

  lemma GiveQuiet(s: State, t: Tid)
    requires Near(s, t) && (s.pcs[t].GiveLock? ==> s.lock.None?)
    requires match s.pcs[t]
             case GiveLock(_, _) => true
             case Give(hand, _) => hand == [] || |s.global| >= GLOBAL_CAP
             case Spill(hand, _) => hand == []
             case _ => false
    ensures Quiet(s, StepOf(s, t, false), t) && SameClass(s, StepOf(s, t, false), t)
  {
    assert s.pools[t := s.pools[t]] == s.pools;
    assert [] + Rest(s.pcs[t].next) == Rest(s.pcs[t].next);
  }

  lemma StepQuiet(s: State, t: Tid, made: bool)
    requires Here(s, t) && (s.pcs[t].TakeLock? || s.pcs[t].GiveLock? ==> s.lock.None?)
    requires !s.pcs[t].Idle? && !s.pcs[t].ClaimStore? && Moved(s, t, made).None?
    ensures Quiet(s, StepOf(s, t, made), t) && SameClass(s, StepOf(s, t, made), t)
  {
    HereNear(s, t);
    match s.pcs[t] {
      case ClaimLoad(_) => ClaimsQuiet(s, t);
      case ClaimRead(_) => ClaimsQuiet(s, t);
      case Sort(_, _, _, _) => SortQuiet(s, t);
      case GiveLock(_, _) => GiveQuiet(s, t);
      case Give(_, _) => GiveQuiet(s, t);
      case Spill(_, _) => GiveQuiet(s, t);
      case _ => NewQuiet(s, t, made);
    }
  }

  lemma ClaimQuiet(s: State, t: Tid)
    requires Near(s, t) && s.pcs[t].ClaimStore?
    ensures Quiet(s, StepOf(s, t, false), t)
  {
    assert s.pools[t := s.pools[t]] == s.pools;
  }

  lemma ServeGood(s: State, t: Tid)
    requires Here(s, t) && s.pcs[t].Serve? && s.pools[t] != []
    ensures var id := s.pools[t][0];
            var s' := Go(To(s, id, InUse), t, Idle).(pools := s.pools[t := s.pools[t][1..]]);
            Good(s, s', t, id, InUse) && SameClass(s, s', t)
  {
    var p := s.pools[t];
    ListsPop(p, Pool(t), s.places, InUse);
    ListsKept(s.global, Global, s.places, p[0], InUse);
    ListsKept([], Hand(t), s.places, p[0], InUse);
  }

  lemma FreshGood(s: State, t: Tid, size: nat)
    requires Here(s, t) && s.pcs[t].Serve? && size > 0
    ensures var s' := Go(To(s, s.nextId, InUse), t, Idle).(sizes := s.sizes[s.nextId := size], nextId := s.nextId + 1);
            Good(s, s', t, s.nextId, InUse) && SameClass(s, s', t)
  {
    assert s.pools[t := s.pools[t]] == s.pools;
    ListsKept(s.global, Global, s.places, s.nextId, InUse);
    ListsKept(s.pools[t], Pool(t), s.places, s.nextId, InUse);
    ListsKept([], Hand(t), s.places, s.nextId, InUse);
  }

  lemma TakeGood(s: State, t: Tid)
    requires Here(s, t) && s.pcs[t].Taking? && s.pcs[t].n < BATCH && s.global != []
    ensures var s' := TakeStep(s, t, s.pcs[t].size, s.pcs[t].n);
            Good(s, s', t, s.global[0], Pool(t)) && SameClass(s, s', t)
  {
    var g := s.global[0];
    ListsPop(s.global, Global, s.places, Pool(t));
    ListsAppend(s.pools[t], Pool(t), s.places, g);
    ListsKept([], Hand(t), s.places, g, Pool(t));
  }

  lemma PutGood(s: State, t: Tid)
    requires Here(s, t) && s.pcs[t].Put?
    ensures var id := s.pcs[t].id;
            Good(s, StepOf(s, t, false), t, id, Pool(t)) && SameClass(s, StepOf(s, t, false), t)
  {
    var id := s.pcs[t].id;
    assert [id][0] == id && [id][1..] == [];
    ListsPop([id], Hand(t), s.places, Pool(t));
    ListsKept(s.global, Global, s.places, id, Pool(t));
    ListsPush(s.pools[t], Pool(t), s.places, id);
  }

  /** The first coro in hand is discarded. */
  lemma DiscardGood(s: State, t: Tid, pc: Pc)
    requires Here(s, t) && HandOf(s.pcs[t]) != [] && HandOf(pc) == HandOf(s.pcs[t])[1..] && Bound(pc, |s.pools[t]|)
    requires !HoldsLock(pc) && !HoldsLock(s.pcs[t]) && (ClassHere(s, t) ==> ClassInv(pc, s.pools[t], s.klass, s.sizes))
    ensures var id := HandOf(s.pcs[t])[0];
            Good(s, Go(Discard(s, id), t, pc), t, id, Freed) && SameClass(s, Go(Discard(s, id), t, pc), t)
  {
    var id := HandOf(s.pcs[t])[0];
    assert s.pools[t := s.pools[t]] == s.pools;
    ListsPop(HandOf(s.pcs[t]), Hand(t), s.places, Freed);
    ListsKept(s.global, Global, s.places, id, Freed);
    ListsKept(s.pools[t], Pool(t), s.places, id, Freed);
  }

  lemma SortTakes(s: State, t: Tid)
    requires Here(s, t) && s.pcs[t].Sort? && s.pools[t] != [] && s.pcs[t].scanned < BATCH
    requires Size(s, s.pools[t][0]) == s.pcs[t].klass
    ensures var pc := s.pcs[t];
            var s' := SortStep(s, t, pc.klass, pc.scanned, pc.hand, pc.next);
            Good(s, s', t, s.pools[t][0], Hand(t)) && SameClass(s, s', t)
  {
    var pc, p := s.pcs[t], s.pools[t];
    ListsPop(p, Pool(t), s.places, Hand(t));
    ListsKept(s.global, Global, s.places, p[0], Hand(t));
    ListsPush(HandOf(pc), Hand(t), s.places, p[0]);
    assert [p[0]] + pc.hand + Rest(pc.next) == [p[0]] + HandOf(pc);
    assert p[0] in s.places;
  }

  lemma SortDrops(s: State, t: Tid)
    requires Here(s, t) && s.pcs[t].Sort? && s.pools[t] != [] && s.pcs[t].scanned < BATCH
    requires Size(s, s.pools[t][0]) != s.pcs[t].klass
    ensures var pc := s.pcs[t];
            var s' := SortStep(s, t, pc.klass, pc.scanned, pc.hand, pc.next);
            Good(s, s', t, s.pools[t][0], Freed) && SameClass(s, s', t)
  {
    var p := s.pools[t];
    ListsPop(p, Pool(t), s.places, Freed);
    ListsKept(s.global, Global, s.places, p[0], Freed);
    ListsKept(HandOf(s.pcs[t]), Hand(t), s.places, p[0], Freed);
  }

  lemma GiveGood(s: State, t: Tid)
    requires Here(s, t) && s.pcs[t].Give? && s.pcs[t].hand != [] && |s.global| < GLOBAL_CAP
    ensures var s' := GiveStep(s, t, s.pcs[t].hand, s.pcs[t].next);
            Good(s, s', t, s.pcs[t].hand[0], Global) && SameClass(s, s', t)
  {
    var pc := s.pcs[t];
    var id := pc.hand[0];
    assert HandOf(pc)[0] == id && HandOf(pc)[1..] == pc.hand[1..] + Rest(pc.next);
    assert s.pools[t := s.pools[t]] == s.pools;
    ListsPop(HandOf(pc), Hand(t), s.places, Global);
    ListsPush(s.global, Global, s.places, id);
    ListsKept(s.pools[t], Pool(t), s.places, id, Global);
  }

  lemma SpillGood(s: State, t: Tid)
    requires Here(s, t) && s.pcs[t].Spill? && s.pcs[t].hand != []
    ensures var id := s.pcs[t].hand[0];
            Good(s, StepOf(s, t, false), t, id, Freed) && SameClass(s, StepOf(s, t, false), t)
  {
    var pc := s.pcs[t];
    assert HandOf(pc)[0] == pc.hand[0] && HandOf(pc)[1..] == pc.hand[1..] + Rest(pc.next);
    DiscardGood(s, t, Spill(pc.hand[1..], pc.next));
  }

  /** The coro this step moves, and where to. */
  function Moved(s: State, t: Tid, made: bool): Option<(Id, Place)>
    requires t in s.pcs && t in s.pools
  {
    match s.pcs[t]
    case Taking(_, n) => if n >= BATCH || s.global == [] then None else Some((s.global[0], Pool(t)))
    case Serve(size, _) =>
      if s.pools[t] != [] && Size(s, s.pools[t][0]) == size then Some((s.pools[t][0], InUse))
      else if made then Some((s.nextId, InUse)) else None
    case Put(id) => Some((id, Pool(t)))
    case Drop(id) => Some((id, Freed))
    case Sort(klass, scanned, _, _) =>
      if s.pools[t] == [] || scanned >= BATCH then None
      else Some((s.pools[t][0], if Size(s, s.pools[t][0]) == klass then Hand(t) else Freed))
    case Give(hand, _) => if hand != [] && |s.global| < GLOBAL_CAP then Some((hand[0], Global)) else None
    case Spill(hand, _) => if hand == [] then None else Some((hand[0], Freed))
    case _ => None
  }

  lemma MovedGood(s: State, t: Tid, made: bool)
    requires Here(s, t) && Moved(s, t, made).Some?
    ensures var (id, to) := Moved(s, t, made).value;
            Good(s, StepOf(s, t, made), t, id, to) && SameClass(s, StepOf(s, t, made), t)
  {
    match s.pcs[t] {
      case Taking(_, _) => TakeGood(s, t);
      case Serve(size, _) =>
        if s.pools[t] != [] && Size(s, s.pools[t][0]) == size { ServeGood(s, t); } else { FreshGood(s, t, size); }
      case Put(_) => PutGood(s, t);
      case Drop(id) =>
        assert [id][0] == id && [id][1..] == [];
        DiscardGood(s, t, Idle);
      case Sort(klass, _, _, _) =>
        if Size(s, s.pools[t][0]) == klass { SortTakes(s, t); } else { SortDrops(s, t); }
      case Give(_, _) => GiveGood(s, t);
      case Spill(_, _) => SpillGood(s, t);
    }
  }

  lemma ClaimStep(s: State, t: Tid)
    requires Base(s) && Here(s, t) && s.pcs[t].ClaimStore?
    ensures Base(StepOf(s, t, false))
  {
    HereNear(s, t);
    ClaimQuiet(s, t);
    QuietKeepsBase(s, StepOf(s, t, false), t);
  }

  lemma MovedStep(s: State, t: Tid, made: bool)
    requires Base(s) && Here(s, t) && Moved(s, t, made).Some?
    ensures var s' := StepOf(s, t, made); Base(s') && (ClassOk(s) ==> ClassOk(s'))
  {
    MovedGood(s, t, made);
    if ClassOk(s) { ClassKept(s, StepOf(s, t, made), t); }
    MoveKeepsBase(s, StepOf(s, t, made), t, Moved(s, t, made).value.0, Moved(s, t, made).value.1);
  }

  lemma QuietStep(s: State, t: Tid, made: bool)
    requires Base(s) && Here(s, t) && (s.pcs[t].TakeLock? || s.pcs[t].GiveLock? ==> s.lock.None?)
    requires !s.pcs[t].Idle? && !s.pcs[t].ClaimStore? && Moved(s, t, made).None?
    ensures var s' := StepOf(s, t, made); Base(s') && (ClassOk(s) ==> ClassOk(s'))
  {
    StepQuiet(s, t, made);
    if ClassOk(s) { ClassKept(s, StepOf(s, t, made), t); }
    QuietKeepsBase(s, StepOf(s, t, made), t);
  }

  lemma CallStep(s: State, a: Action)
    requires Base(s) && Here(s, a.t) && Enabled(s, a) && !a.Step?
    ensures Base(Apply(s, a)) && (ClassOk(s) ==> ClassOk(Apply(s, a)))
  {
    var s' := Apply(s, a);
    if a.CallDestroy? {
      DestroyGood(s, a.t, a.id, s'.pcs[a.t]);
      MoveKeepsBase(s, s', a.t, a.id, Hand(a.t));
    } else {
      CallQuiet(s, a);
      QuietKeepsBase(s, s', a.t);
    }
    if ClassOk(s) { ClassKept(s, s', a.t); }
  }

  lemma StepKeepsBase(s: State, a: Action)
    requires Base(s) && Enabled(s, a)
    ensures Base(Apply(s, a)) && (ClassOk(s) && !Claims(s, a) ==> ClassOk(Apply(s, a)))
  {
    BaseHere(s, a.t);
    if !a.Step? {
      CallStep(s, a);
    } else if s.pcs[a.t].ClaimStore? {
      ClaimStep(s, a.t);
    } else if Moved(s, a.t, a.made).Some? {
      MovedStep(s, a.t, a.made);
    } else {
      QuietStep(s, a.t, a.made);
    }
  }

  /** A step keeps the whole invariant exactly when it is not an unsafe claim. */
  lemma StepKeepsInv(s: State, a: Action)
    requires Inv(s) && Enabled(s, a)
    ensures Inv(Apply(s, a)) <==> ClaimIsSafe(s, a)
  {
    StepKeepsBase(s, a);
    if Claims(s, a) {
      var pc := s.pcs[a.t];
      if ClaimIsSafe(s, a) { ClaimKeepsClass(s, a.t, pc.size, pc.next); } else { ClaimBreaksClass(s, a.t, pc.size, pc.next); }
    }
  }

  // ------------------------------------------------------------- whole runs

  ghost predicate Path(ss: seq<State>, acts: seq<Action>) {
    && |ss| == |acts| + 1
    && forall i | 0 <= i < |acts| :: Enabled(ss[i], acts[i]) && ss[i + 1] == Apply(ss[i], acts[i])
  }

  ghost predicate Run(ss: seq<State>, acts: seq<Action>) { Path(ss, acts) && Init(ss[0]) }

  lemma {:induction false} RunKeepsBase(ss: seq<State>, acts: seq<Action>, n: nat)
    requires Run(ss, acts) && n < |ss|
    ensures Base(ss[n])
  {
    if n == 0 {
      assert Init(ss[0]);
    } else {
      RunKeepsBase(ss, acts, n - 1);
      StepKeepsBase(ss[n - 1], acts[n - 1]);
    }
  }

  /** Some run leads to this state. */
  ghost predicate Reachable(s: State) { exists ss, acts :: Run(ss, acts) && ss[|acts|] == s }

  lemma ReachableBase(s: State)
    requires Reachable(s)
    ensures Base(s)
  {
    var ss, acts :| Run(ss, acts) && ss[|acts|] == s;
    RunKeepsBase(ss, acts, |acts|);
  }

  ghost predicate SafeClaims(ss: seq<State>, acts: seq<Action>) {
    forall i | 0 <= i < |acts| && i < |ss| :: ClaimIsSafe(ss[i], acts[i])
  }

  lemma {:induction false} RunKeepsInv(ss: seq<State>, acts: seq<Action>, n: nat)
    requires Run(ss, acts) && SafeClaims(ss, acts) && n < |ss|
    ensures Inv(ss[n])
  {
    if n == 0 {
      assert Init(ss[0]);
    } else {
      RunKeepsInv(ss, acts, n - 1);
      assert ClaimIsSafe(ss[n - 1], acts[n - 1]);
      StepKeepsInv(ss[n - 1], acts[n - 1]);
    }
  }

  /** Neither pool outgrows its cap. */
  lemma PoolsBounded(s: State, t: Tid)
    requires Reachable(s) && t in s.pcs
    ensures t in s.pools && |s.pools[t]| <= POOL_CAP && |s.global| <= GLOBAL_CAP
  {
    ReachableBase(s);
    assert ThreadInv(t, s.pcs[t], s.pools[t], s.places);
  }

  // ------------------------------- the first size asked for is the only one

  /** As long as no class is claimed, coros of these sizes only are asked for. */
  ghost predicate AsksOnly(ss: seq<State>, acts: seq<Action>, zs: set<nat>) {
    forall i | 0 <= i < |acts| && i < |ss| && acts[i].CallNew? && ss[i].klass == 0 :: acts[i].size in zs
  }

  /** The size a request under way is for. */
  function Asked(pc: Pc): Option<nat> {
    match pc
    case New(size) => Some(size)
    case TakeLock(size) => Some(size)
    case Taking(size, _) => Some(size)
    case Serve(size, _) => Some(size)
    case _ => None
  }

  /** Nothing but z is claimed, and until it is there is nothing but z. */
  ghost predicate OneSize(s: State, z: nat) {
    && (s.klass == 0 || s.klass == z)
    && (forall t | t in s.pcs && s.pcs[t].ClaimStore? :: s.pcs[t].size == z)
    && (s.klass == 0 ==>
          && (forall id | id in s.sizes :: s.sizes[id] == z)
          && (forall t | t in s.pcs && Asked(s.pcs[t]).Some? :: Asked(s.pcs[t]).value == z))
  }

  /** What thread t's step needs of it, */
  ghost predicate OneSizeHere(s: State, t: Tid, z: nat) {
    && t in s.pcs && t in s.pools && (s.klass == 0 || s.klass == z) && (s.pcs[t].ClaimStore? ==> s.pcs[t].size == z)
    && (s.pools[t] != [] ==> s.pools[t][0] in s.sizes)
    && (s.klass == 0 ==> (forall id | id in s.sizes :: s.sizes[id] == z) && (Asked(s.pcs[t]).Some? ==> Asked(s.pcs[t]).value == z))
  }

  /** and what it does to it. */
  ghost predicate KeepsOneSize(s: State, s': State, t: Tid, z: nat) {
    && t in s'.pcs && (forall u | u in s'.pcs && u != t :: u in s.pcs && s'.pcs[u] == s.pcs[u])
    && (s'.klass == s.klass || s'.klass == z) && (s'.pcs[t].ClaimStore? ==> s'.pcs[t].size == z)
    && (s'.klass == 0 ==>
          && s.klass == 0 && (forall id | id in s'.sizes :: s'.sizes[id] == z)
          && (Asked(s'.pcs[t]).Some? ==> Asked(s'.pcs[t]).value == z))
  }

  lemma ServeOneSize(s: State, t: Tid, made: bool, z: nat)
    requires OneSizeHere(s, t, z) && s.pcs[t].Serve?
    ensures KeepsOneSize(s, StepOf(s, t, made), t, z)
  {
  }

  lemma NewOneSize(s: State, t: Tid, made: bool, z: nat)
    requires OneSizeHere(s, t, z) && (s.pcs[t].New? || s.pcs[t].TakeLock? || s.pcs[t].Taking?)
    ensures KeepsOneSize(s, StepOf(s, t, made), t, z)
  {
  }

  lemma ClaimOneSize(s: State, t: Tid, made: bool, z: nat)
    requires OneSizeHere(s, t, z) && (s.pcs[t].ClaimLoad? || s.pcs[t].ClaimStore? || s.pcs[t].ClaimRead? || s.pcs[t].Sort?)
    ensures KeepsOneSize(s, StepOf(s, t, made), t, z)
  {
  }

  lemma GiveOneSize(s: State, t: Tid, made: bool, z: nat)
    requires OneSizeHere(s, t, z) && (s.pcs[t].GiveLock? || s.pcs[t].Give?)
    ensures KeepsOneSize(s, StepOf(s, t, made), t, z)
  {
  }

  lemma SpillOneSize(s: State, t: Tid, made: bool, z: nat)
    requires OneSizeHere(s, t, z) && s.pcs[t].Spill?
    ensures KeepsOneSize(s, StepOf(s, t, made), t, z)
  {
  }

  lemma PutOneSize(s: State, t: Tid, made: bool, z: nat)
    requires OneSizeHere(s, t, z) && (s.pcs[t].Keep? || s.pcs[t].Put? || s.pcs[t].Drop? || s.pcs[t].Drain?)
    ensures KeepsOneSize(s, StepOf(s, t, made), t, z)
  {
  }

  lemma CallOneSize(s: State, a: Action, z: nat)
    requires OneSizeHere(s, a.t, z) && Enabled(s, a) && !a.Step? && (a.CallNew? && s.klass == 0 ==> a.size == z)
    ensures KeepsOneSize(s, Apply(s, a), a.t, z)
  {
  }

  lemma HereOneSize(s: State, t: Tid, z: nat)
    requires Base(s) && OneSize(s, z) && t in s.pcs
    ensures OneSizeHere(s, t, z)
  {
    assert ThreadInv(t, s.pcs[t], s.pools[t], s.places);
    if s.pools[t] != [] { assert s.pools[t][0] in s.places; }
  }

  lemma StepKeepsOneSize(s: State, a: Action, z: nat)
    requires OneSizeHere(s, a.t, z) && OneSize(s, z) && Enabled(s, a) && (a.CallNew? && s.klass == 0 ==> a.size == z)
    ensures OneSize(Apply(s, a), z)
  {
    StepOneSize(s, a, z);
  }

  lemma StepOneSize(s: State, a: Action, z: nat)
    requires OneSizeHere(s, a.t, z) && Enabled(s, a) && (a.CallNew? && s.klass == 0 ==> a.size == z)
    ensures KeepsOneSize(s, Apply(s, a), a.t, z)
  {
    if !a.Step? {
      CallOneSize(s, a, z);
    } else {
      match s.pcs[a.t] {
        case Serve(_, _) => ServeOneSize(s, a.t, a.made, z);
        case New(_) => NewOneSize(s, a.t, a.made, z);
        case TakeLock(_) => NewOneSize(s, a.t, a.made, z);
        case Taking(_, _) => NewOneSize(s, a.t, a.made, z);
        case Keep(_) => PutOneSize(s, a.t, a.made, z);
        case Put(_) => PutOneSize(s, a.t, a.made, z);
        case Drop(_) => PutOneSize(s, a.t, a.made, z);
        case Drain => PutOneSize(s, a.t, a.made, z);
        case GiveLock(_, _) => GiveOneSize(s, a.t, a.made, z);
        case Give(_, _) => GiveOneSize(s, a.t, a.made, z);
        case Spill(_, _) => SpillOneSize(s, a.t, a.made, z);
        case ClaimLoad(_) => ClaimOneSize(s, a.t, a.made, z);
        case ClaimStore(_, _) => ClaimOneSize(s, a.t, a.made, z);
        case ClaimRead(_) => ClaimOneSize(s, a.t, a.made, z);
        case Sort(_, _, _, _) => ClaimOneSize(s, a.t, a.made, z);
      }
    }
  }

  lemma OneSizeAt(ss: seq<State>, acts: seq<Action>, i: nat, z: nat)
    requires Run(ss, acts) && AsksOnly(ss, acts, {z}) && i < |acts| && OneSize(ss[i], z)
    ensures OneSize(ss[i + 1], z)
  {
    assert Enabled(ss[i], acts[i]);
    assert OneSizeHere(ss[i], acts[i].t, z) by {
      RunKeepsBase(ss, acts, i);
      HereOneSize(ss[i], acts[i].t, z);
    }
    StepKeepsOneSize(ss[i], acts[i], z);
  }

  lemma {:induction false} RunKeepsOneSize(ss: seq<State>, acts: seq<Action>, n: nat, z: nat)
    requires Run(ss, acts) && AsksOnly(ss, acts, {z}) && n < |ss|
    ensures OneSize(ss[n], z)
  {
    if n == 0 {
      assert Init(ss[0]);
    } else {
      assert OneSize(ss[n - 1], z) by { RunKeepsOneSize(ss, acts, n - 1, z); }
      OneSizeAt(ss, acts, n - 1, z);
    }
  }

  /** Then every claim is safe. */
  lemma OneSizeIsSafe(ss: seq<State>, acts: seq<Action>, z: nat)
    requires Run(ss, acts) && AsksOnly(ss, acts, {z})
    ensures SafeClaims(ss, acts)
  {
    forall i | 0 <= i < |acts| && i < |ss| ensures ClaimIsSafe(ss[i], acts[i]) {
      RunKeepsOneSize(ss, acts, i, z);
    }
  }

  /** So the global pool holds coros of that one size only. */
  lemma GlobalHasOneSize(ss: seq<State>, acts: seq<Action>, n: nat, z: nat)
    requires Run(ss, acts) && AsksOnly(ss, acts, {z}) && n < |ss|
    ensures AllOf(ss[n].global, z, ss[n].sizes) && AllOf(ss[n].global, ss[n].klass, ss[n].sizes)
  {
    OneSizeIsSafe(ss, acts, z);
    RunKeepsInv(ss, acts, n);
    RunKeepsOneSize(ss, acts, n, z);
    PositiveClass(ss[n].global, ss[n].klass, ss[n].sizes);
  }

  /** A refill that brings anything serves the request that triggered it. */
  lemma RefillServes(ss: seq<State>, acts: seq<Action>, n: nat, z: nat, t: Tid, made: bool)
    requires Run(ss, acts) && AsksOnly(ss, acts, {z}) && n < |ss|
    requires t in ss[n].pcs && ss[n].pcs[t].Serve? && ss[n].pcs[t].got > 0
    ensures var s := ss[n];
            && t in s.pools && s.pools[t] != [] && Size(s, s.pools[t][0]) == s.pcs[t].size
            && var s' := ServeStep(s, t, s.pcs[t].size, made);
               s'.pcs[t].Idle? && s.pools[t][0] in s'.places && s'.places[s.pools[t][0]].InUse? && s'.nextId == s.nextId
  {
    OneSizeIsSafe(ss, acts, z);
    RunKeepsInv(ss, acts, n);
    var s := ss[n];
    assert ClassInv(s.pcs[t], s.pools[t], s.klass, s.sizes);
  }

  /** Every coro is in one place; discarded ones are freed once, with their stack
      released once, and are on no list. */
  lemma DiscardedOnce(s: State, id: Id)
    requires Reachable(s) && id in s.places
    ensures s.frees[id] == s.releases[id] == if s.places[id].Freed? then 1 else 0
    ensures s.pcs.Keys == s.pools.Keys
    ensures id in s.global <==> s.places[id].Global?
    ensures forall t | t in s.pcs :: id in s.pools[t] <==> s.places[id] == Pool(t)
    ensures forall t | t in s.pcs :: id in HandOf(s.pcs[t]) <==> s.places[id] == Hand(t)
  {
    ReachableBase(s);
    forall t | t in s.pcs
      ensures (id in s.pools[t] <==> s.places[id] == Pool(t)) && (id in HandOf(s.pcs[t]) <==> s.places[id] == Hand(t))
    {
      assert ThreadInv(t, s.pcs[t], s.pools[t], s.places);
    }
  }

  // ------------------------------------------------- a thread's exit drain

  predicate InFlush(pc: Pc) {
    pc.ClaimLoad? || pc.ClaimStore? || pc.ClaimRead? || pc.Sort? || pc.GiveLock? || pc.Give? || pc.Spill?
  }

  predicate Draining(pc: Pc) {
    pc.Drain? || (InFlush(pc) && pc.next.None?)
  }

  /** A measure of what the drain has left to do. */
  function DrainLeft(pc: Pc, n: nat): nat {
    1000 * n + match pc
               case Drain => 4
               case ClaimLoad(_) => 3
               case ClaimStore(_, _) => 2
               case ClaimRead(_) => 1
               case Sort(_, scanned, hand, _) => if scanned == 0 then 0 else 600 + 2 * |hand|
               case GiveLock(hand, _) => 590 + 2 * |hand|
               case Give(hand, _) => 580 + 2 * |hand|
               case Spill(hand, _) => 570 + 2 * |hand|
               case _ => 0
  }

  /** The step takes thread t to its end, or nearer to it. */
  ghost predicate Nearer(s: State, s': State, t: Tid)
    requires t in s.pcs && t in s.pools
  {
    && t in s'.pcs && t in s'.pools
    && (s'.pcs[t].Idle? ==> s'.pools[t] == [])
    && (s'.pcs[t].Idle? || (Draining(s'.pcs[t]) && DrainLeft(s'.pcs[t], |s'.pools[t]|) < DrainLeft(s.pcs[t], |s.pools[t]|)))
  }

  lemma DrainClaims(s: State, t: Tid)
    requires t in s.pcs && t in s.pools && Draining(s.pcs[t]) && Bound(s.pcs[t], |s.pools[t]|)
    requires s.pcs[t].Drain? || s.pcs[t].ClaimLoad? || s.pcs[t].ClaimStore? || s.pcs[t].ClaimRead?
    ensures Nearer(s, StepOf(s, t, false), t)
  {
  }

  lemma DrainSorts(s: State, t: Tid)
    requires t in s.pcs && t in s.pools && Draining(s.pcs[t]) && Bound(s.pcs[t], |s.pools[t]|) && s.pcs[t].Sort?
    ensures Nearer(s, StepOf(s, t, false), t)
  {
  }

  lemma DrainGives(s: State, t: Tid)
    requires t in s.pcs && t in s.pools && Draining(s.pcs[t]) && Bound(s.pcs[t], |s.pools[t]|)
    requires s.pcs[t].GiveLock? || s.pcs[t].Give? || s.pcs[t].Spill?
    ensures Nearer(s, StepOf(s, t, false), t)
  {
  }

  /** Each step of a draining thread brings it nearer its end, which is an empty
      pool, */
  lemma DrainProgress(s: State, t: Tid)
    requires Base(s) && t in s.pcs && Draining(s.pcs[t])
    ensures DrainLeft(s.pcs[t], |s.pools[t]|) > 0 && Nearer(s, StepOf(s, t, false), t)
  {
    assert Bound(s.pcs[t], |s.pools[t]|) by { assert ThreadInv(t, s.pcs[t], s.pools[t], s.places); }
    match s.pcs[t] {
      case Sort(_, _, _, _) => DrainSorts(s, t);
      case GiveLock(_, _) => DrainGives(s, t);
      case Give(_, _) => DrainGives(s, t);
      case Spill(_, _) => DrainGives(s, t);
      case _ => DrainClaims(s, t);
    }
  }

  ghost predicate Untouched(s: State, s': State, t: Tid) {
    t in s.pcs && t in s.pools && t in s'.pcs && t in s'.pools && s'.pcs[t] == s.pcs[t] && s'.pools[t] == s.pools[t]
  }

  lemma NewLeaves(s: State, u: Tid, made: bool, t: Tid)
    requires u in s.pcs && u in s.pools && u != t && t in s.pcs && t in s.pools
    requires !s.pcs[u].Idle? && !InFlush(s.pcs[u])
    ensures Untouched(s, StepOf(s, u, made), t)
  {
  }

  lemma FlushLeaves(s: State, u: Tid, made: bool, t: Tid)
    requires u in s.pcs && u in s.pools && u != t && t in s.pcs && t in s.pools
    requires InFlush(s.pcs[u])
    ensures Untouched(s, StepOf(s, u, made), t)
  {
  }

  /** and nobody else's step touches it. */
  lemma DrainUndisturbed(s: State, a: Action, t: Tid)
    requires Enabled(s, a) && a.t != t && t in s.pcs && t in s.pools
    ensures Untouched(s, Apply(s, a), t)
  {
    if a.Step? {
      if InFlush(s.pcs[a.t]) { FlushLeaves(s, a.t, a.made, t); } else { NewLeaves(s, a.t, a.made, t); }
    }
  }

  /** The steps thread t takes among these. */
  function OwnSteps(acts: seq<Action>, t: Tid): nat {
    if acts == [] then 0
    else OwnSteps(acts[..|acts| - 1], t) + if acts[|acts| - 1].t == t then 1 else 0
  }

  /** Thread t has drained its pool. */
  predicate Drained(s: State, t: Tid) { t in s.pcs && t in s.pools && s.pcs[t].Idle? && s.pools[t] == [] }

  ghost predicate InDrain(s: State, t: Tid) { t in s.pcs && t in s.pools && Draining(s.pcs[t]) }

  function Left(s: State, t: Tid): nat { if t in s.pcs && t in s.pools then DrainLeft(s.pcs[t], |s.pools[t]|) else 0 }

  /** One more step of anybody's. */
  lemma DrainStep(s: State, a: Action, t: Tid)
    requires Base(s) && Enabled(s, a) && InDrain(s, t)
    ensures var s' := Apply(s, a);
            Drained(s', t) || (InDrain(s', t) && Left(s', t) + (if a.t == t then 1 else 0) <= Left(s, t))
  {
    if a.t == t {
      DrainProgress(s, t);
      assert StepOf(s, t, a.made) == StepOf(s, t, false);
    } else {
      DrainUndisturbed(s, a, t);
    }
  }

  lemma {:induction false} PathKeepsBase(ss: seq<State>, acts: seq<Action>, n: nat)
    requires Path(ss, acts) && Base(ss[0]) && n < |ss|
    ensures Base(ss[n])
  {
    if n == 0 {
    } else {
      PathKeepsBase(ss, acts, n - 1);
      assert Enabled(ss[n - 1], acts[n - 1]);
      StepKeepsBase(ss[n - 1], acts[n - 1]);
    }
  }

  lemma DrainStepAt(ss: seq<State>, acts: seq<Action>, i: nat, t: Tid)
    requires Path(ss, acts) && Base(ss[0]) && i < |acts| && InDrain(ss[i], t)
    ensures Drained(ss[i + 1], t)
         || (InDrain(ss[i + 1], t) && Left(ss[i + 1], t) + (if acts[i].t == t then 1 else 0) <= Left(ss[i], t))
  {
    PathKeepsBase(ss, acts, i);
    DrainStep(ss[i], acts[i], t);
  }

  lemma OwnStepsNext(acts: seq<Action>, i: nat, t: Tid)
    requires i < |acts|
    ensures OwnSteps(acts[..i + 1], t) == OwnSteps(acts[..i], t) + if acts[i].t == t then 1 else 0
  {
    assert acts[..i + 1][..i] == acts[..i];
  }

  lemma {:induction false} DrainCounts(ss: seq<State>, acts: seq<Action>, n: nat, t: Tid)
    requires Path(ss, acts) && Base(ss[0]) && InDrain(ss[0], t) && n < |ss|
    requires forall k | 0 <= k <= n :: !Drained(ss[k], t)
    ensures InDrain(ss[n], t) && Left(ss[n], t) + OwnSteps(acts[..n], t) <= Left(ss[0], t)
  {
    if n == 0 {
      assert acts[..0] == [];
    } else {
      var own, mine := OwnSteps(acts[..n - 1], t), if acts[n - 1].t == t then 1 else 0;
      assert InDrain(ss[n - 1], t) && Left(ss[n - 1], t) + own <= Left(ss[0], t) by { DrainCounts(ss, acts, n - 1, t); }
      assert InDrain(ss[n], t) && Left(ss[n], t) + mine <= Left(ss[n - 1], t) by { DrainStepAt(ss, acts, n - 1, t); }
      OwnStepsNext(acts, n - 1, t);
    }
  }

  /** A thread's exit drain ends: whatever the other threads do meanwhile, after as
      many steps of its own as it had left its pool has been emptied. */
  lemma DrainTerminates(ss: seq<State>, acts: seq<Action>, t: Tid)
    requires Path(ss, acts) && Reachable(ss[0]) && InDrain(ss[0], t) && OwnSteps(acts, t) >= Left(ss[0], t)
    ensures exists n :: 0 <= n < |ss| && Drained(ss[n], t)
  {
    ReachableBase(ss[0]);
    if forall n | 0 <= n < |ss| :: !Drained(ss[n], t) {
      DrainCounts(ss, acts, |acts|, t);
      assert acts[..|acts|] == acts;
      PathKeepsBase(ss, acts, |acts|);
      DrainProgress(ss[|acts|], t);
    }
  }

  // --------------------------------------------- the claim as it is written

  /** Some run that asks so leads from one state to the other. */
  ghost predicate Reaches(s: State, s': State, zs: set<nat>) {
    exists ss, acts :: Path(ss, acts) && AsksOnly(ss, acts, zs) && ss[0] == s && ss[|acts|] == s'
  }

  lemma One(s: State, a: Action, zs: set<nat>)
    requires Enabled(s, a) && (a.CallNew? && s.klass == 0 ==> a.size in zs)
    ensures Reaches(s, Apply(s, a), zs)
  {
    assert Path([s, Apply(s, a)], [a]) && AsksOnly([s, Apply(s, a)], [a], zs);
  }

  lemma Then(s: State, s1: State, s2: State, zs: set<nat>)
    requires Reaches(s, s1, zs) && Reaches(s1, s2, zs)
    ensures Reaches(s, s2, zs)
  {
    var ss, acts :| Path(ss, acts) && AsksOnly(ss, acts, zs) && ss[0] == s && ss[|acts|] == s1;
    var tt, bcts :| Path(tt, bcts) && AsksOnly(tt, bcts, zs) && tt[0] == s1 && tt[|bcts|] == s2;
    var all, cts := JoinPaths(ss, acts, tt, bcts, zs);
  }

  lemma JoinPaths(ss: seq<State>, acts: seq<Action>, tt: seq<State>, bcts: seq<Action>, zs: set<nat>)
    returns (all: seq<State>, cts: seq<Action>)
    requires Path(ss, acts) && Path(tt, bcts) && tt[0] == ss[|acts|] && AsksOnly(ss, acts, zs) && AsksOnly(tt, bcts, zs)
    ensures Path(all, cts) && AsksOnly(all, cts, zs) && all[0] == ss[0] && all[|cts|] == tt[|bcts|]
  {
    all, cts := ss + tt[1..], acts + bcts;
    forall i | 0 <= i < |cts|
      ensures Enabled(all[i], cts[i]) && all[i + 1] == Apply(all[i], cts[i])
      ensures cts[i].CallNew? && all[i].klass == 0 ==> cts[i].size in zs
    {
      if i >= |acts| {
        assert all[i] == tt[i - |acts|] && all[i + 1] == tt[i - |acts| + 1] && cts[i] == bcts[i - |acts|];
      }
    }
  }

  lemma Three(s: State, a: Action, s1: State, b: Action, s2: State, c: Action, s3: State, zs: set<nat>)
    requires Enabled(s, a) && Apply(s, a) == s1 && Enabled(s1, b) && Apply(s1, b) == s2 && Enabled(s2, c) && Apply(s2, c) == s3
    requires !b.CallNew? && !c.CallNew? && (a.CallNew? && s.klass == 0 ==> a.size in zs)
    ensures Reaches(s, s3, zs)
  {
    One(s, a, zs);
    One(s1, b, zs);
    One(s2, c, zs);
    Then(s, s1, s2, zs);
    Then(s, s2, s3, zs);
  }

  /** A new coro, made because this thread's pool is empty and no class claimed. */
  function Born(s: State, size: nat): State {
    s.(sizes := s.sizes[s.nextId := size], places := s.places[s.nextId := InUse], nextId := s.nextId + 1)
  }

  lemma BornRun(s: State, t: Tid, size: nat, zs: set<nat>)
    requires t in s.pcs && t in s.pools && s.pcs[t].Idle? && s.pools[t] == [] && s.klass == 0 && size > 0 && size in zs
    ensures Reaches(s, Born(s, size), zs)
  {
    var s1, s2 := Go(s, t, New(size)), Go(s, t, Serve(size, 0));
    assert s1.pcs[t := Serve(size, 0)] == s2.pcs && s2.pcs[t := Idle] == s.pcs;
    Three(s, CallNew(t, size), s1, Step(t, true), s2, Step(t, true), Born(s, size), zs);
  }

  lemma PooledRun(s: State, t: Tid, id: Id, zs: set<nat>)
    requires t in s.pcs && t in s.pools && s.pcs[t].Idle? && s.pools[t] == [] && id in s.places && s.places[id].InUse?
    ensures Reaches(s, s.(pools := s.pools[t := [id]], places := s.places[id := Pool(t)]), zs)
  {
    var s1, s2 := Go(To(s, id, Hand(t)), t, Keep(id)), Go(To(s, id, Hand(t)), t, Put(id));
    assert s1.pcs[t := Put(id)] == s2.pcs && s2.pcs[t := Idle] == s.pcs && s2.places[id := Pool(t)] == s.places[id := Pool(t)];
    assert [id] + [] == [id];
    var s3 := s.(pools := s.pools[t := [id]], places := s.places[id := Pool(t)]);
    Three(s, CallDestroy(t, id, false), s1, Step(t, false), s2, Step(t, false), s3, zs);
  }

  lemma ClaimingRun(s: State, t: Tid, zs: set<nat>)
    requires t in s.pcs && t in s.pools && s.pcs[t].Idle? && s.pools[t] != [] && s.klass == 0
    ensures Reaches(s, Go(s, t, ClaimStore(Size(s, s.pools[t][0]), None)), zs)
  {
    var s1, s2, s3 := Go(s, t, Drain), Go(s, t, ClaimLoad(None)), Go(s, t, ClaimStore(Size(s, s.pools[t][0]), None));
    assert s1.pcs[t := ClaimLoad(None)] == s2.pcs && s2.pcs[t := ClaimStore(Size(s, s.pools[t][0]), None)] == s3.pcs;
    Three(s, CallDrain(t), s1, Step(t, false), s2, Step(t, false), s3, zs);
  }

  /** A thread with one pooled coro of this size, exiting, has read the class as
      unclaimed and is about to claim it. */
  function Claiming(s: State, t: Tid, size: nat): State {
    Go(Born(s, size), t, ClaimStore(size, None))
      .(pools := s.pools[t := [s.nextId]], places := s.places[s.nextId := Pool(t)])
  }

  lemma SetUp(s: State, t: Tid, size: nat, zs: set<nat>)
    requires t in s.pcs && t in s.pools && s.pcs[t].Idle? && s.pools[t] == [] && s.klass == 0 && size > 0 && size in zs
    ensures Reaches(s, Claiming(s, t, size), zs)
  {
    var s1 := Born(s, size);
    var s2 := s1.(pools := s.pools[t := [s.nextId]], places := s1.places[s.nextId := Pool(t)]);
    assert s1.places[s.nextId := Pool(t)] == s.places[s.nextId := Pool(t)];
    BornRun(s, t, size, zs);
    PooledRun(s1, t, s.nextId, zs);
    ClaimingRun(s2, t, zs);
    Then(s, s1, s2, zs);
    Then(s, s2, Claiming(s, t, size), zs);
  }

  /** Thread t claims the class and picks its one coro, */
  lemma PickRun(s: State, t: Tid, id: Id, size: nat, zs: set<nat>)
    requires t in s.pcs && t in s.pools && s.pcs[t] == ClaimStore(size, None) && s.pools[t] == [id]
    requires id in s.sizes && s.sizes[id] == size
    ensures Reaches(s, Go(s, t, Sort(size, 1, [id], None))
                         .(klass := size, pools := s.pools[t := []], places := s.places[id := Hand(t)]), zs)
  {
    var st := Step(t, false);
    var s1, s2 := Go(s, t, ClaimRead(None)).(klass := size), Go(s, t, Sort(size, 0, [], None)).(klass := size);
    var s3 := Go(s, t, Sort(size, 1, [id], None)).(klass := size, pools := s.pools[t := []], places := s.places[id := Hand(t)]);
    assert s1.pcs[t := Sort(size, 0, [], None)] == s2.pcs && s2.pcs[t := Sort(size, 1, [id], None)] == s3.pcs;
    assert [id][1..] == [] && [id] + [] == [id];
    Three(s, st, s1, st, s2, st, s3, zs);
  }

  /** and gives it to the global pool. */
  lemma HandOverRun(s: State, t: Tid, id: Id, size: nat, zs: set<nat>)
    requires t in s.pcs && t in s.pools && s.pcs[t] == Sort(size, 1, [id], None) && s.pools[t] == []
    requires |s.global| < GLOBAL_CAP && s.lock.None?
    ensures Reaches(s, Go(s, t, Give([], None)).(lock := Some(t), places := s.places[id := Global], global := [id] + s.global), zs)
  {
    var st := Step(t, false);
    var s1, s2 := Go(s, t, GiveLock([id], None)), Go(s, t, Give([id], None)).(lock := Some(t));
    var s3 := Go(s, t, Give([], None)).(lock := Some(t), places := s.places[id := Global], global := [id] + s.global);
    assert s1.pcs[t := Give([id], None)] == s2.pcs && s2.pcs[t := Give([], None)] == s3.pcs;
    assert [id][1..] == [];
    Three(s, st, s1, st, s2, st, s3, zs);
  }

  /** A drain that has given its last coro ends. */
  lemma DrainEnds(s: State, t: Tid, zs: set<nat>)
    requires t in s.pcs && t in s.pools && s.pcs[t] == Give([], None) && s.pools[t] == []
    ensures Reaches(s, Go(s, t, Idle).(lock := None), zs)
  {
    var st := Step(t, false);
    var s1, s2, s3 := Go(s, t, Spill([], None)).(lock := None), Go(s, t, Drain).(lock := None), Go(s, t, Idle).(lock := None);
    assert s1.pcs[t := Drain] == s2.pcs && s2.pcs[t := Idle] == s3.pcs;
    Three(s, st, s1, st, s2, st, s3, zs);
  }

  /** Two idle threads and nothing pooled. */
  function TwoIdle(): State {
    State(map[], map[0 := [], 1 := []], [], 0, None, map[0 := Idle, 1 := Idle], map[], multiset{}, multiset{}, 0)
  }

  /** Both have put a coro of size y or z in their pools, are exiting, and have read
      the class as unclaimed. */
  lemma TwoClaim(y: nat, z: nat, zs: set<nat>) returns (s: State)
    requires y > 0 && z > 0 && {y, z} <= zs
    ensures Reaches(TwoIdle(), s, zs)
    ensures s.pcs == map[0 := ClaimStore(y, None), 1 := ClaimStore(z, None)] && s.pools == map[0 := [0], 1 := [1]]
    ensures s.sizes == map[0 := y, 1 := z] && s.global == [] && s.lock.None?
  {
    var s1 := Claiming(TwoIdle(), 0, y);
    s := Claiming(s1, 1, z);
    SetUp(TwoIdle(), 0, y, zs);
    SetUp(s1, 1, z, zs);
    Then(TwoIdle(), s1, s, zs);
  }

  /** The first one claims the class and picks its coro, */
  lemma FirstPicks(y: nat, z: nat, zs: set<nat>) returns (s: State)
    requires y > 0 && z > 0 && {y, z} <= zs
    ensures Reaches(TwoIdle(), s, zs)
    ensures s.pcs == map[0 := Sort(y, 1, [0], None), 1 := ClaimStore(z, None)] && s.pools == map[0 := [], 1 := [1]]
    ensures s.sizes == map[0 := y, 1 := z] && s.global == [] && s.lock.None?
  {
    var s1 := TwoClaim(y, z, zs);
    PickRun(s1, 0, 0, y, zs);
    s := Go(s1, 0, Sort(y, 1, [0], None)).(klass := y, pools := s1.pools[0 := []], places := s1.places[0 := Hand(0)]);
    Then(TwoIdle(), s1, s, zs);
  }

  /** which gets to the global pool; */
  lemma FirstGives(y: nat, z: nat, zs: set<nat>) returns (s: State)
    requires y > 0 && z > 0 && {y, z} <= zs
    ensures Reaches(TwoIdle(), s, zs)
    ensures s.pcs == map[0 := Give([], None), 1 := ClaimStore(z, None)] && s.pools == map[0 := [], 1 := [1]]
    ensures s.sizes == map[0 := y, 1 := z] && s.global == [0] && s.lock == Some(0)
  {
    var s1 := FirstPicks(y, z, zs);
    HandOverRun(s1, 0, 0, y, zs);
    s := Go(s1, 0, Give([], None)).(lock := Some(0), places := s1.places[0 := Global], global := [0] + s1.global);
    Then(TwoIdle(), s1, s, zs);
  }

  /** then the second one's claim lands, and it picks its own coro. */
  lemma LateClaim(y: nat, z: nat, zs: set<nat>) returns (s: State)
    requires y > 0 && z > 0 && {y, z} <= zs
    ensures Reaches(TwoIdle(), s, zs)
    ensures s.pcs == map[0 := Idle, 1 := Sort(z, 1, [1], None)] && s.pools == map[0 := [], 1 := []]
    ensures s.sizes == map[0 := y, 1 := z] && s.global == [0] && s.klass == z && s.lock.None?
  {
    var s1 := FirstGives(y, z, zs);
    DrainEnds(s1, 0, zs);
    var s2 := Go(s1, 0, Idle).(lock := None);
    PickRun(s2, 1, 1, z, zs);
    s := Go(s2, 1, Sort(z, 1, [1], None)).(klass := z, pools := s2.pools[1 := []], places := s2.places[1 := Hand(1)]);
    Then(TwoIdle(), s1, s2, zs);
    Then(TwoIdle(), s2, s, zs);
  }

  /** So any two sizes asked for before the class is claimed can end up together. */
  lemma SizesMix(y: nat, z: nat, zs: set<nat>) returns (s0: State, s: State)
    requires y > 0 && z > 0 && {y, z} <= zs && y != z
    ensures Init(s0) && Reaches(s0, s, zs)
    ensures s.global == [1, 0] && s.sizes == map[0 := y, 1 := z] && s.klass == z
    ensures !AllOf(s.global, s.klass, s.sizes)
  {
    s0 := TwoIdle();
    var s1 := LateClaim(y, z, zs);
    HandOverRun(s1, 1, 1, z, zs);
    s := Go(s1, 1, Give([], None)).(lock := Some(1), places := s1.places[1 := Global], global := [1] + s1.global);
    Then(s0, s1, s, zs);
    assert s.sizes[s.global[1]] == y;
  }

  lemma AsksForOne(ss: seq<State>, acts: seq<Action>, zs: set<nat>, z: nat)
    requires Run(ss, acts) && AsksOnly(ss, acts, zs) && forall y | y in zs && y > 0 :: y == z
    ensures AsksOnly(ss, acts, {z})
  {
    forall i | 0 <= i < |acts| && i < |ss| && acts[i].CallNew? && ss[i].klass == 0 ensures acts[i].size in {z} {
      assert Enabled(ss[i], acts[i]);
    }
  }

  /** Whatever the threads do, the global pool holds one size, if and only if no two
      sizes are asked for before the class is claimed. */
  lemma OneSizeIff(zs: set<nat>)
    ensures (forall ss: seq<State>, acts | Run(ss, acts) && AsksOnly(ss, acts, zs) ::
               AllOf(ss[|acts|].global, ss[|acts|].klass, ss[|acts|].sizes)) <==>
            (forall y, z | y in zs && z in zs && y > 0 && z > 0 :: y == z)
  {
    if y, z :| y in zs && z in zs && y > 0 && z > 0 && y != z {
      var s0, s := SizesMix(y, z, zs);
      var ss, acts :| Path(ss, acts) && AsksOnly(ss, acts, zs) && ss[0] == s0 && ss[|acts|] == s;
      assert Run(ss, acts);
    } else {
      forall ss: seq<State>, acts | Run(ss, acts) && AsksOnly(ss, acts, zs)
        ensures AllOf(ss[|acts|].global, ss[|acts|].klass, ss[|acts|].sizes)
      {
        var z := 0;
        if y :| y in zs && y > 0 { z := y; }
        AsksForOne(ss, acts, zs, z);
        GlobalHasOneSize(ss, acts, |acts|, z);
      }
    }
  }

  /** A request for the claimed size takes the global pool's lock, */
  lemma RequestRun(s: State, t: Tid, zs: set<nat>)
    requires t in s.pcs && t in s.pools && s.pcs[t].Idle? && s.pools[t] == [] && s.klass > 0 && s.lock.None?
    ensures Reaches(s, Go(s, t, Taking(s.klass, 0)).(lock := Some(t)), zs)
  {
    var st, k := Step(t, false), s.klass;
    var s1, s2, s3 := Go(s, t, New(k)), Go(s, t, TakeLock(k)), Go(s, t, Taking(k, 0)).(lock := Some(t));
    assert s1.pcs[t := TakeLock(k)] == s2.pcs && s2.pcs[t := Taking(k, 0)] == s3.pcs;
    Three(s, CallNew(t, k), s1, st, s2, st, s3, zs);
  }

  /** and refills from it. */
  lemma RefillRun(s: State, t: Tid, id: Id, size: nat, zs: set<nat>)
    requires t in s.pcs && t in s.pools && s.pcs[t] == Taking(size, 0) && s.pools[t] == [] && s.global == [id]
    ensures Reaches(s, Go(To(s, id, Pool(t)), t, Serve(size, 1)).(pools := s.pools[t := [id]], global := [], lock := None), zs)
  {
    var st := Step(t, false);
    var s2 := Go(To(s, id, Pool(t)), t, Serve(size, 1)).(pools := s.pools[t := [id]], global := [], lock := None);
    var s1 := Go(s2, t, Taking(size, 1)).(lock := s.lock);
    assert [id][1..] == [] && [] + [id] == [id];
    assert s.pcs[t := Taking(size, 1)] == s1.pcs && s1.pcs[t := Serve(size, 1)] == s2.pcs;
    One(s, st, zs);
    One(s1, st, zs);
    Then(s, s1, s2, zs);
  }

  /** And a refill between the late claim and the second coro's arrival fails its own
      request: it brings a coro of another size. */
  lemma RefillMisses(y: nat, z: nat, zs: set<nat>) returns (s0: State, s: State)
    requires y > 0 && z > 0 && {y, z} <= zs && y != z
    ensures Init(s0) && Reaches(s0, s, zs)
    ensures 0 in s.pcs && 0 in s.pools && s.pcs[0] == Serve(z, 1) && s.pools[0] == [0] && Size(s, 0) == y
  {
    s0 := TwoIdle();
    var s1 := LateClaim(y, z, zs);
    RequestRun(s1, 0, zs);
    var s2 := Go(s1, 0, Taking(z, 0)).(lock := Some(0));
    RefillRun(s2, 0, 0, z, zs);
    s := Go(To(s2, 0, Pool(0)), 0, Serve(z, 1)).(pools := s2.pools[0 := [0]], global := [], lock := None);
    Then(s0, s1, s2, zs);
    Then(s0, s2, s, zs);
  }
}
