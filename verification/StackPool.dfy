/**
 The stack allocator of coro.c with the arena off: per-thread caches over a shared
 depot, any number of threads.  A step is one access to a thread's own list, one
 access to the depot under its lock, or one map or unmap.
 */
module StackPool {
  import opened Options
  import opened Placement

  const TLS_CAP: nat := 64
  const TLS_KEEP: nat := 32
  const REFILL_BATCH: nat := 32

  type Tid = nat
  type Id = nat     // a mapping

  datatype Place = Cache(t: Tid) | Depot | Held | Hand(t: Tid) | Gone

  datatype Pc =
    | Idle
    // acquire
    | Pop(size: nat, second: bool) | RefillLock(size: nat) | Refill(size: nat, moved: nat) | MapNew(size: nat)
    // release, warm-up
    | Warm(id: Id) | Put(id: Id)
    // flush
    | Cut(keep: nat) | FlushLock(hand: seq<Id>, cap: int) | Flush(hand: seq<Id>, cap: int)
    // prewarm
    | PreCheck(size: nat, cap: int) | PreMap(size: nat, cap: int) | PrePush(id: Id, cap: int)

  /** sizes, caches, depot, live are the runtime's; the rest is history: where
      each mapping is, unmaps, threads inside an acquire, failed maps, warm-up
      releases. */
  datatype State = State(
    sizes: map<Id, nat>, caches: map<Tid, seq<Id>>, depot: seq<Id>, lock: Option<Tid>, live: int,
    pcs: map<Tid, Pc>,
    places: map<Id, Place>, held: set<Id>, unmaps: multiset<Id>, acquiring: set<Tid>, failed: nat, warm: nat,
    nextId: Id)

  datatype Action =
    | CallAcquire(t: Tid, size: nat)
    | CallRelease(t: Tid, id: Id)
    | CallWarm(t: Tid, size: nat, mapped: bool)
    | CallDrain(t: Tid)
    | CallPrewarm(t: Tid, size: nat, cap: int)
    | Step(t: Tid, mapped: bool, sampled: bool, cap: int)

  function HandOf(pc: Pc): seq<Id> {
    match pc
    case Warm(id) => [id]
    case Put(id) => [id]
    case FlushLock(hand, _) => hand
    case Flush(hand, _) => hand
    case PrePush(id, _) => [id]
    case _ => []
  }

  predicate Locking(pc: Pc) { pc.RefillLock? || pc.FlushLock? || pc.PreCheck? || pc.PrePush? }

  predicate Enabled(s: State, a: Action) {
    && a.t in s.pcs && a.t in s.caches
    && match a
       case CallRelease(t, id) => s.pcs[t].Idle? && id in s.held
       case Step(t, _, _, _) => !s.pcs[t].Idle? && (Locking(s.pcs[t]) ==> s.lock.None?)
       case _ => s.pcs[a.t].Idle?
  }

  function Go(s: State, t: Tid, pc: Pc): State { s.(pcs := s.pcs[t := pc]) }

  /** Move one mapping to another place. */
  function To(s: State, id: Id, p: Place): State { s.(places := s.places[id := p]) }

  function Unmap(s: State, id: Id): State { To(s, id, Gone).(unmaps := s.unmaps + multiset{id}) }

  /** A fresh mapping. */
  function Mapped(s: State, size: nat, p: Place): State {
    To(s, s.nextId, p).(sizes := s.sizes[s.nextId := size], nextId := s.nextId + 1)
  }

  function PopStep(s: State, t: Tid, size: nat, second: bool): State
    requires t in s.caches
  {
    var c := s.caches[t];
    if c == [] then Go(s, t, if second then MapNew(size) else RefillLock(size))
    else if c[0] !in s.sizes || s.sizes[c[0]] != size then Unmap(s, c[0]).(caches := s.caches[t := c[1..]])
    else
      Go(To(s, c[0], Held), t, Idle)
        .(caches := s.caches[t := c[1..]], held := s.held + {c[0]}, acquiring := s.acquiring - {t})
  }

  function RefillStep(s: State, t: Tid, size: nat, moved: nat): State
    requires t in s.caches
  {
    if moved >= REFILL_BATCH || s.depot == [] then Go(s, t, Pop(size, true)).(lock := None)
    else
      var g := s.depot[0];
      var s1 := s.(depot := s.depot[1..]);
      if g !in s.sizes || s.sizes[g] != size then Unmap(s1, g)
      else Go(To(s1, g, Cache(t)), t, Refill(size, moved + 1)).(caches := s.caches[t := [g] + s.caches[t]])
  }

  function MapStep(s: State, t: Tid, size: nat, mapped: bool): State {
    if mapped then Go(Mapped(s, size, Held), t, Idle).(held := s.held + {s.nextId}, acquiring := s.acquiring - {t})
    else Go(s, t, Idle).(failed := s.failed + 1, acquiring := s.acquiring - {t})
  }

  /** The rest of `runloom_stack_release` after its decrement. */
  function PutStep(s: State, t: Tid, id: Id, sampled: bool): State
    requires t in s.caches
  {
    if sampled then Go(Unmap(s, id), t, Idle)
    else
      var c := [id] + s.caches[t];
      Go(To(s, id, Cache(t)), t, if |c| > TLS_CAP then Cut(TLS_KEEP) else Idle).(caches := s.caches[t := c])
  }

  function CutStep(s: State, t: Tid, keep: nat, cap: int): State
    requires t in s.caches
  {
    var c := s.caches[t];
    if |c| <= keep then Go(s, t, Idle)
    else
      Go(s, t, FlushLock(c[keep..], cap))
        .(caches := s.caches[t := c[..keep]],
          places := map id | id in s.places :: if id in c[keep..] then Hand(t) else s.places[id])
  }

  function FlushStep(s: State, t: Tid, hand: seq<Id>, cap: int): State {
    if hand == [] then Go(s, t, Idle).(lock := None)
    else
      var s1 := Go(s, t, Flush(hand[1..], cap));
      if |s.depot| < cap then To(s1, hand[0], Depot).(depot := [hand[0]] + s.depot) else Unmap(s1, hand[0])
  }

  function PrePushStep(s: State, t: Tid, id: Id, cap: int): State {
    if |s.depot| < cap then Go(To(s, id, Depot), t, Idle).(depot := [id] + s.depot) else Go(Unmap(s, id), t, Idle)
  }

  function StepOf(s: State, t: Tid, mapped: bool, sampled: bool, cap: int): State
    requires t in s.pcs && t in s.caches
  {
    match s.pcs[t]
    case Pop(size, second) => PopStep(s, t, size, second)
    case RefillLock(size) => Go(s, t, Refill(size, 0)).(lock := Some(t))
    case Refill(size, moved) => RefillStep(s, t, size, moved)
    case MapNew(size) => MapStep(s, t, size, mapped)
    case Warm(id) => Go(s, t, Put(id)).(live := s.live - 1, warm := s.warm + 1)
    case Put(id) => PutStep(s, t, id, sampled)
    case Cut(keep) => CutStep(s, t, keep, cap)
    case FlushLock(hand, c) => Go(s, t, Flush(hand, c)).(lock := Some(t))
    case Flush(hand, c) => FlushStep(s, t, hand, c)
    case PreCheck(size, c) => Go(s, t, if |s.depot| >= c then Idle else PreMap(size, c))
    case PreMap(size, c) => if mapped then Go(Mapped(s, size, Hand(t)), t, PrePush(s.nextId, c)) else Go(s, t, Idle)
    case PrePush(id, c) => PrePushStep(s, t, id, c)
    case Idle => s
  }

  function Apply(s: State, a: Action): State
    requires Enabled(s, a)
  {
    match a
    case CallAcquire(t, size) => Go(s, t, Pop(size, false)).(live := s.live + 1, acquiring := s.acquiring + {t})
    case CallRelease(t, id) => Go(To(s, id, Hand(t)), t, Put(id)).(live := s.live - 1, held := s.held - {id})
    case CallWarm(t, size, mapped) => if mapped then Go(Mapped(s, size, Hand(t)), t, Warm(s.nextId)) else s
    case CallDrain(t) => Go(s, t, Cut(0))
    case CallPrewarm(t, size, cap) => Go(s, t, PreCheck(size, cap))
    case Step(t, mapped, sampled, cap) => StepOf(s, t, mapped, sampled, cap)
  }

  ghost predicate Init(s: State) {
    && s.sizes == map[] && s.depot == [] && s.lock.None? && s.live == 0 && s.places == map[] && s.held == {}
    && s.unmaps == multiset{} && s.acquiring == {} && s.failed == 0 && s.warm == 0 && s.pcs.Keys == s.caches.Keys
    && (forall t | t in s.caches :: s.caches[t] == []) && (forall t | t in s.pcs :: s.pcs[t].Idle?)
  }

  // ------------------------------------------------------------- invariant

  /** How long a thread's cache may be where it is. */
  predicate Bound(pc: Pc, n: nat) {
    match pc
    case Pop(_, second) => n <= if second then REFILL_BATCH else TLS_CAP
    case RefillLock(_) => n == 0
    case Refill(_, moved) => moved <= REFILL_BATCH && n <= moved
    case Cut(_) => n <= TLS_CAP + 1
    case FlushLock(_, _) => n <= TLS_KEEP
    case Flush(_, _) => n <= TLS_KEEP
    case _ => n <= TLS_CAP
  }

  predicate InAcquire(pc: Pc) { pc.Pop? || pc.RefillLock? || pc.Refill? || pc.MapNew? }

  ghost predicate PlacesOk(s: State) {
    && Lists(s.depot, Depot, s.places)
    && (forall id :: id in s.held <==> id in s.places && s.places[id].Held?)
    && (forall id :: s.unmaps[id] == if id in s.places && s.places[id].Gone? then 1 else 0)
    && (forall id | id in s.places :: id < s.nextId)
  }

  ghost predicate ThreadInv(t: Tid, pc: Pc, cache: seq<Id>, places: map<Id, Place>) {
    && Lists(cache, Cache(t), places) && Lists(HandOf(pc), Hand(t), places)
    && Bound(pc, |cache|) && (pc.Cut? ==> pc.keep <= TLS_KEEP)
  }

  ghost predicate ThreadsOk(pcs: map<Tid, Pc>, caches: map<Tid, seq<Id>>, places: map<Id, Place>) {
    pcs.Keys == caches.Keys && forall t | t in pcs :: ThreadInv(t, pcs[t], caches[t], places)
  }

  /** Nothing is in the hands or the cache of a thread that is not there. */
  ghost predicate OwnersOk(places: map<Id, Place>, pcs: map<Tid, Pc>) {
    forall id | id in places && (places[id].Cache? || places[id].Hand?) :: places[id].t in pcs
  }

  ghost predicate LiveOk(live: int, held: set<Id>, acquiring: set<Tid>, failed: nat, warm: nat, pcs: map<Tid, Pc>) {
    && live == |held| + |acquiring| + failed - warm
    && (forall t :: t in acquiring <==> t in pcs && InAcquire(pcs[t]))
  }

  predicate HoldsLock(pc: Pc) { pc.Refill? || pc.Flush? }

  ghost predicate LockOk(lock: Option<Tid>, pcs: map<Tid, Pc>) {
    forall t | t in pcs :: HoldsLock(pcs[t]) <==> lock == Some(t)
  }

  ghost predicate Inv(s: State) {
    && PlacesOk(s) && ThreadsOk(s.pcs, s.caches, s.places) && OwnersOk(s.places, s.pcs)
    && LiveOk(s.live, s.held, s.acquiring, s.failed, s.warm, s.pcs) && LockOk(s.lock, s.pcs)
  }

  // ------------------------------------------------------------ frame lemmas

  /** A place no other thread's lists are about. */
  predicate OpenTo(p: Place, t: Tid) { p.Cache? || p.Hand? ==> p.t == t }

  /** Thread t moves its pc and cache only. */
  ghost predicate Alone(s: State, s': State, t: Tid) {
    && t in s.pcs && t in s.caches && t in s'.pcs && t in s'.caches
    && s'.pcs == s.pcs[t := s'.pcs[t]] && s'.caches == s.caches[t := s'.caches[t]]
  }

  /** ... and takes mapping id from one open place to another. */
  ghost predicate Moves(s: State, s': State, t: Tid, id: Id, to: Place) {
    && s'.places == s.places[id := to] && OpenTo(to, t) && (id in s.places ==> OpenTo(s.places[id], t) && !s.places[id].Gone?)
    && s'.nextId == (if id in s.places then s.nextId else s.nextId + 1) && (id !in s.places ==> id == s.nextId)
    && s'.held == (if to.Held? then s.held + {id} else s.held - {id})
    && s'.unmaps == (if to.Gone? then s.unmaps + multiset{id} else s.unmaps)
  }

  /** The counter and the lock follow thread t's pc. */
  ghost predicate Accounts(s: State, s': State, t: Tid)
    requires t in s.pcs && t in s'.pcs
  {
    && s'.acquiring == (if InAcquire(s'.pcs[t]) then s.acquiring + {t} else s.acquiring - {t})
    && s'.live - |s'.held| - s'.failed + s'.warm
       == s.live - |s.held| - s.failed + s.warm
          + (if InAcquire(s'.pcs[t]) then 1 else 0) - (if InAcquire(s.pcs[t]) then 1 else 0)
    && (if HoldsLock(s'.pcs[t]) == HoldsLock(s.pcs[t]) then s'.lock == s.lock
        else if HoldsLock(s'.pcs[t]) then s.lock.None? && s'.lock == Some(t)
        else s'.lock.None?)
  }

  /** A step of thread t that moves mapping id has kept what concerns them. */
  ghost predicate Good(s: State, s': State, t: Tid, id: Id, to: Place) {
    && Alone(s, s', t) && Moves(s, s', t, id, to) && Accounts(s, s', t)
    && ThreadInv(t, s'.pcs[t], s'.caches[t], s'.places) && Lists(s'.depot, Depot, s'.places)
  }

  /** A step that moves none. */
  ghost predicate Quiet(s: State, s': State, t: Tid) {
    && Alone(s, s', t) && Accounts(s, s', t) && s'.caches == s.caches
    && s'.depot == s.depot && s'.places == s.places && s'.held == s.held && s'.unmaps == s.unmaps && s'.nextId == s.nextId
    && HandOf(s'.pcs[t]) == HandOf(s.pcs[t]) && Bound(s'.pcs[t], |s.caches[t]|)
    && (s'.pcs[t].Cut? ==> s'.pcs[t].keep <= TLS_KEEP)
  }

  lemma OthersKept(u: Tid, pc: Pc, cache: seq<Id>, places: map<Id, Place>, id: Id, to: Place)
    requires ThreadInv(u, pc, cache, places) && to != Cache(u) && to != Hand(u)
    requires id in places ==> places[id] != Cache(u) && places[id] != Hand(u)
    ensures ThreadInv(u, pc, cache, places[id := to])
  {
    ListsKept(cache, Cache(u), places, id, to);
    ListsKept(HandOf(pc), Hand(u), places, id, to);
  }

  lemma ThreadsKept(s: State, s': State, t: Tid, id: Id, to: Place)
    requires ThreadsOk(s.pcs, s.caches, s.places) && Alone(s, s', t) && Moves(s, s', t, id, to)
    requires ThreadInv(t, s'.pcs[t], s'.caches[t], s'.places)
    ensures ThreadsOk(s'.pcs, s'.caches, s'.places)
  {
    forall u | u in s'.pcs ensures ThreadInv(u, s'.pcs[u], s'.caches[u], s'.places) {
      if u != t { OthersKept(u, s.pcs[u], s.caches[u], s.places, id, to); }
    }
  }

  lemma PlacesKept(s: State, s': State, t: Tid, id: Id, to: Place)
    requires PlacesOk(s) && Moves(s, s', t, id, to) && Lists(s'.depot, Depot, s'.places)
    ensures PlacesOk(s')
  {
  }

  lemma OwnersKept(s: State, s': State, t: Tid, id: Id, to: Place)
    requires OwnersOk(s.places, s.pcs) && Alone(s, s', t) && Moves(s, s', t, id, to)
    ensures OwnersOk(s'.places, s'.pcs)
  {
  }

  lemma LiveKept(s: State, s': State, t: Tid)
    requires LiveOk(s.live, s.held, s.acquiring, s.failed, s.warm, s.pcs) && Alone(s, s', t) && Accounts(s, s', t)
    ensures LiveOk(s'.live, s'.held, s'.acquiring, s'.failed, s'.warm, s'.pcs)
  {
    assert t in s.acquiring <==> InAcquire(s.pcs[t]);
    if t in s.acquiring {
      assert s.acquiring + {t} == s.acquiring;
    } else {
      assert s.acquiring - {t} == s.acquiring;
    }
  }

  lemma LockKept(s: State, s': State, t: Tid)
    requires LockOk(s.lock, s.pcs) && Alone(s, s', t) && Accounts(s, s', t)
    ensures LockOk(s'.lock, s'.pcs)
  {
  }

  lemma AccountsKept(s: State, s': State, t: Tid)
    requires LiveOk(s.live, s.held, s.acquiring, s.failed, s.warm, s.pcs) && LockOk(s.lock, s.pcs)
    requires Alone(s, s', t) && Accounts(s, s', t)
    ensures LiveOk(s'.live, s'.held, s'.acquiring, s'.failed, s'.warm, s'.pcs) && LockOk(s'.lock, s'.pcs)
  {
    LiveKept(s, s', t);
    LockKept(s, s', t);
  }

  lemma MoveKeepsInv(s: State, s': State, t: Tid, id: Id, to: Place)
    requires Inv(s) && Good(s, s', t, id, to)
    ensures Inv(s')
  {
    ThreadsKept(s, s', t, id, to);
    PlacesKept(s, s', t, id, to);
    OwnersKept(s, s', t, id, to);
    AccountsKept(s, s', t);
  }

  lemma QuietThreads(s: State, s': State, t: Tid)
    requires ThreadsOk(s.pcs, s.caches, s.places) && Quiet(s, s', t)
    ensures ThreadsOk(s'.pcs, s'.caches, s'.places)
  {
    forall u | u in s'.pcs ensures ThreadInv(u, s'.pcs[u], s'.caches[u], s'.places) {
      assert ThreadInv(u, s.pcs[u], s.caches[u], s.places);
    }
  }

  lemma QuietKeepsInv(s: State, s': State, t: Tid)
    requires Inv(s) && Quiet(s, s', t)
    ensures Inv(s')
  {
    QuietThreads(s, s', t);
    AccountsKept(s, s', t);
  }

  /** What a step's own proof needs of the invariant. */
  ghost predicate Here(s: State, t: Tid) {
    && t in s.pcs && t in s.caches && ThreadInv(t, s.pcs[t], s.caches[t], s.places) && Lists(s.depot, Depot, s.places)
    && s.nextId !in s.places && s.nextId !in s.held && (t in s.acquiring <==> InAcquire(s.pcs[t]))
    && (forall id | id in s.held :: id in s.places && s.places[id].Held?)
  }

  lemma InvHere(s: State, t: Tid)
    requires Inv(s) && t in s.pcs
    ensures Here(s, t)
  {
  }

  // ------------------------------------------------------------ step lemmas

  /** Steps that neither start nor end an acquire. */
  lemma SameAcquiring(s: State, t: Tid)
    requires t in s.pcs && (t in s.acquiring <==> InAcquire(s.pcs[t]))
    ensures (if InAcquire(s.pcs[t]) then s.acquiring + {t} else s.acquiring - {t}) == s.acquiring
  {
    if t in s.acquiring { assert s.acquiring + {t} == s.acquiring; } else { assert s.acquiring - {t} == s.acquiring; }
  }

  lemma SameHeld(s: State, t: Tid, id: Id)
    requires Here(s, t) && (id in s.places ==> !s.places[id].Held?)
    ensures id !in s.held && s.held - {id} == s.held && |s.held + {id}| == |s.held| + 1
  {
  }

  lemma CallGood(s: State, a: Action)
    requires Here(s, a.t) && Enabled(s, a) && (a.CallAcquire? || a.CallDrain? || a.CallPrewarm?)
    ensures Quiet(s, Apply(s, a), a.t)
  {
    SameAcquiring(s, a.t);
    assert s.caches[a.t := s.caches[a.t]] == s.caches;
  }

  lemma CallReleaseGood(s: State, t: Tid, id: Id)
    requires Here(s, t) && Enabled(s, CallRelease(t, id))
    ensures Good(s, Apply(s, CallRelease(t, id)), t, id, Hand(t))
  {
    SameAcquiring(s, t);
    assert s.caches[t := s.caches[t]] == s.caches;
    ListsKept(s.depot, Depot, s.places, id, Hand(t));
    ListsKept(s.caches[t], Cache(t), s.places, id, Hand(t));
    ListsPush([], Hand(t), s.places, id);
    assert [id] + [] == [id];
  }

  /** A fresh mapping in thread t's hand. */
  lemma NewInHand(s: State, t: Tid, pc: Pc)
    requires Here(s, t) && HandOf(s.pcs[t]) == [] && HandOf(pc) == [s.nextId] && |s.caches[t]| <= TLS_CAP
    requires pc.Warm? || pc.PrePush?
    ensures ThreadInv(t, pc, s.caches[t], s.places[s.nextId := Hand(t)])
    ensures Lists(s.depot, Depot, s.places[s.nextId := Hand(t)])
  {
    ListsKept(s.depot, Depot, s.places, s.nextId, Hand(t));
    ListsKept(s.caches[t], Cache(t), s.places, s.nextId, Hand(t));
    ListsPush([], Hand(t), s.places, s.nextId);
    assert [s.nextId] + [] == [s.nextId];
  }

  lemma MapGood(s: State, a: Action)
    requires (a.CallWarm? || a.Step?) && Here(s, a.t) && Enabled(s, a) && a.mapped
    requires a.CallWarm? || s.pcs[a.t].PreMap?
    ensures Good(s, Apply(s, a), a.t, s.nextId, Hand(a.t))
  {
    SameAcquiring(s, a.t);
    SameHeld(s, a.t, s.nextId);
    assert s.caches[a.t := s.caches[a.t]] == s.caches;
    NewInHand(s, a.t, Apply(s, a).pcs[a.t]);
  }

  /** The steps of the machine that move nothing. */
  lemma QuietGood(s: State, a: Action)
    requires Here(s, a.t) && a.Step? && Enabled(s, a)
    requires match s.pcs[a.t]
             case Pop(_, _) => s.caches[a.t] == []
             case RefillLock(_) => true
             case Refill(_, moved) => moved >= REFILL_BATCH || s.depot == []
             case MapNew(_) => !a.mapped
             case Warm(_) => true
             case Cut(keep) => |s.caches[a.t]| <= keep
             case FlushLock(_, _) => true
             case Flush(hand, _) => hand == []
             case PreCheck(_, _) => true
             case PreMap(_, _) => !a.mapped
             case _ => false
    requires HoldsLock(s.pcs[a.t]) ==> s.lock == Some(a.t)
    ensures Quiet(s, Apply(s, a), a.t)
  {
    SameAcquiring(s, a.t);
    assert s.caches[a.t := s.caches[a.t]] == s.caches;
  }

  lemma CacheHead(s: State, t: Tid, pc: Pc, to: Place)
    requires Here(s, t) && s.pcs[t].Pop? && s.caches[t] != [] && (to.Held? || to.Gone?)
    requires pc == Idle || pc == s.pcs[t]
    ensures var id := s.caches[t][0];
            && id in s.places && s.places[id] == Cache(t)
            && ThreadInv(t, pc, s.caches[t][1..], s.places[id := to]) && Lists(s.depot, Depot, s.places[id := to])
  {
    var c := s.caches[t];
    ListsPop(c, Cache(t), s.places, to);
    ListsKept(s.depot, Depot, s.places, c[0], to);
    ListsKept([], Hand(t), s.places, c[0], to);
  }

  /** The first cached mapping is unmapped, or handed to the caller. */
  lemma DropGood(s: State, t: Tid)
    requires Here(s, t) && s.pcs[t].Pop? && s.caches[t] != []
    ensures Good(s, Unmap(s, s.caches[t][0]).(caches := s.caches[t := s.caches[t][1..]]), t, s.caches[t][0], Gone)
  {
    CacheHead(s, t, s.pcs[t], Gone);
    SameAcquiring(s, t);
    SameHeld(s, t, s.caches[t][0]);
    assert s.pcs[t := s.pcs[t]] == s.pcs;
  }

  lemma ServeGood(s: State, t: Tid)
    requires Here(s, t) && s.pcs[t].Pop? && s.caches[t] != []
    ensures var id := s.caches[t][0];
            Good(s, Go(To(s, id, Held), t, Idle)
                      .(caches := s.caches[t := s.caches[t][1..]], held := s.held + {id}, acquiring := s.acquiring - {t}),
                 t, id, Held)
  {
    CacheHead(s, t, Idle, Held);
    SameHeld(s, t, s.caches[t][0]);
  }

  lemma PopGood(s: State, t: Tid)
    requires Here(s, t) && s.pcs[t].Pop? && s.caches[t] != []
    ensures var s' := PopStep(s, t, s.pcs[t].size, s.pcs[t].second);
            s.caches[t][0] in s'.places && Good(s, s', t, s.caches[t][0], s'.places[s.caches[t][0]])
  {
    DropGood(s, t);
    ServeGood(s, t);
  }

  lemma RefillGood(s: State, t: Tid)
    requires Here(s, t) && s.pcs[t].Refill? && s.pcs[t].moved < REFILL_BATCH && s.depot != []
    ensures var s' := RefillStep(s, t, s.pcs[t].size, s.pcs[t].moved);
            s.depot[0] in s'.places && Good(s, s', t, s.depot[0], s'.places[s.depot[0]])
  {
    var s' := RefillStep(s, t, s.pcs[t].size, s.pcs[t].moved);
    var g := s.depot[0];
    var to := s'.places[g];
    SameAcquiring(s, t);
    SameHeld(s, t, g);
    ListsPop(s.depot, Depot, s.places, to);
    ListsKept([], Hand(t), s.places, g, to);
    if to.Gone? {
      ListsKept(s.caches[t], Cache(t), s.places, g, to);
      assert s.caches[t := s.caches[t]] == s.caches && s.pcs[t := s.pcs[t]] == s.pcs;
    } else {
      ListsPush(s.caches[t], Cache(t), s.places, g);
    }
  }

  lemma MapNewGood(s: State, t: Tid)
    requires Here(s, t) && s.pcs[t].MapNew?
    ensures Good(s, MapStep(s, t, s.pcs[t].size, true), t, s.nextId, Held)
  {
    SameHeld(s, t, s.nextId);
    assert s.caches[t := s.caches[t]] == s.caches;
    ListsKept(s.depot, Depot, s.places, s.nextId, Held);
    ListsKept(s.caches[t], Cache(t), s.places, s.nextId, Held);
    ListsKept([], Hand(t), s.places, s.nextId, Held);
  }

  /** A mapping leaves the hand for the thread's own cache. */
  lemma HandToCache(s: State, t: Tid, id: Id, pc: Pc)
    requires Here(s, t) && HandOf(s.pcs[t]) == [id] && HandOf(pc) == [] && Bound(pc, |s.caches[t]| + 1)
    requires pc.Cut? ==> pc.keep <= TLS_KEEP
    ensures id in s.places && s.places[id] == Hand(t)
    ensures ThreadInv(t, pc, [id] + s.caches[t], s.places[id := Cache(t)]) && Lists(s.depot, Depot, s.places[id := Cache(t)])
  {
    assert [id][0] == id && [id][1..] == [];
    ListsPop([id], Hand(t), s.places, Cache(t));
    ListsKept(s.depot, Depot, s.places, id, Cache(t));
    ListsPush(s.caches[t], Cache(t), s.places, id);
  }

  /** A mapping leaves the hand for the depot, or for good. */
  lemma HandToDepot(s: State, t: Tid, pc: Pc, to: Place)
    requires Here(s, t) && HandOf(s.pcs[t]) != [] && HandOf(pc) == HandOf(s.pcs[t])[1..] && (to.Depot? || to.Gone?)
    requires Bound(pc, |s.caches[t]|) && !pc.Cut?
    ensures var id := HandOf(s.pcs[t])[0];
            && id in s.places && s.places[id] == Hand(t)
            && ThreadInv(t, pc, s.caches[t], s.places[id := to])
            && Lists(if to.Depot? then [id] + s.depot else s.depot, Depot, s.places[id := to])
  {
    var id := HandOf(s.pcs[t])[0];
    ListsPop(HandOf(s.pcs[t]), Hand(t), s.places, to);
    ListsKept(s.caches[t], Cache(t), s.places, id, to);
    if to.Depot? { ListsPush(s.depot, Depot, s.places, id); } else { ListsKept(s.depot, Depot, s.places, id, to); }
  }

  /** The bookkeeping of a step that takes a mapping out of the hand. */
  lemma HandBooks(s: State, s': State, t: Tid, id: Id, to: Place)
    requires t in s.pcs && t in s.caches && t in s'.pcs && t in s'.caches && id in s.places && s.places[id] == Hand(t)
    requires id !in s.held && !InAcquire(s.pcs[t]) && t !in s.acquiring && !InAcquire(s'.pcs[t])
    requires (to == Cache(t) || to.Depot? || to.Gone?) && HoldsLock(s'.pcs[t]) == HoldsLock(s.pcs[t])
    requires s' == s.(places := s.places[id := to], pcs := s.pcs[t := s'.pcs[t]], caches := s.caches[t := s'.caches[t]],
                      depot := s'.depot, unmaps := if to.Gone? then s.unmaps + multiset{id} else s.unmaps)
    ensures Alone(s, s', t) && Moves(s, s', t, id, to) && Accounts(s, s', t)
  {
    SameAcquiring(s, t);
    assert s.held - {id} == s.held;
  }

  /** The state after the first mapping in hand has gone to the depot or for good. */
  function Left(s: State, t: Tid, pc: Pc, to: Place): State
    requires t in s.pcs && HandOf(s.pcs[t]) != []
  {
    var id := HandOf(s.pcs[t])[0];
    s.(places := s.places[id := to], pcs := s.pcs[t := pc],
       depot := if to.Depot? then [id] + s.depot else s.depot,
       unmaps := if to.Gone? then s.unmaps + multiset{id} else s.unmaps)
  }

  lemma LeftGood(s: State, t: Tid, pc: Pc, to: Place)
    requires Here(s, t) && HandOf(s.pcs[t]) != [] && HandOf(pc) == HandOf(s.pcs[t])[1..] && (to.Depot? || to.Gone?)
    requires Bound(pc, |s.caches[t]|) && !pc.Cut? && !InAcquire(pc) && HoldsLock(pc) == HoldsLock(s.pcs[t])
    ensures Good(s, Left(s, t, pc, to), t, HandOf(s.pcs[t])[0], to)
  {
    var id := HandOf(s.pcs[t])[0];
    HandToDepot(s, t, pc, to);
    SameHeld(s, t, id);
    assert s.caches[t := s.caches[t]] == s.caches;
    HandBooks(s, Left(s, t, pc, to), t, id, to);
  }

  lemma HandShape(s: State, t: Tid)
    requires t in s.pcs && t in s.caches && (s.pcs[t].Flush? || s.pcs[t].PrePush?) && HandOf(s.pcs[t]) != []
    ensures var s' := StepOf(s, t, false, false, 0);
            var to := if |s.depot| < s.pcs[t].cap then Depot else Gone;
            && s' == Left(s, t, s'.pcs[t], to) && HandOf(s'.pcs[t]) == HandOf(s.pcs[t])[1..]
            && !s'.pcs[t].Cut? && !InAcquire(s'.pcs[t]) && HoldsLock(s'.pcs[t]) == HoldsLock(s.pcs[t])
            && (forall n: nat :: Bound(s.pcs[t], n) ==> Bound(s'.pcs[t], n))
  {
  }

  lemma HandGood(s: State, t: Tid)
    requires Here(s, t) && (s.pcs[t].Flush? || s.pcs[t].PrePush?) && HandOf(s.pcs[t]) != []
    ensures var s' := StepOf(s, t, false, false, 0);
            var id := HandOf(s.pcs[t])[0];
            id in s'.places && Good(s, s', t, id, s'.places[id])
  {
    HandShape(s, t);
    LeftGood(s, t, StepOf(s, t, false, false, 0).pcs[t], if |s.depot| < s.pcs[t].cap then Depot else Gone);
  }

  lemma PutBackGood(s: State, t: Tid, pc: Pc)
    requires Here(s, t) && s.pcs[t].Put? && HandOf(pc) == [] && Bound(pc, |s.caches[t]| + 1)
    requires (pc.Cut? ==> pc.keep <= TLS_KEEP) && !InAcquire(pc) && !HoldsLock(pc)
    ensures var id := s.pcs[t].id;
            Good(s, Go(To(s, id, Cache(t)), t, pc).(caches := s.caches[t := [id] + s.caches[t]]), t, id, Cache(t))
  {
    var id := s.pcs[t].id;
    HandToCache(s, t, id, pc);
    SameHeld(s, t, id);
    HandBooks(s, Go(To(s, id, Cache(t)), t, pc).(caches := s.caches[t := [id] + s.caches[t]]), t, id, Cache(t));
  }

  lemma PutGood(s: State, t: Tid, sampled: bool)
    requires Here(s, t) && s.pcs[t].Put?
    ensures var s' := PutStep(s, t, s.pcs[t].id, sampled);
            s.pcs[t].id in s'.places && Good(s, s', t, s.pcs[t].id, s'.places[s.pcs[t].id])
  {
    var id := s.pcs[t].id;
    assert HandOf(s.pcs[t]) == [id] && [id][0] == id && [id][1..] == [];
    if sampled {
      LeftGood(s, t, Idle, Gone);
    } else {
      PutBackGood(s, t, if |s.caches[t]| + 1 > TLS_CAP then Cut(TLS_KEEP) else Idle);
    }
  }

  // ------------------------------------------------- the cut before a flush

  function Relocated(places: map<Id, Place>, ids: seq<Id>, to: Place): map<Id, Place> {
    map id | id in places :: if id in ids then to else places[id]
  }

  lemma CutLists(c: seq<Id>, t: Tid, keep: nat, places: map<Id, Place>)
    requires Lists(c, Cache(t), places) && Lists([], Hand(t), places) && keep <= |c|
    ensures var places' := Relocated(places, c[keep..], Hand(t));
            Lists(c[..keep], Cache(t), places') && Lists(c[keep..], Hand(t), places')
  {
    var places' := Relocated(places, c[keep..], Hand(t));
    forall i | 0 <= i < keep ensures c[i] !in c[keep..] { }
    forall id | id in places' && places'[id] == Cache(t) ensures id in c[..keep] {
      assert id in c && id !in c[keep..];
    }
  }

  lemma CutOthers(q: seq<Id>, p: Place, places: map<Id, Place>, ids: seq<Id>, t: Tid)
    requires Lists(q, p, places) && p != Cache(t) && p != Hand(t)
    requires forall i | 0 <= i < |ids| :: ids[i] in places && places[ids[i]] == Cache(t)
    ensures Lists(q, p, Relocated(places, ids, Hand(t)))
  {
  }

  lemma CutPlaces(s: State, t: Tid, keep: nat)
    requires PlacesOk(s) && t in s.caches && keep <= |s.caches[t]| && Lists(s.caches[t], Cache(t), s.places)
    ensures PlacesOk(s.(places := Relocated(s.places, s.caches[t][keep..], Hand(t))))
  {
    CutOthers(s.depot, Depot, s.places, s.caches[t][keep..], t);
  }

  lemma CutOther(u: Tid, pc: Pc, cache: seq<Id>, places: map<Id, Place>, ids: seq<Id>, t: Tid)
    requires ThreadInv(u, pc, cache, places) && u != t
    requires forall i | 0 <= i < |ids| :: ids[i] in places && places[ids[i]] == Cache(t)
    ensures ThreadInv(u, pc, cache, Relocated(places, ids, Hand(t)))
  {
    CutOthers(cache, Cache(u), places, ids, t);
    CutOthers(HandOf(pc), Hand(u), places, ids, t);
  }

  lemma CutSelf(t: Tid, cache: seq<Id>, places: map<Id, Place>, keep: nat, cap: int)
    requires ThreadInv(t, Cut(keep), cache, places) && keep < |cache|
    ensures ThreadInv(t, FlushLock(cache[keep..], cap), cache[..keep], Relocated(places, cache[keep..], Hand(t)))
  {
    CutLists(cache, t, keep, places);
  }

  lemma CutThreads(pcs: map<Tid, Pc>, caches: map<Tid, seq<Id>>, places: map<Id, Place>, t: Tid, keep: nat, cap: int)
    requires ThreadsOk(pcs, caches, places) && t in pcs && pcs[t] == Cut(keep) && keep < |caches[t]|
    ensures ThreadsOk(pcs[t := FlushLock(caches[t][keep..], cap)], caches[t := caches[t][..keep]],
                      Relocated(places, caches[t][keep..], Hand(t)))
  {
    var ids := caches[t][keep..];
    var pcs', caches' := pcs[t := FlushLock(ids, cap)], caches[t := caches[t][..keep]];
    assert ThreadInv(t, pcs[t], caches[t], places);
    forall u | u in pcs' ensures ThreadInv(u, pcs'[u], caches'[u], Relocated(places, ids, Hand(t))) {
      if u == t { CutSelf(t, caches[t], places, keep, cap); } else { CutOther(u, pcs[u], caches[u], places, ids, t); }
    }
  }

  lemma CutGood(s: State, t: Tid, keep: nat, cap: int)
    requires Here(s, t) && s.pcs[t] == Cut(keep) && keep < |s.caches[t]|
    ensures var s' := CutStep(s, t, keep, cap);
            && Alone(s, s', t) && Accounts(s, s', t)
            && s' == s.(places := Relocated(s.places, s.caches[t][keep..], Hand(t)),
                        pcs := s.pcs[t := FlushLock(s.caches[t][keep..], cap)], caches := s.caches[t := s.caches[t][..keep]])
  {
    SameAcquiring(s, t);
  }

  lemma CutOwners(places: map<Id, Place>, pcs: map<Tid, Pc>, ids: seq<Id>, t: Tid, pc: Pc)
    requires OwnersOk(places, pcs) && t in pcs
    ensures OwnersOk(Relocated(places, ids, Hand(t)), pcs[t := pc])
  {
  }

  lemma CutKeepsInv(s: State, t: Tid, keep: nat, cap: int)
    requires Inv(s) && Here(s, t) && s.pcs[t] == Cut(keep) && keep < |s.caches[t]|
    ensures Inv(CutStep(s, t, keep, cap))
  {
    CutGood(s, t, keep, cap);
    CutPlaces(s, t, keep);
    CutThreads(s.pcs, s.caches, s.places, t, keep, cap);
    CutOwners(s.places, s.pcs, s.caches[t][keep..], t, FlushLock(s.caches[t][keep..], cap));
    AccountsKept(s, CutStep(s, t, keep, cap), t);
  }

  // -------------------------------------------------------------- all steps

  lemma CallKeepsInv(s: State, a: Action)
    requires Inv(s) && Enabled(s, a) && !a.Step?
    ensures Inv(Apply(s, a))
  {
    InvHere(s, a.t);
    if a.CallRelease? {
      CallReleaseGood(s, a.t, a.id);
      MoveKeepsInv(s, Apply(s, a), a.t, a.id, Hand(a.t));
    } else if a.CallWarm? {
      if a.mapped {
        MapGood(s, a);
        MoveKeepsInv(s, Apply(s, a), a.t, s.nextId, Hand(a.t));
      }
    } else {
      CallGood(s, a);
      QuietKeepsInv(s, Apply(s, a), a.t);
    }
  }

  /** The mapping this step moves. */
  function Moved(s: State, a: Action): Option<Id>
    requires a.Step? && a.t in s.pcs && a.t in s.caches
  {
    match s.pcs[a.t]
    case Pop(_, _) => if s.caches[a.t] == [] then None else Some(s.caches[a.t][0])
    case Refill(_, moved) => if moved >= REFILL_BATCH || s.depot == [] then None else Some(s.depot[0])
    case MapNew(_) => if a.mapped then Some(s.nextId) else None
    case Put(id) => Some(id)
    case Flush(hand, _) => if hand == [] then None else Some(hand[0])
    case PreMap(_, _) => if a.mapped then Some(s.nextId) else None
    case PrePush(id, _) => Some(id)
    case _ => None
  }

  lemma MovedGood(s: State, a: Action)
    requires a.Step? && Here(s, a.t) && Enabled(s, a) && Moved(s, a).Some?
    ensures var id := Moved(s, a).value;
            id in Apply(s, a).places && Good(s, Apply(s, a), a.t, id, Apply(s, a).places[id])
  {
    match s.pcs[a.t] {
      case Pop(_, _) => PopGood(s, a.t);
      case Refill(_, _) => RefillGood(s, a.t);
      case MapNew(_) => MapNewGood(s, a.t);
      case Put(_) => PutGood(s, a.t, a.sampled);
      case Flush(_, _) => HandGood(s, a.t);
      case PreMap(_, _) => MapGood(s, a);
      case PrePush(_, _) => HandGood(s, a.t);
    }
  }

  lemma StepKeepsInv(s: State, a: Action)
    requires Inv(s) && Enabled(s, a)
    ensures Inv(Apply(s, a))
  {
    if !a.Step? {
      CallKeepsInv(s, a);
    } else {
      InvHere(s, a.t);
      var pc := s.pcs[a.t];
      if Moved(s, a).Some? {
        MovedGood(s, a);
        MoveKeepsInv(s, Apply(s, a), a.t, Moved(s, a).value, Apply(s, a).places[Moved(s, a).value]);
      } else if pc.Cut? && pc.keep < |s.caches[a.t]| {
        CutKeepsInv(s, a.t, pc.keep, a.cap);
      } else {
        QuietGood(s, a);
        QuietKeepsInv(s, Apply(s, a), a.t);
      }
    }
  }

  // ------------------------------------------------------------- whole runs

  ghost predicate Run(ss: seq<State>, acts: seq<Action>) {
    && |ss| == |acts| + 1 && Init(ss[0])
    && forall i | 0 <= i < |acts| :: Enabled(ss[i], acts[i]) && ss[i + 1] == Apply(ss[i], acts[i])
  }

  lemma {:induction false} RunKeepsInv(ss: seq<State>, acts: seq<Action>, n: nat)
    requires Run(ss, acts) && n < |ss|
    ensures Inv(ss[n])
  {
    if n == 0 {
      assert Init(ss[0]);
    } else {
      RunKeepsInv(ss, acts, n - 1);
      StepKeepsInv(ss[n - 1], acts[n - 1]);
    }
  }

  /** Some run leads to this state. */
  ghost predicate Reachable(s: State) {
    exists ss, acts :: Run(ss, acts) && ss[|acts|] == s
  }

  lemma ReachableInv(s: State)
    requires Reachable(s)
    ensures Inv(s)
  {
    var ss, acts :| Run(ss, acts) && ss[|acts|] == s;
    RunKeepsInv(ss, acts, |acts|);
  }

  /** Every mapping is in exactly one place, on exactly one list there, once; it
      is unmapped at most once and then on no list. */
  lemma OnePlace(s: State, id: Id)
    requires Reachable(s) && id in s.places
    ensures s.pcs.Keys == s.caches.Keys
    ensures id in s.held <==> s.places[id].Held?
    ensures id in s.depot <==> s.places[id].Depot?
    ensures forall t | t in s.pcs :: id in s.caches[t] <==> s.places[id] == Cache(t)
    ensures forall t | t in s.pcs :: id in HandOf(s.pcs[t]) <==> s.places[id] == Hand(t)
    ensures s.places[id].Cache? || s.places[id].Hand? ==> s.places[id].t in s.pcs
    ensures s.unmaps[id] == if s.places[id].Gone? then 1 else 0
  {
    ReachableInv(s);
    forall t | t in s.pcs
      ensures (id in s.caches[t] <==> s.places[id] == Cache(t)) && (id in HandOf(s.pcs[t]) <==> s.places[id] == Hand(t))
    {
      assert ThreadInv(t, s.pcs[t], s.caches[t], s.places);
    }
  }

  /** Between calls a cache holds at most 64 stacks. */
  lemma CacheBounded(s: State, t: Tid)
    requires Reachable(s) && t in s.pcs
    ensures t in s.caches && |s.caches[t]| <= TLS_CAP + 1 && (!s.pcs[t].Cut? ==> |s.caches[t]| <= TLS_CAP)
  {
    ReachableInv(s);
    assert ThreadInv(t, s.pcs[t], s.caches[t], s.places);
  }

  /** The cap a thread has read and acts on. */
  function CapOf(pc: Pc): Option<int> {
    match pc
    case FlushLock(_, cap) => Some(cap)
    case Flush(_, cap) => Some(cap)
    case PreCheck(_, cap) => Some(cap)
    case PreMap(_, cap) => Some(cap)
    case PrePush(_, cap) => Some(cap)
    case _ => None
  }

  /** The cap this step reads. */
  function CapRead(s: State, a: Action): Option<int> {
    if a.CallPrewarm? || (a.Step? && a.t in s.pcs && s.pcs[a.t].Cut?) then Some(a.cap) else None
  }

  predicate AtMost(cap: Option<int>, c: nat) { cap.Some? ==> cap.value <= c }

  ghost predicate CapsBelow(pcs: map<Tid, Pc>, c: nat) {
    forall t | t in pcs :: AtMost(CapOf(pcs[t]), c)
  }

  /** Thread t's step raised the depot no higher than c, and read no higher cap. */
  ghost predicate Modest(s: State, s': State, t: Tid, c: nat) {
    && t in s'.pcs && AtMost(CapOf(s'.pcs[t]), c) && (|s'.depot| <= |s.depot| || |s'.depot| <= c)
    && (forall u | u in s'.pcs && u != t :: u in s.pcs && s'.pcs[u] == s.pcs[u])
  }

  lemma AcquireModest(s: State, a: Action, c: nat)
    requires Enabled(s, a) && a.Step?
    requires s.pcs[a.t].Pop? || s.pcs[a.t].RefillLock? || s.pcs[a.t].Refill? || s.pcs[a.t].MapNew?
    ensures Modest(s, Apply(s, a), a.t, c)
  {
  }

  lemma ReleaseModest(s: State, a: Action, c: nat)
    requires Enabled(s, a) && a.Step? && (s.pcs[a.t].Warm? || s.pcs[a.t].Put? || s.pcs[a.t].Cut?)
    requires s.pcs[a.t].Cut? ==> a.cap <= c
    ensures Modest(s, Apply(s, a), a.t, c)
  {
  }

  lemma FlushModest(s: State, a: Action, c: nat)
    requires Enabled(s, a) && a.Step? && (s.pcs[a.t].FlushLock? || s.pcs[a.t].Flush?) && s.pcs[a.t].cap <= c
    ensures Modest(s, Apply(s, a), a.t, c)
  {
  }

  lemma PrewarmModest(s: State, a: Action, c: nat)
    requires Enabled(s, a) && a.Step? && (s.pcs[a.t].PreCheck? || s.pcs[a.t].PreMap? || s.pcs[a.t].PrePush?)
    requires s.pcs[a.t].cap <= c
    ensures Modest(s, Apply(s, a), a.t, c)
  {
  }

  lemma CallModest(s: State, a: Action, c: nat)
    requires Enabled(s, a) && !a.Step? && AtMost(CapRead(s, a), c)
    ensures Modest(s, Apply(s, a), a.t, c)
  {
  }

  lemma AllModest(s: State, a: Action, c: nat)
    requires Enabled(s, a) && AtMost(CapRead(s, a), c) && AtMost(CapOf(s.pcs[a.t]), c)
    ensures Modest(s, Apply(s, a), a.t, c)
  {
    if !a.Step? {
      CallModest(s, a, c);
    } else {
      match s.pcs[a.t] {
        case Warm(_) => ReleaseModest(s, a, c);
        case Put(_) => ReleaseModest(s, a, c);
        case Cut(_) => ReleaseModest(s, a, c);
        case FlushLock(_, _) => FlushModest(s, a, c);
        case Flush(_, _) => FlushModest(s, a, c);
        case PreCheck(_, _) => PrewarmModest(s, a, c);
        case PreMap(_, _) => PrewarmModest(s, a, c);
        case PrePush(_, _) => PrewarmModest(s, a, c);
        case _ => AcquireModest(s, a, c);
      }
    }
  }

  lemma AcquireLowers(s: State, a: Action)
    requires Enabled(s, a) && a.Step? && CapOf(s.pcs[a.t]).None?
    ensures |Apply(s, a).depot| <= |s.depot|
  {
    match s.pcs[a.t] {
      case Pop(_, _) =>
      case Refill(_, _) =>
      case Put(_) =>
      case Cut(_) =>
      case _ =>
    }
  }

  /** A step leaves the depot no larger than the larger of what it was and the cap
      that its own operation read; one that reads or has read none does not raise
      it. */
  lemma DepotRises(s: State, a: Action)
    requires Enabled(s, a) && |Apply(s, a).depot| > |s.depot|
    ensures a.Step? && CapOf(s.pcs[a.t]).Some? && |Apply(s, a).depot| <= CapOf(s.pcs[a.t]).value
  {
    if a.Step? && CapOf(s.pcs[a.t]).None? { AcquireLowers(s, a); }
  }

  /** In every run, the depot never holds more than the largest cap read so far. */
  lemma {:induction false} DepotBounded(ss: seq<State>, acts: seq<Action>, n: nat, c: nat)
    requires Run(ss, acts) && n < |ss| && forall i | 0 <= i < n :: AtMost(CapRead(ss[i], acts[i]), c)
    ensures |ss[n].depot| <= c && CapsBelow(ss[n].pcs, c)
  {
    if n == 0 {
      assert Init(ss[0]);
    } else {
      DepotBounded(ss, acts, n - 1, c);
      assert Enabled(ss[n - 1], acts[n - 1]);
      AllModest(ss[n - 1], acts[n - 1], c);
    }
  }

  /** With no call under way, the live counter is the stacks held, plus the
      acquires whose map failed, minus the warm-up releases. */
  lemma LiveCounter(s: State)
    requires Reachable(s) && forall t | t in s.pcs :: s.pcs[t].Idle?
    ensures s.live == |s.held| + s.failed - s.warm
  {
    ReachableInv(s);
    assert s.acquiring == {};
  }
}
