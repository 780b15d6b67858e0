/**
 The generation-stamped handle table of rl_handle.c as a step machine: one
 atomic access, one exclusive plain access or one locked section per step, any
 number of threads.

 A reference (the owner's, or a pin) is a token.  Clients follow the protocol of
 rl_handle.h: a token is dropped at most once, by whoever holds it; pin may be
 called with any handle at all.
 */
module HandleTable {
  import opened Options

  /** Generations and reference counts are 32-bit and wrap. */
  const GENS: nat := 0x1_0000_0000
  const MAX_SEGS: nat := 4096

  type Obj = nat    // an object's address; 0 is NULL
  type Tid = nat
  type Token = nat

  datatype Handle = Handle(gen: nat, idx: nat)
  const NULL_HANDLE := Handle(0, 0)

  /** One registration: a slot and the number of reclaims before it. */
  datatype Reg = Reg(idx: nat, epoch: nat)
  datatype Record = Record(ptr: Obj, freeFn: bool)

  /** Where a slot is in its life (history).  A phase with a thread id is
      exclusively that thread's, except that an InUse slot is open to pins while
      its registrar has yet to count it. */
  datatype Phase =
    | Reserved | InFree
    | Filling(tid: Tid) | Filled(tid: Tid)
    | InUse(registrar: Option<Tid>)
    | Dead(tid: Tid) | Cleared(tid: Tid) | Bumped(tid: Tid) | Freed(tid: Tid) | Uncounted(tid: Tid)

  /** ptr, free_fn, genref = (gen, rc) and next_free are the C slot.  The rest is
      history: reclaims so far, what each registration was given, for which
      registrations free_fn has run, the references held, the phase. */
  datatype Slot = Slot(
    ptr: Obj, freeFn: bool, gen: nat, rc: nat, next: nat,
    epoch: nat, recs: seq<Record>, freed: multiset<nat>, holders: set<Token>, at: Phase)

  datatype GenRef = GenRef(gen: nat, rc: nat)

  /** `args` is history: what the register was called with. */
  datatype Pc =
    | Ready
    | RegTake(ptr: Obj, freeFn: bool)
    | RegFill(ptr: Obj, freeFn: bool, idx: nat)
    | RegPublish(idx: nat, gen: nat, args: Record)
    | RegCount(idx: nat, gen: nat, tok: Token, args: Record)
    | RegDone(result: Option<Handle>, tok: Token, args: Record)
    | PinLoad(h: Handle)
    | PinTry(h: Handle, gr: GenRef)
    | PinRead(h: Handle, tok: Token)
    | PinDone(h: Handle, ptr: Obj, tok: Token)
    | DropLoad(h: Handle, tok: Token, wait: bool)
    | DropTry(h: Handle, tok: Token, wait: bool, gr: GenRef)
    | RcRead(h: Handle, wait: bool)
    | RcClear(h: Handle, wait: bool, rec: Record)
    | RcBump(h: Handle, wait: bool, rec: Record)
    | RcFree(h: Handle, wait: bool, rec: Record)
    | RcCount(h: Handle, wait: bool)
    | RcPush(h: Handle, wait: bool)
    | Spin(h: Handle, epoch: nat)

  /** A live reference: what it refers to and whether a call is using it. */
  datatype Ref = Ref(reg: Reg, user: Option<Tid>)

  datatype State = State(
    segSlots: nat, nsegs: nat, slots: seq<Slot>, freeHead: nat, live: int, threads: map<Tid, Pc>,
    free: seq<nat>, counted: set<nat>, tokens: map<Token, Ref>, nextTok: Token)

  datatype Action =
    | CallRegister(t: Tid, ptr: Obj, freeFn: bool)
    | CallPin(t: Tid, h: Handle)
    | CallDrop(t: Tid, tok: Token, wait: bool)
    | CallDropNull(t: Tid, wait: bool)
    | Step(t: Tid, grown: bool)

  function HandleOf(r: Reg): Handle { Handle(r.epoch % GENS, r.idx) }

  function At(s: State, t: Tid, pc: Pc): State { s.(threads := s.threads[t := pc]) }

  function After(wait: bool, h: Handle, epoch: nat): Pc {
    if wait then Spin(h, epoch) else Ready
  }

  // ---------------------------------------------------------------- growth

  /** next_free of the i-th slot of a fresh segment pushed onto `head`. */
  function FreshNext(base: nat, start: nat, head: nat, i: nat): nat {
    if i < start then 0 else if i == start then head else base + i - 1
  }

  function FreshSlots(n: nat, base: nat, start: nat, head: nat): (r: seq<Slot>)
    ensures |r| == n
  {
    seq(n, i requires 0 <= i < n =>
      Slot(0, false, 0, 0, FreshNext(base, start, head, i), 0, [], multiset{}, {},
           if i < start then Reserved else InFree))
  }

  /** base+n-1 .. base+start, the order the growth loop links them in. */
  function Countdown(n: nat, base: nat, start: nat): (r: seq<nat>)
    requires start <= n
    ensures |r| == n - start
  {
    seq(n - start, i requires 0 <= i < n - start => base + n - 1 - i)
  }

  /** `rl_handle_grow_locked`: a calloc'd segment, slot 0 of segment 0 reserved. */
  function Grow(s: State): State
    requires s.segSlots >= 2
  {
    var base := |s.slots|;
    var start := if base == 0 then 1 else 0;
    s.(nsegs := s.nsegs + 1,
       slots := s.slots + FreshSlots(s.segSlots, base, start, s.freeHead),
       freeHead := base + s.segSlots - 1,
       free := Countdown(s.segSlots, base, start) + s.free)
  }

  // ----------------------------------------------------------------- steps

  ghost predicate Enabled(s: State, a: Action) {
    match a
    case CallDrop(t, tok, _) =>
      t in s.threads && s.threads[t].Ready? && tok in s.tokens && s.tokens[tok].user.None?
    case Step(t, _) => t in s.threads && !s.threads[t].Ready?
    case _ => a.t in s.threads && s.threads[a.t].Ready?
  }

  /** The slots a thread is about to index exist (they do: see `Inv`). */
  predicate InRange(s: State, pc: Pc) {
    match pc
    case RegFill(_, _, idx) => idx < |s.slots|
    case RegPublish(idx, _, _) => idx < |s.slots|
    case RegCount(idx, _, _, _) => idx < |s.slots|
    case RegDone(r, tok, _) => r.Some? ==> tok in s.tokens
    case PinTry(h, _) => h.idx < |s.slots|
    case PinRead(h, _) => h.idx < |s.slots|
    case PinDone(_, ptr, tok) => ptr != 0 ==> tok in s.tokens
    case DropTry(h, tok, _, gr) => h.idx < |s.slots| && tok in s.tokens
    case RcRead(h, _) => h.idx < |s.slots|
    case RcClear(h, _, _) => h.idx < |s.slots|
    case RcBump(h, _, _) => h.idx < |s.slots|
    case RcFree(h, _, _) => h.idx < |s.slots| && s.slots[h.idx].epoch > 0
    case RcCount(h, _) => h.idx < |s.slots|
    case RcPush(h, _) => h.idx < |s.slots| && s.slots[h.idx].epoch > 0
    case Spin(h, _) => h.idx < |s.slots|
    case _ => true
  }

  ghost predicate Safe(s: State) {
    && s.segSlots >= 2 && |s.slots| == s.nsegs * s.segSlots
    && (s.freeHead == 0 || (s.freeHead < |s.slots| && s.free != []))
    && (forall t | t in s.threads :: InRange(s, s.threads[t]))
  }

  function SetSlot(s: State, i: nat, sl: Slot): State
    requires i < |s.slots|
  {
    s.(slots := s.slots[i := sl])
  }

  /** Release the reference a finished call hands back to its client. */
  function Hand(s: State, tok: Token): State
    requires tok in s.tokens
  {
    s.(tokens := s.tokens[tok := s.tokens[tok].(user := None)])
  }

  /** The locked section of register: pop the free list, growing it if empty. */
  function Take(s: State, t: Tid, ptr: Obj, freeFn: bool, grown: bool): State
    requires s.segSlots >= 2
    requires s.freeHead == 0 || (s.freeHead < |s.slots| && s.free != [])
  {
    if s.freeHead == 0 && (s.nsegs >= MAX_SEGS || !grown) then At(s, t, RegDone(None, 0, Record(ptr, freeFn)))
    else
      var s1 := if s.freeHead == 0 then Grow(s) else s;
      var idx := s1.freeHead;
      At(SetSlot(s1, idx, s1.slots[idx].(at := Filling(t)))
           .(freeHead := s1.slots[idx].next, free := s1.free[1..]),
         t, RegFill(ptr, freeFn, idx))
  }

  function RegisterStep(s: State, t: Tid, grown: bool): State
    requires s.segSlots >= 2 && t in s.threads && InRange(s, s.threads[t])
    requires s.freeHead == 0 || (s.freeHead < |s.slots| && s.free != [])
  {
    match s.threads[t]
    case RegTake(ptr, freeFn) => Take(s, t, ptr, freeFn, grown)
    case RegFill(ptr, freeFn, idx) =>
      At(SetSlot(s, idx, s.slots[idx].(ptr := ptr, freeFn := freeFn, at := Filled(t))), t,
         RegPublish(idx, s.slots[idx].gen, Record(ptr, freeFn)))
    case RegPublish(idx, gen, args) =>
      var sl := s.slots[idx];
      At(SetSlot(s, idx, sl.(gen := gen, rc := 1, recs := sl.recs + [Record(sl.ptr, sl.freeFn)],
                             holders := {s.nextTok}, at := InUse(Some(t))))
           .(tokens := s.tokens[s.nextTok := Ref(Reg(idx, sl.epoch), Some(t))], nextTok := s.nextTok + 1),
         t, RegCount(idx, gen, s.nextTok, args))
    case RegCount(idx, gen, tok, args) =>
      At(SetSlot(s, idx, s.slots[idx].(at := InUse(None)))
           .(live := s.live + 1, counted := s.counted + {idx}),
         t, RegDone(Some(Handle(gen, idx)), tok, args))
    case RegDone(result, tok, _) => At(if result.Some? then Hand(s, tok) else s, t, Ready)
    case _ => s
  }

  function PinStep(s: State, t: Tid): State
    requires t in s.threads && InRange(s, s.threads[t])
  {
    match s.threads[t]
    case PinLoad(h) =>
      if h == NULL_HANDLE || h.idx >= |s.slots| then At(s, t, PinDone(h, 0, 0))
      else At(s, t, PinTry(h, GenRef(s.slots[h.idx].gen, s.slots[h.idx].rc)))
    case PinTry(h, gr) =>
      var sl := s.slots[h.idx];
      if gr.gen != h.gen || gr.rc == 0 then At(s, t, PinDone(h, 0, 0))
      else if gr != GenRef(sl.gen, sl.rc) then At(s, t, PinTry(h, GenRef(sl.gen, sl.rc)))
      else
        At(SetSlot(s, h.idx, sl.(gen := h.gen, rc := (gr.rc + 1) % GENS, holders := sl.holders + {s.nextTok}))
             .(tokens := s.tokens[s.nextTok := Ref(Reg(h.idx, sl.epoch), Some(t))], nextTok := s.nextTok + 1),
           t, PinRead(h, s.nextTok))
    case PinRead(h, tok) => At(s, t, PinDone(h, s.slots[h.idx].ptr, tok))
    case PinDone(_, ptr, tok) => At(if ptr != 0 then Hand(s, tok) else s, t, Ready)
    case _ => s
  }

  function DropStep(s: State, t: Tid): State
    requires t in s.threads && InRange(s, s.threads[t])
  {
    match s.threads[t]
    case DropLoad(h, tok, wait) =>
      if h.idx >= |s.slots| then At(s, t, Ready)
      else At(s, t, DropTry(h, tok, wait, GenRef(s.slots[h.idx].gen, s.slots[h.idx].rc)))
    case DropTry(h, tok, wait, gr) =>
      var sl := s.slots[h.idx];
      if gr.gen != h.gen || gr.rc == 0 then At(s, t, After(wait, h, sl.epoch))
      else if gr != GenRef(sl.gen, sl.rc) then At(s, t, DropTry(h, tok, wait, GenRef(sl.gen, sl.rc)))
      else
        var last := gr.rc - 1 == 0;
        At(SetSlot(s, h.idx, sl.(gen := h.gen, rc := gr.rc - 1, holders := sl.holders - {tok},
                                 at := if last then Dead(t) else sl.at))
             .(tokens := s.tokens - {tok}),
           t, if last then RcRead(h, wait) else After(wait, h, sl.epoch))
    case Spin(h, epoch) => if s.slots[h.idx].gen == h.gen then s else At(s, t, Ready)
    case _ => s
  }

  /** `rl_handle_reclaim`, from the last drop to the slot's return to the list. */
  function ReclaimStep(s: State, t: Tid): State
    requires t in s.threads && InRange(s, s.threads[t])
  {
    match s.threads[t]
    case RcRead(h, wait) =>
      At(s, t, RcClear(h, wait, Record(s.slots[h.idx].ptr, s.slots[h.idx].freeFn)))
    case RcClear(h, wait, rec) =>
      At(SetSlot(s, h.idx, s.slots[h.idx].(ptr := 0, freeFn := false, at := Cleared(t))), t, RcBump(h, wait, rec))
    case RcBump(h, wait, rec) =>
      var sl := s.slots[h.idx];
      At(SetSlot(s, h.idx, sl.(gen := (h.gen + 1) % GENS, rc := 0, epoch := sl.epoch + 1, at := Bumped(t))),
         t, RcFree(h, wait, rec))
    case RcFree(h, wait, rec) =>
      var sl := s.slots[h.idx];
      var run := if rec.freeFn && rec.ptr != 0 then multiset{sl.epoch - 1} else multiset{};
      At(SetSlot(s, h.idx, sl.(freed := sl.freed + run, at := Freed(t))), t, RcCount(h, wait))
    case RcCount(h, wait) =>
      At(SetSlot(s, h.idx, s.slots[h.idx].(at := Uncounted(t)))
           .(live := s.live - 1, counted := s.counted - {h.idx}),
         t, RcPush(h, wait))
    case RcPush(h, wait) =>
      var sl := s.slots[h.idx];
      At(SetSlot(s, h.idx, sl.(next := s.freeHead, at := InFree))
           .(freeHead := h.idx, free := [h.idx] + s.free),
         t, After(wait, h, sl.epoch - 1))
    case _ => s
  }

  function Apply(s: State, a: Action): State
    requires Safe(s) && Enabled(s, a)
  {
    match a
    case CallRegister(t, ptr, freeFn) =>
      At(s, t, if ptr == 0 then RegDone(None, 0, Record(ptr, freeFn)) else RegTake(ptr, freeFn))
    case CallPin(t, h) => At(s, t, PinLoad(h))
    case CallDrop(t, tok, wait) =>
      At(s.(tokens := s.tokens[tok := s.tokens[tok].(user := Some(t))]),
         t, DropLoad(HandleOf(s.tokens[tok].reg), tok, wait))
    case CallDropNull(t, wait) => if wait && |s.slots| > 0 then At(s, t, Spin(NULL_HANDLE, 0)) else s
    case Step(t, grown) =>
      var pc := s.threads[t];
      if pc.RegTake? || pc.RegFill? || pc.RegPublish? || pc.RegCount? || pc.RegDone? then RegisterStep(s, t, grown)
      else if pc.PinLoad? || pc.PinTry? || pc.PinRead? || pc.PinDone? then PinStep(s, t)
      else if pc.DropLoad? || pc.DropTry? || pc.Spin? then DropStep(s, t)
      else ReclaimStep(s, t)
  }

  ghost predicate Init(s: State) {
    && s.segSlots >= 2 && s.nsegs == 0 && s.slots == [] && s.freeHead == 0 && s.live == 0
    && (forall t | t in s.threads :: s.threads[t].Ready?)
    && s.free == [] && s.counted == {} && s.tokens == map[]
  }

  // ------------------------------------------------------------- invariant

  /** The slot that is in a phase of this thread. */
  function PcSlot(pc: Pc): Option<nat> {
    match pc
    case RegFill(_, _, idx) => Some(idx)
    case RegPublish(idx, _, _) => Some(idx)
    case RegCount(idx, _, _, _) => Some(idx)
    case RcRead(h, _) => Some(h.idx)
    case RcClear(h, _, _) => Some(h.idx)
    case RcBump(h, _, _) => Some(h.idx)
    case RcFree(h, _, _) => Some(h.idx)
    case RcCount(h, _) => Some(h.idx)
    case RcPush(h, _) => Some(h.idx)
    case _ => None
  }

  /** The phase a thread keeps its slot in. */
  function PcPhase(t: Tid, pc: Pc): Phase {
    match pc
    case RegFill(_, _, _) => Filling(t)
    case RegPublish(_, _, _) => Filled(t)
    case RegCount(_, _, _, _) => InUse(Some(t))
    case RcRead(_, _) => Dead(t)
    case RcClear(_, _, _) => Dead(t)
    case RcBump(_, _, _) => Cleared(t)
    case RcFree(_, _, _) => Bumped(t)
    case RcCount(_, _) => Freed(t)
    case RcPush(_, _) => Uncounted(t)
    case _ => InFree
  }

  function PhaseTid(p: Phase): Option<Tid> {
    match p
    case Reserved => None
    case InFree => None
    case InUse(r) => r
    case _ => Some(p.tid)
  }

  /** The reference a thread's call is using. */
  function PcToken(pc: Pc): Option<Token> {
    match pc
    case RegCount(_, _, tok, _) => Some(tok)
    case RegDone(r, tok, _) => if r.Some? then Some(tok) else None
    case PinRead(_, tok) => Some(tok)
    case PinDone(_, ptr, tok) => if ptr != 0 then Some(tok) else None
    case DropLoad(_, tok, _) => Some(tok)
    case DropTry(_, tok, _, _) => Some(tok)
    case _ => None
  }

  predicate IsCounted(p: Phase) {
    p == InUse(None) || p.Dead? || p.Cleared? || p.Bumped? || p.Freed?
  }

  /** free_fn has run once for each reclaimed registration that had one, and for
      no other; a Bumped slot's reclaimer is about to make the call. */
  ghost function DueFrees(sl: Slot, e: nat): nat {
    if e < sl.epoch && e < |sl.recs| && sl.recs[e].freeFn && !(sl.at.Bumped? && e + 1 == sl.epoch) then 1 else 0
  }

  ghost predicate SlotInv(sl: Slot, i: nat, counted: bool) {
    && sl.gen == sl.epoch % GENS && sl.rc == |sl.holders| < GENS
    && (i == 0 <==> sl.at.Reserved?) && (sl.at.Reserved? ==> sl.epoch == 0)
    && (sl.at.InUse? <==> sl.holders != {})
    && |sl.recs| == sl.epoch + (if sl.at.InUse? || sl.at.Dead? || sl.at.Cleared? then 1 else 0)
    && (forall e | 0 <= e < |sl.recs| :: sl.recs[e].ptr != 0)
    && (sl.at.InUse? || sl.at.Dead? ==> sl.recs[sl.epoch] == Record(sl.ptr, sl.freeFn))
    && (sl.at.Filled? ==> sl.ptr != 0)
    && (sl.at.Bumped? || sl.at.Freed? || sl.at.Uncounted? ==> sl.epoch > 0)
    && (counted <==> IsCounted(sl.at))
    && (forall e: nat :: sl.freed[e] == DueFrees(sl, e))
  }

  /** What registration r was made with. */
  predicate RecordedAs(r: Reg, slots: seq<Slot>, args: Record) {
    r.idx < |slots| && r.epoch < |slots[r.idx].recs| && slots[r.idx].recs[r.epoch] == args
  }

  /** What a thread knows about the slot and the reference it is using. */
  ghost predicate ThreadInv(t: Tid, pc: Pc, slots: seq<Slot>, tokens: map<Token, Ref>) {
    && (PcSlot(pc).Some? ==> PcSlot(pc).value < |slots| && slots[PcSlot(pc).value].at == PcPhase(t, pc))
    && (PcToken(pc).Some? ==> PcToken(pc).value in tokens && tokens[PcToken(pc).value].user == Some(t))
    && match pc
       case RegTake(ptr, _) => ptr != 0
       case RegFill(ptr, _, idx) => ptr != 0
       case RegPublish(idx, gen, args) => gen == slots[idx].gen && args == Record(slots[idx].ptr, slots[idx].freeFn)
       case RegCount(idx, gen, tok, args) =>
         Handle(gen, idx) == HandleOf(tokens[tok].reg) && RecordedAs(tokens[tok].reg, slots, args)
       case RegDone(r, tok, args) =>
         r.Some? ==> r.value == HandleOf(tokens[tok].reg) && RecordedAs(tokens[tok].reg, slots, args)
       case PinTry(h, _) => h != NULL_HANDLE && h.idx < |slots|
       case PinRead(h, tok) => h == HandleOf(tokens[tok].reg)
       case PinDone(h, ptr, tok) =>
         ptr != 0 ==>
           var reg := tokens[tok].reg;
           && h == HandleOf(reg) && reg.idx < |slots| && reg.epoch < |slots[reg.idx].recs|
           && ptr == slots[reg.idx].recs[reg.epoch].ptr
       case DropLoad(h, tok, _) => h == HandleOf(tokens[tok].reg)
       case DropTry(h, tok, _, gr) =>
         h == HandleOf(tokens[tok].reg) && h.idx < |slots| && gr.gen == h.gen && gr.rc > 0
       case RcRead(h, _) => h.gen == slots[h.idx].gen
       case RcClear(h, _, rec) =>
         var sl := slots[h.idx]; h.gen == sl.gen && sl.epoch < |sl.recs| && rec == sl.recs[sl.epoch]
       case RcBump(h, _, rec) =>
         var sl := slots[h.idx]; h.gen == sl.gen && sl.epoch < |sl.recs| && rec == sl.recs[sl.epoch]
       case RcFree(h, _, rec) =>
         var sl := slots[h.idx];
         0 < sl.epoch <= |sl.recs| && rec == sl.recs[sl.epoch - 1] && h.gen == (sl.epoch - 1) % GENS
       case RcCount(h, _) => slots[h.idx].epoch > 0 && h.gen == (slots[h.idx].epoch - 1) % GENS
       case RcPush(h, _) => slots[h.idx].epoch > 0 && h.gen == (slots[h.idx].epoch - 1) % GENS
       case Spin(h, epoch) => h.idx < |slots| && h.gen == epoch % GENS && epoch <= slots[h.idx].epoch
       case _ => true
  }

  ghost predicate TokenInv(k: Token, r: Ref, slots: seq<Slot>) {
    && r.reg.idx < |slots| && slots[r.reg.idx].epoch == r.reg.epoch && k in slots[r.reg.idx].holders
  }

  ghost predicate Listed(slots: seq<Slot>, free: seq<nat>) {
    forall i | 0 <= i < |free| :: 0 < free[i] < |slots| && slots[free[i]].at.InFree?
  }

  predicate Distinct(free: seq<nat>) {
    forall i, j | 0 <= i < j < |free| :: free[i] != free[j]
  }

  ghost predicate Linked(slots: seq<Slot>, head: nat, free: seq<nat>)
    requires Listed(slots, free)
  {
    && head == (if free == [] then 0 else free[0])
    && (forall i, j | 0 <= i < j < |free| && j == i + 1 :: slots[free[i]].next == free[j])
    && (free != [] ==> slots[free[|free| - 1]].next == 0)
  }

  ghost predicate ListsAll(slots: seq<Slot>, free: seq<nat>) {
    forall i | 0 <= i < |slots| && slots[i].at.InFree? :: i in free
  }

  /** `free` is the list that next_free spells out from freeHead, 0-terminated,
      without repetition, holding exactly the slots in phase InFree. */
  ghost predicate FreeInv(slots: seq<Slot>, head: nat, free: seq<nat>) {
    Listed(slots, free) && Distinct(free) && Linked(slots, head, free) && ListsAll(slots, free)
  }

  ghost predicate SlotsOk(slots: seq<Slot>, counted: set<nat>) {
    forall i | 0 <= i < |slots| :: SlotInv(slots[i], i, i in counted)
  }

  /** A slot in a thread's phase is the slot of that thread's call. */
  ghost predicate PhaseOk(p: Phase, i: nat, threads: map<Tid, Pc>) {
    PhaseTid(p).Some? ==> PhaseTid(p).value in threads && PcSlot(threads[PhaseTid(p).value]) == Some(i)
  }

  ghost predicate PhasesOk(slots: seq<Slot>, threads: map<Tid, Pc>) {
    forall i | 0 <= i < |slots| :: PhaseOk(slots[i].at, i, threads)
  }

  ghost predicate HoldersOk(slots: seq<Slot>, tokens: map<Token, Ref>) {
    forall i, k | 0 <= i < |slots| && k in slots[i].holders ::
      k in tokens && tokens[k].reg == Reg(i, slots[i].epoch)
  }

  ghost predicate TokensOk(slots: seq<Slot>, tokens: map<Token, Ref>, nextTok: Token) {
    forall k | k in tokens :: k < nextTok && TokenInv(k, tokens[k], slots)
  }

  ghost predicate ThreadsOk(threads: map<Tid, Pc>, slots: seq<Slot>, tokens: map<Token, Ref>) {
    forall t | t in threads :: ThreadInv(t, threads[t], slots, tokens)
  }

  ghost predicate CountOk(live: int, counted: set<nat>, n: nat) {
    live == |counted| && forall i | i in counted :: i < n
  }

  ghost predicate Inv(s: State) {
    && s.segSlots >= 2 && |s.slots| == s.nsegs * s.segSlots
    && SlotsOk(s.slots, s.counted) && PhasesOk(s.slots, s.threads)
    && HoldersOk(s.slots, s.tokens) && TokensOk(s.slots, s.tokens, s.nextTok)
    && ThreadsOk(s.threads, s.slots, s.tokens)
    && FreeInv(s.slots, s.freeHead, s.free) && CountOk(s.live, s.counted, |s.slots|)
  }

  lemma InvIsSafe(s: State)
    requires Inv(s)
    ensures Safe(s)
  {
    forall t | t in s.threads ensures InRange(s, s.threads[t]) {
      var pc := s.threads[t];
      assert ThreadInv(t, pc, s.slots, s.tokens);
      if PcToken(pc).Some? {
        var k := PcToken(pc).value;
        assert TokenInv(k, s.tokens[k], s.slots);
      }
    }
    if s.free != [] { assert s.freeHead == s.free[0]; }
  }

  /** How slots may move under the feet of the threads other than t. */
  ghost predicate Evolves(sl: Slot, sl': Slot, t: Tid) {
    && sl.recs <= sl'.recs && sl.epoch <= sl'.epoch
    && (PhaseTid(sl.at).Some? && PhaseTid(sl.at).value != t ==>
          && sl'.at == sl.at && sl'.epoch == sl.epoch && sl'.gen == sl.gen && sl'.recs == sl.recs
          && sl'.ptr == sl.ptr && sl'.freeFn == sl.freeFn)
  }

  /** Thread t has made a step that touched at most slot i and reference tok. */
  ghost predicate Touches(s: State, s': State, t: Tid, i: nat, tok: Token) {
    && t in s.threads && i < |s.slots|
    && s'.segSlots == s.segSlots && s'.nsegs == s.nsegs && s.nextTok <= s'.nextTok
    && |s'.slots| == |s.slots| && s'.slots == s.slots[i := s'.slots[i]]
    && t in s'.threads && s'.threads == s.threads[t := s'.threads[t]]
    && s'.tokens - {tok} == s.tokens - {tok}
    && (tok in s.tokens ==> s.tokens[tok].reg.idx == i && s.tokens[tok].user in {None, Some(t)})
    && s'.counted - {i} == s.counted - {i}
  }

  lemma OtherTokens(s: State, s': State, t: Tid, i: nat, tok: Token, k: Token)
    requires Touches(s, s', t, i, tok) && k != tok
    ensures (k in s'.tokens <==> k in s.tokens) && (k in s.tokens ==> s'.tokens[k] == s.tokens[k])
  {
    assert k in s'.tokens <==> k in s'.tokens - {tok};
    assert k in s.tokens <==> k in s.tokens - {tok};
    if k in s.tokens { assert s'.tokens[k] == (s'.tokens - {tok})[k] == (s.tokens - {tok})[k]; }
  }

  /** What the step must leave right about slot i and reference tok. */
  ghost predicate SlotStep(s: State, s': State, t: Tid, i: nat, tok: Token)
    requires Touches(s, s', t, i, tok)
  {
    var sl, sl' := s.slots[i], s'.slots[i];
    && Evolves(sl, sl', t) && SlotInv(sl', i, i in s'.counted)
    && (sl'.at == sl.at || PhaseTid(sl.at) in {None, Some(t)})
    && (sl'.at == sl.at || PhaseTid(sl'.at) in {None, Some(t)})
    && PcSlot(s.threads[t]) in {None, Some(i)}
    && (PhaseTid(sl'.at) == Some(t) ==> PcSlot(s'.threads[t]) == Some(i))
    && (sl'.holders == sl.holders || sl'.holders == sl.holders + {tok} || sl'.holders == sl.holders - {tok})
    && (sl.holders == {} || sl'.epoch == sl.epoch)
    && (tok in sl'.holders ==> tok in s'.tokens && s'.tokens[tok].reg == Reg(i, sl'.epoch))
    && (tok in s'.tokens ==> tok < s'.nextTok && TokenInv(tok, s'.tokens[tok], s'.slots))
  }

  lemma SlotsKept(s: State, s': State, t: Tid, i: nat, tok: Token)
    requires SlotsOk(s.slots, s.counted) && PhasesOk(s.slots, s.threads)
    requires Touches(s, s', t, i, tok) && SlotStep(s, s', t, i, tok)
    ensures SlotsOk(s'.slots, s'.counted) && PhasesOk(s'.slots, s'.threads)
  {
    forall j | 0 <= j < |s'.slots|
      ensures SlotInv(s'.slots[j], j, j in s'.counted) && PhaseOk(s'.slots[j].at, j, s'.threads)
    {
      assert PhaseOk(s.slots[j].at, j, s.threads);
      if j != i {
        assert SlotInv(s.slots[j], j, j in s.counted);
        assert j in s'.counted <==> j in s'.counted - {i};
        assert j in s.counted <==> j in s.counted - {i};
      }
    }
  }

  lemma TokensKept(s: State, s': State, t: Tid, i: nat, tok: Token)
    requires HoldersOk(s.slots, s.tokens) && TokensOk(s.slots, s.tokens, s.nextTok)
    requires Touches(s, s', t, i, tok) && SlotStep(s, s', t, i, tok)
    ensures HoldersOk(s'.slots, s'.tokens) && TokensOk(s'.slots, s'.tokens, s'.nextTok)
  {
    forall k | k in s'.tokens ensures k < s'.nextTok && TokenInv(k, s'.tokens[k], s'.slots) {
      if k != tok {
        OtherTokens(s, s', t, i, tok, k);
        assert TokenInv(k, s.tokens[k], s.slots);
      }
    }
    forall j, k | 0 <= j < |s'.slots| && k in s'.slots[j].holders
      ensures k in s'.tokens && s'.tokens[k].reg == Reg(j, s'.slots[j].epoch)
    {
      if k != tok {
        OtherTokens(s, s', t, i, tok, k);
        assert k in s.slots[j].holders;
      }
    }
  }

  lemma ThreadKept(u: Tid, pc: Pc, slots: seq<Slot>, tokens: map<Token, Ref>,
                   slots': seq<Slot>, tokens': map<Token, Ref>, t: Tid)
    requires ThreadInv(u, pc, slots, tokens) && u != t
    requires |slots| <= |slots'| && forall i | 0 <= i < |slots| :: Evolves(slots[i], slots'[i], t)
    requires PcToken(pc).Some? ==> PcToken(pc).value in tokens' && tokens'[PcToken(pc).value] == tokens[PcToken(pc).value]
    ensures ThreadInv(u, pc, slots', tokens')
  {
  }

  lemma ThreadsKept(s: State, s': State, t: Tid)
    requires ThreadsOk(s.threads, s.slots, s.tokens) && t in s.threads && t in s'.threads
    requires s'.threads == s.threads[t := s'.threads[t]]
    requires |s.slots| <= |s'.slots|
    requires forall i | 0 <= i < |s.slots| :: Evolves(s.slots[i], s'.slots[i], t)
    requires forall k | k in s.tokens && s.tokens[k].user.Some? && s.tokens[k].user.value != t ::
               k in s'.tokens && s'.tokens[k] == s.tokens[k]
    requires ThreadInv(t, s'.threads[t], s'.slots, s'.tokens)
    ensures ThreadsOk(s'.threads, s'.slots, s'.tokens)
  {
    forall u | u in s'.threads && u != t ensures ThreadInv(u, s'.threads[u], s'.slots, s'.tokens) {
      ThreadKept(u, s.threads[u], s.slots, s.tokens, s'.slots, s'.tokens, t);
    }
  }

  /** All that a step of thread t touching slot i and reference tok must show. */
  ghost predicate Good(s: State, s': State, t: Tid, i: nat, tok: Token) {
    && Touches(s, s', t, i, tok) && SlotStep(s, s', t, i, tok)
    && ThreadInv(t, s'.threads[t], s'.slots, s'.tokens)
  }

  lemma CountKept(s: State, s': State, t: Tid, i: nat, tok: Token)
    requires CountOk(s.live, s.counted, |s.slots|) && Touches(s, s', t, i, tok) && s'.live == |s'.counted|
    ensures CountOk(s'.live, s'.counted, |s'.slots|)
  {
    forall j | j in s'.counted ensures j < |s'.slots| {
      if j != i { assert j in s'.counted - {i}; }
    }
  }

  lemma OtherUsers(s: State, s': State, t: Tid, i: nat, tok: Token)
    requires Touches(s, s', t, i, tok)
    ensures forall k | k in s.tokens && s.tokens[k].user.Some? && s.tokens[k].user.value != t ::
              k in s'.tokens && s'.tokens[k] == s.tokens[k]
  {
    forall k | k in s.tokens && s.tokens[k].user.Some? && s.tokens[k].user.value != t
      ensures k in s'.tokens && s'.tokens[k] == s.tokens[k]
    {
      OtherTokens(s, s', t, i, tok, k);
    }
  }

  /** A step of thread t that touches at most slot i and reference tok keeps the
      invariant if it keeps what concerns i, tok, t, the list and the count. */
  lemma LocalStep(s: State, s': State, t: Tid, i: nat, tok: Token)
    requires Inv(s) && Good(s, s', t, i, tok)
    requires FreeInv(s'.slots, s'.freeHead, s'.free) && s'.live == |s'.counted|
    ensures Inv(s')
  {
    SlotsKept(s, s', t, i, tok);
    TokensKept(s, s', t, i, tok);
    OtherUsers(s, s', t, i, tok);
    ThreadsKept(s, s', t);
    CountKept(s, s', t, i, tok);
  }

  lemma PhasesKept(s: State, t: Tid, pc: Pc)
    requires PhasesOk(s.slots, s.threads) && t in s.threads && PcSlot(s.threads[t]).None?
    ensures PhasesOk(s.slots, s.threads[t := pc])
  {
    forall i | 0 <= i < |s.slots| ensures PhaseOk(s.slots[i].at, i, s.threads[t := pc]) {
      assert PhaseOk(s.slots[i].at, i, s.threads);
    }
  }

  /** A step that moves thread t's program counter and nothing else. */
  lemma PcStep(s: State, t: Tid, pc: Pc)
    requires Inv(s) && t in s.threads && PcSlot(s.threads[t]).None?
    requires ThreadInv(t, pc, s.slots, s.tokens)
    ensures Inv(At(s, t, pc))
  {
    ThreadsKept(s, At(s, t, pc), t);
    PhasesKept(s, t, pc);
  }

  /** The free list does not notice changes to slots that stay off it. */
  lemma FreeKept(slots: seq<Slot>, slots': seq<Slot>, i: nat, head: nat, free: seq<nat>)
    requires FreeInv(slots, head, free) && i < |slots|
    requires |slots'| == |slots| && slots' == slots[i := slots'[i]]
    requires !slots[i].at.InFree? && !slots'[i].at.InFree?
    ensures FreeInv(slots', head, free)
  {
  }

  lemma PushLinks(slots: seq<Slot>, slots': seq<Slot>, i: nat, head: nat, free: seq<nat>)
    requires Listed(slots, free) && Linked(slots, head, free) && 0 < i < |slots|
    requires |slots'| == |slots| && slots' == slots[i := slots'[i]]
    requires !slots[i].at.InFree? && slots'[i].at.InFree? && slots'[i].next == head
    ensures Listed(slots', [i] + free) && Linked(slots', i, [i] + free)
  {
    var free' := [i] + free;
    assert forall j | 0 <= j < |free| :: free'[j + 1] == free[j] != i;
    forall j, k | 0 <= j < k < |free'| && k == j + 1 ensures slots'[free'[j]].next == free'[k] {
      if j > 0 { assert free'[j] == free[j - 1] && free'[k] == free[j]; }
    }
    if free != [] { assert free'[|free|] == free[|free| - 1]; }
  }

  lemma FreePush(slots: seq<Slot>, slots': seq<Slot>, i: nat, head: nat, free: seq<nat>)
    requires FreeInv(slots, head, free) && 0 < i < |slots|
    requires |slots'| == |slots| && slots' == slots[i := slots'[i]]
    requires !slots[i].at.InFree? && slots'[i].at.InFree? && slots'[i].next == head
    ensures FreeInv(slots', i, [i] + free)
  {
    PushLinks(slots, slots', i, head, free);
    var free' := [i] + free;
    assert Distinct(free');
    forall j | 0 <= j < |slots'| && slots'[j].at.InFree? ensures j in free' {
      if j != i { assert j in free; }
    }
  }

  lemma PopLinks(slots: seq<Slot>, slots': seq<Slot>, head: nat, free: seq<nat>)
    requires Listed(slots, free) && Distinct(free) && Linked(slots, head, free) && free != []
    requires |slots'| == |slots| && slots' == slots[head := slots'[head]] && !slots'[head].at.InFree?
    ensures Listed(slots', free[1..]) && Linked(slots', slots[head].next, free[1..])
  {
    var rest := free[1..];
    forall j | 0 <= j < |rest| ensures rest[j] == free[j + 1] && slots'[rest[j]] == slots[free[j + 1]] {
      assert free[0] != free[j + 1];
    }
    forall j, k | 0 <= j < k < |rest| && k == j + 1 ensures slots'[rest[j]].next == rest[k] {
      assert slots[free[j + 1]].next == free[k + 1];
    }
    if rest != [] { assert slots[free[0]].next == free[1]; }
  }

  lemma FreePop(slots: seq<Slot>, slots': seq<Slot>, head: nat, free: seq<nat>)
    requires FreeInv(slots, head, free) && free != []
    requires |slots'| == |slots| && slots' == slots[head := slots'[head]] && !slots'[head].at.InFree?
    ensures FreeInv(slots', slots[head].next, free[1..])
  {
    PopLinks(slots, slots', head, free);
    forall j | 0 <= j < |slots'| && slots'[j].at.InFree? ensures j in free[1..] {
      assert j in free && j != free[0];
    }
  }

  /** The part of the invariant a step's own proof needs. */
  ghost predicate Here(s: State, t: Tid, i: nat) {
    && t in s.threads && InRange(s, s.threads[t]) && ThreadInv(t, s.threads[t], s.slots, s.tokens)
    && i < |s.slots| && SlotInv(s.slots[i], i, i in s.counted) && PhaseOk(s.slots[i].at, i, s.threads)
    && s.nextTok !in s.tokens && s.nextTok !in s.slots[i].holders
  }

  lemma InvHere(s: State, t: Tid, i: nat)
    requires Inv(s) && t in s.threads && i < |s.slots|
    ensures Here(s, t, i)
  {
    assert InRange(s, s.threads[t]) by { InvIsSafe(s); }
    assert ThreadInv(t, s.threads[t], s.slots, s.tokens);
    FreshToken(s.slots, s.tokens, s.nextTok, i);
  }

  lemma FreshToken(slots: seq<Slot>, tokens: map<Token, Ref>, nextTok: Token, i: nat)
    requires HoldersOk(slots, tokens) && TokensOk(slots, tokens, nextTok) && i < |slots|
    ensures nextTok !in tokens && nextTok !in slots[i].holders
  {
  }

  // --------------------------------------------------------- reclaim steps

  lemma ReadClearGood(s: State, t: Tid, i: nat)
    requires Here(s, t, i) && PcSlot(s.threads[t]) == Some(i)
    requires s.threads[t].RcRead? || s.threads[t].RcClear?
    ensures Good(s, ReclaimStep(s, t), t, i, s.nextTok)
  {
  }

  lemma BumpGood(s: State, t: Tid, i: nat)
    requires Here(s, t, i) && PcSlot(s.threads[t]) == Some(i) && s.threads[t].RcBump?
    ensures Good(s, ReclaimStep(s, t), t, i, s.nextTok)
  {
  }

  lemma FreeGood(s: State, t: Tid, i: nat)
    requires Here(s, t, i) && PcSlot(s.threads[t]) == Some(i) && s.threads[t].RcFree?
    ensures Good(s, ReclaimStep(s, t), t, i, s.nextTok)
  {
  }

  lemma UncountGood(s: State, t: Tid, i: nat)
    requires Here(s, t, i) && PcSlot(s.threads[t]) == Some(i) && s.threads[t].RcCount?
    ensures Good(s, ReclaimStep(s, t), t, i, s.nextTok) && i in s.counted
  {
  }

  lemma PushGood(s: State, t: Tid, i: nat)
    requires Here(s, t, i) && PcSlot(s.threads[t]) == Some(i) && s.threads[t].RcPush?
    ensures Good(s, ReclaimStep(s, t), t, i, s.nextTok) && i > 0
  {
  }

  lemma ReclaimGood(s: State, t: Tid, i: nat)
    requires Here(s, t, i) && PcSlot(s.threads[t]) == Some(i)
    requires s.threads[t].RcRead? || s.threads[t].RcClear? || s.threads[t].RcBump? || s.threads[t].RcFree?
          || s.threads[t].RcCount? || s.threads[t].RcPush?
    ensures Good(s, ReclaimStep(s, t), t, i, s.nextTok)
    ensures i > 0 && !s.slots[i].at.InFree?
    ensures ReclaimStep(s, t).slots[i].at.InFree? <==> s.threads[t].RcPush?
    ensures s.threads[t].RcCount? ==> i in s.counted
  {
    match s.threads[t] {
      case RcRead(_, _) => ReadClearGood(s, t, i);
      case RcClear(_, _, _) => ReadClearGood(s, t, i);
      case RcBump(_, _, _) => BumpGood(s, t, i);
      case RcFree(_, _, _) => FreeGood(s, t, i);
      case RcCount(_, _) => UncountGood(s, t, i);
      case RcPush(_, _) => PushGood(s, t, i);
    }
  }

  lemma ReclaimList(s: State, t: Tid, i: nat)
    requires t in s.threads && InRange(s, s.threads[t]) && 0 < i < |s.slots| && PcSlot(s.threads[t]) == Some(i)
    requires s.threads[t].RcRead? || s.threads[t].RcClear? || s.threads[t].RcBump? || s.threads[t].RcFree?
          || s.threads[t].RcCount? || s.threads[t].RcPush?
    requires FreeInv(s.slots, s.freeHead, s.free) && !s.slots[i].at.InFree?
    requires s.live == |s.counted| && (s.threads[t].RcCount? ==> i in s.counted)
    ensures FreeInv(ReclaimStep(s, t).slots, ReclaimStep(s, t).freeHead, ReclaimStep(s, t).free)
    ensures ReclaimStep(s, t).live == |ReclaimStep(s, t).counted|
  {
    var s' := ReclaimStep(s, t);
    if s.threads[t].RcPush? {
      FreePush(s.slots, s'.slots, i, s.freeHead, s.free);
    } else {
      FreeKept(s.slots, s'.slots, i, s.freeHead, s.free);
    }
  }

  lemma ReclaimLocal(s: State, t: Tid, i: nat)
    requires Here(s, t, i) && PcSlot(s.threads[t]) == Some(i)
    requires s.threads[t].RcRead? || s.threads[t].RcClear? || s.threads[t].RcBump? || s.threads[t].RcFree?
          || s.threads[t].RcCount? || s.threads[t].RcPush?
    requires FreeInv(s.slots, s.freeHead, s.free) && s.live == |s.counted|
    ensures var s' := ReclaimStep(s, t);
            && Good(s, s', t, i, s.nextTok) && FreeInv(s'.slots, s'.freeHead, s'.free) && s'.live == |s'.counted|
  {
    ReclaimGood(s, t, i);
    ReclaimList(s, t, i);
  }

  lemma ReclaimHere(s: State, t: Tid, i: nat)
    requires Inv(s) && Here(s, t, i) && PcSlot(s.threads[t]) == Some(i)
    requires s.threads[t].RcRead? || s.threads[t].RcClear? || s.threads[t].RcBump? || s.threads[t].RcFree?
          || s.threads[t].RcCount? || s.threads[t].RcPush?
    ensures Inv(ReclaimStep(s, t))
  {
    ReclaimLocal(s, t, i);
    LocalStep(s, ReclaimStep(s, t), t, i, s.nextTok);
  }

  lemma ReclaimKeepsInv(s: State, t: Tid)
    requires Inv(s) && Safe(s) && t in s.threads
    requires s.threads[t].RcRead? || s.threads[t].RcClear? || s.threads[t].RcBump? || s.threads[t].RcFree?
          || s.threads[t].RcCount? || s.threads[t].RcPush?
    ensures Inv(ReclaimStep(s, t))
  {
    InvHere(s, t, s.threads[t].h.idx);
    ReclaimHere(s, t, s.threads[t].h.idx);
  }

  // ------------------------------------------------------ pin and drop steps

  /** A holder keeps its slot in use, at its registration. */
  lemma HolderPins(s: State, tok: Token)
    requires Inv(s) && tok in s.tokens
    ensures var r := s.tokens[tok].reg;
            && r.idx < |s.slots| && s.slots[r.idx].at.InUse? && s.slots[r.idx].epoch == r.epoch
            && tok in s.slots[r.idx].holders && r.epoch < |s.slots[r.idx].recs|
            && Record(s.slots[r.idx].ptr, s.slots[r.idx].freeFn) == s.slots[r.idx].recs[r.epoch]
            && s.slots[r.idx].ptr != 0 && s.slots[r.idx].gen == r.epoch % GENS && s.slots[r.idx].rc > 0
  {
    var r := s.tokens[tok].reg;
    assert TokenInv(tok, s.tokens[tok], s.slots);
    assert SlotInv(s.slots[r.idx], r.idx, r.idx in s.counted);
  }

  lemma PinGood(s: State, t: Tid, i: nat)
    requires Here(s, t, i) && s.threads[t].PinTry? && i == s.threads[t].h.idx
    requires var gr := s.threads[t].gr;
             gr == GenRef(s.slots[i].gen, s.slots[i].rc) && gr.gen == s.threads[t].h.gen && gr.rc > 0
    requires s.slots[i].rc + 1 < GENS
    ensures Good(s, PinStep(s, t), t, i, s.nextTok)
    ensures s.slots[i].at.InUse? && PinStep(s, t).slots[i].at.InUse?
  {
  }

  /** The steps of pin that only move its program counter. */
  lemma PinMoves(s: State, t: Tid)
    requires t in s.threads && InRange(s, s.threads[t]) && ThreadInv(t, s.threads[t], s.slots, s.tokens)
    requires match s.threads[t]
             case PinLoad(_) => true
             case PinTry(h, gr) => gr != GenRef(s.slots[h.idx].gen, s.slots[h.idx].rc) || gr.gen != h.gen || gr.rc == 0
             case PinRead(h, tok) =>
               var r := s.tokens[tok].reg;
               r.idx < |s.slots| && r.epoch < |s.slots[r.idx].recs| && s.slots[r.idx].ptr == s.slots[r.idx].recs[r.epoch].ptr
             case _ => false
    ensures PinStep(s, t) == At(s, t, PinStep(s, t).threads[t]) && PcSlot(s.threads[t]).None?
    ensures ThreadInv(t, PinStep(s, t).threads[t], s.slots, s.tokens)
  {
  }

  lemma PinCasKeepsInv(s: State, t: Tid, i: nat)
    requires Inv(s) && Here(s, t, i) && s.threads[t].PinTry? && i == s.threads[t].h.idx
    requires var gr := s.threads[t].gr;
             gr == GenRef(s.slots[i].gen, s.slots[i].rc) && gr.gen == s.threads[t].h.gen && gr.rc > 0
    requires s.slots[i].rc + 1 < GENS
    ensures Inv(PinStep(s, t))
  {
    var s' := PinStep(s, t);
    PinGood(s, t, i);
    FreeKept(s.slots, s'.slots, i, s.freeHead, s.free);
    LocalStep(s, s', t, i, s.nextTok);
  }

  /** Thread t's next step is a CAS that takes a reference. */
  predicate PinWins(s: State, t: Tid)
    requires t in s.threads && InRange(s, s.threads[t])
  {
    var pc := s.threads[t];
    && pc.PinTry? && pc.gr == GenRef(s.slots[pc.h.idx].gen, s.slots[pc.h.idx].rc)
    && pc.gr.gen == pc.h.gen && pc.gr.rc > 0
  }

  lemma PinKeepsInv(s: State, t: Tid)
    requires Inv(s) && Safe(s) && t in s.threads
    requires s.threads[t].PinLoad? || s.threads[t].PinTry? || s.threads[t].PinRead?
    requires PinWins(s, t) ==> s.slots[s.threads[t].h.idx].rc + 1 < GENS
    ensures Inv(PinStep(s, t))
  {
    var pc := s.threads[t];
    assert ThreadInv(t, pc, s.slots, s.tokens);
    if PinWins(s, t) {
      InvHere(s, t, pc.h.idx);
      PinCasKeepsInv(s, t, pc.h.idx);
    } else {
      if pc.PinRead? { HolderPins(s, pc.tok); }
      PinMoves(s, t);
      PcStep(s, t, PinStep(s, t).threads[t]);
    }
  }

  /** Changing which call, if any, is using a reference. */
  lemma UserGood(s: State, t: Tid, i: nat, tok: Token, user: Option<Tid>, pc: Pc)
    requires Here(s, t, i) && PcSlot(s.threads[t]).None? && PcSlot(pc).None?
    requires tok in s.tokens && s.tokens[tok].reg.idx == i && tok < s.nextTok && TokenInv(tok, s.tokens[tok], s.slots)
    requires s.tokens[tok].user in {None, Some(t)}
    requires ThreadInv(t, pc, s.slots, s.tokens[tok := s.tokens[tok].(user := user)])
    ensures Good(s, At(s.(tokens := s.tokens[tok := s.tokens[tok].(user := user)]), t, pc), t, i, tok)
  {
  }

  lemma UserKeepsInv(s: State, t: Tid, tok: Token, user: Option<Tid>, pc: Pc)
    requires Inv(s) && t in s.threads && PcSlot(s.threads[t]).None? && PcSlot(pc).None?
    requires tok in s.tokens && s.tokens[tok].user in {None, Some(t)}
    requires ThreadInv(t, pc, s.slots, s.tokens[tok := s.tokens[tok].(user := user)])
    ensures Inv(At(s.(tokens := s.tokens[tok := s.tokens[tok].(user := user)]), t, pc))
  {
    var i := s.tokens[tok].reg.idx;
    HolderPins(s, tok);
    InvHere(s, t, i);
    UserGood(s, t, i, tok, user, pc);
    LocalStep(s, At(s.(tokens := s.tokens[tok := s.tokens[tok].(user := user)]), t, pc), t, i, tok);
  }

  /** Registrations not yet counted are still held by their registrar. */
  lemma RegistrarHolds(s: State, t: Tid, i: nat, tok: Token)
    requires PhasesOk(s.slots, s.threads) && ThreadsOk(s.threads, s.slots, s.tokens) && TokensOk(s.slots, s.tokens, s.nextTok)
    requires i < |s.slots| && s.slots[i].at.InUse? && s.slots[i].at.registrar.Some?
    requires t in s.threads && PcSlot(s.threads[t]).None?
    requires tok in s.slots[i].holders && tok in s.tokens && s.tokens[tok].user == Some(t)
    ensures |s.slots[i].holders| >= 2
  {
    var u := s.slots[i].at.registrar.value;
    assert PhaseOk(s.slots[i].at, i, s.threads);
    assert ThreadInv(u, s.threads[u], s.slots, s.tokens);
    var k := s.threads[u].tok;
    assert TokenInv(k, s.tokens[k], s.slots);
    assert {k, tok} <= s.slots[i].holders;
    assert |s.slots[i].holders| == |s.slots[i].holders - {k, tok}| + 2;
  }

  lemma DropGood(s: State, t: Tid, i: nat)
    requires Here(s, t, i) && s.threads[t].DropTry? && i == s.threads[t].h.idx
    requires s.threads[t].gr == GenRef(s.slots[i].gen, s.slots[i].rc) && s.slots[i].at.InUse?
    requires s.threads[t].tok in s.slots[i].holders
    requires s.tokens[s.threads[t].tok].reg == Reg(i, s.slots[i].epoch)
    requires s.slots[i].at.registrar.Some? ==> |s.slots[i].holders| >= 2
    ensures Good(s, DropStep(s, t), t, i, s.threads[t].tok)
    ensures !DropStep(s, t).slots[i].at.InFree?
  {
    var tok := s.threads[t].tok;
    var sl := s.slots[i];
    assert |sl.holders - {tok}| == |sl.holders| - 1;
    assert tok !in DropStep(s, t).tokens;
  }

  lemma DropMoves(s: State, t: Tid)
    requires t in s.threads && InRange(s, s.threads[t]) && ThreadInv(t, s.threads[t], s.slots, s.tokens)
    requires s.threads[t].DropLoad? || s.threads[t].DropTry? || s.threads[t].Spin?
    requires s.threads[t].DropLoad? || s.threads[t].DropTry? ==>
               var h := s.threads[t].h;
               h.idx < |s.slots| && s.slots[h.idx].gen == h.gen && s.slots[h.idx].rc > 0
    requires s.threads[t].DropTry? ==>
               var h := s.threads[t].h; s.threads[t].gr != GenRef(s.slots[h.idx].gen, s.slots[h.idx].rc)
    ensures DropStep(s, t) == At(s, t, DropStep(s, t).threads[t]) && PcSlot(s.threads[t]).None?
    ensures ThreadInv(t, DropStep(s, t).threads[t], s.slots, s.tokens)
  {
    if s.threads[t].Spin? { assert s == At(s, t, s.threads[t]); }
  }

  lemma DropCasKeepsInv(s: State, t: Tid, i: nat)
    requires Inv(s) && Here(s, t, i) && s.threads[t].DropTry? && i == s.threads[t].h.idx
    requires s.threads[t].gr == GenRef(s.slots[i].gen, s.slots[i].rc)
    ensures Inv(DropStep(s, t))
  {
    var s' := DropStep(s, t);
    HolderPins(s, s.threads[t].tok);
    if s.slots[i].at.registrar.Some? { RegistrarHolds(s, t, i, s.threads[t].tok); }
    DropGood(s, t, i);
    FreeKept(s.slots, s'.slots, i, s.freeHead, s.free);
    LocalStep(s, s', t, i, s.threads[t].tok);
  }

  lemma DropKeepsInv(s: State, t: Tid)
    requires Inv(s) && Safe(s) && t in s.threads
    requires s.threads[t].DropLoad? || s.threads[t].DropTry? || s.threads[t].Spin?
    ensures Inv(DropStep(s, t))
  {
    var pc := s.threads[t];
    assert ThreadInv(t, pc, s.slots, s.tokens);
    if pc.DropTry? && pc.gr == GenRef(s.slots[pc.h.idx].gen, s.slots[pc.h.idx].rc) {
      InvHere(s, t, pc.h.idx);
      DropCasKeepsInv(s, t, pc.h.idx);
    } else {
      if !pc.Spin? { HolderPins(s, pc.tok); }
      DropMoves(s, t);
      PcStep(s, t, DropStep(s, t).threads[t]);
    }
  }

  // --------------------------------------------------------- register steps

  lemma FillGood(s: State, t: Tid, i: nat)
    requires Here(s, t, i) && s.threads[t].RegFill? && s.threads[t].idx == i && s.segSlots >= 2
    requires s.freeHead == 0 || (s.freeHead < |s.slots| && s.free != [])
    ensures Good(s, RegisterStep(s, t, false), t, i, s.nextTok)
  {
  }

  lemma PublishGood(s: State, t: Tid, i: nat)
    requires Here(s, t, i) && s.threads[t].RegPublish? && s.threads[t].idx == i && s.segSlots >= 2
    requires s.freeHead == 0 || (s.freeHead < |s.slots| && s.free != [])
    ensures Good(s, RegisterStep(s, t, false), t, i, s.nextTok)
  {
  }

  lemma CountGood(s: State, t: Tid, i: nat)
    requires Here(s, t, i) && s.threads[t].RegCount? && s.threads[t].idx == i && s.segSlots >= 2
    requires s.freeHead == 0 || (s.freeHead < |s.slots| && s.free != [])
    ensures Good(s, RegisterStep(s, t, false), t, i, s.nextTok) && i !in s.counted
  {
  }

  lemma RegisterGood(s: State, t: Tid, i: nat)
    requires Here(s, t, i) && PcSlot(s.threads[t]) == Some(i) && s.segSlots >= 2
    requires s.freeHead == 0 || (s.freeHead < |s.slots| && s.free != [])
    requires s.threads[t].RegFill? || s.threads[t].RegPublish? || s.threads[t].RegCount?
    ensures Good(s, RegisterStep(s, t, false), t, i, s.nextTok)
    ensures !s.slots[i].at.InFree? && !RegisterStep(s, t, false).slots[i].at.InFree?
    ensures s.threads[t].RegCount? ==> i !in s.counted
  {
    match s.threads[t] {
      case RegFill(_, _, _) => FillGood(s, t, i);
      case RegPublish(_, _, _) => PublishGood(s, t, i);
      case RegCount(_, _, _, _) => CountGood(s, t, i);
    }
  }

  lemma RegisterList(s: State, t: Tid, i: nat)
    requires t in s.threads && InRange(s, s.threads[t]) && i < |s.slots| && PcSlot(s.threads[t]) == Some(i)
    requires s.threads[t].RegFill? || s.threads[t].RegPublish? || s.threads[t].RegCount?
    requires s.segSlots >= 2 && FreeInv(s.slots, s.freeHead, s.free) && !s.slots[i].at.InFree?
    requires s.live == |s.counted| && (s.threads[t].RegCount? ==> i !in s.counted)
    ensures s.freeHead == 0 || (s.freeHead < |s.slots| && s.free != [])
    ensures var s' := RegisterStep(s, t, false);
            FreeInv(s'.slots, s'.freeHead, s'.free) && s'.live == |s'.counted|
  {
    FreeKept(s.slots, RegisterStep(s, t, false).slots, i, s.freeHead, s.free);
  }

  lemma RegisterKeepsInv(s: State, t: Tid)
    requires Inv(s) && Safe(s) && t in s.threads
    requires s.threads[t].RegFill? || s.threads[t].RegPublish? || s.threads[t].RegCount?
    ensures Inv(RegisterStep(s, t, false))
  {
    var s' := RegisterStep(s, t, false);
    var i := s.threads[t].idx;
    InvHere(s, t, i);
    RegisterGood(s, t, i);
    RegisterList(s, t, i);
    LocalStep(s, s', t, i, s.nextTok);
  }

  lemma GrownList(slots: seq<Slot>, slots': seq<Slot>, n: nat, start: nat)
    requires FreeInv(slots, 0, []) && n >= 2 && start == (if slots == [] then 1 else 0)
    requires slots' == slots + FreshSlots(n, |slots|, start, 0)
    ensures FreeInv(slots', |slots| + n - 1, Countdown(n, |slots|, start))
  {
    GrownLinks(slots, slots', n, start);
    GrownAll(slots, slots', n, start);
  }

  lemma GrownLinks(slots: seq<Slot>, slots': seq<Slot>, n: nat, start: nat)
    requires n >= 2 && start == (if slots == [] then 1 else 0) && slots' == slots + FreshSlots(n, |slots|, start, 0)
    ensures var free := Countdown(n, |slots|, start);
            Listed(slots', free) && Distinct(free) && Linked(slots', |slots| + n - 1, free)
  {
  }

  lemma GrownAll(slots: seq<Slot>, slots': seq<Slot>, n: nat, start: nat)
    requires ListsAll(slots, []) && n >= 2 && start == (if slots == [] then 1 else 0)
    requires slots' == slots + FreshSlots(n, |slots|, start, 0)
    ensures ListsAll(slots', Countdown(n, |slots|, start))
  {
    var free := Countdown(n, |slots|, start);
    forall j | 0 <= j < |slots'| && slots'[j].at.InFree? ensures j in free {
      assert j >= |slots|;
      assert free[|slots| + n - 1 - j] == j;
    }
  }

  lemma GrownSlots(s: State, slots': seq<Slot>, n: nat, start: nat)
    requires SlotsOk(s.slots, s.counted) && PhasesOk(s.slots, s.threads) && HoldersOk(s.slots, s.tokens)
    requires CountOk(s.live, s.counted, |s.slots|)
    requires start == (if s.slots == [] then 1 else 0)
    requires slots' == s.slots + FreshSlots(n, |s.slots|, start, 0)
    ensures SlotsOk(slots', s.counted) && PhasesOk(slots', s.threads) && HoldersOk(slots', s.tokens)
  {
    forall j | 0 <= j < |slots'| ensures SlotInv(slots'[j], j, j in s.counted) && PhaseOk(slots'[j].at, j, s.threads) {
      if j < |s.slots| {
        assert SlotInv(s.slots[j], j, j in s.counted) && PhaseOk(s.slots[j].at, j, s.threads);
      }
    }
  }

  lemma GrownThreads(s: State, slots': seq<Slot>)
    requires TokensOk(s.slots, s.tokens, s.nextTok) && ThreadsOk(s.threads, s.slots, s.tokens) && s.slots <= slots'
    ensures TokensOk(slots', s.tokens, s.nextTok) && ThreadsOk(s.threads, slots', s.tokens)
  {
    forall k | k in s.tokens ensures TokenInv(k, s.tokens[k], slots') {
      assert TokenInv(k, s.tokens[k], s.slots);
    }
    forall u | u in s.threads ensures ThreadInv(u, s.threads[u], slots', s.tokens) {
      ThreadKept(u, s.threads[u], s.slots, s.tokens, slots', s.tokens, u + 1);
    }
  }

  lemma GrowShape(s: State, start: nat)
    requires s.segSlots >= 2 && |s.slots| == s.nsegs * s.segSlots && s.free == [] && s.freeHead == 0
    requires start == if s.slots == [] then 1 else 0
    ensures Grow(s).slots == s.slots + FreshSlots(s.segSlots, |s.slots|, start, 0)
    ensures Grow(s).free == Countdown(s.segSlots, |s.slots|, start) != []
    ensures |Grow(s).slots| == Grow(s).nsegs * s.segSlots
  {
    assert (s.nsegs + 1) * s.segSlots == s.nsegs * s.segSlots + s.segSlots;
  }

  lemma GrowKeepsInv(s: State)
    requires Inv(s) && s.free == []
    ensures Inv(Grow(s)) && Grow(s).free != []
  {
    var s' := Grow(s);
    var start := if s.slots == [] then 1 else 0;
    GrowShape(s, start);
    GrownList(s.slots, s'.slots, s.segSlots, start);
    GrownSlots(s, s'.slots, s.segSlots, start);
    GrownThreads(s, s'.slots);
  }

  lemma PopGood(s: State, t: Tid, i: nat, ptr: Obj, freeFn: bool)
    requires Here(s, t, i) && PcSlot(s.threads[t]).None? && ptr != 0 && s.slots[i].at.InFree?
    requires s.segSlots >= 2 && s.freeHead == i > 0 && s.free != []
    ensures Good(s, Take(s, t, ptr, freeFn, false), t, i, s.nextTok)
  {
  }

  lemma PopKeepsInv(s: State, t: Tid, ptr: Obj, freeFn: bool)
    requires Inv(s) && t in s.threads && PcSlot(s.threads[t]).None? && s.free != [] && ptr != 0
    requires s.freeHead == 0 || (s.freeHead < |s.slots| && s.free != [])
    ensures s.freeHead != 0 && Inv(Take(s, t, ptr, freeFn, false))
  {
    var i := s.freeHead;
    assert i == s.free[0] && s.slots[i].at.InFree?;
    InvHere(s, t, i);
    PopGood(s, t, i, ptr, freeFn);
    var s' := Take(s, t, ptr, freeFn, false);
    FreePop(s.slots, s'.slots, i, s.free);
    LocalStep(s, s', t, i, s.nextTok);
  }

  /** Taking from an empty list is growing and then taking. */
  lemma GrowThenTake(s: State, t: Tid, ptr: Obj, freeFn: bool)
    requires s.segSlots >= 2 && s.freeHead == 0 && s.nsegs < MAX_SEGS
    ensures var s1 := Grow(s);
            && 0 < s1.freeHead < |s1.slots|
            && (s1.free != [] ==> Take(s, t, ptr, freeFn, true) == Take(s1, t, ptr, freeFn, false))
  {
  }

  lemma TakeKeepsInv(s: State, t: Tid, ptr: Obj, freeFn: bool, grown: bool)
    requires Inv(s) && Safe(s) && t in s.threads && s.threads[t] == RegTake(ptr, freeFn)
    ensures Inv(Take(s, t, ptr, freeFn, grown))
  {
    assert ptr != 0 by { assert ThreadInv(t, s.threads[t], s.slots, s.tokens); }
    if s.freeHead != 0 {
      PopKeepsInv(s, t, ptr, freeFn);
    } else if s.nsegs >= MAX_SEGS || !grown {
      PcStep(s, t, RegDone(None, 0, Record(ptr, freeFn)));
    } else {
      assert s.free == [];
      GrowKeepsInv(s);
      GrowThenTake(s, t, ptr, freeFn);
      PopKeepsInv(Grow(s), t, ptr, freeFn);
    }
  }

  // ------------------------------------------------------------- whole runs

  /** Fewer than 2^32 references to any one slot: with more the 32-bit count wraps
      (see `CountWraps`). */
  ghost predicate Fits(s: State) {
    forall i | 0 <= i < |s.slots| :: |s.slots[i].holders| < GENS
  }

  lemma CallMoves(s: State, a: Action)
    requires Safe(s) && Enabled(s, a) && (a.CallRegister? || a.CallPin? || a.CallDropNull?)
    requires |s.slots| > 0 ==> s.slots[0].epoch == 0
    ensures Apply(s, a) == At(s, a.t, Apply(s, a).threads[a.t]) && PcSlot(s.threads[a.t]).None?
    ensures ThreadInv(a.t, Apply(s, a).threads[a.t], s.slots, s.tokens)
  {
    if Apply(s, a) == s { assert s == At(s, a.t, s.threads[a.t]); }
  }

  lemma CallKeepsInv(s: State, a: Action)
    requires Inv(s) && Safe(s) && Enabled(s, a) && (a.CallRegister? || a.CallPin? || a.CallDropNull?)
    ensures Inv(Apply(s, a))
  {
    if |s.slots| > 0 { assert SlotInv(s.slots[0], 0, 0 in s.counted); }
    CallMoves(s, a);
    PcStep(s, a.t, Apply(s, a).threads[a.t]);
  }

  lemma DropCall(s: State, a: Action)
    requires Safe(s) && Enabled(s, a) && a.CallDrop?
    ensures var tokens' := s.tokens[a.tok := s.tokens[a.tok].(user := Some(a.t))];
            var pc := DropLoad(HandleOf(s.tokens[a.tok].reg), a.tok, a.wait);
            && Apply(s, a) == At(s.(tokens := tokens'), a.t, pc)
            && ThreadInv(a.t, pc, s.slots, tokens')
            && s.tokens[a.tok].user in {None, Some(a.t)} && PcSlot(s.threads[a.t]).None? && PcSlot(pc).None?
  {
  }

  lemma CallDropKeepsInv(s: State, a: Action)
    requires Inv(s) && Safe(s) && Enabled(s, a) && a.CallDrop?
    ensures Inv(Apply(s, a))
  {
    DropCall(s, a);
    UserKeepsInv(s, a.t, a.tok, Some(a.t), DropLoad(HandleOf(s.tokens[a.tok].reg), a.tok, a.wait));
  }

  lemma ReturnKeepsInv(s: State, a: Action)
    requires Inv(s) && Safe(s) && Enabled(s, a) && a.Step?
    requires s.threads[a.t].RegDone? || s.threads[a.t].PinDone?
    ensures Inv(Apply(s, a))
  {
    var t := a.t;
    assert ThreadInv(t, s.threads[t], s.slots, s.tokens);
    if PcToken(s.threads[t]).Some? {
      UserKeepsInv(s, t, s.threads[t].tok, None, Ready);
    } else {
      PcStep(s, t, Ready);
    }
  }

  lemma RegisterStepKeepsInv(s: State, a: Action)
    requires Inv(s) && Safe(s) && Enabled(s, a) && a.Step?
    requires s.threads[a.t].RegTake? || s.threads[a.t].RegFill? || s.threads[a.t].RegPublish? || s.threads[a.t].RegCount?
    ensures Inv(Apply(s, a))
  {
    if s.threads[a.t].RegTake? {
      TakeKeepsInv(s, a.t, s.threads[a.t].ptr, s.threads[a.t].freeFn, a.grown);
    } else {
      RegisterKeepsInv(s, a.t);
    }
  }

  lemma PinFits(s: State, a: Action)
    requires Safe(s) && Enabled(s, a) && a.Step? && PinWins(s, a.t) && Fits(Apply(s, a))
    requires Here(s, a.t, s.threads[a.t].h.idx)
    ensures s.slots[s.threads[a.t].h.idx].rc + 1 < GENS
  {
    var i := s.threads[a.t].h.idx;
    assert Apply(s, a).slots[i].holders == s.slots[i].holders + {s.nextTok};
  }

  lemma OtherStepKeepsInv(s: State, a: Action)
    requires Inv(s) && Safe(s) && Enabled(s, a) && a.Step? && Fits(Apply(s, a))
    requires var pc := s.threads[a.t];
             !(pc.RegTake? || pc.RegFill? || pc.RegPublish? || pc.RegCount? || pc.RegDone? || pc.PinDone?)
    ensures Inv(Apply(s, a))
  {
    var pc := s.threads[a.t];
    if pc.PinLoad? || pc.PinTry? || pc.PinRead? {
      if PinWins(s, a.t) {
        InvHere(s, a.t, pc.h.idx);
        PinFits(s, a);
      }
      PinKeepsInv(s, a.t);
    }
    else if pc.DropLoad? || pc.DropTry? || pc.Spin? { DropKeepsInv(s, a.t); }
    else { ReclaimKeepsInv(s, a.t); }
  }

  lemma FittingStepKeepsInv(s: State, a: Action)
    requires Inv(s) && Safe(s) && Enabled(s, a) && Fits(Apply(s, a))
    ensures Inv(Apply(s, a))
  {
    if a.CallDrop? { CallDropKeepsInv(s, a); }
    else if !a.Step? { CallKeepsInv(s, a); }
    else if s.threads[a.t].RegDone? || s.threads[a.t].PinDone? { ReturnKeepsInv(s, a); }
    else if s.threads[a.t].RegTake? || s.threads[a.t].RegFill? || s.threads[a.t].RegPublish? || s.threads[a.t].RegCount? {
      RegisterStepKeepsInv(s, a);
    }
    else { OtherStepKeepsInv(s, a); }
  }

  lemma InvFits(s: State)
    requires Inv(s)
    ensures Fits(s)
  {
    forall i | 0 <= i < |s.slots| ensures |s.slots[i].holders| < GENS { assert SlotInv(s.slots[i], i, i in s.counted); }
  }

  /** A step of any thread keeps the invariant exactly if it leaves fewer than 2^32
      references to each slot. */
  lemma StepKeepsInv(s: State, a: Action)
    requires Inv(s) && Safe(s) && Enabled(s, a)
    ensures Inv(Apply(s, a)) <==> Fits(Apply(s, a))
  {
    if Fits(Apply(s, a)) { FittingStepKeepsInv(s, a); }
    if Inv(Apply(s, a)) { InvFits(Apply(s, a)); }
  }

  ghost predicate Run(ss: seq<State>, acts: seq<Action>) {
    && |ss| == |acts| + 1 && Init(ss[0])
    && (forall i | 0 <= i < |acts| ::
          Safe(ss[i]) && Enabled(ss[i], acts[i]) && ss[i + 1] == Apply(ss[i], acts[i]))
  }

  /** No count was exceeded on the way. */
  ghost predicate CountsFit(ss: seq<State>) { forall i | 0 <= i < |ss| :: Fits(ss[i]) }

  lemma {:induction false} RunKeepsInv(ss: seq<State>, acts: seq<Action>, n: nat)
    requires Run(ss, acts) && CountsFit(ss) && n < |ss|
    ensures Inv(ss[n]) && Safe(ss[n])
  {
    if n == 0 {
      assert ss[0].slots == [];
    } else {
      RunKeepsInv(ss, acts, n - 1);
      assert Fits(ss[n]);
      StepKeepsInv(ss[n - 1], acts[n - 1]);
      InvIsSafe(ss[n]);
    }
  }

  /** Some run whose counts fit leads to this state. */
  ghost predicate Reachable(s: State) {
    exists ss, acts :: Run(ss, acts) && CountsFit(ss) && ss[|acts|] == s
  }

  lemma ReachableInv(s: State)
    requires Reachable(s)
    ensures Inv(s)
  {
    var ss, acts :| Run(ss, acts) && CountsFit(ss) && ss[|acts|] == s;
    RunKeepsInv(ss, acts, |acts|);
  }

  // ------------------------------------------------------ what clients get

  /** While anybody holds a reference, the object it was taken on stays in its
      slot, unreclaimed and unfreed. */
  lemma HeldIsAlive(s: State, tok: Token)
    requires Reachable(s) && tok in s.tokens
    ensures var r := s.tokens[tok].reg;
            && r.idx < |s.slots| && s.slots[r.idx].epoch == r.epoch && s.slots[r.idx].rc > 0
            && r.epoch < |s.slots[r.idx].recs| && s.slots[r.idx].ptr == s.slots[r.idx].recs[r.epoch].ptr
            && s.slots[r.idx].freed[r.epoch] == 0
  {
    ReachableInv(s);
    HolderPins(s, tok);
    var r := s.tokens[tok].reg;
    assert SlotInv(s.slots[r.idx], r.idx, r.idx in s.counted);
  }

  lemma ModShift(a: nat, b: nat)
    requires a <= b && b - a < GENS && a % GENS == b % GENS
    ensures a == b
  {
  }

  /** A pin that returned an object returned the one registered under its handle:
      the registration it holds is the handle's own, unless the slot has been
      reclaimed a multiple of 2^32 times since. */
  lemma PinReturnsRegistered(s: State, t: Tid, r0: Reg)
    requires Reachable(s) && t in s.threads && s.threads[t].PinDone? && s.threads[t].ptr != 0
    requires s.threads[t].h == HandleOf(r0) && r0.idx < |s.slots|
    requires r0.epoch <= s.slots[r0.idx].epoch < r0.epoch + GENS
    ensures var pc := s.threads[t];
            && pc.tok in s.tokens && s.tokens[pc.tok] == Ref(r0, Some(t))
            && s.slots[r0.idx].epoch == r0.epoch < |s.slots[r0.idx].recs|
            && pc.ptr == s.slots[r0.idx].recs[r0.epoch].ptr == s.slots[r0.idx].ptr
  {
    ReachableInv(s);
    var pc := s.threads[t];
    assert ThreadInv(t, pc, s.slots, s.tokens);
    HolderPins(s, pc.tok);
    ModShift(r0.epoch, s.slots[r0.idx].epoch);
  }

  lemma SameResidue(a: nat, b: nat)
    requires a <= b
    ensures (b - a) % GENS == 0 <==> a % GENS == b % GENS
  {
    assert b - a == GENS * (b / GENS - a / GENS) + (b % GENS - a % GENS);
  }

  /** A pin of registration r0's handle takes a reference if and only if the
      slot is in use and its reclaims since r0 are a multiple of 2^32: for fewer
      than 2^32 of them, exactly when r0 itself is still registered.  (`Here` is
      the part of the invariant about this thread and slot: see `InvHere`.) */
  lemma StalePinFails(s: State, t: Tid, r0: Reg)
    requires Here(s, t, r0.idx) && s.threads[t].PinTry?
    requires s.threads[t].h == HandleOf(r0) && r0.epoch <= s.slots[r0.idx].epoch
    requires s.threads[t].gr == GenRef(s.slots[r0.idx].gen, s.slots[r0.idx].rc)
    ensures PinStep(s, t).threads[t].PinRead? <==>
              s.slots[r0.idx].at.InUse? && (s.slots[r0.idx].epoch - r0.epoch) % GENS == 0
    ensures !PinStep(s, t).threads[t].PinRead? ==> PinStep(s, t) == At(s, t, PinDone(HandleOf(r0), 0, 0))
    ensures 0 < s.slots[r0.idx].epoch - r0.epoch < GENS ==> !PinStep(s, t).threads[t].PinRead?
  {
    SameResidue(r0.epoch, s.slots[r0.idx].epoch);
  }

  /** release_wait on a registered handle returns only once nobody holds, or can
      ever again hold, a reference to that registration. */
  lemma ReleaseWaitReturnsUnheld(s: State, t: Tid)
    requires Reachable(s) && Safe(s) && t in s.threads && s.threads[t].Spin?
    requires DropStep(s, t).threads[t].Ready?
    ensures var r := Reg(s.threads[t].h.idx, s.threads[t].epoch);
            && r.epoch < s.slots[r.idx].epoch
            && (forall tok | tok in s.tokens :: s.tokens[tok].reg != r)
  {
    var h, epoch := s.threads[t].h, s.threads[t].epoch;
    assert h.idx < |s.slots| && h.gen == epoch % GENS && epoch <= s.slots[h.idx].epoch
        && s.slots[h.idx].gen == s.slots[h.idx].epoch % GENS && TokensOk(s.slots, s.tokens, s.nextTok) by {
      ReachableInv(s);
      assert ThreadInv(t, s.threads[t], s.slots, s.tokens);
      assert SlotInv(s.slots[h.idx], h.idx, h.idx in s.counted);
    }
    assert epoch != s.slots[h.idx].epoch;
    forall tok | tok in s.tokens ensures s.tokens[tok].reg != Reg(h.idx, epoch) {
      assert TokenInv(tok, s.tokens[tok], s.slots);
    }
  }

  lemma Segments(nsegs: nat, segSlots: nat)
    requires segSlots > 0
    ensures nsegs * segSlots > 0 <==> nsegs > 0
  {
  }

  /** release_wait on the null handle returns if and only if the table has no
      segment yet: slot 0 is never issued, so its generation never moves. */
  lemma NullWaitNeverReturns(s: State, t: Tid)
    requires Reachable(s) && Safe(s) && t in s.threads && s.threads[t].Ready?
    ensures Apply(s, CallDropNull(t, true)).threads[t] == if s.nsegs == 0 then Ready else Spin(NULL_HANDLE, 0)
    ensures s.nsegs > 0 ==> |s.slots| > 0 && s.slots[0].at.Reserved? && s.slots[0].gen == 0
  {
    ReachableInv(s);
    Segments(s.nsegs, s.segSlots);
    if s.nsegs > 0 { assert SlotInv(s.slots[0], 0, 0 in s.counted); }
  }

  lemma NullWaitSpins(s: State, t: Tid)
    requires Reachable(s) && Safe(s) && t in s.threads && s.threads[t] == Spin(NULL_HANDLE, 0)
    ensures DropStep(s, t) == s
  {
    ReachableInv(s);
    assert ThreadInv(t, s.threads[t], s.slots, s.tokens);
    assert SlotInv(s.slots[0], 0, 0 in s.counted);
  }

  /** free_fn ran at most once for every registration, and not before the last
      reference went; once for each reclaimed registration that had one. */
  lemma FreedExactlyOnce(s: State, i: nat, e: nat)
    requires Reachable(s) && i < |s.slots| && e < |s.slots[i].recs|
    ensures s.slots[i].freed[e] <= 1
    ensures s.slots[i].freed[e] == 1 ==> s.slots[i].recs[e].freeFn && forall tok | tok in s.tokens :: s.tokens[tok].reg != Reg(i, e)
    ensures s.slots[i].recs[e].freeFn && e < s.slots[i].epoch && PhaseTid(s.slots[i].at).None? ==> s.slots[i].freed[e] == 1
  {
    ReachableInv(s);
    assert SlotInv(s.slots[i], i, i in s.counted);
    forall tok | tok in s.tokens && s.tokens[tok].reg == Reg(i, e) ensures s.slots[i].freed[e] != 1 {
      assert TokenInv(tok, s.tokens[tok], s.slots);
    }
  }

  // -------------------------------------------------- the bound is needed

  /** Some run leads to this state, whatever its counts. */
  ghost predicate Arises(s: State) {
    exists ss, acts :: Run(ss, acts) && ss[|acts|] == s
  }

  lemma Extend(ss: seq<State>, acts: seq<Action>, a: Action)
    requires Run(ss, acts) && Safe(ss[|acts|]) && Enabled(ss[|acts|], a)
    ensures Run(ss + [Apply(ss[|acts|], a)], acts + [a])
  {
    var ss', acts' := ss + [Apply(ss[|acts|], a)], acts + [a];
    forall i | 0 <= i < |acts'| ensures Safe(ss'[i]) && Enabled(ss'[i], acts'[i]) && ss'[i + 1] == Apply(ss'[i], acts'[i]) {
      if i < |acts| { assert ss'[i] == ss[i] && ss'[i + 1] == ss[i + 1] && acts'[i] == acts[i]; }
    }
  }

  lemma Then(s: State, a: Action)
    requires Arises(s) && Safe(s) && Enabled(s, a)
    ensures Arises(Apply(s, a))
  {
    var ss, acts :| Run(ss, acts) && ss[|acts|] == s;
    Extend(ss, acts, a);
    assert (ss + [Apply(s, a)])[|acts + [a]|] == Apply(s, a);
  }

  /** Thread t is idle, and slot i is live, with n references. */
  ghost predicate Pinnable(s: State, t: Tid, i: nat, n: nat) {
    && Safe(s) && t in s.threads && s.threads[t].Ready? && 0 < i < |s.slots|
    && n == s.slots[i].rc == |s.slots[i].holders| > 0 && s.slots[i].ptr != 0
    && forall k | k in s.slots[i].holders :: k < s.nextTok
  }

  /** Thread t's step of a pin of slot i leaves the other threads' reach alone. */
  lemma PinKeepsSafe(s: State, s': State, t: Tid, i: nat)
    requires Safe(s) && i < |s.slots| && t in s.threads && t in s'.threads && InRange(s', s'.threads[t])
    requires s'.threads == s.threads[t := s'.threads[t]] && (forall k | k in s.tokens :: k in s'.tokens)
    requires |s'.slots| == |s.slots| && s'.slots == s.slots[i := s'.slots[i]] && s'.slots[i].epoch == s.slots[i].epoch
    requires s'.segSlots == s.segSlots && s'.nsegs == s.nsegs && s'.freeHead == s.freeHead && s'.free == s.free
    ensures Safe(s')
  {
    forall u | u in s'.threads ensures InRange(s', s'.threads[u]) {
      if u != t { assert InRange(s, s.threads[u]); }
    }
  }

  /** The state before the CAS of a pin of slot i. */
  function Pinning(s: State, t: Tid, i: nat): State
    requires i < |s.slots|
  {
    var sl := s.slots[i];
    At(s, t, PinTry(Handle(sl.gen, i), GenRef(sl.gen, sl.rc)))
  }

  lemma PinStarts(s: State, t: Tid, i: nat, n: nat)
    requires Arises(s) && Pinnable(s, t, i, n)
    ensures Arises(Pinning(s, t, i)) && Safe(Pinning(s, t, i))
  {
    var h := Handle(s.slots[i].gen, i);
    var s1 := At(s, t, PinLoad(h));
    Then(s, CallPin(t, h));
    assert s1 == Apply(s, CallPin(t, h)) && s.slots[i := s.slots[i]] == s.slots;
    PinKeepsSafe(s, s1, t, i);
    Then(s1, Step(t, false));
    assert s1.threads[t := Pinning(s, t, i).threads[t]] == Pinning(s, t, i).threads;
    PinKeepsSafe(s, Pinning(s, t, i), t, i);
  }

  /** The CAS itself, count modulo 2^32. */
  function Pinned(s: State, t: Tid, i: nat, pc: Pc): State
    requires i < |s.slots|
  {
    var sl := s.slots[i];
    At(SetSlot(s, i, sl.(rc := (sl.rc + 1) % GENS, holders := sl.holders + {s.nextTok}))
         .(tokens := s.tokens[s.nextTok := Ref(Reg(i, sl.epoch), Some(t))], nextTok := s.nextTok + 1), t, pc)
  }

  lemma PinCas(s: State, t: Tid, i: nat, n: nat)
    requires Arises(s) && Pinnable(s, t, i, n)
    ensures var s' := Pinned(s, t, i, PinRead(Handle(s.slots[i].gen, i), s.nextTok)); Arises(s') && Safe(s')
  {
    PinStarts(s, t, i, n);
    var s1, pc := Pinning(s, t, i), PinRead(Handle(s.slots[i].gen, i), s.nextTok);
    Then(s1, Step(t, false));
    assert s1.threads[t := pc] == s.threads[t := pc];
    assert Apply(s1, Step(t, false)) == Pinned(s, t, i, pc);
    PinKeepsSafe(s, Pinned(s, t, i, pc), t, i);
  }

  lemma PinReads(s: State, t: Tid, i: nat, n: nat)
    requires Arises(s) && Pinnable(s, t, i, n)
    ensures var s' := Pinned(s, t, i, PinDone(Handle(s.slots[i].gen, i), s.slots[i].ptr, s.nextTok)); Arises(s') && Safe(s')
  {
    var h, k, sl := Handle(s.slots[i].gen, i), s.nextTok, s.slots[i];
    PinCas(s, t, i, n);
    var s1, s2 := Pinned(s, t, i, PinRead(h, k)), Pinned(s, t, i, PinDone(h, sl.ptr, k));
    Then(s1, Step(t, false));
    assert s1.threads[t := PinDone(h, sl.ptr, k)] == s2.threads;
    PinKeepsSafe(s, s2, t, i);
  }

  /** The end of a call gives the client its reference. */
  lemma PinReturns(s: State, t: Tid, i: nat)
    requires Safe(s) && t in s.threads && s.threads[t].PinDone? && i < |s.slots|
    ensures var s' := Apply(s, Step(t, false));
            Safe(s') && t in s'.threads && s'.threads[t].Ready? && s'.slots == s.slots && s'.nextTok == s.nextTok
  {
    var s' := Apply(s, Step(t, false));
    assert s.slots[i := s.slots[i]] == s.slots;
    PinKeepsSafe(s, s', t, i);
  }

  /** A pin that does not wrap adds one reference. */
  lemma PinOnce(s: State, t: Tid, i: nat, n: nat) returns (s': State)
    requires Arises(s) && Pinnable(s, t, i, n) && n + 1 < GENS
    ensures Arises(s') && Pinnable(s', t, i, n + 1)
  {
    PinReads(s, t, i, n);
    var s1 := Pinned(s, t, i, PinDone(Handle(s.slots[i].gen, i), s.slots[i].ptr, s.nextTok));
    assert s1.slots[i].rc == n + 1 == |s1.slots[i].holders|;
    PinReturns(s1, t, i);
    Then(s1, Step(t, false));
    s' := Apply(s1, Step(t, false));
  }

  /** n references grow to m, one pin at a time. */
  lemma {:induction false} Pins(s: State, t: Tid, i: nat, n: nat, m: nat) returns (s': State)
    requires Arises(s) && Pinnable(s, t, i, n) && n <= m < GENS
    ensures Arises(s') && Pinnable(s', t, i, m)
    decreases m
  {
    if m == n {
      s' := s;
    } else {
      s' := Pins(s, t, i, n, m - 1);
      s' := PinOnce(s', t, i, m - 1);
    }
  }

  /** From any reachable state, an idle thread can pin any live slot until its
      count wraps: with 2^32 holders it reads zero, that of a free slot. */
  lemma CountWraps(s: State, t: Tid, i: nat) returns (s': State)
    requires Reachable(s) && t in s.threads && s.threads[t].Ready? && i < |s.slots| && s.slots[i].rc > 0
    ensures Arises(s') && i < |s'.slots| && s'.slots[i].rc == 0 && |s'.slots[i].holders| == GENS
  {
    LivePinnable(s, t, i);
    var s1 := Pins(s, t, i, s.slots[i].rc, GENS - 1);
    PinCas(s1, t, i, GENS - 1);
    s' := Pinned(s1, t, i, PinRead(Handle(s1.slots[i].gen, i), s1.nextTok));
  }

  lemma ReachableArises(s: State)
    requires Reachable(s)
    ensures Arises(s)
  {
    var ss, acts :| Run(ss, acts) && CountsFit(ss) && ss[|acts|] == s;
  }

  lemma LiveSlot(s: State, i: nat)
    requires SlotsOk(s.slots, s.counted) && HoldersOk(s.slots, s.tokens) && TokensOk(s.slots, s.tokens, s.nextTok)
    requires i < |s.slots| && s.slots[i].rc > 0
    ensures i > 0 && s.slots[i].rc == |s.slots[i].holders| && s.slots[i].ptr != 0
    ensures forall k | k in s.slots[i].holders :: k < s.nextTok
  {
    assert SlotInv(s.slots[i], i, i in s.counted);
    forall k | k in s.slots[i].holders ensures k < s.nextTok { assert k in s.tokens; }
  }

  lemma LivePinnable(s: State, t: Tid, i: nat)
    requires Reachable(s) && t in s.threads && s.threads[t].Ready? && i < |s.slots| && s.slots[i].rc > 0
    ensures Arises(s) && Pinnable(s, t, i, s.slots[i].rc)
  {
    ReachableArises(s);
    assert Safe(s) && i > 0 && s.slots[i].rc == |s.slots[i].holders| && s.slots[i].ptr != 0
        && (forall k | k in s.slots[i].holders :: k < s.nextTok) by {
      ReachableInv(s);
      InvIsSafe(s);
      LiveSlot(s, i);
    }
  }

  /** A step that keeps the counts small leads to a reachable state. */
  lemma Onward(s: State, a: Action)
    requires Reachable(s) && Enabled(s, a)
    ensures Safe(s) && (Fits(Apply(s, a)) ==> Reachable(Apply(s, a)))
  {
    var ss, acts :| Run(ss, acts) && CountsFit(ss) && ss[|acts|] == s;
    assert Safe(s) by { RunKeepsInv(ss, acts, |acts|); }
    Extend(ss, acts, a);
    if Fits(Apply(s, a)) {
      var ss', acts' := ss + [Apply(s, a)], acts + [a];
      assert CountsFit(ss') && ss'[|acts'|] == Apply(s, a);
    }
  }

  /** Thread 0 is at this point of the first registration, in slot 1. */
  ghost predicate Registering(s: State, pc: Pc, rc: nat) {
    && Reachable(s) && 0 in s.threads && s.threads[0] == pc
    && |s.slots| == 2 && s.slots[1].rc == rc && s.slots[1].gen == 0 && s.nextTok == rc
    && s.slots[0].holders == {} && s.slots[1].holders == if rc == 0 then {} else {0}
  }

  lemma SlotTaken() returns (s: State)
    ensures Registering(s, RegFill(1, false, 1), 0)
  {
    var s0 := State(2, 0, [], 0, 0, map[0 := Ready], [], {}, map[], 0);
    assert Run([s0], []) && CountsFit([s0]);
    Onward(s0, CallRegister(0, 1, false));
    var s1 := Apply(s0, CallRegister(0, 1, false));
    Onward(s1, Step(0, true));
    s := Apply(s1, Step(0, true));
  }

  lemma SlotPublished() returns (s: State)
    ensures Registering(s, RegCount(1, 0, 0, Record(1, false)), 1)
  {
    var s1 := SlotTaken();
    Onward(s1, Step(0, false));
    s := Apply(s1, Step(0, false));
    Onward(s, Step(0, false));
    s := Apply(s, Step(0, false));
  }

  /** So there is a state to start from: a live slot and an idle thread. */
  lemma RegisteredOnce() returns (s: State)
    ensures Registering(s, Ready, 1)
  {
    var s1 := SlotPublished();
    Onward(s1, Step(0, false));
    s := Apply(s1, Step(0, false));
    Onward(s, Step(0, false));
    s := Apply(s, Step(0, false));
  }

  // ------------------------------------------------- integrity sweep, growth

  ghost function Live(slots: seq<Slot>, n: nat): (r: set<nat>)
    requires n <= |slots|
  {
    set i: nat | i < n && slots[i].rc > 0
  }

  /** No call in progress. */
  ghost predicate Quiescent(s: State) {
    forall t | t in s.threads :: s.threads[t].Ready?
  }

  /** At rest the live count is the number of slots with references, none of
      which dangles, and every slot but slot 0 is either live or on the list. */
  lemma QuiescentCount(s: State)
    requires Reachable(s) && Quiescent(s)
    ensures s.live == |Live(s.slots, |s.slots|)|
    ensures forall i | 0 <= i < |s.slots| && s.slots[i].rc > 0 :: s.slots[i].ptr != 0
    ensures forall i | 0 < i < |s.slots| :: s.slots[i].rc > 0 <==> i !in s.free
  {
    ReachableInv(s);
    forall i | 0 <= i < |s.slots|
      ensures (s.slots[i].rc > 0 <==> i in s.counted) && (s.slots[i].rc > 0 ==> s.slots[i].ptr != 0)
      ensures s.slots[i].at.Reserved? || s.slots[i].at.InFree? || s.slots[i].at == InUse(None)
    {
      assert SlotInv(s.slots[i], i, i in s.counted) && PhaseOk(s.slots[i].at, i, s.threads);
    }
    assert s.counted == Live(s.slots, |s.slots|);
  }

  lemma LiveGrows(slots: seq<Slot>, n: nat)
    requires n < |slots|
    ensures |Live(slots, n + 1)| == |Live(slots, n)| + (if slots[n].rc > 0 then 1 else 0)
  {
    assert Live(slots, n + 1) == Live(slots, n) + (if slots[n].rc > 0 then {n} else {});
    assert n !in Live(slots, n);
  }

  /** `rl_handle_self_check`: the walk over the slots of every segment, slot 0
      skipped. */
  method SelfCheck(slots: seq<Slot>, live: int) returns (walked: nat, dangling: nat, violations: nat)
    requires slots != [] ==> slots[0].rc == 0
    ensures walked == |Live(slots, |slots|)|
    ensures dangling > 0 <==> exists i :: 0 <= i < |slots| && slots[i].rc > 0 && slots[i].ptr == 0
    ensures violations == 0 <==>
              live == |Live(slots, |slots|)| && forall i | 0 <= i < |slots| && slots[i].rc > 0 :: slots[i].ptr != 0
  {
    walked, dangling := 0, 0;
    assert Live(slots, 0) == {};
    for k := 0 to |slots|
      invariant walked == |Live(slots, k)|
      invariant dangling > 0 <==> exists j :: 0 <= j < k && slots[j].rc > 0 && slots[j].ptr == 0
    {
      LiveGrows(slots, k);
      if k == 0 { continue; }
      if slots[k].rc > 0 {
        walked := walked + 1;
        if slots[k].ptr == 0 { dangling := dangling + 1; }
      }
    }
    violations := (if walked != live then 1 else 0) + (if dangling > 0 then 1 else 0);
  }

  /** A sweep made at rest, after any run, finds no violation. */
  method SelfCheckAtRest(s: State) returns (walked: nat, violations: nat)
    requires Reachable(s) && Quiescent(s)
    ensures walked == s.live && violations == 0
  {
    QuiescentCount(s);
    if s.slots != [] {
      assert s.slots[0].rc == 0 by {
        ReachableInv(s);
        assert SlotInv(s.slots[0], 0, 0 in s.counted);
      }
    }
    var dangling;
    walked, dangling, violations := SelfCheck(s.slots, s.live);
  }

  /** The linking loop of `rl_handle_grow_locked` over a calloc'd segment. */
  method LinkSegment(next: array<nat>, base: nat, start: nat, head: nat) returns (newHead: nat)
    requires start < next.Length && forall i | 0 <= i < next.Length :: next[i] == 0
    modifies next
    ensures forall i | 0 <= i < next.Length :: next[i] == FreshNext(base, start, head, i)
    ensures newHead == base + next.Length - 1
  {
    newHead := head;
    var i := start;
    while i < next.Length
      invariant start <= i <= next.Length
      invariant newHead == if i == start then head else base + i - 1
      invariant forall j | 0 <= j < i :: next[j] == FreshNext(base, start, head, j)
      invariant forall j | i <= j < next.Length :: next[j] == 0
    {
      next[i] := newHead;
      newHead := base + i;
      i := i + 1;
    }
  }
}
