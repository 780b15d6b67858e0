/**
 Go-style channels (chan.c:5-28, chan_waiters.c.inc, chan_ops.c.inc) used by any
 number of fibers through plain send, recv, their try variants and close.

 Every operation runs its whole effect under the channel's lock, so a run is a
 sequence of such sections; a parked fiber may be resumed at any time, and goes
 back to sleep as long as its waiter is queued.
 */
module Channel {
  import opened Options

  type Val = nat
  type Fid = nat

  /** A parked sender and the value it is offering. */
  datatype Sender = Sender(f: Fid, v: Val)

  datatype Chan = Chan(cap: nat, buf: seq<Val>, senders: seq<Sender>, receivers: seq<Fid>, closed: bool)

  datatype SendOutcome = SendOk | SendClosed | SendFull | SendNoFiber | SendParks

  /** ok = 1, ok = 0 with None, the two ok = -1 returns, and a park. */
  datatype RecvOutcome = Got(v: Val) | RecvClosed | RecvEmpty | RecvNoFiber | RecvParks

  // ------------------------------------------- the operations, as functions

  /** What a send does to the channel, and the receiver it hands its value to. */
  function SendStep(c: Chan, f: Fid, v: Val, blocking: bool, fiber: bool): (r: (Chan, SendOutcome, Option<Fid>)) {
    if c.closed then (c, SendClosed, None)
    else if c.receivers != [] then (c.(receivers := c.receivers[1..]), SendOk, Some(c.receivers[0]))
    else if c.cap > 0 && |c.buf| < c.cap then (c.(buf := c.buf + [v]), SendOk, None)
    else if !blocking then (c, SendFull, None)
    else if !fiber then (c, SendNoFiber, None)
    else (c.(senders := c.senders + [Sender(f, v)]), SendParks, None)
  }

  /** What a recv does to the channel, and the sender it wakes. */
  function RecvStep(c: Chan, f: Fid, blocking: bool, fiber: bool): (r: (Chan, RecvOutcome, Option<Fid>)) {
    if c.buf != [] then
      if c.senders == [] then (c.(buf := c.buf[1..]), Got(c.buf[0]), None)
      else (c.(buf := c.buf[1..] + [c.senders[0].v], senders := c.senders[1..]), Got(c.buf[0]), Some(c.senders[0].f))
    else if c.senders != [] then
      (c.(senders := c.senders[1..]), Got(c.senders[0].v), Some(c.senders[0].f))
    else if c.closed then (c, RecvClosed, None)
    else if !blocking then (c, RecvEmpty, None)
    else if !fiber then (c, RecvNoFiber, None)
    else (c.(receivers := c.receivers + [f]), RecvParks, None)
  }

  /** Close, on an open channel: everybody parked is woken. */
  function CloseStep(c: Chan): Chan {
    c.(closed := true, senders := [], receivers := [])
  }

  // ---------------------------------------------------------------- the ring

  /** The slot at offset i from `head`, on a ring of n slots. */
  function Slot(head: nat, i: nat, n: nat): nat {
    if head + i < n then head + i else if head + i < 2 * n then head + i - n else 0
  }

  lemma MulAtLeast(n: nat, d: int)
    ensures d >= 1 ==> n * d >= n
    ensures d <= -1 ==> n * d + n <= 0
  {
  }

  lemma ModIs(x: nat, n: nat, q: nat, r: nat)
    requires r < n && x == n * q + r
    ensures x % n == r
  {
    var d := x / n - q;
    assert n * (x / n) == n * q + n * d;
    MulAtLeast(n, d);
  }

  /** The index computation of the source is this slot. */
  lemma SlotIsMod(head: nat, i: nat, n: nat)
    requires head < n && i <= n
    ensures (head + i) % n == Slot(head, i, n) < n
  {
    if head + i < n { ModIs(head + i, n, 0, head + i); } else { ModIs(head + i, n, 1, head + i - n); }
  }

  predicate RingOk(a: seq<Option<Val>>, head: nat, len: nat) {
    && len <= |a| && (if |a| == 0 then head == 0 else head < |a|)
    && (forall i | 0 <= i < |a| :: Slot(head, i, |a|) < |a| && (a[Slot(head, i, |a|)].Some? <==> i < len))
  }

  function RingVal(a: seq<Option<Val>>, k: nat): Val {
    if k < |a| && a[k].Some? then a[k].value else 0
  }

  /** The values in the ring, oldest first. */
  function RingVals(a: seq<Option<Val>>, head: nat, len: nat): (r: seq<Val>)
    ensures |r| == len
  {
    seq(len, i requires 0 <= i < len => RingVal(a, Slot(head, i, |a|)))
  }

  lemma PushRing(a: seq<Option<Val>>, head: nat, len: nat, v: Val)
    requires RingOk(a, head, len) && len < |a|
    ensures Slot(head, len, |a|) < |a|
    ensures var a' := a[Slot(head, len, |a|) := Some(v)];
            RingOk(a', head, len + 1) && RingVals(a', head, len + 1) == RingVals(a, head, len) + [v]
  {
    var a' := a[Slot(head, len, |a|) := Some(v)];
    forall i | 0 <= i < |a| && i != len ensures Slot(head, i, |a|) != Slot(head, len, |a|) { }
    assert forall i | 0 <= i < len :: RingVal(a', Slot(head, i, |a|)) == RingVal(a, Slot(head, i, |a|));
  }

  lemma PopRing(a: seq<Option<Val>>, head: nat, len: nat)
    requires RingOk(a, head, len) && len > 0
    ensures head < |a| && a[head].Some?
    ensures var a', head' := a[head := None], Slot(head, 1, |a|);
            RingOk(a', head', len - 1) && [a[head].value] + RingVals(a', head', len - 1) == RingVals(a, head, len)
  {
    var n := |a|;
    var a', head' := a[head := None], Slot(head, 1, n);
    assert Slot(head, 0, n) == head;
    forall i | 0 <= i < n - 1
      ensures Slot(head', i, n) == Slot(head, i + 1, n) && Slot(head', i, n) != head
      ensures RingVal(a', Slot(head', i, n)) == RingVal(a, Slot(head, i + 1, n))
    {
    }
    assert Slot(head', n - 1, n) == head;
    forall i | 0 <= i < n
      ensures Slot(head', i, n) < n && (a'[Slot(head', i, n)].Some? <==> i < len - 1)
    {
      if i < n - 1 { assert a[Slot(head, i + 1, n)].Some? <==> i + 1 < len; }
    }
  }

  // --------------------------------------------------- the ring and its lock

  /** The runtime's channel object: a ring of `cap` slots, two waiter queues. */
  class RingChan {
    const cap: nat
    const buf: array<Option<Val>>
    var head: nat
    var tail: nat
    var len: nat
    var senders: seq<Sender>
    var receivers: seq<Fid>
    var closed: bool

    ghost predicate Valid()
      reads this, buf
    {
      buf.Length == cap && RingOk(buf[..], head, len) && tail == Slot(head, len, cap)
    }

    /** The buffered values, oldest first. */
    ghost function Buffered(): seq<Val>
      reads this, buf
    {
      RingVals(buf[..], head, len)
    }

    ghost function Model(): Chan
      reads this, buf
    {
      Chan(cap, Buffered(), senders, receivers, closed)
    }

    constructor (cap: nat)
      ensures Valid() && fresh(buf) && Model() == Chan(cap, [], [], [], false)
    {
      this.cap := cap;
      buf := new Option<Val>[cap](_ => None);
      head, tail, len := 0, 0, 0;
      senders, receivers, closed := [], [], false;
    }

    method BufPush(v: Val)
      requires Valid() && len < cap
      modifies this`tail, this`len, buf
      ensures Valid() && Buffered() == old(Buffered()) + [v] && len == old(len) + 1
    {
      PushRing(buf[..], head, len, v);
      buf[tail] := Some(v);
      SlotIsMod(tail, 1, cap);
      tail := (tail + 1) % cap;
      len := len + 1;
    }

    method BufPop() returns (v: Val)
      requires Valid() && len > 0
      modifies this`head, this`len, buf
      ensures Valid() && [v] + Buffered() == old(Buffered()) && len == old(len) - 1
    {
      PopRing(buf[..], head, len);
      SlotIsMod(head, 1, cap);
      v := buf[head].value;
      buf[head] := None;
      head := (head + 1) % cap;
      len := len - 1;
    }

    /** `chan_send_locked`. */
    method Send(f: Fid, v: Val, blocking: bool, fiber: bool) returns (out: SendOutcome, woken: Option<Fid>)
      requires Valid()
      modifies this, buf
      ensures Valid() && (Model(), out, woken) == SendStep(old(Model()), f, v, blocking, fiber)
    {
      woken := None;
      if closed { return SendClosed, None; }
      if receivers != [] {
        woken := Some(receivers[0]);
        receivers := receivers[1..];
        return SendOk, woken;
      }
      if cap > 0 && len < cap {
        BufPush(v);
        return SendOk, None;
      }
      if !blocking { return SendFull, None; }
      if !fiber { return SendNoFiber, None; }
      senders := senders + [Sender(f, v)];
      return SendParks, None;
    }

    /** `chan_recv_locked`. */
    method Recv(f: Fid, blocking: bool, fiber: bool) returns (out: RecvOutcome, woken: Option<Fid>)
      requires Valid()
      modifies this, buf
      ensures Valid() && (Model(), out, woken) == RecvStep(old(Model()), f, blocking, fiber)
    {
      woken := None;
      if len > 0 {
        ghost var was := Buffered();
        var v := BufPop();
        assert was[0] == v && was[1..] == Buffered();
        if senders != [] {
          woken := Some(senders[0].f);
          BufPush(senders[0].v);
          senders := senders[1..];
        }
        return Got(v), woken;
      }
      assert Buffered() == [];
      if senders != [] {
        var tx := senders[0];
        senders := senders[1..];
        return Got(tx.v), Some(tx.f);
      }
      if closed { return RecvClosed, None; }
      if !blocking { return RecvEmpty, None; }
      if !fiber { return RecvNoFiber, None; }
      receivers := receivers + [f];
      return RecvParks, None;
    }

    /** `runloom_chan_close`: the senders to wake with an error and the receivers
        to wake with (None, 0), in queue order. */
    method Close() returns (ok: bool, failed: seq<Sender>, ended: seq<Fid>)
      requires Valid()
      modifies this
      ensures Valid() && ok == !old(closed)
      ensures Model() == if ok then CloseStep(old(Model())) else old(Model())
      ensures failed == (if ok then old(senders) else []) && ended == if ok then old(receivers) else []
    {
      failed, ended := [], [];
      if closed { return false, [], []; }
      closed := true;
      while senders != []
        invariant failed + senders == old(senders) && receivers == old(receivers) && closed
        invariant head == old(head) && tail == old(tail) && len == old(len)
        decreases |senders|
      {
        failed := failed + [senders[0]];
        senders := senders[1..];
      }
      while receivers != []
        invariant ended + receivers == old(receivers) && senders == [] && closed
        invariant head == old(head) && tail == old(tail) && len == old(len)
        decreases |receivers|
      {
        ended := ended + [receivers[0]];
        receivers := receivers[1..];
      }
      ok := true;
    }

    /** `runloom_chan_gc_traverse`: the collector visits each buffered value once,
        in order, and nothing else. */
    method GcTraverse() returns (visited: seq<Val>)
      requires Valid()
      ensures visited == Buffered()
    {
      visited := [];
      if cap == 0 { return; }
      for i := 0 to len
        invariant visited == Buffered()[..i]
      {
        SlotIsMod(head, i, cap);
        assert buf[..][Slot(head, i, cap)].Some?;
        visited := visited + [buf[(head + i) % cap].value];
      }
    }

    /** `runloom_chan_gc_clear`: each buffered reference is dropped once and the
        ring is left empty and usable. */
    method GcClear() returns (dropped: seq<Val>)
      requires Valid()
      modifies this`head, this`tail, this`len, buf
      ensures Valid() && Buffered() == [] && dropped == old(Buffered())
    {
      dropped := [];
      if cap == 0 { return; }
      ghost var all := Buffered();
      while len > 0
        invariant Valid() && dropped + Buffered() == all
        decreases len
      {
        var v := Drop(dropped, all);
        dropped := dropped + [v];
      }
      assert tail == head;
      tail := head;
    }

    /** One turn of that loop. */
    method Drop(ghost dropped: seq<Val>, ghost all: seq<Val>) returns (v: Val)
      requires Valid() && len > 0 && dropped + Buffered() == all
      modifies this`head, this`len, buf
      ensures Valid() && len == old(len) - 1 && dropped + [v] + Buffered() == all
    {
      ghost var was := Buffered();
      v := BufPop();
      assert dropped + was == dropped + [v] + Buffered();
    }
  }

  // ------------------------------------------------------------- whole runs

  /** Where a fiber is: between calls, or parked in one whose waiter has not been
      filled in, or has.  A sender's `v` and `at` are history, its value and its
      place in the order of arrival; a receiver's `at` is which delivery it got. */
  datatype Fiber =
    | Idle
    | Sending(v: Val, at: nat) | SendDone(delivered: bool, v: Val, at: nat)
    | Receiving                | RecvDone(got: Option<Val>, at: nat)

  /** History: the values offered, in the order in which sends got past the
      closed and would-block checks; what each receiver was given, in order; what
      close threw back at parked senders; what fibers found in their waiters when
      their park ended. */
  datatype State = State(
    c: Chan, fibers: map<Fid, Fiber>,
    arrived: seq<Val>, taken: seq<(Fid, Val)>, rejected: seq<Val>, returned: seq<Fiber>)

  datatype Event =
    | CallSend(f: Fid, v: Val, blocking: bool, fiber: bool)
    | CallRecv(f: Fid, blocking: bool, fiber: bool)
    | CallClose(f: Fid)
    | Resume(f: Fid)

  function Offers(senders: seq<Sender>): (vs: seq<Val>)
    ensures |vs| == |senders|
  {
    seq(|senders|, i requires 0 <= i < |senders| => senders[i].v)
  }

  function Values(taken: seq<(Fid, Val)>): (vs: seq<Val>)
    ensures |vs| == |taken|
  {
    seq(|taken|, i requires 0 <= i < |taken| => taken[i].1)
  }

  /** The waiter's `queued` flag. */
  predicate Queued(c: Chan, f: Fid) {
    f in c.receivers || exists i :: 0 <= i < |c.senders| && c.senders[i].f == f
  }

  predicate Enabled(s: State, e: Event) {
    e.f in s.fibers && (e.Resume? <==> !s.fibers[e.f].Idle?)
  }

  /** The waiter a section popped now holds this. */
  function Fill(fibers: map<Fid, Fiber>, f: Option<Fid>, to: Fiber): map<Fid, Fiber> {
    if f.None? then fibers else fibers[f.value := to]
  }

  function SendEvent(s: State, f: Fid, v: Val, blocking: bool, fiber: bool): State {
    var (c, out, to) := SendStep(s.c, f, v, blocking, fiber);
    if out.SendParks? then s.(c := c, fibers := s.fibers[f := Sending(v, |s.arrived|)], arrived := s.arrived + [v])
    else if out.SendOk? then
      s.(c := c, fibers := Fill(s.fibers, to, RecvDone(Some(v), |s.taken|)), arrived := s.arrived + [v],
         taken := if to.Some? then s.taken + [(to.value, v)] else s.taken)
    else s.(c := c)
  }

  /** The waiter of a parked sender whose value has been taken over. */
  function Accepted(fibers: map<Fid, Fiber>, f: Option<Fid>): Fiber {
    if f.Some? && f.value in fibers && fibers[f.value].Sending? then
      SendDone(true, fibers[f.value].v, fibers[f.value].at)
    else Idle
  }

  function RecvEvent(s: State, f: Fid, blocking: bool, fiber: bool): State {
    var (c, out, from) := RecvStep(s.c, f, blocking, fiber);
    if out.RecvParks? then s.(c := c, fibers := s.fibers[f := Receiving])
    else if out.Got? then
      s.(c := c, fibers := Fill(s.fibers, from, Accepted(s.fibers, from)), taken := s.taken + [(f, out.v)])
    else s.(c := c)
  }

  /** What close leaves in the waiters it pops. */
  function Closed(fb: Fiber): Fiber {
    if fb.Sending? then SendDone(false, fb.v, fb.at) else if fb.Receiving? then RecvDone(None, 0) else fb
  }

  function CloseEvent(s: State): State {
    if s.c.closed then s
    else s.(c := CloseStep(s.c), rejected := Offers(s.c.senders),
            fibers := map f | f in s.fibers :: Closed(s.fibers[f]))
  }

  /** A resumed fiber re-checks its waiter under the lock: still queued, it goes
      back to sleep; popped, it returns what it finds there. */
  function ResumeEvent(s: State, f: Fid): State
    requires f in s.fibers
  {
    if Queued(s.c, f) then s else s.(fibers := s.fibers[f := Idle], returned := s.returned + [s.fibers[f]])
  }

  function Apply(s: State, e: Event): State
    requires Enabled(s, e)
  {
    match e
    case CallSend(f, v, blocking, fiber) => SendEvent(s, f, v, blocking, fiber)
    case CallRecv(f, blocking, fiber) => RecvEvent(s, f, blocking, fiber)
    case CallClose(_) => CloseEvent(s)
    case Resume(f) => ResumeEvent(s, f)
  }

  /** Parked receivers mean an empty buffer and no parked senders, parked senders
      a full buffer; nobody is parked on a closed channel. */
  predicate Shape(c: Chan) {
    && |c.buf| <= c.cap
    && (c.receivers != [] ==> c.buf == [] && c.senders == [])
    && (c.senders != [] ==> |c.buf| == c.cap)
    && (c.closed ==> c.senders == [] && c.receivers == [])
  }

  /** Nothing lost, nothing duplicated, first in first out. */
  predicate Fifo(s: State) {
    && s.arrived == Values(s.taken) + s.c.buf + Offers(s.c.senders) + s.rejected
    && (!s.c.closed ==> s.rejected == [])
  }

  /** How many values have got past the parked senders. */
  function Passed(s: State): nat { |s.taken| + |s.c.buf| }

  /** Parked senders wait in the order in which they arrived. */
  predicate SendersOk(senders: seq<Sender>, fibers: map<Fid, Fiber>, passed: nat) {
    && (forall i | 0 <= i < |senders| ::
          senders[i].f in fibers && fibers[senders[i].f] == Sending(senders[i].v, passed + i))
    && (forall i, j | 0 <= i < j < |senders| :: senders[i].f != senders[j].f)
    && (forall f | f in fibers && fibers[f].Sending? :: exists i :: 0 <= i < |senders| && senders[i].f == f)
  }

  predicate ReceiversOk(receivers: seq<Fid>, fibers: map<Fid, Fiber>) {
    && (forall i | 0 <= i < |receivers| :: receivers[i] in fibers && fibers[receivers[i]].Receiving?)
    && (forall i, j | 0 <= i < j < |receivers| :: receivers[i] != receivers[j])
    && (forall f | f in fibers && fibers[f].Receiving? :: f in receivers)
  }

  /** A receiver's waiter holds what that receiver was given. */
  predicate FilledOk(fibers: map<Fid, Fiber>, taken: seq<(Fid, Val)>) {
    forall f | f in fibers && fibers[f].RecvDone? && fibers[f].got.Some? ::
      fibers[f].at < |taken| && taken[fibers[f].at] == (f, fibers[f].got.value)
  }

  /** A send that was parked reports delivery exactly if its own value is among
      those received or buffered; if not, close has thrown it back. */
  predicate Reported(fb: Fiber, arrived: seq<Val>, passed: nat, closed: bool) {
    fb.SendDone? ==>
      && fb.at < |arrived| && arrived[fb.at] == fb.v && (fb.delivered <==> fb.at < passed)
      && (!fb.delivered ==> closed)
  }

  predicate SendsOk(s: State) {
    && (forall f | f in s.fibers :: Reported(s.fibers[f], s.arrived, Passed(s), s.c.closed))
    && (forall i | 0 <= i < |s.returned| :: Reported(s.returned[i], s.arrived, Passed(s), s.c.closed))
  }

  /** What a fiber found in its waiter is what was put there. */
  predicate ReturnedOk(returned: seq<Fiber>, taken: seq<(Fid, Val)>) {
    forall i | 0 <= i < |returned| ::
      && (returned[i].SendDone? || returned[i].RecvDone?)
      && (returned[i].RecvDone? && returned[i].got.Some? ==>
            returned[i].at < |taken| && taken[returned[i].at].1 == returned[i].got.value)
  }

  predicate Inv(s: State) {
    && Shape(s.c) && Fifo(s) && SendersOk(s.c.senders, s.fibers, Passed(s)) && ReceiversOk(s.c.receivers, s.fibers)
    && FilledOk(s.fibers, s.taken) && SendsOk(s) && ReturnedOk(s.returned, s.taken)
  }

  ghost predicate Init(s: State) {
    && s.c == Chan(s.c.cap, [], [], [], false) && (forall f | f in s.fibers :: s.fibers[f].Idle?)
    && s.arrived == [] && s.taken == [] && s.rejected == [] && s.returned == []
  }

  lemma SendKeepsShape(c: Chan, f: Fid, v: Val, blocking: bool, fiber: bool)
    requires Shape(c)
    ensures Shape(SendStep(c, f, v, blocking, fiber).0)
  {
  }

  lemma SendKeepsFifo(s: State, f: Fid, v: Val, blocking: bool, fiber: bool)
    requires Shape(s.c) && Fifo(s)
    ensures Fifo(SendEvent(s, f, v, blocking, fiber))
  {
    var s' := SendEvent(s, f, v, blocking, fiber);
    if !s.c.closed {
      if s.c.receivers != [] { assert Values(s'.taken) == Values(s.taken) + [v]; }
      else if |s'.c.senders| > |s.c.senders| { assert Offers(s'.c.senders) == Offers(s.c.senders) + [v]; }
    }
  }

  lemma ParkSender(senders: seq<Sender>, fibers: map<Fid, Fiber>, passed: nat, f: Fid, v: Val)
    requires SendersOk(senders, fibers, passed) && f in fibers && fibers[f].Idle?
    ensures SendersOk(senders + [Sender(f, v)], fibers[f := Sending(v, passed + |senders|)], passed)
  {
    var senders', fibers' := senders + [Sender(f, v)], fibers[f := Sending(v, passed + |senders|)];
    forall g | g in fibers' && fibers'[g].Sending? ensures exists i :: 0 <= i < |senders'| && senders'[i].f == g {
      if g == f {
        assert senders'[|senders|].f == g;
      } else {
        var i :| 0 <= i < |senders| && senders[i].f == g;
        assert senders'[i].f == g;
      }
    }
  }

  /** With no sender parked, another fiber's waiter is filled in. */
  lemma NoSenders(fibers: map<Fid, Fiber>, passed: nat, g: Fid, to: Fiber, passed': nat)
    requires SendersOk([], fibers, passed) && !to.Sending?
    ensures SendersOk([], fibers, passed') && SendersOk([], fibers[g := to], passed')
  {
    forall f | f in fibers ensures !fibers[f].Sending? { }
  }

  lemma SendKeepsSenders(s: State, f: Fid, v: Val, blocking: bool, fiber: bool)
    requires Shape(s.c) && Fifo(s) && SendersOk(s.c.senders, s.fibers, Passed(s)) && f in s.fibers && s.fibers[f].Idle?
    ensures var s' := SendEvent(s, f, v, blocking, fiber); SendersOk(s'.c.senders, s'.fibers, Passed(s'))
  {
    var out := SendStep(s.c, f, v, blocking, fiber).1;
    if out.SendParks? {
      assert s.rejected == [] && |s.arrived| == Passed(s) + |s.c.senders|;
      ParkSender(s.c.senders, s.fibers, Passed(s), f, v);
    } else if out.SendOk? {
      assert s.c.senders == [];
      var g := if s.c.receivers == [] then f else s.c.receivers[0];
      NoSenders(s.fibers, Passed(s), g, RecvDone(Some(v), |s.taken|), Passed(SendEvent(s, f, v, blocking, fiber)));
    }
  }

  lemma SendKeepsReceivers(s: State, f: Fid, v: Val, blocking: bool, fiber: bool)
    requires ReceiversOk(s.c.receivers, s.fibers) && FilledOk(s.fibers, s.taken) && f in s.fibers && s.fibers[f].Idle?
    ensures var s' := SendEvent(s, f, v, blocking, fiber);
            ReceiversOk(s'.c.receivers, s'.fibers) && FilledOk(s'.fibers, s'.taken)
  {
    var s' := SendEvent(s, f, v, blocking, fiber);
    if !s.c.closed && s.c.receivers != [] {
      forall g | g in s'.fibers && s'.fibers[g].Receiving? ensures g in s'.c.receivers {
        assert g in s.c.receivers && g != s.c.receivers[0];
      }
    }
  }

  lemma SendKeepsReports(s: State, f: Fid, v: Val, blocking: bool, fiber: bool)
    requires SendsOk(s) && ReturnedOk(s.returned, s.taken)
    ensures var s' := SendEvent(s, f, v, blocking, fiber); SendsOk(s') && ReturnedOk(s'.returned, s'.taken)
  {
  }

  lemma RecvKeepsShape(c: Chan, f: Fid, blocking: bool, fiber: bool)
    requires Shape(c)
    ensures Shape(RecvStep(c, f, blocking, fiber).0)
  {
  }

  /** The values in line to be received. */
  function Line(c: Chan): seq<Val> { c.buf + Offers(c.senders) }

  /** A receive takes the first value of the line. */
  lemma RecvTakesFirst(c: Chan, f: Fid, blocking: bool, fiber: bool)
    requires RecvStep(c, f, blocking, fiber).1.Got?
    ensures var (c', out, _) := RecvStep(c, f, blocking, fiber); Line(c) == [out.v] + Line(c')
  {
    var (c', out, _) := RecvStep(c, f, blocking, fiber);
    if c.senders != [] { assert Offers(c.senders) == [c.senders[0].v] + Offers(c'.senders); }
    if c.buf != [] { assert c.buf == [out.v] + c.buf[1..]; }
  }

  lemma Regroup(vs: seq<Val>, buf: seq<Val>, offers: seq<Val>, rejected: seq<Val>)
    ensures vs + buf + offers + rejected == vs + (buf + offers) + rejected
  {
  }

  lemma RecvKeepsFifo(s: State, f: Fid, blocking: bool, fiber: bool)
    requires Shape(s.c) && Fifo(s)
    ensures Fifo(RecvEvent(s, f, blocking, fiber))
  {
    var s' := RecvEvent(s, f, blocking, fiber);
    if RecvStep(s.c, f, blocking, fiber).1.Got? {
      var v := RecvStep(s.c, f, blocking, fiber).1.v;
      RecvTakesFirst(s.c, f, blocking, fiber);
      assert Values(s'.taken) == Values(s.taken) + [v];
      Regroup(Values(s.taken), s.c.buf, Offers(s.c.senders), s.rejected);
      Regroup(Values(s'.taken), s'.c.buf, Offers(s'.c.senders), s.rejected);
      assert Values(s.taken) + ([v] + Line(s'.c)) == Values(s.taken) + [v] + Line(s'.c);
    }
  }

  lemma PopSender(senders: seq<Sender>, fibers: map<Fid, Fiber>, passed: nat)
    requires SendersOk(senders, fibers, passed) && senders != []
    ensures SendersOk(senders[1..], fibers[senders[0].f := Accepted(fibers, Some(senders[0].f))], passed + 1)
  {
    var fibers' := fibers[senders[0].f := Accepted(fibers, Some(senders[0].f))];
    forall g | g in fibers' && fibers'[g].Sending?
      ensures exists i :: 0 <= i < |senders[1..]| && senders[1..][i].f == g
    {
      var i :| 0 <= i < |senders| && senders[i].f == g;
      assert i > 0 && senders[1..][i - 1].f == g;
    }
  }

  lemma RecvKeepsSenders(s: State, f: Fid, blocking: bool, fiber: bool)
    requires Shape(s.c) && SendersOk(s.c.senders, s.fibers, Passed(s)) && f in s.fibers && s.fibers[f].Idle?
    ensures var s' := RecvEvent(s, f, blocking, fiber); SendersOk(s'.c.senders, s'.fibers, Passed(s'))
  {
    if s.c.senders != [] { PopSender(s.c.senders, s.fibers, Passed(s)); }
  }

  lemma FillKeepsReceivers(receivers: seq<Fid>, fibers: map<Fid, Fiber>, g: Fid, to: Fiber)
    requires ReceiversOk(receivers, fibers) && g in fibers && !fibers[g].Receiving? && !to.Receiving?
    ensures ReceiversOk(receivers, fibers[g := to])
  {
  }

  lemma ParkKeepsReceivers(receivers: seq<Fid>, fibers: map<Fid, Fiber>, f: Fid)
    requires ReceiversOk(receivers, fibers) && f in fibers && !fibers[f].Receiving?
    ensures ReceiversOk(receivers + [f], fibers[f := Receiving])
  {
  }

  lemma RecvKeepsReceivers(s: State, f: Fid, blocking: bool, fiber: bool)
    requires SendersOk(s.c.senders, s.fibers, Passed(s)) && ReceiversOk(s.c.receivers, s.fibers)
    requires f in s.fibers && s.fibers[f].Idle?
    ensures var s' := RecvEvent(s, f, blocking, fiber); ReceiversOk(s'.c.receivers, s'.fibers)
  {
    ParkKeepsReceivers(s.c.receivers, s.fibers, f);
    if s.c.senders != [] {
      var g := s.c.senders[0].f;
      FillKeepsReceivers(s.c.receivers, s.fibers, g, Accepted(s.fibers, Some(g)));
    }
  }

  lemma RecvKeepsFilled(s: State, f: Fid, blocking: bool, fiber: bool)
    requires FilledOk(s.fibers, s.taken)
    ensures var s' := RecvEvent(s, f, blocking, fiber); FilledOk(s'.fibers, s'.taken)
  {
  }

  lemma RecvKeepsReports(s: State, f: Fid, blocking: bool, fiber: bool)
    requires Shape(s.c) && Fifo(s) && SendersOk(s.c.senders, s.fibers, Passed(s)) && SendsOk(s)
    requires ReturnedOk(s.returned, s.taken)
    ensures var s' := RecvEvent(s, f, blocking, fiber); SendsOk(s') && ReturnedOk(s'.returned, s'.taken)
  {
  }

  lemma CloseKeepsQueues(s: State)
    requires SendersOk(s.c.senders, s.fibers, Passed(s)) && ReceiversOk(s.c.receivers, s.fibers) && !s.c.closed
    requires FilledOk(s.fibers, s.taken)
    ensures var s' := CloseEvent(s);
            SendersOk([], s'.fibers, Passed(s')) && ReceiversOk([], s'.fibers) && FilledOk(s'.fibers, s'.taken)
  {
  }

  /** Every parked sender's value is still in line. */
  lemma ParkedInLine(s: State, f: Fid)
    requires Fifo(s) && SendersOk(s.c.senders, s.fibers, Passed(s)) && f in s.fibers && s.fibers[f].Sending?
    ensures var fb := s.fibers[f]; Passed(s) <= fb.at < |s.arrived| && s.arrived[fb.at] == fb.v
  {
    var i :| 0 <= i < |s.c.senders| && s.c.senders[i].f == f;
    assert s.arrived[Passed(s) + i] == Offers(s.c.senders)[i];
  }

  lemma CloseKeepsReports(s: State)
    requires Fifo(s) && SendersOk(s.c.senders, s.fibers, Passed(s)) && SendsOk(s) && !s.c.closed
    ensures SendsOk(CloseEvent(s))
  {
    var s' := CloseEvent(s);
    forall f | f in s'.fibers ensures Reported(s'.fibers[f], s'.arrived, Passed(s'), true) {
      assert Reported(s.fibers[f], s.arrived, Passed(s), false);
      if s.fibers[f].Sending? { ParkedInLine(s, f); }
    }
  }

  lemma CloseKeepsInv(s: State)
    requires Inv(s)
    ensures Inv(CloseEvent(s))
  {
    if !s.c.closed {
      CloseKeepsQueues(s);
      CloseKeepsReports(s);
      assert Offers([]) == [];
    }
  }

  lemma ResumeKeepsInv(s: State, f: Fid)
    requires Inv(s) && f in s.fibers && !s.fibers[f].Idle?
    ensures Inv(ResumeEvent(s, f))
  {
    if !Queued(s.c, f) {
      assert !s.fibers[f].Sending? && !s.fibers[f].Receiving?;
    }
  }

  lemma SendKeepsInv(s: State, f: Fid, v: Val, blocking: bool, fiber: bool)
    requires Inv(s) && f in s.fibers && s.fibers[f].Idle?
    ensures Inv(SendEvent(s, f, v, blocking, fiber))
  {
    SendKeepsShape(s.c, f, v, blocking, fiber);
    SendKeepsFifo(s, f, v, blocking, fiber);
    SendKeepsSenders(s, f, v, blocking, fiber);
    SendKeepsReceivers(s, f, v, blocking, fiber);
    SendKeepsReports(s, f, v, blocking, fiber);
  }

  lemma RecvKeepsInv(s: State, f: Fid, blocking: bool, fiber: bool)
    requires Inv(s) && f in s.fibers && s.fibers[f].Idle?
    ensures Inv(RecvEvent(s, f, blocking, fiber))
  {
    RecvKeepsShape(s.c, f, blocking, fiber);
    RecvKeepsFifo(s, f, blocking, fiber);
    RecvKeepsSenders(s, f, blocking, fiber);
    RecvKeepsReceivers(s, f, blocking, fiber);
    RecvKeepsFilled(s, f, blocking, fiber);
    RecvKeepsReports(s, f, blocking, fiber);
  }

  lemma StepKeepsInv(s: State, e: Event)
    requires Inv(s) && Enabled(s, e)
    ensures Inv(Apply(s, e))
  {
    match e {
      case CallSend(f, v, blocking, fiber) => SendKeepsInv(s, f, v, blocking, fiber);
      case CallRecv(f, blocking, fiber) => RecvKeepsInv(s, f, blocking, fiber);
      case CallClose(_) => CloseKeepsInv(s);
      case Resume(f) => ResumeKeepsInv(s, f);
    }
  }

  ghost predicate Run(ss: seq<State>, es: seq<Event>) {
    && |ss| == |es| + 1 && Init(ss[0])
    && forall i | 0 <= i < |es| :: Enabled(ss[i], es[i]) && ss[i + 1] == Apply(ss[i], es[i])
  }

  lemma {:induction false} RunKeepsInv(ss: seq<State>, es: seq<Event>, n: nat)
    requires Run(ss, es) && n < |ss|
    ensures Inv(ss[n])
  {
    if n == 0 {
      assert Init(ss[0]);
    } else {
      RunKeepsInv(ss, es, n - 1);
      StepKeepsInv(ss[n - 1], es[n - 1]);
    }
  }

  /** The value a parked send reports on is where the report says. */
  lemma ReportedIn(s: State, fb: Fiber)
    requires Fifo(s) && Shape(s.c) && fb.SendDone? && Reported(fb, s.arrived, Passed(s), s.c.closed)
    ensures fb.v in if fb.delivered then Values(s.taken) + s.c.buf else s.rejected
  {
    var passed := Values(s.taken) + s.c.buf;
    if fb.delivered {
      assert s.arrived == passed + (Offers(s.c.senders) + s.rejected);
      assert passed[fb.at] == fb.v;
    } else {
      assert s.arrived == passed + s.rejected;
      assert s.rejected[fb.at - |passed|] == fb.v;
    }
  }

  /** In every run: delivery is first in, first out with nothing lost or
      duplicated; who is parked says what the buffer holds; and however often it
      is woken, a parked call returns only what was put in its waiter.  What a
      receiver finds there is its own entry in the order of delivery, and a sender
      finds true exactly if its own value was received or buffered, false exactly
      if close threw that value back. */
  lemma DeliveredInOrder(ss: seq<State>, es: seq<Event>, n: nat)
    requires Run(ss, es) && n < |ss|
    ensures var s := ss[n];
            && Values(s.taken) + s.c.buf + Offers(s.c.senders) + s.rejected == s.arrived
            && Values(s.taken) <= s.arrived && Shape(s.c)
            && (forall f | f in s.fibers && !s.fibers[f].Idle? ::
                  Queued(s.c, f) <==> s.fibers[f].Sending? || s.fibers[f].Receiving?)
            && FilledOk(s.fibers, s.taken) && ReturnedOk(s.returned, s.taken) && SendsOk(s)
            && (forall i | 0 <= i < |s.returned| && s.returned[i].SendDone? ::
                  s.returned[i].v in if s.returned[i].delivered then Values(s.taken) + s.c.buf else s.rejected)
  {
    RunKeepsInv(ss, es, n);
    var s := ss[n];
    assert s.arrived == Values(s.taken) + (s.c.buf + Offers(s.c.senders) + s.rejected);
    forall i | 0 <= i < |s.returned| && s.returned[i].SendDone?
      ensures s.returned[i].v in if s.returned[i].delivered then Values(s.taken) + s.c.buf else s.rejected
    {
      ReportedIn(s, s.returned[i]);
    }
    forall f | f in s.fibers && !s.fibers[f].Idle?
      ensures Queued(s.c, f) <==> s.fibers[f].Sending? || s.fibers[f].Receiving?
    {
    }
  }

  // ---------------------------------------------------------------- outcomes

  /** A send has somewhere to go: a parked receiver, or a free slot. */
  predicate CanSend(c: Chan) { c.receivers != [] || |c.buf| < c.cap }

  /** When a send has which outcome, try_send's included, and where its value goes. */
  lemma SendOutcomes(c: Chan, f: Fid, v: Val, blocking: bool, fiber: bool)
    requires Shape(c)
    ensures var (c', out, woken) := SendStep(c, f, v, blocking, fiber);
            && (out.SendClosed? <==> c.closed)
            && (out.SendOk? <==> !c.closed && CanSend(c))
            && (out.SendFull? <==> !c.closed && !CanSend(c) && !blocking)
            && (out.SendNoFiber? <==> !c.closed && !CanSend(c) && blocking && !fiber)
            && (out.SendParks? <==> !c.closed && !CanSend(c) && blocking && fiber)
            && (out.SendOk? || out.SendParks? || c' == c) && c'.cap == c.cap && c'.closed == c.closed
            && (out.SendParks? ==> Line(c') == Line(c) + [v] && c'.receivers == c.receivers && |c'.senders| == |c.senders| + 1)
            && (out.SendOk? ==> c'.senders == c.senders == [])
            && (out.SendOk? && c.receivers == [] ==> woken.None? && Line(c') == Line(c) + [v] && c'.receivers == [])
            && (out.SendOk? && c.receivers != [] ==>
                  c.receivers == [woken.value] + c'.receivers && woken.Some? && Line(c) == Line(c') == [])
  {
    if SendStep(c, f, v, blocking, fiber).1.SendParks? {
      assert Offers(c.senders + [Sender(f, v)]) == Offers(c.senders) + [v];
    }
  }

  /** The same for a receive: whatever `blocking`, it gets the first value in line if
      there is one, and the first parked sender moves up. */
  lemma RecvOutcomes(c: Chan, f: Fid, blocking: bool, fiber: bool)
    requires Shape(c)
    ensures var (c', out, woken) := RecvStep(c, f, blocking, fiber);
            && (out.Got? <==> Line(c) != [])
            && (out.RecvClosed? <==> Line(c) == [] && c.closed)
            && (out.RecvEmpty? <==> Line(c) == [] && !c.closed && !blocking)
            && (out.RecvNoFiber? <==> Line(c) == [] && !c.closed && blocking && !fiber)
            && (out.RecvParks? <==> Line(c) == [] && !c.closed && blocking && fiber)
            && (out.Got? || out.RecvParks? || c' == c) && c'.cap == c.cap && c'.closed == c.closed
            && (out.Got? ==> Line(c) == [out.v] + Line(c') && c'.receivers == c.receivers && (woken.Some? <==> c.senders != []))
            && (woken.Some? ==> c.senders[0].f == woken.value && c'.senders == c.senders[1..])
            && (out.RecvParks? ==> Line(c') == [] && c'.receivers == c.receivers + [f])
  {
    if Line(c) == [] { assert Offers(c.senders) == []; }
    if RecvStep(c, f, blocking, fiber).1.Got? { RecvTakesFirst(c, f, blocking, fiber); }
  }

  /** In every run, a resumed call returns exactly if its waiter has been filled in,
      and returns what is in it. */
  lemma ResumeReturnsIff(ss: seq<State>, es: seq<Event>, n: nat, f: Fid)
    requires Run(ss, es) && n < |ss| && Enabled(ss[n], Resume(f))
    ensures var s, s' := ss[n], Apply(ss[n], Resume(f));
            if s.fibers[f].SendDone? || s.fibers[f].RecvDone?
            then s'.fibers[f].Idle? && s'.returned == s.returned + [s.fibers[f]]
            else s' == s
  {
    RunKeepsInv(ss, es, n);
    var s := ss[n];
    if s.fibers[f].SendDone? || s.fibers[f].RecvDone? { assert !Queued(s.c, f); }
  }

  // ----------------------------------------------------------------- closing

  /** The results of n receives in a row, by fiber f. */
  function Drain(c: Chan, f: Fid, n: nat): (r: seq<RecvOutcome>)
    decreases n
  {
    if n == 0 then [] else var (c', out, _) := RecvStep(c, f, true, true); [out] + Drain(c', f, n - 1)
  }

  /** After close the buffer drains in order, then every recv gives (None, 0). */
  lemma {:induction false} DrainsThenEnds(c: Chan, f: Fid, n: nat)
    requires Shape(c) && c.closed
    ensures |Drain(c, f, n)| == n
    ensures forall i | 0 <= i < n :: Drain(c, f, n)[i] == if i < |c.buf| then Got(c.buf[i]) else RecvClosed
    decreases n
  {
    if n == 0 {
    } else {
      var c' := RecvStep(c, f, true, true).0;
      DrainsThenEnds(c', f, n - 1);
      assert forall i | 0 < i < n :: Drain(c, f, n)[i] == Drain(c', f, n - 1)[i - 1];
    }
  }

  /** Once closed, a channel stays closed, refuses every send and a second close,
      and only loses buffered values from the front. */
  lemma ClosedForGood(s: State, e: Event)
    requires Inv(s) && Enabled(s, e) && s.c.closed
    ensures Apply(s, e).c.closed && Apply(s, e).arrived == s.arrived && Apply(s, e).rejected == s.rejected
    ensures e.CallSend? ==> Apply(s, e) == s && SendStep(s.c, e.f, e.v, e.blocking, e.fiber).1 == SendClosed
    ensures e.CallClose? ==> Apply(s, e) == s
    ensures exists k :: 0 <= k <= |s.c.buf| && Apply(s, e).c.buf == s.c.buf[k..]
  {
    assert s.c.buf[0..] == s.c.buf;
    if e.CallRecv? && s.c.buf != [] { assert Apply(s, e).c.buf == s.c.buf[1..]; }
    else { assert Apply(s, e).c.buf == s.c.buf[0..]; }
  }
}
