/**
 The depot's self-adjusting cap (coro.c:1183-1283, 674-681): a watermark of live
 stacks that decays with the clock, and the cap computed from it.  Floating point
 is taken as real arithmetic; times are nanoseconds of a monotonic clock.
 */
module AutoCap {
  const GLOBAL_CAP: int := 1024
  const LIMIT: int := 0x100_0000    // 1 << 24
  const TAU: real := 1.5
  const NS: real := 1000000000.0

  function Min(a: int, b: int): int { if a < b then a else b }
  function Max(a: int, b: int): int { if a < b then b else a }

  // ------------------------------------------------------------ the watermark

  /** How much of the watermark is left after dt seconds. */
  function Factor(dt: real): real { if 1.0 - dt / TAU < 0.0 then 0.0 else 1.0 - dt / TAU }

  function Seconds(last: int, now: int): real { (now - last) as real / NS }

  /** The watermark after a tick at `now` that reads `live`. */
  function Ticked(hwm: int, last: int, now: int, live: int): int {
    Max(if last != 0 && now > last then Decayed(hwm, Factor(Seconds(last, now))) else hwm, live)
  }

  function Decayed(hwm: int, factor: real): int { (hwm as real * factor).Floor }

  /** A tick never leaves the watermark below the live count it read, nor raises
      it above the larger of the two. */
  lemma TickBounds(hwm: int, last: int, now: int, live: int)
    requires hwm >= 0
    ensures live <= Ticked(hwm, last, now, live) <= Max(hwm, live) && Ticked(hwm, last, now, live) >= 0
  {
    if last != 0 && now > last {
      assert Seconds(last, now) / TAU >= 0.0;
      Shrinks(hwm, Factor(Seconds(last, now)));
    }
  }

  lemma Shrinks(hwm: int, f: real)
    requires hwm >= 0 && 0.0 <= f <= 1.0
    ensures 0.0 <= hwm as real * f <= hwm as real && 0 <= Decayed(hwm, f) <= hwm
    ensures Decayed(hwm, f) as real <= hwm as real * f
  {
    ScaledDown(hwm as real, f);
    FloorBelow(hwm as real * f, hwm);
  }

  lemma ScaledDown(x: real, f: real)
    requires x >= 0.0 && 0.0 <= f <= 1.0
    ensures 0.0 <= x * f <= x
  {
  }

  lemma FloorBelow(y: real, n: int)
    requires 0.0 <= y <= n as real
    ensures 0 <= y.Floor <= n && y.Floor as real <= y
  {
  }

  datatype Event = Tick(now: int, live: int) | Acquire(live: int)

  /** The watermark and the time of the last tick. */
  datatype Mark = Mark(hwm: int, last: int)

  function Next(m: Mark, e: Event): Mark {
    match e
    case Tick(now, live) => Mark(Ticked(m.hwm, m.last, now, live), now)
    case Acquire(live) => m.(hwm := Max(m.hwm, live))
  }

  function After(m: Mark, es: seq<Event>): Mark
    decreases |es|
  {
    if es == [] then m else After(Next(m, es[0]), es[1..])
  }

  /** The clock does not run backwards, and nobody sees more than L live stacks. */
  predicate Within(m: Mark, es: seq<Event>, L: int)
    decreases |es|
  {
    es == [] || (es[0].live <= L && (es[0].Tick? ==> es[0].now >= m.last) && Within(Next(m, es[0]), es[1..], L))
  }

  /** A linear decay step is at least as strong as the hyperbola. */
  lemma HyperbolaStep(x: real, t: real, s: real, h: real)
    requires x >= 0.0 && t >= 0.0 && s >= 0.0 && x * (1.0 + t) <= h
    ensures x * (if 1.0 - s < 0.0 then 0.0 else 1.0 - s) * (1.0 + t + s) <= h
  {
    if 1.0 - s >= 0.0 {
      assert (1.0 - s) * (1.0 + t + s) == 1.0 + t - s * t - s * s;
      Product(s, t);
      Product(s, s);
      Scaled(x, (1.0 - s) * (1.0 + t + s), 1.0 + t);
      assert x * (1.0 - s) * (1.0 + t + s) == x * ((1.0 - s) * (1.0 + t + s));
    } else {
      Product(x, 1.0 + t);
    }
  }

  lemma Product(x: real, y: real)
    requires x >= 0.0 && y >= 0.0
    ensures x * y >= 0.0
  {
  }

  lemma Scaled(x: real, a: real, b: real)
    requires x >= 0.0 && a <= b
    ensures x * a <= x * b
  {
  }

  /** Under the bound L, or under the hyperbola through h at elapsed time t. */
  ghost predicate Under(hwm: int, L: int, h: real, t: real) {
    hwm >= 0 && (hwm <= L || hwm as real * (1.0 + t) <= h)
  }

  lemma TickUnder(m: Mark, now: int, live: int, L: int, h: real, t: real)
    requires Under(m.hwm, L, h, t) && t >= 0.0 && m.last != 0 && now >= m.last && live <= L && L >= 0 && h >= 0.0
    ensures Under(Ticked(m.hwm, m.last, now, live), L, h, t + Seconds(m.last, now) / TAU)
  {
    TickBounds(m.hwm, m.last, now, live);
    var x, s := m.hwm as real, Seconds(m.last, now) / TAU;
    if now > m.last && m.hwm > L {
      var f := Factor(Seconds(m.last, now));
      HyperbolaStep(x, t, s, h);
      Shrinks(m.hwm, f);
      Scaled(1.0 + t + s, Decayed(m.hwm, f) as real, x * f);
    } else {
      assert now == m.last ==> s == 0.0;
    }
  }

  lemma {:induction false} StaysUnder(m: Mark, es: seq<Event>, L: int, h: real, t: real)
    requires Under(m.hwm, L, h, t) && t >= 0.0 && m.last > 0 && L >= 0 && h >= 0.0 && Within(m, es, L)
    ensures After(m, es).last >= m.last
    ensures Under(After(m, es).hwm, L, h, t + Seconds(m.last, After(m, es).last) / TAU)
    decreases |es|
  {
    if es == [] {
      assert Seconds(m.last, m.last) == 0.0;
    } else {
      var m1 := Next(m, es[0]);
      if es[0].Tick? { TickUnder(m, es[0].now, es[0].live, L, h, t); } else { assert Seconds(m.last, m1.last) == 0.0; }
      var t1 := t + Seconds(m.last, m1.last) / TAU;
      StaysUnder(m1, es[1..], L, h, t1);
      SecondsAdd(m.last, m1.last, After(m1, es[1..]).last);
    }
  }

  lemma SecondsAdd(a: int, b: int, c: int)
    ensures Seconds(a, b) / TAU + Seconds(b, c) / TAU == Seconds(a, c) / TAU
  {
    assert (b - a) as real + (c - b) as real == (c - a) as real;
  }

  /** Whatever the tick rate: after T seconds in which nobody saw more than L live
      stacks, the watermark is at most max(L, h0 / (1 + T / 1.5)). */
  lemma RetentionBound(m: Mark, es: seq<Event>, L: int)
    requires m.hwm >= 0 && m.last > 0 && L >= 0 && Within(m, es, L)
    ensures var m' := After(m, es);
            var T := Seconds(m.last, m'.last);
            T >= 0.0 && (m'.hwm <= L || m'.hwm as real <= m.hwm as real / (1.0 + T / TAU))
  {
    StaysUnder(m, es, L, m.hwm as real, 0.0);
    FromUnder(After(m, es).hwm, L, m.hwm as real, Seconds(m.last, After(m, es).last));
  }

  lemma FromUnder(hwm: int, L: int, h: real, T: real)
    requires Under(hwm, L, h, 0.0 + T / TAU) && T >= 0.0
    ensures hwm <= L || hwm as real <= h / (1.0 + T / TAU)
  {
    if hwm > L { Divide(hwm as real, 1.0 + T / TAU, h); }
  }

  lemma Divide(x: real, c: real, h: real)
    requires c > 0.0 && x * c <= h
    ensures x <= h / c
  {
  }

  // ------------------------------------------------------------------ the cap

  /** `runloom_stack_autocap_init`: the ceiling, from the mapping limit and the
      memory size in kB (0 when not known). */
  function SafeMax(maps: int, memKb: int): (safe: int)
    ensures GLOBAL_CAP <= safe <= LIMIT
  {
    var byMaps := if maps > 0 then maps * 40 / 100 / 2 else 8192;
    var byMemory := if memKb > 0 then (memKb as real * 1024.0 * 0.12 / (64.0 * 1024.0)).Floor else 8192;
    Min(Max(Min(byMaps, byMemory), GLOBAL_CAP), LIMIT)
  }

  /** This many pooled stacks, at two mappings and 64 KiB each, spend at most 40 % of
      the mappings and 12 % of the memory; 8192 where the limit is not known. */
  predicate Affordable(n: int, maps: int, memKb: int) {
    && (if maps > 0 then n * 2 <= maps * 40 / 100 else n <= 8192)
    && (if memKb > 0 then n as real * (64.0 * 1024.0) <= memKb as real * 1024.0 * 0.12 else n <= 8192)
  }

  /** The ceiling is the largest affordable number, between 1024 and 2^24. */
  lemma SafeMaxIsLargest(maps: int, memKb: int)
    ensures var safe := SafeMax(maps, memKb);
            && (safe > GLOBAL_CAP ==> Affordable(safe, maps, memKb))
            && (safe < LIMIT ==> !Affordable(safe + 1, maps, memKb))
  {
    var safe := SafeMax(maps, memKb);
    if memKb > 0 {
      FloorFits(memKb as real * 1024.0 * 0.12, safe);
      FloorFits(memKb as real * 1024.0 * 0.12, safe + 1);
    }
  }

  lemma FloorFits(budget: real, n: int)
    ensures n as real * (64.0 * 1024.0) <= budget <==> n <= (budget / (64.0 * 1024.0)).Floor
  {
  }

  /** The cap a tick caches: half as much again as the watermark, at least the
      prewarm target and 1024, squeezed below the safe ceiling and the room live
      mappings leave. */
  function Cap(hwm: int, target: int, safe: int, maps: int, live: int): int {
    var ceiling := if maps > 0 then Min(Max(maps / 2 - live * 2, 0), safe) else safe;
    Max(Min(Max(Max(hwm * 3 / 2, target), GLOBAL_CAP), ceiling), 1)
  }

  /** In range always; with room under the mapping limit, the pooled stacks and
      twice the live ones fit in it, at two mappings each; without, it is 1. */
  lemma CapBounds(hwm: int, target: int, safe: int, maps: int, live: int)
    requires GLOBAL_CAP <= safe <= LIMIT && live >= 0
    ensures var cap, room := Cap(hwm, target, safe, maps, live), maps / 2 - 2 * live;
            && 1 <= cap <= LIMIT
            && (maps > 0 && room >= 1 ==> 2 * cap + 4 * live <= maps && cap >= Min(GLOBAL_CAP, room))
            && (maps > 0 && room < 1 ==> cap == 1)
            && (maps <= 0 ==> cap >= Min(GLOBAL_CAP, safe))
  {
  }

  /** Nothing squeezes a cap of c: the ceiling and the room live mappings leave. */
  predicate Allowed(c: int, safe: int, maps: int, live: int) {
    c <= safe && (maps > 0 ==> c <= maps / 2 - 2 * live)
  }

  /** One and a half times the watermark, the prewarm target and 1024 are covered by c. */
  predicate Covers(c: int, hwm: int, target: int) { 2 * c + 1 >= 3 * hwm && c >= target && c >= GLOBAL_CAP }

  /** The cap is the least that covers all three, where that is allowed; elsewhere the
      largest that is allowed, or 1 if none is. */
  lemma CapIsLeast(hwm: int, target: int, safe: int, maps: int, live: int)
    requires GLOBAL_CAP <= safe <= LIMIT && live >= 0
    ensures var cap := Cap(hwm, target, safe, maps, live);
            && ((exists c :: Allowed(c, safe, maps, live) && Covers(c, hwm, target)) ==>
                  Covers(cap, hwm, target) && Allowed(cap, safe, maps, live)
                  && forall c | Covers(c, hwm, target) :: cap <= c)
            && ((forall c | Covers(c, hwm, target) :: !Allowed(c, safe, maps, live)) ==>
                  if Allowed(1, safe, maps, live) then Allowed(cap, safe, maps, live) && !Allowed(cap + 1, safe, maps, live)
                  else cap == 1)
  {
    var want := Max(Max(hwm * 3 / 2, target), GLOBAL_CAP);
    assert Covers(want, hwm, target) && forall c | Covers(c, hwm, target) :: want <= c;
    if c :| Allowed(c, safe, maps, live) && Covers(c, hwm, target) { assert Allowed(want, safe, maps, live); }
  }

  /** A tick takes no more off the watermark than its decay by the time passed, rounded
      down, and nothing if no time has passed. */
  lemma TickKeeps(hwm: int, last: int, now: int, live: int)
    requires hwm >= 0
    ensures var h := Ticked(hwm, last, now, live);
            if last == 0 || now <= last then h == Max(hwm, live)
            else h as real > hwm as real * (1.0 - (now - last) as real / 1000000000.0 / 1.5) - 1.0
  {
    if last != 0 && now > last {
      var f, g := Factor(Seconds(last, now)), 1.0 - Seconds(last, now) / TAU;
      ScaledMono(hwm as real, g, f);
      assert Decayed(hwm, f) as real > hwm as real * f - 1.0;
    }
  }

  lemma ScaledMono(x: real, g: real, f: real)
    requires x >= 0.0 && g <= f
    ensures x * g <= x * f
  {
  }

  /** The runtime's record, updated in place. */
  class Tuner {
    var hwm: int
    var last: int
    var cap: int
    var safe: int
    var maps: int
    var target: int

    ghost predicate Valid()
      reads this
    {
      hwm >= 0 && GLOBAL_CAP <= safe <= LIMIT
    }

    constructor (maps: int, memKb: int)
      ensures Valid() && hwm == 0 && last == 0 && cap == 0 && safe == SafeMax(maps, memKb) && this.maps == maps && target == 0
    {
      hwm, last, cap, safe, this.maps, target := 0, 0, 0, SafeMax(maps, memKb), maps, 0;
    }

    /** `runloom_stack_autocap_tick`. */
    method Tick(now: int, live: int)
      requires Valid()
      modifies this`hwm, this`last, this`cap
      ensures Valid() && Mark(hwm, last) == Next(old(Mark(hwm, last)), Event.Tick(now, live))
      ensures cap == Cap(hwm, target, safe, maps, live)
    {
      hwm := Decay(hwm, last, now, live);
      TickBounds(old(hwm), last, now, live);
      last := now;
      cap := Squeeze(hwm, target, safe, maps, live);
    }

    static method Decay(hwm: int, last: int, now: int, live: int) returns (h: int)
      ensures h == Ticked(hwm, last, now, live)
    {
      h := hwm;
      if last != 0 && now > last {
        var dt := (now - last) as real / NS;
        var factor := 1.0 - dt / TAU;
        if factor < 0.0 { factor := 0.0; }
        assert dt == Seconds(last, now) && factor == Factor(dt);
        h := Decayed(h, factor);
      }
      if live > h { h := live; }
    }

    static method Squeeze(hwm: int, target: int, safe: int, maps: int, live: int) returns (c: int)
      ensures c == Cap(hwm, target, safe, maps, live)
    {
      c := hwm * 3 / 2;
      var ceiling := safe;
      if target > c { c := target; }
      if maps > 0 {
        var room := maps / 2 - live * 2;
        if room < 0 { room := 0; }
        if room < ceiling { ceiling := room; }
      }
      if c < GLOBAL_CAP { c := GLOBAL_CAP; }
      if c > ceiling { c := ceiling; }
      if c < 1 { c := 1; }
    }

    /** The watermark's part of `runloom_stack_acquire`. */
    method Acquire(live: int)
      requires Valid()
      modifies this`hwm
      ensures Valid() && Mark(hwm, last) == Next(old(Mark(hwm, last)), Event.Acquire(live))
    {
      if live > hwm { hwm := live; }
    }
  }
}
