/**
 The order in which a select scans its cases (chan_select_helpers.c.inc:52-154): a
 random start and a stride coprime with the number of cases.
 */
module SelectOrder {

  ghost predicate Divides(d: nat, a: int)
    requires d > 0
  {
    exists k: int :: Multiple(d, k) == a
  }

  function Multiple(d: nat, k: int): int { d * k }

  ghost predicate Coprime(a: nat, b: nat) {
    forall d: nat | d > 0 && Divides(d, a) && Divides(d, b) :: d == 1
  }

  /** g is the greatest common divisor: it divides both, and is a combination of
      them. */
  ghost predicate IsGcd(g: nat, a: nat, b: nat) {
    g > 0 && Divides(g, a) && Divides(g, b) && exists x: int, y: int :: Combination(a, x, b, y) == g
  }

  function Combination(a: int, x: int, b: int, y: int): int { a * x + b * y }

  // ------------------------------------------------------------ divisibility

  lemma DividesSum(d: nat, a: int, b: int, x: int, y: int)
    requires d > 0 && Divides(d, a) && Divides(d, b)
    ensures Divides(d, Combination(a, x, b, y))
  {
    var j: int :| Multiple(d, j) == a;
    var k: int :| Multiple(d, k) == b;
    assert Multiple(d, j * x + k * y) == d * (j * x) + d * (k * y) == (d * j) * x + (d * k) * y;
  }

  lemma DividesOne(d: nat)
    requires d > 0 && Divides(d, 1)
    ensures d == 1
  {
    var k: int :| Multiple(d, k) == 1;
    MulAtLeast(d, k);
  }

  lemma MulAtLeast(d: nat, k: int)
    ensures k >= 1 ==> d * k >= d
    ensures k <= 0 ==> d * k <= 0
  {
  }

  /** One step of Euclid's algorithm keeps the greatest common divisor. */
  lemma EuclidStep(g: nat, a: nat, b: nat)
    requires b > 0 && IsGcd(g, b, a % b)
    ensures IsGcd(g, a, b)
  {
    var x: int, y: int :| Combination(b, x, a % b, y) == g;
    var q := a / b;
    assert a == b * q + a % b;
    DividesSum(g, b, a % b, q, 1);
    assert Combination(b, q, a % b, 1) == a;
    Regroup(a, b, q, x, y);
    assert Combination(a, y, b, x - q * y) == g;
  }

  lemma Regroup(a: int, b: int, q: int, x: int, y: int)
    ensures a * y + b * (x - q * y) == b * x + (a - b * q) * y
  {
  }

  function Gcd(a: nat, b: nat): nat
    decreases b
  {
    if b == 0 then a else Gcd(b, a % b)
  }

  lemma {:induction false} GcdIs(a: nat, b: nat)
    requires a > 0 || b > 0
    ensures IsGcd(Gcd(a, b), a, b)
    decreases b
  {
    if b == 0 {
      assert Multiple(a, 1) == a && Multiple(a, 0) == b;
      assert Combination(a, 1, b, 0) == a;
    } else {
      GcdIs(b, a % b);
      EuclidStep(Gcd(a, b), a, b);
    }
  }

  /** `runloom_select_gcd`. */
  method ComputeGcd(a: nat, b: nat) returns (g: nat)
    ensures g == Gcd(a, b)
  {
    var x, y := a, b;
    while y != 0
      invariant Gcd(x, y) == Gcd(a, b)
      decreases y
    {
      x, y := y, x % y;
    }
    g := x;
  }

  lemma GcdOne(a: nat, b: nat)
    requires a > 0 || b > 0
    ensures Gcd(a, b) == 1 <==> Coprime(a, b)
  {
    GcdIs(a, b);
    var g := Gcd(a, b);
    if g == 1 {
      var x: int, y: int :| Combination(a, x, b, y) == 1;
      forall d: nat | d > 0 && Divides(d, a) && Divides(d, b) ensures d == 1 {
        DividesSum(d, a, b, x, y);
        DividesOne(d);
      }
    }
  }

  /** Neighbours are coprime, so the search for a stride ends. */
  lemma NeighboursCoprime(n: nat)
    requires n > 1
    ensures Gcd(n - 1, n) == 1
  {
    GcdIs(n - 1, n);
    var g := Gcd(n - 1, n);
    DividesSum(g, n, n - 1, 1, -1);
    assert Combination(n, 1, n - 1, -1) == 1;
    DividesOne(g);
  }

  /** The stride the search settles on. */
  method FindStride(n: nat, draw: nat) returns (stride: nat)
    requires n > 2
    ensures 1 <= stride < n && Coprime(stride, n)
  {
    stride := 1 + draw % (n - 1);
    var g := ComputeGcd(stride, n);
    while g != 1
      invariant 1 <= stride < n && g == Gcd(stride, n)
      decreases n - stride
    {
      if stride == n - 1 { NeighboursCoprime(n); }
      SmallMod(stride, n - 1);
      stride := stride % (n - 1) + 1;
      g := ComputeGcd(stride, n);
    }
    GcdOne(stride, n);
  }

  lemma SmallMod(a: nat, n: nat)
    ensures a < n ==> a % n == a
  {
  }

  // ------------------------------------------------------------------ the walk

  /** The case visited k steps after case i. */
  function Visit(i: nat, stride: nat, n: nat, k: nat): nat
    decreases k
  {
    if k == 0 then i
    else Visit(if i + stride >= n then i + stride - n else i + stride, stride, n, k - 1)
  }

  /** The walk's position is the start plus k strides, less some turns of n. */
  lemma {:induction false} VisitIs(i: nat, stride: nat, n: nat, k: nat) returns (turns: int)
    requires i < n && stride <= n
    ensures Visit(i, stride, n, k) < n && Visit(i, stride, n, k) == i + k * stride - turns * n
    decreases k
  {
    if k == 0 {
      turns := 0;
    } else {
      var j := if i + stride >= n then i + stride - n else i + stride;
      var t := VisitIs(j, stride, n, k - 1);
      turns := if i + stride >= n then t + 1 else t;
      assert k * stride == (k - 1) * stride + stride;
      assert (t + 1) * n == t * n + n;
    }
  }

  /** If n divides d * s and shares no divisor with s, it divides d. */
  lemma EuclidsLemma(n: nat, d: int, s: nat)
    requires n > 0 && s > 0 && Coprime(s, n) && Divides(n, d * s)
    ensures Divides(n, d)
  {
    GcdIs(s, n);
    GcdOne(s, n);
    var x: int, y: int :| Combination(s, x, n, y) == 1;
    assert Multiple(n, d) == n * d;
    DividesSum(n, d * s, n * d, x, y);
    Distribute(d, s, x, n, y);
  }

  lemma Distribute(d: int, s: int, x: int, n: int, y: int)
    requires s * x + n * y == 1
    ensures (d * s) * x + (n * d) * y == d
  {
    assert (d * s) * x + (n * d) * y == d * (s * x + n * y);
  }

  lemma SmallMultiple(n: nat, d: nat)
    requires d < n && Divides(n, d)
    ensures d == 0
  {
    var k: int :| Multiple(n, k) == d;
    MulAtLeast(n, k);
  }

  /** With a coprime stride, n steps visit n different cases. */
  lemma VisitsDistinct(i: nat, stride: nat, n: nat, j: nat, k: nat)
    requires i < n && 0 < stride <= n && Coprime(stride, n) && j < k < n
    ensures Visit(i, stride, n, j) != Visit(i, stride, n, k)
  {
    var s := VisitIs(i, stride, n, j);
    var t := VisitIs(i, stride, n, k);
    if Visit(i, stride, n, j) == Visit(i, stride, n, k) {
      Turns(k, j, stride, t, s, n);
      assert Multiple(n, t - s) == (k - j) * stride;
      EuclidsLemma(n, k - j, stride);
      SmallMultiple(n, k - j);
    }
  }

  lemma Turns(k: int, j: int, stride: int, t: int, s: int, n: int)
    requires j * stride - s * n == k * stride - t * n
    ensures (k - j) * stride == n * (t - s)
  {
    assert (k - j) * stride == k * stride - j * stride && n * (t - s) == t * n - s * n;
  }

  /** n different numbers below n are all of them. */
  lemma {:induction false} AllPresent(q: seq<nat>, n: nat)
    requires |q| == n && (forall i | 0 <= i < n :: q[i] < n) && (forall i, j | 0 <= i < j < n :: q[i] != q[j])
    ensures forall c: nat | c < n :: c in q
  {
    var seen := set i | 0 <= i < n :: q[i];
    Distinct(q);
    Below(seen, n);
    forall c: nat | c < n ensures c in q { assert c in seen; }
  }

  lemma {:induction false} Distinct(q: seq<nat>)
    requires forall i, j | 0 <= i < j < |q| :: q[i] != q[j]
    ensures |set i | 0 <= i < |q| :: q[i]| == |q|
  {
    if q == [] {
    } else {
      var n := |q| - 1;
      var rest := set i | 0 <= i < n :: q[..n][i];
      Distinct(q[..n]);
      assert (set i | 0 <= i < |q| :: q[i]) == rest + {q[n]};
      assert q[n] !in rest;
    }
  }

  lemma {:induction false} Below(seen: set<nat>, n: nat)
    requires |seen| == n && forall c | c in seen :: c < n
    ensures forall c: nat | c < n :: c in seen
  {
    if n == 0 {
    } else if n - 1 in seen {
      Below(seen - {n - 1}, n - 1);
    } else {
      assert |seen - {n}| == n;
      TooMany(seen, n - 1);
    }
  }

  lemma {:induction false} TooMany(seen: set<nat>, n: nat)
    requires forall c | c in seen :: c < n
    ensures |seen| <= n
    decreases n
  {
    if n == 0 {
      assert seen == {};
    } else {
      TooMany(seen - {n - 1}, n - 1);
    }
  }

  /** What the walk finds when it gets to a case, under its channel's lock. */
  datatype Look = Blocked | Fires | SendClosed

  /** What `select_try_each` returns on stopping at case i. */
  function Stop(found: Look, i: nat): int
    requires !found.Blocked?
  {
    if found.Fires? then i else -2
  }

  /** The walk of `select_try_each`: it stops at the first case in its order that
      is not blocked, after `turn` that are, and misses none. */
  method Scan(found: seq<Look>, start: nat, stride: nat) returns (r: int, turn: nat)
    requires start < |found| && 0 < stride <= |found| && Coprime(stride, |found|)
    ensures turn <= |found| && forall j | 0 <= j <= turn && j < |found| :: Visit(start, stride, |found|, j) < |found|
    ensures forall j | 0 <= j < turn :: found[Visit(start, stride, |found|, j)].Blocked?
    ensures turn < |found| ==>
              var i := Visit(start, stride, |found|, turn);
              !found[i].Blocked? && r == Stop(found[i], i)
    ensures turn == |found| ==> r == -1 && forall c | 0 <= c < |found| :: found[c].Blocked?
  {
    var n := |found|;
    var i := start;
    turn := 0;
    ghost var order: seq<nat> := [];
    while turn < n
      invariant 0 <= turn <= n && i < n && |order| == turn && i == Visit(start, stride, n, turn)
      invariant forall j | 0 <= j < turn :: order[j] < n && order[j] == Visit(start, stride, n, j)
      invariant forall j | 0 <= j < turn :: found[order[j]].Blocked?
    {
      if found[i].SendClosed? { return -2, turn; }
      if found[i].Fires? { return i, turn; }
      order := order + [i];
      VisitNext(start, stride, n, turn);
      i := i + stride;
      if i >= n { i := i - n; }
      turn := turn + 1;
    }
    OrderCovers(order, start, stride, n);
    forall c | 0 <= c < n ensures found[c].Blocked? {
      assert c in order;
    }
    r := -1;
  }

  lemma OrderCovers(order: seq<nat>, start: nat, stride: nat, n: nat)
    requires start < n && 0 < stride <= n && Coprime(stride, n) && |order| == n
    requires forall j | 0 <= j < n :: order[j] < n && order[j] == Visit(start, stride, n, j)
    ensures forall c: nat | c < n :: c in order
  {
    forall a, b | 0 <= a < b < n ensures order[a] != order[b] { VisitsDistinct(start, stride, n, a, b); }
    AllPresent(order, n);
  }

  /** `select_try_each`: whatever the two random draws, -1 means that every case
      was blocked, an index is that of a case that could fire, and -2 that a send
      case's channel was closed.  The first draw says which case comes first. */
  method TryEach(found: seq<Look>, draw: nat, draw2: nat) returns (r: int)
    requires |found| > 0
    ensures -2 <= r < |found|
    ensures r >= 0 ==> found[r].Fires?
    ensures r == -1 <==> forall c | 0 <= c < |found| :: found[c].Blocked?
    ensures r == -2 ==> exists c :: 0 <= c < |found| && found[c].SendClosed?
    ensures !found[draw % |found|].Blocked? ==> r == Stop(found[draw % |found|], draw % |found|)
  {
    var start, stride := 0, 1;
    if |found| > 1 {
      start := draw % |found|;
      if |found| > 2 { stride := FindStride(|found|, draw2); }
    }
    CoprimeOne(|found|);
    assert start == draw % |found| && Visit(start, stride, |found|, 0) == start;
    var turn;
    r, turn := Scan(found, start, stride);
  }

  lemma CoprimeOne(n: nat)
    ensures Coprime(1, n)
  {
    forall d: nat | d > 0 && Divides(d, 1) ensures d == 1 { DividesOne(d); }
  }

  lemma {:induction false} VisitNext(i: nat, stride: nat, n: nat, k: nat)
    requires i < n && stride <= n
    ensures var p := Visit(i, stride, n, k);
            p < n && Visit(i, stride, n, k + 1) == (if p + stride >= n then p + stride - n else p + stride) < n
    decreases k
  {
    if k == 0 {
    } else {
      VisitNext(if i + stride >= n then i + stride - n else i + stride, stride, n, k - 1);
    }
  }
}
