/** Reconnect backoff (wsrpc/reconnect.go, transport.ts): capped doubling with
    an early exit, then full jitter. Durations are reals; both runtimes only
    double them, which is exact in binary floating point. */
module Backoff {

  function Pow2(n: nat): nat { if n == 0 then 1 else 2 * Pow2(n - 1) }

  function Min(a: real, b: real): real { if a < b then a else b }

  /** The documented schedule: initial * 2^n, at most max. */
  function Cap(initial: real, max: real, n: nat): real { Min(initial * Pow2(n) as real, max) }

  lemma Doubles(initial: real, n: nat)
    ensures initial * Pow2(n + 1) as real == 2.0 * (initial * Pow2(n) as real)
  {
  }

  /** The loops' own view: n doublings. */
  function Doubled(initial: real, n: nat): real { if n == 0 then initial else 2.0 * Doubled(initial, n - 1) }

  lemma {:induction false} DoubledIsPower(initial: real, n: nat)
    ensures Doubled(initial, n) == initial * Pow2(n) as real
  {
    if n > 0 {
      DoubledIsPower(initial, n - 1);
      Doubles(initial, n - 1);
    }
  }

  lemma {:induction false} DoublingGrows(initial: real, i: nat, n: nat)
    requires initial > 0.0 && i <= n
    ensures 0.0 < Doubled(initial, i) <= Doubled(initial, n)
    decreases n
  {
    if i < n {
      DoublingGrows(initial, i, n - 1);
    } else if n > 0 {
      DoublingGrows(initial, n - 1, n - 1);
    }
  }

  /** Once the doubling has reached the cap it stays there. */
  lemma CapReached(initial: real, max: real, i: nat, n: nat)
    requires initial > 0.0 && i <= n && initial * Pow2(i) as real >= max
    ensures Cap(initial, max, n) == max && initial * Pow2(n) as real >= max
  {
    DoubledIsPower(initial, i);
    DoubledIsPower(initial, n);
    DoublingGrows(initial, i, n);
  }

  lemma CapNondecreasing(initial: real, max: real, n: nat)
    requires initial > 0.0
    ensures Cap(initial, max, n) <= Cap(initial, max, n + 1)
  {
  }

  /** reconnectConfig.nextBackoff before its jitter. */
  method GoCap(initial: real, max: real, attempt: nat) returns (d: real)
    requires initial > 0.0 && max > 0.0
    ensures d == Cap(initial, max, attempt)
  {
    d := initial;
    var i := 0;
    while i < attempt
      invariant 0 <= i <= attempt && d == initial * Pow2(i) as real
    {
      Doubles(initial, i);
      d := d * 2.0;
      i := i + 1;
      if d >= max {
        CapReached(initial, max, i, attempt);
        return max;
      }
    }
    if d > max { d := max; }
  }

  /** WsTransport.nextBackoff before its jitter. */
  method TsCap(initial: real, max: real, attempt: nat) returns (d: real)
    requires initial > 0.0 && max > 0.0
    ensures d == Cap(initial, max, attempt)
  {
    d := initial;
    var i := 0;
    while i < attempt && d < max
      invariant 0 <= i <= attempt && d == initial * Pow2(i) as real
    {
      Doubles(initial, i);
      d := d * 2.0;
      i := i + 1;
    }
    if d >= max { CapReached(initial, max, i, attempt); }
    if d > max { d := max; }
  }

  /** Go's full jitter draws an integer in [0, int64(d)]. */
  predicate GoDraw(d: real, delay: int)
    requires d >= 0.0
  {
    0 <= delay < d.Floor + 1
  }

  lemma GoDelayWithin(d: real, delay: int)
    requires d >= 0.0 && GoDraw(d, delay)
    ensures 0.0 <= delay as real <= d
  {
  }

  /** TypeScript's full jitter for a random u in [0, 1). */
  function TsDelay(d: real, u: real): int { (u * (d + 1.0)).Floor }

  predicate Draw(u: real) { 0.0 <= u < 1.0 }

  lemma PartOf(u: real, w: real)
    requires Draw(u) && w > 0.0
    ensures 0.0 <= u * w < w
  {
  }

  lemma Fraction(a: real, b: real)
    requires 0.0 < a < b
    ensures Draw(a / b) && (a / b) * b == a
  {
    var (q, r) := (a / b, (b - a) / b);
    assert q > 0.0 && r > 0.0;
    assert q + r == 1.0;
  }

  lemma FloorOf(x: real)
    ensures x.Floor as real <= x < x.Floor as real + 1.0
  {
  }

  lemma TsDelayBound(d: real, u: real)
    requires d >= 0.0 && Draw(u)
    ensures 0 <= TsDelay(d, u) && TsDelay(d, u) as real < d + 1.0
  {
    var w := d + 1.0;
    PartOf(u, w);
    var x := u * w;
    FloorOf(x);
    assert TsDelay(d, u) == x.Floor;
  }

  /** The documented range [0, d] is kept by every draw exactly when d is a whole
      number of milliseconds. */
  lemma TsDelayWithinIff(d: real)
    requires d >= 0.0
    ensures (forall u :: Draw(u) ==> TsDelay(d, u) as real <= d) <==> d == d.Floor as real
  {
    if d == d.Floor as real {
      forall u | Draw(u) ensures TsDelay(d, u) as real <= d {
        WholeDelay(d, u);
      }
    } else {
      var u := OvershootingDraw(d);
    }
  }

  lemma WholeDelay(d: real, u: real)
    requires d >= 0.0 && Draw(u) && d == d.Floor as real
    ensures TsDelay(d, u) as real <= d
  {
    TsDelayBound(d, u);
    assert TsDelay(d, u) < d.Floor + 1;
  }

  lemma OvershootingDraw(d: real) returns (u: real)
    requires d >= 0.0 && d != d.Floor as real
    ensures Draw(u) && TsDelay(d, u) as real > d
  {
    FloorOf(d);
    var (top, w) := (d.Floor as real + 1.0, d + 1.0);
    Fraction(top, w);
    u := top / w;
    DelayAt(d, u, top);
    assert top.Floor == d.Floor + 1;
  }

  lemma DelayAt(d: real, u: real, x: real)
    requires u * (d + 1.0) == x
    ensures TsDelay(d, u) == x.Floor
  {
  }
}
