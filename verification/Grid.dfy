/** The next trigger time of a periodic watcher, over exact reals. */
module Grid {

  const MIN_INTERVAL: real := 0.0001220703125

  /** The k-th point of the grid with the given offset and spacing. */
  function Point(offset: real, interval: real, k: int): real {
    offset + interval * (k as real)
  }

  /** The interval periodic_recalc divides by. */
  function Divisor(interval: real): real {
    if interval > MIN_INTERVAL then interval else MIN_INTERVAL
  }

  /** The last grid point not after `now`. */
  function LastPoint(offset: real, interval: real, now: real): real
    requires interval > 0.0
  {
    Point(offset, interval, ((now - offset) / interval).Floor)
  }

  lemma MulMono(a: real, b: real, c: real)
    requires c > 0.0
    ensures a <= b <==> c * a <= c * b
  {
    if a > b {
      assert c * (a - b) > 0.0;
    }
  }

  lemma DivMul(x: real, c: real)
    requires c > 0.0
    ensures c * (x / c) == x
  {
  }

  /** A product, kept from the solver's nonlinear arithmetic. */
  function Times(a: real, b: real): real {
    a * b
  }

  lemma TimesMono(k: real, q: real, c: real)
    requires c > 0.0
    ensures k <= q <==> Times(c, k) <= Times(c, q)
  {
    MulMono(k, q, c);
  }

  lemma TimesNext(c: real, k: real)
    ensures Times(c, k + 1.0) == Times(c, k) + c
  {
    Distribute(c, k);
  }

  lemma ProductBounds(x: real, q: real, k: real, c: real)
    requires c > 0.0 && Times(c, q) == x && k <= q < k + 1.0
    ensures Times(c, k) <= x < Times(c, k) + c
  {
    hide Times;
    TimesMono(k, q, c);
    TimesMono(k + 1.0, q, c);
    TimesNext(c, k);
  }

  lemma FloorBounds(x: real, interval: real)
    requires interval > 0.0
    ensures interval * ((x / interval).Floor as real) <= x < interval * ((x / interval).Floor as real) + interval
  {
    DivMul(x, interval);
    ProductBounds(x, x / interval, (x / interval).Floor as real, interval);
  }

  lemma Distribute(a: real, b: real)
    ensures a * (b + 1.0) == a * b + a
  {
  }

  /** One step of `interval` lowers the quotient that bounds the number of steps by one. */
  lemma OneStep(x: real, interval: real)
    requires interval > 0.0
    ensures (x - interval) / interval == x / interval - 1.0
    ensures x >= 0.0 ==> (x / interval).Floor >= 0
  {
    var q := x / interval;
    DivMul(x, interval);
    DivMul(x - interval, interval);
    assert interval * (q - 1.0) == x - interval;
    MulMono((x - interval) / interval, q - 1.0, interval);
    MulMono(q - 1.0, (x - interval) / interval, interval);
    MulMono(0.0, q, interval);
  }

  lemma LastPointBounds(offset: real, interval: real, now: real)
    requires interval > 0.0
    ensures LastPoint(offset, interval, now) <= now < LastPoint(offset, interval, now) + interval
  {
    FloorBounds(now - offset, interval);
  }

  /** Steps of `interval` from `at` until after `now`. */
  function StepPast(at: real, interval: real, now: real): (r: real)
    requires interval > 0.0
    ensures at <= now ==> now < r <= now + interval
    decreases if at <= now then 1 + ((now - at) / interval).Floor else 0
  {
    if at > now then at
    else
      OneStep(now - at, interval);
      assert now - (at + interval) == now - at - interval;
      StepPast(at + interval, interval, now)
  }

  /** What periodic_recalc stores in ev_at. */
  function Recalc(offset: real, interval: real, now: real): real
    requires interval > 0.0
  {
    StepPast(LastPoint(offset, Divisor(interval), now), interval, now)
  }

  method PeriodicRecalc(offset: real, interval: real, now: real) returns (at: real)
    requires interval > 0.0
    ensures at == Recalc(offset, interval, now)
  {
    var d := Divisor(interval);
    at := offset + d * (((now - offset) / d).Floor as real);
    while at <= now
      invariant StepPast(at, interval, now) == Recalc(offset, interval, now)
      decreases if at <= now then 1 + ((now - at) / interval).Floor else 0
    {
      OneStep(now - at, interval);
      var next := at + interval;
      assert next != at && now - next == now - at - interval;  // exact: an increment is never lost
      at := next;
    }
  }

  /** The new time is always after now, by no more than the interval. */
  lemma RecalcIsSoon(offset: real, interval: real, now: real)
    requires interval > 0.0
    ensures now < Recalc(offset, interval, now) <= now + interval
  {
    LastPointBounds(offset, Divisor(interval), now);
  }

  lemma NextPoint(offset: real, interval: real, m: int)
    ensures Point(offset, interval, m + 1) == Point(offset, interval, m) + interval
  {
    assert (m + 1) as real == (m as real) + 1.0;
    Distribute(interval, m as real);
  }

  lemma RecalcIsPoint(offset: real, interval: real, now: real) returns (m: int)
    requires interval > MIN_INTERVAL
    ensures Recalc(offset, interval, now) == Point(offset, interval, m + 1)
    ensures Point(offset, interval, m) <= now
  {
    m := ((now - offset) / interval).Floor;
    var last := LastPoint(offset, interval, now);
    LastPointBounds(offset, interval, now);
    NextPoint(offset, interval, m);
    hide Point;
    assert last == Point(offset, interval, m);
    assert StepPast(last, interval, now) == last + interval;
  }

  ghost predicate OnGrid(x: real, offset: real, interval: real) {
    exists m :: x == Point(offset, interval, m)
  }

  lemma PointMono(offset: real, interval: real, m: int, k: int)
    requires interval > 0.0
    ensures m <= k <==> Point(offset, interval, m) <= Point(offset, interval, k)
  {
    MulMono(m as real, k as real, interval);
  }

  /** For intervals above MIN_INTERVAL it is the least grid point after now. */
  lemma RecalcIsNextGridPoint(offset: real, interval: real, now: real, k: int)
    requires interval > MIN_INTERVAL
    ensures OnGrid(Recalc(offset, interval, now), offset, interval)
    ensures Point(offset, interval, k) > now ==> Recalc(offset, interval, now) <= Point(offset, interval, k)
  {
    var m := RecalcIsPoint(offset, interval, now);
    hide Recalc, LastPoint, Point;
    PointMono(offset, interval, k, m);
    PointMono(offset, interval, m + 1, k);
  }
}
