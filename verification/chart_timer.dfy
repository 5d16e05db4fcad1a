/** The tick/flush rule of task_update_chart. The task runs every TickMs
    milliseconds and adds TickMs to a pending counter; when the counter
    strictly exceeds the chart window `delayMs` the charts are fed one point
    and the counter restarts from zero. */
module ChartTimer {

  /** Period of task_update_chart, and the amount it adds per call. */
  const TickMs: int := 100

  /** Outcome of one call: the new counter and whether the charts were fed. */
  datatype Tick = Tick(counter: int, flush: bool)

  /** One call of the counter logic of task_update_chart. */
  function Advance(current: int, delayMs: int): (r: Tick)
    ensures r.flush <==> current + TickMs > delayMs
    ensures r.flush ==> r.counter == 0
    ensures !r.flush ==> r.counter == current + TickMs
    ensures 0 <= current && current % TickMs == 0 && 0 <= delayMs ==>
              0 <= r.counter <= delayMs && r.counter % TickMs == 0
  {
    var next := current + TickMs;
    if next > delayMs then Tick(0, true) else Tick(next, false)
  }

  /** Counter and number of flushes after some calls. */
  datatype Tally = Tally(counter: int, flushes: nat)

  /** `n` consecutive calls with the window held at `delayMs`. */
  function Run(current: int, delayMs: int, n: nat): (t: Tally)
    ensures t.flushes <= n
  {
    if n == 0 then Tally(current, 0)
    else
      var prev := Run(current, delayMs, n - 1);
      var step := Advance(prev.counter, delayMs);
      Tally(step.counter, prev.flushes + (if step.flush then 1 else 0))
  }

  /** Number of calls from one flush to the next when the window is `delayMs`.
      Because the comparison is strict this is delayMs / TickMs + 1, so a
      window of D ms is fed every D + TickMs ms (for D a multiple of TickMs). */
  function Period(delayMs: int): (p: int)
    requires delayMs >= 0
    ensures p >= 1
    ensures TickMs * (p - 1) <= delayMs < TickMs * p
  {
    delayMs / TickMs + 1
  }

  /** Euclidean division is determined by quotient and in-range remainder. */
  lemma DivModUnique(a: int, p: int, q: int, r: int)
    requires p > 0 && 0 <= r < p && a == p * q + r
    ensures a / p == q && a % p == r
  {
    var q', r' := a / p, a % p;
    assert a == p * q' + r';
    var k := q - q';
    assert p * k == p * q - p * q';
    assert p * k == r' - r;
    if k >= 1 {
      MulAtLeast(p, k);
    } else if k <= -1 {
      MulAtLeast(p, -k);
    }
  }

  lemma MulAtLeast(p: int, k: int)
    requires p > 0 && k >= 1
    ensures p * k >= p
  {
    assert p * k == p * (k - 1) + p;
  }

  /** How quotient and remainder move when the dividend grows by one. */
  lemma DivModNext(m: nat, p: int)
    requires p >= 1
    ensures m % p + 1 == p ==> (m + 1) % p == 0 && (m + 1) / p == m / p + 1
    ensures m % p + 1 < p ==> (m + 1) % p == m % p + 1 && (m + 1) / p == m / p
  {
    var q, r := m / p, m % p;
    if r + 1 == p {
      DivModUnique(m + 1, p, q + 1, 0);
    } else {
      DivModUnique(m + 1, p, q, r + 1);
    }
  }

  /** Starting from an empty counter with a fixed window, after `n` calls the
      charts have been fed exactly n / Period(delayMs) times and the counter
      holds TickMs for every call since the last flush: the flush happens on
      every Period(delayMs)-th call and on no other. */
  lemma {:induction false} FlushSchedule(delayMs: int, n: nat)
    requires delayMs >= 0
    ensures Run(0, delayMs, n) ==
            Tally(TickMs * (n % Period(delayMs)), n / Period(delayMs))
  {
    if n > 0 {
      var p := Period(delayMs);
      var m: nat := n - 1;
      FlushSchedule(delayMs, m);
      DivModNext(m, p);
      AdvanceWithin(m % p, delayMs);
    }
  }

  /** A tick taken r calls after the last flush flushes exactly when it is
      call number Period(delayMs). */
  lemma AdvanceWithin(r: int, delayMs: int)
    requires delayMs >= 0 && 0 <= r < Period(delayMs)
    ensures r + 1 == Period(delayMs) ==> Advance(TickMs * r, delayMs) == Tick(0, true)
    ensures r + 1 < Period(delayMs) ==> Advance(TickMs * r, delayMs) == Tick(TickMs * (r + 1), false)
  {
  }

  /** With the window held at `delayMs`, no flush happens before call number
      Period(delayMs) and exactly one happens at it. */
  lemma FirstFlush(delayMs: int, n: nat)
    requires delayMs >= 0
    ensures n < Period(delayMs) ==> Run(0, delayMs, n).flushes == 0
    ensures Run(0, delayMs, Period(delayMs)) == Tally(0, 1)
  {
    FlushSchedule(delayMs, n);
    FlushSchedule(delayMs, Period(delayMs));
  }
}
