/** The display's logic state as one machine. Each periodic task and each
    widget event handler is an atomic step; steps may arrive in any order. */
module Monitor {
  import opened ChartSeries
  import ChartTimer
  import opened DelayOption
  import opened Readings
  import opened ButtonLatch

  /** Widget events the handlers look at; anything else is OtherEvent. */
  datatype UiEvent = ShortClicked | LongPressedRepeat | ValueChanged | OtherEvent(code: nat)

  /** Admissible spinbox values, in tenths (lv_spinbox_set_range). */
  const PhSpinMin: int := 50
  const PhSpinMax: int := 70
  const EcSpinMin: int := 0
  const EcSpinMax: int := 99

  /** Everything the logic layer keeps between steps. Targets are in tenths,
      readings in hundredths, times in milliseconds. */
  datatype State = State(
    reading: Reading,
    targetPh: int,
    targetEc: int,
    delayOption: int,
    delayMs: int,
    delayCurrent: int,
    phSeries: seq<int>,
    ecSeries: seq<int>,
    openArmed: bool,
    closeArmed: bool,
    view: View)

  /** Both chart series have their fixed length. */
  predicate Shaped(s: State) {
    IsSeries(s.phSeries) && IsSeries(s.ecSeries)
  }

  /** Points a pH series can hold: the fill value, the point of the boot
      reading, or a point inside the chart range. */
  predicate PhPointOk(v: int) {
    v == FillValue || v == ToChartPoint(Boot.phH) || PhChartMin <= v <= PhChartMax
  }

  predicate EcPointOk(v: int) {
    EcChartMin <= v <= EcChartMax
  }

  /** The state as the firmware's globals and build_chart_mainscreen leave it. */
  function InitialAsWritten(): (s: State)
    ensures Inv(s)
    ensures forall i :: 0 <= i < PointCount ==> s.phSeries[i] == FillValue && s.ecSeries[i] == FillValue
    ensures s.delayMs != DelayForOption(s.delayOption)
  {
    State(Boot, 60, 50, 2, 1000, 0, Filled(), Filled(), false, false, Main)
  }

  /** The boot state with the window the preselected dropdown entry names. */
  function Initial(): (s: State)
    ensures Inv(s) && WindowMatchesEntry(s)
    ensures forall i :: 0 <= i < PointCount ==> s.phSeries[i] == FillValue && s.ecSeries[i] == FillValue
    ensures s.delayCurrent == 0 && s.view == Main && !s.openArmed && !s.closeArmed
  {
    State(Boot, 60, 50, 2, DelayForOption(2), 0, Filled(), Filled(), false, false, Main)
  }

  /** task_update_chart: advance the counter; on a flush feed each chart
      the current reading times ten and restart the counter. Only the counter
      and the series change. */
  function ChartTask(s: State): (t: State)
    requires Shaped(s)
    ensures Shaped(t)
    ensures t == s.(delayCurrent := t.delayCurrent, phSeries := t.phSeries, ecSeries := t.ecSeries)
    ensures s.delayCurrent + ChartTimer.TickMs > s.delayMs ==>
              && t.delayCurrent == 0
              && t.phSeries == ShiftIn(s.phSeries, ToChartPoint(s.reading.phH))
              && t.ecSeries == ShiftIn(s.ecSeries, ToChartPoint(s.reading.ecH))
    ensures s.delayCurrent + ChartTimer.TickMs <= s.delayMs ==>
              && t.delayCurrent == s.delayCurrent + ChartTimer.TickMs
              && t.phSeries == s.phSeries && t.ecSeries == s.ecSeries
    ensures s.delayCurrent >= 0 && s.delayCurrent % ChartTimer.TickMs == 0 && s.delayMs >= 0 ==>
              0 <= t.delayCurrent <= t.delayMs && t.delayCurrent % ChartTimer.TickMs == 0
  {
    var tick := ChartTimer.Advance(s.delayCurrent, s.delayMs);
    if tick.flush then
      s.(delayCurrent := tick.counter,
         phSeries := ShiftIn(s.phSeries, ToChartPoint(s.reading.phH)),
         ecSeries := ShiftIn(s.ecSeries, ToChartPoint(s.reading.ecH)))
    else
      s.(delayCurrent := tick.counter)
  }

  /** task_value_readings: replace the whole reading with a simulated one. */
  function ReadingsTask(s: State, d: Draws): (t: State)
    ensures t == s.(reading := t.reading)
    ensures InRange(t.reading)
    ensures t.reading.waterOk <==> d.level % 100 > 10
  {
    s.(reading := Simulate(d))
  }

  /** dropdown_change_delay_event: on a value change, record the selected
      entry and its window; the pending counter and the series are kept. */
  function DelayDropdown(s: State, ev: UiEvent, selected: int): (t: State)
    ensures ev != ValueChanged ==> t == s
    ensures ev == ValueChanged ==>
              && t == s.(delayOption := selected, delayMs := t.delayMs)
              && t.delayMs in Windows
              && t.delayMs == DelayForOption(t.delayOption)
  {
    if ev == ValueChanged then
      s.(delayOption := selected, delayMs := DelayForOption(selected))
    else s
  }

  /** A spinbox click handler: on a short click or a repeat, the target
      becomes the spinbox value (value / 10, here kept in tenths). `value` is
      the spinbox value after LVGL's own increment or decrement. */
  predicate SpinboxActs(ev: UiEvent) {
    ev == ShortClicked || ev == LongPressedRepeat
  }

  function PhSpinbox(s: State, ev: UiEvent, value: int): (t: State)
    ensures SpinboxActs(ev) ==> t == s.(targetPh := value)
    ensures !SpinboxActs(ev) ==> t == s
  {
    if SpinboxActs(ev) then s.(targetPh := value) else s
  }

  function EcSpinbox(s: State, ev: UiEvent, value: int): (t: State)
    ensures SpinboxActs(ev) ==> t == s.(targetEc := value)
    ensures !SpinboxActs(ev) ==> t == s
  {
    if SpinboxActs(ev) then s.(targetEc := value) else s
  }

  /** task_update_settings_button_status: poll the open button; a release
      after a press brings the settings panel up. The close latch is not
      touched. */
  function OpenButtonTask(s: State, st: BtnState): (t: State)
    ensures t == s.(openArmed := t.openArmed, view := t.view)
    ensures st == Pressed ==> t == s.(openArmed := true)
    ensures st == Released && s.openArmed ==> t == s.(openArmed := false, view := Settings)
    ensures st != Pressed && !(st == Released && s.openArmed) ==> t == s
  {
    var p := ButtonLatch.Step(s.openArmed, st);
    s.(openArmed := p.armed, view := if p.fired then Settings else s.view)
  }

  /** task_update_settings_cls_button_status: the same latch on the close
      button; a release after a press brings the main panel back. */
  function CloseButtonTask(s: State, st: BtnState): (t: State)
    ensures t == s.(closeArmed := t.closeArmed, view := t.view)
    ensures st == Pressed ==> t == s.(closeArmed := true)
    ensures st == Released && s.closeArmed ==> t == s.(closeArmed := false, view := Main)
    ensures st != Pressed && !(st == Released && s.closeArmed) ==> t == s
  {
    var p := ButtonLatch.Step(s.closeArmed, st);
    s.(closeArmed := p.armed, view := if p.fired then Main else s.view)
  }

  /** One step of the machine. */
  datatype Event =
    | ValueReadings(draws: Draws)
    | ChartUpdate
    | DelayChanged(ev: UiEvent, selected: int)
    | PhSpinClicked(ev: UiEvent, value: int)
    | EcSpinClicked(ev: UiEvent, value: int)
    | OpenButtonPoll(st: BtnState)
    | CloseButtonPoll(st: BtnState)

  /** LVGL clamps spinbox values to their ranges, so a handler only ever
      sees an in-range value. */
  predicate EventOk(e: Event) {
    match e
    case PhSpinClicked(_, v) => PhSpinMin <= v <= PhSpinMax
    case EcSpinClicked(_, v) => EcSpinMin <= v <= EcSpinMax
    case _ => true
  }

  function Step(s: State, e: Event): (t: State)
    requires Shaped(s)
    ensures Shaped(t)
  {
    match e
    case ValueReadings(d) => ReadingsTask(s, d)
    case ChartUpdate => ChartTask(s)
    case DelayChanged(ev, sel) => DelayDropdown(s, ev, sel)
    case PhSpinClicked(ev, v) => PhSpinbox(s, ev, v)
    case EcSpinClicked(ev, v) => EcSpinbox(s, ev, v)
    case OpenButtonPoll(st) => OpenButtonTask(s, st)
    case CloseButtonPoll(st) => CloseButtonTask(s, st)
  }

  /** The state after a sequence of steps, applied first to last. */
  function Run(s: State, events: seq<Event>): (t: State)
    requires Shaped(s)
    ensures Shaped(t)
    decreases |events|
  {
    if events == [] then s
    else Step(Run(s, events[..|events| - 1]), events[|events| - 1])
  }

  /** The stored window is the one the selected dropdown entry names. */
  predicate WindowMatchesEntry(s: State) {
    s.delayMs == DelayForOption(s.delayOption)
  }

  /** What every reachable state satisfies. */
  predicate Inv(s: State) {
    && Shaped(s)
    && s.delayCurrent >= 0 && s.delayCurrent % ChartTimer.TickMs == 0
    && s.delayMs in Windows
    && (s.reading == Boot || InRange(s.reading))
    && PhSpinMin <= s.targetPh <= PhSpinMax
    && EcSpinMin <= s.targetEc <= EcSpinMax
    && (forall i :: 0 <= i < |s.phSeries| ==> PhPointOk(s.phSeries[i]))
    && (forall i :: 0 <= i < |s.ecSeries| ==> EcPointOk(s.ecSeries[i]))
  }

  /** Feeding the charts keeps every point acceptable. */
  lemma ChartTaskKeepsPoints(s: State)
    requires Inv(s)
    ensures Inv(ChartTask(s))
  {
    var t := ChartTask(s);
    if s.delayCurrent + ChartTimer.TickMs > s.delayMs {
      var vp, ve := ToChartPoint(s.reading.phH), ToChartPoint(s.reading.ecH);
      if InRange(s.reading) {
        ChartPointsOfReading(s.reading);
      }
      assert PhPointOk(vp) && EcPointOk(ve);
      assert forall i :: 0 <= i < PointCount - 1 ==> t.phSeries[i] == s.phSeries[i + 1];
      assert forall i :: 0 <= i < PointCount - 1 ==> t.ecSeries[i] == s.ecSeries[i + 1];
    }
  }

  lemma {:induction false} StepPreservesInv(s: State, e: Event)
    requires Inv(s) && EventOk(e)
    ensures Inv(Step(s, e))
  {
    match e
    case ChartUpdate => ChartTaskKeepsPoints(s);
    case _ =>
  }

  /** Every state reachable from `s` by admissible events satisfies Inv. */
  lemma {:induction false} RunPreservesInv(s: State, events: seq<Event>)
    requires Inv(s)
    requires forall i :: 0 <= i < |events| ==> EventOk(events[i])
    ensures Inv(Run(s, events))
    decreases |events|
  {
    if events != [] {
      var prefix := events[..|events| - 1];
      RunPreservesInv(s, prefix);
      StepPreservesInv(Run(s, prefix), events[|events| - 1]);
    }
  }

  /** Every state the firmware reaches from its boot state by admissible
      events satisfies Inv. */
  lemma ReachableFromBoot(events: seq<Event>)
    requires forall i :: 0 <= i < |events| ==> EventOk(events[i])
    ensures Inv(Run(InitialAsWritten(), events))
  {
    RunPreservesInv(InitialAsWritten(), events);
  }

  /** After any run from the firmware's boot state that ends with a chart
      task, the pending counter lies within the current window, even when
      the window was just lowered below the counter. */
  lemma CounterBoundedAfterChartTask(events: seq<Event>)
    requires forall i :: 0 <= i < |events| ==> EventOk(events[i])
    requires |events| > 0 && events[|events| - 1] == ChartUpdate
    ensures 0 <= Run(InitialAsWritten(), events).delayCurrent <= Run(InitialAsWritten(), events).delayMs
    ensures Run(InitialAsWritten(), events).delayCurrent % ChartTimer.TickMs == 0
  {
    var prefix := events[..|events| - 1];
    var prev := Run(InitialAsWritten(), prefix);
    ReachableFromBoot(prefix);
    assert Inv(prev);
    assert Run(InitialAsWritten(), events) == ChartTask(prev);
  }

  lemma StepKeepsWindowMatch(s: State, e: Event)
    requires Shaped(s) && WindowMatchesEntry(s)
    ensures WindowMatchesEntry(Step(s, e))
  {
  }

  /** Once the stored window matches the selected entry, every run keeps it
      so: the dropdown handler always writes both together. */
  lemma {:induction false} RunKeepsWindowMatch(s: State, events: seq<Event>)
    requires Shaped(s) && WindowMatchesEntry(s)
    ensures WindowMatchesEntry(Run(s, events))
    decreases |events|
  {
    if events != [] {
      var prefix := events[..|events| - 1];
      RunKeepsWindowMatch(s, prefix);
      StepKeepsWindowMatch(Run(s, prefix), events[|events| - 1]);
    }
  }

  /** `n` consecutive chart tasks and nothing else. */
  function ChartTicks(n: nat): (es: seq<Event>)
    ensures |es| == n && forall i :: 0 <= i < n ==> es[i] == ChartUpdate
  {
    seq(n, _ => ChartUpdate)
  }

  /** `k` copies of one chart point. */
  function Repeat(k: nat, v: int): (vs: seq<int>)
    ensures |vs| == k && forall i :: 0 <= i < k ==> vs[i] == v
  {
    seq(k, _ => v)
  }

  /** `n` chart tasks applied directly. */
  function Feed(s: State, n: nat): (t: State)
    requires Shaped(s)
    ensures Shaped(t)
  {
    if n == 0 then s else ChartTask(Feed(s, n - 1))
  }

  lemma {:induction false} RunChartTicks(s: State, n: nat)
    requires Shaped(s)
    ensures Run(s, ChartTicks(n)) == Feed(s, n)
  {
    if n > 0 {
      RunChartTicks(s, n - 1);
      assert ChartTicks(n)[..n - 1] == ChartTicks(n - 1);
      assert ChartTicks(n)[n - 1] == ChartUpdate;
    }
  }

  /** Feeding one more copy of `v` is one more ShiftIn. */
  lemma PushRepeat(series: seq<int>, k: nat, v: int)
    requires IsSeries(series)
    ensures PushAll(series, Repeat(k + 1, v)) == ShiftIn(PushAll(series, Repeat(k, v)), v)
  {
    PushAllSnoc(series, Repeat(k, v), v);
    assert Repeat(k, v) + [v] == Repeat(k + 1, v);
  }

  /** Chart tasks change only the counter and the two series. */
  lemma {:induction false} FeedFrame(s: State, n: nat)
    requires Shaped(s)
    ensures
      var t := Feed(s, n);
      t == s.(delayCurrent := t.delayCurrent, phSeries := t.phSeries, ecSeries := t.ecSeries)
  {
    if n > 0 {
      FeedFrame(s, n - 1);
    }
  }

  /** Chart tasks alone keep the timer's counter. */
  lemma {:induction false} FeedCounter(s: State, n: nat)
    requires Shaped(s)
    ensures Feed(s, n).delayCurrent == ChartTimer.Run(s.delayCurrent, s.delayMs, n).counter
  {
    if n > 0 {
      FeedCounter(s, n - 1);
      FeedFrame(s, n - 1);
      var prev := Feed(s, n - 1);
      assert Feed(s, n).delayCurrent == ChartTimer.Advance(prev.delayCurrent, s.delayMs).counter;
    }
  }

  /** Chart tasks alone feed each chart the current reading once per timer
      flush. */
  lemma {:induction false} FeedFollowsTimer(s: State, n: nat)
    requires Shaped(s)
    ensures
      var k := ChartTimer.Run(s.delayCurrent, s.delayMs, n).flushes;
      && Feed(s, n).phSeries == PushAll(s.phSeries, Repeat(k, ToChartPoint(s.reading.phH)))
      && Feed(s, n).ecSeries == PushAll(s.ecSeries, Repeat(k, ToChartPoint(s.reading.ecH)))
  {
    var vp, ve := ToChartPoint(s.reading.phH), ToChartPoint(s.reading.ecH);
    if n == 0 {
      assert Repeat(0, vp) == [] && Repeat(0, ve) == [];
    } else {
      FeedFollowsTimer(s, n - 1);
      FeedFrame(s, n - 1);
      FeedCounter(s, n - 1);
      var k := ChartTimer.Run(s.delayCurrent, s.delayMs, n - 1).flushes;
      var prev := Feed(s, n - 1);
      var step := ChartTimer.Advance(prev.delayCurrent, s.delayMs);
      assert ChartTimer.Run(s.delayCurrent, s.delayMs, n).flushes ==
             k + (if step.flush then 1 else 0);
      if step.flush {
        PushRepeat(s.phSeries, k, vp);
        PushRepeat(s.ecSeries, k, ve);
        assert Feed(s, n).phSeries == ShiftIn(prev.phSeries, vp);
        assert Feed(s, n).ecSeries == ShiftIn(prev.ecSeries, ve);
      } else {
        assert Feed(s, n).phSeries == prev.phSeries;
        assert Feed(s, n).ecSeries == prev.ecSeries;
      }
    }
  }

  /** From an empty counter, `n` chart tasks under window D feed each chart
      exactly n / (D / 100 + 1) points: the strict comparison makes the feed
      period D / 100 + 1 ticks. */
  lemma ChartFeedRate(s: State, n: nat)
    requires Shaped(s) && s.delayCurrent == 0 && s.delayMs >= 0
    ensures Run(s, ChartTicks(n)).phSeries ==
              PushAll(s.phSeries, Repeat(n / ChartTimer.Period(s.delayMs), ToChartPoint(s.reading.phH)))
    ensures Run(s, ChartTicks(n)).delayCurrent == ChartTimer.TickMs * (n % ChartTimer.Period(s.delayMs))
  {
    RunChartTicks(s, n);
    FeedCounter(s, n);
    FeedFollowsTimer(s, n);
    ChartTimer.FlushSchedule(s.delayMs, n);
  }

  /** The boot state as written first feeds the charts on the eleventh tick
      (1.1 s) while the dropdown shows "1 minute", whose window allows no
      flush before tick 601. */
  lemma InitialWindowMismatch()
    ensures InitialAsWritten().delayOption == 2 && Windows[2] == 60000
    ensures ChartTimer.Run(0, InitialAsWritten().delayMs, 10).flushes == 0
    ensures ChartTimer.Run(0, InitialAsWritten().delayMs, 11).flushes == 1
    ensures ChartTimer.Run(0, Windows[InitialAsWritten().delayOption], 11).flushes == 0
    ensures ChartTimer.Run(0, Windows[InitialAsWritten().delayOption], 600).flushes == 0
    ensures ChartTimer.Period(Windows[InitialAsWritten().delayOption]) == 601
    ensures !WindowMatchesEntry(InitialAsWritten())
  {
    ChartTimer.FirstFlush(1000, 10);
    ChartTimer.FlushSchedule(1000, 11);
    ChartTimer.FlushSchedule(60000, 11);
    ChartTimer.FirstFlush(60000, 600);
  }
}
