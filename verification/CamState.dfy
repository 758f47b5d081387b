/** Capture failures and the one-second metrics window. */
module CamState {
  import opened Bytes

  const FAIL_STREAK_RECOVER: nat := 10
  const WINDOW_US: nat := 1_000_000

  // ------------------------------ Failure streak ------------------------------

  datatype CaptureEvent = Captured | Failed | Recovered

  /** Failures since the last good capture or requested recovery. */
  function TrailingFailures(h: seq<CaptureEvent>): nat {
    if h == [] || !h[|h| - 1].Failed? then 0 else 1 + TrailingFailures(h[..|h| - 1])
  }

  lemma StreakNext(h: seq<CaptureEvent>)
    ensures var t, u := TrailingFailures(h), TrailingFailures(h + [Failed]);
      && (t % FAIL_STREAK_RECOVER + 1 >= FAIL_STREAK_RECOVER <==> u % FAIL_STREAK_RECOVER == 0)
      && (u % FAIL_STREAK_RECOVER != 0 ==> u % FAIL_STREAK_RECOVER == t % FAIL_STREAK_RECOVER + 1)
  {
    assert (h + [Failed])[..|h|] == h;
  }

  // ------------------------------ Rates of a window ------------------------------

  datatype Window = Window(frames: nat, vsyncUs: nat, readUs: nat, sendUs: nat, drainUs: nat, bytes: nat)
  const NO_FRAMES := Window(0, 0, 0, 0, 0, 0)

  datatype Rates = Rates(fpsX10: nat, vsyncMs: nat, readMs: nat, sendMs: nat, drainMs: nat, frameKb: nat)

  /** An average over the window's frames, in 32 bits. */
  function PerFrame(total: nat, frames: nat, unit: nat): nat
    requires frames > 0 && unit > 0
  {
    total / frames / unit % U32
  }

  /** What a finished window of `elapsed` microseconds reports; without frames only the rate changes. */
  function RatesOf(w: Window, elapsed: nat, before: Rates): Rates
    requires elapsed > 0
  {
    if w.frames == 0 then before.(fpsX10 := 0) else
      Rates(w.frames * 10_000_000 / elapsed % U32,
            PerFrame(w.vsyncUs, w.frames, 1000), PerFrame(w.readUs, w.frames, 1000),
            PerFrame(w.sendUs, w.frames, 1000), PerFrame(w.drainUs, w.frames, 1000),
            PerFrame(w.bytes, w.frames, 1024))
  }

  /** The load served, in kbit/s. */
  function KbpsOf(bytes: nat, elapsed: nat): nat
    requires elapsed > 0
  {
    bytes * 8000 / elapsed % U32
  }

  /** The time a frame is reported to take, times the rate: 10000 is all of every second. */
  function Budget(r: Rates): nat {
    (r.vsyncMs + r.readMs + r.sendMs) * r.fpsX10
  }

  /** The same with the wait for acknowledgements, which makes up the frame's whole period. */
  function Period(r: Rates): nat {
    (r.vsyncMs + r.readMs + r.sendMs + r.drainMs) * r.fpsX10
  }

  lemma PerFrameAtMost(total: nat, frames: nat)
    requires frames > 0
    ensures 1000 * (frames * PerFrame(total, frames, 1000)) <= total
  {
    var each := total / frames;
    DivTimes(total, frames);
    var ms := PerFrame(total, frames, 1000);
    assert 1000 * ms <= each;
    TimesOrder(frames, 1000 * ms, each);
    assert frames * (1000 * ms) == 1000 * (frames * ms);
  }

  lemma DivTimes(a: nat, b: nat)
    requires b > 0
    ensures b * (a / b) <= a
  {
  }

  lemma TimesOrder(k: nat, a: nat, b: nat)
    requires a <= b
    ensures k * a <= k * b
  {
  }

  /** `ms` milliseconds a frame, `f` frames, at the rate `p` the window of `elapsed` gives them. */
  lemma RateTimes(f: nat, ms: nat, p: nat, elapsed: nat, total: nat)
    requires 1000 * (f * ms) <= total && elapsed * p <= f * 10_000_000
    ensures ms * p * elapsed <= 10_000 * total
  {
    TimesOrder(ms, elapsed * p, f * 10_000_000);
    assert ms * (elapsed * p) == ms * p * elapsed;
    assert ms * (f * 10_000_000) == 10_000 * (1000 * (f * ms));
  }

  /**
   * The reported parts never add up to more than the reported period by more than `carried`
   * allows, whatever the divisions and 32-bit casts drop: when the times noted in the window
   * exceed its length by no more than that.
   */
  lemma FrameBudget(w: Window, elapsed: nat, before: Rates, carried: nat)
    requires elapsed > 0
    ensures w.vsyncUs + w.readUs + w.sendUs <= elapsed + carried ==>
      Budget(RatesOf(w, elapsed, before)) * elapsed <= 10_000 * (elapsed + carried)
    ensures w.vsyncUs + w.readUs + w.sendUs + w.drainUs <= elapsed + carried ==>
      Period(RatesOf(w, elapsed, before)) * elapsed <= 10_000 * (elapsed + carried)
  {
    if w.frames > 0 {
      var r, f := RatesOf(w, elapsed, before), w.frames;
      DivTimes(f * 10_000_000, elapsed);
      TimesOrder(elapsed, r.fpsX10, f * 10_000_000 / elapsed);
      NotedAtMost(w);
      hide PerFrame;
      var three, four := r.vsyncMs + r.readMs + r.sendMs, r.vsyncMs + r.readMs + r.sendMs + r.drainMs;
      if w.vsyncUs + w.readUs + w.sendUs <= elapsed + carried {
        RateTimes(f, three, r.fpsX10, elapsed, elapsed + carried);
      }
      if w.vsyncUs + w.readUs + w.sendUs + w.drainUs <= elapsed + carried {
        RateTimes(f, four, r.fpsX10, elapsed, elapsed + carried);
      }
    }
  }

  /** The averages, times the frames, are within what was noted. */
  lemma NotedAtMost(w: Window)
    requires w.frames > 0
    ensures var f := w.frames;
      var a, b, c, d := PerFrame(w.vsyncUs, f, 1000), PerFrame(w.readUs, f, 1000), PerFrame(w.sendUs, f, 1000), PerFrame(w.drainUs, f, 1000);
      && 1000 * (f * (a + b + c)) <= w.vsyncUs + w.readUs + w.sendUs
      && 1000 * (f * (a + b + c + d)) <= w.vsyncUs + w.readUs + w.sendUs + w.drainUs
  {
    var f := w.frames;
    PerFrameAtMost(w.vsyncUs, f);
    PerFrameAtMost(w.readUs, f);
    PerFrameAtMost(w.sendUs, f);
    PerFrameAtMost(w.drainUs, f);
    Distribute(f, PerFrame(w.vsyncUs, f, 1000), PerFrame(w.readUs, f, 1000), PerFrame(w.sendUs, f, 1000), PerFrame(w.drainUs, f, 1000));
    hide PerFrame;
  }

  lemma Distribute(f: nat, a: nat, b: nat, c: nat, d: nat)
    ensures f * (a + b + c) == f * a + f * b + f * c
    ensures f * (a + b + c + d) == f * (a + b + c) + f * d
  {
  }

  /** `x` is the whole number of `unit`s in `total`. */
  predicate Whole(x: nat, unit: nat, total: nat) {
    unit * x <= total < unit * (x + 1)
  }

  lemma WholeIs(total: nat, unit: nat)
    requires unit > 0
    ensures Whole(total / unit, unit, total)
  {
    var q := total / unit;
    assert total == unit * q + total % unit;
    assert unit * (q + 1) == unit * q + unit;
  }

  lemma Regroup(a: nat, b: nat, c: nat)
    ensures a * (b * c) == (a * b) * c
  {
  }

  /** Truncated twice, to whole microseconds and then to whole units, is truncated once. */
  lemma WholeTwice(x: nat, unit: nat, each: nat, frames: nat, total: nat)
    requires Whole(each, frames, total) && Whole(x, unit, each)
    ensures Whole(x, frames * unit, total)
  {
    TimesOrder(frames, unit * x, each);
    TimesOrder(frames, each + 1, unit * (x + 1));
    Regroup(frames, unit, x);
    Regroup(frames, unit, x + 1);
  }

  lemma WholeBelow(x: nat, unit: nat, total: nat, bound: nat)
    requires Whole(x, unit, total) && total < bound * unit
    ensures x < bound
  {
    if x >= bound {
      TimesOrder(unit, bound, x);
    }
  }

  lemma AverageIs(total: nat, frames: nat, unit: nat)
    requires frames > 0 && unit > 0 && total < U32 * (frames * unit)
    ensures Whole(PerFrame(total, frames, unit), frames * unit, total)
  {
    var each := total / frames;
    WholeIs(total, frames);
    WholeIs(each, unit);
    WholeTwice(each / unit, unit, each, frames, total);
    hide Whole;
    WholeBelow(each / unit, frames * unit, total, U32);
  }

  /**
   * The report says what happened in the window: the rate is the frames counted in it per ten
   * seconds, and every part the average over those frames, each rounded down once.
   */
  ghost predicate Averages(r: Rates, w: Window, elapsed: nat) {
    && Whole(r.fpsX10, elapsed, w.frames * 10_000_000)
    && Whole(r.vsyncMs, w.frames * 1000, w.vsyncUs) && Whole(r.readMs, w.frames * 1000, w.readUs)
    && Whole(r.sendMs, w.frames * 1000, w.sendUs) && Whole(r.drainMs, w.frames * 1000, w.drainUs)
    && Whole(r.frameKb, w.frames * 1024, w.bytes)
  }

  /** What a rollover makes of a window: the averages, if there were frames and they fit the report. */
  ghost predicate Reported(r: Rates, before: Rates, w: Window, elapsed: nat) {
    if w.frames == 0 then r == before.(fpsX10 := 0) else Reportable(w) ==> Averages(r, w, elapsed)
  }

  /** The totals of a window that the 32-bit report can hold. */
  ghost predicate Reportable(w: Window) {
    && w.frames * 10 < U32
    && w.vsyncUs < U32 * (w.frames * 1000) && w.readUs < U32 * (w.frames * 1000)
    && w.sendUs < U32 * (w.frames * 1000) && w.drainUs < U32 * (w.frames * 1000)
    && w.bytes < U32 * (w.frames * 1024)
  }

  lemma RatesAreAverages(w: Window, elapsed: nat, before: Rates)
    requires elapsed >= WINDOW_US && w.frames > 0 && Reportable(w)
    ensures Averages(RatesOf(w, elapsed, before), w, elapsed)
  {
    var n := w.frames;
    RateIs(n, elapsed);
    AverageIs(w.vsyncUs, n, 1000);
    AverageIs(w.readUs, n, 1000);
    AverageIs(w.sendUs, n, 1000);
    AverageIs(w.drainUs, n, 1000);
    AverageIs(w.bytes, n, 1024);
    hide PerFrame, Whole;
  }

  lemma ModSmall(q: nat)
    requires q < U32
    ensures q % U32 == q
  {
  }

  lemma QuotientFits(total: nat, elapsed: nat)
    requires elapsed >= WINDOW_US && total < U32 * WINDOW_US
    ensures Whole(total / elapsed % U32, elapsed, total)
  {
    var q := total / elapsed;
    WholeIs(total, elapsed);
    BelowBound(q, elapsed, total);
    ModSmall(q);
  }

  lemma BelowBound(q: nat, elapsed: nat, total: nat)
    requires elapsed >= WINDOW_US && total < U32 * WINDOW_US && Whole(q, elapsed, total)
    ensures q < U32
  {
    TimesOrder(U32, WINDOW_US, elapsed);
    assert U32 * elapsed == elapsed * U32;
    WholeBelow(q, elapsed, total, U32);
  }

  lemma RateIs(frames: nat, elapsed: nat)
    requires elapsed >= WINDOW_US && frames * 10 < U32
    ensures Whole(frames * 10_000_000 / elapsed % U32, elapsed, frames * 10_000_000)
  {
    QuotientFits(frames * 10_000_000, elapsed);
  }

  /** The load is what was served, in kbit/s rounded down. */
  lemma KbpsIs(bytes: nat, elapsed: nat)
    requires elapsed >= WINDOW_US && bytes < U32
    ensures Whole(KbpsOf(bytes, elapsed), elapsed, bytes * 8000)
  {
    QuotientFits(bytes * 8000, elapsed);
  }

  /** With nothing carried in, the parts fit the period. */
  lemma BudgetKept(budget: nat, elapsed: nat)
    requires elapsed > 0 && budget * elapsed <= 10_000 * elapsed
    ensures budget <= 10_000
  {
    if budget > 10_000 {
      TimesOrder(elapsed, 10_001, budget);
    }
  }

  // ------------------------------ The running state ------------------------------

  /** A frame captured and going out. */
  datatype Pending = Pending(vsyncUs: nat, readUs: nat, started: nat)

  /** What a rollover reported; `carried` and `drained`: what the frame or the drain in progress
      had already taken when that window began. */
  datatype Report = Report(rates: Rates, elapsed: nat, carried: nat, drained: nat)

  /** The parts exceed the period by no more than what was carried into the window. */
  ghost predicate ReportOk(r: Report) {
    && r.elapsed >= WINDOW_US
    && Budget(r.rates) * r.elapsed <= 10_000 * (r.elapsed + r.carried)
    && Period(r.rates) * r.elapsed <= 10_000 * (r.elapsed + r.carried + r.drained)
  }

  lemma ReportedOk(w: Window, elapsed: nat, before: Rates, carried: nat, drained: nat)
    requires elapsed >= WINDOW_US
    requires w.vsyncUs + w.readUs + w.sendUs <= elapsed + carried
    requires w.vsyncUs + w.readUs + w.sendUs + w.drainUs <= elapsed + carried + drained
    ensures var r := RatesOf(w, elapsed, before);
      ReportOk(Report(r, elapsed, carried, drained)) && (carried == 0 ==> Budget(r) <= 10_000)
    ensures Reported(RatesOf(w, elapsed, before), before, w, elapsed)
  {
    hide Averages, Reportable;
    if w.frames > 0 && Reportable(w) {
      RatesAreAverages(w, elapsed, before);
    }
    FrameBudget(w, elapsed, before, carried);
    FrameBudget(w, elapsed, before, carried + drained);
    hide RatesOf, Budget, Period;
    if carried == 0 {
      BudgetKept(Budget(RatesOf(w, elapsed, before)), elapsed);
    }
  }

  class Camera {
    var now: nat           // microseconds since boot
    var winStart: nat
    var window: Window
    var rates: Rates
    var loadBytes: nat
    var loadKbps: nat
    var frameCount: nat
    var dropCount: nat
    var failStreak: nat
    var pending: Option<Pending>
    var drainStart: Option<nat>
    ghost var carried: nat
    ghost var drained: nat
    ghost var reports: seq<Report>
    ghost var history: seq<CaptureEvent>

    /** What the frame in progress has taken so far. */
    function Spent(): nat
      reads this
    {
      if pending.Some? && pending.value.started <= now
      then pending.value.vsyncUs + pending.value.readUs + (now - pending.value.started) else 0
    }

    /** What the drain in progress has taken so far. */
    function Draining(): nat
      reads this
    {
      if drainStart.Some? && drainStart.value <= now then now - drainStart.value else 0
    }

    /** Everything noted or in progress fits the window, but for what was carried into it. */
    ghost predicate Inside()
      reads this
    {
      && winStart <= now
      && (pending.Some? ==> pending.value.started <= now)
      && (drainStart.Some? ==> drainStart.value <= now && pending.None?)
      && var noted := window.vsyncUs + window.readUs + window.sendUs;
      && noted + Spent() <= now - winStart + carried
      && noted + window.drainUs + Spent() + Draining() <= now - winStart + carried + drained
    }

    /** Recovery comes at every tenth failure in a row, so the counter is the rest. */
    ghost predicate Valid()
      reads this
    {
      && Inside() && failStreak == TrailingFailures(history) % FAIL_STREAK_RECOVER
      && forall r <- reports :: ReportOk(r)
    }

    /** No window so far began in the middle of a frame. */
    ghost predicate Calm()
      reads this
    {
      carried == 0 && forall r <- reports :: r.carried == 0
    }

    constructor (now: nat)
      ensures Valid() && Calm() && window == NO_FRAMES && this.now == now == winStart && failStreak == 0
      ensures pending == None && drainStart == None && reports == [] && drained == 0
    {
      this.now, winStart, window := now, now, NO_FRAMES;
      rates := Rates(0, 0, 0, 0, 0, 0);
      loadBytes, loadKbps, frameCount, dropCount, failStreak := 0, 0, 0, 0, 0;
      pending, drainStart := None, None;
      carried, drained, reports, history := 0, 0, [], [];
    }

    method Wait(us: nat)
      requires Valid()
      modifies `now
      ensures Valid() && now == old(now) + us
    {
      now := now + us;
    }

    /** The window restarts, in the middle of a frame or a drain if there is one. */
    method MetricsReset()
      requires Valid()
      modifies `window, `winStart, `loadBytes, `carried, `drained
      ensures Valid() && window == NO_FRAMES && winStart == now && loadBytes == 0
      ensures carried == Spent() && drained == Draining()
    {
      window, winStart, loadBytes := NO_FRAMES, now, 0;
      carried, drained := Spent(), Draining();
    }

    /** A good capture: the wait for it, its readout, and whatever else comes before the send. */
    method Capture(vsyncUs: nat, readUs: nat, otherUs: nat)
      requires Valid() && pending.None? && drainStart.None?
      modifies `now, `failStreak, `history, `pending
      ensures Valid() && failStreak == 0 && history == old(history) + [Captured]
      ensures now == old(now) + vsyncUs + readUs + otherUs && pending == Some(Pending(vsyncUs, readUs, now))
    {
      hide TrailingFailures, ReportOk;
      Wait(vsyncUs);
      Wait(readUs);
      NoteCaptureOk();
      Wait(otherUs);
      pending := Some(Pending(vsyncUs, readUs, now));
    }

    /** The frame has been sent: its times go into whichever window is open. */
    method NoteFrame(bytes: nat)
      requires Valid() && pending.Some?
      modifies `frameCount, `window, `pending
      ensures Valid() && pending.None? && frameCount == old(frameCount) + 1
      ensures var p := old(pending.value); var w := old(window);
        window == Window(w.frames + 1, w.vsyncUs + p.vsyncUs, w.readUs + p.readUs,
                         w.sendUs + (now - p.started), w.drainUs, w.bytes + bytes)
    {
      var p := pending.value;
      frameCount := frameCount + 1;
      window := Window(window.frames + 1, window.vsyncUs + p.vsyncUs, window.readUs + p.readUs,
                       window.sendUs + (now - p.started), window.drainUs, window.bytes + bytes);
      pending := None;
    }

    /** The frame in progress, or its drain, is given up: its connection is gone. */
    method DropFrame()
      requires Valid()
      modifies `pending, `drainStart
      ensures Valid() && pending.None? && drainStart.None?
    {
      pending, drainStart := None, None;
    }

    method StartDrain()
      requires Valid() && drainStart.None? && pending.None?
      modifies `drainStart
      ensures Valid() && drainStart == Some(now)
    {
      drainStart := Some(now);
    }

    /** The drain is over: the wait goes into whichever window is open. */
    method NoteDrain()
      requires Valid() && drainStart.Some?
      modifies `window, `drainStart
      ensures Valid() && drainStart.None?
      ensures window == old(window).(drainUs := old(window.drainUs) + (now - old(drainStart.value)))
    {
      window := window.(drainUs := window.drainUs + (now - drainStart.value));
      drainStart := None;
    }

    /** The window has lasted a second: report it and start the next. */
    method RollOver(elapsed: nat)
      requires Valid() && pending.None? && elapsed == now - winStart >= WINDOW_US
      modifies `window, `winStart, `rates, `loadBytes, `loadKbps, `carried, `drained, `reports
      ensures Valid() && (old(Calm()) ==> Calm() && Budget(rates) <= 10_000)
      ensures window == NO_FRAMES && winStart == now && loadBytes == 0
      ensures Reported(rates, old(rates), old(window), elapsed)
      ensures old(loadBytes) < U32 ==> Whole(loadKbps, elapsed, old(loadBytes) * 8000)
      ensures reports == old(reports) + [Report(rates, elapsed, old(carried), old(drained))]
      ensures rates == RatesOf(old(window), elapsed, old(rates))
    {
      ReportedOk(window, elapsed, rates, carried, drained);
      if loadBytes < U32 {
        KbpsIs(loadBytes, elapsed);
      }
      hide RatesOf, KbpsOf, Budget, TrailingFailures, ReportOk, Reported, Whole;
      rates := RatesOf(window, elapsed, rates);
      loadKbps := KbpsOf(loadBytes, elapsed);
      loadBytes := 0;
      reports := reports + [Report(rates, elapsed, carried, drained)];
      window, winStart := NO_FRAMES, now;
      carried, drained := 0, Draining();
    }

    /** Roll the window over once it has lasted a second; never in the middle of a frame, but
        perhaps of a drain. */
    method MetricsUpdate() returns (rolled: bool)
      requires Valid() && pending.None?
      modifies `window, `winStart, `rates, `loadBytes, `loadKbps, `carried, `drained, `reports
      ensures Valid() && (old(Calm()) ==> Calm())
      ensures rolled <==> now - old(winStart) >= WINDOW_US
      ensures rolled ==> window == NO_FRAMES && winStart == now && loadBytes == 0
      ensures rolled ==> Reported(rates, old(rates), old(window), now - old(winStart))
      ensures rolled && old(loadBytes) < U32 ==> Whole(loadKbps, now - old(winStart), old(loadBytes) * 8000)
      ensures rolled ==> reports == old(reports) + [Report(rates, now - old(winStart), old(carried), old(drained))]
      ensures rolled ==> rates == RatesOf(old(window), now - old(winStart), old(rates))
      ensures rolled && old(Calm()) ==> Budget(rates) <= 10_000
      ensures !rolled ==> window == old(window) && winStart == old(winStart) && rates == old(rates)
      ensures !rolled ==> loadBytes == old(loadBytes) && loadKbps == old(loadKbps) && reports == old(reports)
      ensures !rolled ==> carried == old(carried) && drained == old(drained)
    {
      hide Valid, Calm, RatesOf, Budget, Reported, Whole;
      WindowOpen();
      var elapsed := now - winStart;
      if elapsed < WINDOW_US {
        return false;
      }
      RollOver(elapsed);
      return true;
    }

    lemma WindowOpen()
      requires Valid()
      ensures winStart <= now
    {
    }

    /** One frame in the order of the TOE build: wait, read, send, note, roll over. */
    method PushFrame(vsyncUs: nat, readUs: nat, otherUs: nat, sendUs: nat, bytes: nat) returns (rolled: bool)
      requires Valid() && pending.None? && drainStart.None?
      modifies this
      ensures Valid() && pending.None? && (old(Calm()) ==> Calm()) && failStreak == 0
      ensures now == old(now) + vsyncUs + readUs + otherUs + sendUs && frameCount == old(frameCount) + 1
      ensures var w := old(window);
        var noted := Window(w.frames + 1, w.vsyncUs + vsyncUs, w.readUs + readUs, w.sendUs + sendUs, w.drainUs, w.bytes + bytes);
        if rolled then Reported(rates, old(rates), noted, now - old(winStart)) else window == noted
      ensures rolled <==> now - old(winStart) >= WINDOW_US
      ensures rolled && old(Calm()) ==> Budget(rates) <= 10_000
    {
      hide Valid, Inside, Spent, RatesOf, KbpsOf, Budget, Reported, Whole;
      Capture(vsyncUs, readUs, otherUs);
      Wait(sendUs);
      NoteFrame(bytes);
      rolled := MetricsUpdate();
    }

    method NoteCaptureOk()
      requires Valid()
      modifies `failStreak, `history
      ensures Valid() && failStreak == 0 && history == old(history) + [Captured]
    {
      failStreak := 0;
      history := history + [Captured];
    }

    method Recover()
      requires Inside() && forall r <- reports :: ReportOk(r)
      requires TrailingFailures(history) % FAIL_STREAK_RECOVER == 0
      modifies `failStreak, `window, `winStart, `loadBytes, `carried, `drained
      ensures Valid() && failStreak == 0 && window == NO_FRAMES && winStart == now && loadBytes == 0
      ensures carried == Spent() && drained == Draining()
    {
      failStreak := 0;
      MetricsReset();
    }

    /** A recovery asked for by the page. */
    method Reset()
      requires Valid()
      modifies this
      ensures Valid() && failStreak == 0 && history == old(history) + [Recovered] && now == old(now)
      ensures pending == old(pending) && drainStart == old(drainStart) && reports == old(reports)
      ensures window == NO_FRAMES && winStart == now && carried == Spent()
      ensures old(Calm()) && pending.None? ==> Calm()
    {
      history := history + [Recovered];
      Recover();
    }

    method NoteDropped()
      requires Valid()
      modifies `dropCount
      ensures Valid() && dropCount == old(dropCount) + 1
    {
      dropCount := dropCount + 1;
    }

    /** A failed capture; the sensor is recovered at exactly every tenth one in a row. */
    method NoteCaptureFail() returns (recovered: bool)
      requires Valid()
      modifies this
      ensures Valid() && history == old(history) + [Failed] && now == old(now)
      ensures recovered <==> TrailingFailures(history) % FAIL_STREAK_RECOVER == 0
      ensures dropCount == old(dropCount) + 1
      ensures pending == old(pending) && drainStart == old(drainStart) && reports == old(reports)
      ensures recovered ==> window == NO_FRAMES && winStart == now && carried == Spent()
      ensures !recovered ==> window == old(window) && winStart == old(winStart) && carried == old(carried)
      ensures old(Calm()) && pending.None? ==> Calm()
    {
      StreakNext(history);
      hide TrailingFailures, ReportOk;
      dropCount := dropCount + 1;
      history := history + [Failed];
      failStreak := failStreak + 1;
      if failStreak >= FAIL_STREAK_RECOVER {
        Recover();
        return true;
      }
      return false;
    }

    /**
     * Frames, idle and other updates, failures, drops, drains and resets, in any order and for
     * any times. Every rollover reports parts that exceed the period by no more than what the
     * frame in progress had taken when a reset cut into it. If no reset does, as on the TOE
     * build, where a request is served between frames, they never exceed it at all.
     */
    method Run(steps: nat, calm: bool)
      requires Valid() && (calm ==> Calm())
      modifies this
      ensures Valid()
      ensures calm ==> forall r <- reports :: Budget(r.rates) <= 10_000
    {
      hide ReportOk, TrailingFailures, Spent, Draining, Inside;
      for i := 0 to steps
        invariant Valid() && (calm ==> Calm())
      {
        var kind: nat, us: nat, more: nat, other: nat := *, *, *, *;
        if kind == 0 && pending.None? && drainStart.None? {
          Capture(us, more, other);
        } else if kind == 1 {
          Wait(us);
        } else if kind == 2 && pending.Some? {
          NoteFrame(us);
        } else if kind == 3 {
          DropFrame();
        } else if kind == 4 && pending.None? {
          var rolled := MetricsUpdate();
        } else if kind == 5 && (pending.None? || !calm) {
          Reset();
        } else if kind == 6 && pending.None? {
          var recovered := NoteCaptureFail();
        } else if kind == 7 && drainStart.None? && pending.None? {
          StartDrain();
        } else if kind == 8 && drainStart.Some? {
          NoteDrain();
        } else {
          NoteDropped();
        }
      }
      CalmReports(reports);
    }
  }

  lemma CalmReports(reports: seq<Report>)
    requires forall r <- reports :: ReportOk(r)
    ensures (forall r <- reports :: r.carried == 0) ==> forall r <- reports :: Budget(r.rates) <= 10_000
  {
    forall r | r in reports && r.carried == 0
      ensures Budget(r.rates) <= 10_000
    {
      BudgetKept(Budget(r.rates), r.elapsed);
    }
  }

  /** Microseconds as reported for a single frame. */
  function Ms(us: nat): nat {
    us / 1000 % U32
  }

  lemma OneFrame(vsyncUs: nat, readUs: nat, sendUs: nat, elapsed: nat, before: Rates)
    requires elapsed >= WINDOW_US
    ensures var b := Budget(RatesOf(Window(1, vsyncUs, readUs, sendUs, 0, 0), elapsed, before));
      && b == (Ms(vsyncUs) + Ms(readUs) + Ms(sendUs)) * (10_000_000 / elapsed)
      && (vsyncUs + readUs + sendUs <= elapsed ==> b <= 10_000)
  {
    var w := Window(1, vsyncUs, readUs, sendUs, 0, 0);
    OneFrameRates(vsyncUs, readUs, sendUs, elapsed, before);
    FrameBudget(w, elapsed, before, 0);
    hide RatesOf;
    if vsyncUs + readUs + sendUs <= elapsed {
      BudgetKept(Budget(RatesOf(w, elapsed, before)), elapsed);
    }
  }

  lemma OneFrameRates(vsyncUs: nat, readUs: nat, sendUs: nat, elapsed: nat, before: Rates)
    requires elapsed >= WINDOW_US
    ensures var r := RatesOf(Window(1, vsyncUs, readUs, sendUs, 0, 0), elapsed, before);
      r.vsyncMs == Ms(vsyncUs) && r.readMs == Ms(readUs) && r.sendMs == Ms(sendUs) && r.fpsX10 == 10_000_000 / elapsed
  {
    AtMostTen(elapsed);
  }

  lemma AtMostTen(elapsed: nat)
    requires elapsed >= WINDOW_US
    ensures 10_000_000 / elapsed <= 10
  {
    if 10_000_000 / elapsed > 10 {
      DivTimes(10_000_000, elapsed);
      TimesOrder(elapsed, 11, 10_000_000 / elapsed);
    }
  }

  /**
   * On the lwIP build a request served while a frame is going out may restart the window. For
   * every capture, every send time, every moment of the reset in it and every wait until the
   * window rolls over: exactly when the frame's parts then exceed the period. Never, if the
   * window after the send outlasts what the frame had taken before the reset.
   */
  method ResetDuringSend(vsyncUs: nat, readUs: nat, before: nat, after: nat, wait: nat) returns (r: Rates)
    requires after + wait >= WINDOW_US
    ensures Budget(r) > 10_000 <==>
      (Ms(vsyncUs) + Ms(readUs) + Ms(before + after)) * (10_000_000 / (after + wait)) > 10_000
    ensures vsyncUs + readUs + before <= wait ==> Budget(r) <= 10_000
  {
    hide RatesOf, Budget, Ms, Camera.Valid, Camera.Spent, Camera.Calm;
    var camera := new Camera(0);
    camera.Capture(vsyncUs, readUs, 0);
    camera.Wait(before);
    camera.Reset();
    camera.Wait(after);
    camera.NoteFrame(0);
    assert camera.window == Window(1, vsyncUs, readUs, before + after, 0, 0);
    camera.Wait(wait);
    OneFrame(vsyncUs, readUs, before + after, after + wait, camera.rates);
    var rolled := camera.MetricsUpdate();
    r := camera.rates;
  }
}
