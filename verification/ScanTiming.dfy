/** When frames and sub-frames happen, in exact arithmetic. */
module ScanTiming {
  import opened StringUtils
  import opened Protocol
  import opened Device
  import opened ScanModel
  import opened ScanProofs
  import opened ScanResults

  // ---- Sub-frames ---------------------------------------------------------------------------------------

  lemma SubPeriodReal(rate: real, n: nat)
    requires rate > 0.0 && n > 0
    ensures 1000000000.0 / rate == n as real * (1000000000.0 / (rate * n as real))
  {
    var x, m := 1000000000.0 / rate, n as real;
    var y := 1000000000.0 / (rate * m);
    assert x * rate == 1000000000.0 && y * (rate * m) == 1000000000.0;
    assert (m * y) * rate == 1000000000.0;
    SameProduct(x, m * y, rate);
  }

  lemma SameProduct(x: real, y: real, rate: real)
    requires rate > 0.0 && x * rate == y * rate
    ensures x == y
  {
  }

  lemma FloorBetween(x: real, low: int, high: int)
    requires low as real <= x < high as real
    ensures low <= x.Floor < high
  {
  }

  /** n truncated sub-frames never pass the end of the truncated frame, and end less than n
      nanoseconds before it. */
  lemma SubFramesFit(rate: real, n: nat)
    requires RateOk(rate) && n > 0
    ensures n * SubPeriod(rate, n) <= Period(rate) < n * SubPeriod(rate, n) + n
  {
    SubPeriodReal(rate, n);
    TimesFloor(n, 1000000000.0 / (rate * n as real));
    FloorBetween(1000000000.0 / rate, n * SubPeriod(rate, n), n * SubPeriod(rate, n) + n);
  }

  lemma TimesFloor(n: nat, y: real)
    requires n > 0
    ensures (n * y.Floor) as real <= n as real * y < (n * y.Floor + n) as real
  {
    TimesFloorBelow(n, y, y.Floor);
    TimesFloorAbove(n, y, y.Floor);
  }

  lemma TimesFloorBelow(n: nat, y: real, q: int)
    requires n > 0 && q as real <= y
    ensures (n * q) as real <= n as real * y
  {
    Scale(n as real, q as real, y);
    CastProduct(n, q);
  }

  lemma TimesFloorAbove(n: nat, y: real, q: int)
    requires n > 0 && y < q as real + 1.0
    ensures n as real * y < (n * q + n) as real
  {
    var low, high := n as real * q as real, n as real * (q as real + 1.0);
    Scale(n as real, y, q as real + 1.0);
    Distribute(n as real, q as real);
    CastProduct(n, q);
    assert high == low + n as real && (n * q + n) as real == low + n as real;
  }

  lemma Distribute(m: real, q: real)
    ensures m * (q + 1.0) == m * q + m
  {
  }

  lemma CastProduct(n: nat, q: int)
    ensures (n * q) as real == n as real * q as real
  {
  }

  /** In every run: when a frame during which rate and sub-frame count did not change has been
      sampled, its last sub-frame has not passed the frame's end and misses it by less than as
      many nanoseconds as there were sub-frames. */
  lemma SubFramesFitFrame(p: Protocol, e: Engine)
    requires RangeOk(p) && Reachable(p, e) && e.thread.Delivering? && e.thread.s.steady
    ensures var s := e.thread.s; 0 <= s.end - s.subStart < s.averages
  {
    ReachableInv(p, e);
    SubFramesFit(e.thread.s.rate, e.thread.s.averages);
  }

  // ---- Frames -------------------------------------------------------------------------------------------

  /** In every run: frames are numbered from one without gap or repeat (modulo the 32-bit counter),
      each starts where the one before ends, and, unless the scan was started behind the thread's
      back, each packet's two time fields recompose to the time from the scan start. */
  lemma FramesAreChained(p: Protocol, e: Engine, k: nat)
    requires RangeOk(p) && Reachable(p, e) && k < |e.frames|
    ensures var f := e.frames[k];
            && f.number == (k + 1) % COUNTER
            && f.start == (if k == 0 then e.origin else e.frames[k - 1].end)
            && f.rate > 0.0 && f.end == f.start + Period(f.rate)
            && (!e.stale ==> Timed(f, e.origin))
  {
    ReachableInv(p, e);
    assert FrameAt(e.frames, k, e.origin, e.stale);
  }

  /** The two time fields recompose to the time from the scan start if and only if that is less than
      2^32 seconds. */
  lemma FieldsRecomposeIff(f: Frame, origin: int)
    requires Timed(f, origin)
    ensures 0 <= f.nanoseconds < SECOND
    ensures f.seconds * SECOND + f.nanoseconds == f.start - origin <==> f.start - origin < COUNTER * SECOND
  {
    var t := f.start - origin;
    assert t == t / SECOND * SECOND + t % SECOND;
    if t >= COUNTER * SECOND {
      assert t / SECOND >= COUNTER;
    }
  }

  ghost predicate AtRate(frames: seq<Frame>, rate: real) {
    forall k :: 0 <= k < |frames| ==> frames[k].rate == rate
  }

  lemma {:induction false} ConstantRateStart(p: Protocol, e: Engine, rate: real, k: nat)
    requires RangeOk(p) && Reachable(p, e) && k < |e.frames| && AtRate(e.frames, rate) && RateOk(rate)
    ensures e.frames[k].start == e.origin + k * Period(rate)
  {
    FramesAreChained(p, e, k);
    if k == 0 {
    } else {
      FramesAreChained(p, e, k - 1);
      ConstantRateStart(p, e, rate, k - 1);
      OneMore(k - 1, Period(rate));
    }
  }

  lemma OneMore(k: nat, length: int)
    ensures k * length + length == (k + 1) * length
  {
  }

  /** At a constant rate, frame k + 1 starts exactly k truncated periods after the scan start, its
      packet says so before the seconds wrap, and this is behind the ideal time by less than k nanoseconds. */
  lemma ConstantRateTiming(p: Protocol, e: Engine, rate: real, k: nat)
    requires RangeOk(p) && Reachable(p, e) && k < |e.frames| && AtRate(e.frames, rate) && RateOk(rate)
    ensures e.frames[k].start == e.origin + k * Period(rate)
    ensures !e.stale ==>
              && 0 <= e.frames[k].nanoseconds < SECOND
              && (e.frames[k].seconds * SECOND + e.frames[k].nanoseconds == k * Period(rate)
                  <==> k * Period(rate) < COUNTER * SECOND)
    ensures k as real * Period(rate) as real <= k as real * (1000000000.0 / rate)
    ensures k > 0 ==> k as real * (1000000000.0 / rate) < k as real * Period(rate) as real + k as real
  {
    ConstantRateStart(p, e, rate, k);
    FramesAreChained(p, e, k);
    if !e.stale {
      FieldsRecomposeIff(e.frames[k], e.origin);
    }
    var x, q := 1000000000.0 / rate, Period(rate) as real;
    if k > 0 {
      Scale(k as real, q, x);
      Scale(k as real, x, q + 1.0);
      Distribute(k as real, q);
    }
  }

  /** The time fields of packets increase strictly, even when the rate changes meanwhile, as long
      as no rate exceeds 10^9 and the seconds have not wrapped. */
  lemma {:induction false} TimesIncrease(p: Protocol, e: Engine, k: nat, l: nat)
    requires RangeOk(p) && Reachable(p, e) && !e.stale && k < l < |e.frames|
    requires forall j :: 0 <= j < |e.frames| ==> e.frames[j].rate <= 1000000000.0
    requires e.frames[l].start - e.origin < COUNTER * SECOND
    ensures e.frames[k].start < e.frames[l].start
    ensures var f, g := e.frames[k], e.frames[l];
            f.seconds < g.seconds || (f.seconds == g.seconds && f.nanoseconds < g.nanoseconds)
    decreases l - k
  {
    FramesAreChained(p, e, k);
    FramesAreChained(p, e, l);
    FramesAreChained(p, e, l - 1);
    AtLeastOne(e.frames[l - 1].rate);
    if k < l - 1 {
      TimesIncrease(p, e, k, l - 1);
    }
    Lexicographic(e.frames[k], e.frames[l], e.origin);
  }

  lemma AtLeastOne(rate: real)
    requires 0.0 < rate <= 1000000000.0
    ensures Period(rate) >= 1
  {
    var x := 1000000000.0 / rate;
    assert x * rate == 1000000000.0;
    if x < 1.0 {
      Scale(rate, x, 1.0);
      assert false;
    }
  }

  lemma Lexicographic(f: Frame, g: Frame, origin: int)
    requires Timed(f, origin) && Timed(g, origin) && f.start < g.start < origin + COUNTER * SECOND
    ensures f.seconds < g.seconds || (f.seconds == g.seconds && f.nanoseconds < g.nanoseconds)
  {
  }

  // ---- Scans that are timed from an older start ---------------------------------------------------------

  /** Whenever a scan begins, the clock has gone on since the one before began. */
  predicate LaterStart(p: Protocol, e: Engine, a: Action) {
    a.Step? || e.dev.scanning || !Commanded(p, e.dev, a).scanning
    || Commanded(p, e.dev, a).scanStart > e.dev.scanStart
  }

  ghost predicate ClockRun(p: Protocol, e: Engine, actions: seq<Action>)
    requires Run(p, e, actions)
    decreases |actions|
  {
    actions != [] ==> LaterStart(p, e, actions[0]) && ClockRun(p, Next(p, e, actions[0]), actions[1..])
  }

  ghost predicate ReachableInTime(p: Protocol, e: Engine) {
    exists cfg: Config, actions: seq<Action> ::
      RateOk(cfg.rate) && Run(p, Init(cfg), actions) && ClockRun(p, Init(cfg), actions)
          && After(p, Init(cfg), actions) == e
  }

  /** The scan start has moved away from the one that the thread has read, and forwards, exactly
      when a scan was started inside the loop. */
  ghost predicate StaleInv(e: Engine) {
    Inside(e.thread) ==> e.dev.scanStart >= e.origin && (e.stale <==> e.dev.scanStart != e.origin)
  }

  lemma StaleStep(p: Protocol, e: Engine, a: Action)
    requires RangeOk(p) && Inv(p, e) && StaleInv(e) && Enabled(p, e, a) && LaterStart(p, e, a)
    ensures StaleInv(Next(p, e, a))
  {
    if a.Step? {
      return;
    }
    ClientKeeps(p, e.dev, a);
    if !e.dev.scanning && Commanded(p, e.dev, a).scanning {
      return;
    }
    assert Next(p, e, a).dev.scanStart == e.dev.scanStart;
  }

  lemma {:induction false} StaleRun(p: Protocol, e: Engine, actions: seq<Action>)
    requires RangeOk(p) && Inv(p, e) && StaleInv(e) && Run(p, e, actions) && ClockRun(p, e, actions)
    ensures StaleInv(After(p, e, actions))
    decreases |actions|
  {
    if actions == [] {
    } else {
      StepInv(p, e, actions[0]);
      StaleStep(p, e, actions[0]);
      StaleRun(p, Next(p, e, actions[0]), actions[1..]);
    }
  }

  /** In every run: a frame that begins carries the true time from the start that the thread follows
      if and only if no scan has been started since the thread entered the loop.  Such a start is a
      scan begun between the thread's reading of the start time and its test of the flag, or a stop
      and restart inside one frame. */
  lemma FrameIsTimedIff(p: Protocol, e: Engine)
    requires RangeOk(p) && ReachableInTime(p, e) && e.thread.Between? && e.dev.scanning
    ensures RateOk(e.dev.cfg.rate)
    ensures BeginFrame(e).thread.s.elapsed == e.thread.start - e.origin <==> !e.stale
    ensures BeginFrame(e).thread.s.elapsed <= e.thread.start - e.origin
  {
    var cfg: Config, actions: seq<Action> :|
      RateOk(cfg.rate) && Run(p, Init(cfg), actions) && ClockRun(p, Init(cfg), actions)
          && After(p, Init(cfg), actions) == e;
    assert Inv(p, Init(cfg));
    StaleRun(p, Init(cfg), actions);
    RunInv(p, Init(cfg), actions);
  }

  /** A scan that is started after the thread has read the scan start, and before it tests the
      scanning flag, is timed from the older start: its first frame lies before the scan. */
  lemma StaleScanIsMistimed(p: Protocol, cfg: Config)
    requires RangeOk(p) && RateOk(cfg.rate)
    ensures exists e :: Reachable(p, e) && e.thread.Sampling? && e.thread.s.elapsed < 0
  {
    var drawn := seq(MAX_CHANNELS, j => 0.0);
    var amb := Ambient(5 * SECOND, 0, 0);
    var e0 := InitReachable(p, cfg);
    var e1 := Take(p, e0, Step(drawn));
    var e2 := Take(p, e1, Step(drawn));
    AveragesInRange(cfg.rate, amb);
    var e3 := Take(p, e2, BinaryStart(amb));
    ReachableInv(p, e3);
    var e4 := Take(p, e3, Step(drawn));
  }
}
