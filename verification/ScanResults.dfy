/** The scan engine's main results: what status, sub-frame counts, averages, packet layout and
    frame times are in every reachable state. */
module ScanResults {
  import opened StringUtils
  import opened Protocol
  import opened Device
  import opened ScanModel
  import opened ScanProofs

  ghost predicate Reachable(p: Protocol, e: Engine) {
    exists cfg: Config, actions: seq<Action> :: RateOk(cfg.rate) && Run(p, Init(cfg), actions)
        && After(p, Init(cfg), actions) == e
  }

  lemma {:induction false} RunInv(p: Protocol, e: Engine, actions: seq<Action>)
    requires RangeOk(p) && Inv(p, e) && Run(p, e, actions)
    ensures Inv(p, After(p, e, actions))
    decreases |actions|
  {
    if actions == [] {
    } else {
      StepInv(p, e, actions[0]);
      RunInv(p, Next(p, e, actions[0]), actions[1..]);
    }
  }

  lemma ReachableInv(p: Protocol, e: Engine)
    requires RangeOk(p) && Reachable(p, e)
    ensures Inv(p, e)
  {
    var cfg: Config, actions: seq<Action> :| RateOk(cfg.rate) && Run(p, Init(cfg), actions)
        && After(p, Init(cfg), actions) == e;
    assert Inv(p, Init(cfg));
    RunInv(p, Init(cfg), actions);
  }

  lemma {:induction false} RunAppend(p: Protocol, e: Engine, actions: seq<Action>, a: Action)
    requires Run(p, e, actions) && Enabled(p, After(p, e, actions), a)
    ensures Run(p, e, actions + [a]) && After(p, e, actions + [a]) == Next(p, After(p, e, actions), a)
    decreases |actions|
  {
    if actions == [] {
      assert actions + [a] == [a] && [a][1..] == [];
    } else {
      assert (actions + [a])[1..] == actions[1..] + [a];
      RunAppend(p, Next(p, e, actions[0]), actions[1..], a);
    }
  }

  // ---- Status -----------------------------------------------------------------------------------------

  /** Whatever is interleaved, SCAN is reported only while scanning and CALZ only while
      calibrating; so a device that does neither reports READY.  A step that ends a scan, by a
      client or by the frame limit, leaves READY. */
  lemma StatusIsSafe(p: Protocol, e: Engine, a: Action)
    requires RangeOk(p) && Reachable(p, e) && Enabled(p, e, a)
    ensures e.dev.status == SCAN ==> e.dev.scanning
    ensures e.dev.status == CALZ ==> e.dev.calibrating
    ensures !e.dev.scanning && !e.dev.calibrating ==> e.dev.status == READY
    ensures e.dev.scanning && !Next(p, e, a).dev.scanning ==> Next(p, e, a).dev.status == READY
  {
    ReachableInv(p, e);
    if !a.Step? {
      ClientKeeps(p, e.dev, a);
    }
  }

  predicate IsCalZ(a: Action) {
    a.Client? && VerbOf(Split(a.cmd, SEPARATORS)[0]).CALZERO?
  }

  predicate HasCalZ(actions: seq<Action>) {
    exists i :: 0 <= i < |actions| && IsCalZ(actions[i])
  }

  /** The scan goes on during the whole run. */
  ghost predicate ScanningThrough(p: Protocol, e: Engine, actions: seq<Action>)
    requires Run(p, e, actions)
    decreases |actions|
  {
    e.dev.scanning && (actions != [] ==> ScanningThrough(p, Next(p, e, actions[0]), actions[1..]))
  }

  lemma OtherCommandsKeepStatus(p: Protocol, d: Device, a: Action)
    requires !a.Step? && !IsCalZ(a) && d.scanning && Commanded(p, d, a).scanning
    ensures Commanded(p, d, a).status == d.status && Commanded(p, d, a).calibrating == d.calibrating
  {
    if a.Client? {
      var tokens := Split(a.cmd, SEPARATORS);
      if VerbOf(tokens[0]).SET? {
        SetConfigures(p, d, a.cmd, tokens, a.amb);
        return;
      }
    }
  }

  /** Some step of the run is the end of a calibration. */
  ghost predicate CalibrationEnds(p: Protocol, e: Engine, actions: seq<Action>)
    requires Run(p, e, actions)
    decreases |actions|
  {
    && actions != []
    && ((actions[0].Step? && e.thread.Calibrating?) || CalibrationEnds(p, Next(p, e, actions[0]), actions[1..]))
  }

  /** The exact condition for the status of a scan to be right, for every run during which the scan
      goes on: it was right at the beginning, nobody has sent CALZ, and no calibration that was
      pending has come to its end.  Once wrong it stays wrong. */
  lemma {:induction false} StatusExactIff(p: Protocol, e: Engine, actions: seq<Action>)
    requires Run(p, e, actions) && ScanningThrough(p, e, actions)
    ensures After(p, e, actions).dev.status == SCAN <==>
            e.dev.status == SCAN && !HasCalZ(actions) && !CalibrationEnds(p, e, actions)
    ensures e.dev.status != SCAN ==> After(p, e, actions).dev.status != SCAN
    decreases |actions|
  {
    if actions == [] {
    } else {
      var a, t := actions[0], Next(p, e, actions[0]);
      HasCalZStep(actions);
      StatusExactIff(p, t, actions[1..]);
      if !a.Step? {
        if IsCalZ(a) {
          assert t.dev.status == CALZ;
        } else {
          OtherCommandsKeepStatus(p, e.dev, a);
        }
      }
    }
  }

  /** With no calibration pending at its beginning, a scan ends none unless somebody sends CALZ. */
  lemma {:induction false} NoCalibrationPending(p: Protocol, e: Engine, actions: seq<Action>)
    requires Run(p, e, actions) && ScanningThrough(p, e, actions)
    requires !e.dev.calibrating && !e.thread.Calibrating? && !HasCalZ(actions)
    ensures !CalibrationEnds(p, e, actions)
    decreases |actions|
  {
    if actions == [] {
    } else {
      HasCalZStep(actions);
      if !actions[0].Step? {
        OtherCommandsKeepStatus(p, e.dev, actions[0]);
      }
      NoCalibrationPending(p, Next(p, e, actions[0]), actions[1..]);
    }
  }

  /** CALZ, then SCAN: the calibration ends after the scan has begun, and the device scans with
      status READY although no CALZ has come during the scan. */
  lemma CalZThenScanIsReady(p: Protocol, cfg: Config)
    requires RangeOk(p) && RateOk(cfg.rate)
    ensures exists e :: Reachable(p, e) && e.dev.scanning && e.dev.status == READY
  {
    var amb := Ambient(SECOND, 0, 0);
    var e := UnderCalibration(p, cfg, amb);
    e := ScanTaken(p, e, amb);
    e := Take(p, e, Step(seq(MAX_CHANNELS, j => 0.0)));
  }

  lemma UnderCalibration(p: Protocol, cfg: Config, amb: Ambient) returns (e: Engine)
    requires RangeOk(p) && RateOk(cfg.rate)
    ensures Reachable(p, e) && e == Init(cfg).(dev := CalZ(Fresh(cfg)), thread := Calibrating)
  {
    CalZCommand(p, Fresh(cfg), amb);
    e := InitReachable(p, cfg);
    e := Take(p, e, Client("CALZ", amb));
    e := Take(p, e, Step(seq(MAX_CHANNELS, j => 0.0)));
  }

  lemma ScanTaken(p: Protocol, e: Engine, amb: Ambient) returns (t: Engine)
    requires RangeOk(p) && Reachable(p, e) && !Inside(e.thread) && RateOk(e.dev.cfg.rate)
    ensures Reachable(p, t) && t == e.(dev := StartScan(p, e.dev, amb))
  {
    ScanCommand(p, e.dev, amb);
    t := Take(p, e, Client("SCAN", amb));
  }

  lemma CalZCommand(p: Protocol, d: Device, amb: Ambient)
    ensures Parse(p, d, "CALZ", amb).0 == CalZ(d)
  {
    OneWord("CALZ");
    VerbNames();
  }

  lemma ScanCommand(p: Protocol, d: Device, amb: Ambient)
    ensures Parse(p, d, "SCAN", amb).0 == StartScan(p, d, amb)
  {
    OneWord("SCAN");
    VerbNames();
  }

  lemma OneWord(cmd: string)
    requires forall c :: c in cmd ==> 'A' <= c <= 'Z'
    ensures Split(cmd, SEPARATORS) == [cmd]
  {
    SplitDelimiterFree(cmd, SEPARATORS);
  }

  lemma VerbNames()
    ensures VerbOf("CALZ") == CALZERO && VerbOf("SCAN") == SCANNING
  {
    assert "CALZ"[0] == 'C' && "SCAN"[0] == 'S' && "SCAN"[1] == 'C' && "STATUS"[1] == 'T';
    assert "VER"[0] == 'V' && "ver"[0] == 'v' && "VERSION"[0] == 'V' && "version"[0] == 'v' && "status"[0] == 's';
  }

  lemma InitReachable(p: Protocol, cfg: Config) returns (e: Engine)
    requires RateOk(cfg.rate)
    ensures e == Init(cfg) && Reachable(p, e)
  {
    e := Init(cfg);
    assert Run(p, e, []) && After(p, e, []) == e;
  }

  lemma Take(p: Protocol, e: Engine, a: Action) returns (t: Engine)
    requires Reachable(p, e) && Enabled(p, e, a)
    ensures t == Next(p, e, a) && Reachable(p, t)
  {
    t := Next(p, e, a);
    var cfg: Config, actions: seq<Action> :| RateOk(cfg.rate) && Run(p, Init(cfg), actions)
        && After(p, Init(cfg), actions) == e;
    RunAppend(p, Init(cfg), actions, a);
  }

  lemma HasCalZStep(actions: seq<Action>)
    requires actions != []
    ensures HasCalZ(actions) <==> IsCalZ(actions[0]) || HasCalZ(actions[1..])
  {
  }

  /** A calibration ends with the thread's next two steps from the top of its loop, with READY. */
  lemma CalibrationCompletes(p: Protocol, e: Engine, first: seq<real>, second: seq<real>)
    requires e.dev.calibrating && e.thread.Outer? && Enabled(p, e, Step(first)) && |second| == MAX_CHANNELS
    ensures var t := Next(p, e, Step(first));
            && Enabled(p, t, Step(second))
            && Next(p, t, Step(second)) == e.(dev := e.dev.(calibrating := false, status := READY), thread := Entering)
  {
  }

  /** The two bytes of the binary port do what SCAN and STOP do. */
  lemma BinaryBytesCommand(p: Protocol, d: Device, amb: Ambient)
    ensures var t := Commanded(p, d, BinaryStart(amb));
            && (d.scanning ==> t == d)
            && (!d.scanning ==> t.scanning && t.status == SCAN && t.scanStart == amb.now && t.cfg == d.cfg)
    ensures Commanded(p, d, BinaryStop) == d.(scanning := false, status := if d.scanning then READY else d.status)
  {
  }

  // ---- Averages ---------------------------------------------------------------------------------------

  lemma RealCeiling(x: real)
    ensures x <= Ceiling(x) as real < x + 1.0
  {
  }

  lemma Scale(a: real, x: real, y: real)
    requires a > 0.0
    ensures x <= y ==> a * x <= a * y
    ensures x < y ==> a * x < a * y
  {
  }

  /** Below 500 Hz, just enough sub-frames are averaged to sample at 500 Hz or more. */
  lemma AveragesReach500(rate: real)
    requires 0.0 < rate < 500.0
    ensures var n := AveragesOf(rate); n >= 1 && 500.0 <= rate * n as real < 500.0 + rate
  {
    var q := 500.0 / rate;
    FiveHundredShared(rate, q);
    RealCeiling(q);
    RoundedUp(rate, q, AveragesOf(rate) as real);
  }

  lemma FiveHundredShared(rate: real, q: real)
    requires rate > 0.0 && q == 500.0 / rate
    ensures rate * q == 500.0 && q > 0.0
  {
    assert q * rate == 500.0;
  }

  lemma RoundedUp(rate: real, q: real, n: real)
    requires rate > 0.0 && rate * q == 500.0 && q <= n < q + 1.0
    ensures 500.0 <= rate * n < 500.0 + rate
  {
    Scale(rate, q, n);
    Scale(rate, n, q + 1.0);
    assert rate * (q + 1.0) == rate * q + rate;
  }

  /** While a scan runs, the sub-frame count is the one of the current rate. */
  lemma AveragesMatchRate(p: Protocol, e: Engine)
    requires RangeOk(p) && Reachable(p, e)
    ensures 1 <= e.dev.averages && RateOk(e.dev.cfg.rate)
    ensures e.dev.scanning ==> e.dev.averages == AveragesOf(e.dev.cfg.rate)
  {
    ReachableInv(p, e);
  }

  /** The 64-bit sums cannot overflow, whatever happens to the rate meanwhile. */
  lemma SumsFit(p: Protocol, e: Engine, j: nat)
    requires RangeOk(p) && Reachable(p, e) && (e.thread.Sampling? || e.thread.Delivering?)
    ensures |e.thread.s.sums| == MAX_CHANNELS
    ensures j < MAX_CHANNELS ==> -0x8000_0000_0000_0000 <= e.thread.s.sums[j] < 0x8000_0000_0000_0000
  {
    ReachableInv(p, e);
    var s := e.thread.s;
    if j < MAX_CHANNELS {
      assert Bounded(p, s.sums[j], s.taken);
      ProductBounds(s.taken, p.minCounts, p.maxCounts);
    }
  }

  lemma ProductBounds(n: nat, low: int, high: int)
    requires n <= MOST_AVERAGES && -0x80_0000 <= low < 0 < high < 0x80_0000
    ensures -0x80_0000 * MOST_AVERAGES <= n * low && n * high <= 0x80_0000 * MOST_AVERAGES
  {
    assert n * low >= n * -0x80_0000;
    assert n * high <= n * 0x80_0000;
  }

  lemma Quotient(a: nat, n: nat)
    requires n > 0
    ensures a / n >= 0 && n * (a / n) <= a < n * (a / n) + n
  {
  }

  lemma Cancel(n: nat, a: int, b: int)
    requires n > 0 && n * a <= n * b
    ensures a <= b
  {
    var gap := a - b;
    assert n * a == n * b + n * gap;
    NotPositive(n, gap);
  }

  lemma NotPositive(n: nat, gap: int)
    requires n > 0 && n * gap <= 0
    ensures gap <= 0
  {
  }

  /** The truncated mean lies in the converter's range and within one count of the true mean. */
  lemma TruncatedMean(sum: int, n: nat, low: int, high: int)
    requires n > 0 && low < 0 < high && n * low <= sum <= n * high
    ensures low <= TruncDiv(sum, n) <= high
    ensures sum - n < n * TruncDiv(sum, n) < sum + n
  {
    var q := TruncDiv(sum, n);
    if sum >= 0 {
      Quotient(sum, n);
      Cancel(n, q, high);
    } else {
      Quotient(-sum, n);
      Negated(n, (-sum) / n);
      Cancel(n, low, q);
    }
  }

  lemma Negated(n: nat, q: int)
    ensures n * -q == -(n * q)
  {
  }

  /** A draw within the converter's range loses its fraction, towards zero; any other becomes the limit
      it has passed. */
  lemma SampleKeepsIntegerPart(p: Protocol, drawn: real)
    requires RangeOk(p)
    ensures 0.0 <= drawn <= p.maxCounts as real ==>
              Sample(p, drawn) as real <= drawn < Sample(p, drawn) as real + 1.0
    ensures p.minCounts as real <= drawn <= 0.0 ==>
              Sample(p, drawn) as real - 1.0 < drawn <= Sample(p, drawn) as real
    ensures drawn > p.maxCounts as real ==> Sample(p, drawn) == p.maxCounts
    ensures drawn < p.minCounts as real ==> Sample(p, drawn) == p.minCounts
  {
  }

  /** In every run: one draw is accumulated for each sub-frame taken, each physical channel has the sum
      of its own samples, and the others have none. */
  lemma SumsAreOfDraws(p: Protocol, e: Engine, j: nat)
    requires RangeOk(p) && Reachable(p, e) && (e.thread.Sampling? || e.thread.Delivering?) && j < MAX_CHANNELS
    ensures var s := e.thread.s;
            && |s.draws| == s.taken && |s.sums| == MAX_CHANNELS
            && (forall row :: row in s.draws ==> |row| == MAX_CHANNELS)
            && s.sums[j] == if j < e.dev.layout.physicalPressure then DrawnSum(p, s.draws, j) else 0
  {
    ReachableInv(p, e);
  }

  /** A frame whose sub-frame count did not change reports, for every physical channel, the truncated
      mean of exactly the samples that were drawn for it: the second clamp changes nothing. */
  lemma FrameReportsMeans(p: Protocol, e: Engine, j: nat)
    requires RangeOk(p) && Reachable(p, e) && e.thread.Delivering?
    requires e.thread.s.taken == e.dev.averages && j < e.dev.layout.physicalPressure
    ensures e.dev.averages > 0 && e.dev.layout.physicalPressure <= e.dev.layout.packetPressure <= MAX_CHANNELS
    ensures |e.thread.s.sums| == MAX_CHANNELS && LayoutFits(e.dev.layout)
    ensures |e.thread.s.draws| == e.dev.averages && forall row :: row in e.thread.s.draws ==> |row| == MAX_CHANNELS
    ensures var n, sum := e.dev.averages, DrawnSum(p, e.thread.s.draws, j);
            var count := FrameOf(p, e.dev, e.thread.s).counts[j];
            && sum == e.thread.s.sums[j]
            && count == TruncDiv(sum, n)
            && p.minCounts <= count <= p.maxCounts
            && sum - n < n * count < sum + n
  {
    ReachableInv(p, e);
    assert Bounded(p, e.thread.s.sums[j], e.thread.s.taken);
    TruncatedMean(e.thread.s.sums[j], e.dev.averages, p.minCounts, p.maxCounts);
  }

  /** Whatever happens to the sub-frame count while a frame is sampled, no count leaves the converter's
      range: this is what the second clamp is for. */
  lemma CountsStayInRange(p: Protocol, e: Engine, j: nat)
    requires RangeOk(p) && Reachable(p, e) && e.thread.Delivering?
    ensures e.dev.averages > 0 && |e.thread.s.sums| == MAX_CHANNELS && LayoutFits(e.dev.layout)
    ensures var f := FrameOf(p, e.dev, e.thread.s);
            j < |f.counts| ==> p.minCounts <= f.counts[j] <= p.maxCounts
  {
    ReachableInv(p, e);
  }

  /** A channel that is drawn with the same whole count in every sub-frame reports this count. */
  lemma ConstantSignal(p: Protocol, e: Engine, j: nat, c: int)
    requires RangeOk(p) && Reachable(p, e) && e.thread.Delivering?
    requires e.thread.s.taken == e.dev.averages && j < e.dev.layout.physicalPressure <= MAX_CHANNELS
    requires p.minCounts <= c <= p.maxCounts
    requires forall row :: row in e.thread.s.draws ==> |row| == MAX_CHANNELS && row[j] == c as real
    ensures e.dev.averages > 0 && |e.thread.s.sums| == MAX_CHANNELS && LayoutFits(e.dev.layout)
    ensures j < |FrameOf(p, e.dev, e.thread.s).counts| && FrameOf(p, e.dev, e.thread.s).counts[j] == c
  {
    FrameReportsMeans(p, e, j);
    ConstantSum(p, e.thread.s.draws, j, c);
    MeanOfConstant(e.dev.averages, c);
  }

  lemma {:induction false} ConstantSum(p: Protocol, draws: seq<seq<real>>, j: nat, c: int)
    requires j < MAX_CHANNELS && p.minCounts <= c <= p.maxCounts
    requires forall row :: row in draws ==> |row| == MAX_CHANNELS && row[j] == c as real
    ensures DrawnSum(p, draws, j) == |draws| * c
    decreases |draws|
  {
    if draws == [] {
    } else {
      var last := draws[|draws| - 1];
      assert last in draws && Sample(p, last[j]) == c;
      ConstantSum(p, draws[..|draws| - 1], j, c);
    }
  }

  lemma MeanOfConstant(n: nat, c: int)
    requires n > 0
    ensures TruncDiv(n * c, n) == c
  {
    var size := if c >= 0 then c else -c;
    QuotientOfProduct(n, size);
    Negated(n, size);
    SignOfProduct(n, c);
  }

  lemma QuotientOfProduct(n: nat, k: nat)
    requires n > 0
    ensures n * k >= 0 && (n * k) / n == k
  {
    SignOfProduct(n, k);
    var q := (n * k) / n;
    Quotient(n * k, n);
    Cancel(n, q, k);
    var gap := k - q - 1;
    assert n * gap == n * k - n * q - n;
    NotPositive(n, gap);
  }

  lemma SignOfProduct(n: nat, c: int)
    requires n > 0
    ensures n * c >= 0 <==> c >= 0
  {
    if c < 0 && n * c >= 0 {
      Negated(n, -c);
      NotPositive(n, -c);
      assert false;
    }
  }

  // ---- Layout -------------------------------------------------------------------------------------------

  /** For the three device types the packet type that is chosen has room for exactly the channels
      that are copied into it, and these include all the physical ones; also in the packet
      of a frame during which the scan was stopped. */
  lemma LayoutIsConsistent(p: Protocol, e: Engine)
    requires RangeOk(p) && Reachable(p, e)
    ensures var l := e.dev.layout;
            && l.physicalPressure <= l.packetPressure <= 64
            && l.physicalTemperature <= l.packetTemperature <= 8
            && (l.useBinary && !e.dev.cfg.device.OtherDevice? ==> Capacity(l.packetType) == l.packetPressure)
  {
    ReachableInv(p, e);
  }

  /** A client starts a scan. */
  predicate Starts(p: Protocol, e: Engine, a: Action) {
    !a.Step? && !e.dev.scanning && Commanded(p, e.dev, a).scanning
  }

  ghost predicate NoStart(p: Protocol, e: Engine, actions: seq<Action>)
    requires Run(p, e, actions)
    decreases |actions|
  {
    actions != [] ==> !Starts(p, e, actions[0]) && NoStart(p, Next(p, e, actions[0]), actions[1..])
  }

  lemma {:induction false} ScanningNeedsNoStart(p: Protocol, e: Engine, actions: seq<Action>)
    requires Run(p, e, actions) && ScanningThrough(p, e, actions)
    ensures NoStart(p, e, actions)
    decreases |actions|
  {
    if actions == [] {
    } else {
      ScanningNeedsNoStart(p, Next(p, e, actions[0]), actions[1..]);
    }
  }

  /** Nothing but the start of another scan changes the layout, or the device. */
  lemma {:induction false} LayoutIsFrozen(p: Protocol, e: Engine, actions: seq<Action>)
    requires RangeOk(p) && Inv(p, e) && Run(p, e, actions) && NoStart(p, e, actions)
    ensures After(p, e, actions).dev.layout == e.dev.layout && After(p, e, actions).dev.cfg.device == e.dev.cfg.device
    decreases |actions|
  {
    if actions == [] {
    } else {
      if !actions[0].Step? {
        ClientKeeps(p, e.dev, actions[0]);
      }
      StepInv(p, e, actions[0]);
      LayoutIsFrozen(p, Next(p, e, actions[0]), actions[1..]);
    }
  }

  /** A packet carries the physical channels, then zeros; raw types carry counts, the others
      pressures. */
  lemma PacketIsPadded(p: Protocol, e: Engine, j: nat)
    requires RangeOk(p) && Reachable(p, e) && e.thread.Delivering?
    ensures e.dev.averages > 0 && |e.thread.s.sums| == MAX_CHANNELS && LayoutFits(e.dev.layout)
    ensures e.dev.layout.physicalTemperature <= e.dev.layout.physicalPressure <= e.dev.layout.packetPressure
    ensures e.dev.layout.physicalTemperature <= e.dev.layout.packetTemperature
    ensures var f, l := FrameOf(p, e.dev, e.thread.s), e.dev.layout;
            && |f.counts| == |f.pressures| == l.packetPressure
            && (j < l.physicalPressure ==> f.counts[j] == Resolve(p, e.thread.s.sums[j], e.dev.averages)
                                           && f.pressures[j] == Pressure(p, f.counts[j], e.dev.cfg.units))
            && (l.physicalPressure <= j < l.packetPressure ==> f.counts[j] == 0 && f.pressures[j] == 0.0)
    ensures var f, l := FrameOf(p, e.dev, e.thread.s), e.dev.layout;
            && |f.temperatures| == l.packetTemperature
            && (j < l.physicalTemperature ==> f.temperatures[j] == Temperature(p, f.counts[j]))
            && (l.physicalTemperature <= j < l.packetTemperature ==> f.temperatures[j] == 0.0)
  {
    ReachableInv(p, e);
    FramePads(p, e.dev, e.thread.s, j);
  }

  lemma FramePads(p: Protocol, d: Device, s: Sampled, j: nat)
    requires p.maxCounts > 0 && d.averages > 0 && |s.sums| == MAX_CHANNELS && LayoutFits(d.layout)
    requires d.layout.physicalTemperature <= d.layout.physicalPressure <= d.layout.packetPressure
    requires d.layout.physicalTemperature <= d.layout.packetTemperature
    ensures var f, l := FrameOf(p, d, s), d.layout;
            && |f.counts| == |f.pressures| == l.packetPressure && |f.temperatures| == l.packetTemperature
            && (j < l.packetPressure ==> f.pressures[j] == Pressure(p, f.counts[j], d.cfg.units))
            && (j < l.physicalPressure ==> f.counts[j] == Resolve(p, s.sums[j], d.averages))
            && (l.physicalPressure <= j < l.packetPressure ==> f.counts[j] == 0 && f.pressures[j] == 0.0)
            && (j < l.physicalTemperature ==> f.temperatures[j] == Temperature(p, f.counts[j]))
            && (l.physicalTemperature <= j < l.packetTemperature ==> f.temperatures[j] == 0.0)
  {
    FullScale(p.maxCounts as real, p.conversion(d.cfg.units));
  }

  /** Full scale reads as the conversion factor, zero as zero, and readings are proportional to counts;
      a temperature is 32 degrees and the fraction of full scale. */
  lemma ReadingsAreProportional(p: Protocol, units: Units, a: int, b: int)
    requires p.maxCounts > 0
    ensures Pressure(p, p.maxCounts, units) == p.conversion(units) && Pressure(p, 0, units) == 0.0
    ensures Pressure(p, a + b, units) == Pressure(p, a, units) + Pressure(p, b, units)
    ensures Temperature(p, p.maxCounts) == 33.0 && Temperature(p, 0) == 32.0
    ensures Temperature(p, a + b) - 32.0 == (Temperature(p, a) - 32.0) + (Temperature(p, b) - 32.0)
  {
    var m, c := p.maxCounts as real, p.conversion(units);
    FullScale(m, c);
    SumOfFractions(a, b, m);
    DistributeRight(a as real / m, b as real / m, c);
  }

  lemma FullScale(m: real, c: real)
    requires m > 0.0
    ensures m / m == 1.0 && m / m * c == c && 0.0 / m == 0.0 && 0.0 / m * c == 0.0
  {
  }

  lemma SumOfFractions(a: int, b: int, m: real)
    requires m > 0.0
    ensures (a + b) as real / m == a as real / m + b as real / m
  {
  }

  lemma DistributeRight(x: real, y: real, c: real)
    ensures (x + y) * c == x * c + y * c
  {
  }

  // ---- The frames of a scan, from its start -------------------------------------------------------------

  /** Bit 6 of SIM, which asks for the packets of the first generation. */
  predicate BitSix(sim: nat) { sim / 64 % 2 == 1 }

  /** The channels that a device has. */
  predicate HasChannels(device: DeviceId, pressure: nat, temperature: nat) {
    || (device.MPS4264? && pressure == 64 && temperature == 8)
    || (device.MPS4232? && pressure == 32 && temperature == 4)
    || (device.MPS4216? && pressure == 16 && temperature == 4)
  }

  /** What the configuration at the start of a scan makes of a frame, for the three device types. */
  ghost predicate LaidOut(p: Protocol, f: Frame, cfg: Config) {
    && (f.labview <==> cfg.binary == LABVIEW)
    && (cfg.binary == BINARY ==> f.binary)
    && (f.binary ==> cfg.binary == BINARY || (cfg.ftpUdp == BINARY && (cfg.udpEnabled || cfg.ftpEnabled)))
    && (cfg.ftpUdp == BINARY && (cfg.udpEnabled || cfg.ftpEnabled) ==> f.binary)
    && (f.raw <==> f.binary && cfg.units == p.rawUnits)
    && (f.packetType == Legacy <==> f.binary && BitSix(cfg.sim))
    && (if BitSix(cfg.sim) then |f.counts| == 64 && |f.temperatures| == 8
        else HasChannels(cfg.device, |f.counts|, |f.temperatures|))
    && |f.pressures| == |f.counts|
    && (f.binary && !BitSix(cfg.sim) ==> f.packetType == (if f.raw then Raw(|f.counts|) else Plain(|f.counts|)))
  }

  /** The layout that StartScan makes lays frames out in this way. */
  lemma StartLaysOut(p: Protocol, d: Device, amb: Ambient, s: Sampled, t: Device)
    requires !d.scanning && !d.cfg.device.OtherDevice? && t.layout == StartScan(p, d, amb).layout
    requires p.maxCounts > 0 && t.averages > 0 && |s.sums| == MAX_CHANNELS
    ensures LayoutFits(t.layout) && LaidOut(p, FrameOf(p, t, s), d.cfg)
    ensures HasChannels(d.cfg.device, t.layout.physicalPressure, t.layout.physicalTemperature)
  {
  }

  /** A scan is laid out by the configuration of its start and by nothing that is set later. */
  lemma LayoutIsThatOfTheStart(p: Protocol, e: Engine, a: Action, actions: seq<Action>)
    requires RangeOk(p) && Reachable(p, e) && Enabled(p, e, a) && Starts(p, e, a)
    requires Run(p, Next(p, e, a), actions) && NoStart(p, Next(p, e, a), actions)
    ensures var l := After(p, Next(p, e, a), actions).dev.layout;
            && l == LayoutFor(p, e.dev.cfg, e.dev.layout)
            && (l.useBinary && !e.dev.cfg.device.OtherDevice? ==> (CarriesCounts(l) <==> e.dev.cfg.units == p.rawUnits))
  {
    ReachableInv(p, e);
    StepInv(p, e, a);
    LayoutIsFrozen(p, Next(p, e, a), actions);
    var amb := CommandEffect(p, e.dev, a);
    assert Next(p, e, a).dev == StartScan(p, e.dev, amb);
  }

  /** Every frame of a scan, and the last one after a stop as well, is laid out by the configuration that
      the device had when the scan was started, whatever is set later: who is handed it, its type, its
      channels, and whether it holds counts. */
  lemma FramesAreLaidOut(p: Protocol, e: Engine, a: Action, actions: seq<Action>)
    requires RangeOk(p) && Reachable(p, e) && Enabled(p, e, a) && Starts(p, e, a) && !e.dev.cfg.device.OtherDevice?
    requires Run(p, Next(p, e, a), actions) && NoStart(p, Next(p, e, a), actions)
    requires After(p, Next(p, e, a), actions).thread.Delivering?
    ensures var u := After(p, Next(p, e, a), actions);
            && u.dev.averages > 0 && |u.thread.s.sums| == MAX_CHANNELS && LayoutFits(u.dev.layout)
            && LaidOut(p, FrameOf(p, u.dev, u.thread.s), e.dev.cfg)
            && HasChannels(e.dev.cfg.device, u.dev.layout.physicalPressure, u.dev.layout.physicalTemperature)
  {
    ReachableInv(p, e);
    StepInv(p, e, a);
    RunInv(p, Next(p, e, a), actions);
    LayoutIsThatOfTheStart(p, e, a, actions);
    var amb := Ambient(0, 0, 0);
    var u := After(p, Next(p, e, a), actions);
    StartLaysOut(p, e.dev, amb, u.thread.s, u.dev);
  }
}
