/** What the scan engine keeps in every run, whatever clients command and whenever. */
module ScanProofs {
  import opened StringUtils
  import opened Protocol
  import opened Device
  import opened ScanModel

  // ---- What a client can do to the device -------------------------------------------------------

  /** A client's command that neither starts nor stops nor calibrates: it may change the
      configuration, and a new rate brings its own sub-frame count. */
  ghost predicate Configures(d: Device, t: Device, amb: Ambient) {
    && t == d.(cfg := t.cfg, averages := t.averages, erange := t.erange)
    && t.cfg.device == d.cfg.device
    && ((t.averages == d.averages && t.cfg.rate == d.cfg.rate) || t.averages == AveragesFor(t.cfg.rate, amb))
  }

  ghost predicate Effect(p: Protocol, d: Device, t: Device, amb: Ambient) {
    t == StartScan(p, d, amb) || t == StopScan(d) || t == CalZ(d) || Configures(d, t, amb)
  }

  lemma FormatConfigures(p: Protocol, d: Device, cmd: string, tokens: seq<string>, amb: Ambient)
    requires |tokens| >= 2 && SettingOf(tokens[1]).FORMAT?
    ensures Configures(d, Set(p, d, cmd, tokens, amb).0, amb)
  {
  }

  lemma FieldConfigures(p: Protocol, d: Device, cmd: string, tokens: seq<string>, amb: Ambient)
    requires |tokens| >= 2 && SettingOf(tokens[1]) in {FPS, ENUDP, ENFTP, IPUDP, NoSetting}
    ensures Configures(d, Set(p, d, cmd, tokens, amb).0, amb)
  {
  }

  lemma RateConfigures(p: Protocol, d: Device, cmd: string, tokens: seq<string>, amb: Ambient)
    requires |tokens| >= 2 && SettingOf(tokens[1]).RATE?
    ensures Configures(d, Set(p, d, cmd, tokens, amb).0, amb)
  {
    if |tokens| >= 3 {
      var rate := match p.scanRate(tokens[2]) { case None => d.cfg.rate case Some(r) => r };
      assert Set(p, d, cmd, tokens, amb).0 == UpdateScanAverages(d.(cfg := d.cfg.(rate := rate)), amb);
    }
  }

  lemma UnitsConfigures(p: Protocol, d: Device, cmd: string, tokens: seq<string>, amb: Ambient)
    requires |tokens| >= 2 && SettingOf(tokens[1]).UNITS?
    ensures Configures(d, Set(p, d, cmd, tokens, amb).0, amb)
  {
  }

  lemma SimConfigures(p: Protocol, d: Device, cmd: string, tokens: seq<string>, amb: Ambient)
    requires |tokens| >= 2 && SettingOf(tokens[1]).SIM?
    ensures Configures(d, Set(p, d, cmd, tokens, amb).0, amb)
  {
  }

  lemma SetConfigures(p: Protocol, d: Device, cmd: string, tokens: seq<string>, amb: Ambient)
    requires tokens != []
    ensures Configures(d, Set(p, d, cmd, tokens, amb).0, amb)
  {
    if |tokens| < 2 {
      return;
    }
    var setting := SettingOf(tokens[1]);
    if setting.FORMAT? {
      FormatConfigures(p, d, cmd, tokens, amb);
      return;
    }
    if setting.SIM? {
      SimConfigures(p, d, cmd, tokens, amb);
      return;
    }
    if setting.RATE? {
      RateConfigures(p, d, cmd, tokens, amb);
      return;
    }
    if setting.UNITS? {
      UnitsConfigures(p, d, cmd, tokens, amb);
      return;
    }
    FieldConfigures(p, d, cmd, tokens, amb);
  }

  lemma CommandEffect(p: Protocol, d: Device, a: Action) returns (amb: Ambient)
    requires !a.Step?
    ensures Effect(p, d, Commanded(p, d, a), amb)
  {
    match a {
      case Client(cmd, ambient) =>
        amb := ambient;
        var tokens := Split(cmd, SEPARATORS);
        if VerbOf(tokens[0]).SET? {
          SetConfigures(p, d, cmd, tokens, amb);
          return;
        }
      case BinaryStart(ambient) => amb := ambient;
      case BinaryStop => amb := Ambient(0, 0, 0);
    }
  }

  // ---- The device invariant -----------------------------------------------------------------------

  /** A reported state is a true one: SCAN only while scanning, CALZ only while calibrating. */
  ghost predicate StatusInv(d: Device) {
    && (d.status == SCAN ==> d.scanning)
    && (d.status == CALZ ==> d.calibrating)
  }

  /** The sub-frame count that belongs to a rate. */
  ghost function AveragesOf(rate: real): int
    requires rate > 0.0
  {
    if rate >= 500.0 then 1 else Ceiling(500.0 / rate)
  }

  const MOST_AVERAGES := 1074

  lemma AveragesInRange(rate: real, amb: Ambient)
    requires RateOk(rate)
    ensures AveragesFor(rate, amb) == AveragesOf(rate) && 1 <= AveragesOf(rate) <= MOST_AVERAGES
  {
    if rate < 500.0 {
      var q := 500.0 / rate;
      assert q * rate == 500.0;
      assert q > 1.0;
      assert q == (1000000000.0 / rate) / 2000000.0 by {
        assert 1000000000.0 / rate == 2000000.0 * q;
      }
      assert q < 1074.0;
    }
  }

  ghost predicate AverageInv(d: Device) {
    && RateOk(d.cfg.rate) && 1 <= d.averages <= MOST_AVERAGES
    && (d.scanning ==> d.averages == AveragesOf(d.cfg.rate))
  }

  /** The layout has been made for this device. */
  ghost predicate Configured(d: Device) {
    && d.layout.physicalPressure == PhysicalPressure(d.cfg.device, 64)
    && d.layout.physicalTemperature == PhysicalTemperature(d.cfg.device, 8)
  }

  function Capacity(t: PacketType): nat {
    match t
    case Undefined => 0
    case Legacy => 64
    case Plain(channels) => channels
    case Raw(channels) => channels
  }

  ghost predicate LayoutInv(d: Device) {
    var l := d.layout;
    && (l.physicalPressure == 64 || l.physicalPressure == PhysicalPressure(d.cfg.device, 64))
    && (l.physicalTemperature == 8 || l.physicalTemperature == PhysicalTemperature(d.cfg.device, 8))
    && l.physicalTemperature <= l.physicalPressure <= l.packetPressure <= MAX_CHANNELS
    && l.physicalTemperature <= l.packetTemperature <= 8
    && (d.scanning ==> Configured(d))
    && (l.useBinary && !d.cfg.device.OtherDevice? ==> Capacity(l.packetType) == l.packetPressure)
  }

  ghost predicate DeviceInv(d: Device) {
    StatusInv(d) && AverageInv(d) && LayoutInv(d)
  }

  lemma EffectKeeps(p: Protocol, d: Device, t: Device, amb: Ambient)
    requires DeviceInv(d) && Effect(p, d, t, amb) && RateOk(t.cfg.rate)
    ensures DeviceInv(t)
    ensures Configured(d) ==> Configured(t)
    ensures t.cfg.device == d.cfg.device
    ensures t.layout == d.layout || (!d.scanning && t.scanning)
    ensures t.scanStart == d.scanStart || (!d.scanning && t.scanning)
    ensures d.scanning && !t.scanning ==> t.status == READY
  {
    AveragesInRange(t.cfg.rate, amb);
    AveragesInRange(d.cfg.rate, amb);
  }

  /** The same, for any action of a client. */
  lemma ClientKeeps(p: Protocol, d: Device, a: Action)
    requires DeviceInv(d) && !a.Step? && RateOk(Commanded(p, d, a).cfg.rate)
    ensures var t := Commanded(p, d, a);
            && DeviceInv(t)
            && (Configured(d) ==> Configured(t))
            && t.cfg.device == d.cfg.device
            && (t.layout == d.layout || (!d.scanning && t.scanning))
            && (t.scanStart == d.scanStart || (!d.scanning && t.scanning))
            && (d.scanning && !t.scanning ==> t.status == READY)
  {
    var amb := CommandEffect(p, d, a);
    EffectKeeps(p, d, Commanded(p, d, a), amb);
  }

  // ---- The frame being sampled ----------------------------------------------------------------------

  /** The converter's range, as the protocol defines it. */
  ghost predicate RangeOk(p: Protocol) {
    -0x80_0000 <= p.minCounts < 0 < p.maxCounts < 0x80_0000
  }

  ghost predicate Bounded(p: Protocol, sum: int, taken: nat) {
    taken * p.minCounts <= sum <= taken * p.maxCounts
  }

  /** What the samples drawn for a channel add up to. */
  ghost function DrawnSum(p: Protocol, draws: seq<seq<real>>, j: nat): int
    requires forall row :: row in draws ==> |row| == MAX_CHANNELS
    requires j < MAX_CHANNELS
  {
    if draws == [] then 0
    else DrawnSum(p, draws[..|draws| - 1], j) + Sample(p, draws[|draws| - 1][j])
  }

  lemma DrawnSumMore(p: Protocol, draws: seq<seq<real>>, drawn: seq<real>, j: nat)
    requires (forall row :: row in draws ==> |row| == MAX_CHANNELS) && |drawn| == MAX_CHANNELS && j < MAX_CHANNELS
    ensures DrawnSum(p, draws + [drawn], j) == DrawnSum(p, draws, j) + Sample(p, drawn[j])
  {
    assert (draws + [drawn])[..|draws + [drawn]| - 1] == draws;
  }

  /** There is one draw for each sub-frame taken, and the sums are those of the physical channels. */
  ghost predicate SumsInv(p: Protocol, s: Sampled, channels: nat) {
    && |s.draws| == s.taken && |s.sums| == MAX_CHANNELS
    && (forall row :: row in s.draws ==> |row| == MAX_CHANNELS)
    && (forall j :: 0 <= j < MAX_CHANNELS ==> s.sums[j] == if j < channels then DrawnSum(p, s.draws, j) else 0)
  }

  lemma SumsStep(p: Protocol, e: Engine, drawn: seq<real>)
    requires e.thread.Sampling? && SumsInv(p, e.thread.s, e.dev.layout.physicalPressure)
    requires RateOk(e.dev.cfg.rate) && e.dev.averages > 0 && |drawn| == MAX_CHANNELS == |e.thread.s.sums|
    ensures SumsInv(p, SubFrame(p, e, drawn).thread.s, e.dev.layout.physicalPressure)
  {
    var s, channels := e.thread.s, e.dev.layout.physicalPressure;
    if s.taken < e.dev.averages {
      var t := SubFrame(p, e, drawn).thread.s;
      assert t.draws == s.draws + [drawn];
      forall j | 0 <= j < MAX_CHANNELS
        ensures t.sums[j] == if j < channels then DrawnSum(p, t.draws, j) else 0
      {
        DrawnSumMore(p, s.draws, drawn, j);
      }
    }
  }

  ghost predicate SampledInv(p: Protocol, s: Sampled) {
    && |s.sums| == MAX_CHANNELS && s.taken <= MOST_AVERAGES
    && (forall j :: 0 <= j < |s.sums| ==> Bounded(p, s.sums[j], s.taken))
    && RateOk(s.rate) && s.averages > 0
    && s.end == s.start + Period(s.rate)
    && (s.steady ==> s.taken <= s.averages && s.subStart == s.start + s.taken * SubPeriod(s.rate, s.averages))
  }

  ghost predicate SampleInv(p: Protocol, e: Engine) {
    && (e.thread.Sampling? || e.thread.Delivering? ==>
          && SampledInv(p, e.thread.s) && Configured(e.dev)
          && SumsInv(p, e.thread.s, e.dev.layout.physicalPressure))
    && (e.thread.Delivering? && e.thread.s.steady ==> e.thread.s.taken == e.thread.s.averages)
  }

  lemma SampleInRange(p: Protocol, drawn: real)
    requires RangeOk(p)
    ensures p.minCounts <= Sample(p, drawn) <= p.maxCounts
  {
  }

  lemma AccumulateBounded(p: Protocol, sums: seq<int>, drawn: seq<real>, channels: nat, taken: nat)
    requires RangeOk(p) && |drawn| == |sums|
    requires forall j :: 0 <= j < |sums| ==> Bounded(p, sums[j], taken)
    ensures forall j :: 0 <= j < |sums| ==> Bounded(p, Accumulate(p, sums, drawn, channels)[j], taken + 1)
  {
    forall j | 0 <= j < |sums| ensures Bounded(p, Accumulate(p, sums, drawn, channels)[j], taken + 1) {
      SampleInRange(p, drawn[j]);
      assert Bounded(p, sums[j], taken);
      assert (taken + 1) * p.minCounts == taken * p.minCounts + p.minCounts;
      assert (taken + 1) * p.maxCounts == taken * p.maxCounts + p.maxCounts;
    }
  }

  // ---- The frames of a scan ---------------------------------------------------------------------------

  /** Where the frame after these starts. */
  ghost function NextStart(frames: seq<Frame>, origin: int): int {
    if frames == [] then origin else frames[|frames| - 1].end
  }

  ghost predicate FrameInv(f: Frame) {
    RateOk(f.rate) && f.end == f.start + Period(f.rate)
  }

  /** The frame carries the time from the scan start to its own start, in two 32-bit fields. */
  ghost predicate Timed(f: Frame, origin: int) {
    var t := f.start - origin;
    t >= 0 && f.seconds == t / SECOND % COUNTER && f.nanoseconds == t % SECOND
  }

  /** Frames are numbered from one and each starts where the one before ends. */
  ghost predicate FrameAt(frames: seq<Frame>, k: nat, origin: int, stale: bool)
    requires k < |frames|
  {
    var f := frames[k];
    && FrameInv(f)
    && f.number == (k + 1) % COUNTER
    && f.start == NextStart(frames[..k], origin)
    && (!stale ==> Timed(f, origin))
  }

  ghost predicate FramesInv(frames: seq<Frame>, origin: int, stale: bool) {
    && (forall k :: 0 <= k < |frames| ==> FrameAt(frames, k, origin, stale))
    && NextStart(frames, origin) >= origin
  }

  /** The sampled frame continues the frames so far. */
  ghost predicate Continues(e: Engine, s: Sampled) {
    && s.number == (|e.frames| + 1) % COUNTER
    && s.start == NextStart(e.frames, e.origin)
    && (!e.stale ==> s.elapsed == s.start - e.origin)
  }

  /** The thread is at the place that the frames so far lead to. */
  ghost predicate PlaceInv(e: Engine) {
    && (Inside(e.thread) && !e.stale ==> e.dev.scanStart == e.origin)
    && match e.thread {
         case Between(from, number) => number == (|e.frames| + 1) % COUNTER && from == NextStart(e.frames, e.origin)
         case Sampling(s) => Continues(e, s)
         case Delivering(s) => Continues(e, s)
         case Limiting(end, number) =>
           |e.frames| > 0 && number == |e.frames| % COUNTER && end == NextStart(e.frames, e.origin)
         case _ => true
       }
  }

  ghost predicate Inv(p: Protocol, e: Engine) {
    && DeviceInv(e.dev)
    && SampleInv(p, e)
    && FramesInv(e.frames, e.origin, e.stale)
    && PlaceInv(e)
  }

  lemma PeriodPositive(rate: real)
    requires RateOk(rate)
    ensures Period(rate) >= 0
  {
    assert 1000000000.0 / rate >= 0.0;
  }

  lemma ClientStep(p: Protocol, e: Engine, a: Action)
    requires Inv(p, e) && Enabled(p, e, a) && !a.Step?
    ensures Inv(p, Next(p, e, a))
  {
    ClientKeeps(p, e.dev, a);
    var t := Next(p, e, a);
    assert t == e.(dev := t.dev, stale := t.stale);
    FramesWeaken(e.frames, e.origin, e.stale, t.stale);
    assert SampleInv(p, t);
    assert PlaceInv(t);
  }

  lemma FramesWeaken(frames: seq<Frame>, origin: int, stale: bool, weaker: bool)
    requires FramesInv(frames, origin, stale) && (stale ==> weaker)
    ensures FramesInv(frames, origin, weaker)
  {
    forall k | 0 <= k < |frames| ensures FrameAt(frames, k, origin, weaker) {
      assert FrameAt(frames, k, origin, stale);
    }
  }

  lemma SplitSeconds(elapsed: int)
    requires elapsed >= 0
    ensures var s := TruncDiv(elapsed, SECOND);
            s == elapsed / SECOND && elapsed - s * SECOND == (elapsed - s * SECOND) % COUNTER == elapsed % SECOND
  {
  }

  lemma FramesAppend(frames: seq<Frame>, f: Frame, origin: int, stale: bool)
    requires FramesInv(frames, origin, stale) && FrameInv(f)
    requires f.number == (|frames| + 1) % COUNTER && f.start == NextStart(frames, origin)
    requires !stale ==> Timed(f, origin)
    ensures FramesInv(frames + [f], origin, stale)
  {
    PeriodPositive(f.rate);
    var all := frames + [f];
    forall k | 0 <= k < |all| ensures FrameAt(all, k, origin, stale) {
      if k < |frames| {
        assert FrameAt(frames, k, origin, stale);
        assert all[..k] == frames[..k];
      } else {
        assert all[..k] == frames;
      }
    }
  }

  lemma DeliverStep(p: Protocol, e: Engine, drawn: seq<real>)
    requires Inv(p, e) && Enabled(p, e, Step(drawn)) && e.thread.Delivering?
    ensures Inv(p, Next(p, e, Step(drawn)))
  {
    var s, t := e.thread.s, Next(p, e, Step(drawn));
    var f := FrameOf(p, e.dev, s);
    assert t.frames == e.frames + [f];
    assert Continues(e, s) && SampledInv(p, s);
    if !e.stale {
      SplitSeconds(s.elapsed);
    }
    FramesAppend(e.frames, f, e.origin, e.stale);
    assert PlaceInv(t);
  }

  lemma SampleStep(p: Protocol, e: Engine, drawn: seq<real>)
    requires RangeOk(p) && Inv(p, e) && Enabled(p, e, Step(drawn)) && e.thread.Sampling?
    ensures Inv(p, Next(p, e, Step(drawn)))
  {
    SubFrameKeeps(p, e, drawn);
    var t := Next(p, e, Step(drawn));
    assert t.dev == e.dev && t.frames == e.frames && t.origin == e.origin && t.stale == e.stale;
    assert Continues(t, t.thread.s);
  }

  lemma SubFrameKeeps(p: Protocol, e: Engine, drawn: seq<real>)
    requires RangeOk(p) && DeviceInv(e.dev) && SampleInv(p, e) && Enabled(p, e, Step(drawn)) && e.thread.Sampling?
    ensures SampleInv(p, SubFrame(p, e, drawn))
  {
    var s := e.thread.s;
    SumsStep(p, e, drawn);
    AccumulateBounded(p, s.sums, drawn, e.dev.layout.physicalPressure, s.taken);
    NextSubFrame(s.start, s.taken, SubPeriod(e.dev.cfg.rate, e.dev.averages));
  }

  lemma NextSubFrame(start: int, taken: nat, length: int)
    ensures start + taken * length + length == start + (taken + 1) * length
  {
  }

  lemma BeginStep(p: Protocol, e: Engine, drawn: seq<real>)
    requires RangeOk(p) && Inv(p, e) && Enabled(p, e, Step(drawn)) && e.thread.Between?
    ensures Inv(p, Next(p, e, Step(drawn)))
  {
    if e.dev.scanning {
      var s := BeginFrame(e).thread.s;
      assert 0 * SubPeriod(s.rate, s.averages) == 0;
      assert SampledInv(p, s);
      assert SumsInv(p, s, e.dev.layout.physicalPressure);
    }
  }

  lemma LimitStep(p: Protocol, e: Engine, drawn: seq<real>)
    requires Inv(p, e) && Enabled(p, e, Step(drawn)) && e.thread.Limiting?
    ensures Inv(p, Next(p, e, Step(drawn)))
  {
    assert DeviceInv(StopScan(e.dev));
    NextNumber(|e.frames|);
  }

  lemma NextNumber(n: nat)
    ensures (n % COUNTER + 1) % COUNTER == (n + 1) % COUNTER
  {
  }

  lemma OtherStep(p: Protocol, e: Engine, drawn: seq<real>)
    requires Inv(p, e) && Enabled(p, e, Step(drawn)) && !Inside(e.thread)
    ensures Inv(p, Next(p, e, Step(drawn)))
  {
  }

  lemma StepInv(p: Protocol, e: Engine, a: Action)
    requires RangeOk(p) && Inv(p, e) && Enabled(p, e, a)
    ensures Inv(p, Next(p, e, a))
  {
    if !a.Step? {
      ClientStep(p, e, a);
    } else if e.thread.Delivering? {
      DeliverStep(p, e, a.drawn);
    } else if e.thread.Sampling? {
      SampleStep(p, e, a.drawn);
    } else if e.thread.Between? {
      BeginStep(p, e, a.drawn);
    } else if e.thread.Limiting? {
      LimitStep(p, e, a.drawn);
    } else {
      OtherStep(p, e, a.drawn);
    }
  }
}
