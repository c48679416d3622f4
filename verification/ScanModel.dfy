/** The scan engine of application/src/scanivalve/mps.cpp as a transition system: the scan thread
    and the clients that command the device meanwhile.  A step is one method call of a client or
    one piece of ScanThreadFn between two loop tests, sub-frames or deliveries.  Times are in
    nanoseconds; floats are real numbers. */
module ScanModel {
  import opened StringUtils
  import opened Protocol
  import opened Device

  const MAX_CHANNELS := 64          // MPS_MAX_PRESSURE_CH_COUNT
  const MAX_TEMPERATURES := 8       // MPS_MAX_TEMPERATURE_CH_COUNT
  const SECOND := 1_000_000_000
  const COUNTER := 0x1_0000_0000    // the frame counter and the time fields are uint32_t

  /** Rates for which 1e9 / rate is positive and fits the int it is converted to. */
  predicate RateOk(rate: real) {
    rate > 0.0 && 1000000000.0 / rate < 2147483648.0
  }

  function Period(rate: real): int
    requires rate > 0.0
  {
    (1000000000.0 / rate).Floor
  }

  function SubPeriod(rate: real, averages: nat): int
    requires rate > 0.0 && averages > 0
  {
    (1000000000.0 / (rate * averages as real)).Floor
  }

  /** Conversion to an integer and integer division both drop the fraction. */
  function Truncate(x: real): int { if x >= 0.0 then x.Floor else -(-x).Floor }

  function TruncDiv(a: int, n: nat): int
    requires n > 0
  {
    if a >= 0 then a / n else -((-a) / n)
  }

  function Clamp(x: int, low: int, high: int): int {
    if x < low then low else if x > high then high else x
  }

  /** RandomSampleCounts, for whatever the generator drew. */
  function Sample(p: Protocol, drawn: real): int {
    Truncate(if drawn < p.minCounts as real then p.minCounts as real
             else if drawn > p.maxCounts as real then p.maxCounts as real else drawn)
  }

  // ---- One frame ----------------------------------------------------------------------------------

  function Accumulate(p: Protocol, sums: seq<int>, drawn: seq<real>, channels: nat): seq<int>
    requires |drawn| == |sums|
  {
    seq(|sums|, j requires 0 <= j < |sums| => if j < channels then sums[j] + Sample(p, drawn[j]) else sums[j])
  }

  /** The average of a channel, with the second clamp. */
  function Resolve(p: Protocol, sum: int, averages: nat): int
    requires averages > 0
  {
    Clamp(TruncDiv(sum, averages), p.minCounts, p.maxCounts)
  }

  function Counts(p: Protocol, sums: seq<int>, averages: nat, channels: nat): seq<int>
    requires averages > 0
  {
    seq(|sums|, j requires 0 <= j < |sums| => if j < channels then Resolve(p, sums[j], averages) else 0)
  }

  function Pressure(p: Protocol, count: int, units: Units): real
    requires p.maxCounts > 0
  {
    count as real / p.maxCounts as real * p.conversion(units)
  }

  function Temperature(p: Protocol, count: int): real
    requires p.maxCounts > 0
  {
    32.0 + count as real / p.maxCounts as real
  }

  /** The channel values of a packet are counts, or else pressures. */
  predicate CarriesCounts(l: Layout) {
    match l.packetType
    case Undefined => false
    case Legacy => l.useRaw
    case Plain(_) => false
    case Raw(_) => true
  }

  /** The frame being sampled.  The rate and the sub-frame count are read again for every
      sub-frame; `steady` records that they have not changed since the frame began. */
  datatype Sampled = Sampled(
    number: nat,
    start: int,
    end: int,
    elapsed: int,      // dt, measured from the scan start as it is when the frame begins
    rate: real,        // history: as read when the frame began
    averages: nat,     // history: as it was when the frame began
    steady: bool,      // history
    taken: nat,        // the sub-frame loop counter
    subStart: int,
    sums: seq<int>,
    draws: seq<seq<real>>)   // history: what the generator drew for each sub-frame

  /** A frame as the packets and the LabVIEW buffer carry it: channels up to the packet's counts.  A
      packet holds counts or pressures, a LabVIEW frame always pressures. */
  datatype Frame = Frame(
    number: nat,
    start: int,
    end: int,
    rate: real,        // history: as read when the frame began
    seconds: int,
    nanoseconds: int,
    packetType: PacketType,
    binary: bool,      // handed to the frame callback
    labview: bool,     // handed to the LabVIEW callback
    raw: bool,         // the packet holds the counts
    counts: seq<int>,
    pressures: seq<real>,
    temperatures: seq<real>)

  /** Where the scan thread is. */
  datatype Thread =
    | Outer                               // the test of m_Running and m_Calibrating
    | Calibrating                         // in the two seconds of a calibration
    | Entering                            // about to read the scan start into frame_start
    | Between(start: int, number: nat)    // the test of m_Scanning
    | Sampling(s: Sampled)
    | Delivering(s: Sampled)
    | Limiting(end: int, number: nat)     // about to compare the frame with frames_per_scan

  datatype Engine = Engine(
    dev: Device,
    thread: Thread,
    frames: seq<Frame>,   // history: the frames since the inner loop was last entered
    log: seq<nat>,        // history: the numbers of all frames ever produced
    origin: int,          // history: the scan start that the thread read on entering
    stale: bool)          // history: a scan was started after the thread had read it

  datatype Action =
    | Client(cmd: string, amb: Ambient)   // ParseCommands
    | BinaryStart(amb: Ambient)           // a byte 1 on port 503
    | BinaryStop
    | Step(drawn: seq<real>)              // the scan thread, with the samples it draws

  function Init(cfg: Config): Engine {
    Engine(Fresh(cfg), Outer, [], [], 0, false)
  }

  function Inside(t: Thread): bool {
    t.Between? || t.Sampling? || t.Delivering? || t.Limiting?
  }

  function Commanded(p: Protocol, d: Device, a: Action): Device
    requires !a.Step?
  {
    match a
    case Client(cmd, amb) => Parse(p, d, cmd, amb).0
    case BinaryStart(amb) => StartScan(p, d, amb)
    case BinaryStop => StopScan(d)
  }

  /** Only rates that can be turned into a period are considered. */
  predicate Enabled(p: Protocol, e: Engine, a: Action) {
    && p.maxCounts > 0
    && if a.Step? then |a.drawn| == MAX_CHANNELS && Sound(e) else RateOk(Commanded(p, e.dev, a).cfg.rate)
  }

  /** What the thread's own steps rely on. */
  predicate Sound(e: Engine) {
    && RateOk(e.dev.cfg.rate) && e.dev.averages > 0
    && (e.thread.Sampling? || e.thread.Delivering? ==> |e.thread.s.sums| == MAX_CHANNELS)
    && LayoutFits(e.dev.layout)
  }

  /** The channel counts are within the arrays of ScanThreadFn. */
  predicate LayoutFits(l: Layout) {
    && l.physicalPressure <= MAX_CHANNELS && l.packetPressure <= MAX_CHANNELS
    && l.physicalTemperature <= MAX_TEMPERATURES && l.packetTemperature <= MAX_TEMPERATURES
  }

  function FrameOf(p: Protocol, d: Device, s: Sampled): Frame
    requires p.maxCounts > 0 && d.averages > 0 && |s.sums| == MAX_CHANNELS && LayoutFits(d.layout)
  {
    var l := d.layout;
    var counts := Counts(p, s.sums, d.averages, l.physicalPressure);
    var seconds := TruncDiv(s.elapsed, SECOND);
    Frame(s.number, s.start, s.end, s.rate,
          seconds % COUNTER, (s.elapsed - seconds * SECOND) % COUNTER,
          l.packetType, l.useBinary && !l.packetType.Undefined?, l.useLabview, CarriesCounts(l),
          counts[..l.packetPressure],
          seq(l.packetPressure, j requires 0 <= j < l.packetPressure => Pressure(p, counts[j], d.cfg.units)),
          Temperatures(p, counts, l))
  }

  function Temperatures(p: Protocol, counts: seq<int>, l: Layout): seq<real>
    requires p.maxCounts > 0 && |counts| == MAX_CHANNELS && LayoutFits(l)
  {
    seq(l.packetTemperature, j requires 0 <= j < l.packetTemperature =>
      if j < l.physicalTemperature then Temperature(p, counts[j]) else 0.0)
  }

  function NoSums(): seq<int> { seq(MAX_CHANNELS, j => 0) }

  function BeginFrame(e: Engine): Engine
    requires e.thread.Between? && RateOk(e.dev.cfg.rate)
  {
    var (start, number, rate) := (e.thread.start, e.thread.number, e.dev.cfg.rate);
    e.(thread := Sampling(Sampled(number, start, start + Period(rate), start - e.dev.scanStart, rate, e.dev.averages,
                                  true, 0, start, NoSums(), [])))
  }

  function SubFrame(p: Protocol, e: Engine, drawn: seq<real>): Engine
    requires e.thread.Sampling? && RateOk(e.dev.cfg.rate) && e.dev.averages > 0
    requires |drawn| == MAX_CHANNELS == |e.thread.s.sums|
  {
    var s, d := e.thread.s, e.dev;
    var steady := s.steady && d.cfg.rate == s.rate && d.averages == s.averages;
    if s.taken < d.averages then
      e.(thread := Sampling(s.(steady := steady, taken := s.taken + 1,
                               subStart := s.subStart + SubPeriod(d.cfg.rate, d.averages),
                               sums := Accumulate(p, s.sums, drawn, d.layout.physicalPressure),
                               draws := s.draws + [drawn])))
    else e.(thread := Delivering(s.(steady := steady)))
  }

  function ThreadStep(p: Protocol, e: Engine, drawn: seq<real>): Engine
    requires p.maxCounts > 0 && Sound(e) && |drawn| == MAX_CHANNELS
  {
    match e.thread
    case Outer => e.(thread := if e.dev.calibrating then Calibrating else Entering)
    case Calibrating => e.(dev := e.dev.(calibrating := false, status := READY), thread := Entering)
    case Entering =>
      e.(thread := Between(e.dev.scanStart, 1), frames := [], origin := e.dev.scanStart, stale := false)
    case Between(_, _) => if e.dev.scanning then BeginFrame(e) else e.(thread := Outer)
    case Sampling(_) => SubFrame(p, e, drawn)
    case Delivering(s) =>
      e.(thread := Limiting(s.end, s.number), frames := e.frames + [FrameOf(p, e.dev, s)], log := e.log + [s.number])
    case Limiting(end, number) =>
      var dev := if e.dev.cfg.fps != 0 && e.dev.cfg.fps == number then StopScan(e.dev) else e.dev;
      e.(dev := dev, thread := Between(end, (number + 1) % COUNTER))
  }

  function Next(p: Protocol, e: Engine, a: Action): Engine
    requires Enabled(p, e, a)
  {
    if a.Step? then ThreadStep(p, e, a.drawn)
    else
      var dev := Commanded(p, e.dev, a);
      e.(dev := dev, stale := e.stale || (Inside(e.thread) && !e.dev.scanning && dev.scanning))
  }

  ghost predicate Run(p: Protocol, e: Engine, actions: seq<Action>)
    decreases |actions|
  {
    actions != [] ==> Enabled(p, e, actions[0]) && Run(p, Next(p, e, actions[0]), actions[1..])
  }

  ghost function After(p: Protocol, e: Engine, actions: seq<Action>): Engine
    requires Run(p, e, actions)
    decreases |actions|
  {
    if actions == [] then e else After(p, Next(p, e, actions[0]), actions[1..])
  }
}
