/** The scan thread as an object: the local variables of ScanThreadFn, its sample buffers and its
    loops.  Every method is one step of ScanModel.ThreadStep; between two of them clients may
    command the device. */
module ScanThread {
  import opened Protocol
  import opened ScanModel
  import M = Mps
  import D = Device

  datatype Place = AtOuter | AtCalibrating | AtEntering | AtBetween | AtSampling | AtDelivering | AtLimiting

  class ScanThread {
    const device: M.Mps
    const counts: array<int>
    const accumulator: array<int>
    const pressures: array<real>
    const temperatures: array<real>
    var frameStart: int
    var frameEnd: int
    var elapsed: int           // dt
    var subStart: int
    var frame: nat
    var taken: nat             // the sub-frame loop counter
    ghost var at: Place        // where control is
    var rate: real             // history: as read when the frame began
    ghost var averages: nat    // histories, as in ScanModel
    ghost var steady: bool
    ghost var draws: seq<seq<real>>
    ghost var frames: seq<Frame>
    ghost var log: seq<nat>
    ghost var origin: int
    ghost var stale: bool

    predicate Buffers() {
      && counts.Length == accumulator.Length == pressures.Length == MAX_CHANNELS && counts != accumulator
      && temperatures.Length == MAX_TEMPERATURES && temperatures != pressures
    }

    /** Counts, pressures and temperatures are zero from the given channels on. */
    ghost predicate ZeroFrom(channel: nat, probe: nat)
      requires Buffers()
      reads counts, pressures, temperatures
    {
      && (forall j :: channel <= j < MAX_CHANNELS ==> counts[j] == 0 && pressures[j] == 0.0)
      && (forall j :: probe <= j < MAX_TEMPERATURES ==> temperatures[j] == 0.0)
    }

    /** The buffers are those of ScanThreadFn, cleared when a frame begins. */
    ghost predicate Valid()
      reads this, counts, pressures, temperatures
    {
      && Buffers()
      && (at.AtSampling? || at.AtDelivering? ==> ZeroFrom(0, 0))
    }

    ghost function InFrame(): Sampled
      reads this, accumulator
    {
      Sampled(frame, frameStart, frameEnd, elapsed, rate, averages, steady, taken, subStart, accumulator[..], draws)
    }

    ghost function Where(): Thread
      reads this, accumulator
    {
      match at
      case AtOuter => Outer
      case AtCalibrating => Calibrating
      case AtEntering => Entering
      case AtBetween => Between(frameStart, frame)
      case AtSampling => Sampling(InFrame())
      case AtDelivering => Delivering(InFrame())
      case AtLimiting => Limiting(frameEnd, frame)
    }

    ghost function View(): Engine
      reads this, device, accumulator
    {
      Engine(device.View(), Where(), frames, log, origin, stale)
    }

    constructor (device: M.Mps)
      ensures this.device == device && fresh(counts) && fresh(accumulator) && fresh(pressures) && fresh(temperatures)
      ensures Valid() && View() == Init(device.cfg).(dev := device.View())
    {
      this.device := device;
      counts, accumulator, pressures := new int[MAX_CHANNELS], new int[MAX_CHANNELS], new real[MAX_CHANNELS];
      temperatures := new real[MAX_TEMPERATURES];
      at, frames, log, origin, stale := AtOuter, [], [], 0, false;
    }

    // ---- The outer loop ---------------------------------------------------------------------------

    method TestCalibrating(drawn: seq<real>)
      requires Valid() && at.AtOuter? && Enabled(device.protocol, View(), Step(drawn))
      modifies this`at
      ensures Valid() && View() == ThreadStep(device.protocol, old(View()), drawn)
    {
      if device.calibrating {
        at := AtCalibrating;
      } else {
        at := AtEntering;
      }
    }

    method FinishCalibration(drawn: seq<real>)
      requires Valid() && at.AtCalibrating? && Enabled(device.protocol, View(), Step(drawn))
      modifies this`at, device`calibrating, device`status
      ensures Valid() && View() == ThreadStep(device.protocol, old(View()), drawn)
    {
      device.calibrating := false;
      device.status := READY;
      at := AtEntering;
    }

    method EnterScan(drawn: seq<real>)
      requires Valid() && at.AtEntering? && Enabled(device.protocol, View(), Step(drawn))
      modifies this
      ensures Valid() && View() == ThreadStep(device.protocol, old(View()), drawn)
    {
      frameStart := device.scanStart;
      frame := 1;
      frames, origin, stale, at := [], device.scanStart, false, AtBetween;
    }

    // ---- A frame ------------------------------------------------------------------------------------

    method ClearBuffers()
      requires Buffers()
      modifies counts, accumulator, pressures, temperatures
      ensures accumulator[..] == NoSums() && ZeroFrom(0, 0)
    {
      for j := 0 to MAX_CHANNELS
        invariant forall k :: 0 <= k < j ==> counts[k] == 0 && accumulator[k] == 0 && pressures[k] == 0.0
      {
        counts[j], accumulator[j], pressures[j] := 0, 0, 0.0;
      }
      for j := 0 to MAX_TEMPERATURES
        invariant forall k :: 0 <= k < MAX_CHANNELS ==> counts[k] == 0 && accumulator[k] == 0 && pressures[k] == 0.0
        invariant forall k :: 0 <= k < j ==> temperatures[k] == 0.0
      {
        temperatures[j] := 0.0;
      }
    }

    /** The test of m_Scanning. */
    method TestScanning(drawn: seq<real>)
      requires Valid() && at.AtBetween? && Enabled(device.protocol, View(), Step(drawn))
      modifies this`at, this`frameEnd, this`elapsed, this`subStart, this`taken
      modifies this`rate, this`averages, this`steady, this`draws, counts, accumulator, pressures, temperatures
      ensures Valid() && View() == ThreadStep(device.protocol, old(View()), drawn)
    {
      if device.scanning {
        BeginFrame();
      } else {
        at := AtOuter;
      }
    }

    method BeginFrame()
      requires Valid() && at.AtBetween? && RateOk(device.cfg.rate)
      modifies this`at, this`frameEnd, this`elapsed, this`subStart, this`taken
      modifies this`rate, this`averages, this`steady, this`draws, counts, accumulator, pressures, temperatures
      ensures Valid() && View() == ScanModel.BeginFrame(old(View()))
    {
      ClearBuffers();
      BeginTimes();
      rate, averages, steady, draws, at := device.cfg.rate, device.averages, true, [], AtSampling;
    }

    method BeginTimes()
      requires RateOk(device.cfg.rate)
      modifies this`frameEnd, this`elapsed, this`subStart, this`taken
      ensures frameEnd == frameStart + Period(device.cfg.rate) && elapsed == frameStart - device.scanStart
      ensures subStart == frameStart && taken == 0
    {
      frameEnd := frameStart + Period(device.cfg.rate);
      elapsed := frameStart - device.scanStart;
      subStart, taken := frameStart, 0;
    }

    /** The loop over the channels of a sub-frame. */
    method SampleChannels(drawn: seq<real>)
      requires Buffers() && device.physicalPressure <= MAX_CHANNELS == |drawn|
      modifies accumulator
      ensures accumulator[..] == Accumulate(device.protocol, old(accumulator[..]), drawn, device.physicalPressure)
    {
      for j := 0 to device.physicalPressure
        invariant forall k :: 0 <= k < accumulator.Length ==>
          accumulator[k] == old(accumulator[k]) + if k < j then Sample(device.protocol, drawn[k]) else 0
      {
        accumulator[j] := accumulator[j] + Sample(device.protocol, drawn[j]);
      }
    }

    /** The body of the sub-frame loop. */
    method TakeSubFrame(drawn: seq<real>)
      requires Buffers() && device.physicalPressure <= MAX_CHANNELS == |drawn|
      requires RateOk(device.cfg.rate) && device.averages > 0
      modifies this`taken, this`subStart, this`draws, accumulator
      ensures accumulator[..] == Accumulate(device.protocol, old(accumulator[..]), drawn, device.physicalPressure)
      ensures subStart == old(subStart) + SubPeriod(device.cfg.rate, device.averages) && taken == old(taken) + 1
      ensures draws == old(draws) + [drawn]
    {
      SampleChannels(drawn);
      subStart := subStart + SubPeriod(device.cfg.rate, device.averages);
      taken := taken + 1;
      draws := draws + [drawn];
    }

    /** The test of the sub-frame loop. */
    method TestSubFrame(drawn: seq<real>)
      requires Valid() && at.AtSampling? && Enabled(device.protocol, View(), Step(drawn))
      modifies this`at, this`steady, this`draws, this`taken, this`subStart, accumulator
      ensures Valid() && View() == ThreadStep(device.protocol, old(View()), drawn)
    {
      steady := steady && device.cfg.rate == rate && device.averages == averages;
      if taken < device.averages {
        TakeSubFrame(drawn);
      } else {
        at := AtDelivering;
      }
    }

    /** The channel holds its average, in counts and in units. */
    ghost predicate Resolved(j: nat)
      requires Buffers() && j < MAX_CHANNELS
      requires device.averages > 0 && device.protocol.maxCounts > 0
      reads this, device, counts, accumulator, pressures
    {
      && counts[j] == Resolve(device.protocol, accumulator[j], device.averages)
      && pressures[j] == Pressure(device.protocol, counts[j], device.cfg.units)
    }

    method ResolveChannel(j: nat)
      requires Buffers() && j < MAX_CHANNELS
      requires device.averages > 0 && device.protocol.maxCounts > 0
      modifies counts, pressures
      ensures Resolved(j)
      ensures forall k :: 0 <= k < MAX_CHANNELS && k != j ==>
                counts[k] == old(counts[k]) && pressures[k] == old(pressures[k])
    {
      counts[j] := Resolve(device.protocol, accumulator[j], device.averages);
      pressures[j] := Pressure(device.protocol, counts[j], device.cfg.units);
    }

    /** The loop that resolves the averages. */
    method ResolveAverages()
      requires Buffers() && ZeroFrom(0, 0)
      requires device.averages > 0 && device.physicalPressure <= MAX_CHANNELS && device.protocol.maxCounts > 0
      modifies counts, pressures
      ensures forall j :: 0 <= j < device.physicalPressure ==> Resolved(j)
      ensures ZeroFrom(device.physicalPressure, 0)
    {
      for j := 0 to device.physicalPressure
        invariant forall k :: 0 <= k < j ==> Resolved(k)
        invariant ZeroFrom(j, 0)
      {
        label before:
        ResolveChannel(j);
        forall k | 0 <= k < j ensures Resolved(k) {
          assert old@before(Resolved(k));
        }
      }
    }

    /** The loop that derives temperatures from the first channels. */
    method DeriveTemperatures()
      requires Buffers() && device.protocol.maxCounts > 0 && device.physicalTemperature <= MAX_TEMPERATURES
      requires forall j :: 0 <= j < MAX_TEMPERATURES ==> temperatures[j] == 0.0
      modifies temperatures
      ensures forall j :: 0 <= j < device.physicalTemperature ==>
                temperatures[j] == Temperature(device.protocol, counts[j])
      ensures forall j :: device.physicalTemperature <= j < MAX_TEMPERATURES ==> temperatures[j] == 0.0
    {
      for j := 0 to device.physicalTemperature
        invariant forall k :: 0 <= k < j ==> temperatures[k] == Temperature(device.protocol, counts[k])
        invariant forall k :: j <= k < MAX_TEMPERATURES ==> temperatures[k] == 0.0
      {
        temperatures[j] := Temperature(device.protocol, counts[j]);
      }
    }

    /** What the resolved buffers hold, as ScanModel states it. */
    lemma BuffersHoldFrame()
      requires Buffers() && ZeroFrom(device.physicalPressure, MAX_TEMPERATURES)
      requires device.averages > 0 && device.physicalPressure <= MAX_CHANNELS && device.protocol.maxCounts > 0
      requires forall j :: 0 <= j < device.physicalPressure ==> Resolved(j)
      ensures counts[..] == Counts(device.protocol, accumulator[..], device.averages, device.physicalPressure)
      ensures forall j :: 0 <= j < MAX_CHANNELS ==>
                pressures[j] == Pressure(device.protocol, counts[j], device.cfg.units)
    {
      NoPressure(device.protocol, device.cfg.units);
      var all := Counts(device.protocol, accumulator[..], device.averages, device.physicalPressure);
      forall j | 0 <= j < MAX_CHANNELS
        ensures counts[j] == all[j] && pressures[j] == Pressure(device.protocol, counts[j], device.cfg.units)
      {
        if j < device.physicalPressure {
          assert Resolved(j);
        }
      }
    }

    /** Averages, packet and callbacks. */
    method Deliver(drawn: seq<real>) returns (delivered: Frame)
      requires Valid() && at.AtDelivering? && Enabled(device.protocol, View(), Step(drawn))
      modifies this`at, this`frames, this`log, counts, pressures, temperatures
      ensures Valid() && View() == ThreadStep(device.protocol, old(View()), drawn)
      ensures frames == old(frames) + [delivered]
    {
      delivered := Pack();
      frames, log, at := frames + [delivered], log + [frame], AtLimiting;
    }

    method Pack() returns (frame: Frame)
      requires Buffers() && ZeroFrom(0, 0) && accumulator.Length == MAX_CHANNELS
      requires device.protocol.maxCounts > 0 && device.averages > 0 && LayoutFits(device.Layout())
      modifies counts, pressures, temperatures
      ensures frame == FrameOf(device.protocol, device.View(), InFrame())
      ensures accumulator[..] == old(accumulator[..])
    {
      ResolveAverages();
      BuffersHoldFrame();
      DeriveTemperatures();
      var seconds := TruncDiv(elapsed, SECOND);
      var raw := CarriesCounts(device.Layout());
      frame := Frame(this.frame, frameStart, frameEnd, rate, seconds % COUNTER, (elapsed - seconds * SECOND) % COUNTER,
                     device.packetType, device.useBinary && !device.packetType.Undefined?, device.useLabview, raw,
                     counts[..device.packetPressure], pressures[..device.packetPressure],
                     temperatures[..device.packetTemperature]);
    }

    /** The frame limit. */
    method TestLimit(drawn: seq<real>)
      requires Valid() && at.AtLimiting? && Enabled(device.protocol, View(), Step(drawn))
      modifies this`at, this`frameStart, this`frame, device`scanning, device`status
      ensures Valid() && View() == ThreadStep(device.protocol, old(View()), drawn)
    {
      frameStart := frameEnd;
      if device.cfg.fps != 0 && device.cfg.fps == frame {
        device.StopScan();
      }
      frame := (frame + 1) % COUNTER;
      at := AtBetween;
    }
  }

  lemma NoPressure(p: Protocol, units: Units)
    requires p.maxCounts > 0
    ensures Pressure(p, 0, units) == 0.0
  {
    assert 0 as real / p.maxCounts as real == 0.0;
  }
}
