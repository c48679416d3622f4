/** The way of a scan's frames to the UDP socket: the scan thread hands binary frames to
    ServerLayer::OnScanFrame, which gives them to Server::StreamTo while UDP is on; the UDP loop
    pops and sends them.  The scan engine, its clients and the UDP loop are interleaved freely. */
module EndToEnd {
  import opened StringUtils
  import opened Protocol
  import opened Device
  import opened ScanModel
  import opened ScanProofs
  import opened ScanResults
  import opened ScanTiming
  import opened BoundedScan

  datatype Parcel = Parcel(ip: string, port: nat, frame: Frame)

  datatype Path = Path(
    engine: Engine,
    queue: seq<Parcel>,          // m_DataQueue
    inFlight: Option<Parcel>,    // popped by the UDP loop and not yet sent
    sent: seq<Parcel>,           // history: handed to the socket
    given: seq<Parcel>)          // history: handed to StreamTo

  datatype Move = Scan(action: Action) | Pop | Send

  predicate Can(p: Protocol, s: Path, m: Move) {
    match m
    case Scan(action) => Enabled(p, s.engine, action)
    case Pop => s.inFlight == None && s.queue != []
    case Send => s.inFlight.Some?
  }

  /** The frame that a step hands to the frame callback and on to StreamTo. */
  function Handed(p: Protocol, e: Engine, a: Action): seq<Parcel>
    requires Enabled(p, e, a)
  {
    if a.Step? && e.thread.Delivering? then
      var frame := FrameOf(p, e.dev, e.thread.s);
      if frame.binary && Streamed(e.dev.cfg) then [Parcel(e.dev.cfg.udpTarget, e.dev.cfg.udpPort, frame)] else []
    else []
  }

  function Do(p: Protocol, s: Path, m: Move): Path
    requires Can(p, s, m)
  {
    match m
    case Scan(action) =>
      var more := Handed(p, s.engine, action);
      s.(engine := ScanModel.Next(p, s.engine, action), queue := s.queue + more, given := s.given + more)
    case Pop => s.(inFlight := Some(s.queue[0]), queue := s.queue[1..])
    case Send => s.(inFlight := None, sent := s.sent + [s.inFlight.value])
  }

  ghost predicate Moves(p: Protocol, s: Path, moves: seq<Move>)
    decreases |moves|
  {
    moves != [] ==> Can(p, s, moves[0]) && Moves(p, Do(p, s, moves[0]), moves[1..])
  }

  ghost function Done(p: Protocol, s: Path, moves: seq<Move>): Path
    requires Moves(p, s, moves)
    decreases |moves|
  {
    if moves == [] then s else Done(p, Do(p, s, moves[0]), moves[1..])
  }

  /** What has reached the socket, what is on its way there, and what waits, in this order. */
  function Outgoing(s: Path): seq<Parcel> {
    s.sent + (if s.inFlight.Some? then [s.inFlight.value] else []) + s.queue
  }

  // ---- Conservation ---------------------------------------------------------------------------------------

  lemma OutgoingStep(p: Protocol, s: Path, m: Move)
    requires Can(p, s, m) && Outgoing(s) == s.given
    ensures Outgoing(Do(p, s, m)) == Do(p, s, m).given
  {
  }

  /** In every run, nothing handed to StreamTo is lost, repeated or overtaken. */
  lemma {:induction false} StreamConserves(p: Protocol, s: Path, moves: seq<Move>)
    requires Moves(p, s, moves) && Outgoing(s) == s.given
    ensures Outgoing(Done(p, s, moves)) == Done(p, s, moves).given && s.given <= Done(p, s, moves).given
    decreases |moves|
  {
    if moves == [] {
    } else {
      OutgoingStep(p, s, moves[0]);
      StreamConserves(p, Do(p, s, moves[0]), moves[1..]);
    }
  }

  // ---- Nothing is missing -------------------------------------------------------------------------------------

  /** UDP is on, in binary, in every state of the run. */
  ghost predicate UdpOn(p: Protocol, s: Path, moves: seq<Move>)
    requires Moves(p, s, moves)
    decreases |moves|
  {
    && s.engine.dev.cfg.udpEnabled && s.engine.dev.cfg.ftpUdp == BINARY
    && (moves != [] ==> UdpOn(p, Do(p, s, moves[0]), moves[1..]))
  }

  /** Frames will be handed to the frame callback. */
  predicate Ready(d: Device) {
    d.layout.useBinary && !d.layout.packetType.Undefined?
  }

  /** A scan in progress, or a frame begun, has a layout made while UDP was on. */
  predicate Prepared(e: Engine) {
    && Streamed(e.dev.cfg) && !e.dev.cfg.device.OtherDevice?
    && (e.dev.scanning || e.thread.Sampling? || e.thread.Delivering? ==> Ready(e.dev))
  }

  lemma EffectOnLayout(p: Protocol, d: Device, t: Device, amb: Ambient)
    requires Effect(p, d, t, amb) && Streamed(d.cfg) && !d.cfg.device.OtherDevice?
    ensures t.cfg.device == d.cfg.device
    ensures if !d.scanning && t.scanning then Ready(t) else t.layout == d.layout
  {
  }

  lemma PreparedStep(p: Protocol, e: Engine, a: Action)
    requires Enabled(p, e, a) && Prepared(e) && Streamed(ScanModel.Next(p, e, a).dev.cfg)
    ensures Prepared(ScanModel.Next(p, e, a))
  {
    if !a.Step? {
      var amb := CommandEffect(p, e.dev, a);
      EffectOnLayout(p, e.dev, Commanded(p, e.dev, a), amb);
    }
  }

  /** The frames in the last n parcels. */
  function LastFrames(given: seq<Parcel>, n: nat): seq<Frame>
    requires n <= |given|
  {
    seq(n, k requires 0 <= k < n => given[|given| - n + k].frame)
  }

  /** The numbers that the datagrams carry. */
  function Carried(parcels: seq<Parcel>): seq<nat> {
    seq(|parcels|, k requires 0 <= k < |parcels| => parcels[k].frame.number)
  }

  /** The latest parcels are the frames that the scan thread has produced since it began to follow
      the scan, and behind `given` there is a parcel for every frame number behind `log`. */
  ghost predicate Complete(s: Path, log: seq<nat>, given: seq<Parcel>) {
    && (Inside(s.engine.thread) ==>
         |s.engine.frames| <= |s.given| && LastFrames(s.given, |s.engine.frames|) == s.engine.frames)
    && Logged(s.engine.log, s.given, log, given)
  }

  ghost predicate Logged(log: seq<nat>, given: seq<Parcel>, log0: seq<nat>, given0: seq<Parcel>) {
    log0 <= log && Carried(given) == Carried(given0) + log[|log0|..]
  }

  lemma LastFramesPush(given: seq<Parcel>, n: nat, parcel: Parcel)
    requires n <= |given|
    ensures LastFrames(given + [parcel], n + 1) == LastFrames(given, n) + [parcel.frame]
  {
  }

  lemma LoggedPush(log: seq<nat>, given: seq<Parcel>, log0: seq<nat>, given0: seq<Parcel>, parcel: Parcel)
    requires Logged(log, given, log0, given0)
    ensures Logged(log + [parcel.frame.number], given + [parcel], log0, given0)
  {
    var number := parcel.frame.number;
    assert (log + [number])[|log0|..] == log[|log0|..] + [number];
    assert Carried(given + [parcel]) == Carried(given) + [number];
    assert Carried(given0) + (log[|log0|..] + [number]) == (Carried(given0) + log[|log0|..]) + [number];
  }

  lemma CompleteStep(p: Protocol, s: Path, m: Move, log: seq<nat>, given: seq<Parcel>)
    requires Can(p, s, m) && Prepared(s.engine) && Complete(s, log, given)
    ensures Complete(Do(p, s, m), log, given)
  {
    if m.Scan? && m.action.Step? && s.engine.thread.Delivering? {
      var cfg := s.engine.dev.cfg;
      var parcel := Parcel(cfg.udpTarget, cfg.udpPort, FrameOf(p, s.engine.dev, s.engine.thread.s));
      LastFramesPush(s.given, |s.engine.frames|, parcel);
      LoggedPush(s.engine.log, s.given, log, given, parcel);
      assert Do(p, s, m).given == s.given + [parcel];
    } else if m.Scan? {
      assert s.given + [] == s.given;
    }
  }

  lemma {:induction false} CompleteRun(p: Protocol, s: Path, moves: seq<Move>, log: seq<nat>, given: seq<Parcel>)
    requires Moves(p, s, moves) && UdpOn(p, s, moves) && Prepared(s.engine) && Complete(s, log, given)
    ensures Complete(Done(p, s, moves), log, given)
    decreases |moves|
  {
    if moves == [] {
    } else {
      var t := Do(p, s, moves[0]);
      CompleteStep(p, s, moves[0], log, given);
      if moves[0].Scan? {
        PreparedStep(p, s.engine, moves[0].action);
      }
      CompleteRun(p, t, moves[1..], log, given);
    }
  }

  lemma {:induction false} PathInv(p: Protocol, s: Path, moves: seq<Move>)
    requires RangeOk(p) && Moves(p, s, moves) && Inv(p, s.engine)
    ensures Inv(p, Done(p, s, moves).engine)
    decreases |moves|
  {
    if moves == [] {
    } else {
      if moves[0].Scan? {
        StepInv(p, s.engine, moves[0].action);
      }
      PathInv(p, Do(p, s, moves[0]), moves[1..]);
    }
  }

  /** An idle device whose scan thread is at the top of its loop. */
  ghost predicate Idle(p: Protocol, s: Path) {
    && Reachable(p, s.engine) && s.engine.thread.Outer? && !s.engine.dev.scanning
    && !s.engine.dev.cfg.device.OtherDevice?
    && Outgoing(s) == s.given
  }

  /** 1, 2, ..., n, as a 32-bit counter counts. */
  function Counted(n: nat): seq<nat> {
    seq(n, k requires 0 <= k => (k + 1) % COUNTER)
  }

  lemma FramesAreCounted(p: Protocol, e: Engine, given: seq<Parcel>)
    requires Inv(p, e) && |e.frames| <= |given| && LastFrames(given, |e.frames|) == e.frames
    ensures Carried(given)[|given| - |e.frames|..] == Counted(|e.frames|)
  {
    var n := |e.frames|;
    var tail := Carried(given)[|given| - n..];
    forall k | 0 <= k < n ensures tail[k] == Counted(n)[k] {
      assert FrameAt(e.frames, k, e.origin, e.stale);
      assert LastFrames(given, n)[k] == e.frames[k];
    }
  }

  /** From an idle device, while UDP stays on: whatever clients command and however the threads are
      interleaved, the datagrams sent, in flight and queued end with the frames of the scan that the
      thread is following, all of them and in order, numbered 1, 2, 3, ... without gap or repeat
      (modulo the 32-bit counter); and altogether there is one datagram for every frame produced,
      in the order of production. */
  lemma DatagramsAreTheScan(p: Protocol, s: Path, moves: seq<Move>)
    requires RangeOk(p) && Idle(p, s) && Moves(p, s, moves) && UdpOn(p, s, moves)
    ensures var t := Done(p, s, moves);
            Inside(t.engine.thread) ==>
              var n, out := |t.engine.frames|, Outgoing(t);
              n <= |out| && LastFrames(out, n) == t.engine.frames && Carried(out)[|out| - n..] == Counted(n)
    ensures var t := Done(p, s, moves);
            s.engine.log <= t.engine.log && Carried(Outgoing(t)) == Carried(s.given) + t.engine.log[|s.engine.log|..]
  {
    ReachableInv(p, s.engine);
    assert s.engine.log[|s.engine.log|..] == [];
    CompleteRun(p, s, moves, s.engine.log, s.given);
    StreamConserves(p, s, moves);
    PathInv(p, s, moves);
    var t := Done(p, s, moves);
    if Inside(t.engine.thread) {
      FramesAreCounted(p, t.engine, t.given);
    }
  }

  // ---- Nothing else is sent -----------------------------------------------------------------------------------

  /** A step hands over at most the frame it delivers, only while UDP is on in binary, and to the target
      that is configured at that moment. */
  lemma HandedWhere(p: Protocol, s: Path, m: Move)
    requires Can(p, s, m)
    ensures var t, cfg := Do(p, s, m), s.engine.dev.cfg;
            || t.given == s.given
            || (cfg.udpEnabled && cfg.ftpUdp == BINARY && |t.engine.frames| == |s.engine.frames| + 1
                && t.given == s.given + [Parcel(cfg.udpTarget, cfg.udpPort, t.engine.frames[|s.engine.frames|])])
  {
    if m.Scan? && Handed(p, s.engine, m.action) == [] {
      assert s.given + [] == s.given;
    }
  }

  ghost predicate UdpOff(p: Protocol, s: Path, moves: seq<Move>)
    requires Moves(p, s, moves)
    decreases |moves|
  {
    && !(s.engine.dev.cfg.udpEnabled && s.engine.dev.cfg.ftpUdp == BINARY)
    && (moves != [] ==> UdpOff(p, Do(p, s, moves[0]), moves[1..]))
  }

  /** While UDP is off, or its format is not binary, nothing is handed over. */
  lemma {:induction false} NothingWhileOff(p: Protocol, s: Path, moves: seq<Move>)
    requires Moves(p, s, moves) && UdpOff(p, s, moves)
    ensures Done(p, s, moves).given == s.given
    decreases |moves|
  {
    if moves == [] {
    } else {
      HandedWhere(p, s, moves[0]);
      NothingWhileOff(p, Do(p, s, moves[0]), moves[1..]);
    }
  }

  // ---- A scan of n frames --------------------------------------------------------------------------------------

  /** What the scan engine does in a run. */
  ghost function OfEngine(moves: seq<Move>): seq<ScanModel.Action> {
    if moves == [] then []
    else if moves[0].Scan? then [moves[0].action] + OfEngine(moves[1..])
    else OfEngine(moves[1..])
  }

  lemma {:induction false} EngineRuns(p: Protocol, s: Path, moves: seq<Move>)
    requires Moves(p, s, moves)
    ensures Run(p, s.engine, OfEngine(moves)) && After(p, s.engine, OfEngine(moves)) == Done(p, s, moves).engine
    decreases |moves|
  {
    if moves == [] {
    } else {
      EngineRuns(p, Do(p, s, moves[0]), moves[1..]);
      if moves[0].Scan? {
        assert OfEngine(moves)[1..] == OfEngine(moves[1..]);
      }
    }
  }

  /** No client starts or stops the scan or changes its frame limit. */
  ghost predicate QuietMoves(p: Protocol, s: Path, moves: seq<Move>)
    requires Moves(p, s, moves)
    decreases |moves|
  {
    moves != [] ==>
      && (moves[0].Scan? ==> Quiet(p, s.engine, moves[0].action))
      && QuietMoves(p, Do(p, s, moves[0]), moves[1..])
  }

  lemma {:induction false} EngineIsQuiet(p: Protocol, s: Path, moves: seq<Move>)
    requires Moves(p, s, moves) && QuietMoves(p, s, moves)
    ensures Run(p, s.engine, OfEngine(moves)) && QuietRun(p, s.engine, OfEngine(moves))
    decreases |moves|
  {
    EngineRuns(p, s, moves);
    if moves == [] {
    } else {
      EngineIsQuiet(p, Do(p, s, moves[0]), moves[1..]);
      if moves[0].Scan? {
        assert OfEngine(moves)[1..] == OfEngine(moves[1..]);
      }
    }
  }

  /** From the start of a scan of n > 0 frames, while UDP stays on: the datagrams behind those that
      were there before carry 1, 2, 3, ..., k for some k up to n; and k is n as soon as the scan
      is over. */
  lemma DatagramsOfNFrames(p: Protocol, s: Path, moves: seq<Move>, n: nat)
    requires ScanBegins(s.engine) && s.engine.dev.cfg.fps == n && 0 < n < COUNTER && Prepared(s.engine)
    requires s.engine.frames == [] || !Inside(s.engine.thread)
    requires Outgoing(s) == s.given
    requires Moves(p, s, moves) && UdpOn(p, s, moves) && QuietMoves(p, s, moves)
    ensures var t := Done(p, s, moves);
            exists k :: 0 <= k <= n && Carried(Outgoing(t)) == Carried(s.given) + UpTo(k)
                        && (!t.engine.dev.scanning ==> k == n)
  {
    var e, t, actions := s.engine, Done(p, s, moves), OfEngine(moves);
    EngineRuns(p, s, moves);
    EngineIsQuiet(p, s, moves);
    StreamConserves(p, s, moves);
    assert e.log[|e.log|..] == [] && LastFrames(s.given, 0) == [];
    CompleteRun(p, s, moves, e.log, s.given);
    assert e.log == e.log + [] && UpTo(0) == [];
    InScanRun(p, e, actions, e.log, n);
    var k := if t.engine.dev.scanning then Finished(t.engine.thread) else n;
    assert (e.log + UpTo(k))[|e.log|..] == UpTo(k);
    assert Carried(Outgoing(t)) == Carried(s.given) + UpTo(k);
  }

  // ---- Everything is sent -----------------------------------------------------------------------------------------

  ghost function Unsent(s: Path): nat {
    2 * |s.queue| + (if s.inFlight.Some? then 1 else 0)
  }

  ghost function UdpMoves(moves: seq<Move>): nat {
    if moves == [] then 0 else (if moves[0].Scan? then 0 else 1) + UdpMoves(moves[1..])
  }

  /** The account of every run: each parcel handed over costs the UDP loop two moves, and every move
      of the loop, however it is interleaved, pays one of them. */
  lemma {:induction false} UdpLoopPays(p: Protocol, s: Path, moves: seq<Move>)
    requires Moves(p, s, moves)
    ensures |Done(p, s, moves).given| >= |s.given|
    ensures Unsent(Done(p, s, moves)) + UdpMoves(moves) == Unsent(s) + 2 * (|Done(p, s, moves).given| - |s.given|)
    decreases |moves|
  {
    if moves == [] {
    } else {
      UdpLoopPays(p, Do(p, s, moves[0]), moves[1..]);
    }
  }

  /** The UDP loop drains the stream: while anything is unsent it has a move, and after two moves for
      every parcel that was unsent or has come since, everything given has been sent. */
  lemma UdpLoopDrains(p: Protocol, s: Path, moves: seq<Move>)
    requires Outgoing(s) == s.given && Moves(p, s, moves)
    ensures var t := Done(p, s, moves);
            && (Unsent(t) > 0 ==> Can(p, t, Pop) || Can(p, t, Send))
            && (UdpMoves(moves) >= Unsent(s) + 2 * (|t.given| - |s.given|) ==> t.sent == t.given)
  {
    UdpLoopPays(p, s, moves);
    StreamConserves(p, s, moves);
  }
}
