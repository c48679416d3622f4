/** The way of a scan's frames to the client of the binary server: the scan thread hands LabVIEW frames
    to ServerLayer::OnLabviewFrame and packets to ServerLayer::OnScanFrame, and each sends its own to the
    connected client when the binary format asks for it. */
module BinaryFeed {
  import opened StringUtils
  import opened Protocol
  import opened Device
  import opened ScanModel
  import opened ScanProofs
  import opened ScanResults

  type Id = nat

  /** One SendBuffer to the active client of the binary server. */
  datatype Sending = Sending(client: Id, labview: bool, frame: Frame)

  datatype Feed = Feed(
    engine: Engine,
    client: Option<Id>,       // the active client of the binary server, while it is connected
    sends: seq<Sending>)      // history

  datatype Move = Scan(action: Action) | Connect(id: Id) | Leave

  predicate Can(p: Protocol, s: Feed, m: Move) {
    m.Scan? ==> Enabled(p, s.engine, m.action)
  }

  /** What a step sends. */
  function Handed(p: Protocol, e: Engine, a: Action, client: Option<Id>): seq<Sending>
    requires Enabled(p, e, a)
  {
    if a.Step? && e.thread.Delivering? && client.Some? then
      var frame := FrameOf(p, e.dev, e.thread.s);
      (if frame.labview && e.dev.cfg.binary.LABVIEW? then [Sending(client.value, true, frame)] else [])
      + (if frame.binary && e.dev.cfg.binary.BINARY? then [Sending(client.value, false, frame)] else [])
    else []
  }

  function Do(p: Protocol, s: Feed, m: Move): Feed
    requires Can(p, s, m)
  {
    match m
    case Scan(action) =>
      s.(engine := Next(p, s.engine, action), sends := s.sends + Handed(p, s.engine, action, s.client))
    case Connect(id) => s.(client := Some(id))
    case Leave => s.(client := None)
  }

  ghost predicate Moves(p: Protocol, s: Feed, moves: seq<Move>)
    decreases |moves|
  {
    moves != [] ==> Can(p, s, moves[0]) && Moves(p, Do(p, s, moves[0]), moves[1..])
  }

  ghost function Done(p: Protocol, s: Feed, moves: seq<Move>): Feed
    requires Moves(p, s, moves)
    decreases |moves|
  {
    if moves == [] then s else Done(p, Do(p, s, moves[0]), moves[1..])
  }

  // ---- Every frame of the scan is sent --------------------------------------------------------------------

  /** The same client is connected, and the format is the same, in every state of the run. */
  ghost predicate Feeding(p: Protocol, s: Feed, moves: seq<Move>, id: Id, format: Format)
    requires Moves(p, s, moves)
    decreases |moves|
  {
    && s.client == Some(id) && s.engine.dev.cfg.binary == format
    && (moves != [] ==> Feeding(p, Do(p, s, moves[0]), moves[1..], id, format))
  }

  predicate HandsOut(l: Layout, format: Format) {
    if format.LABVIEW? then l.useLabview else l.useBinary && !l.packetType.Undefined?
  }

  /** A scan in progress, or a frame begun, has a layout made for this format. */
  predicate Prepared(e: Engine, format: Format) {
    && e.dev.cfg.binary == format && !e.dev.cfg.device.OtherDevice?
    && (e.dev.scanning || e.thread.Sampling? || e.thread.Delivering? ==> HandsOut(e.dev.layout, format))
  }

  lemma EffectOnLayout(p: Protocol, d: Device, t: Device, amb: Ambient)
    requires Effect(p, d, t, amb) && d.cfg.binary in {BINARY, LABVIEW} && !d.cfg.device.OtherDevice?
    ensures t.cfg.device == d.cfg.device
    ensures if !d.scanning && t.scanning then HandsOut(t.layout, d.cfg.binary) else t.layout == d.layout
  {
  }

  lemma PreparedStep(p: Protocol, e: Engine, a: Action, format: Format)
    requires Enabled(p, e, a) && Prepared(e, format) && format in {BINARY, LABVIEW}
    requires Next(p, e, a).dev.cfg.binary == format
    ensures Prepared(Next(p, e, a), format)
  {
    if !a.Step? {
      var amb := CommandEffect(p, e.dev, a);
      EffectOnLayout(p, e.dev, Commanded(p, e.dev, a), amb);
    }
  }

  /** One sending for each frame. */
  function SentTo(id: Id, labview: bool, frames: seq<Frame>): seq<Sending> {
    seq(|frames|, k requires 0 <= k < |frames| => Sending(id, labview, frames[k]))
  }

  /** The latest sendings are the frames that the scan thread has produced since it began to follow the
      scan. */
  ghost predicate Complete(s: Feed, id: Id, labview: bool) {
    Inside(s.engine.thread) ==>
      var n := |s.engine.frames|;
      n <= |s.sends| && s.sends[|s.sends| - n..] == SentTo(id, labview, s.engine.frames)
  }

  lemma SentToMore(sends: seq<Sending>, id: Id, labview: bool, frames: seq<Frame>, frame: Frame)
    requires |frames| <= |sends| && sends[|sends| - |frames|..] == SentTo(id, labview, frames)
    ensures var more := sends + [Sending(id, labview, frame)];
            more[|more| - |frames + [frame]|..] == SentTo(id, labview, frames + [frame])
  {
    var more := sends + [Sending(id, labview, frame)];
    assert more[|more| - |frames + [frame]|..] == sends[|sends| - |frames|..] + [Sending(id, labview, frame)];
  }

  lemma CompleteStep(p: Protocol, s: Feed, m: Move, id: Id, format: Format)
    requires Can(p, s, m) && s.client == Some(id) && format in {BINARY, LABVIEW}
    requires Prepared(s.engine, format) && Complete(s, id, format.LABVIEW?)
    ensures Complete(Do(p, s, m), id, format.LABVIEW?)
  {
    if !m.Scan? {
      return;
    }
    if m.action.Step? && s.engine.thread.Delivering? {
      DeliverComplete(p, s, m.action, id, format);
      return;
    }
    FramesStay(p, s.engine, m.action);
    assert Do(p, s, m).sends == s.sends + [] == s.sends;
    NothingSentYet(s.sends, id, format.LABVIEW?);
  }

  /** Only a delivery adds to the frames of the scan that is followed. */
  lemma FramesStay(p: Protocol, e: Engine, a: Action)
    requires Enabled(p, e, a) && !(a.Step? && e.thread.Delivering?)
    ensures var t := Next(p, e, a);
            Inside(t.thread) ==> t.frames == [] || (Inside(e.thread) && t.frames == e.frames)
  {
  }

  lemma NothingSentYet(sends: seq<Sending>, id: Id, labview: bool)
    ensures sends[|sends|..] == SentTo(id, labview, [])
  {
  }

  lemma DeliverComplete(p: Protocol, s: Feed, a: Action, id: Id, format: Format)
    requires Enabled(p, s.engine, a) && a.Step? && s.engine.thread.Delivering?
    requires s.client == Some(id) && format in {BINARY, LABVIEW}
    requires Prepared(s.engine, format) && Complete(s, id, format.LABVIEW?)
    ensures Complete(Do(p, s, Scan(a)), id, format.LABVIEW?)
  {
    var frame := FrameOf(p, s.engine.dev, s.engine.thread.s);
    var one := [Sending(id, format.LABVIEW?, frame)];
    assert Handed(p, s.engine, a, s.client) == one by {
      assert [] + one == one && one + [] == one;
    }
    SentToMore(s.sends, id, format.LABVIEW?, s.engine.frames, frame);
  }

  lemma {:induction false} CompleteRun(p: Protocol, s: Feed, moves: seq<Move>, id: Id, format: Format)
    requires Moves(p, s, moves) && Feeding(p, s, moves, id, format) && format in {BINARY, LABVIEW}
    requires Prepared(s.engine, format) && Complete(s, id, format.LABVIEW?)
    ensures Complete(Done(p, s, moves), id, format.LABVIEW?)
    decreases |moves|
  {
    if moves == [] {
    } else {
      CompleteStep(p, s, moves[0], id, format);
      if moves[0].Scan? {
        PreparedStep(p, s.engine, moves[0].action, format);
      }
      CompleteRun(p, Do(p, s, moves[0]), moves[1..], id, format);
    }
  }

  /** From an idle device, while one client stays connected to the binary server and the format stays the
      same, binary or LabVIEW: whatever clients command, whether or not UDP or FTP is on, the latest
      sendings are the frames of the scan that the thread is following, all of them, each once, in order,
      in that format and to that client. */
  lemma ClientGetsTheScan(p: Protocol, s: Feed, moves: seq<Move>, id: Id, format: Format)
    requires s.engine.thread.Outer? && !s.engine.dev.scanning && !s.engine.dev.cfg.device.OtherDevice?
    requires Moves(p, s, moves) && Feeding(p, s, moves, id, format) && format in {BINARY, LABVIEW}
    ensures var t := Done(p, s, moves);
            Inside(t.engine.thread) ==>
              && |t.engine.frames| <= |t.sends|
              && t.sends[|t.sends| - |t.engine.frames|..] == SentTo(id, format.LABVIEW?, t.engine.frames)
  {
    CompleteRun(p, s, moves, id, format);
  }

  // ---- Nothing else is sent --------------------------------------------------------------------------------

  /** A step sends at most the frame it delivers, to the client that is connected at that moment, and in
      the form that the format asks for at that moment. */
  lemma SentWhere(p: Protocol, s: Feed, m: Move)
    requires Can(p, s, m)
    ensures var t, format := Do(p, s, m), s.engine.dev.cfg.binary;
            || t.sends == s.sends
            || (s.client.Some? && |t.engine.frames| == |s.engine.frames| + 1
                && (format == LABVIEW || format == BINARY)
                && t.sends == s.sends
                   + [Sending(s.client.value, format == LABVIEW, t.engine.frames[|s.engine.frames|])])
  {
    if m.Scan? {
      var more := Handed(p, s.engine, m.action, s.client);
      if more == [] {
        assert s.sends + [] == s.sends;
      }
    }
  }
}
