/** The last client to connect wins, in every run; and its handler is always reached. */
module ControlProofs {
  import opened StringUtils
  import opened LineEditor
  import opened ControlModel

  // ---- The invariant ----------------------------------------------------------------------------

  /** The client between insertion and connect callback, if there is one. */
  function Pending(s: Control): set<Id> {
    if s.accepting == Listening then {} else {s.accepting.id}
  }

  /** At most the active and the pending client are connected, and someone is in control exactly
      when the flag says so. */
  ghost predicate ExclusiveInv(s: Control) {
    && s.connections <= {s.active} + Pending(s)
    && 0 !in s.connections
    && (s.accepting != Listening ==> s.accepting.id != 0)
    && (s.connected <==> s.active != 0)
  }

  /** The line buffers belong to the console and the active client; the active client's buffer
      is what its own messages, and no others, have left there. */
  ghost predicate LineInv(s: Control) {
    && s.lines.Keys <= {0, s.active}
    && (s.kind.BinaryServer? ==> s.lines == map[] && s.heard == [] && s.obeyed == [])
    && (s.active != 0 ==> LineOf(s, s.active) == BufferAfter("", s.heard))
    && s.obeyed == Commands(Outcomes("", s.heard))
    && (s.kind.CommandServer? ==> forall r :: r in s.reached ==> r.sender == 0 || r.sender == r.inControl)
  }

  /** Handlers have different ids, and a handler that was just enqueued is the last in the queue
      or already started, which leaves the queue empty. */
  ghost predicate HandlerInv(s: Control) {
    && (forall i, j :: 0 <= i < j < |s.queue| ==> s.queue[i] != s.queue[j])
    && (forall k, l :: 0 <= k < l < |s.slots| && s.slots[k].Busy? && s.slots[l].Busy? ==>
         s.slots[k].id != s.slots[l].id)
    && (forall k :: 0 <= k < |s.slots| && s.slots[k].Busy? ==> s.slots[k].id !in s.queue)
    && (s.accepting.Inserted? ==> s.accepting.id !in s.queue && !InSlot(s, s.accepting.id))
    && (s.accepting.Announcing? ==> s.queue == [] || s.queue[|s.queue| - 1] == s.accepting.id)
  }

  /** The handler of a client is enqueued or running. */
  predicate HasHandler(s: Control, id: Id) {
    id in s.queue || InSlot(s, id)
  }

  /** A client in control whose handler still lives is connected; the client being accepted is
      connected until its handler, once enqueued, has ended. */
  ghost predicate LiveInv(s: Control) {
    && (s.active != 0 && HasHandler(s, s.active) ==> s.active in s.connections)
    && (s.accepting.Inserted? ==> s.accepting.id in s.connections)
    && (s.accepting.Announcing? ==> (s.accepting.id in s.connections <==> HasHandler(s, s.accepting.id)))
    && 0 !in s.queue && !InSlot(s, 0)
  }

  ghost predicate Inv(s: Control) {
    ExclusiveInv(s) && LineInv(s) && HandlerInv(s) && LiveInv(s)
  }

  lemma StepExclusive(s: Control, a: Action)
    requires ExclusiveInv(s) && Enabled(s, a)
    ensures ExclusiveInv(Next(s, a))
  {
  }

  lemma StepLines(s: Control, a: Action)
    requires ExclusiveInv(s) && LineInv(s) && Enabled(s, a)
    ensures LineInv(Next(s, a))
  {
    if a.DataCallback? && s.kind.CommandServer? {
      CommandLines(s, s.slots[a.k].id, s.slots[a.k].at.message);
      SameLines(Command(s, s.slots[a.k].id, s.slots[a.k].at.message), Next(s, a));
      return;
    }
    if a.ConsoleCommand? {
      CommandLines(s, 0, a.message);
      return;
    }
    if a.ConnectCallback? {
      ConnectedLines(s, s.accepting.id);
      SameLines(Connected(s, s.accepting.id), Next(s, a));
      return;
    }
    if a.HandlerKick? {
      KickLines(s, s.slots[a.k].id);
      SameLines(Kick(s, s.slots[a.k].id), Next(s, a));
      return;
    }
    if a.DataCallback? {
      return;
    }
    SameLines(s, Next(s, a));
  }

  lemma SameLines(s: Control, t: Control)
    requires LineInv(s) && t.kind == s.kind && t.active == s.active && t.lines == s.lines
    requires t.heard == s.heard && t.obeyed == s.obeyed && t.reached == s.reached
    ensures LineInv(t)
  {
  }

  lemma CommandLines(s: Control, id: Id, message: string)
    requires LineInv(s) && s.kind.CommandServer?
    ensures LineInv(Command(s, id, message))
  {
    if id != s.active && id != 0 {
      return;
    }
    if id == 0 {
      return;
    }
    OneMessageMore(s.heard, message);
  }

  lemma KickLines(s: Control, id: Id)
    requires LineInv(s)
    ensures LineInv(Kick(s, id))
  {
  }

  lemma ConnectedLines(s: Control, id: Id)
    requires ExclusiveInv(s) && LineInv(s) && id != 0
    ensures LineInv(Connected(s, id))
  {
    if s.connected {
      KickLines(s, s.active);
    }
  }

  lemma OneMessageMore(heard: seq<string>, message: string)
    ensures var (line, outcome) := Edit(BufferAfter("", heard), message);
            && BufferAfter("", heard + [message]) == line
            && Commands(Outcomes("", heard + [message])) ==
               Commands(Outcomes("", heard)) + if outcome.Dispatch? then [outcome.line] else []
  {
    var buffer := BufferAfter("", heard);
    FeedConcat("", heard, [message]);
    assert BufferAfter(buffer, [message]) == Edit(buffer, message).0;
    var outcome := Edit(buffer, message).1;
    assert Outcomes(buffer, [message]) == if outcome == Silent then [] else [outcome];
    CommandsConcat(Outcomes("", heard), Outcomes(buffer, [message]));
  }

  lemma StepHandlers(s: Control, a: Action)
    requires HandlerInv(s) && Enabled(s, a)
    ensures HandlerInv(Next(s, a))
  {
    if a.StartHandler? {
      StartKeepsHandlers(s, a.k);
    } else if HandlerAction(a) {
      SlotKeepsHandlers(s, Next(s, a), a.k);
    }
  }

  lemma SlotKeepsHandlers(s: Control, t: Control, k: nat)
    requires HandlerInv(s) && t.queue == s.queue && t.accepting == s.accepting
    requires k < |s.slots| && s.slots[k].Busy? && k < |t.slots| && t.slots == s.slots[k := t.slots[k]]
    requires t.slots[k] == Free || t.slots[k].id == s.slots[k].id
    ensures HandlerInv(t)
  {
  }

  lemma StartKeepsHandlers(s: Control, k: nat)
    requires HandlerInv(s) && Enabled(s, StartHandler(k))
    ensures HandlerInv(Next(s, StartHandler(k)))
  {
  }

  lemma StepLive(s: Control, a: Action)
    requires ExclusiveInv(s) && HandlerInv(s) && LiveInv(s) && Enabled(s, a)
    ensures LiveInv(Next(s, a))
  {
    if a.StartHandler? {
      StartLive(s, a.k);
      return;
    }
    if a.HandlerKick? {
      KickLive(s, a.k);
      return;
    }
    if HandlerAction(a) {
      SlotLive(s, a);
      return;
    }
    if a.ConnectCallback? {
      ConnectedLive(s);
      return;
    }
    if !a.ConsoleCommand? {
      AcceptLive(s, a);
      return;
    }
  }

  lemma AcceptLive(s: Control, a: Action)
    requires ExclusiveInv(s) && LiveInv(s) && Enabled(s, a) && (a.Accept? || a.EnqueueHandler?)
    ensures LiveInv(Next(s, a))
  {
  }

  lemma StartLive(s: Control, k: nat)
    requires LiveInv(s) && Enabled(s, StartHandler(k))
    ensures LiveInv(Next(s, StartHandler(k)))
  {
    StartMovesHandler(s, k);
  }

  lemma KickLive(s: Control, k: nat)
    requires HandlerInv(s) && LiveInv(s) && Enabled(s, HandlerKick(k))
    ensures LiveInv(Next(s, HandlerKick(k)))
  {
    SlotFreed(s, k);
  }

  lemma SlotLive(s: Control, a: Action)
    requires LiveInv(s) && Enabled(s, a) && HandlerAction(a) && !a.StartHandler? && !a.HandlerKick?
    ensures LiveInv(Next(s, a))
  {
    SlotKept(s, Next(s, a), a.k);
  }

  lemma ConnectedLive(s: Control)
    requires ExclusiveInv(s) && LiveInv(s) && s.accepting.Announcing?
    ensures LiveInv(Next(s, ConnectCallback))
  {
    var t := Next(s, ConnectCallback);
    assert t.queue == s.queue && t.slots == s.slots && t.active == s.accepting.id;
    assert s.accepting.id != s.active ==> t.connections == s.connections - (if s.connected then {s.active} else {});
  }

  /** Which handlers there are does not change when one of them starts. */
  lemma StartMovesHandler(s: Control, k: nat)
    requires Enabled(s, StartHandler(k))
    ensures forall id :: HasHandler(Next(s, StartHandler(k)), id) <==> HasHandler(s, id)
    ensures 0 !in s.queue && !InSlot(s, 0) ==>
              0 !in Next(s, StartHandler(k)).queue && !InSlot(Next(s, StartHandler(k)), 0)
  {
    var t := Next(s, StartHandler(k));
    assert s.queue == [s.queue[0]] + t.queue;
    assert t.slots[k] == Busy(s.queue[0], Checking);
    forall id | InSlot(s, id) ensures InSlot(t, id) {
      var l :| 0 <= l < |s.slots| && s.slots[l].Busy? && s.slots[l].id == id;
      assert l != k && t.slots[l] == s.slots[l];
    }
  }

  lemma SlotKept(s: Control, t: Control, k: nat)
    requires k < |s.slots| && s.slots[k].Busy? && t.queue == s.queue
    requires k < |t.slots| && t.slots == s.slots[k := t.slots[k]] && t.slots[k].Busy? && t.slots[k].id == s.slots[k].id
    ensures forall id :: HasHandler(t, id) <==> HasHandler(s, id)
    ensures InSlot(t, 0) <==> InSlot(s, 0)
  {
    forall id ensures InSlot(t, id) <==> InSlot(s, id) {
      if InSlot(s, id) {
        var l :| 0 <= l < |s.slots| && s.slots[l].Busy? && s.slots[l].id == id;
        assert t.slots[l].Busy? && t.slots[l].id == id;
      }
    }
  }

  /** A handler that ends is the only one of its client. */
  lemma SlotFreed(s: Control, k: nat)
    requires HandlerInv(s) && Enabled(s, HandlerKick(k))
    ensures forall id :: HasHandler(Next(s, HandlerKick(k)), id) <==> HasHandler(s, id) && id != s.slots[k].id
    ensures InSlot(Next(s, HandlerKick(k)), 0) ==> InSlot(s, 0)
  {
    var t := Next(s, HandlerKick(k));
    forall id ensures InSlot(t, id) <==> InSlot(s, id) && id != s.slots[k].id {
      if InSlot(s, id) && id != s.slots[k].id {
        var l :| 0 <= l < |s.slots| && s.slots[l].Busy? && s.slots[l].id == id;
        assert t.slots[l] == s.slots[l];
      }
    }
  }

  lemma StepInv(s: Control, a: Action)
    requires Inv(s) && Enabled(s, a)
    ensures Inv(Next(s, a)) && Next(s, a).kind == s.kind && |Next(s, a).slots| == |s.slots|
  {
    StepExclusive(s, a);
    StepLines(s, a);
    StepHandlers(s, a);
    StepLive(s, a);
  }

  lemma {:induction false} RunInv(s: Control, actions: seq<Action>)
    requires Inv(s) && Run(s, actions)
    ensures Inv(After(s, actions)) && After(s, actions).kind == s.kind && |After(s, actions).slots| == |s.slots|
    decreases |actions|
  {
    if actions == [] {
    } else {
      StepInv(s, actions[0]);
      RunInv(Next(s, actions[0]), actions[1..]);
    }
  }

  ghost predicate Reachable(s: Control) {
    exists kind, free, actions :: Run(Init(kind, free), actions) && After(Init(kind, free), actions) == s
  }

  lemma {:induction false} RunAppend(s: Control, actions: seq<Action>, a: Action)
    requires Run(s, actions) && Enabled(After(s, actions), a)
    ensures Run(s, actions + [a]) && After(s, actions + [a]) == Next(After(s, actions), a)
    decreases |actions|
  {
    if actions == [] {
      assert actions + [a] == [a] && [a][1..] == [];
    } else {
      assert (actions + [a])[1..] == actions[1..] + [a];
      RunAppend(Next(s, actions[0]), actions[1..], a);
    }
  }

  lemma InitReachable(kind: Kind, free: nat)
    ensures Reachable(Init(kind, free))
  {
    assert Run(Init(kind, free), []) && After(Init(kind, free), []) == Init(kind, free);
  }

  lemma NextReachable(s: Control, a: Action)
    requires Reachable(s) && Enabled(s, a)
    ensures Reachable(Next(s, a))
  {
    var kind, free, actions :| Run(Init(kind, free), actions) && After(Init(kind, free), actions) == s;
    RunAppend(Init(kind, free), actions, a);
  }

  lemma ReachableInv(s: Control)
    requires Reachable(s)
    ensures Inv(s)
  {
    var kind, free, actions :| Run(Init(kind, free), actions) && After(Init(kind, free), actions) == s;
    RunInv(Init(kind, free), actions);
  }

  // ---- Last one wins ------------------------------------------------------------------------------

  /** Over every run: nobody but the active client and the one just being accepted is connected,
      so at most one connection outlives an accept; someone is in control exactly when the flag
      is set; line buffers exist for the console and the active client only; and only they reach
      the device through the command server. */
  lemma LastOneWins(s: Control)
    requires Reachable(s)
    ensures s.connections <= {s.active} + Pending(s)
    ensures s.accepting == Listening ==> |s.connections| <= 1
    ensures s.connected <==> s.active != 0
    ensures s.lines.Keys <= {0, s.active}
    ensures s.kind.CommandServer? ==> forall r :: r in s.reached ==> r.sender == 0 || r.sender == r.inControl
  {
    ReachableInv(s);
    if s.accepting == Listening && s.connections != {} {
      assert s.connections == {s.active};
    }
  }

  /** Whoever was in control before, and whatever was typed at the console, the commands obeyed are
      those of the messages that the active client has sent since it took control, and its buffer is
      what these have left there. */
  lemma OwnKeystrokesOnly(s: Control)
    requires Reachable(s)
    ensures s.obeyed == Commands(Outcomes("", s.heard))
    ensures s.active != 0 ==> LineOf(s, s.active) == BufferAfter("", s.heard)
  {
    ReachableInv(s);
  }

  /** So a terminal session typed since then gives its own edited lines. */
  lemma OwnSessionOnly(s: Control, session: seq<Entry>)
    requires Reachable(s) && TypableSession(session) && s.heard == Typed(session)
    ensures s.obeyed == Commands(ExpectedAll(session))
  {
    OwnKeystrokesOnly(s);
    TypedRefinesWhole(session, "");
  }

  // ---- Who is in control is connected ---------------------------------------------------------------

  /** The client in control is connected. */
  predicate Held(s: Control) {
    s.connected ==> s.active in s.connections
  }

  /** A client is announced although its handler has already come to its end. */
  predicate AnnouncesLate(s: Control, a: Action) {
    a.ConnectCallback? && s.accepting.Announcing? && !HasHandler(s, s.accepting.id)
  }

  /** Only a late announcement puts a client in control that is not connected. */
  lemma HeldStepIff(s: Control, a: Action)
    requires Inv(s) && Held(s) && Enabled(s, a)
    ensures Held(Next(s, a)) <==> !AnnouncesLate(s, a)
    ensures AnnouncesLate(s, a) <==> a.ConnectCallback? && s.accepting.id !in s.connections
  {
  }

  ghost predicate HeldThrough(s: Control, actions: seq<Action>)
    requires Run(s, actions)
    decreases |actions|
  {
    Held(s) && (actions != [] ==> HeldThrough(Next(s, actions[0]), actions[1..]))
  }

  ghost predicate SomeAnnouncedLate(s: Control, actions: seq<Action>)
    requires Run(s, actions)
    decreases |actions|
  {
    actions != [] && (AnnouncesLate(s, actions[0]) || SomeAnnouncedLate(Next(s, actions[0]), actions[1..]))
  }

  lemma {:induction false} HeldThroughIff(s: Control, actions: seq<Action>)
    requires Inv(s) && Held(s) && Run(s, actions)
    ensures HeldThrough(s, actions) <==> !SomeAnnouncedLate(s, actions)
    decreases |actions|
  {
    if actions == [] {
    } else {
      HeldStepIff(s, actions[0]);
      StepInv(s, actions[0]);
      if Held(Next(s, actions[0])) {
        HeldThroughIff(Next(s, actions[0]), actions[1..]);
      }
    }
  }

  /** Over every run of a server: whoever is in control is connected, all along, if and only if every
      client's handler is still alive when the client is announced. */
  lemma ConnectedIffNotDropped(kind: Kind, free: nat, actions: seq<Action>)
    requires Run(Init(kind, free), actions)
    ensures HeldThrough(Init(kind, free), actions) <==> !SomeAnnouncedLate(Init(kind, free), actions)
  {
    HeldThroughIff(Init(kind, free), actions);
  }

  /** An announcement puts the new client in control, late or not. */
  lemma AnnouncementTakesControl(s: Control)
    requires Reachable(s) && s.accepting.Announcing?
    ensures var t := Next(s, ConnectCallback);
            && t.active == s.accepting.id && t.connected
            && (t.active in t.connections <==> HasHandler(s, s.accepting.id))
  {
    ReachableInv(s);
  }

  /** A run that leaves the control with a client that is already gone. */
  lemma GoneClientCanBeActive()
    ensures exists s :: Reachable(s) && s.connected && s.active !in s.connections
  {
    InitReachable(CommandServer, 1);
    var s := Take(Init(CommandServer, 1), Accept(1));
    s := Take(s, EnqueueHandler);
    s := Take(s, StartHandler(0));
    s := Take(s, CheckConnection(0));
    s := Take(s, ReceiveFails(0));
    s := Take(s, HandlerKick(0));
    s := Take(s, ConnectCallback);
    assert s.connected && s.active !in s.connections;
  }

  // ---- Who reaches the device through the binary server ----------------------------------------------

  /** It is not the client that the accept loop is about to announce.  The last case is that of a
      handle used twice: a client announced after its handler had ended stays in control although it is
      gone, and the handle that the accept loop got is its own again. */
  predicate Announced(s: Control, id: Id) {
    s.accepting == Listening || id != s.accepting.id || s.active == s.accepting.id
  }

  /** A client with a running handler is in control if and only if it is connected and announced. */
  lemma InControlIff(s: Control, k: nat)
    requires Inv(s) && k < |s.slots| && s.slots[k].Busy?
    ensures s.slots[k].id == s.active <==> s.slots[k].id in s.connections && Announced(s, s.slots[k].id)
  {
    assert HasHandler(s, s.slots[k].id);
  }

  ghost predicate AllInControl(reached: seq<Reached>) {
    forall r :: r in reached ==> r.sender == r.inControl
  }

  /** A start or stop byte is delivered for a client that has been kicked or is not announced yet. */
  predicate DeliversForeign(s: Control, a: Action) {
    && a.DataCallback? && a.k < |s.slots| && s.slots[a.k].Busy? && s.slots[a.k].at.Calling?
    && (StartsOrStops(s.slots[a.k].at.message))
    && !(s.slots[a.k].id in s.connections && Announced(s, s.slots[a.k].id))
  }

  predicate StartsOrStops(message: string) {
    message != "" && (message[0] == 1 as char || message[0] == 0 as char)
  }

  lemma BinaryStepIff(s: Control, a: Action)
    requires Inv(s) && s.kind.BinaryServer? && Enabled(s, a)
    ensures AllInControl(Next(s, a).reached) <==> AllInControl(s.reached) && !DeliversForeign(s, a)
  {
    if a.DataCallback? && StartsOrStops(s.slots[a.k].at.message) {
      InControlIff(s, a.k);
      var r := Reached(s.slots[a.k].id, s.active, s.slots[a.k].at.message[..1]);
      assert Next(s, a).reached == s.reached + [r];
      assert r in Next(s, a).reached;
    }
  }

  ghost predicate SomeForeign(s: Control, actions: seq<Action>)
    requires Run(s, actions)
    decreases |actions|
  {
    actions != [] && (DeliversForeign(s, actions[0]) || SomeForeign(Next(s, actions[0]), actions[1..]))
  }

  lemma {:induction false} BinaryRunIff(s: Control, actions: seq<Action>)
    requires Inv(s) && s.kind.BinaryServer? && Run(s, actions)
    ensures AllInControl(After(s, actions).reached) <==> AllInControl(s.reached) && !SomeForeign(s, actions)
    decreases |actions|
  {
    if actions == [] {
    } else {
      BinaryStepIff(s, actions[0]);
      StepInv(s, actions[0]);
      BinaryRunIff(Next(s, actions[0]), actions[1..]);
    }
  }

  /** Over every run of a binary server: only the client in control has reached the device if and only
      if every start or stop byte was delivered for a client that was connected and announced. */
  lemma BinaryCommandsInControlIff(free: nat, actions: seq<Action>)
    requires Run(Init(BinaryServer, free), actions)
    ensures AllInControl(After(Init(BinaryServer, free), actions).reached) <==>
              !SomeForeign(Init(BinaryServer, free), actions)
  {
    BinaryRunIff(Init(BinaryServer, free), actions);
  }

  /** The binary server does not ask who sends: a client kicked while its last byte was being
      delivered still starts a scan. */
  lemma KickedBinaryClientCanReachDevice()
    ensures exists s :: Reachable(s) && s.kind.BinaryServer? && exists r :: r in s.reached && r.sender != r.inControl
  {
    var s := LastByteInDelivery();
    s := Take(s, Accept(2));
    s := Take(s, EnqueueHandler);
    s := Take(s, ConnectCallback);
    assert s.slots == [Busy(1, Calling([1 as char]))] && s.active == 2 && s.kind.BinaryServer?;
    s := Take(s, DataCallback(0));
    var r := Reached(1, 2, [1 as char][..1]);
    assert r in s.reached;
  }

  /** So does a client that is connected, and was never kicked, before it is announced. */
  lemma UnannouncedBinaryClientCanReachDevice()
    ensures exists s :: Reachable(s) && s.kind.BinaryServer? && s.connections == {1} && s.active == 0
                        && exists r :: r in s.reached && r.sender == 1 && r.inControl == 0
  {
    var s := UnannouncedByteInDelivery();
    s := Take(s, DataCallback(0));
    var r := Reached(1, 0, [1 as char][..1]);
    assert r in s.reached;
  }

  lemma UnannouncedByteInDelivery() returns (s: Control)
    ensures s == Control(BinaryServer, {1}, [], [Busy(1, Calling([1 as char]))], Announcing(1), 0, false,
                         map[], [], [], [], [], 0)
    ensures Reachable(s)
  {
    s := Unannounced();
    s := Take(s, StartHandler(0));
    s := Take(s, CheckConnection(0));
    s := Take(s, Receive(0, [1 as char]));
  }

  lemma Unannounced() returns (s: Control)
    ensures s == Control(BinaryServer, {1}, [1], [Free], Announcing(1), 0, false, map[], [], [], [], [], 0)
    ensures Reachable(s)
  {
    InitReachable(BinaryServer, 1);
    s := Take(Init(BinaryServer, 1), Accept(1));
    s := Take(s, EnqueueHandler);
  }

  lemma LastByteInDelivery() returns (s: Control)
    ensures s == Control(BinaryServer, {1}, [], [Busy(1, Calling([1 as char]))], Listening, 1, true,
                         map[], [[1 as char]], [], [], [], 0)
    ensures Reachable(s)
  {
    s := FirstClient();
    s := Take(s, StartHandler(0));
    s := Take(s, CheckConnection(0));
    s := Take(s, Receive(0, [1 as char]));
  }

  lemma FirstClient() returns (s: Control)
    ensures s == Control(BinaryServer, {1}, [1], [Free], Listening, 1, true, map[], [], [], [], [], 0)
    ensures Reachable(s)
  {
    s := Unannounced();
    s := Take(s, ConnectCallback);
  }

  lemma Take(s: Control, a: Action) returns (t: Control)
    requires Reachable(s) && Enabled(s, a)
    ensures t == Next(s, a) && Reachable(t)
  {
    t := Next(s, a);
    NextReachable(s, a);
  }

  /** Taking control from somebody erases the console's unfinished line. */
  lemma ConsoleLineSurvivesIff(s: Control)
    requires Reachable(s) && s.kind.CommandServer? && s.accepting.Announcing? && 0 in s.lines
    ensures var t, kept := Next(s, ConnectCallback), !s.connected || s.accepting.id == s.active;
            && (0 in t.lines <==> kept)
            && (LineOf(s, 0) != "" ==> (LineOf(t, 0) == LineOf(s, 0) <==> kept))
  {
    ReachableInv(s);
  }

  /** A run in which a character typed at the console is lost. */
  lemma ConsoleLineCanBeLost()
    ensures exists s :: Reachable(s) && s.accepting.Announcing? && LineOf(s, 0) == "a"
                        && LineOf(Next(s, ConnectCallback), 0) == ""
  {
    InitReachable(CommandServer, 1);
    var s := Take(Init(CommandServer, 1), Accept(1));
    s := Take(s, EnqueueHandler);
    s := Take(s, ConnectCallback);
    s := ConsoleTypes(s);
    s := Take(s, Accept(2));
    s := Take(s, EnqueueHandler);
    assert LineOf(s, 0) == "a" && LineOf(Next(s, ConnectCallback), 0) == "";
  }

  lemma ConsoleTypes(s: Control) returns (t: Control)
    requires Reachable(s) && s.kind.CommandServer? && LineOf(s, 0) == ""
    ensures Reachable(t) && t == s.(lines := s.lines[0 := "a"])
  {
    t := Take(s, ConsoleCommand("a"));
    assert "" + "a" == "a";
  }
}
