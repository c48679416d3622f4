/** What a client in control sends does reach the device: nothing that recv() returns is dropped on
    its way through the callback, the line editor and the permission check. */
module Delivery {
  import opened StringUtils
  import opened LineEditor
  import opened ControlModel
  import opened ControlProofs

  /** The commands of one sender. */
  function CommandsFrom(reached: seq<Reached>, id: Id): seq<string> {
    if reached == [] then []
    else (if reached[0].sender == id then [reached[0].command] else []) + CommandsFrom(reached[1..], id)
  }

  /** The commands that are for the device. */
  function ForDevice(lines: seq<string>): seq<string> {
    if lines == [] then []
    else (if lines[0] in APPLICATION_COMMANDS then [] else [lines[0]]) + ForDevice(lines[1..])
  }

  lemma CommandsFromMore(reached: seq<Reached>, more: Reached, id: Id)
    ensures CommandsFrom(reached + [more], id) ==
            CommandsFrom(reached, id) + if more.sender == id then [more.command] else []
  {
    if reached == [] {
      assert [more][1..] == [];
    } else {
      assert (reached + [more])[0] == reached[0] && (reached + [more])[1..] == reached[1..] + [more];
      CommandsFromMore(reached[1..], more, id);
      ConcatAssociative(if reached[0].sender == id then [reached[0].command] else [], CommandsFrom(reached[1..], id),
                        if more.sender == id then [more.command] else []);
    }
  }

  lemma ForDeviceMore(lines: seq<string>, line: string)
    ensures ForDevice(lines + [line]) == ForDevice(lines) + if line in APPLICATION_COMMANDS then [] else [line]
  {
    if lines == [] {
      assert [line][1..] == [];
    } else {
      assert (lines + [line])[0] == lines[0] && (lines + [line])[1..] == lines[1..] + [line];
      ForDeviceMore(lines[1..], line);
      ConcatAssociative(if lines[0] in APPLICATION_COMMANDS then [] else [lines[0]], ForDevice(lines[1..]),
                        if line in APPLICATION_COMMANDS then [] else [line]);
    }
  }

  // ---- The message in the call --------------------------------------------------------------------

  predicate CallsFor(slot: Slot, id: Id) {
    slot.Busy? && slot.id == id && slot.at.Calling?
  }

  lemma InCallSame(slots: seq<Slot>, k: nat, slot: Slot, id: Id)
    requires k < |slots| && !CallsFor(slots[k], id) && !CallsFor(slot, id)
    ensures InCall(slots[k := slot], id) == InCall(slots, id)
  {
    if k == 0 {
      assert slots[k := slot][1..] == slots[1..];
    } else {
      assert slots[k := slot][1..] == slots[1..][k - 1 := slot];
      InCallSame(slots[1..], k - 1, slot, id);
    }
  }

  lemma InCallNone(slots: seq<Slot>, id: Id)
    requires forall k :: 0 <= k < |slots| ==> !CallsFor(slots[k], id)
    ensures InCall(slots, id) == []
  {
    if slots == [] {
    } else {
      assert !CallsFor(slots[0], id);
      forall k | 0 <= k < |slots[1..]| ensures !CallsFor(slots[1..][k], id) {
        assert !CallsFor(slots[k + 1], id);
      }
      InCallNone(slots[1..], id);
    }
  }

  lemma InCallOne(slots: seq<Slot>, k: nat, id: Id)
    requires k < |slots| && CallsFor(slots[k], id)
    requires forall l :: 0 <= l < |slots| && l != k ==> !CallsFor(slots[l], id)
    ensures InCall(slots, id) == [slots[k].at.message]
  {
    if k == 0 {
    } else {
      assert !CallsFor(slots[0], id);
      forall l | 0 <= l < |slots[1..]| && l != k - 1 ensures !CallsFor(slots[1..][l], id) {
        assert !CallsFor(slots[l + 1], id);
      }
      InCallOne(slots[1..], k - 1, id);
    }
  }

  /** A client has one handler, so its slot alone decides. */
  lemma OnlySlot(s: Control, k: nat, id: Id)
    requires HandlerInv(s) && k < |s.slots| && s.slots[k].Busy? && s.slots[k].id == id
    ensures InCall(s.slots, id) == if s.slots[k].at.Calling? then [s.slots[k].at.message] else []
  {
    forall l | 0 <= l < |s.slots| && l != k ensures !CallsFor(s.slots[l], id) {
      if l < k {
        assert !(s.slots[l].Busy? && s.slots[k].Busy?) || s.slots[l].id != s.slots[k].id;
      }
    }
    if s.slots[k].at.Calling? {
      InCallOne(s.slots, k, id);
    } else {
      InCallNone(s.slots, id);
    }
  }

  // ---- The invariant --------------------------------------------------------------------------------

  /** Whatever has been received from the client in control has been handled, or is in the call; and
      whatever commands were in it are what the device was told by this client. */
  ghost predicate DeliveryInv(s: Control) {
    && s.since <= |s.reached|
    && (s.kind.CommandServer? ==>
          && (s.active != 0 ==> s.received == s.heard + InCall(s.slots, s.active))
          && (s.active == 0 ==> s.received == s.heard == s.obeyed == [])
          && (s.active != 0 ==> CommandsFrom(s.reached[s.since..], s.active) == ForDevice(s.obeyed)))
  }

  lemma SlotDelivery(s: Control, k: nat, at: Handling)
    requires DeliveryInv(s) && k < |s.slots| && s.slots[k].Busy? && !s.slots[k].at.Calling? && !at.Calling?
    ensures DeliveryInv(MoveTo(s, k, at))
  {
    InCallSame(s.slots, k, s.slots[k].(at := at), s.active);
  }

  lemma ReceiveDelivery(s: Control, k: nat, message: string)
    requires HandlerInv(s) && LiveInv(s) && DeliveryInv(s) && Enabled(s, Receive(k, message))
    ensures DeliveryInv(Next(s, Receive(k, message)))
  {
    var t := Next(s, Receive(k, message));
    assert InSlot(s, s.slots[k].id);
    if s.slots[k].id == s.active {
      OnlySlot(s, k, s.active);
      assert s.heard + [] == s.heard;
      SlotKeepsHandlers(s, t, k);
      OnlySlot(t, k, s.active);
    } else {
      InCallSame(s.slots, k, t.slots[k], s.active);
    }
  }

  /** OnCommand for the client in control. */
  lemma OwnCommand(s: Control, message: string)
    requires s.kind.CommandServer? && s.active != 0 && s.since <= |s.reached|
    requires CommandsFrom(s.reached[s.since..], s.active) == ForDevice(s.obeyed)
    ensures var t := Command(s, s.active, message);
            && t.heard == s.heard + [message] && t.since == s.since <= |t.reached|
            && CommandsFrom(t.reached[t.since..], t.active) == ForDevice(t.obeyed)
  {
    var outcome := Edit(LineOf(s, s.active), message).1;
    if outcome.Dispatch? {
      ForDeviceMore(s.obeyed, outcome.line);
      var more := Reached(s.active, s.active, outcome.line);
      assert (s.reached + [more])[s.since..] == s.reached[s.since..] + [more];
      CommandsFromMore(s.reached[s.since..], more, s.active);
    }
  }

  lemma ConsoleDelivery(s: Control, message: string)
    requires DeliveryInv(s) && s.kind.CommandServer?
    ensures DeliveryInv(Command(s, 0, message))
  {
    var outcome := Edit(LineOf(s, 0), message).1;
    if outcome.Dispatch? && s.active != 0 {
      var more := Reached(0, s.active, outcome.line);
      assert (s.reached + [more])[s.since..] == s.reached[s.since..] + [more];
      CommandsFromMore(s.reached[s.since..], more, s.active);
    }
  }

  lemma CallbackDelivery(s: Control, k: nat)
    requires HandlerInv(s) && LiveInv(s) && DeliveryInv(s) && Enabled(s, DataCallback(k))
    ensures DeliveryInv(Next(s, DataCallback(k)))
  {
    var t, id, message := Next(s, DataCallback(k)), s.slots[k].id, s.slots[k].at.message;
    if s.kind.BinaryServer? {
      return;
    }
    assert id != 0 by {
      assert InSlot(s, id);
    }
    if id == s.active {
      OnlySlot(s, k, id);
      SlotKeepsHandlers(s, s.(slots := t.slots), k);
      OnlySlot(s.(slots := t.slots), k, id);
      OwnCommand(s, message);
      return;
    }
    InCallSame(s.slots, k, t.slots[k], s.active);
  }

  lemma ConnectedDelivery(s: Control)
    requires DeliveryInv(s) && ExclusiveInv(s) && s.accepting.Announcing?
    ensures DeliveryInv(Next(s, ConnectCallback))
  {
    var t := Next(s, ConnectCallback);
    if s.accepting.id != s.active {
      assert t.reached[t.since..] == [];
    }
  }

  lemma KickDelivery(s: Control, k: nat)
    requires HandlerInv(s) && DeliveryInv(s) && Enabled(s, HandlerKick(k))
    ensures DeliveryInv(Next(s, HandlerKick(k)))
  {
    if s.slots[k].id != s.active {
      InCallSame(s.slots, k, Free, s.active);
    }
  }

  lemma StepDelivery(s: Control, a: Action)
    requires Inv(s) && DeliveryInv(s) && Enabled(s, a)
    ensures DeliveryInv(Next(s, a))
  {
    match a
    case Accept(_) =>
    case EnqueueHandler =>
    case ConnectCallback => ConnectedDelivery(s);
    case StartHandler(k) => InCallSame(s.slots, k, Busy(s.queue[0], Checking), s.active);
    case CheckConnection(k) => SlotDelivery(s, k, if s.slots[k].id in s.connections then Receiving else Kicking);
    case Receive(k, message) => ReceiveDelivery(s, k, message);
    case ReceiveFails(k) => SlotDelivery(s, k, Kicking);
    case DataCallback(k) => CallbackDelivery(s, k);
    case HandlerKick(k) => KickDelivery(s, k);
    case ConsoleCommand(message) => ConsoleDelivery(s, message);
  }

  lemma {:induction false} RunDelivery(s: Control, actions: seq<Action>)
    requires Inv(s) && DeliveryInv(s) && Run(s, actions)
    ensures DeliveryInv(After(s, actions))
    decreases |actions|
  {
    if actions == [] {
    } else {
      StepDelivery(s, actions[0]);
      StepInv(s, actions[0]);
      RunDelivery(Next(s, actions[0]), actions[1..]);
    }
  }

  lemma ReachableDelivery(s: Control)
    requires Reachable(s)
    ensures DeliveryInv(s)
  {
    var kind, free, actions :| Run(Init(kind, free), actions) && After(Init(kind, free), actions) == s;
    RunDelivery(Init(kind, free), actions);
  }

  // ---- Main results -------------------------------------------------------------------------------------

  /** In every run: what recv() has returned from the client in control has all been edited, in order,
      but for the message in the call; and the device was told exactly the commands in it. */
  lemma EverythingReceivedIsHeard(s: Control)
    requires Reachable(s) && s.kind.CommandServer? && s.active != 0
    ensures s.received == s.heard + InCall(s.slots, s.active)
    ensures s.since <= |s.reached|
    ensures CommandsFrom(s.reached[s.since..], s.active) == ForDevice(Commands(Outcomes("", s.heard)))
  {
    ReachableDelivery(s);
    OwnKeystrokesOnly(s);
  }

  /** A session that has been received, typed byte by byte or sent as whole lines, reaches the device as
      exactly its edited lines, whatever others do meanwhile. */
  lemma SessionReachesDevice(s: Control, session: seq<Entry>)
    requires Reachable(s) && s.kind.CommandServer? && s.active != 0 && InCall(s.slots, s.active) == []
    requires TypableSession(session) && (s.received == Typed(session) || s.received == Whole(session))
    ensures s.since <= |s.reached|
    ensures CommandsFrom(s.reached[s.since..], s.active) == ForDevice(Commands(ExpectedAll(session)))
  {
    EverythingReceivedIsHeard(s);
    assert s.heard == s.received;
    TypedRefinesWhole(session, "");
  }

  /** The lines that shut the program down or restart it. */
  predicate MeantForApplication(line: string) {
    || line == "shutdown" || line == "SHUTDOWN"
    || line == "restart" || line == "RESTART" || line == "reboot" || line == "REBOOT"
  }

  /** The data callback of a command server: a message of the client in control is edited, and when it
      completes a line for the device, the device is told this line and nothing else; a message of
      anybody else changes nothing.  On the binary server a first byte of 1 or 0 always goes through. */
  lemma CallbackDelivers(s: Control, k: nat)
    requires Reachable(s) && Enabled(s, DataCallback(k))
    ensures var t, id, m := Next(s, DataCallback(k)), s.slots[k].id, s.slots[k].at.message;
            var quiet := s.(slots := s.slots[k := Busy(id, Checking)]);
            if s.kind.BinaryServer? then
              t == if m != "" && m[0] as int <= 1 then quiet.(reached := s.reached + [Reached(id, s.active, m[..1])])
                   else quiet
            else if id != s.active then t == quiet
            else
              var (line, outcome) := Edit(LineOf(s, id), m);
              && t.heard == s.heard + [m] && t.lines == s.lines[id := line]
              && t == quiet.(heard := t.heard, lines := t.lines, obeyed := t.obeyed, reached := t.reached)
              && t.reached == if outcome.Dispatch? && !MeantForApplication(outcome.line)
                              then s.reached + [Reached(id, id, outcome.line)] else s.reached
  {
    ReachableInv(s);
    assert InSlot(s, s.slots[k].id);
  }

  /** A line from the console is edited in a buffer of its own, and reaches the device in the name of
      nobody. */
  lemma ConsoleDelivers(s: Control, message: string)
    requires s.kind.CommandServer?
    ensures var t := Next(s, ConsoleCommand(message));
            var (line, outcome) := Edit(LineOf(s, 0), message);
            && t == s.(lines := s.lines[0 := line], reached := t.reached)
            && t.reached == if outcome.Dispatch? && !MeantForApplication(outcome.line)
                            then s.reached + [Reached(0, s.active, outcome.line)] else s.reached
  {
  }

  /** One turn of a handler's loop. */
  function Served(s: Control, k: nat, message: string): Control
    requires s.kind.CommandServer? && SlotAt(s, k, Checking)
  {
    Command(s.(received := s.received + [message]), s.slots[k].id, message)
  }

  lemma ServeOne(s: Control, k: nat, message: string, rest: seq<Action>)
    requires s.kind.CommandServer? && SlotAt(s, k, Checking) && message != ""
    requires s.slots[k].id == s.active && s.active in s.connections
    requires Run(Served(s, k, message), rest)
    ensures var actions := [CheckConnection(k)] + ([Receive(k, message)] + ([DataCallback(k)] + rest));
            Run(s, actions) && After(s, actions) == After(Served(s, k, message), rest)
  {
    var a, b, c := CheckConnection(k), Receive(k, message), DataCallback(k);
    var s1 := Next(s, a);
    var s2 := Next(s1, b);
    assert s2.slots[k := Busy(s.active, Checking)] == s.slots;
    assert Next(s2, c) == Served(s, k, message);
    RunOne(s2, c, rest);
    RunOne(s1, b, [c] + rest);
    RunOne(s, a, [b] + ([c] + rest));
  }

  lemma RunOne(s: Control, a: Action, rest: seq<Action>)
    requires Enabled(s, a) && Run(Next(s, a), rest)
    ensures Run(s, [a] + rest) && After(s, [a] + rest) == After(Next(s, a), rest)
  {
    assert ([a] + rest)[1..] == rest;
  }

  /** A connected client whose handler stands at its loop head can be served with any messages. */
  lemma {:induction false} ServeAll(s: Control, k: nat, messages: seq<string>) returns (actions: seq<Action>)
    requires s.kind.CommandServer? && SlotAt(s, k, Checking)
    requires s.slots[k].id == s.active && s.active in s.connections && "" !in messages
    ensures Run(s, actions)
    ensures var t := After(s, actions);
            && t.kind == s.kind && t.active == s.active && t.connections == s.connections && t.slots == s.slots
            && t.received == s.received + messages
    decreases |messages|
  {
    if messages == [] {
      actions := [];
    } else {
      assert messages[0] in messages && messages == [messages[0]] + messages[1..];
      var rest := ServeAll(Served(s, k, messages[0]), k, messages[1..]);
      ServeOne(s, k, messages[0], rest);
      actions := [CheckConnection(k)] + ([Receive(k, messages[0])] + ([DataCallback(k)] + rest));
      ConcatAssociative(s.received, [messages[0]], messages[1..]);
    }
  }

  /** So every session of the client in control can reach the device. */
  lemma SessionCanReachDevice(s: Control, k: nat, session: seq<Entry>) returns (actions: seq<Action>)
    requires Reachable(s) && s.kind.CommandServer? && SlotAt(s, k, Checking)
    requires s.slots[k].id == s.active && s.active in s.connections && s.received == [] && TypableSession(session)
    ensures Run(s, actions)
    ensures var t := After(s, actions);
            && t.active == s.active && t.since <= |t.reached|
            && CommandsFrom(t.reached[t.since..], t.active) == ForDevice(Commands(ExpectedAll(session)))
  {
    ReachableInv(s);
    assert InSlot(s, s.active) && s.active != 0;
    NothingEmptyTyped(session);
    actions := ServeAll(s, k, Typed(session));
    var t := After(s, actions);
    AfterReachable(s, actions);
    assert t.received == Typed(session) by {
      assert [] + Typed(session) == Typed(session);
    }
    ReachableInv(t);
    OnlySlot(t, k, t.active);
    SessionReachesDevice(t, session);
  }

  lemma {:induction false} AfterReachable(s: Control, actions: seq<Action>)
    requires Reachable(s) && Run(s, actions)
    ensures Reachable(After(s, actions))
    decreases |actions|
  {
    if actions == [] {
    } else {
      NextReachable(s, actions[0]);
      AfterReachable(Next(s, actions[0]), actions[1..]);
    }
  }

  lemma SinglesNotEmpty(keys: string)
    ensures "" !in Singles(keys)
  {
  }

  lemma NothingEmptyTyped(session: seq<Entry>)
    ensures "" !in Typed(session)
  {
    if session == [] {
    } else {
      SinglesNotEmpty(session[0].keys);
      NothingEmptyTyped(session[1..]);
    }
  }

  // ---- How connections end --------------------------------------------------------------------------------

  /** The client is connected and its handler is not about to kick it. */
  predicate Staying(s: Control, id: Id) {
    && id in s.connections
    && forall k :: 0 <= k < |s.slots| && s.slots[k].Busy? && s.slots[k].id == id ==> !s.slots[k].at.Kicking?
  }

  /** recv() fails for this client, or another client is announced. */
  predicate MayEnd(s: Control, a: Action, id: Id) {
    a.ConnectCallback? || (a.ReceiveFails? && a.k < |s.slots| && s.slots[a.k].Busy? && s.slots[a.k].id == id)
  }

  lemma StayingStep(s: Control, a: Action, id: Id)
    requires Enabled(s, a) && Staying(s, id) && !MayEnd(s, a, id)
    ensures Staying(Next(s, a), id)
  {
  }

  ghost predicate NothingEnds(s: Control, actions: seq<Action>, id: Id)
    requires Run(s, actions)
    decreases |actions|
  {
    actions != [] ==> !MayEnd(s, actions[0], id) && NothingEnds(Next(s, actions[0]), actions[1..], id)
  }

  /** A client stays connected for as long as its socket works and nobody else is announced. */
  lemma {:induction false} ClientStays(s: Control, actions: seq<Action>, id: Id)
    requires Run(s, actions) && Staying(s, id) && NothingEnds(s, actions, id)
    ensures Staying(After(s, actions), id)
    decreases |actions|
  {
    if actions == [] {
    } else {
      StayingStep(s, actions[0], id);
      ClientStays(Next(s, actions[0]), actions[1..], id);
    }
  }
}
