/** One server (aerolib/src/aero/networking/server.cpp) and the part of ServerLayer
    (application/src/server-layer.cpp) that keeps a single client in control of it, as a
    transition system.

    The accept loop inserts the connection, enqueues its handler and then runs the connect
    callback, as three steps.  Handlers wait in the pool's first-in-first-out queue for one of the
    workers that the accept loop (and the UDP loop) leave free; each free worker is a slot.  A
    callback, and KickClient with its callback, is one step.  While the server runs. */
module ControlModel {
  import opened StringUtils
  import opened LineEditor

  /** A socket handle; 0 stands for nobody, or for the console as the sender of a command. */
  type Id = nat

  /** The command server on port 23, or the binary server on port 503. */
  datatype Kind = CommandServer | BinaryServer

  /** Where the accept loop is. */
  datatype Accepting = Listening | Inserted(id: Id) | Announcing(id: Id)

  /** Where a connection handler is. */
  datatype Handling = Checking | Receiving | Calling(message: string) | Kicking

  datatype Slot = Free | Busy(id: Id, at: Handling)

  /** A command that reached the device: who sent it, and who was in control at that moment. */
  datatype Reached = Reached(sender: Id, inControl: Id, command: string)

  datatype Control = Control(
    kind: Kind,
    connections: set<Id>,      // the keys of m_Connections
    queue: seq<Id>,            // handlers enqueued and not yet started
    slots: seq<Slot>,          // the free workers of the pool
    accepting: Accepting,
    active: Id,
    connected: bool,
    lines: map<Id, string>,    // m_Cmds
    received: seq<string>,     // history: what recv() has returned from the active client, and was
                               // not handled before it took control
    heard: seq<string>,        // history: the messages of the active client that OnCommand has edited
    obeyed: seq<string>,       // history: the commands taken from those messages
    reached: seq<Reached>,     // history: what the device was told to do
    since: nat)                // history: how much of that when the active client took control

  datatype Action =
    | Accept(id: Id)
    | EnqueueHandler
    | ConnectCallback
    | StartHandler(k: nat)
    | CheckConnection(k: nat)
    | Receive(k: nat, message: string)
    | ReceiveFails(k: nat)
    | DataCallback(k: nat)
    | HandlerKick(k: nat)
    | ConsoleCommand(message: string)

  predicate HandlerAction(a: Action) {
    !a.Accept? && !a.EnqueueHandler? && !a.ConnectCallback? && !a.ConsoleCommand?
  }

  /** The workers that the accept loop and the UDP loop leave to the handlers. */
  function FreeWorkers(workers: nat, udp: bool): int {
    workers - 1 - if udp then 1 else 0
  }

  function Init(kind: Kind, free: nat): Control {
    Control(kind, {}, [], seq(free, i => Free), Listening, 0, false, map[], [], [], [], [], 0)
  }

  predicate InSlot(s: Control, id: Id) {
    exists k :: 0 <= k < |s.slots| && s.slots[k].Busy? && s.slots[k].id == id
  }

  predicate SlotAt(s: Control, k: nat, at: Handling) {
    k < |s.slots| && s.slots[k].Busy? && s.slots[k].at == at
  }

  // ---- Callbacks ------------------------------------------------------------------------------

  /** OnClientDisconnected and OnTCPBinaryClientDisconnected. */
  function Disconnected(s: Control, id: Id): Control {
    if id != s.active then s
    else s.(connected := false, active := 0, received := [], heard := [], obeyed := [], since := |s.reached|,
            lines := if s.kind.CommandServer? then s.lines - {id} else s.lines)
  }

  function Kick(s: Control, id: Id): Control {
    var t := Disconnected(s, id);
    t.(connections := t.connections - {id})
  }

  /** The message of a client that is on its way to the data callback, if there is one. */
  function InCall(slots: seq<Slot>, id: Id): seq<string> {
    if slots == [] then []
    else if slots[0].Busy? && slots[0].id == id && slots[0].at.Calling? then [slots[0].at.message]
    else InCall(slots[1..], id)
  }

  /** OnClientConnected and OnTCPBinaryClientConnected.  After the kick the active id is 0, so
      the erase that is meant for the old client's line erases the console's. */
  function Connected(s: Control, id: Id): Control {
    if id == s.active then s
    else
      var t := if s.connected then Kick(s, s.active) else s;
      var lines := if s.connected && s.kind.CommandServer? then t.lines - {t.active} else t.lines;
      t.(lines := lines, active := id, connected := true,
         received := InCall(t.slots, id), heard := [], obeyed := [], since := |t.reached|)
  }

  function LineOf(s: Control, id: Id): string {
    if id in s.lines then s.lines[id] else ""
  }

  /** The commands that OnCommand hands to the application instead of the device. */
  const APPLICATION_COMMANDS := {"shutdown", "SHUTDOWN", "restart", "RESTART", "reboot", "REBOOT"}

  /** OnCommand: only the client in control and the console may edit and submit a line. */
  function Command(s: Control, id: Id, message: string): Control {
    if id != s.active && id != 0 then s
    else
      var (line, outcome) := Edit(LineOf(s, id), message);
      s.(lines := s.lines[id := line],
         heard := if id != 0 then s.heard + [message] else s.heard,
         obeyed := if id != 0 && outcome.Dispatch? then s.obeyed + [outcome.line] else s.obeyed,
         reached := if outcome.Dispatch? && outcome.line !in APPLICATION_COMMANDS
                    then s.reached + [Reached(id, s.active, outcome.line)] else s.reached)
  }

  /** OnTCPBinaryDataReceived: the first byte starts or stops a scan, whoever sent it. */
  function BinaryData(s: Control, id: Id, message: string): Control {
    if message != "" && (message[0] == 1 as char || message[0] == 0 as char)
    then s.(reached := s.reached + [Reached(id, s.active, message[..1])])
    else s
  }

  // ---- Steps ----------------------------------------------------------------------------------

  /** accept() yields a nonzero handle, and the system does not hand it out again while a
      handler for it is queued or running.  recv() on a closed socket only fails. */
  predicate Enabled(s: Control, a: Action) {
    match a
    case Accept(id) => s.accepting == Listening && id != 0 && id !in s.queue && !InSlot(s, id)
    case EnqueueHandler => s.accepting.Inserted?
    case ConnectCallback => s.accepting.Announcing?
    case StartHandler(k) => k < |s.slots| && s.slots[k] == Free && s.queue != []
    case CheckConnection(k) => SlotAt(s, k, Checking)
    case Receive(k, message) => SlotAt(s, k, Receiving) && s.slots[k].id in s.connections && message != ""
    case ReceiveFails(k) => SlotAt(s, k, Receiving)
    case DataCallback(k) => k < |s.slots| && s.slots[k].Busy? && s.slots[k].at.Calling?
    case HandlerKick(k) => SlotAt(s, k, Kicking)
    case ConsoleCommand(_) => s.kind.CommandServer?
  }

  function MoveTo(s: Control, k: nat, at: Handling): Control
    requires k < |s.slots| && s.slots[k].Busy?
  {
    s.(slots := s.slots[k := s.slots[k].(at := at)])
  }

  function Next(s: Control, a: Action): Control
    requires Enabled(s, a)
  {
    match a
    case Accept(id) => s.(connections := s.connections + {id}, accepting := Inserted(id))
    case EnqueueHandler => s.(queue := s.queue + [s.accepting.id], accepting := Announcing(s.accepting.id))
    case ConnectCallback => Connected(s, s.accepting.id).(accepting := Listening)
    case StartHandler(k) => s.(queue := s.queue[1..], slots := s.slots[k := Busy(s.queue[0], Checking)])
    case CheckConnection(k) => MoveTo(s, k, if s.slots[k].id in s.connections then Receiving else Kicking)
    case Receive(k, message) =>
      var received := if s.slots[k].id == s.active then s.received + [message] else s.received;
      MoveTo(s, k, Calling(message)).(received := received)
    case ReceiveFails(k) => MoveTo(s, k, Kicking)
    case DataCallback(k) =>
      var (id, message) := (s.slots[k].id, s.slots[k].at.message);
      MoveTo(if s.kind.CommandServer? then Command(s, id, message) else BinaryData(s, id, message), k, Checking)
    case HandlerKick(k) =>
      var t := Kick(s, s.slots[k].id);
      t.(slots := t.slots[k := Free])
    case ConsoleCommand(message) => Command(s, 0, message)
  }

  ghost predicate Run(s: Control, actions: seq<Action>)
    decreases |actions|
  {
    actions != [] ==> Enabled(s, actions[0]) && Run(Next(s, actions[0]), actions[1..])
  }

  ghost function After(s: Control, actions: seq<Action>): Control
    requires Run(s, actions)
    decreases |actions|
  {
    if actions == [] then s else After(Next(s, actions[0]), actions[1..])
  }
}
