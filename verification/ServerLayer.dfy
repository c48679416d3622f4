/** Server and ServerLayer as objects.  Server holds the connection map and the state of its
    threads; ServerLayer holds the control state that the callbacks update.  Every method is one
    step of ControlModel, and keeps what ControlProofs proves of all runs, or is a callback inside such
    a step. */
module ServerLayer {
  import opened StringUtils
  import opened LineEditor
  import C = ControlModel
  import ControlProofs
  import Delivery

  class Server {
    var connections: set<C.Id>
    var queue: seq<C.Id>
    var slots: seq<C.Slot>
    var accepting: C.Accepting

    constructor (free: nat)
      ensures connections == {} && queue == [] && slots == seq(free, i => C.Free) && accepting == C.Listening
    {
      connections, queue, accepting := {}, [], C.Listening;
      slots := seq(free, i => C.Free);
    }
  }

  class ServerLayer {
    const kind: C.Kind
    const server: Server
    var active: C.Id
    var connected: bool
    var lines: map<C.Id, string>
    ghost var received: seq<string>
    ghost var heard: seq<string>
    ghost var obeyed: seq<string>
    ghost var reached: seq<C.Reached>
    ghost var since: nat

    ghost function View(): C.Control
      reads this, server
    {
      C.Control(kind, server.connections, server.queue, server.slots, server.accepting,
                active, connected, lines, received, heard, obeyed, reached, since)
    }

    /** What every run keeps: one client in control, its own line buffer, live handlers, and nothing
        received from it lost. */
    ghost predicate Valid()
      reads this, server
    {
      ControlProofs.Inv(View()) && Delivery.DeliveryInv(View())
    }

    constructor (kind: C.Kind, free: nat)
      ensures Valid() && View() == C.Init(kind, free) && fresh(server)
    {
      this.kind := kind;
      server := new Server(free);
      active, connected, lines := 0, false, map[];
      received, heard, obeyed, reached, since := [], [], [], [], 0;
    }

    // ---- Callbacks --------------------------------------------------------------------------

    method OnClientDisconnected(id: C.Id)
      modifies this
      ensures View() == C.Disconnected(old(View()), id)
    {
      if id == active {
        connected := false;
        active := 0;
        if kind.CommandServer? {
          lines := lines - {id};
        }
        received, heard, obeyed, since := [], [], [], |reached|;
      }
    }

    /** Server::KickClient: tell the layer, then forget the connection and close its socket. */
    method KickClient(id: C.Id)
      modifies this, server
      ensures View() == C.Kick(old(View()), id)
    {
      OnClientDisconnected(id);
      server.connections := server.connections - {id};
    }

    method OnClientConnected(id: C.Id)
      modifies this, server
      ensures View() == C.Connected(old(View()), id)
    {
      if id == active {
        return;
      }
      if connected {
        KickClient(active);
        if kind.CommandServer? {
          lines := lines - {active};
        }
      }
      active := id;
      connected := true;
      received, heard, obeyed, since := C.InCall(server.slots, id), [], [], |reached|;
    }

    /** Returns what happened, so that the caller can answer the client; None is the refusal. */
    method OnCommand(id: C.Id, message: string) returns (outcome: Option<Outcome>)
      modifies this
      ensures View() == C.Command(old(View()), id, message)
      ensures outcome == if id != old(active) && id != 0 then None
                         else Some(Edit(C.LineOf(old(View()), id), message).1)
    {
      if id != active && id != 0 {
        return None;
      }
      var line := if id in lines then lines[id] else "";
      if id != 0 {
        heard := heard + [message];
      }
      var submitted := message;
      if |message| == 1 {
        if message[0] == BACKSPACE {
          lines := lines[id := if line == "" then line else line[..|line| - 1]];
          return Some(Silent);
        } else if message[0] == ESCAPE {
          submitted := [ESCAPE];
        } else if message[0] != '\r' {
          lines := lines[id := line + message];
          return Some(Silent);
        } else {
          submitted := line;
        }
      }
      var submission := SubmitLine(id, submitted);
      return Some(submission);
    }

    /** The line is complete: clear the buffer and execute the first token, if there is one. */
    method SubmitLine(id: C.Id, line: string) returns (outcome: Outcome)
      modifies this`lines, this`obeyed, this`reached
      ensures outcome == Submit(line) && lines == old(lines)[id := ""]
      ensures obeyed == if id != 0 && outcome.Dispatch? then old(obeyed) + [outcome.line] else old(obeyed)
      ensures reached == if outcome.Dispatch? && outcome.line !in C.APPLICATION_COMMANDS
                         then old(reached) + [C.Reached(id, active, outcome.line)] else old(reached)
    {
      var tokens := SplitString(line, CRLF);
      lines := lines[id := ""];
      if tokens[0] == "" || tokens[0][0] == '\r' {
        return Prompt;
      }
      if id != 0 {
        obeyed := obeyed + [tokens[0]];
      }
      if tokens[0] in C.APPLICATION_COMMANDS {
        return Dispatch(tokens[0]);
      }
      reached := reached + [C.Reached(id, active, tokens[0])];
      return Dispatch(tokens[0]);
    }

    method OnBinaryData(id: C.Id, message: string)
      modifies this
      ensures View() == C.BinaryData(old(View()), id, message)
    {
      if |message| >= 1 && (message[0] == 1 as char || message[0] == 0 as char) {
        reached := reached + [C.Reached(id, active, message[..1])];
      }
    }

    /** A line typed at the console: commands are marked with a slash, anything else is a message
        to the clients. */
    method OnConsoleInput(message: string)
      requires Valid() && kind.CommandServer?
      modifies this
      ensures Valid()
      ensures View() == if |message| > 1 && message[0] == '/' then C.Next(old(View()), C.ConsoleCommand(message[1..]))
                        else old(View())
    {
      if |message| > 1 && message[0] == '/' {
        ControlProofs.StepInv(View(), C.ConsoleCommand(message[1..]));
        Delivery.StepDelivery(View(), C.ConsoleCommand(message[1..]));
        var outcome := OnCommand(0, message[1..]);
      }
    }

    // ---- The accept loop ----------------------------------------------------------------------

    method Accept(id: C.Id)
      requires Valid() && C.Enabled(View(), C.Accept(id))
      modifies server
      ensures Valid() && View() == C.Next(old(View()), C.Accept(id))
    {
      ControlProofs.StepInv(View(), C.Accept(id));
      Delivery.StepDelivery(View(), C.Accept(id));
      server.connections := server.connections + {id};
      server.accepting := C.Inserted(id);
    }

    method EnqueueHandler()
      requires Valid() && C.Enabled(View(), C.EnqueueHandler)
      modifies server
      ensures Valid() && View() == C.Next(old(View()), C.EnqueueHandler)
    {
      ControlProofs.StepInv(View(), C.EnqueueHandler);
      Delivery.StepDelivery(View(), C.EnqueueHandler);
      server.queue := server.queue + [server.accepting.id];
      server.accepting := C.Announcing(server.accepting.id);
    }

    method ConnectCallback()
      requires Valid() && C.Enabled(View(), C.ConnectCallback)
      modifies this, server
      ensures Valid() && View() == C.Next(old(View()), C.ConnectCallback)
    {
      ControlProofs.StepInv(View(), C.ConnectCallback);
      Delivery.StepDelivery(View(), C.ConnectCallback);
      OnClientConnected(server.accepting.id);
      server.accepting := C.Listening;
    }

    // ---- A connection handler -------------------------------------------------------------------

    method StartHandler(k: nat)
      requires Valid() && C.Enabled(View(), C.StartHandler(k))
      modifies server
      ensures Valid() && View() == C.Next(old(View()), C.StartHandler(k))
    {
      ControlProofs.StepInv(View(), C.StartHandler(k));
      Delivery.StepDelivery(View(), C.StartHandler(k));
      var id := server.queue[0];
      server.queue := server.queue[1..];
      server.slots := server.slots[k := C.Busy(id, C.Checking)];
    }

    method CheckConnection(k: nat)
      requires Valid() && C.Enabled(View(), C.CheckConnection(k))
      modifies server
      ensures Valid() && View() == C.Next(old(View()), C.CheckConnection(k))
    {
      ControlProofs.StepInv(View(), C.CheckConnection(k));
      Delivery.StepDelivery(View(), C.CheckConnection(k));
      var id := server.slots[k].id;
      if id !in server.connections {
        server.slots := server.slots[k := C.Busy(id, C.Kicking)];
      } else {
        server.slots := server.slots[k := C.Busy(id, C.Receiving)];
      }
    }

    /** recv() returns: a message, or nothing when it fails or the client has gone. */
    method RecvReturns(k: nat, message: string)
      requires Valid() && C.Enabled(View(), if message == "" then C.ReceiveFails(k) else C.Receive(k, message))
      modifies this`received, server
      ensures Valid() && View() ==
                C.Next(old(View()), if message == "" then C.ReceiveFails(k) else C.Receive(k, message))
    {
      ControlProofs.StepInv(View(), if message == "" then C.ReceiveFails(k) else C.Receive(k, message));
      Delivery.StepDelivery(View(), if message == "" then C.ReceiveFails(k) else C.Receive(k, message));
      var at := if message == "" then C.Kicking else C.Calling(message);
      if message != "" && server.slots[k].id == active {
        received := received + [message];
      }
      server.slots := server.slots[k := server.slots[k].(at := at)];
    }

    method DataCallback(k: nat)
      requires Valid() && C.Enabled(View(), C.DataCallback(k))
      modifies this, server
      ensures Valid() && View() == C.Next(old(View()), C.DataCallback(k))
    {
      ControlProofs.StepInv(View(), C.DataCallback(k));
      Delivery.StepDelivery(View(), C.DataCallback(k));
      var handler := server.slots[k];
      if kind.CommandServer? {
        var outcome := OnCommand(handler.id, handler.at.message);
      } else {
        OnBinaryData(handler.id, handler.at.message);
      }
      server.slots := server.slots[k := handler.(at := C.Checking)];
    }

    method HandlerKick(k: nat)
      requires Valid() && C.Enabled(View(), C.HandlerKick(k))
      modifies this, server
      ensures Valid() && View() == C.Next(old(View()), C.HandlerKick(k))
    {
      ControlProofs.StepInv(View(), C.HandlerKick(k));
      Delivery.StepDelivery(View(), C.HandlerKick(k));
      KickClient(server.slots[k].id);
      server.slots := server.slots[k := C.Free];
    }
  }
}
