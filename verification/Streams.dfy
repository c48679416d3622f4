/** The paths that buffers take: from the scan thread's callbacks to the UDP queue and the TCP
    sockets, and from a socket to the command callbacks (aerolib/src/aero/networking/server.cpp,
    application/src/server-layer.cpp).  A method is one step of one thread, or part of one; `held`
    are the blocks that the step holds besides the argument. */
module Streams {
  import opened StringUtils
  import opened Buffers
  import opened Ledger
  import opened Protocol

  type Id = nat

  datatype Datagram = Datagram(ip: string, port: nat, bytes: seq<Byte>)

  datatype Port = CommandPort | BinaryPort

  /** One send() for every client in the set. */
  datatype Sent = Sent(port: Port, clients: set<Id>, bytes: seq<Byte>)

  function DatagramOf(p: Packet): Datagram { Datagram(p.ip, p.port, p.bytes) }

  function Datagrams(queue: seq<Packet>): seq<Datagram> {
    seq(|queue|, i requires 0 <= i < |queue| => DatagramOf(queue[i]))
  }

  function Flying(inFlight: Option<Packet>): seq<Datagram> {
    if inFlight.Some? then [DatagramOf(inFlight.value)] else []
  }

  /** The place of a byte in its word, counted from the other end. */
  function Mirror(i: nat, size: nat): (j: nat)
    requires i < size && size % 4 == 0
    ensures j < size && j / 4 == i / 4 && j % 4 == 3 - i % 4
  {
    4 * (i / 4) + (3 - i % 4)
  }

  /** Every 32-bit word with its bytes reversed; a block of another size is left alone. */
  function NetworkOrder(bytes: seq<Byte>): (r: seq<Byte>)
    ensures |r| == |bytes|
  {
    if |bytes| % 4 != 0 then bytes
    else seq(|bytes|, i requires 0 <= i < |bytes| => bytes[Mirror(i, |bytes|)])
  }

  /** In every 32-bit word the first byte and the last, and the two between, change places. */
  lemma WordsAreSwapped(bytes: seq<Byte>, w: nat, b: nat)
    requires |bytes| % 4 == 0 && 4 * w + 4 <= |bytes| && b < 4
    ensures |NetworkOrder(bytes)| == |bytes| && NetworkOrder(bytes)[4 * w + b] == bytes[4 * w + 3 - b]
  {
    assert (4 * w + b) / 4 == w && (4 * w + b) % 4 == b;
  }

  /** Reading a swapped block in the other byte order gives the words back. */
  lemma SwappedTwice(bytes: seq<Byte>)
    ensures NetworkOrder(NetworkOrder(bytes)) == bytes
  {
  }

  lemma DatagramsPush(queue: seq<Packet>, p: Packet)
    ensures Datagrams(queue + [p]) == Datagrams(queue) + [DatagramOf(p)]
  {
  }

  lemma DatagramsPop(queue: seq<Packet>)
    requires queue != []
    ensures Datagrams(queue) == [DatagramOf(queue[0])] + Datagrams(queue[1..])
  {
  }

  lemma GivenPush(gone: seq<Datagram>, waiting: seq<Datagram>, d: Datagram)
    ensures (gone + waiting) + [d] == gone + (waiting + [d])
  {
  }

  lemma GivenPop(gone: seq<Datagram>, d: Datagram, waiting: seq<Datagram>)
    ensures gone + [] + ([d] + waiting) == gone + [d] + waiting
  {
  }

  lemma GivenSent(gone: seq<Datagram>, d: Datagram, waiting: seq<Datagram>)
    ensures (gone + [d]) + [] + waiting == gone + [d] + waiting
  {
  }

  lemma HandOver(held: set<Address>, a: Address)
    requires a !in held
    ensures held + {a} - {a} == held && held + {} - {a} == held
  {
  }

  class Streams {
    const arena: Arena
    var queue: seq<Packet>             // m_DataQueue
    var inFlight: Option<Packet>       // popped by the UDP loop and not yet released
    var receiving: seq<Address>        // the receive buffer of the handler on each worker
    var commandClients: set<Id>        // m_Connections of the two servers
    var binaryClients: set<Id>
    ghost var owner: map<Address, Owner>
    ghost var popped: nat
    ghost var given: seq<Datagram>     // history: everything handed to StreamTo
    ghost var sent: seq<Datagram>      // history: everything handed to the UDP socket
    ghost var tcp: seq<Sent>           // history: everything handed to TCP clients

    ghost function Now(): Books
      reads this
    {
      Books(owner, popped, queue, inFlight, receiving)
    }

    ghost predicate Holding(held: set<Address>)
      reads this, arena
    {
      && arena.Valid() && Balanced(arena.blocks, Now(), held)
      && given == sent + Flying(inFlight) + Datagrams(queue)
    }

    /** What holds between any two steps.  Nothing leaks: by Ledger.LiveIsNeeded the live blocks are
        those of the queued packets, the packet in flight and one receive buffer per running
        handler.  Nothing is lost: packets sent, in flight and queued are everything handed to
        StreamTo, in order and once. */
    ghost predicate Steady()
      reads this, arena
    {
      Holding({})
    }

    constructor (workers: nat)
      ensures Steady() && fresh(arena) && given == sent == [] && receiving == seq(workers, i => NULL)
    {
      arena := new Arena();
      queue, inFlight, receiving := [], None, seq(workers, i => NULL);
      commandClients, binaryClients := {}, {};
      owner, popped, given, sent, tcp := map[], 0, [], [], [];
    }

    // ---- Sending --------------------------------------------------------------------------------------

    function Clients(port: Port): set<Id>
      reads this
    {
      if port.CommandPort? then commandClients else binaryClients
    }

    function Sends(port: Port, id: Id, bytes: seq<Byte>): seq<Sent>
      reads this
    {
      if id == 0 then [Sent(port, Clients(port), bytes)]
      else if id in Clients(port) then [Sent(port, {id}, bytes)] else []
    }

    /** What a message leads to: at most one answer, and none on the binary port. */
    function Answers(port: Port, id: Id, reply: Option<seq<Byte>>): seq<Sent>
      reads this
    {
      if port.CommandPort? && reply.Some? then Sends(port, id, reply.value) else []
    }

    /** What a frame leads to on the binary port: one of its two forms, as the format has it. */
    function BinarySends(cfg: Config, connected: bool, active: Id, labview: Option<seq<Byte>>,
            binary: Option<seq<Byte>>): seq<Sent>
      reads this
    {
      if !connected then []
      else if cfg.binary.LABVIEW? && labview.Some? then Sends(BinaryPort, active, NetworkOrder(labview.value))
      else if cfg.binary.BINARY? && binary.Some? then Sends(BinaryPort, active, binary.value)
      else []
    }

    /** Buffer::Copy; the step then holds the copy. */
    method Obtain(bytes: seq<Byte>, ghost held: set<Address>) returns (copy: Buffer)
      requires Holding(held)
      modifies arena
      ensures fresh(copy) && copy.Live(arena) && copy.Bytes(arena) == bytes
      ensures copy.data !in old(arena.blocks) && Holding(held + copy.Held()) && copy.data !in held
      ensures forall a :: a in old(arena.blocks) ==> a in arena.blocks && arena.blocks[a] == old(arena.blocks[a])
      ensures arena.released == old(arena.released)
    {
      ghost var before := arena.blocks;
      copy := Copy(arena, bytes);
      if copy.data != NULL {
        Same(before, arena.blocks, Now(), held, copy.data);
      } else {
        assert held + copy.Held() == held && arena.blocks == before;
      }
    }

    /** Copy a live buffer. */
    method CopyOf(buf: Buffer, ghost held: set<Address>) returns (copy: Buffer)
      requires buf.Live(arena) && Holding(held)
      modifies arena
      ensures fresh(copy) && copy.Live(arena) && copy.Bytes(arena) == old(buf.Bytes(arena))
      ensures copy.data !in old(arena.blocks) && Holding(held + copy.Held()) && copy.data !in held
      ensures forall a :: a in old(arena.blocks) ==> a in arena.blocks && arena.blocks[a] == old(arena.blocks[a])
      ensures arena.released == old(arena.released)
    {
      copy := Obtain(buf.Bytes(arena), held);
    }

    /** SwapToNetworkOrderInPlace. */
    method Swap(buf: Buffer, ghost held: set<Address>)
      requires buf.Live(arena) && buf.Held() <= held && Holding(held)
      modifies arena`blocks
      ensures Holding(held) && buf.Live(arena) && buf.Bytes(arena) == NetworkOrder(old(buf.Bytes(arena)))
    {
      if buf.data == NULL {
        return;
      }
      ghost var before := arena.blocks;
      var swapped := NetworkOrder(buf.Bytes(arena));
      arena.Write(buf.data, swapped);
      assert swapped + before[buf.data][|swapped|..] == swapped;
      Overwrite(before, Now(), held, buf.data, swapped);
    }

    /** Release a buffer that the step holds. */
    method Free(buf: Buffer, ghost held: set<Address>)
      requires buf.Live(arena) && buf.Held() <= held && Holding(held)
      modifies arena, buf
      ensures buf.data == NULL && buf.size == 0 && Holding(held - old(buf.Held()))
      ensures arena.blocks == old(arena.blocks) - old(buf.Held())
      ensures arena.released == old(arena.released) + (if old(buf.data) == NULL then [] else [old(buf.data)])
    {
      if buf.data != NULL {
        Drop(arena.blocks, Now(), held, buf.data);
      } else {
        assert held - buf.Held() == held && arena.blocks - buf.Held() == arena.blocks;
      }
      buf.Release(arena);
    }

    /** Push a packet whose block the step holds. */
    method Enqueue(packet: Packet, ghost held: set<Address>)
      requires Holding(held) && PacketOk(arena.blocks, packet) && (packet.data != NULL ==> packet.data in held)
      modifies this`queue, this`owner, this`given
      ensures Holding(held - {packet.data})
      ensures given == old(given) + [DatagramOf(packet)]
      ensures Datagrams(queue) == old(Datagrams(queue)) + [DatagramOf(packet)]
    {
      Push(arena.blocks, Now(), held, packet);
      DatagramsPush(queue, packet);
      GivenPush(sent + Flying(inFlight), Datagrams(queue), DatagramOf(packet));
      owner := Pushed(Now(), packet).owner;
      queue := queue + [packet];
      given := given + [DatagramOf(packet)];
    }

    /** Server::StreamTo: queue a copy, release the argument. */
    method StreamTo(ip: string, port: nat, buf: Buffer, ghost held: set<Address>)
      requires buf.Live(arena) && buf.Held() <= held && Holding(held)
      modifies this`queue, this`owner, this`given, arena, buf
      ensures Holding(held - old(buf.Held()))
      ensures given == old(given) + [Datagram(ip, port, old(buf.Bytes(arena)))]
      ensures Datagrams(queue) == old(Datagrams(queue)) + [Datagram(ip, port, old(buf.Bytes(arena)))]
      ensures forall a :: a in old(arena.blocks) && a !in old(buf.Held()) ==>
                a in arena.blocks && arena.blocks[a] == old(arena.blocks[a])
    {
      var copy := CopyOf(buf, held);
      HandOver(held, copy.data);
      Enqueue(Packet(ip, port, copy.data, copy.size, copy.Bytes(arena)), held + copy.Held());
      Free(buf, held);
    }

    /** Server::SendBuffer; id 0 sends to everybody, an unknown id to nobody. */
    method SendBuffer(port: Port, id: Id, buf: Buffer, ghost held: set<Address>)
      requires buf.Live(arena) && buf.Held() <= held && Holding(held)
      modifies this`tcp, arena, buf
      ensures Holding(held - old(buf.Held()))
      ensures tcp == old(tcp) + Sends(port, id, old(buf.Bytes(arena)))
      ensures forall a :: a in old(arena.blocks) && a !in old(buf.Held()) ==>
                a in arena.blocks && arena.blocks[a] == old(arena.blocks[a])
    {
      if id == 0 {
        tcp := tcp + [Sent(port, Clients(port), buf.Bytes(arena))];   // SendBufferToAll
        Free(buf, held);
        return;
      }
      if id !in Clients(port) {
        Free(buf, held);
        return;
      }
      tcp := tcp + [Sent(port, {id}, buf.Bytes(arena))];
      Free(buf, held);
    }

    /** Server::SendString. */
    method SendString(port: Port, id: Id, text: seq<Byte>, ghost held: set<Address>)
      requires Holding(held)
      modifies this`tcp, arena
      ensures Holding(held) && tcp == old(tcp) + Sends(port, id, text)
      ensures forall a :: a in old(arena.blocks) ==> a in arena.blocks && arena.blocks[a] == old(arena.blocks[a])
    {
      var copy := Obtain(text, held);
      HandOver(held, copy.data);
      SendBuffer(port, id, copy, held + copy.Held());
    }

    /** Hand a copy to StreamTo; the step keeps the original. */
    method StreamCopy(ip: string, port: nat, buf: Buffer, ghost held: set<Address>)
      requires buf.Live(arena) && buf.Held() <= held && Holding(held)
      modifies this`queue, this`owner, this`given, arena
      ensures Holding(held) && buf.Live(arena) && buf.Bytes(arena) == old(buf.Bytes(arena))
      ensures given == old(given) + [Datagram(ip, port, buf.Bytes(arena))]
    {
      var copy := CopyOf(buf, held);
      HandOver(held, copy.data);
      StreamTo(ip, port, copy, held + copy.Held());
    }

    /** Hand a copy to SendBuffer; the step keeps the original. */
    method SendCopy(port: Port, id: Id, buf: Buffer, ghost held: set<Address>)
      requires buf.Live(arena) && buf.Held() <= held && Holding(held)
      modifies this`tcp, arena
      ensures Holding(held) && buf.Live(arena) && buf.Bytes(arena) == old(buf.Bytes(arena))
      ensures tcp == old(tcp) + Sends(port, id, buf.Bytes(arena))
    {
      var copy := CopyOf(buf, held);
      HandOver(held, copy.data);
      SendBuffer(port, id, copy, held + copy.Held());
    }

    /** Release all that the step holds. */
    method FreeLast(buf: Buffer)
      requires buf.Live(arena) && Holding(buf.Held())
      modifies arena, buf
      ensures Steady() && buf.data == NULL
      ensures arena.released == old(arena.released) + (if old(buf.data) == NULL then [] else [old(buf.data)])
    {
      ghost var held := buf.Held();
      Free(buf, held);
      assert held - held == {};
    }

    // ---- The scan thread's callbacks -----------------------------------------------------------------

    /** ServerLayer::OnScanFrame. */
    method OnScanFrame(cfg: Config, connected: bool, active: Id, buf: Buffer)
      requires buf.Live(arena) && Holding(buf.Held())
      modifies this`queue, this`owner, this`given, this`tcp, arena, buf
      ensures Steady()
      ensures given == old(given)
                + if Streamed(cfg) then [Datagram(cfg.udpTarget, cfg.udpPort, old(buf.Bytes(arena)))] else []
      ensures tcp == old(tcp)
                + if connected && cfg.binary.BINARY? then old(Sends(BinaryPort, active, buf.Bytes(arena))) else []
    {
      ghost var held := buf.Held();
      if Streamed(cfg) {
        StreamCopy(cfg.udpTarget, cfg.udpPort, buf, held);
      }
      if connected && cfg.binary.BINARY? {
        SendCopy(BinaryPort, active, buf, held);
      }
      FreeLast(buf);
    }

    /** ServerLayer::OnLabviewFrame. */
    method OnLabviewFrame(cfg: Config, connected: bool, active: Id, buf: Buffer)
      requires buf.Live(arena) && Holding(buf.Held())
      modifies this`tcp, arena, buf
      ensures Steady()
      ensures tcp == old(tcp)
                + if connected && cfg.binary.LABVIEW?
                  then old(Sends(BinaryPort, active, NetworkOrder(buf.Bytes(arena)))) else []
    {
      ghost var held := buf.Held();
      if connected && cfg.binary.LABVIEW? {
        Swap(buf, held);
        SendCopy(BinaryPort, active, buf, held);
      }
      FreeLast(buf);
    }

    /** The LabVIEW callback gets a copy of the frame. */
    method DeliverLabview(cfg: Config, connected: bool, active: Id, bytes: seq<Byte>)
      requires Steady()
      modifies this`tcp, arena
      ensures Steady()
      ensures tcp == old(tcp)
                + if connected && cfg.binary.LABVIEW? then Sends(BinaryPort, active, NetworkOrder(bytes)) else []
    {
      var buf := Obtain(bytes, {});
      assert {} + buf.Held() == buf.Held();
      OnLabviewFrame(cfg, connected, active, buf);
    }

    /** The frame callback gets a copy of the packet. */
    method DeliverBinary(cfg: Config, connected: bool, active: Id, bytes: seq<Byte>)
      requires Steady()
      modifies this`queue, this`owner, this`given, this`tcp, arena
      ensures Steady()
      ensures given == old(given) + if Streamed(cfg) then [Datagram(cfg.udpTarget, cfg.udpPort, bytes)] else []
      ensures tcp == old(tcp) + if connected && cfg.binary.BINARY? then Sends(BinaryPort, active, bytes) else []
    {
      var buf := Obtain(bytes, {});
      assert {} + buf.Held() == buf.Held();
      OnScanFrame(cfg, connected, active, buf);
    }

    /** The scan thread delivers a frame in the forms that its layout asks for. */
    method Deliver(cfg: Config, connected: bool, active: Id, labview: Option<seq<Byte>>, binary: Option<seq<Byte>>)
      requires Steady()
      modifies this`queue, this`owner, this`given, this`tcp, arena
      ensures Steady()
      ensures given == old(given)
                + if binary.Some? && Streamed(cfg) then [Datagram(cfg.udpTarget, cfg.udpPort, binary.value)] else []
      ensures tcp == old(tcp) + BinarySends(cfg, connected, active, labview, binary)
    {
      if labview.Some? {
        DeliverLabview(cfg, connected, active, labview.value);
      }
      if binary.Some? {
        DeliverBinary(cfg, connected, active, binary.value);
      }
    }

    // ---- The UDP loop ----------------------------------------------------------------------------------

    /** The locked part of DataStreamThreadFn: false when there is no packet. */
    method PopPacket() returns (available: bool)
      requires Steady() && inFlight == None
      modifies this`queue, this`owner, this`popped, this`inFlight
      ensures Steady() && available == (old(queue) != [])
      ensures if available then inFlight == Some(old(queue)[0]) && queue == old(queue)[1..]
              else inFlight == None && queue == old(queue)
    {
      if queue == [] {
        return false;
      }
      ghost var after := Popped(Now());
      Pop(arena.blocks, Now());
      DatagramsPop(queue);
      GivenPop(sent, DatagramOf(queue[0]), Datagrams(queue[1..]));
      inFlight, queue := Some(queue[0]), queue[1..];
      owner, popped := after.owner, after.popped;
      return true;
    }

    /** sendto, then release. */
    method SendPacket()
      requires Steady() && inFlight.Some?
      modifies this`sent, this`owner, this`inFlight, arena
      ensures Steady() && inFlight == None && sent == old(sent) + [DatagramOf(old(inFlight.value))]
    {
      var packet := inFlight.value;
      ghost var after := Landed(Now());
      Land(arena.blocks, Now());
      GivenSent(sent, DatagramOf(packet), Datagrams(queue));
      var data := new Buffer();
      data.data, data.size := packet.data, packet.size;
      sent := sent + [DatagramOf(packet)];
      inFlight, owner := None, after.owner;
      FreeLast(data);
    }

    // ---- The connection maps ---------------------------------------------------------------------------

    /** The accept loop inserts a connection. */
    method Connect(port: Port, id: Id)
      requires Steady() && id != 0
      modifies this`commandClients, this`binaryClients
      ensures Steady() && Clients(port) == old(Clients(port)) + {id}
      ensures forall other :: other != port ==> Clients(other) == old(Clients(other))
    {
      if port.CommandPort? {
        commandClients := commandClients + {id};
      } else {
        binaryClients := binaryClients + {id};
      }
    }

    /** KickClient erases it. */
    method Disconnect(port: Port, id: Id)
      requires Steady()
      modifies this`commandClients, this`binaryClients
      ensures Steady() && Clients(port) == old(Clients(port)) - {id}
      ensures forall other :: other != port ==> Clients(other) == old(Clients(other))
    {
      if port.CommandPort? {
        commandClients := commandClients - {id};
      } else {
        binaryClients := binaryClients - {id};
      }
    }

    // ---- Connection handlers ---------------------------------------------------------------------------

    /** HandleConnectionThreadFn begins: the handler gets its receive buffer. */
    method StartHandler(worker: nat, garbage: seq<Byte>)
      requires Steady() && worker < |receiving| && receiving[worker] == NULL && |garbage| == BUFFER_SIZE
      modifies this`receiving, this`owner, arena
      ensures Steady() && receiving == old(receiving)[worker := old(arena.next)]
    {
      var buf := new Buffer();
      ghost var before := arena.blocks;
      buf.Allocate(arena, BUFFER_SIZE, garbage);
      assert arena.blocks == before[buf.data := garbage];
      Gain(before, Now(), {}, buf.data, garbage);
      assert {} + {buf.data} == {buf.data};
      Start(arena.blocks, Now(), worker, buf.data);
      owner := Started(Now(), worker, buf.data).owner;
      receiving := receiving[worker := buf.data];
    }

    /** One turn of the handler's loop in which recv() delivers some bytes: they are received into
        the zeroed buffer, and the callback gets a copy of exactly the bytes received. */
    method Receive(port: Port, id: Id, worker: nat, bytes: seq<Byte>, reply: Option<seq<Byte>>)
            returns (message: seq<Byte>)
      requires Steady() && worker < |receiving| && receiving[worker] != NULL && 0 < |bytes| <= BUFFER_SIZE
      modifies this`tcp, arena
      ensures Steady() && message == bytes
      ensures tcp == old(tcp) + Answers(port, id, reply)
    {
      Fill(worker, bytes);
      var buf := new Buffer();
      buf.data, buf.size := receiving[worker], BUFFER_SIZE;
      var copy := Obtain(buf.Bytes(arena)[..|bytes|], {});
      assert {} + copy.Held() == copy.Held();
      message := OnReceived(port, id, copy, reply);
    }

    /** buf.Zero(), then recv() into it. */
    method Fill(worker: nat, bytes: seq<Byte>)
      requires Steady() && worker < |receiving| && receiving[worker] != NULL && 0 < |bytes| <= BUFFER_SIZE
      modifies arena`blocks
      ensures Steady() && receiving[worker] in arena.blocks
      ensures arena.blocks[receiving[worker]] == bytes + seq(BUFFER_SIZE - |bytes|, i => 0)
    {
      ghost var before := arena.blocks;
      var a := receiving[worker];
      arena.Write(a, seq(BUFFER_SIZE, i => 0));
      arena.Write(a, bytes);
      assert arena.blocks == before[a := arena.blocks[a]];
      Refill(before, Now(), worker, arena.blocks[a]);
    }

    /** OnDataReceived and OnTCPBinaryDataReceived: whatever they do with the message, every path
        releases it.  A refusal, a prompt or a response is sent through SendString; a keystroke that only
        edits the line has no reply. */
    method OnReceived(port: Port, id: Id, buf: Buffer, reply: Option<seq<Byte>>) returns (message: seq<Byte>)
      requires buf.Live(arena) && Holding(buf.Held())
      modifies this`tcp, arena, buf
      ensures Steady() && message == old(buf.Bytes(arena))
      ensures tcp == old(tcp) + Answers(port, id, reply)
    {
      ghost var held := buf.Held();
      message := buf.Bytes(arena);
      if port.CommandPort? && reply.Some? {
        SendString(port, id, reply.value, held);
      }
      FreeLast(buf);
    }

    /** The handler's loop has ended. */
    method EndHandler(worker: nat)
      requires Steady() && worker < |receiving| && receiving[worker] != NULL
      modifies this`receiving, this`owner, arena
      ensures Steady() && receiving == old(receiving)[worker := NULL]
      ensures arena.released == old(arena.released) + [old(receiving[worker])]
    {
      var buf := new Buffer();
      buf.data, buf.size := receiving[worker], BUFFER_SIZE;
      ghost var after := Ended(Now(), worker);
      End(arena.blocks, Now(), worker);
      receiving := receiving[worker := NULL];
      owner := after.owner;
      FreeLast(buf);
    }
  }

  /** Between two steps the live blocks are exactly those of the queued packets, of the packet in
      flight and of the running handlers. */
  lemma LiveBlocks(s: Streams)
    requires s.Steady()
    ensures s.arena.blocks.Keys == Needed(s.Now())
  {
  }

  /** Once the queue is empty and no handler runs, every block ever allocated has been released, and
      released once; and everything handed to StreamTo has been sent. */
  lemma AllReleased(s: Streams)
    requires s.Steady() && s.queue == [] && s.inFlight == None
    requires forall k :: 0 <= k < |s.receiving| ==> s.receiving[k] == NULL
    ensures s.arena.blocks == map[] && s.sent == s.given
    ensures forall a :: NULL < a < s.arena.next ==> a in s.arena.released
    ensures forall i, j :: 0 <= i < j < |s.arena.released| ==> s.arena.released[i] != s.arena.released[j]
  {
  }

  /** What one client gets on one port. */
  function Got(sends: seq<Sent>, port: Port, client: Id): seq<seq<Byte>> {
    if sends == [] then []
    else (if sends[0].port == port && client in sends[0].clients then [sends[0].bytes] else [])
         + Got(sends[1..], port, client)
  }

  /** A connected client with a nonzero id gets the bytes once, and nobody else gets anything; an unknown
      id reaches nobody, and id 0 every client of the port. */
  lemma WhoGetsWhat(s: Streams, port: Port, id: Id, bytes: seq<Byte>, other: Port, client: Id)
    ensures Got(s.Sends(port, id, bytes), other, client) ==
            if other == port && client in s.Clients(port) && (id == 0 || id == client) then [bytes] else []
  {
    var sends := s.Sends(port, id, bytes);
    assert sends == [] || sends[1..] == [];
  }

  /** An answer reaches the client that asked, or all when the console asked, and there is none on the
      binary port; a frame reaches the active binary client, in the one form that the format asks for. */
  lemma WhoGetsAnswersAndFrames(s: Streams, port: Port, id: Id, reply: Option<seq<Byte>>, client: Id, cfg: Config,
                                connected: bool, labview: Option<seq<Byte>>, binary: Option<seq<Byte>>)
    ensures client in s.Clients(port) && (id == 0 || id == client) ==>
              Got(s.Answers(port, id, reply), port, client) ==
              if port == CommandPort && reply != None then [reply.value] else []
    ensures client in s.Clients(BinaryPort) && (id == 0 || id == client) ==>
              Got(s.BinarySends(cfg, connected, id, labview, binary), BinaryPort, client) ==
              if connected && cfg.binary == LABVIEW && labview != None then [NetworkOrder(labview.value)]
              else if connected && cfg.binary == BINARY && binary != None then [binary.value] else []
  {
    if reply != None {
      WhoGetsWhat(s, port, id, reply.value, port, client);
    }
    if labview != None {
      WhoGetsWhat(s, BinaryPort, id, NetworkOrder(labview.value), BinaryPort, client);
    }
    if binary != None {
      WhoGetsWhat(s, BinaryPort, id, binary.value, BinaryPort, client);
    }
  }
}
