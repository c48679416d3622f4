/** Who must release which block.  Between two steps every live block belongs to a queued packet,
    to the packet in flight, or to a connection handler as its receive buffer; within a step the
    step itself may hold some more. */
module Ledger {
  import opened StringUtils
  import opened Buffers

  /** A DataPacket; `bytes` is a history of what its block holds. */
  datatype Packet = Packet(ip: string, port: nat, data: Address, size: nat, bytes: seq<Byte>)

  /** A queued packet is known by how many were pushed before it, a handler by its worker. */
  datatype Owner = Queued(serial: nat) | InFlight | Receiver(worker: nat)

  /** ServerInfo::buffer_size, for both servers. */
  const BUFFER_SIZE := 1024

  type Blocks = map<Address, seq<Byte>>

  datatype Books = Books(
    owner: map<Address, Owner>,
    popped: nat,                  // how many packets have left the queue
    queue: seq<Packet>,
    inFlight: Option<Packet>,
    receiving: seq<Address>)      // per worker, NULL when it runs no handler

  ghost predicate PacketOk(blocks: Blocks, p: Packet) {
    if p.data == NULL then p.bytes == [] && p.size == 0
    else p.data in blocks && blocks[p.data] == p.bytes && p.size == |p.bytes|
  }

  /** The block belongs to what its entry says. */
  ghost predicate OwnedBy(b: Books, a: Address, o: Owner) {
    match o
    case Queued(serial) => b.popped <= serial < b.popped + |b.queue| && b.queue[serial - b.popped].data == a
    case InFlight => b.inFlight.Some? && b.inFlight.value.data == a
    case Receiver(worker) => worker < |b.receiving| && b.receiving[worker] == a
  }

  /** Live blocks are the owned ones and those held by the current step, and every packet and
      every running handler owns its block; so no two of them share one. */
  ghost predicate Balanced(blocks: Blocks, b: Books, held: set<Address>) {
    && NULL !in blocks
    && blocks.Keys == b.owner.Keys + held && b.owner.Keys !! held
    && (forall a :: a in b.owner ==> OwnedBy(b, a, b.owner[a]))
    && (forall i :: 0 <= i < |b.queue| ==>
          PacketOk(blocks, b.queue[i])
          && (b.queue[i].data != NULL ==>
               b.queue[i].data in b.owner && b.owner[b.queue[i].data] == Queued(b.popped + i)))
    && (b.inFlight.Some? ==>
          PacketOk(blocks, b.inFlight.value)
          && (b.inFlight.value.data != NULL ==>
               b.inFlight.value.data in b.owner && b.owner[b.inFlight.value.data] == InFlight))
    && (forall k :: 0 <= k < |b.receiving| && b.receiving[k] != NULL ==>
          b.receiving[k] in b.owner && b.owner[b.receiving[k]] == Receiver(k)
          && b.receiving[k] in blocks && |blocks[b.receiving[k]]| == BUFFER_SIZE)
  }

  /** The blocks of the queue, of the packet in flight and of the handlers. */
  ghost function Needed(b: Books): set<Address> {
    (set i | 0 <= i < |b.queue| && b.queue[i].data != NULL :: b.queue[i].data)
    + (if b.inFlight.Some? && b.inFlight.value.data != NULL then {b.inFlight.value.data} else {})
    + (set k | 0 <= k < |b.receiving| && b.receiving[k] != NULL :: b.receiving[k])
  }

  /** With balanced books and nothing held, the live blocks are exactly the needed ones, and no
      two packets or handlers need the same block. */
  lemma LiveIsNeeded(blocks: Blocks, b: Books)
    requires Balanced(blocks, b, {})
    ensures blocks.Keys == Needed(b)
    ensures forall i, j :: 0 <= i < j < |b.queue| && b.queue[i].data != NULL ==> b.queue[i].data != b.queue[j].data
    ensures forall k, l :: 0 <= k < l < |b.receiving| && b.receiving[k] != NULL ==> b.receiving[k] != b.receiving[l]
  {
    forall a | a in blocks ensures a in Needed(b) {
      assert OwnedBy(b, a, b.owner[a]);
    }
    forall a | a in Needed(b) ensures a in blocks {
      assert a in b.owner;
    }
  }

  // ---- What a step may do to the books ------------------------------------------------------------

  lemma Gain(blocks: Blocks, b: Books, held: set<Address>, a: Address, bytes: seq<Byte>)
    requires Balanced(blocks, b, held) && a !in blocks && a != NULL
    ensures Balanced(blocks[a := bytes], b, held + {a})
  {
  }

  lemma Drop(blocks: Blocks, b: Books, held: set<Address>, a: Address)
    requires Balanced(blocks, b, held) && a in held
    ensures Balanced(blocks - {a}, b, held - {a})
  {
  }

  /** A held block may be written. */
  lemma Overwrite(blocks: Blocks, b: Books, held: set<Address>, a: Address, bytes: seq<Byte>)
    requires Balanced(blocks, b, held) && a in held
    ensures Balanced(blocks[a := bytes], b, held)
  {
  }

  function Pushed(b: Books, p: Packet): Books {
    b.(queue := b.queue + [p],
       owner := if p.data == NULL then b.owner else b.owner[p.data := Queued(b.popped + |b.queue|)])
  }

  lemma Push(blocks: Blocks, b: Books, held: set<Address>, p: Packet)
    requires Balanced(blocks, b, held) && PacketOk(blocks, p) && (p.data != NULL ==> p.data in held)
    ensures Balanced(blocks, Pushed(b, p), held - {p.data})
  {
    var c := Pushed(b, p);
    forall a | a in c.owner ensures OwnedBy(c, a, c.owner[a]) {
      if a in b.owner {
        assert OwnedBy(b, a, b.owner[a]);
      }
    }
  }

  function Popped(b: Books): Books
    requires b.queue != []
  {
    var p := b.queue[0];
    b.(queue := b.queue[1..], popped := b.popped + 1, inFlight := Some(p),
       owner := if p.data == NULL then b.owner else b.owner[p.data := InFlight])
  }

  lemma Pop(blocks: Blocks, b: Books)
    requires Balanced(blocks, b, {}) && b.queue != [] && b.inFlight == None
    ensures Balanced(blocks, Popped(b), {})
  {
    var c := Popped(b);
    forall a | a in c.owner ensures OwnedBy(c, a, c.owner[a]) {
      assert OwnedBy(b, a, b.owner[a]);
    }
  }

  function Landed(b: Books): Books
    requires b.inFlight.Some?
  {
    b.(inFlight := None, owner := b.owner - {b.inFlight.value.data})
  }

  lemma Land(blocks: Blocks, b: Books)
    requires Balanced(blocks, b, {}) && b.inFlight.Some?
    ensures b.inFlight.value.data != NULL ==> b.inFlight.value.data in blocks
    ensures Balanced(blocks, Landed(b), if b.inFlight.value.data == NULL then {} else {b.inFlight.value.data})
  {
    var c := Landed(b);
    forall a | a in c.owner ensures OwnedBy(c, a, c.owner[a]) {
      assert OwnedBy(b, a, b.owner[a]);
    }
  }

  function Started(b: Books, worker: nat, a: Address): Books
    requires worker < |b.receiving|
  {
    b.(receiving := b.receiving[worker := a], owner := b.owner[a := Receiver(worker)])
  }

  lemma Start(blocks: Blocks, b: Books, worker: nat, a: Address)
    requires Balanced(blocks, b, {a}) && worker < |b.receiving| && b.receiving[worker] == NULL && a != NULL
    requires a in blocks && |blocks[a]| == BUFFER_SIZE
    ensures Balanced(blocks, Started(b, worker, a), {})
  {
    var c := Started(b, worker, a);
    forall x | x in c.owner ensures OwnedBy(c, x, c.owner[x]) {
      if x != a {
        assert OwnedBy(b, x, b.owner[x]);
      }
    }
  }

  function Ended(b: Books, worker: nat): Books
    requires worker < |b.receiving|
  {
    b.(receiving := b.receiving[worker := NULL], owner := b.owner - {b.receiving[worker]})
  }

  lemma End(blocks: Blocks, b: Books, worker: nat)
    requires Balanced(blocks, b, {}) && worker < |b.receiving| && b.receiving[worker] != NULL
    ensures b.receiving[worker] in blocks && Balanced(blocks, Ended(b, worker), {b.receiving[worker]})
  {
    var c := Ended(b, worker);
    forall x | x in c.owner ensures OwnedBy(c, x, c.owner[x]) {
      assert OwnedBy(b, x, b.owner[x]);
    }
  }

  /** recv() fills a handler's own block. */
  lemma Refill(blocks: Blocks, b: Books, worker: nat, bytes: seq<Byte>)
    requires Balanced(blocks, b, {}) && worker < |b.receiving| && b.receiving[worker] != NULL
    requires |bytes| == BUFFER_SIZE
    ensures b.receiving[worker] in blocks && Balanced(blocks[b.receiving[worker] := bytes], b, {})
  {
  }

  /** Other blocks' contents do not matter. */
  lemma Same(blocks: Blocks, more: Blocks, b: Books, held: set<Address>, a: Address)
    requires Balanced(blocks, b, held) && a !in blocks && a != NULL
    requires more.Keys == blocks.Keys + {a} && forall x :: x in blocks ==> more[x] == blocks[x]
    ensures Balanced(more, b, held + {a})
  {
  }
}
