/** Manually owned buffers (aerolib/src/aero/core/buffer.h).  A Buffer is passed by value: the
    copy holds the same address, so nothing but discipline keeps a block from being freed twice.
    The arena stands for the heap of the program and keeps the books. */
module Buffers {

  type Byte = b: int | 0 <= b < 256

  type Address = nat

  /** The null pointer. */
  const NULL: Address := 0

  class Arena {
    var blocks: map<Address, seq<Byte>>   // the live allocations
    var next: Address
    ghost var released: seq<Address>      // history, in the order of release

    /** Every block ever allocated is either live or has been released, and released once. */
    ghost predicate Valid()
      reads this
    {
      && next > NULL
      && (forall a :: a in blocks ==> NULL < a < next && |blocks[a]| > 0)
      && (forall a :: a in released ==> NULL < a < next && a !in blocks)
      && (forall a :: NULL < a < next ==> a in blocks || a in released)
      && (forall i, j :: 0 <= i < j < |released| ==> released[i] != released[j])
    }

    constructor ()
      ensures Valid() && blocks == map[] && released == []
    {
      blocks, next, released := map[], 1, [];
    }

    /** operator new[]; the contents are whatever was there. */
    method New(n: nat, garbage: seq<Byte>) returns (a: Address)
      requires Valid() && n > 0 && |garbage| == n
      modifies this
      ensures Valid() && a == old(next) && a !in old(blocks)
      ensures blocks == old(blocks)[a := garbage] && released == old(released)
    {
      a := next;
      blocks := blocks[a := garbage];
      next := next + 1;
    }

    /** operator delete[]; deleting a block that is not live is undefined. */
    method Delete(a: Address)
      requires Valid() && a in blocks
      modifies this
      ensures Valid() && blocks == old(blocks) - {a} && released == old(released) + [a] && next == old(next)
    {
      blocks := blocks - {a};
      released := released + [a];
    }

    /** memcpy or memset to the start of a block. */
    method Write(a: Address, bytes: seq<Byte>)
      requires Valid() && a in blocks && |bytes| <= |blocks[a]|
      modifies `blocks
      ensures Valid() && blocks == old(blocks)[a := bytes + old(blocks)[a][|bytes|..]]
    {
      blocks := blocks[a := bytes + blocks[a][|bytes|..]];
    }
  }

  class Buffer {
    var data: Address
    var size: nat

    /** The default constructor. */
    constructor ()
      ensures data == NULL && size == 0
    {
      data, size := NULL, 0;
    }

    /** Null, or the address of a whole live block. */
    ghost predicate Live(arena: Arena)
      reads this, arena
    {
      if data == NULL then size == 0 else data in arena.blocks && size == |arena.blocks[data]|
    }

    function Bytes(arena: Arena): seq<Byte>
      requires Live(arena)
      reads this, arena
    {
      if data == NULL then [] else arena.blocks[data]
    }

    /** What the buffer is responsible for releasing. */
    ghost function Held(): set<Address>
      reads this
    {
      if data == NULL then {} else {data}
    }

    /** Frees what is held, then allocates.  For zero bytes the pointer is cleared and the size is
        left as it was. */
    method Allocate(arena: Arena, n: nat, garbage: seq<Byte>)
      requires arena.Valid() && Live(arena) && |garbage| == n
      modifies this, arena
      ensures arena.Valid()
      ensures arena.released == old(arena.released) + (if old(data) == NULL then [] else [old(data)])
      ensures n == 0 ==> data == NULL && size == old(size) && arena.blocks == old(arena.blocks - Held())
      ensures n > 0 ==> Live(arena) && size == n && data !in old(arena.blocks) && Bytes(arena) == garbage
                        && data == old(arena.next) && arena.blocks == old(arena.blocks - Held())[data := garbage]
    {
      if data != NULL {
        arena.Delete(data);
      }
      data := NULL;
      if n == 0 {
        return;
      }
      data := arena.New(n, garbage);
      size := n;
    }

    method Release(arena: Arena)
      requires arena.Valid() && (data == NULL || data in arena.blocks)
      modifies this, arena
      ensures arena.Valid() && data == NULL && size == 0
      ensures arena.blocks == old(arena.blocks) - old(Held())
      ensures arena.released == old(arena.released) + (if old(data) == NULL then [] else [old(data)])
      ensures arena.next == old(arena.next)
    {
      if data != NULL {
        arena.Delete(data);
      } else {
        assert arena.blocks == arena.blocks - {};
      }
      data := NULL;
      size := 0;
    }

    method Zero(arena: Arena)
      requires arena.Valid() && Live(arena)
      modifies arena`blocks
      ensures arena.Valid() && arena.blocks.Keys == old(arena.blocks.Keys) && Live(arena)
      ensures Bytes(arena) == seq(size, i => 0)
      ensures forall a :: a in arena.blocks && a != data ==> arena.blocks[a] == old(arena.blocks[a])
    {
      if data != NULL {
        arena.Write(data, seq(size, i => 0));
      }
    }
  }

  /** Buffer::Copy: a buffer of its own with the same bytes. */
  method Copy(arena: Arena, bytes: seq<Byte>) returns (copy: Buffer)
    requires arena.Valid()
    modifies arena
    ensures fresh(copy) && arena.Valid() && copy.Live(arena) && copy.Bytes(arena) == bytes
    ensures arena.released == old(arena.released)
    ensures copy.data !in old(arena.blocks) && arena.blocks.Keys == old(arena.blocks.Keys) + copy.Held()
    ensures forall a :: a in old(arena.blocks) ==> arena.blocks[a] == old(arena.blocks[a])
  {
    copy := new Buffer();
    copy.Allocate(arena, |bytes|, seq(|bytes|, i => 0));
    if copy.data != NULL {
      arena.Write(copy.data, bytes);
      assert arena.blocks[copy.data] == bytes;
    } else {
      assert bytes == [];
    }
  }
}
