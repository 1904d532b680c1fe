/**
 The one-slot allocator for handlers: a small request takes the slot if it is free, any other goes to the heap.

 The heap is a parameter: `malloc` is modelled by the address it returns, which may be null, and which is not
 the address of any block in use.  `live` is the history of blocks handed out and not yet freed.
 */
module HandlerMemory {

  /** Addresses: `SLOT` is the embedded storage, `NULL` the result of a failed `malloc`. */
  type Address = nat
  const NULL: Address := 0
  const SLOT: Address := 1
  const CAPACITY: nat := 1024

  datatype Block = Block(at: Address, size: nat, asked: nat)

  /** The allocator with its blocks in use; `released` counts frees that reached the heap. */
  datatype Memory = Memory(used: bool, live: seq<Block>, released: nat)

  datatype Op = Alloc(size: nat, heap: Address) | Free(i: nat)

  ghost predicate InUse(m: Memory, a: Address) { exists b <- m.live :: b.at == a }

  /** What callers and the heap respect: only live blocks are freed, and `malloc` never returns one. */
  ghost predicate Allowed(m: Memory, op: Op) {
    match op
    case Alloc(_, heap) => heap != SLOT && !InUse(m, heap)
    case Free(i) => i < |m.live|
  }

  function Apply(m: Memory, op: Op): Memory {
    match op
    case Alloc(size, heap) =>
      if !m.used && size < CAPACITY then Memory(true, m.live + [Block(SLOT, CAPACITY, size)], m.released)
      else if heap == NULL then m
      else m.(live := m.live + [Block(heap, size, size)])
    case Free(i) =>
      if i >= |m.live| then m
      else
        var rest := Without(m.live, i);
        if m.live[i].at == SLOT then Memory(false, rest, m.released) else Memory(m.used, rest, m.released + 1)
  }

  ghost predicate Inv(m: Memory) {
    && (forall i, j :: 0 <= i < j < |m.live| ==> m.live[i].at != m.live[j].at)
    && (m.used <==> InUse(m, SLOT))
    && (forall b <- m.live :: b.at != NULL && b.size >= b.asked && (b.at == SLOT ==> b.size == CAPACITY))
  }

  lemma {:induction false} AllocOk(m: Memory, size: nat, heap: Address)
    requires Inv(m) && Allowed(m, Alloc(size, heap))
    ensures Inv(Apply(m, Alloc(size, heap)))
  {
    var m' := Apply(m, Alloc(size, heap));
    if m' != m {
      var b := m'.live[|m.live|];
      assert m'.live == m.live + [b] && !InUse(m, b.at);
      assert forall k <- m'.live :: k in m.live || k == b;
      assert forall k <- m.live :: k in m'.live;
      assert b in m'.live;
    }
  }

  function Without(live: seq<Block>, i: nat): seq<Block>
    requires i < |live|
  {
    live[..i] + live[i + 1..]
  }

  /** Removing a block keeps exactly the others, because no other has its address. */
  lemma {:induction false} WithoutOk(live: seq<Block>, i: nat, b: Block)
    requires i < |live| && forall j, k :: 0 <= j < k < |live| ==> live[j].at != live[k].at
    ensures b in Without(live, i) <==> b in live && b.at != live[i].at
    ensures forall j, k :: 0 <= j < k < |live| - 1 ==> Without(live, i)[j].at != Without(live, i)[k].at
  {
    var rest := Without(live, i);
    assert forall k :: 0 <= k < |rest| ==> rest[k] == if k < i then live[k] else live[k + 1];
    if b in live && b.at != live[i].at {
      var k :| 0 <= k < |live| && live[k] == b;
      assert rest[if k < i then k else k - 1] == b;
    }
  }

  lemma {:induction false} FreeOk(m: Memory, i: nat)
    requires Inv(m) && i < |m.live|
    ensures Inv(Apply(m, Free(i)))
  {
    var rest := Without(m.live, i);
    forall b: Block
      ensures b in rest <==> b in m.live && b.at != m.live[i].at
    {
      WithoutOk(m.live, i, b);
    }
    WithoutOk(m.live, i, m.live[i]);
    assert m.live[i] in m.live;
  }

  lemma {:induction false} ApplyOk(m: Memory, op: Op)
    requires Inv(m) && Allowed(m, op)
    ensures Inv(Apply(m, op))
  {
    match op
    case Alloc(size, heap) => AllocOk(m, size, heap);
    case Free(i) => FreeOk(m, i);
  }

  ghost predicate Possible(m: Memory, ops: seq<Op>)
    decreases |ops|
  {
    ops == [] || (Allowed(m, ops[0]) && Possible(Apply(m, ops[0]), ops[1..]))
  }

  function End(m: Memory, ops: seq<Op>): Memory
    decreases |ops|
  {
    if ops == [] then m else End(Apply(m, ops[0]), ops[1..])
  }

  /**
   Over every sequence of allocations and matching frees: live blocks have pairwise different addresses, the
   slot is in use exactly when the flag says so, and every block is at least as large as asked for.
   */
  lemma {:induction false} BlocksAreDistinct(m: Memory, ops: seq<Op>)
    requires Inv(m) && Possible(m, ops)
    ensures
      var e := End(m, ops);
      && (forall i, j :: 0 <= i < j < |e.live| ==> e.live[i].at != e.live[j].at)
      && (e.used <==> exists b <- e.live :: b.at == SLOT)
      && (forall b <- e.live :: b.at != NULL && b.size >= b.asked)
    ensures Inv(End(m, ops))
    decreases |ops|
  {
    if ops != [] {
      ApplyOk(m, ops[0]);
      BlocksAreDistinct(Apply(m, ops[0]), ops[1..]);
    }
  }

  /** Freeing a block gives the slot back if and only if the block was the slot; the heap gets it otherwise. */
  lemma {:induction false} FreeReleasesItsOwn(m: Memory, i: nat)
    requires Inv(m) && i < |m.live|
    ensures
      var e := Apply(m, Free(i));
      && (m.used && !e.used <==> m.live[i].at == SLOT)
      && (e.released == m.released + 1 <==> m.live[i].at != SLOT)
      && |e.live| == |m.live| - 1 && !InUse(e, m.live[i].at)
  {
    assert m.live[i] in m.live;
    forall b | b in Without(m.live, i)
      ensures b.at != m.live[i].at
    {
      WithoutOk(m.live, i, b);
    }
  }

  /** Allocating and freeing again at once restores the allocator, except for the count of heap frees. */
  lemma {:induction false} AllocThenFree(m: Memory, size: nat, heap: Address)
    requires Inv(m) && Allowed(m, Alloc(size, heap)) && heap != NULL
    ensures Apply(Apply(m, Alloc(size, heap)), Free(|m.live|)).(released := m.released) == m
  {
    var m' := Apply(m, Alloc(size, heap));
    assert m'.live[..|m.live|] + m'.live[|m.live| + 1..] == m.live;
  }

  class Storage {
    var used: bool
    ghost var live: seq<Block>
    ghost var released: nat

    ghost function View(): Memory
      reads this
    {
      Memory(used, live, released)
    }

    constructor ()
      ensures View() == Memory(false, [], 0) && Inv(View())
    {
      used, live, released := false, [], 0;
    }

    /** `heap` is what `malloc` would return. */
    method Alloc(size: nat, heap: Address) returns (at: Address)
      modifies this
      ensures View() == Apply(old(View()), Op.Alloc(size, heap))
      ensures at == if old(used) || size >= CAPACITY then heap else SLOT
      ensures at == NULL ==> live == old(live)
      ensures at != NULL ==>
        && |live| == old(|live|) + 1 && live[..old(|live|)] == old(live)
        && var b := live[old(|live|)]; b.at == at && b.asked == size && b.size >= size
    {
      if !used && size < CAPACITY {
        used := true;
        live := live + [Block(SLOT, CAPACITY, size)];
        return SLOT;
      }
      if heap != NULL {
        live := live + [Block(heap, size, size)];
      }
      return heap;
    }

    /** `i` is the live block whose address is `at`. */
    method Free(at: Address, ghost i: nat)
      requires i < |live| && live[i].at == at
      modifies this
      ensures View() == Apply(old(View()), Op.Free(i))
    {
      live := live[..i] + live[i + 1..];
      if at == SLOT {
        used := false;
      } else {
        released := released + 1;
      }
    }
  }
}
