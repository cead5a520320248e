/** The per-call input queue of c/src/server.c: a singly linked list with head and tail pointers. */
module StreamInput {
  import opened Bytes
  import opened Mpack

  /** What the read loop hands to a handler: a chunk, or the mark that no more will come. */
  datatype Item = Chunk(value: Value) | End

  class ChunkNode {
    var value: Value
    var isEnd: bool
    var next: ChunkNode?

    constructor (value: Value, isEnd: bool)
      ensures this.value == value && this.isEnd == isEnd && next == null
    {
      this.value, this.isEnd, next := value, isEnd, null;
    }
  }

  function ItemOf(n: ChunkNode): Item
    reads n
  {
    if n.isEnd then End else Chunk(n.value)
  }

  class StreamInput {
    const id: uint64
    var head: ChunkNode?
    var tail: ChunkNode?
    ghost var nodes: seq<ChunkNode>

    ghost function NodeAt(i: nat): ChunkNode?
      reads this
    {
      if i < |nodes| then nodes[i] else null
    }

    /** `nodes` is the chain from `head`; the tail pointer is its last node and both are null when it is empty. */
    ghost predicate Valid()
      reads this, nodes
    {
      && (nodes == [] ==> head == null && tail == null)
      && (nodes != [] ==> head == nodes[0] && tail == nodes[|nodes| - 1])
      && (forall i :: 0 <= i < |nodes| ==> nodes[i].next == NodeAt(i + 1))
      && (forall i, j :: 0 <= i < j < |nodes| ==> nodes[i] != nodes[j])
    }

    ghost function Contents(): seq<Item>
      reads this, nodes
    {
      seq(|nodes|, i requires 0 <= i < |nodes| reads this, nodes => ItemOf(nodes[i]))
    }

    constructor (id: uint64)
      ensures Valid() && this.id == id && Contents() == [] && nodes == []
    {
      this.id := id;
      head, tail, nodes := null, null, [];
    }

    /** `stream_input_push` (c/src/server.c:79-93). */
    method Push(value: Value, isEnd: bool)
      requires Valid()
      modifies this, nodes
      ensures Valid()
      ensures Contents() == old(Contents()) + [if isEnd then End else Chunk(value)]
      ensures |nodes| == |old(nodes)| + 1 && nodes[..|old(nodes)|] == old(nodes) && fresh(nodes[|old(nodes)|])
    {
      var node := new ChunkNode(value, isEnd);
      if tail != null {
        tail.next := node;
      } else {
        head := node;
      }
      tail := node;
      nodes := nodes + [node];
    }

    /** `stream_input_recv` (c/src/server.c:97-114); None means that it waits, with nothing changed. */
    method Recv() returns (item: Option<Item>)
      requires Valid()
      modifies this
      ensures Valid()
      ensures item.None? <==> old(Contents()) == []
      ensures item.None? ==> Contents() == [] && nodes == old(nodes)
      ensures item.Some? ==> [item.value] + Contents() == old(Contents()) && nodes == old(nodes)[1..]
    {
      assert |Contents()| == |nodes|;
      if head == null {
        return None;
      }
      var node := head;
      assert node == nodes[0] && node.next == NodeAt(1);
      head := node.next;
      if head == null {
        tail := null;
      }
      nodes := nodes[1..];
      item := Some(if node.isEnd then End else Chunk(node.value));
      assert forall i :: 0 <= i < |nodes| ==> nodes[i] == old(nodes)[i + 1];
    }

    /** `stream_input_free` (c/src/server.c:116-129): the values it frees, in order. */
    method Free() returns (freed: seq<Value>)
      requires Valid()
      ensures freed == Chunks(Contents())
    {
      freed := [];
      var node := head;
      ghost var i := 0;
      while node != null
        invariant 0 <= i <= |nodes|
        invariant node == NodeAt(i)
        invariant freed == Chunks(Contents()[..i])
        decreases |nodes| - i
      {
        assert Contents()[..i + 1] == Contents()[..i] + [ItemOf(nodes[i])];
        ChunksAppend(Contents()[..i], ItemOf(nodes[i]));
        var next := node.next;
        assert node == nodes[i];
        if !node.isEnd {
          freed := freed + [node.value];
        }
        node := next;
        i := i + 1;
      }
      assert Contents()[..i] == Contents();
    }
  }

  /** The values carried by the chunks of a queue. */
  function Chunks(items: seq<Item>): seq<Value> {
    if items == [] then []
    else (if items[0].Chunk? then [items[0].value] else []) + Chunks(items[1..])
  }

  lemma {:induction false} ChunksAppend(items: seq<Item>, x: Item)
    ensures Chunks(items + [x]) == Chunks(items) + (if x.Chunk? then [x.value] else [])
  {
    var last := if x.Chunk? then [x.value] else [];
    if items == [] {
      assert items + [x] == [x];
      assert Chunks([x]) == last + Chunks([]);
    } else {
      var first := if items[0].Chunk? then [items[0].value] else [];
      assert (items + [x])[1..] == items[1..] + [x];
      ChunksAppend(items[1..], x);
      assert first + Chunks(items[1..]) + last == first + (Chunks(items[1..]) + last);
    }
  }
}
