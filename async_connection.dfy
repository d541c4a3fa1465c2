/**
 * The asynchronous connection's outgoing side: every `send` queues a
 * packet, and each write event hands the head packet's unsent text to
 * the socket, advances that packet by what the socket accepted, and drops
 * it once it is complete. The socket's `send` is a parameter: the number
 * of characters it accepted.
 */
module AsyncQueue {
  import opened Wrappers

  /** What the queue knows of one packet: its text and how much of it has
      been sent. */
  datatype PacketState = PacketState(data: string, progress: nat)

  /** The text of a packet that has not been sent yet. */
  function Unsent(p: PacketState): (r: string)
    ensures |r| <= |p.data|
  {
    if p.progress <= |p.data| then p.data[p.progress..] else []
  }

  predicate Complete(p: PacketState) {
    p.progress >= |p.data|
  }

  /** A packet is complete exactly when nothing of it is left to send. */
  lemma CompleteIffNothingUnsent(p: PacketState)
    ensures Complete(p) <==> Unsent(p) == []
  {
  }

  /** `read(n)`: at most `n` characters from the start of the unsent text,
      and all of it when no limit is given. */
  function ReadState(p: PacketState, limit: Option<nat>): (r: string)
    ensures limit.Some? ==> |r| == if limit.value <= |Unsent(p)| then limit.value else |Unsent(p)|
    ensures limit.None? ==> r == Unsent(p)
    ensures r == Unsent(p)[..|r|]
  {
    var rest := Unsent(p);
    match limit
    case None => rest
    case Some(n) => if n <= |rest| then rest[..n] else rest
  }

  /** The default read size of a write event. */
  const ChunkSize: nat := 2048

  /** The queue after a write event in which the socket accepted `accepted`
      characters of the head packet. */
  function WriteEvent(queue: seq<PacketState>, accepted: nat): (r: seq<PacketState>)
    ensures queue == [] ==> r == []
  {
    if queue == [] then []
    else
      var head := queue[0].(progress := queue[0].progress + accepted);
      if Complete(head) then queue[1..] else [head] + queue[1..]
  }

  /** The texts in the queue, oldest first. */
  function Datas(queue: seq<PacketState>): (r: seq<string>)
    ensures |r| == |queue|
  {
    if queue == [] then [] else [queue[0].data] + Datas(queue[1..])
  }

  /** Everything still to be sent, in queue order. */
  function Pending(queue: seq<PacketState>): string {
    if queue == [] then "" else Unsent(queue[0]) + Pending(queue[1..])
  }

  /** A write event keeps the queue in order: only the head can leave, and
      only once it is complete; every other packet stays as it was. */
  lemma WriteEventFifo(queue: seq<PacketState>, accepted: nat)
    requires queue != []
    ensures var r := WriteEvent(queue, accepted);
      (Complete(queue[0].(progress := queue[0].progress + accepted)) ==> r == queue[1..] && Datas(r) == Datas(queue)[1..]) &&
      (!Complete(queue[0].(progress := queue[0].progress + accepted)) ==>
         |r| == |queue| && r[0].progress == queue[0].progress + accepted && Datas(r) == Datas(queue) &&
         r[1..] == queue[1..])
  {
  }

  /** Nothing is lost or sent twice: when the socket accepts `k` characters
      of what was read from the head, exactly the first `k` characters
      leave the pending text. */
  lemma WriteEventConsumes(queue: seq<PacketState>, accepted: nat)
    requires queue != [] && accepted <= |Unsent(queue[0])|
    ensures Pending(WriteEvent(queue, accepted)) == Pending(queue)[accepted..]
  {
    var p := queue[0];
    var head := p.(progress := p.progress + accepted);
    assert Pending(queue) == Unsent(p) + Pending(queue[1..]);
    assert Unsent(head) == Unsent(p)[accepted..];
    DropFront(Unsent(p), Pending(queue[1..]), accepted);
    WriteEventPending(queue, accepted);
  }

  /** The pending text after a write event: the head's unsent rest, then
      the other packets'. */
  lemma WriteEventPending(queue: seq<PacketState>, accepted: nat)
    requires queue != []
    ensures var head := queue[0].(progress := queue[0].progress + accepted);
      Pending(WriteEvent(queue, accepted)) == Unsent(head) + Pending(queue[1..])
  {
    var head := queue[0].(progress := queue[0].progress + accepted);
    if Complete(head) {
      assert Unsent(head) == [];
    } else {
      assert ([head] + queue[1..])[1..] == queue[1..];
    }
  }

  lemma DropFront(a: string, b: string, k: nat)
    requires k <= |a|
    ensures (a + b)[k..] == a[k..] + b
  {
  }

  lemma PendingAppend(queue: seq<PacketState>, p: PacketState)
    ensures Pending(queue + [p]) == Pending(queue) + Unsent(p)
  {
    if queue != [] {
      assert (queue + [p])[1..] == queue[1..] + [p];
      PendingAppend(queue[1..], p);
    } else {
      assert queue + [p] == [p];
    }
  }

  class OutgoingPacket {
    const data: string
    const length: nat
    var progress: nat

    constructor (data: string)
      ensures this.data == data && length == |data| && progress == 0
    {
      this.data := data;
      length := |data|;
      progress := 0;
    }

    function State(): PacketState
      reads this
    {
      PacketState(data, progress)
    }

    /** `read(limit)` */
    function Read(limit: Option<nat>): (r: string)
      reads this
      requires length == |data|
      ensures r == ReadState(State(), limit)
    {
      var rest := if progress <= |data| then data[progress..] else [];
      match limit
      case None => rest
      case Some(n) => if n <= |rest| then rest[..n] else rest
    }

    /** `sent(count)`: what the socket accepted counts as sent. */
    method Sent(count: nat)
      modifies this
      ensures progress == old(progress) + count
    {
      progress := progress + count;
    }

    /** `is_complete()`: nothing of the packet is left to send. */
    function IsComplete(): (r: bool)
      reads this
      requires length == |data|
      ensures r <==> Unsent(State()) == []
    {
      progress >= length
    }
  }

  /** The states of the queued packets, in order. */
  function StatesOf(queue: seq<OutgoingPacket>): (r: seq<PacketState>)
    reads set p | p in queue
    ensures |r| == |queue|
  {
    if queue == [] then [] else [queue[0].State()] + StatesOf(queue[1..])
  }

  lemma StatesOfAppend(queue: seq<OutgoingPacket>, p: OutgoingPacket)
    ensures StatesOf(queue + [p]) == StatesOf(queue) + [p.State()]
  {
    if queue != [] {
      assert (queue + [p])[1..] == queue[1..] + [p];
      StatesOfAppend(queue[1..], p);
    } else {
      assert queue + [p] == [p];
    }
  }

  class AsyncConnection {
    var connected: bool
    var sendQueue: seq<OutgoingPacket>

    /** Every queued packet is a distinct object with a consistent length,
        and only the head packet can have been partly sent. */
    predicate Valid()
      reads this, set p | p in sendQueue
    {
      (forall i, j :: 0 <= i < j < |sendQueue| ==> sendQueue[i] != sendQueue[j]) &&
      (forall p :: p in sendQueue ==> p.length == |p.data|) &&
      (forall i :: 1 <= i < |sendQueue| ==> sendQueue[i].progress == 0)
    }

    function Queue(): seq<PacketState>
      reads this, set p | p in sendQueue
    {
      StatesOf(sendQueue)
    }

    constructor ()
      ensures Valid() && Queue() == [] && !connected
    {
      connected := false;
      sendQueue := [];
    }

    /** `send(data)`: a new packet joins the tail of the queue. */
    method Send(data: string)
      requires Valid()
      modifies this
      ensures Valid()
      ensures Queue() == old(Queue()) + [PacketState(data, 0)]
      ensures Pending(Queue()) == old(Pending(Queue())) + data
      ensures connected == old(connected)
    {
      var packet := new OutgoingPacket(data);
      StatesOfAppend(sendQueue, packet);
      sendQueue := sendQueue + [packet];
      PendingAppend(old(Queue()), PacketState(data, 0));
    }

    /** `readable()`: a connected socket is assumed to have data. */
    function Readable(): (r: bool)
      reads this
      ensures r <==> connected
    {
      connected
    }

    /** `writeable()`: connected, with a packet waiting to be sent. */
    function Writeable(): (r: bool)
      reads this, set p | p in sendQueue
      ensures r <==> connected && Queue() != []
    {
      connected && sendQueue != []
    }

    /** A write event: the head packet's next chunk of at most 2048
        characters is handed to the socket, which accepts `accepted` of
        them; an empty queue hands over nothing. */
    method HandleWriteEvent(accepted: nat) returns (handed: string)
      requires Valid()
      modifies this, sendQueue
      ensures Valid()
      ensures handed == if old(Queue()) == [] then "" else ReadState(old(Queue())[0], Some(ChunkSize))
      ensures Queue() == WriteEvent(old(Queue()), accepted)
      ensures connected == old(connected)
    {
      handed := "";
      if sendQueue != [] {
        var item := sendQueue[0];
        ghost var rest := StatesOf(sendQueue[1..]);
        assert Queue() == [item.State()] + rest;
        assert item !in sendQueue[1..];
        handed := item.Read(Some(ChunkSize));
        item.Sent(accepted);
        assert StatesOf(sendQueue[1..]) == rest;
        if item.IsComplete() {
          sendQueue := sendQueue[1..];
        } else {
          assert Queue() == [item.State()] + rest;
        }
      }
    }
  }
}
