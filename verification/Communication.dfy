/** Message aggregation: messages for one receiver are collected, packed into one buffer, and
    unpacked on the other side. */
module Communication {

  type byte = x: int | 0 <= x < 256

  const INT_MAX: int := 0x7FFF_FFFF

  /** A kernel message, serialized, and whether it is an event message. */
  datatype Message = Message(receiver: nat, isEvent: bool, content: seq<byte>)

  // ------------------------------------------------------------------------------------------
  // The format of a packet
  // ------------------------------------------------------------------------------------------

  /** A 32-bit integer in memory, least significant byte first. */
  function IntBytes(n: nat): (b: seq<byte>)
    requires n <= INT_MAX
    ensures |b| == 4
  {
    [n % 0x100, n / 0x100 % 0x100, n / 0x1_0000 % 0x100, n / 0x100_0000]
  }

  function ReadInt(b: seq<byte>, at: nat): nat
    requires at + 4 <= |b|
  {
    b[at] as int + 0x100 * (b[at + 1] as int) + 0x1_0000 * (b[at + 2] as int) + 0x100_0000 * (b[at + 3] as int)
  }

  lemma ReadBack(n: nat, b: seq<byte>, at: nat)
    requires n <= INT_MAX && at + 4 <= |b| && b[at..at + 4] == IntBytes(n)
    ensures ReadInt(b, at) == n
  {
    var c := b[at..at + 4];
    assert b[at] == c[0] && b[at + 1] == c[1] && b[at + 2] == c[2] && b[at + 3] == c[3];
    assert n / 0x1_0000 == n / 0x100 / 0x100 && n / 0x100_0000 == n / 0x100 / 0x100 / 0x100;
  }

  predicate Fits(msgs: seq<Message>) {
    |msgs| <= INT_MAX && forall k :: 0 <= k < |msgs| ==> |msgs[k].content| <= INT_MAX
  }

  function Lengths(msgs: seq<Message>): (b: seq<byte>)
    requires Fits(msgs)
    ensures |b| == 4 * |msgs|
  {
    if msgs == [] then [] else Lengths(msgs[..|msgs| - 1]) + IntBytes(|msgs[|msgs| - 1].content|)
  }

  function Bodies(msgs: seq<Message>): seq<byte> {
    if msgs == [] then [] else Bodies(msgs[..|msgs| - 1]) + msgs[|msgs| - 1].content
  }

  /** The number of messages, their lengths, and their contents. */
  function Packed(msgs: seq<Message>): seq<byte>
    requires Fits(msgs)
  {
    IntBytes(|msgs|) + Lengths(msgs) + Bodies(msgs)
  }

  lemma {:induction false} PrefixOfBodies(msgs: seq<Message>, k: nat)
    requires k <= |msgs|
    ensures Bodies(msgs[..k]) <= Bodies(msgs)
    ensures k < |msgs| ==> |Bodies(msgs[..k])| + |msgs[k].content| <= |Bodies(msgs)|
    ensures k < |msgs| ==> Bodies(msgs)[|Bodies(msgs[..k])|..|Bodies(msgs[..k])| + |msgs[k].content|] == msgs[k].content
    decreases |msgs|
  {
    if k == |msgs| {
      assert msgs[..k] == msgs;
    } else {
      var rest := msgs[..|msgs| - 1];
      assert rest[..k] == msgs[..k];
      PrefixOfBodies(rest, k);
      if k == |rest| {
        assert rest[..k] == rest;
      }
    }
  }

  lemma {:induction false} LengthAt(msgs: seq<Message>, k: nat)
    requires Fits(msgs) && k < |msgs|
    ensures Lengths(msgs)[4 * k..4 * k + 4] == IntBytes(|msgs[k].content|)
    decreases |msgs|
  {
    if k < |msgs| - 1 {
      var rest := msgs[..|msgs| - 1];
      LengthAt(rest, k);
      assert Lengths(msgs)[4 * k..4 * k + 4] == Lengths(rest)[4 * k..4 * k + 4];
    }
  }

  /** Where a receiver finds the parts of a packet at the start of its buffer: the number ... */
  lemma CountOfPacket(buffer: seq<byte>, msgs: seq<Message>)
    requires Fits(msgs) && Packed(msgs) <= buffer
    ensures 4 <= |buffer| && ReadInt(buffer, 0) == |msgs|
  {
    hide IntBytes, ReadInt;
    assert buffer[0..4] == Packed(msgs)[0..4] == IntBytes(|msgs|);
    ReadBack(|msgs|, buffer, 0);
  }

  /** ... the length of a message ... */
  lemma LengthInPacket(buffer: seq<byte>, msgs: seq<Message>, k: nat)
    requires Fits(msgs) && Packed(msgs) <= buffer && k < |msgs|
    ensures 4 * (k + 1) + 4 <= |buffer| && ReadInt(buffer, 4 * (k + 1)) == |msgs[k].content|
  {
    hide IntBytes, ReadInt, Lengths, Bodies;
    LengthAt(msgs, k);
    var at := 4 * (k + 1);
    assert buffer[at..at + 4] == Packed(msgs)[at..at + 4] == Lengths(msgs)[4 * k..4 * k + 4];
    ReadBack(|msgs[k].content|, buffer, at);
  }

  /** ... and its content. */
  lemma ContentInPacket(buffer: seq<byte>, msgs: seq<Message>, k: nat)
    requires Fits(msgs) && Packed(msgs) <= buffer && k < |msgs|
    ensures var start, len := 4 * (|msgs| + 1) + |Bodies(msgs[..k])|, |msgs[k].content|;
            start + len <= |buffer| && buffer[start..start + len] == msgs[k].content
  {
    hide IntBytes, Lengths, Bodies;
    PrefixOfBodies(msgs, k);
    var from, len := |Bodies(msgs[..k])|, |msgs[k].content|;
    var start := 4 * (|msgs| + 1) + from;
    assert buffer[start..start + len] == Packed(msgs)[start..start + len] == Bodies(msgs)[from..from + len];
  }

  // ------------------------------------------------------------------------------------------
  // Receiving
  // ------------------------------------------------------------------------------------------

  /** The loop of testReceiveRequests over one buffer, which may be longer than the packet. */
  method Unpack(buffer: seq<byte>, ghost msgs: seq<Message>) returns (contents: seq<seq<byte>>)
    requires Fits(msgs) && Packed(msgs) <= buffer
    ensures |contents| == |msgs| && forall k :: 0 <= k < |msgs| ==> contents[k] == msgs[k].content
  {
    hide Packed, ReadInt;
    CountOfPacket(buffer, msgs);
    var numMessages := ReadInt(buffer, 0);
    var msgPosition := 4 * (numMessages + 1);
    contents := [];
    for i := 0 to numMessages
      invariant msgPosition == 4 * (|msgs| + 1) + |Bodies(msgs[..i])|
      invariant |contents| == i && forall k :: 0 <= k < i ==> contents[k] == msgs[k].content
    {
      LengthInPacket(buffer, msgs, i);
      ContentInPacket(buffer, msgs, i);
      var msgLength := ReadInt(buffer, 4 * (i + 1));
      contents := contents + [buffer[msgPosition..msgPosition + msgLength]];
      assert msgs[..i + 1][..i] == msgs[..i];
      msgPosition := msgPosition + msgLength;
    }
  }

  // ------------------------------------------------------------------------------------------
  // Sending
  // ------------------------------------------------------------------------------------------

  /** MPI_Pack: copies data to a position of the buffer. */
  method Pack(buffer: array<byte>, position: nat, data: seq<byte>) returns (next: nat)
    requires position + |data| <= buffer.Length
    modifies buffer
    ensures next == position + |data|
    ensures buffer[..position] == old(buffer[..position]) && buffer[position..next] == data && buffer[next..] == old(buffer[next..])
  {
    for i := 0 to |data|
      invariant buffer[..position] == old(buffer[..position]) && buffer[position..position + i] == data[..i]
      invariant buffer[position + i..] == old(buffer[position + i..])
    {
      buffer[position + i] := data[i];
      assert buffer[position..position + i + 1] == data[..i + 1];
    }
    next := position + |data|;
  }

  /** One turn of it: head and contents grow. */
  method PackNext(buffer: array<byte>, position: nat, headerSize: nat, messagePosition: nat, content: seq<byte>)
    returns (position': nat, messagePosition': nat)
    requires |content| <= INT_MAX && position + 4 <= headerSize <= messagePosition
    requires messagePosition + |content| <= buffer.Length
    modifies buffer
    ensures position' == position + 4 && messagePosition' == messagePosition + |content|
    ensures buffer[..position'] == old(buffer[..position]) + IntBytes(|content|)
    ensures buffer[headerSize..messagePosition'] == old(buffer[headerSize..messagePosition]) + content
  {
    hide IntBytes;
    ghost var filled, head := buffer[headerSize..messagePosition], buffer[..position];
    position' := Pack(buffer, position, IntBytes(|content|));
    assert buffer[..position'] == head + IntBytes(|content|);
    assert buffer[headerSize..messagePosition] == filled;
    head := buffer[..position'];
    messagePosition' := Pack(buffer, messagePosition, content);
    assert buffer[..position'] == head by {
      assert forall k :: 0 <= k < position' ==> buffer[k] == buffer[..messagePosition][k];
    }
    assert buffer[headerSize..messagePosition'] == buffer[headerSize..messagePosition] + buffer[messagePosition..messagePosition'];
  }

  /** The loop of packAndSend: lengths go to the header, contents behind it. */
  method PackMessages(buffer: array<byte>, msgs: seq<Message>) returns (messagePosition: nat)
    requires Fits(msgs) && |Packed(msgs)| <= buffer.Length
    modifies buffer
    ensures messagePosition == |Packed(msgs)| && buffer[..messagePosition] == Packed(msgs)
  {
    hide IntBytes, Lengths, Bodies;
    var headerSize := 4 * (|msgs| + 1);
    var position := Pack(buffer, 0, IntBytes(|msgs|));
    messagePosition := headerSize;
    NothingYet();
    assert msgs[..0] == [];
    for i := 0 to |msgs|
      invariant position == 4 * (i + 1) && messagePosition == headerSize + |Bodies(msgs[..i])|
      invariant messagePosition <= buffer.Length && buffer[..position] == IntBytes(|msgs|) + Lengths(msgs[..i])
      invariant buffer[headerSize..messagePosition] == Bodies(msgs[..i])
    {
      OneMore(msgs, i);
      position, messagePosition := PackNext(buffer, position, headerSize, messagePosition, msgs[i].content);
    }
    assert msgs[..|msgs|] == msgs;
    assert buffer[..messagePosition] == buffer[..position] + buffer[headerSize..messagePosition];
  }

  lemma NothingYet()
    ensures Lengths([]) == [] && Bodies([]) == []
  {
  }

  lemma OneMore(msgs: seq<Message>, i: nat)
    requires Fits(msgs) && i < |msgs|
    ensures Lengths(msgs[..i + 1]) == Lengths(msgs[..i]) + IntBytes(|msgs[i].content|)
    ensures Bodies(msgs[..i + 1]) == Bodies(msgs[..i]) + msgs[i].content
    ensures |Bodies(msgs[..i])| + |msgs[i].content| <= |Bodies(msgs)|
  {
    assert msgs[..i + 1][..i] == msgs[..i];
    PrefixOfBodies(msgs, i);
  }

  /** A bound on the size of a packet of at most `count` messages. */
  lemma {:induction false} BodiesAreSmall(msgs: seq<Message>, size: nat)
    requires forall m :: m in msgs ==> |m.content| <= size
    ensures |Bodies(msgs)| <= size * |msgs|
  {
    if msgs != [] {
      BodiesAreSmall(msgs[..|msgs| - 1], size);
      assert msgs[|msgs| - 1] in msgs;
      assert size * |msgs| == size * (|msgs| - 1) + size;
    }
  }

  lemma PacketFits(msgs: seq<Message>, size: nat, count: nat)
    requires Fits(msgs) && size >= 8 && 1 <= count && |msgs| <= count
    requires forall m :: m in msgs ==> |m.content| + 8 <= size
    ensures |Packed(msgs)| <= size * count
  {
    BodiesAreSmall(msgs, size - 8);
    assert |Packed(msgs)| == 4 + 4 * |msgs| + |Bodies(msgs)|;
    hide *;
    Enough(size, count, |msgs|, |Bodies(msgs)|);
  }

  lemma Enough(size: nat, count: nat, k: nat, bodies: nat)
    requires size >= 8 && 1 <= count && k <= count && bodies <= (size - 8) * k
    ensures 4 + 4 * k + bodies <= size * count
  {
    assert (size - 8) * k == size * k - 8 * k;
    Times(size, k, count);
    Times(size, 1, count);
  }

  lemma Times(size: nat, k: nat, count: nat)
    requires k <= count
    ensures size * k <= size * count
  {
    assert size * (count - k) >= 0;
  }

  // ------------------------------------------------------------------------------------------
  // Aggregating
  // ------------------------------------------------------------------------------------------

  function Flatten(packets: seq<seq<Message>>): seq<Message> {
    if packets == [] then [] else Flatten(packets[..|packets| - 1]) + packets[|packets| - 1]
  }

  lemma FlattenAppend(packets: seq<seq<Message>>, p: seq<Message>)
    ensures Flatten(packets + [p]) == Flatten(packets) + p
  {
    assert (packets + [p])[..|packets|] == packets;
  }

  lemma {:induction false} FlattenPrefix(packets: seq<seq<Message>>, k: nat)
    requires k <= |packets|
    ensures Flatten(packets[..k]) <= Flatten(packets)
    decreases |packets|
  {
    if k == |packets| {
      assert packets[..k] == packets;
    } else {
      FlattenPrefix(packets[..|packets| - 1], k);
      assert packets[..|packets| - 1][..k] == packets[..k];
    }
  }

  /** The messages of a list that are for receiver j. */
  function For(list: seq<Message>, j: nat): seq<Message> {
    if list == [] then [] else (if list[0].receiver == j then [list[0]] else []) + For(list[1..], j)
  }

  lemma {:induction false} ForAppend(list: seq<Message>, m: Message, j: nat)
    ensures For(list + [m], j) == For(list, j) + (if m.receiver == j then [m] else [])
  {
    if list == [] {
      assert [] + [m] == [m] && [m][1..] == [];
    } else {
      ForAppend(list[1..], m, j);
      assert (list + [m])[1..] == list[1..] + [m];
    }
  }

  class TimeWarpMPICommunicationManager {
    const numProcesses: nat
    const size: nat               // bytes of buffer for each message of an aggregate
    const maxAggregate: nat
    var msgList: seq<Message>
    var aggregateMessages: seq<seq<Message>>
    var aggregateMessageCountByReceiver: seq<nat>
    var wire: seq<seq<seq<byte>>>             // the packets sent to each receiver
    ghost var packets: seq<seq<seq<Message>>> // what is in them
    ghost var inserted: seq<seq<Message>>     // every message ever inserted, by receiver

    predicate Ok(m: Message) {
      m.receiver < numProcesses && |m.content| + 8 <= size && |m.content| <= INT_MAX
    }

    /** What holds of receiver j: its packets, its aggregate and its share of the list are, in this
        order, exactly what was inserted for it. */
    ghost predicate Receiver(j: nat)
      reads this
      requires |aggregateMessages| == |aggregateMessageCountByReceiver| == |wire| == |packets| == |inserted| == numProcesses
      requires j < numProcesses
    {
      && aggregateMessageCountByReceiver[j] == |aggregateMessages[j]| <= maxAggregate
      && (forall m :: m in aggregateMessages[j] ==> Ok(m))
      && |wire[j]| == |packets[j]|
      && (forall k :: 0 <= k < |packets[j]| ==> Fits(packets[j][k]) && wire[j][k] == Packed(packets[j][k]))
      && inserted[j] == Flatten(packets[j]) + aggregateMessages[j] + For(msgList, j)
    }

    ghost predicate Valid()
      reads this
    {
      && 1 <= maxAggregate <= INT_MAX && size >= 8
      && |aggregateMessages| == |aggregateMessageCountByReceiver| == |wire| == |packets| == |inserted| == numProcesses
      && (forall m :: m in msgList ==> Ok(m))
      && (forall j :: 0 <= j < numProcesses ==> Receiver(j))
    }

    /** Between two rounds of sending, nothing urgent waits: an aggregate holds event messages only,
        and fewer than max_aggregate_. */
    ghost predicate NothingUrgent()
      reads this
      requires Valid()
    {
      forall j :: 0 <= j < numProcesses ==>
        |aggregateMessages[j]| < maxAggregate && forall m :: m in aggregateMessages[j] ==> m.isEvent
    }

    constructor (numProcesses: nat, size: nat, maxAggregate: nat)
      requires 1 <= maxAggregate <= INT_MAX && size >= 8
      ensures Valid() && NothingUrgent() && this.numProcesses == numProcesses && this.size == size && this.maxAggregate == maxAggregate
      ensures inserted == seq(numProcesses, j => [])
    {
      this.numProcesses, this.size, this.maxAggregate := numProcesses, size, maxAggregate;
      msgList := [];
      aggregateMessages, aggregateMessageCountByReceiver := seq(numProcesses, j => []), seq(numProcesses, j => 0);
      wire, packets, inserted := seq(numProcesses, j => []), seq(numProcesses, j => []), seq(numProcesses, j => []);
    }

    method InsertMessage(msg: Message)
      requires Valid() && Ok(msg)
      modifies `msgList, `inserted
      ensures Valid() && msgList == old(msgList) + [msg]
      ensures inserted == old(inserted)[msg.receiver := old(inserted)[msg.receiver] + [msg]]
      ensures NothingUrgent() == old(NothingUrgent())
    {
      hide Flatten, For, Packed;
      ghost var list := msgList;
      msgList := msgList + [msg];
      inserted := inserted[msg.receiver := inserted[msg.receiver] + [msg]];
      forall j | 0 <= j < numProcesses
        ensures Receiver(j)
      {
        assert old(Receiver(j));
        ForAppend(list, msg, j);
        if j == msg.receiver {
          assert old(inserted)[j] + [msg] == Flatten(packets[j]) + aggregateMessages[j] + (For(list, j) + [msg]);
        }
      }
    }

    method PackAndSend(receiverId: nat)
      requires Valid() && receiverId < numProcesses
      modifies this
      ensures Valid() && msgList == old(msgList) && inserted == old(inserted)
      ensures aggregateMessages == old(aggregateMessages)[receiverId := []]
      ensures Fits(old(aggregateMessages)[receiverId])
      ensures wire[receiverId] == old(wire)[receiverId] + [Packed(old(aggregateMessages)[receiverId])]
      ensures forall j :: 0 <= j < numProcesses && j != receiverId ==> wire[j] == old(wire)[j]
    {
      hide Flatten, For, Packed;
      var msgs := aggregateMessages[receiverId];
      assert Receiver(receiverId);
      assert Fits(msgs) by {
        assert forall k :: 0 <= k < |msgs| ==> msgs[k] in msgs;
      }
      PacketFits(msgs, size, maxAggregate);
      var messageBuffer := new byte[size * maxAggregate];
      var messagePosition := PackMessages(messageBuffer, msgs);
      wire := wire[receiverId := wire[receiverId] + [messageBuffer[..messagePosition]]];
      FlattenAppend(packets[receiverId], msgs);
      packets := packets[receiverId := packets[receiverId] + [msgs]];
      aggregateMessages := aggregateMessages[receiverId := []];
      aggregateMessageCountByReceiver := aggregateMessageCountByReceiver[receiverId := 0];
      forall j | 0 <= j < numProcesses
        ensures Receiver(j)
      {
        assert old(Receiver(j));
      }
    }

    /** The loop of startSendRequests. */
    method StartSendRequests() returns (requests: nat)
      requires Valid() && NothingUrgent()
      modifies this
      ensures Valid() && NothingUrgent() && msgList == [] && inserted == old(inserted)
    {
      requests := 0;
      while msgList != []
        invariant Valid() && NothingUrgent() && inserted == old(inserted)
        decreases |msgList|
      {
        var sentIt := SendFirst();
        if sentIt {
          requests := requests + 1;
        }
      }
    }

    /** The first message of the list joins its receiver's aggregate. */
    method Aggregate() returns (msg: Message)
      requires Valid() && NothingUrgent() && msgList != []
      modifies this
      ensures Valid() && msg == old(msgList)[0] && Ok(msg)
      ensures msgList == old(msgList)[1..] && inserted == old(inserted) && wire == old(wire)
      ensures aggregateMessages ==
              old(aggregateMessages)[msg.receiver := old(aggregateMessages)[msg.receiver] + [msg]]
    {
      hide Flatten, Packed;
      msg := msgList[0];
      assert msg in msgList;
      var j := msg.receiver;
      msgList := msgList[1..];
      aggregateMessages := aggregateMessages[j := aggregateMessages[j] + [msg]];
      aggregateMessageCountByReceiver := aggregateMessageCountByReceiver[j := aggregateMessageCountByReceiver[j] + 1];
      forall i | 0 <= i < numProcesses
        ensures Receiver(i)
      {
        assert old(Receiver(i));
        assert i == j ==> inserted[j] == Flatten(packets[j]) + old(aggregateMessages)[j] + ([msg] + For(msgList, j));
      }
    }

    /** One turn of that loop: a full aggregate goes out, and so does one with a control message. */
    method SendFirst() returns (sentIt: bool)
      requires Valid() && NothingUrgent() && msgList != []
      modifies this
      ensures Valid() && NothingUrgent() && msgList == old(msgList)[1..] && inserted == old(inserted)
      ensures var msg := old(msgList)[0];
              && msg.receiver < numProcesses
              && (sentIt <==> !msg.isEvent || |old(aggregateMessages)[msg.receiver]| + 1 >= maxAggregate)
    {
      hide Flatten, For, Packed;
      assert msgList[0] in msgList;
      var msg := Aggregate();
      assert Receiver(msg.receiver);
      sentIt := aggregateMessageCountByReceiver[msg.receiver] >= maxAggregate || !msg.isEvent;
      if sentIt {
        PackAndSend(msg.receiver);
      }
    }

    method FlushMessages()
      requires Valid()
      modifies this
      ensures Valid() && msgList == old(msgList) && inserted == old(inserted)
      ensures NothingUrgent() && forall j :: 0 <= j < numProcesses ==> aggregateMessages[j] == []
    {
      for receiverId := 0 to numProcesses
        invariant Valid() && msgList == old(msgList) && inserted == old(inserted)
        invariant forall j :: 0 <= j < receiverId ==> aggregateMessages[j] == []
      {
        PackAndSend(receiverId);
      }
    }

    /** A receiver that has unpacked the first k packets sent to it has seen the first messages
        inserted for it, in the order in which they were inserted. */
    lemma HandledIsPrefix(j: nat, k: nat)
      requires Valid() && j < numProcesses && k <= |wire[j]|
      ensures |packets[j]| == |wire[j]| && Flatten(packets[j][..k]) <= inserted[j]
      ensures forall i :: 0 <= i < k ==> Fits(packets[j][i]) && wire[j][i] == Packed(packets[j][i])
    {
      assert Receiver(j);
      FlattenPrefix(packets[j], k);
    }

    /** Once the list and the aggregates are empty, everything inserted has been sent. */
    lemma NothingIsLost(j: nat)
      requires Valid() && j < numProcesses && msgList == [] && aggregateMessages[j] == []
      ensures Flatten(packets[j]) == inserted[j]
    {
      assert Receiver(j);
    }
  }

  /** The receiver's side: unpacks packets in the order in which they were sent. */
  method ReceiveAll(sender: TimeWarpMPICommunicationManager, j: nat, k: nat) returns (handled: seq<seq<byte>>)
    requires sender.Valid() && j < sender.numProcesses && k <= |sender.wire[j]|
    ensures |handled| <= |sender.inserted[j]|
    ensures forall i :: 0 <= i < |handled| ==> handled[i] == sender.inserted[j][i].content
    ensures k == |sender.wire[j]| && sender.msgList == [] && sender.aggregateMessages[j] == [] ==>
              |handled| == |sender.inserted[j]|
  {
    hide Flatten, For, Packed;
    handled := [];
    ghost var seen: seq<Message> := [];
    NothingFlattened();
    sender.HandledIsPrefix(j, k);
    for n := 0 to k
      invariant sender.Valid() && k <= |sender.packets[j]| == |sender.wire[j]|
      invariant seen == Flatten(sender.packets[j][..n]) && |handled| == |seen|
      invariant forall i :: 0 <= i < |seen| ==> handled[i] == seen[i].content
    {
      sender.HandledIsPrefix(j, k);
      assert sender.packets[j][..n + 1] == sender.packets[j][..n] + [sender.packets[j][n]];
      FlattenAppend(sender.packets[j][..n], sender.packets[j][n]);
      var contents := Unpack(sender.wire[j][n], sender.packets[j][n]);
      handled := handled + contents;
      seen := seen + sender.packets[j][n];
    }
    sender.HandledIsPrefix(j, k);
    assert sender.packets[j][..|sender.packets[j]|] == sender.packets[j];
    if sender.msgList == [] && sender.aggregateMessages[j] == [] {
      sender.NothingIsLost(j);
    }
  }

  lemma NothingFlattened()
    ensures forall p: seq<seq<Message>> :: Flatten(p[..0]) == []
  {
  }
}
