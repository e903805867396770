/** What short reads leave behind (standard.go): a FIFO of byte strings in recycled buffers,
    and the reads it serves. */
module TailQueue {
  import opened Wire

  const MAX_SPARE: nat := 4

  /** One entry of the queue stands for the bytes buf[off..end]; Cleared is an entry that was popped. */
  datatype Tail = Tail(buf: array<byte>, off: nat, end: nat) | Cleared

  /** The spare buffers after b was given back. */
  function Kept(free: seq<array<byte>>, b: array<byte>): seq<array<byte>> {
    if |free| < MAX_SPARE then free + [b] else free
  }

  class Remainder {
    var pending: bool
    var queue: seq<Tail>          // the live entries start at head
    var head: nat
    var cap: nat                  // capacity of the queue slice
    var free: seq<array<byte>>    // spare buffers
    const size: nat
    ghost var contents: seq<seq<byte>>
    ghost var lent: set<array<byte>>

    ghost function Queued(): set<array<byte>>
      reads this
    {
      set i | head <= i < |queue| && queue[i].Tail? :: queue[i].buf
    }

    ghost function Spare(): set<array<byte>>
      reads this
    {
      set b | b in free
    }

    ghost function Buffers(): set<array<byte>>
      reads this
    {
      Queued() + Spare()
    }

    /** The live tails are well-formed, and each has a buffer of its own. */
    ghost predicate QueueOk()
      reads this
    {
      head <= |queue| <= cap && (head == |queue| ==> queue == []) && (pending <==> queue != []) &&
      (forall i :: head <= i < |queue| ==> queue[i].Tail? && queue[i].off <= queue[i].end <= queue[i].buf.Length) &&
      (forall i, j :: head <= i < j < |queue| ==> queue[i].buf != queue[j].buf)
    }

    ghost predicate FreeOk()
      reads this
    {
      |free| <= MAX_SPARE && forall i, j :: 0 <= i < j < |free| ==> free[i] != free[j]
    }

    /** No buffer is in two places. */
    ghost predicate Apart()
      reads this
    {
      Queued() !! Spare() && Queued() !! lent && Spare() !! lent
    }

    ghost predicate ContentsOk()
      reads this, Queued()
    {
      QueueOk() && |contents| == |queue| - head &&
      forall i :: head <= i < |queue| ==> contents[i - head] == queue[i].buf[queue[i].off..queue[i].end]
    }

    ghost predicate Valid()
      reads this, Queued()
    {
      QueueOk() && FreeOk() && Apart() && ContentsOk()
    }

    constructor (size: nat)
      ensures Valid() && this.size == size && contents == [] && lent == {} && queue == [] && free == []
    {
      this.size := size;
      pending, queue, head, cap, free := false, [], 0, 0, [];
      contents, lent := [], {};
    }

    /** A buffer of at least n bytes: the newest spare one if it is long enough. */
    method GetBuf(n: nat) returns (b: array<byte>)
      requires Valid()
      modifies this`free
      ensures Valid() && b.Length >= n && b !in Queued() && b !in Spare() && b !in lent
      ensures free == if old(free) == [] then [] else old(free)[..|old(free)| - 1]
      ensures if old(free) != [] && old(free)[|old(free)| - 1].Length >= n then b == old(free)[|old(free)| - 1]
              else fresh(b) && b.Length == if n > size then n else size
      ensures Spare() <= old(Spare())
    {
      if |free| > 0 {
        b := free[|free| - 1];
        free := free[..|free| - 1];
        if b.Length >= n {
          return;
        }
      }
      b := new byte[if n > size then n else size];
    }

    /** Keeps b as a spare buffer if there is room. */
    method PutBuf(b: array<byte>)
      requires Valid() && b !in Queued() && b !in Spare() && b !in lent
      modifies this`free
      ensures Valid() && Spare() <= old(Spare()) + {b}
      ensures free == Kept(old(free), b)
    {
      if |free| < MAX_SPARE {
        free := free + [b];
      }
    }

    /** Drops the oldest tail. */
    method Pop()
      requires Valid() && queue != []
      modifies this`queue, this`head, this`pending, this`contents
      ensures Valid() && contents == old(contents)[1..]
      ensures Queued() <= old(Queued()) && old(queue[head].buf) !in Queued()
    {
      queue := queue[head := Cleared];
      head := head + 1;
      contents := contents[1..];
      if head == |queue| {
        queue, head, pending := [], 0, false;
      }
    }

    /** Moves the live entries to the front; what they stand for does not change. */
    method Compact()
      requires Valid()
      modifies this`queue, this`head
      ensures Valid() && head == 0 && queue == old(queue[head..]) && Queued() == old(Queued())
    {
      SameBuffers(queue, head, queue[head..]);
      queue, head := queue[head..], 0;
    }

    /** Adds src at the end of the FIFO, in a buffer nobody else has. grown is the capacity append
        chooses when the queue is full and has no popped entry. */
    method Store(src: seq<byte>, grown: nat)
      requires Valid() && grown > |queue|
      modifies this, Spare()
      ensures Valid() && contents == old(contents) + [src] && lent == old(lent)
      ensures fresh(Queued() - old(Queued()) - old(Spare())) && fresh(Buffers() - old(Buffers()))
      ensures free == if old(free) == [] then [] else old(free)[..|old(free)| - 1]
      ensures cap != old(cap) ==> old(head) == 0 && |old(queue)| == old(cap)
    {
      var buf := GetBuf(|src|);
      forall i | 0 <= i < |src| {
        buf[i] := src[i];
      }
      assert buf[0..|src|] == src;
      if head > 0 && |queue| == cap {
        Compact();
      }
      Append(buf, src, grown);
    }

    method Append(buf: array<byte>, src: seq<byte>, grown: nat)
      requires Valid() && grown > |queue| && buf.Length >= |src| && buf[0..|src|] == src
      requires buf !in Queued() && buf !in Spare() && buf !in lent
      modifies this`queue, this`cap, this`pending, this`contents
      ensures Valid() && contents == old(contents) + [src] && Queued() <= old(Queued()) + {buf}
      ensures cap == if |old(queue)| == old(cap) then grown else old(cap)
    {
      if |queue| == cap {
        cap := grown;
      }
      queue, contents, pending := queue + [Tail(buf, 0, |src|)], contents + [src], true;
    }

    /** Serves one read from the front of the FIFO: the first n bytes of dst change and nothing else
        of it. ok tells whether the FIFO had an element. */
    method Read(dst: array<byte>, discard: bool) returns (n: nat, ok: bool)
      requires Valid() && dst !in Queued()
      modifies this, dst
      ensures Valid() && lent == old(lent) && ok == (old(contents) != [])
      ensures Queued() <= old(Queued()) && Buffers() <= old(Buffers())
      ensures n <= dst.Length && dst[n..] == old(dst[n..])
      ensures !ok ==> n == 0 && contents == old(contents)
      ensures ok ==> Served(old(contents), dst[..n], dst.Length, discard, contents)
      ensures free == if |contents| < |old(contents)| then Kept(old(free), old(queue[head].buf)) else old(free)
    {
      if !pending {
        return 0, false;
      }
      var t := queue[head];
      assert t.buf in Queued() && contents[0] == t.buf[t.off..t.end];
      n := if dst.Length < t.end - t.off then dst.Length else t.end - t.off;
      forall i | 0 <= i < n {
        dst[i] := t.buf[t.off + i];
      }
      assert forall i :: 0 <= i < n ==> dst[i] == contents[0][i];
      assert dst[..n] == contents[0][..n];
      ok := true;
      if discard || t.off + n == t.end {
        Pop();
        PutBuf(t.buf);
      } else {
        Advance(n);
      }
    }

    /** Takes n bytes off the first element. */
    method Advance(n: nat)
      requires Valid() && queue != [] && n <= queue[head].end - queue[head].off
      modifies this`queue, this`contents
      ensures Valid() && contents == [old(contents)[0][n..]] + old(contents)[1..] && Queued() <= old(Queued())
    {
      var t := queue[head];
      queue := queue[head := t.(off := t.off + n)];
      contents := [contents[0][n..]] + contents[1..];
      assert t.buf[t.off + n..t.end] == t.buf[t.off..t.end][n..];
    }

    /** Removes the first element and hands its bytes buf[off..end] to the caller, who owns the buffer
        until GiveBack. */
    method Take() returns (buf: array?<byte>, off: nat, end: nat)
      requires Valid()
      modifies this
      ensures Valid() && (buf == null <==> old(contents) == [])
      ensures buf == null ==> contents == old(contents) && lent == old(lent)
      ensures buf != null ==>
        off <= end <= buf.Length && buf[off..end] == old(contents)[0] && contents == old(contents)[1..] &&
        lent == old(lent) + {buf} && buf !in old(lent)
      ensures Queued() <= old(Queued()) && free == old(free)
    {
      if !pending {
        return null, 0, 0;
      }
      var t := queue[head];
      Pop();
      lent := lent + {t.buf};
      return t.buf, t.off, t.end;
    }

    method GiveBack(buf: array<byte>)
      requires Valid() && buf in lent
      modifies this
      ensures Valid() && contents == old(contents) && lent == old(lent) - {buf}
      ensures Queued() == old(Queued()) && free == Kept(old(free), buf)
    {
      lent := lent - {buf};
      PutBuf(buf);
    }
  }

  lemma {:induction false} SameBuffers(queue: seq<Tail>, head: nat, live: seq<Tail>)
    requires head <= |queue| && live == queue[head..]
    ensures (set i | 0 <= i < |live| && live[i].Tail? :: live[i].buf) ==
            (set i | head <= i < |queue| && queue[i].Tail? :: queue[i].buf)
  {
    var a := set i | 0 <= i < |live| && live[i].Tail? :: live[i].buf;
    var b := set i | head <= i < |queue| && queue[i].Tail? :: queue[i].buf;
    assert forall i :: 0 <= i < |live| ==> live[i] == queue[head + i];
    forall x | x in b ensures x in a {
      var k :| head <= k < |queue| && queue[k].Tail? && queue[k].buf == x;
      assert live[k - head] == queue[k];
    }
  }

  // ------------------------------------------------------------------------ FIFO

  /** One read of at most room bytes from a FIFO of byte strings: data is a prefix of the
      oldest one, as long as possible; what is left of it stays first, unless it is dropped. */
  predicate Served(before: seq<seq<byte>>, data: seq<byte>, room: nat, discard: bool, after: seq<seq<byte>>) {
    before != [] && |data| == Min(room, |before[0]|) && data == before[0][..|data|] &&
    after == if discard || |data| == |before[0]| then before[1..] else [before[0][|data|..]] + before[1..]
  }

  lemma {:induction false} ServedInFront(
    before: seq<seq<byte>>, data: seq<byte>, room: nat, discard: bool, after: seq<seq<byte>>, more: seq<seq<byte>>)
    requires Served(before, data, room, discard, after)
    ensures Served(before + more, data, room, discard, after + more)
  {
    assert (before + more)[1..] == before[1..] + more;
    assert [before[0][|data|..]] + (before[1..] + more) == [before[0][|data|..]] + before[1..] + more;
  }

  /** A packet of the receive ring. A copy packet names its size; its bytes are in the slot
      buffer. ErrorPacket and Other are refused by classify. */
  datatype Packet = Copy(size: int, buffer: seq<byte>) | Tombstone | ErrorPacket(code: nat) | Other

  datatype Verdict = Message(data: seq<byte>) | Skip | Refused

  function Classify(p: Packet, bufferSize: nat): Verdict
    requires p.Copy? ==> |p.buffer| == bufferSize
  {
    match p
    case Tombstone => Skip
    case Copy(size, buffer) => if size <= 0 || size > bufferSize then Refused else Message(buffer[..size])
    case _ => Refused
  }

  ghost predicate RingOk(ring: seq<Packet>, bufferSize: nat) {
    forall p :: p in ring && p.Copy? ==> |p.buffer| == bufferSize
  }

  /** The messages a ring carries, in order. */
  ghost function Messages(ring: seq<Packet>, bufferSize: nat): seq<seq<byte>>
    requires RingOk(ring, bufferSize)
  {
    if ring == [] then []
    else
      var v := Classify(ring[0], bufferSize);
      (if v.Message? then [v.data] else []) + Messages(ring[1..], bufferSize)
  }

  /** The number of packets in a ring that are refused. */
  ghost function Refusals(ring: seq<Packet>, bufferSize: nat): nat
    requires RingOk(ring, bufferSize)
  {
    if ring == [] then 0
    else (if Classify(ring[0], bufferSize).Refused? then 1 else 0) + Refusals(ring[1..], bufferSize)
  }

  lemma {:induction false} RingGrows(ring: seq<Packet>, p: Packet, bufferSize: nat)
    requires RingOk(ring, bufferSize) && RingOk([p], bufferSize)
    ensures RingOk(ring + [p], bufferSize)
    ensures Messages(ring + [p], bufferSize) == Messages(ring, bufferSize) + Messages([p], bufferSize)
    ensures Refusals(ring + [p], bufferSize) == Refusals(ring, bufferSize) + Refusals([p], bufferSize)
  {
    if ring == [] {
      assert ring + [p] == [p];
    } else {
      RingGrows(ring[1..], p, bufferSize);
      assert (ring + [p])[1..] == ring[1..] + [p];
    }
  }

  lemma {:induction false} TombstonesCarryNothing(ring: seq<Packet>, bufferSize: nat)
    requires RingOk(ring, bufferSize)
    ensures Messages(SkipTombstones(ring), bufferSize) == Messages(ring, bufferSize)
    ensures Refusals(SkipTombstones(ring), bufferSize) == Refusals(ring, bufferSize)
  {
    if ring != [] && ring[0].Tombstone? {
      TombstonesCarryNothing(ring[1..], bufferSize);
    }
  }

  /** The packets behind the tombstones at the front of a ring. */
  ghost function SkipTombstones(ring: seq<Packet>): (r: seq<Packet>)
    ensures (forall p :: p in r ==> p in ring) && (r != [] ==> !r[0].Tombstone?)
  {
    if ring != [] && ring[0].Tombstone? then SkipTombstones(ring[1..]) else ring
  }

  datatype Status = Got | Blocked | Error

  /** What a look at the ring finds behind the tombstones: nothing, a message, or a packet
      that is refused. It is taken off the ring. */
  ghost predicate Polled(before: seq<Packet>, bufferSize: nat, status: Status, after: seq<Packet>)
    requires RingOk(before, bufferSize)
  {
    var next := SkipTombstones(before);
    if next == [] then status == Blocked && after == []
    else status == (if Classify(next[0], bufferSize).Message? then Got else Error) && after == next[1..]
  }

  /** The receiving side of a link with one reader. */
  class Reader {
    const recv: Remainder
    const bufferSize: nat
    var ring: seq<Packet>

    ghost predicate Valid()
      reads this, recv, recv.Queued()
    {
      recv.Valid() && RingOk(ring, bufferSize)
    }

    /** What the reader has not read yet: the queued tail, then the messages of the ring. */
    ghost function Unread(): seq<seq<byte>>
      requires RingOk(ring, bufferSize)
      reads this, recv
    {
      recv.contents + Messages(ring, bufferSize)
    }

    ghost function Ahead(): Look
      requires RingOk(ring, bufferSize)
      reads this, recv
    {
      Look(Unread(), Refusals(ring, bufferSize))
    }

    constructor (bufferSize: nat, ring: seq<Packet>)
      requires RingOk(ring, bufferSize)
      ensures Valid() && this.ring == ring && this.bufferSize == bufferSize && recv.contents == []
      ensures fresh(recv) && fresh(recv.Queued()) && fresh(recv.Spare())
    {
      recv := new Remainder(bufferSize);
      this.bufferSize, this.ring := bufferSize, ring;
    }

    /** One read: of the byte stream, or of a datagram, whose rest is dropped. */
    method ReceiveMessage(b: array<byte>, datagram: bool, grown: nat) returns (n: nat, status: Status)
      requires Valid() && b !in recv.Queued() && b !in recv.Spare() && grown > |recv.queue|
      modifies this, recv, recv.Spare(), b
      ensures Valid() && n <= b.Length
      ensures status == Got ==> Served(old(Unread()), b[..n], b.Length, datagram, Unread())
      ensures status != Got ==> n == 0 && Unread() == old(Unread())
      ensures if old(recv.contents) != [] then status == Got && ring == old(ring) else Polled(old(ring), bufferSize, status, ring)
      ensures fresh(recv.Buffers() - old(recv.Buffers()))
    {
      if recv.pending {
        var ok;
        n, ok := recv.Read(b, datagram);
        ServedInFront(old(recv.contents), b[..n], b.Length, datagram, recv.contents, Messages(ring, bufferSize));
        return n, Got;
      }
      n, status := ReadRing(b, datagram, grown);
    }

    /** No tail is queued: the next packet of the ring, if there is one. */
    method ReadRing(b: array<byte>, datagram: bool, grown: nat) returns (n: nat, status: Status)
      requires Valid() && recv.contents == [] && b !in recv.Spare() && grown > |recv.queue|
      modifies this, recv, recv.Spare(), b
      ensures Valid() && n <= b.Length && Polled(old(ring), bufferSize, status, ring)
      ensures status == Got ==> Served(old(Unread()), b[..n], b.Length, datagram, Unread())
      ensures status != Got ==> n == 0 && Unread() == old(Unread())
      ensures fresh(recv.Buffers() - old(recv.Buffers()))
    {
      assert Unread() == Messages(ring, bufferSize);
      var v := NextPacket();
      if v.Message? {
        n := Deliver(b, v.data, datagram, grown);
        return n, Got;
      }
      assert Unread() == Messages(ring, bufferSize);
      return 0, if v.Refused? then Error else Blocked;
    }

    /** Takes packets off the ring up to the first that is no tombstone; Skip if none is left. */
    method NextPacket() returns (v: Verdict)
      requires RingOk(ring, bufferSize)
      modifies this`ring
      ensures RingOk(ring, bufferSize)
      ensures Messages(old(ring), bufferSize) == (if v.Message? then [v.data] else []) + Messages(ring, bufferSize)
      ensures
        var next := SkipTombstones(old(ring));
        if next == [] then v == Skip && ring == [] else v == Classify(next[0], bufferSize) && !v.Skip? && ring == next[1..]
    {
      while ring != []
        invariant RingOk(ring, bufferSize) && Messages(ring, bufferSize) == Messages(old(ring), bufferSize)
        invariant SkipTombstones(ring) == SkipTombstones(old(ring))
        decreases |ring|
      {
        v := Classify(ring[0], bufferSize);
        ring := ring[1..];
        if !v.Skip? {
          return;
        }
      }
      return Skip;
    }

    /** Copies a message of the ring to b and queues what does not fit, or drops it. */
    method Deliver(b: array<byte>, data: seq<byte>, datagram: bool, grown: nat) returns (n: nat)
      requires Valid() && recv.contents == [] && grown > |recv.queue| && b !in recv.Spare()
      modifies recv, recv.Spare(), b
      ensures Valid() && n <= b.Length
      ensures Served([data] + Messages(ring, bufferSize), b[..n], b.Length, datagram, Unread())
      ensures fresh(recv.Buffers() - old(recv.Buffers()))
    {
      n := Min(b.Length, |data|);
      forall i | 0 <= i < n {
        b[i] := data[i];
      }
      assert b[..n] == data[..n];
      if n < |data| && !datagram {
        recv.Store(data[n..], grown);
      }
      assert ([data] + Messages(ring, bufferSize))[1..] == Messages(ring, bufferSize);
    }

    /** A packet arrives. */
    method Arrive(p: Packet)
      requires Valid() && RingOk([p], bufferSize)
      modifies this`ring
      ensures Valid() && ring == old(ring) + [p] && Happens(old(Ahead()), Came(p), bufferSize, Ahead())
    {
      RingGrows(ring, p, bufferSize);
      ring := ring + [p];
      assert Unread() == old(Unread()) + Messages([p], bufferSize);
    }

    /** One read into a buffer of room bytes. */
    method ReadOnce(room: nat) returns (e: Event)
      requires Valid()
      modifies this, recv, recv.Spare()
      ensures Valid() && fresh(recv.Buffers() - old(recv.Buffers()))
      ensures e.Was? && e.room == room && Happens(old(Ahead()), e, bufferSize, Ahead())
    {
      var b := new byte[room];
      var n, status := ReceiveMessage(b, false, |recv.queue| + 1);
      e := Was(room, status, b[..n]);
      if old(recv.contents) == [] {
        PolledRefusals(old(ring), bufferSize, status, ring);
      }
    }

    method Answer(a: Ask) returns (e: Event)
      requires Valid() && (a.Arrival? ==> RingOk([a.packet], bufferSize))
      modifies this, recv, recv.Spare()
      ensures Valid() && fresh(recv.Buffers() - old(recv.Buffers()))
      ensures IsAnswer(a, e) && Happens(old(Ahead()), e, bufferSize, Ahead())
    {
      if a.Arrival? {
        Arrive(a.packet);
        e := Came(a.packet);
      } else {
        e := ReadOnce(a.room);
      }
    }

    /** Reads and arrivals in any order: all of it gives back the messages. from says which
        message the data of a read came from. */
    method Session(asks: seq<Ask>) returns (events: seq<Event>, ghost from: seq<nat>)
      requires Valid() && forall a :: a in asks && a.Arrival? ==> RingOk([a.packet], bufferSize)
      modifies this, recv, recv.Buffers()
      ensures Valid() && Answers(asks, events) && IsRun(old(Ahead()), events, bufferSize, Ahead())
      ensures Intact(old(Unread()) + Arrived(events, bufferSize), DataRead(events), from, Unread())
    {
      events := [];
      for i := 0 to |asks|
        invariant Valid() && fresh(recv.Buffers() - old(recv.Buffers()))
        invariant Answers(asks[..i], events) && IsRun(old(Ahead()), events, bufferSize, Ahead())
      {
        ghost var before := Ahead();
        var e := Answer(asks[i]);
        RunGoesOn(old(Ahead()), events, before, e, bufferSize, Ahead());
        AnswersGoOn(asks, i, events, e);
        events := events + [e];
      }
      assert asks[..|asks|] == asks;
      from := RunsRebuildMessages(old(Ahead()), events, bufferSize, Ahead());
    }
  }

  // ------------------------------------------------------------ reads and arrivals

  /** What a reader has ahead: the messages, and the number of packets that are refused. */
  datatype Look = Look(unread: seq<seq<byte>>, refusals: nat)

  datatype Ask = Reading(room: nat) | Arrival(packet: Packet)

  datatype Event = Was(room: nat, status: Status, data: seq<byte>) | Came(packet: Packet)

  /** A read gets data of the first message. It comes back without only if nothing is ahead,
      or for a packet that is refused. */
  ghost predicate Happens(before: Look, e: Event, bufferSize: nat, after: Look) {
    match e
    case Came(p) =>
      RingOk([p], bufferSize) &&
      after == Look(before.unread + Messages([p], bufferSize), before.refusals + Refusals([p], bufferSize))
    case Was(room, status, data) =>
      match status
      case Got => Served(before.unread, data, room, false, after.unread) && after.refusals == before.refusals
      case Blocked => data == [] && before == Look([], 0) && after == before
      case Error => data == [] && before.refusals > 0 && after == before.(refusals := before.refusals - 1)
  }

  /** Without data a look at the ring found nothing, or used up a packet that is refused. */
  lemma {:induction false} PolledRefusals(ring: seq<Packet>, bufferSize: nat, status: Status, ring': seq<Packet>)
    requires RingOk(ring, bufferSize) && RingOk(ring', bufferSize) && Polled(ring, bufferSize, status, ring')
    ensures Refusals(ring, bufferSize) == Refusals(ring', bufferSize) + if status == Error then 1 else 0
    ensures status == Blocked ==> Messages(ring, bufferSize) == [] && Refusals(ring, bufferSize) == 0
  {
    TombstonesCarryNothing(ring, bufferSize);
    var next := SkipTombstones(ring);
    if next != [] {
      assert next[0] in ring && RingOk(next, bufferSize);
      assert Refusals(next, bufferSize) ==
             (if Classify(next[0], bufferSize).Refused? then 1 else 0) + Refusals(next[1..], bufferSize);
    }
  }

  ghost predicate IsRun(before: Look, events: seq<Event>, bufferSize: nat, after: Look)
    decreases |events|
  {
    if events == [] then before == after
    else exists mid :: Happens(before, events[0], bufferSize, mid) && IsRun(mid, events[1..], bufferSize, after)
  }

  predicate IsAnswer(a: Ask, e: Event) {
    match a
    case Arrival(p) => e == Came(p)
    case Reading(room) => e.Was? && e.room == room
  }

  ghost predicate Answers(asks: seq<Ask>, events: seq<Event>) {
    |asks| == |events| && forall i :: 0 <= i < |asks| ==> IsAnswer(asks[i], events[i])
  }

  lemma {:induction false} AnswersGoOn(asks: seq<Ask>, i: nat, events: seq<Event>, e: Event)
    requires i < |asks| && Answers(asks[..i], events) && IsAnswer(asks[i], e)
    ensures Answers(asks[..i + 1], events + [e])
  {
    assert asks[..i + 1] == asks[..i] + [asks[i]];
  }

  lemma {:induction false} RunGoesOn(before: Look, events: seq<Event>, mid: Look, e: Event, bufferSize: nat, after: Look)
    requires IsRun(before, events, bufferSize, mid) && Happens(mid, e, bufferSize, after)
    ensures IsRun(before, events + [e], bufferSize, after)
    decreases |events|
  {
    if events == [] {
      assert (events + [e])[1..] == [] && IsRun(after, [], bufferSize, after);
    } else {
      var next :| Happens(before, events[0], bufferSize, next) && IsRun(next, events[1..], bufferSize, mid);
      RunGoesOn(next, events[1..], mid, e, bufferSize, after);
      assert (events + [e])[1..] == events[1..] + [e];
    }
  }

  /** The messages that came in a run. */
  ghost function Arrived(events: seq<Event>, bufferSize: nat): seq<seq<byte>> {
    if events == [] then []
    else
      (if events[0].Came? && RingOk([events[0].packet], bufferSize) then Messages([events[0].packet], bufferSize) else []) +
      Arrived(events[1..], bufferSize)
  }

  predicate GotData(e: Event) {
    e.Was? && e.status == Got
  }

  /** The data read in a run, one string a read. */
  function DataRead(events: seq<Event>): seq<seq<byte>> {
    if events == [] then [] else (if GotData(events[0]) then [events[0].data] else []) + DataRead(events[1..])
  }

  function Rooms(events: seq<Event>): seq<nat> {
    if events == [] then [] else (if GotData(events[0]) then [events[0].room] else []) + Rooms(events[1..])
  }

  // ------------------------------------------------------------- successive reads

  /** A run of reads: what each returned and the number of the message it came from. */
  datatype Reads = Reads(data: seq<seq<byte>>, from: seq<nat>, rest: seq<seq<byte>>)

  /** Reads of the given sizes, one after the other, as long as there is something to read.
      first is the number of the message that is next. */
  function ReadAll(unread: seq<seq<byte>>, sizes: seq<nat>, first: nat): (r: Reads)
    ensures |r.data| == |r.from|
    decreases |sizes|
  {
    if sizes == [] || unread == [] then
      Reads([], [], unread)
    else
      var n := Min(sizes[0], |unread[0]|);
      var done := n == |unread[0]|;
      var rest := if done then unread[1..] else [unread[0][n..]] + unread[1..];
      var r := ReadAll(rest, sizes[1..], if done then first + 1 else first);
      Reads([unread[0][..n]] + r.data, [first] + r.from, r.rest)
  }

  /** The bytes that came from message k. */
  function From(data: seq<seq<byte>>, from: seq<nat>, k: nat): seq<byte>
    requires |data| == |from|
  {
    if data == [] then [] else (if from[0] == k then data[0] else []) + From(data[1..], from[1..], k)
  }

  lemma {:induction false} FromTail(x: seq<byte>, f: nat, data: seq<seq<byte>>, from: seq<nat>, k: nat)
    requires |data| == |from|
    ensures From([x] + data, [f] + from, k) == (if f == k then x else []) + From(data, from, k)
  {
    assert ([x] + data)[1..] == data && ([f] + from)[1..] == from;
  }

  lemma {:induction false} NothingEarlier(unread: seq<seq<byte>>, sizes: seq<nat>, first: nat, k: nat)
    requires k < first
    ensures var r := ReadAll(unread, sizes, first); From(r.data, r.from, k) == []
    decreases |sizes|
  {
    if sizes != [] && unread != [] {
      var n := Min(sizes[0], |unread[0]|);
      var done := n == |unread[0]|;
      var rest := if done then unread[1..] else [unread[0][n..]] + unread[1..];
      var r := ReadAll(rest, sizes[1..], if done then first + 1 else first);
      NothingEarlier(rest, sizes[1..], if done then first + 1 else first, k);
      FromTail(unread[0][..n], first, r.data, r.from, k);
    }
  }

  /** got is the part of message k that was read when rest is still unread. */
  predicate Rebuilt(unread: seq<seq<byte>>, k: nat, got: seq<byte>, rest: seq<seq<byte>>)
    requires k < |unread|
  {
    |rest| <= |unread| &&
    var done := |unread| - |rest|;
    unread[k] == if k < done then got else got + rest[k - done]
  }

  /** One read more before those that follow. */
  lemma {:induction false} OneReadBefore(unread: seq<seq<byte>>, n: nat, k: nat, got: seq<byte>, rest: seq<seq<byte>>)
    requires k < |unread| && n < |unread[0]| && Rebuilt([unread[0][n..]] + unread[1..], k, got, rest)
    ensures Rebuilt(unread, k, (if k == 0 then unread[0][..n] else []) + got, rest)
  {
    var left := [unread[0][n..]] + unread[1..];
    if k == 0 {
      assert unread[0] == unread[0][..n] + left[0];
    } else {
      assert left[k] == unread[k] && [] + got == got;
    }
  }

  lemma {:induction false} PartRead(unread: seq<seq<byte>>, sizes: seq<nat>, first: nat, k: nat)
    requires sizes != [] && k < |unread| && sizes[0] < |unread[0]|
    requires
      var r := ReadAll([unread[0][sizes[0]..]] + unread[1..], sizes[1..], first);
      Rebuilt([unread[0][sizes[0]..]] + unread[1..], k, From(r.data, r.from, first + k), r.rest)
    ensures var r := ReadAll(unread, sizes, first); Rebuilt(unread, k, From(r.data, r.from, first + k), r.rest)
  {
    var n := sizes[0];
    var r := ReadAll([unread[0][n..]] + unread[1..], sizes[1..], first);
    FromTail(unread[0][..n], first, r.data, r.from, first + k);
    OneReadBefore(unread, n, k, From(r.data, r.from, first + k), r.rest);
  }

  lemma {:induction false} WholeRead(unread: seq<seq<byte>>, sizes: seq<nat>, first: nat, k: nat)
    requires sizes != [] && k < |unread| && sizes[0] >= |unread[0]|
    requires k > 0 ==>
      var r := ReadAll(unread[1..], sizes[1..], first + 1);
      Rebuilt(unread[1..], k - 1, From(r.data, r.from, first + k), r.rest)
    ensures var r := ReadAll(unread, sizes, first); Rebuilt(unread, k, From(r.data, r.from, first + k), r.rest)
  {
    var r := ReadAll(unread[1..], sizes[1..], first + 1);
    assert unread[0][..|unread[0]|] == unread[0];
    FromTail(unread[0], first, r.data, r.from, first + k);
    if k == 0 {
      NothingEarlier(unread[1..], sizes[1..], first + 1, first);
      RestShrinks(unread[1..], sizes[1..], first + 1);
      assert unread[0] + [] == unread[0];
    } else {
      OneMessageBefore(unread, k, From(r.data, r.from, first + k), r.rest);
    }
  }

  lemma {:induction false} OneMessageBefore(unread: seq<seq<byte>>, k: nat, got: seq<byte>, rest: seq<seq<byte>>)
    requires 0 < k < |unread| && Rebuilt(unread[1..], k - 1, got, rest)
    ensures Rebuilt(unread, k, [] + got, rest)
  {
    assert unread[1..][k - 1] == unread[k] && [] + got == got;
  }

  /** Successive reads of any sizes give back the messages in order: what came from a message
      is that message, or its beginning while the rest of it is still unread. So no read
      spans two messages and no byte is lost, repeated or reordered. */
  lemma {:induction false} ReadsRebuildMessages(unread: seq<seq<byte>>, sizes: seq<nat>, first: nat, k: nat)
    requires k < |unread|
    ensures var r := ReadAll(unread, sizes, first); Rebuilt(unread, k, From(r.data, r.from, first + k), r.rest)
    decreases |sizes|
  {
    if sizes != [] {
      if sizes[0] < |unread[0]| {
        ReadsRebuildMessages([unread[0][sizes[0]..]] + unread[1..], sizes[1..], first, k);
        PartRead(unread, sizes, first, k);
      } else {
        if k > 0 {
          ReadsRebuildMessages(unread[1..], sizes[1..], first + 1, k - 1);
        }
        WholeRead(unread, sizes, first, k);
      }
    }
  }

  lemma {:induction false} RestShrinks(unread: seq<seq<byte>>, sizes: seq<nat>, first: nat)
    ensures |ReadAll(unread, sizes, first).rest| <= |unread|
    decreases |sizes|
  {
    if sizes != [] && unread != [] {
      var n := Min(sizes[0], |unread[0]|);
      if n == |unread[0]| {
        RestShrinks(unread[1..], sizes[1..], first + 1);
      } else {
        RestShrinks([unread[0][n..]] + unread[1..], sizes[1..], first);
      }
    }
  }

  /** The successive reads of ReadAll are those the link serves. */
  lemma {:induction false} ReadAllServes(
    unread: seq<seq<byte>>, room: nat, sizes: seq<nat>, first: nat, data: seq<byte>, rest: seq<seq<byte>>)
    requires Served(unread, data, room, false, rest)
    ensures
      var done := |data| == |unread[0]|;
      var r := ReadAll(rest, sizes, if done then first + 1 else first);
      ReadAll(unread, [room] + sizes, first) == Reads([data] + r.data, [first] + r.from, r.rest)
  {
    assert ([room] + sizes)[1..] == sizes;
  }

  predicate Ascending(from: seq<nat>) {
    forall i, j :: 0 <= i < j < |from| ==> from[i] <= from[j]
  }

  lemma {:induction false} AscendingFrom(first: nat, from: seq<nat>)
    requires Ascending(from) && forall f :: f in from ==> first <= f
    ensures Ascending([first] + from)
  {
    var all := [first] + from;
    forall i, j | 0 <= i < j < |all| ensures all[i] <= all[j] {
      assert all[j] == from[j - 1] && from[j - 1] in from && (i > 0 ==> all[i] == from[i - 1]);
    }
  }

  /** Reads come from the messages in order. */
  lemma {:induction false} ReadsInOrder(unread: seq<seq<byte>>, sizes: seq<nat>, first: nat)
    ensures
      var from := ReadAll(unread, sizes, first).from;
      Ascending(from) && forall f :: f in from ==> first <= f < first + |unread|
    decreases |sizes|
  {
    if sizes != [] && unread != [] {
      var n := Min(sizes[0], |unread[0]|);
      var done := n == |unread[0]|;
      var rest := if done then unread[1..] else [unread[0][n..]] + unread[1..];
      ReadsInOrder(rest, sizes[1..], if done then first + 1 else first);
      AscendingFrom(first, ReadAll(rest, sizes[1..], if done then first + 1 else first).from);
    }
  }

  /** data is read from the messages all, in order and from no others, and rest is what is left of them. */
  ghost predicate Intact(all: seq<seq<byte>>, data: seq<seq<byte>>, from: seq<nat>, rest: seq<seq<byte>>) {
    |data| == |from| && Ascending(from) && (forall f :: f in from ==> f < |all|) &&
    forall k: nat :: k < |all| ==> Rebuilt(all, k, From(data, from, k), rest)
  }

  /** A run of reads and arrivals is one of ReadAll over all messages. */
  lemma {:induction false} RunIsReadAll(before: Look, events: seq<Event>, bufferSize: nat, after: Look, first: nat)
    requires IsRun(before, events, bufferSize, after)
    ensures
      var r := ReadAll(before.unread + Arrived(events, bufferSize), Rooms(events), first);
      r.data == DataRead(events) && r.rest == after.unread
    decreases |events|
  {
    if events == [] {
      assert before.unread + [] == before.unread;
    } else {
      var e, more := events[0], events[1..];
      var mid :| Happens(before, e, bufferSize, mid) && IsRun(mid, more, bufferSize, after);
      var arrived := Arrived(more, bufferSize);
      if GotData(e) {
        var next := if |e.data| == |before.unread[0]| then first + 1 else first;
        RunIsReadAll(mid, more, bufferSize, after, next);
        ReadBefore(before.unread, e, mid.unread, arrived, more, first);
        assert [] + arrived == arrived;
      } else {
        RunIsReadAll(mid, more, bufferSize, after, first);
        NoReadBefore(before, events, bufferSize, mid);
      }
    }
  }

  lemma {:induction false} NoReadBefore(before: Look, events: seq<Event>, bufferSize: nat, mid: Look)
    requires events != [] && !GotData(events[0]) && Happens(before, events[0], bufferSize, mid)
    ensures before.unread + Arrived(events, bufferSize) == mid.unread + Arrived(events[1..], bufferSize)
    ensures Rooms(events) == Rooms(events[1..]) && DataRead(events) == DataRead(events[1..])
  {
    assert [] + Rooms(events[1..]) == Rooms(events[1..]) && [] + DataRead(events[1..]) == DataRead(events[1..]);
    assert [] + Arrived(events[1..], bufferSize) == Arrived(events[1..], bufferSize);
  }

  lemma {:induction false} ReadBefore(
    before: seq<seq<byte>>, e: Event, mid: seq<seq<byte>>, arrived: seq<seq<byte>>, more: seq<Event>, first: nat)
    requires GotData(e) && Served(before, e.data, e.room, false, mid)
    ensures
      var r := ReadAll(mid + arrived, Rooms(more), if |e.data| == |before[0]| then first + 1 else first);
      ReadAll(before + arrived, [e.room] + Rooms(more), first) == Reads([e.data] + r.data, [first] + r.from, r.rest)
  {
    ServedInFront(before, e.data, e.room, false, mid, arrived);
    ReadAllServes(before + arrived, e.room, Rooms(more), first, e.data, mid + arrived);
  }

  lemma {:induction false} ReadsAreIntact(all: seq<seq<byte>>, sizes: seq<nat>)
    ensures var r := ReadAll(all, sizes, 0); Intact(all, r.data, r.from, r.rest)
  {
    ReadsInOrder(all, sizes, 0);
    forall k: nat | k < |all|
      ensures var r := ReadAll(all, sizes, 0); Rebuilt(all, k, From(r.data, r.from, k), r.rest)
    {
      ReadsRebuildMessages(all, sizes, 0, k);
    }
  }

  /** In every run of reads and arrivals the data read is the messages, in order. */
  lemma {:induction false} RunsRebuildMessages(before: Look, events: seq<Event>, bufferSize: nat, after: Look)
    returns (from: seq<nat>)
    requires IsRun(before, events, bufferSize, after)
    ensures Intact(before.unread + Arrived(events, bufferSize), DataRead(events), from, after.unread)
  {
    var all := before.unread + Arrived(events, bufferSize);
    from := ReadAll(all, Rooms(events), 0).from;
    RunIsReadAll(before, events, bufferSize, after, 0);
    ReadsAreIntact(all, Rooms(events));
  }
}
