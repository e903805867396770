/** Chunking and well-formed traffic: the frames sendAdvancedPayload publishes, every
    interleaving of the frames of many messages, and what the receiver makes of it. */
module Delivery {
  import opened Wire
  import opened Metadata
  import opened Reassembly

  // ------------------------------------------------------------------ sender

  /** One call of sendAdvancedPayload: the header words of the message, the metadata
      block (prefix) and the payload. */
  datatype Outgoing = Outgoing(
    stream: nat, message: nat, request: bool, response: bool, error: bool, meta: bool,
    aux: nat, prefix: seq<byte>, payload: seq<byte>)
  {
    function Body(): seq<byte> {
      prefix + payload
    }

    function Total(): nat {
      |prefix| + |payload|
    }

    function Flags(begin: bool, end: bool, abort: bool): Wire.Flags {
      Wire.Flags(begin, end, abort, request, response, error, meta, 0)
    }

    function MessageKey(): Key {
      Key(stream, message, request, response)
    }
  }

  /** How many bytes of a message of total bytes the first i chunks carry. */
  function Sent(total: nat, chunk: nat, i: nat): (r: nat)
    ensures r <= total
    ensures i > 0 && chunk > 0 && total > 0 ==> r > 0
  {
    if i == 0 then 0 else Min(Sent(total, chunk, i - 1) + chunk, total)
  }

  /** f is the i-th frame of m for slot buffers of chunk bytes. */
  predicate IsChunk(f: Frame, m: Outgoing, chunk: nat, i: nat) {
    var from, to := Sent(m.Total(), chunk, i), Sent(m.Total(), chunk, i + 1);
    f.stream == m.stream && f.message == m.message &&
    f.total == m.Total() && f.offset == from && from <= to && f.chunkSize == to - from &&
    f.flags == m.Flags(i == 0, to == m.Total(), false) &&
    f.aux == (if i == 0 then m.aux else 0) &&
    |f.buffer| == chunk && f.chunkSize <= chunk && f.buffer[..f.chunkSize] == m.Body()[from..to]
  }

  predicate IsAbort(f: Frame, m: Outgoing) {
    f.stream == m.stream && f.message == m.message && f.total == 0 && f.offset == 0 && f.chunkSize == 0 &&
    f.flags == m.Flags(false, false, true) && f.aux == 0
  }

  /** The last chunk of m has been sent. */
  predicate AllSent(m: Outgoing, chunk: nat, i: nat) {
    i > 0 && Sent(m.Total(), chunk, i) == m.Total()
  }

  /** fs are the first frames of m, in order. */
  predicate InProgress(fs: seq<Frame>, m: Outgoing, chunk: nat) {
    (forall i :: 0 <= i < |fs| ==> IsChunk(fs[i], m, chunk, i)) &&
    (|fs| > 0 ==> !AllSent(m, chunk, |fs| - 1))
  }

  /** Everything a send may leave on the ring: the first frames, all frames, or some
      frames (at least one) and an abort. */
  predicate Emission(fs: seq<Frame>, m: Outgoing, chunk: nat) {
    InProgress(fs, m, chunk) || IsAborted(fs, m, chunk)
  }

  predicate IsAborted(fs: seq<Frame>, m: Outgoing, chunk: nat) {
    |fs| > 1 && InProgress(fs[..|fs| - 1], m, chunk) && !AllSent(m, chunk, |fs| - 1) &&
    IsAbort(fs[|fs| - 1], m)
  }

  /** What a send leaves behind that could not publish more than room frames: these, and
      an abort if there was something to abort and it found room. */
  predicate CutOff(fs: seq<Frame>, m: Outgoing, chunk: nat, room: nat, abortRoom: bool) {
    !AllSent(m, chunk, room) && |fs| == room + if room > 0 && abortRoom then 1 else 0
  }

  /** One chunk of the body in two pieces: what lies in prefix, then what lies in payload. */
  method CutChunk(prefix: seq<byte>, payload: seq<byte>, offset: nat, end: nat)
    returns (head: seq<byte>, tail: seq<byte>)
    requires offset <= end <= |prefix| + |payload|
    ensures |head| + |tail| == end - offset
    ensures head + tail == (prefix + payload)[offset..end]
  {
    head, tail := [], [];
    if offset < |prefix| {
      head := prefix[offset..Min(end, |prefix|)];
    }
    if end > |prefix| {
      tail := payload[(if offset > |prefix| then offset else |prefix|) - |prefix|..end - |prefix|];
    }
    JoinedSlice(prefix, payload, offset, end);
  }

  lemma {:induction false} JoinedSlice(a: seq<byte>, b: seq<byte>, i: nat, j: nat)
    requires i <= j <= |a| + |b|
    ensures (a + b)[i..j] ==
      if j <= |a| then a[i..j] else if i >= |a| then b[i - |a|..j - |a|] else a[i..] + b[..j - |a|]
  {
  }

  lemma {:induction false} ExtendProgress(fs: seq<Frame>, f: Frame, m: Outgoing, chunk: nat)
    requires InProgress(fs, m, chunk) && !AllSent(m, chunk, |fs|) && IsChunk(f, m, chunk, |fs|)
    ensures InProgress(fs + [f], m, chunk)
  {
  }

  /** A frame built from the words and bytes of one round of the send loop is the
      next chunk. */
  lemma {:induction false} RoundSendsChunk(f: Frame, m: Outgoing, chunk: nat, i: nat, offset: nat, end: nat)
    requires chunk > 0 && offset == Sent(m.Total(), chunk, i) && offset < m.Total() && end == Min(offset + chunk, m.Total())
    requires f == Frame(m.stream, m.message, m.Total(), offset, end - offset,
                        m.Flags(offset == 0, end == m.Total(), false), if offset == 0 then m.aux else 0, f.buffer)
    requires |f.buffer| == chunk && f.buffer[..end - offset] == m.Body()[offset..end]
    ensures IsChunk(f, m, chunk, i)
  {
  }

  lemma {:induction false} AbortProgress(fs: seq<Frame>, f: Frame, m: Outgoing, chunk: nat)
    requires |fs| > 0 && InProgress(fs, m, chunk) && !AllSent(m, chunk, |fs|) && IsAbort(f, m)
    ensures IsAborted(fs + [f], m, chunk) && !InProgress(fs + [f], m, chunk)
  {
    assert (fs + [f])[..|fs|] == fs;
    assert !IsChunk((fs + [f])[|fs|], m, chunk, |fs|);
  }

  /** The transmit side of a link: a ring whose slots own the payload buffers. */
  class Sender {
    const bufferSize: nat
    const maxMessageSize: nat
    var txBufs: seq<seq<byte>>  // one buffer per ring slot
    var position: nat           // producer cursor
    var ring: seq<Frame>        // what was published, oldest first

    predicate Valid()
      reads this
    {
      bufferSize > 0 && |txBufs| > 0 && forall i :: 0 <= i < |txBufs| ==> |txBufs[i]| == bufferSize
    }

    /** sendAdvancedChunk: fills the buffer of the next slot with head and tail and
        publishes the frame f, or publishes nothing if the ring refuses. */
    method SendChunk(m: Outgoing, total: nat, offset: nat, flags: Flags, aux: nat,
                     head: seq<byte>, tail: seq<byte>, accept: bool) returns (ok: bool, ghost f: Frame)
      requires Valid() && |head| + |tail| <= bufferSize
      modifies this
      ensures Valid() && ok == accept
      ensures ring == if ok then old(ring) + [f] else old(ring)
      ensures f == Frame(m.stream, m.message, total, offset, |head| + |tail|, flags, aux, f.buffer)
      ensures |f.buffer| == bufferSize && f.buffer[..|head| + |tail|] == head + tail
    {
      var slot := position % |txBufs|;
      var n := |head| + |tail|;
      var buffer := head + tail + txBufs[slot][n..];
      f := Frame(m.stream, m.message, total, offset, n, flags, aux, buffer);
      if !accept {
        return false, f;
      }
      txBufs := txBufs[slot := buffer];
      position := position + 1;
      ring := ring + [Frame(m.stream, m.message, total, offset, n, flags, aux, buffer)];
      return true, f;
    }

    /** Publishes the abort of a message after its frames fs. */
    method SendAbort(m: Outgoing, accept: bool, ghost fs: seq<Frame>) returns (ghost gs: seq<Frame>)
      requires Valid() && |fs| > 0 && InProgress(fs, m, bufferSize) && !AllSent(m, bufferSize, |fs|)
      modifies this
      ensures Valid() && ring == old(ring) + gs && |gs| == (if accept then 1 else 0)
      ensures Emission(fs + gs, m, bufferSize)
      ensures !(InProgress(fs + gs, m, bufferSize) && AllSent(m, bufferSize, |fs + gs|))
    {
      var ok, f := SendChunk(m, 0, 0, m.Flags(false, false, true), 0, [], [], accept);
      if ok {
        AbortProgress(fs, f, m, bufferSize);
        gs := [f];
      } else {
        gs := [];
        assert fs + gs == fs;
      }
    }

    /** One round of the send loop: publishes the chunk at offset. */
    method SendRound(m: Outgoing, i: nat, offset: nat, end: nat, accept: bool, ghost fs: seq<Frame>)
      returns (ok: bool, ghost gs: seq<Frame>)
      requires Valid() && InProgress(fs, m, bufferSize) && i == |fs|
      requires offset == Sent(m.Total(), bufferSize, i) && offset < m.Total()
      requires end == Min(offset + bufferSize, m.Total())
      modifies this
      ensures Valid() && ring == old(ring) + gs && ok == accept
      ensures |gs| == (if ok then 1 else 0) && InProgress(fs + gs, m, bufferSize)
    {
      var head, tail := CutChunk(m.prefix, m.payload, offset, end);
      var flags := m.Flags(offset == 0, end == m.Total(), false);
      var aux := if offset == 0 then m.aux else 0;
      ghost var f;
      ok, f := SendChunk(m, m.Total(), offset, flags, aux, head, tail, accept);
      if ok {
        RoundSendsChunk(f, m, bufferSize, i, offset, end);
        ExtendProgress(fs, f, m, bufferSize);
        gs := [f];
      } else {
        gs := [];
        assert fs + gs == fs;
      }
    }

    /** sendAdvancedPayload publishes the frames fs. The ring accepts the first `room`
        frames and then fails; abortRoom tells whether it still takes the abort. */
    method SendPayload(m: Outgoing, room: nat, abortRoom: bool) returns (r: Result<()>, ghost fs: seq<Frame>)
      requires Valid()
      modifies this
      ensures Valid() && ring == old(ring) + fs
      ensures Emission(fs, m, bufferSize)
      ensures r.Ok? <==> InProgress(fs, m, bufferSize) && AllSent(m, bufferSize, |fs|)
      ensures r.Ok? ==> AllSent(m, bufferSize, room)
      ensures r == Err(ErrSend) ==> CutOff(fs, m, bufferSize, room, abortRoom)
      ensures r.Ok? || r == Err(ErrSend) || r == Err(ErrBufferOverflow)
      ensures r == Err(ErrBufferOverflow) <==> maxMessageSize > 0 && m.Total() > maxMessageSize
      ensures r == Err(ErrBufferOverflow) ==> fs == []
    {
      var totalSize := |m.prefix| + |m.payload|;
      fs := [];
      if maxMessageSize > 0 && totalSize > maxMessageSize {
        return Err(ErrBufferOverflow), fs;
      }
      if totalSize == 0 {
        var ok, f := SendChunk(m, 0, 0, m.Flags(true, true, false), m.aux, [], [], room > 0);
        if !ok {
          return Err(ErrSend), fs;
        }
        ExtendProgress([], f, m, bufferSize);
        return Ok(()), [] + [f];
      }
      var ok;
      ok, fs := SendChunks(m, room, abortRoom);
      r := if ok then Ok(()) else Err(ErrSend);
    }

    /** The send loop. */
    method SendChunks(m: Outgoing, room: nat, abortRoom: bool) returns (ok: bool, ghost fs: seq<Frame>)
      requires Valid() && m.Total() > 0
      modifies this
      ensures Valid() && ring == old(ring) + fs && Emission(fs, m, bufferSize)
      ensures ok <==> InProgress(fs, m, bufferSize) && AllSent(m, bufferSize, |fs|)
      ensures ok ==> AllSent(m, bufferSize, room)
      ensures !ok ==> CutOff(fs, m, bufferSize, room, abortRoom)
    {
      var totalSize := m.Total();
      var offset, i := 0, 0;
      fs := [];
      while offset < totalSize
        invariant Valid() && ring == old(ring) + fs
        invariant |fs| == i <= room && offset == Sent(totalSize, bufferSize, i)
        invariant InProgress(fs, m, bufferSize)
        decreases totalSize - offset
      {
        var end := Min(offset + bufferSize, totalSize);
        ghost var gs;
        ok, gs := SendRound(m, i, offset, end, i < room, fs);
        if !ok {
          if offset > 0 {
            gs := SendAbort(m, abortRoom, fs);
            fs := fs + gs;
          }
          return false, fs;
        }
        fs := fs + gs;
        offset := end;
        i := i + 1;
      }
      AllSentForever(m, bufferSize, i, room);
      return true, fs;
    }
  }

  // ----------------------------------------------------------------- traffic

  /** A message the protocol allows, within the receiver's limit. Only a request may
      carry a metadata block, and then its body starts with one. */
  predicate WellFormedMessage(c: Config, m: Outgoing) {
    !(m.request && m.response) && (m.error ==> m.response) && (m.meta ==> m.request && c.metadata) &&
    m.Total() <= c.maxMessageSize && m.Total() <= MAX_INT &&
    if m.meta then ParseMeta(m.Body()).Ok? && ParseMeta(m.Body()).value.1 == |m.prefix| else m.prefix == []
  }

  /** Every request a call makes is well-formed, whether or not it has metadata and whether or
      not the link supports it. */
  lemma {:induction false} CallsAreWellFormed(c: Config, m: Outgoing, budget: int, opts: CallOptions)
    requires m.request && !m.response && !m.error
    requires budget < TWO_63 && opts.Valid()
    requires m.prefix == (if c.metadata then CallBlock(budget, opts) else []) && (m.meta <==> m.prefix != [])
    requires m.Total() <= c.maxMessageSize && m.Total() <= MAX_INT
    ensures WellFormedMessage(c, m)
    ensures m.meta ==>
      ParseMeta(m.Body()).value.0 == Meta(budget > 0, if budget > 0 then budget else 0, opts.caller, opts.trace)
  {
    if m.meta {
      MetaRoundTrip(budget, opts, m.payload);
    }
  }

  /** The frames of message k in h. */
  function Proj(h: seq<Frame>, k: Key): seq<Frame> {
    if h == [] then
      []
    else
      var n := |h| - 1;
      Proj(h[..n], k) + (if h[n].MessageKey() == k then [h[n]] else [])
  }

  /** h is an interleaving of what the senders of msgs published so far. */
  ghost predicate Traffic(c: Config, h: seq<Frame>, msgs: map<Key, Outgoing>, chunk: nat) {
    chunk > 0 &&
    (forall k :: k in msgs ==> msgs[k].MessageKey() == k && WellFormedMessage(c, msgs[k])) &&
    (forall k {:trigger Proj(h, k)} :: k in msgs ==> Emission(Proj(h, k), msgs[k], chunk)) &&
    (forall i {:trigger h[i].MessageKey()} :: 0 <= i < |h| ==> h[i].MessageKey() in msgs)
  }

  lemma {:induction false} EmissionPrefix(fs: seq<Frame>, m: Outgoing, chunk: nat)
    requires Emission(fs, m, chunk) && |fs| > 0
    ensures InProgress(fs[..|fs| - 1], m, chunk) && !AllSent(m, chunk, |fs| - 1)
  {
    if InProgress(fs, m, chunk) && |fs| > 1 {
      AllSentStays(m, chunk, |fs| - 2);
    }
  }

  lemma {:induction false} AllSentStays(m: Outgoing, chunk: nat, i: nat)
    ensures AllSent(m, chunk, i) ==> AllSent(m, chunk, i + 1)
  {
  }

  lemma {:induction false} TrafficPrefix(c: Config, h: seq<Frame>, msgs: map<Key, Outgoing>, chunk: nat)
    requires Traffic(c, h, msgs, chunk) && |h| > 0
    ensures Traffic(c, h[..|h| - 1], msgs, chunk)
  {
    var n := |h| - 1;
    forall k | k in msgs ensures Emission(Proj(h[..n], k), msgs[k], chunk) {
      ProjLast(h, k);
      if h[n].MessageKey() == k {
        EmissionPrefix(Proj(h, k), msgs[k], chunk);
      }
    }
  }

  lemma {:induction false} ProjLast(h: seq<Frame>, k: Key)
    requires |h| > 0
    ensures
      var n := |h| - 1;
      if h[n].MessageKey() == k then
        |Proj(h, k)| > 0 && Proj(h, k)[..|Proj(h, k)| - 1] == Proj(h[..n], k) &&
        Proj(h, k)[|Proj(h, k)| - 1] == h[n] && Proj(h, k) == Proj(h[..n], k) + [h[n]]
      else
        Proj(h, k) == Proj(h[..n], k)
  {
  }

  // ------------------------------------------------------- the receiver's view

  /** The message has been opened and neither finished nor aborted. */
  predicate IsOpen(p: seq<Frame>, m: Outgoing, chunk: nat) {
    |p| > 0 && InProgress(p, m, chunk) && !AllSent(m, chunk, |p|)
  }

  /** The last frame of h cost the receiver message k: it refused k's first frame, or
      it gave up k's assembly while handling another message. */
  predicate LosesLast(c: Config, h: seq<Frame>, env: seq<Env>, k: Key)
    requires c.Valid() && |env| == |h| && |h| > 0
  {
    var n := |h| - 1;
    var s, t := After(c, h[..n], env[..n]), After(c, h, env);
    if h[n].MessageKey() == k then OutcomeAt(c, h, env, n).Refused?
    else k in s.assemblies && k !in t.assemblies
  }

  /** Message k was refused or reclaimed somewhere in h. */
  predicate Lost(c: Config, h: seq<Frame>, env: seq<Env>, k: Key)
    requires c.Valid() && |env| == |h|
  {
    |h| > 0 && (Lost(c, h[..|h| - 1], env[..|h| - 1], k) || LosesLast(c, h, env, k))
  }

  /** The assembly a holds the first n bytes of m. */
  predicate Holds(a: Assembly, m: Outgoing, n: nat) {
    a.hdr == Header(m.stream, m.message, m.Flags(false, false, false), m.aux) &&
    a.size == m.Total() && a.next == n <= m.Total() && a.data[..n] == m.Body()[..n]
  }

  /** The receiver's state of message k, given the frames p of it that arrived. */
  ghost predicate KeyState(s: Rx, p: seq<Frame>, m: Outgoing, chunk: nat, lost: bool) {
    var k := m.MessageKey();
    if IsOpen(p, m, chunk) then
      (k in s.assemblies <==> !lost) &&
      (lost ==> k in s.rejected || s.rejectedEvicted) &&
      (k in s.assemblies ==> Holds(s.assemblies[k], m, Sent(m.Total(), chunk, |p|)))
    else
      k !in s.assemblies && k !in s.rejected && (p == [] ==> !lost)
  }

  ghost predicate Agrees(c: Config, h: seq<Frame>, env: seq<Env>, msgs: map<Key, Outgoing>, chunk: nat)
    requires c.Valid() && |env| == |h|
  {
    forall k :: k in msgs ==> KeyState(After(c, h, env), Proj(h, k), msgs[k], chunk, Lost(c, h, env, k))
  }

  /** What a frame of another message does to message x. */
  lemma {:induction false} ConsumeFate(c: Config, s0: Rx, f: Frame, env: Env, x: Key)
    requires c.Valid() && Invariant(c, s0) && x != f.MessageKey()
    ensures Fate(s0.(chunks := Add64(s0.chunks, 1)), Consume(c, s0, f, env).0, x)
  {
    var s := s0.(chunks := Add64(s0.chunks, 1));
    var k := f.MessageKey();
    assert Invariant(c, s);
    DropKeeps(c, s, k);
    ForgetFate(c, s, k, x);
    ForgetFate(c, DropAssembly(s, k), k, x);
    if FlagsKnown(c, f.flags) && !f.flags.abort && SizeError(c, f) == None {
      if f.flags.begin && f.offset == 0 && k !in s.assemblies && k !in s.rejected && !f.flags.end {
        OpenFate(c, s, f, env, x);
      } else if !f.flags.begin && k in s.assemblies {
        AppendFate(c, s, f, x);
      }
    }
  }

  lemma {:induction false} ForgetFate(c: Config, s: Rx, k: Key, x: Key)
    requires x != k
    ensures Fate(s, ForgetRejected(s, k), x)
  {
  }

  lemma {:induction false} AppendFate(c: Config, s: Rx, f: Frame, x: Key)
    requires c.Valid() && SizeError(c, f) == None && f.MessageKey() in s.assemblies && x != f.MessageKey()
    ensures Fate(s, Append(c, s, f).0, x)
  {
  }

  lemma {:induction false} OpenFate(c: Config, s: Rx, f: Frame, env: Env, x: Key)
    requires c.Valid() && SizeError(c, f) == None && Invariant(c, s) && x != f.MessageKey()
    ensures Fate(s, Open(c, s, f, env).0, x)
  {
    OpensFrom(c, s, f, env);
    ReclaimIdleKeeps(c, s, f.total + OVERHEAD, env.order, x);
    SweptThenOpenFate(c, s, ReclaimIdle(c, s, f.total + OVERHEAD, env.order), f, env, x);
  }

  lemma {:induction false} SweptThenOpenFate(c: Config, s: Rx, swept: Rx, f: Frame, env: Env, x: Key)
    requires c.Valid() && SizeError(c, f) == None && x != f.MessageKey() && Fate(s, swept, x)
    ensures Fate(s, OpenIfFits(c, swept, f, env).0, x)
  {
    OpenIfFitsFate(c, swept, f, env, x);
    FateTransitive(s, swept, OpenIfFits(c, swept, f, env).0, x);
  }

  lemma {:induction false} OpenIfFitsFate(c: Config, s: Rx, f: Frame, env: Env, x: Key)
    requires c.Valid() && SizeError(c, f) == None && x != f.MessageKey()
    ensures Fate(s, OpenIfFits(c, s, f, env).0, x)
  {
    if Fits(c, s, f.total + OVERHEAD) {
      var t := Admit(c, s, f, env);
      assert Fate(s, t, x);
      AppendFate(c, t, f, x);
      FateTransitive(s, t, Append(c, t, f).0, x);
    } else {
      assert Fate(s, RejectMessage(s, f.MessageKey()), x);
    }
  }

  // --------------------------------------------------- one frame of its own

  /** o delivers m: its header, its payload without the metadata block, and the
      values of that block. */
  predicate Delivers(o: Outcome, m: Outgoing) {
    o.Complete? && o.msg.Valid() &&
    o.msg.hdr == Header(m.stream, m.message, m.Flags(true, true, false), m.aux) &&
    o.msg.Bytes() == m.payload &&
    (m.meta ==> ParseMeta(m.Body()).Ok? && o.msg.meta.Some? && o.msg.meta.value.0 == ParseMeta(m.Body()).value.0)
  }

  /** What the receiver makes of frame f of m in state s. lost tells whether m was
      refused or reclaimed before. */
  predicate Verdict(s: Rx, f: Frame, o: Outcome, m: Outgoing, lost: bool) {
    if f.flags.abort then
      o == if m.MessageKey() in s.rejected then Partial else Aborted(f.FrameHeader())
    else if f.flags.end then
      if lost then o == Partial else Delivers(o, m)
    else if f.flags.begin then
      o == Partial || o == Refused(Header(m.stream, m.message, m.Flags(false, false, true), m.aux))
    else
      o == Partial
  }

  lemma {:induction false} ChunkPassesChecks(c: Config, f: Frame, m: Outgoing, chunk: nat, i: nat)
    requires c.Valid() && chunk > 0 && WellFormedMessage(c, m) && IsChunk(f, m, chunk, i) && !AllSent(m, chunk, i)
    ensures FlagsKnown(c, f.flags) && SizeError(c, f) == None
    ensures f.MessageKey() == m.MessageKey() && f.Chunk() == m.Body()[f.offset..f.offset + f.chunkSize]
    ensures f.flags.end <==> AllSent(m, chunk, i + 1)
  {
  }

  lemma {:induction false} FinishDelivers(c: Config, m: Outgoing, data: seq<byte>, recvAt: int)
    requires WellFormedMessage(c, m) && m.Total() <= |data| && data[..m.Total()] == m.Body()
    ensures Delivers(
      Finish(Message(Header(m.stream, m.message, m.Flags(true, true, false), m.aux), data, 0, m.Total(), None), recvAt), m)
  {
    assert data[..m.Total()][|m.prefix|..] == m.payload;
    assert data[|m.prefix|..m.Total()] == m.payload;
  }

  lemma {:induction false} AppendChunk(c: Config, s: Rx, f: Frame, m: Outgoing, chunk: nat, i: nat)
    requires c.Valid() && chunk > 0 && WellFormedMessage(c, m) && IsChunk(f, m, chunk, i) && !AllSent(m, chunk, i)
    requires SizeError(c, f) == None && f.MessageKey() == m.MessageKey()
    requires f.Chunk() == m.Body()[f.offset..f.offset + f.chunkSize]
    requires m.MessageKey() in s.assemblies && Holds(s.assemblies[m.MessageKey()], m, Sent(m.Total(), chunk, i))
    requires m.MessageKey() !in s.rejected
    ensures
      var k := m.MessageKey();
      var (t, o) := Append(c, s, f);
      t.rejected == s.rejected && t.rejectedEvicted == s.rejectedEvicted &&
      if f.flags.end then Delivers(o, m) && k !in t.assemblies
      else o == Partial && k in t.assemblies && Holds(t.assemblies[k], m, Sent(m.Total(), chunk, i + 1))
  {
    var k := m.MessageKey();
    var a := s.assemblies[k];
    var to := Sent(m.Total(), chunk, i + 1);
    var data := CopyAt(a.data, f.offset, f.Chunk());
    assert data[..to] == a.data[..f.offset] + f.Chunk();
    assert m.Body()[..to] == m.Body()[..f.offset] + m.Body()[f.offset..to];
    if f.flags.end {
      assert m.Body()[..to] == m.Body();
      FinishDelivers(c, m, data, a.recvAt);
    }
  }

  lemma {:induction false} OnlyFrame(c: Config, f: Frame, env: Env, m: Outgoing, chunk: nat)
    requires c.Valid() && chunk > 0 && WellFormedMessage(c, m)
    requires IsChunk(f, m, chunk, 0) && f.flags.end
    ensures SizeError(c, f) == None && f.chunkSize == f.total && Delivers(Single(c, f, env), m)
  {
    ChunkPassesChecks(c, f, m, chunk, 0);
    var data := CopyAt(TakeBuffer(c, f.total, env.spare), 0, f.Chunk());
    assert m.Body()[0..f.total] == m.Body();
    assert data[..f.total] == m.Body();
    FinishDelivers(c, m, data, env.now);
  }

  /** The first chunk of m is held, or m is refused. */
  predicate Opened(m: Outgoing, chunk: nat, r: (Rx, Outcome)) {
    var k, t := m.MessageKey(), r.0;
    if r.1.Refused? then
      r.1 == Refused(Header(m.stream, m.message, m.Flags(false, false, true), m.aux)) &&
      k !in t.assemblies && k in t.rejected
    else
      r.1 == Partial && k in t.assemblies && Holds(t.assemblies[k], m, Sent(m.Total(), chunk, 1))
  }

  lemma {:induction false} OpeningFrame(c: Config, s: Rx, f: Frame, env: Env, m: Outgoing, chunk: nat)
    requires c.Valid() && Invariant(c, s) && chunk > 0 && WellFormedMessage(c, m)
    requires m.MessageKey() !in s.assemblies && m.MessageKey() !in s.rejected
    requires IsChunk(f, m, chunk, 0) && !f.flags.end && SizeError(c, f) == None
    ensures Opened(m, chunk, Open(c, s, f, env))
  {
    OpensFrom(c, s, f, env);
    ReclaimIdleKeeps(c, s, f.total + OVERHEAD, env.order, m.MessageKey());
    OpensOrRefuses(c, ReclaimIdle(c, s, f.total + OVERHEAD, env.order), f, env, m, chunk);
  }

  /** The same once idle assemblies were reclaimed. */
  lemma {:induction false} OpensOrRefuses(c: Config, s: Rx, f: Frame, env: Env, m: Outgoing, chunk: nat)
    requires c.Valid() && chunk > 0 && WellFormedMessage(c, m)
    requires m.MessageKey() !in s.assemblies && m.MessageKey() !in s.rejected
    requires IsChunk(f, m, chunk, 0) && !f.flags.end && SizeError(c, f) == None
    ensures Opened(m, chunk, OpenIfFits(c, s, f, env))
  {
    ChunkPassesChecks(c, f, m, chunk, 0);
    if Fits(c, s, f.total + OVERHEAD) {
      AdmitHolds(c, s, f, env, m, chunk);
      AppendChunk(c, Admit(c, s, f, env), f, m, chunk, 0);
    } else {
      assert m.MessageKey() in RejectMessage(s, f.MessageKey()).rejected;
    }
  }

  lemma {:induction false} AdmitHolds(c: Config, s: Rx, f: Frame, env: Env, m: Outgoing, chunk: nat)
    requires c.Valid() && IsChunk(f, m, chunk, 0) && !f.flags.end && SizeError(c, f) == None
    requires m.MessageKey() !in s.rejected
    ensures
      var t := Admit(c, s, f, env);
      m.MessageKey() in t.assemblies && m.MessageKey() !in t.rejected &&
      Holds(t.assemblies[m.MessageKey()], m, Sent(m.Total(), chunk, 0))
  {
    var a := Admit(c, s, f, env).assemblies[m.MessageKey()];
    assert a.data[..0] == m.Body()[..0];
  }

  lemma {:induction false} FirstFrame(c: Config, s0: Rx, f: Frame, env: Env, m: Outgoing, chunk: nat)
    requires c.Valid() && Invariant(c, s0) && chunk > 0 && WellFormedMessage(c, m)
    requires m.MessageKey() !in s0.assemblies && m.MessageKey() !in s0.rejected
    requires IsChunk(f, m, chunk, 0)
    ensures
      var (t, o) := Consume(c, s0, f, env);
      Verdict(s0, f, o, m, false) && KeyState(t, [f], m, chunk, o.Refused?)
  {
    ChunkPassesChecks(c, f, m, chunk, 0);
    var s := s0.(chunks := Add64(s0.chunks, 1));
    ExtendProgress([], f, m, chunk);
    assert [] + [f] == [f];
    if f.flags.end {
      OnlyFrame(c, f, env, m, chunk);
    } else {
      assert Invariant(c, s);
      OpeningFrame(c, s, f, env, m, chunk);
    }
  }

  lemma {:induction false} NextFrame(c: Config, s0: Rx, f: Frame, env: Env, p: seq<Frame>, m: Outgoing, chunk: nat, lost: bool)
    requires c.Valid() && Invariant(c, s0) && chunk > 0 && WellFormedMessage(c, m)
    requires IsOpen(p, m, chunk) && KeyState(s0, p, m, chunk, lost)
    requires IsChunk(f, m, chunk, |p|)
    ensures
      var (t, o) := Consume(c, s0, f, env);
      Verdict(s0, f, o, m, lost) && KeyState(t, p + [f], m, chunk, lost)
  {
    ChunkPassesChecks(c, f, m, chunk, |p|);
    ExtendProgress(p, f, m, chunk);
    var s := s0.(chunks := Add64(s0.chunks, 1));
    if lost {
      assert Invariant(c, s);
      ForgetKeeps(c, s, m.MessageKey());
    } else {
      AppendChunk(c, s, f, m, chunk, |p|);
    }
  }

  lemma {:induction false} AbortFrame(c: Config, s0: Rx, f: Frame, env: Env, p: seq<Frame>, m: Outgoing, chunk: nat, lost: bool)
    requires c.Valid() && Invariant(c, s0) && chunk > 0 && WellFormedMessage(c, m)
    requires IsOpen(p, m, chunk) && KeyState(s0, p, m, chunk, lost)
    requires IsAbort(f, m)
    ensures
      var (t, o) := Consume(c, s0, f, env);
      Verdict(s0, f, o, m, lost) && KeyState(t, p + [f], m, chunk, lost)
  {
    var s := s0.(chunks := Add64(s0.chunks, 1));
    assert Invariant(c, s);
    DropKeeps(c, s, m.MessageKey());
    ForgetKeeps(c, DropAssembly(s, m.MessageKey()), m.MessageKey());
    AbortProgress(p, f, m, chunk);
  }

  /** Any frame the sender of m may publish next. */
  lemma {:induction false} OwnFrame(c: Config, s0: Rx, f: Frame, env: Env, p: seq<Frame>, m: Outgoing, chunk: nat, lost: bool)
    requires c.Valid() && Invariant(c, s0) && chunk > 0 && WellFormedMessage(c, m)
    requires KeyState(s0, p, m, chunk, lost) && Emission(p + [f], m, chunk)
    ensures
      var (t, o) := Consume(c, s0, f, env);
      Verdict(s0, f, o, m, lost) && KeyState(t, p + [f], m, chunk, lost || o.Refused?)
  {
    EmissionNext(p, f, m, chunk);
    if !IsChunk(f, m, chunk, |p|) {
      AbortFrame(c, s0, f, env, p, m, chunk, lost);
    } else if p == [] {
      assert p + [f] == [f];
      FirstFrame(c, s0, f, env, m, chunk);
    } else {
      NextFrame(c, s0, f, env, p, m, chunk, lost);
    }
  }

  /** After the frames p of m the sender publishes the next chunk or an abort. */
  lemma {:induction false} EmissionNext(p: seq<Frame>, f: Frame, m: Outgoing, chunk: nat)
    requires Emission(p + [f], m, chunk)
    ensures InProgress(p, m, chunk) && !AllSent(m, chunk, |p|)
    ensures IsChunk(f, m, chunk, |p|) || (p != [] && IsAbort(f, m))
  {
    var q := p + [f];
    assert q[..|p|] == p && q[|p|] == f;
    EmissionPrefix(q, m, chunk);
  }

  // ---------------------------------------------------------- the main results

  /** What the last frame of h means for message k. */
  lemma {:induction false} KeyStep(c: Config, h: seq<Frame>, env: seq<Env>, msgs: map<Key, Outgoing>, chunk: nat, k: Key)
    requires c.Valid() && |env| == |h| && |h| > 0 && Traffic(c, h, msgs, chunk) && k in msgs
    requires
      var n := |h| - 1;
      var s := After(c, h[..n], env[..n]);
      Invariant(c, s) && KeyState(s, Proj(h[..n], k), msgs[k], chunk, Lost(c, h[..n], env[..n], k))
    ensures KeyState(After(c, h, env), Proj(h, k), msgs[k], chunk, Lost(c, h, env, k))
    ensures
      var n := |h| - 1;
      h[n].MessageKey() == k ==>
        Verdict(After(c, h[..n], env[..n]), h[n], OutcomeAt(c, h, env, n), msgs[k], Lost(c, h[..n], env[..n], k))
  {
    var n := |h| - 1;
    var s, lost := After(c, h[..n], env[..n]), Lost(c, h[..n], env[..n], k);
    ProjLast(h, k);
    if k == h[n].MessageKey() {
      OwnFrame(c, s, h[n], env[n], Proj(h[..n], k), msgs[k], chunk, lost);
    } else {
      ConsumeFate(c, s, h[n], env[n], k);
      OtherFrame(s, Consume(c, s, h[n], env[n]).0, Proj(h, k), msgs[k], chunk, lost);
    }
  }

  /** A frame of another message: m goes on as before, unless its assembly is reclaimed. */
  lemma {:induction false} OtherFrame(s: Rx, t: Rx, p: seq<Frame>, m: Outgoing, chunk: nat, lost: bool)
    requires Fate(s.(chunks := Add64(s.chunks, 1)), t, m.MessageKey()) && KeyState(s, p, m, chunk, lost)
    ensures KeyState(t, p, m, chunk, lost || (m.MessageKey() in s.assemblies && m.MessageKey() !in t.assemblies))
  {
  }

  lemma {:induction false} RunAgrees(c: Config, h: seq<Frame>, env: seq<Env>, msgs: map<Key, Outgoing>, chunk: nat)
    requires c.Valid() && |env| == |h| && Traffic(c, h, msgs, chunk)
    ensures Agrees(c, h, env, msgs, chunk)
    ensures |h| > 0 ==>
      var n := |h| - 1;
      var k := h[n].MessageKey();
      Verdict(After(c, h[..n], env[..n]), h[n], OutcomeAt(c, h, env, n), msgs[k], Lost(c, h[..n], env[..n], k))
  {
    if h != [] {
      var n := |h| - 1;
      TrafficPrefix(c, h, msgs, chunk);
      RunAgrees(c, h[..n], env[..n], msgs, chunk);
      AnyTrafficKeepsInvariant(c, h[..n], env[..n]);
      forall k | k in msgs ensures KeyState(After(c, h, env), Proj(h, k), msgs[k], chunk, Lost(c, h, env, k)) {
        KeyStep(c, h, env, msgs, chunk, k);
      }
      KeyStep(c, h, env, msgs, chunk, h[n].MessageKey());
    }
  }

  lemma {:induction false} TrafficTake(c: Config, h: seq<Frame>, msgs: map<Key, Outgoing>, chunk: nat, n: nat)
    requires Traffic(c, h, msgs, chunk) && n <= |h|
    ensures Traffic(c, h[..n], msgs, chunk)
    decreases |h|
  {
    if n == |h| {
      assert h[..n] == h;
    } else {
      TrafficPrefix(c, h, msgs, chunk);
      TrafficTake(c, h[..|h| - 1], msgs, chunk, n);
      assert h[..|h| - 1][..n] == h[..n];
    }
  }

  /** The verdict on every frame of well-formed traffic, whatever the interleaving, the
      budget, the sweeps and the evictions: no frame is an error; a message that was
      neither refused nor reclaimed is delivered, intact, when its End frame arrives;
      the chunks of one that was are drained. */
  lemma {:induction false} EveryFrameGetsItsVerdict(
    c: Config, h: seq<Frame>, env: seq<Env>, msgs: map<Key, Outgoing>, chunk: nat, j: nat)
    requires c.Valid() && |env| == |h| && Traffic(c, h, msgs, chunk) && j < |h|
    ensures h[j].MessageKey() in msgs
    ensures
      var k := h[j].MessageKey();
      Verdict(After(c, h[..j], env[..j]), h[j], OutcomeAt(c, h, env, j), msgs[k], Lost(c, h[..j], env[..j], k))
    ensures !OutcomeAt(c, h, env, j).Failed?
  {
    TrafficTake(c, h, msgs, chunk, j + 1);
    assert h[..j + 1][..j] == h[..j] && env[..j + 1][..j] == env[..j];
    RunAgrees(c, h[..j + 1], env[..j + 1], msgs, chunk);
  }

  /** The last frame of k in h ended or aborted it. */
  predicate IsDone(p: seq<Frame>, m: Outgoing, chunk: nat) {
    Emission(p, m, chunk) && p != [] && !IsOpen(p, m, chunk)
  }

  /** Nothing of a finished message is left behind: neither the assemblies nor the
      refused set hold its key. */
  lemma {:induction false} FinishedMessagesLeaveNoState(
    c: Config, h: seq<Frame>, env: seq<Env>, msgs: map<Key, Outgoing>, chunk: nat, k: Key)
    requires c.Valid() && |env| == |h| && Traffic(c, h, msgs, chunk)
    requires k in msgs && IsDone(Proj(h, k), msgs[k], chunk)
    ensures k !in After(c, h, env).assemblies && k !in After(c, h, env).rejected
  {
    RunAgrees(c, h, env, msgs, chunk);
    assert KeyState(After(c, h, env), Proj(h, k), msgs[k], chunk, Lost(c, h, env, k));
  }

  lemma {:induction false} ProjTake(h: seq<Frame>, k: Key, n: nat)
    requires n <= |h|
    ensures |Proj(h[..n], k)| <= |Proj(h, k)|
    ensures Proj(h, k)[..|Proj(h[..n], k)|] == Proj(h[..n], k)
    decreases |h|
  {
    if n == |h| {
      assert h[..n] == h;
    } else {
      ProjTake(h[..|h| - 1], k, n);
      ProjLast(h, k);
      assert h[..|h| - 1][..n] == h[..n];
    }
  }

  lemma {:induction false} ProjAt(h: seq<Frame>, k: Key, i: nat)
    requires i < |h|
    ensures Proj(h[..i + 1], k) == Proj(h[..i], k) + if h[i].MessageKey() == k then [h[i]] else []
  {
    assert h[..i + 1][..i] == h[..i];
  }

  lemma {:induction false} ProjGrows(h: seq<Frame>, k: Key, i: nat, j: nat)
    requires i <= j <= |h|
    ensures |Proj(h[..i], k)| <= |Proj(h[..j], k)|
    ensures Proj(h[..j], k)[..|Proj(h[..i], k)|] == Proj(h[..i], k)
  {
    assert h[..j][..i] == h[..i];
    ProjTake(h[..j], k, i);
  }

  lemma {:induction false} AllSentForever(m: Outgoing, chunk: nat, i: nat, j: nat)
    requires i <= j && AllSent(m, chunk, i)
    ensures AllSent(m, chunk, j)
    decreases j
  {
    if i < j {
      AllSentForever(m, chunk, i, j - 1);
    }
  }

  /** A message that gets another frame was open all along since its first one. */
  lemma {:induction false} FrameMeansOpen(c: Config, h: seq<Frame>, msgs: map<Key, Outgoing>, chunk: nat, i: nat)
    requires Traffic(c, h, msgs, chunk) && i < |h|
    ensures
      var k := h[|h| - 1].MessageKey();
      Proj(h[..i], k) != [] ==> IsOpen(Proj(h[..i], k), msgs[k], chunk)
  {
    var n := |h| - 1;
    var k := h[n].MessageKey();
    var p, q, m := Proj(h[..i], k), Proj(h[..n], k), msgs[k];
    ProjLast(h, k);
    EmissionPrefix(Proj(h, k), m, chunk);
    ProjGrows(h, k, i, n);
    if p != [] {
      OpenPrefix(p, q, m, chunk);
    }
  }

  lemma {:induction false} FrameMeansOpenAt(
    c: Config, h: seq<Frame>, msgs: map<Key, Outgoing>, chunk: nat, i: nat, j: nat)
    requires Traffic(c, h, msgs, chunk) && i <= j < |h|
    ensures
      var k := h[j].MessageKey();
      Proj(h[..i], k) != [] ==> IsOpen(Proj(h[..i], k), msgs[k], chunk)
  {
    TrafficTake(c, h, msgs, chunk, j + 1);
    assert h[..j + 1][..i] == h[..i] && h[..j + 1][j] == h[j];
    FrameMeansOpen(c, h[..j + 1], msgs, chunk, i);
  }

  lemma {:induction false} OpenPrefix(p: seq<Frame>, q: seq<Frame>, m: Outgoing, chunk: nat)
    requires InProgress(q, m, chunk) && !AllSent(m, chunk, |q|)
    requires p != [] && |p| <= |q| && q[..|p|] == p
    ensures IsOpen(p, m, chunk)
  {
    assert forall i :: 0 <= i < |p| ==> p[i] == q[i];
    if AllSent(m, chunk, |p|) {
      AllSentForever(m, chunk, |p|, |q|);
    }
    AllSentStays(m, chunk, |p| - 1);
  }

  lemma {:induction false} StateAt(
    c: Config, h: seq<Frame>, env: seq<Env>, msgs: map<Key, Outgoing>, chunk: nat, n: nat, k: Key)
    requires c.Valid() && |env| == |h| && Traffic(c, h, msgs, chunk) && n <= |h| && k in msgs
    ensures KeyState(After(c, h[..n], env[..n]), Proj(h[..n], k), msgs[k], chunk, Lost(c, h[..n], env[..n], k))
  {
    TrafficTake(c, h, msgs, chunk, n);
    RunAgrees(c, h[..n], env[..n], msgs, chunk);
  }

  lemma {:induction false} LostForever(c: Config, h: seq<Frame>, env: seq<Env>, k: Key, n: nat)
    requires c.Valid() && |env| == |h| && n <= |h| && Lost(c, h[..n], env[..n], k)
    ensures Lost(c, h, env, k)
    decreases |h|
  {
    if n == |h| {
      assert h[..n] == h && env[..n] == env;
    } else {
      var z := |h| - 1;
      assert h[..z][..n] == h[..n] && env[..z][..n] == env[..n];
      LostForever(c, h[..z], env[..z], k, n);
      LostStays(c, h, env, k);
    }
  }

  lemma {:induction false} LostStays(c: Config, h: seq<Frame>, env: seq<Env>, k: Key)
    requires c.Valid() && |env| == |h| && |h| > 0 && Lost(c, h[..|h| - 1], env[..|h| - 1], k)
    ensures Lost(c, h, env, k)
  {
  }

  /** Every message all of whose frames arrived, and that was neither refused nor
      reclaimed, was delivered: by the frame h[j]. */
  lemma {:induction false} CompleteMessagesAreDelivered(
    c: Config, h: seq<Frame>, env: seq<Env>, msgs: map<Key, Outgoing>, chunk: nat, k: Key) returns (j: nat)
    requires c.Valid() && |env| == |h| && Traffic(c, h, msgs, chunk) && k in msgs
    requires InProgress(Proj(h, k), msgs[k], chunk) && AllSent(msgs[k], chunk, |Proj(h, k)|)
    requires !Lost(c, h, env, k)
    ensures j < |h| && h[j].MessageKey() == k && Delivers(OutcomeAt(c, h, env, j), msgs[k])
    decreases |h|
  {
    var n := |h| - 1;
    ProjLast(h, k);
    if h[n].MessageKey() == k {
      LastChunkDelivers(c, h, env, msgs, chunk);
      j := n;
    } else {
      TrafficPrefix(c, h, msgs, chunk);
      if Lost(c, h[..n], env[..n], k) {
        LostStays(c, h, env, k);
      }
      j := CompleteMessagesAreDelivered(c, h[..n], env[..n], msgs, chunk, k);
      OutcomePrefix(c, h, env, n, j);
    }
  }

  lemma {:induction false} LastChunkDelivers(
    c: Config, h: seq<Frame>, env: seq<Env>, msgs: map<Key, Outgoing>, chunk: nat)
    requires c.Valid() && |env| == |h| > 0 && Traffic(c, h, msgs, chunk)
    requires
      var k := h[|h| - 1].MessageKey();
      k in msgs && InProgress(Proj(h, k), msgs[k], chunk) && AllSent(msgs[k], chunk, |Proj(h, k)|) && !Lost(c, h, env, k)
    ensures Delivers(OutcomeAt(c, h, env, |h| - 1), msgs[h[|h| - 1].MessageKey()])
  {
    var n := |h| - 1;
    var k := h[n].MessageKey();
    ProjLast(h, k);
    assert IsChunk(Proj(h, k)[|Proj(h, k)| - 1], msgs[k], chunk, |Proj(h, k)| - 1);
    if Lost(c, h[..n], env[..n], k) {
      LostStays(c, h, env, k);
    }
    EveryFrameGetsItsVerdict(c, h, env, msgs, chunk, n);
  }

  lemma {:induction false} OutcomePrefix(c: Config, h: seq<Frame>, env: seq<Env>, n: nat, j: nat)
    requires c.Valid() && |env| == |h| && j < n <= |h|
    ensures OutcomeAt(c, h[..n], env[..n], j) == OutcomeAt(c, h, env, j)
  {
    assert h[..n][..j] == h[..j] && env[..n][..j] == env[..j];
  }

  /** The j-th frame tells the application something final about message k: it is
      delivered, aborted, refused, or reclaimed for the sake of another message. */
  predicate Notice(c: Config, h: seq<Frame>, env: seq<Env>, j: nat, k: Key)
    requires c.Valid() && |env| == |h| && j < |h|
  {
    if h[j].MessageKey() == k then
      var o := OutcomeAt(c, h, env, j);
      o.Complete? || o.Aborted? || o.Refused?
    else
      k in After(c, h[..j], env[..j]).assemblies && k !in After(c, h[..j + 1], env[..j + 1]).assemblies
  }

  /** A message gets a second notice in one case only: it was refused or reclaimed, its
      key was then evicted from the full refused set, and its sender aborted it. In
      particular no message is delivered twice, or delivered and aborted. */
  lemma {:induction false} SecondNoticeNeedsEviction(
    c: Config, h: seq<Frame>, env: seq<Env>, msgs: map<Key, Outgoing>, chunk: nat, i: nat, j: nat, k: Key)
    requires c.Valid() && |env| == |h| && Traffic(c, h, msgs, chunk) && i < j < |h| && k in msgs
    requires Notice(c, h, env, i, k) && Notice(c, h, env, j, k)
    ensures h[j].MessageKey() == k && OutcomeAt(c, h, env, j).Aborted?
    ensures Lost(c, h[..i + 1], env[..i + 1], k)
    ensures k !in After(c, h[..j], env[..j]).rejected && After(c, h[..j], env[..j]).rejectedEvicted
  {
    FirstNotice(c, h, env, msgs, chunk, i, k);
    StateAt(c, h, env, msgs, chunk, i + 1, k);
    StateAt(c, h, env, msgs, chunk, j, k);
    OpenAt(c, h, env, msgs, chunk, i + 1, j, k);
    assert h[..j][..i + 1] == h[..i + 1] && env[..j][..i + 1] == env[..i + 1];
    LostForever(c, h[..j], env[..j], k, i + 1);
    if h[j].MessageKey() == k {
      EveryFrameGetsItsVerdict(c, h, env, msgs, chunk, j);
      OpenNotBegin(c, h, msgs, chunk, j);
    }
  }

  /** When the abort of a message arrives, there is a notice exactly if its key is not among
      the refused ones: for a message lost before, exactly if its key was evicted. */
  lemma {:induction false} AbortNoticeIffNotRefused(
    c: Config, h: seq<Frame>, env: seq<Env>, msgs: map<Key, Outgoing>, chunk: nat, j: nat)
    requires c.Valid() && |env| == |h| && Traffic(c, h, msgs, chunk) && j < |h| && h[j].flags.abort
    ensures Notice(c, h, env, j, h[j].MessageKey()) <==> h[j].MessageKey() !in After(c, h[..j], env[..j]).rejected
  {
    EveryFrameGetsItsVerdict(c, h, env, msgs, chunk, j);
  }

  /** After a notice the message is finished or lost. */
  lemma {:induction false} FirstNotice(
    c: Config, h: seq<Frame>, env: seq<Env>, msgs: map<Key, Outgoing>, chunk: nat, i: nat, k: Key)
    requires c.Valid() && |env| == |h| && Traffic(c, h, msgs, chunk) && i < |h| && k in msgs
    requires Notice(c, h, env, i, k)
    ensures Proj(h[..i + 1], k) != []
    ensures !IsOpen(Proj(h[..i + 1], k), msgs[k], chunk) || Lost(c, h[..i + 1], env[..i + 1], k)
  {
    var g, e := h[..i + 1], env[..i + 1];
    assert g[..i] == h[..i] && e[..i] == env[..i];
    ProjAt(h, k, i);
    if h[i].MessageKey() == k {
      EveryFrameGetsItsVerdict(c, h, env, msgs, chunk, i);
      TrafficTake(c, h, msgs, chunk, i + 1);
      var p := Proj(g, k);
      if IsOpen(p, msgs[k], chunk) {
        assert IsChunk(p[|p| - 1], msgs[k], chunk, |p| - 1);
        assert LosesLast(c, g, e, k);
      }
    } else {
      StateAt(c, h, env, msgs, chunk, i, k);
      assert LosesLast(c, g, e, k);
    }
  }

  /** A message that gets a notice at j was open before, since its first frame. */
  lemma {:induction false} OpenAt(
    c: Config, h: seq<Frame>, env: seq<Env>, msgs: map<Key, Outgoing>, chunk: nat, i: nat, j: nat, k: Key)
    requires c.Valid() && |env| == |h| && Traffic(c, h, msgs, chunk) && i <= j < |h| && k in msgs
    requires Notice(c, h, env, j, k) && Proj(h[..i], k) != []
    ensures IsOpen(Proj(h[..i], k), msgs[k], chunk) && IsOpen(Proj(h[..j], k), msgs[k], chunk)
  {
    ProjGrows(h, k, i, j);
    if h[j].MessageKey() == k {
      FrameMeansOpenAt(c, h, msgs, chunk, i, j);
      FrameMeansOpenAt(c, h, msgs, chunk, j, j);
    } else {
      StateAt(c, h, env, msgs, chunk, j, k);
      OpenPrefix(Proj(h[..i], k), Proj(h[..j], k), msgs[k], chunk);
    }
  }

  lemma {:induction false} OpenNotBegin(c: Config, h: seq<Frame>, msgs: map<Key, Outgoing>, chunk: nat, j: nat)
    requires Traffic(c, h, msgs, chunk) && j < |h| && Proj(h[..j], h[j].MessageKey()) != []
    ensures !h[j].flags.begin
  {
    var k := h[j].MessageKey();
    TrafficTake(c, h, msgs, chunk, j + 1);
    ProjAt(h, k, j);
    var p := Proj(h[..j + 1], k);
    if InProgress(p, msgs[k], chunk) {
      assert IsChunk(p[|p| - 1], msgs[k], chunk, |p| - 1);
    }
  }
}
