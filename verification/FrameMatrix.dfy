/** The receive path against the frame matrix of the conformance suite, whose rows are stated
    here for every state and every frame of their kind instead of for one example. */
module FrameMatrix {
  import opened Wire
  import opened Metadata
  import opened Reassembly

  /** Rows G10-10, -11 and -17 to -19: flags that no frame may have. The state does not change. */
  lemma {:induction false} ForbiddenFlags(c: Config, s: Rx, f: Frame, env: Env)
    requires c.Valid()
    requires f.flags.other != 0 || (f.flags.request && f.flags.response) || (f.flags.error && !f.flags.response) ||
             (f.flags.meta && !(f.flags.request && c.metadata))
    ensures Consume(c, s, f, env) == (s.(chunks := Add64(s.chunks, 1)), Failed(ErrProtocol))
  {
  }

  /** A frame with flags that are known and that is no abort. */
  predicate Plain(c: Config, f: Frame) {
    FlagsKnown(c, f.flags) && !f.flags.abort
  }

  /** A frame that says nothing wrong about sizes. */
  predicate Sized(c: Config, f: Frame) {
    f.chunkSize <= |f.buffer| && f.offset + f.chunkSize <= f.total <= c.maxMessageSize && f.total <= MAX_INT &&
    f.chunkSize > 0 && (f.offset != 0 ==> f.aux == 0)
  }

  /** Rows G10-22 to -26 and -31 to -33: sizes that contradict each other, the flags or aux. */
  lemma {:induction false} ContradictorySizes(c: Config, s: Rx, f: Frame, env: Env)
    requires c.Valid() && Plain(c, f) && f.total <= c.maxMessageSize && f.total <= MAX_INT
    requires (f.total == 0 && (f.offset != 0 || !f.flags.begin || !f.flags.end)) || (f.total > 0 && f.chunkSize == 0) ||
             f.chunkSize > |f.buffer| || f.offset > f.total || f.offset + f.chunkSize > f.total ||
             (f.flags.begin && f.offset != 0) || (f.flags.begin && f.flags.end && f.chunkSize != f.total) ||
             (f.offset != 0 && f.aux != 0)
    ensures Consume(c, s, f, env).1 == Failed(ErrInvalidSize)
  {
  }

  /** Row G10-27: a message above the limit. */
  lemma {:induction false} TooLarge(c: Config, s: Rx, f: Frame, env: Env)
    requires c.Valid() && Plain(c, f) && c.maxMessageSize > 0 && f.total > c.maxMessageSize
    requires f.chunkSize <= |f.buffer| && f.offset + f.chunkSize <= f.total
    ensures Consume(c, s, f, env).1 == Failed(ErrBufferOverflow)
  {
  }

  /** Row G10-29: a continuation of nothing. */
  lemma {:induction false} Orphan(c: Config, s: Rx, f: Frame, env: Env)
    requires c.Valid() && Plain(c, f) && Sized(c, f) && !f.flags.begin
    requires f.MessageKey() !in s.assemblies && f.MessageKey() !in s.rejected
    ensures Consume(c, s, f, env).1 == if s.rejectedEvicted then Partial else Failed(ErrProtocol)
  {
  }

  /** Rows G10-28, -30 and -34: a second Begin, a gap, an End before the last byte. Either way
      the message is gone. */
  lemma {:induction false} BrokenContinuation(c: Config, s: Rx, f: Frame, env: Env)
    requires c.Valid() && Invariant(c, s) && Plain(c, f) && Sized(c, f) && f.MessageKey() in s.assemblies
    requires
      var a := s.assemblies[f.MessageKey()];
      f.flags.begin || f.offset != a.next || f.total != a.size || (f.flags.end && f.offset + f.chunkSize != f.total)
    ensures Consume(c, s, f, env).1 == Failed(ErrInvalidSize)
    ensures f.MessageKey() !in Consume(c, s, f, env).0.assemblies && f.MessageKey() !in Consume(c, s, f, env).0.rejected
  {
    ErrorsLeaveNoState(c, s, f, env);
  }

  /** Rows G10-05 and -06: an abort is accepted whatever its operands are, and reported unless
      the message was refused before. */
  lemma {:induction false} AbortAlwaysCounts(c: Config, s: Rx, f: Frame, env: Env)
    requires c.Valid() && Invariant(c, s) && FlagsKnown(c, f.flags) && f.flags.abort
    ensures
      var (t, o) := Consume(c, s, f, env);
      o == (if f.MessageKey() in s.rejected then Partial else Aborted(f.FrameHeader())) &&
      f.MessageKey() !in t.assemblies && f.MessageKey() !in t.rejected
  {
  }

  /** Rows G10-01 and -02: a message of one frame is delivered, whatever else is going on. */
  lemma {:induction false} OneFrameMessage(c: Config, s: Rx, f: Frame, env: Env)
    requires c.Valid() && Plain(c, f) && f.flags.begin && f.flags.end && !f.flags.meta && f.offset == 0
    requires f.chunkSize == f.total <= |f.buffer| && f.total <= c.maxMessageSize && f.total <= MAX_INT
    requires f.MessageKey() !in s.assemblies && f.MessageKey() !in s.rejected
    ensures
      var (t, o) := Consume(c, s, f, env);
      t == s.(chunks := Add64(s.chunks, 1)) && o.Complete? && o.msg.Valid() && o.msg.Bytes() == f.Chunk() &&
      o.msg.hdr == f.FrameHeader()
  {
  }

  /** Rows G10-12 to -14 and -16: a request whose metadata block is malformed. */
  lemma {:induction false} BadMetadata(c: Config, s: Rx, f: Frame, env: Env)
    requires c.Valid() && Plain(c, f) && f.flags.begin && f.flags.end && f.flags.meta && f.offset == 0
    requires f.chunkSize == f.total <= |f.buffer| && f.total <= c.maxMessageSize && f.total <= MAX_INT
    requires f.MessageKey() !in s.assemblies && f.MessageKey() !in s.rejected && ParseMeta(f.Chunk()).Err?
    ensures Consume(c, s, f, env).1 == Failed(ErrProtocol)
  {
    var m := Message(f.FrameHeader(), CopyAt(TakeBuffer(c, f.total, env.spare), 0, f.Chunk()), 0, f.total, None);
    assert m.data[..m.n] == f.Chunk();
    OnlyProtocolErrors(f.Chunk());
  }

  lemma {:induction false} OnlyProtocolErrors(data: seq<byte>)
    requires ParseMeta(data).Err?
    ensures ParseMeta(data).error == ErrProtocol
  {
    if |data| >= HEADER_SIZE {
      var end := HEADER_SIZE + FromLittleEndian(data[0..2]);
      if end <= |data| {
        OnlyProtocolTlvErrors(data[HEADER_SIZE..end], NoMeta());
      }
    }
  }

  lemma {:induction false} OnlyProtocolTlvErrors(tlv: seq<byte>, m: Meta)
    requires ParseTlvs(tlv, m).Err?
    ensures ParseTlvs(tlv, m).error == ErrProtocol
    decreases |tlv|
  {
    if |tlv| >= 2 && |tlv| >= 2 + tlv[1] as int {
      var t := Tlv(tlv[0], tlv[2..2 + tlv[1] as int]);
      if t.WellFormed() {
        OnlyProtocolTlvErrors(tlv[2 + |t.value|..], ApplyTlv(t, m));
      }
    }
  }

  /** Rows G10-35 to -37: a message for which the budget is too small is refused once, and the
      rest of it is drained. */
  lemma {:induction false} RefusedAndDrained(c: Config, s: Rx, f: Frame, g: Frame, env: Env, env2: Env)
    requires c.Valid() && Invariant(c, s) && Plain(c, f) && Plain(c, g) && Sized(c, f) && Sized(c, g)
    requires f.flags.begin && !f.flags.end && f.offset == 0 && f.total + OVERHEAD > c.maxReassemblyBytes
    requires !g.flags.begin && g.flags.end && g.MessageKey() == f.MessageKey()
    requires f.MessageKey() !in s.assemblies && f.MessageKey() !in s.rejected
    ensures
      var (t, o) := Consume(c, s, f, env);
      var (u, p) := Consume(c, t, g, env2);
      o.Refused? && p == Partial && f.MessageKey() !in u.assemblies && f.MessageKey() !in u.rejected
  {
    var (t, o) := Consume(c, s, f, env);
    ConsumeKeeps(c, s, f, env);
    assert f.MessageKey() in t.rejected && f.MessageKey() !in t.assemblies;
  }
}
