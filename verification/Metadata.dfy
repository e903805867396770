/** Request metadata of protocol 1.1: putMeta, parseMeta and the TLV grammar both are
    measured against. */
module Metadata {
  import opened Wire

  const HEADER_SIZE: nat := 4
  const MAX_BLOCK: nat := 42

  const TAG_BUDGET: byte := 1
  const TAG_CALLER: byte := 2
  const TAG_TRACE: byte := 3

  /** Sixteen zero bytes: "no trace". */
  function NoTrace(): (r: seq<byte>)
    ensures |r| == 16
  {
    seq(16, _ => 0)
  }

  /** The values a parsed block carries (msgMeta without the arrival time). */
  datatype Meta = Meta(hasBudget: bool, budget: nat, caller: nat, trace: seq<byte>)

  function NoMeta(): (r: Meta) {
    Meta(false, 0, 0, NoTrace())
  }

  // ---------------------------------------------------------------- integers

  function Pow256(k: nat): (r: nat)
    ensures r >= 1
  {
    if k == 0 then 1 else 256 * Pow256(k - 1)
  }

  lemma {:induction false} Pow256Values()
    ensures Pow256(2) == 0x1_0000
    ensures Pow256(8) == TWO_64
  {
    assert Pow256(4) == 256 * 256 * Pow256(2);
    assert Pow256(6) == 256 * 256 * Pow256(4);
    assert Pow256(8) == 256 * 256 * Pow256(6);
  }

  /** The low k bytes of v, least significant first. */
  function LittleEndian(v: nat, k: nat): (r: seq<byte>)
    ensures |r| == k
  {
    if k == 0 then [] else [(v % 256) as byte] + LittleEndian(v / 256, k - 1)
  }

  function FromLittleEndian(b: seq<byte>): (r: nat)
    ensures r < Pow256(|b|)
  {
    if b == [] then 0 else b[0] as nat + 256 * FromLittleEndian(b[1..])
  }

  lemma {:induction false} LittleEndianRoundTrip(v: nat, k: nat)
    requires v < Pow256(k)
    ensures FromLittleEndian(LittleEndian(v, k)) == v
  {
    if k > 0 {
      LittleEndianRoundTrip(v / 256, k - 1);
      assert LittleEndian(v, k)[1..] == LittleEndian(v / 256, k - 1);
    }
  }

  // ------------------------------------------------------------- the grammar

  /** One tag-length-value item. */
  datatype Tlv = Tlv(tag: byte, value: seq<byte>) {
    predicate Encodable() {
      |value| < 256
    }

    predicate Known() {
      tag == TAG_BUDGET || tag == TAG_CALLER || tag == TAG_TRACE
    }

    /** A known tag has its one length; every other tag is skipped. */
    predicate WellFormed() {
      (tag == TAG_BUDGET || tag == TAG_CALLER ==> |value| == 8) &&
      (tag == TAG_TRACE ==> |value| == 16)
    }

    function Bytes(): (r: seq<byte>)
      requires Encodable()
    {
      [tag, |value| as byte] + value
    }
  }

  predicate AllEncodable(ts: seq<Tlv>) {
    forall i :: 0 <= i < |ts| ==> ts[i].Encodable()
  }

  predicate AllWellFormed(ts: seq<Tlv>) {
    forall i :: 0 <= i < |ts| ==> ts[i].WellFormed()
  }

  function Flatten(ts: seq<Tlv>): seq<byte>
    requires AllEncodable(ts)
  {
    if ts == [] then [] else ts[0].Bytes() + Flatten(ts[1..])
  }

  /** What one item does to the values read so far. */
  function ApplyTlv(t: Tlv, m: Meta): Meta {
    if t.tag == TAG_BUDGET then
      m.(hasBudget := true, budget := Min(FromLittleEndian(t.value), MAX_INT))
    else if t.tag == TAG_CALLER then
      m.(caller := FromLittleEndian(t.value))
    else if t.tag == TAG_TRACE then
      m.(trace := t.value)
    else
      m
  }

  function ApplyAll(ts: seq<Tlv>, m: Meta): Meta
  {
    if ts == [] then m else ApplyAll(ts[1..], ApplyTlv(ts[0], m))
  }

  /** A block with the items ts: 2-byte length, 2 reserved bytes, the items. */
  function Block(ts: seq<Tlv>): (r: seq<byte>)
    requires AllEncodable(ts)
    ensures |r| == HEADER_SIZE + |Flatten(ts)|
  {
    LittleEndian(|Flatten(ts)|, 2) + [0, 0] + Flatten(ts)
  }

  // ------------------------------------------------------------------ encode

  datatype CallOptions = CallOptions(caller: nat, trace: seq<byte>) {
    predicate Valid() {
      caller < TWO_64 && |trace| == 16
    }
  }

  /** The items a call sends: a value that means "none" is not sent. */
  function CallTlvs(budget: int, opts: CallOptions): (ts: seq<Tlv>)
    requires opts.Valid()
    ensures AllEncodable(ts) && AllWellFormed(ts)
  {
    (if budget > 0 then [Tlv(TAG_BUDGET, LittleEndian(budget, 8))] else []) +
    (if opts.caller != 0 then [Tlv(TAG_CALLER, LittleEndian(opts.caller, 8))] else []) +
    (if opts.trace != NoTrace() then [Tlv(TAG_TRACE, opts.trace)] else [])
  }

  /** The block of a call; a call without metadata has none. */
  function CallBlock(budget: int, opts: CallOptions): (r: seq<byte>)
    requires opts.Valid()
  {
    var ts := CallTlvs(budget, opts);
    if ts == [] then [] else Block(ts)
  }

  lemma {:induction false} FlattenCons(t: Tlv, rest: seq<Tlv>)
    requires t.Encodable() && AllEncodable(rest)
    ensures AllEncodable([t] + rest) && Flatten([t] + rest) == t.Bytes() + Flatten(rest)
  {
    assert ([t] + rest)[1..] == rest;
  }

  lemma {:induction false} EncodableConcat(a: seq<Tlv>, b: seq<Tlv>)
    requires AllEncodable(a) && AllEncodable(b)
    ensures AllEncodable(a + b)
  {
  }

  lemma {:induction false} FlattenConcat(a: seq<Tlv>, b: seq<Tlv>)
    requires AllEncodable(a) && AllEncodable(b)
    ensures AllEncodable(a + b) && Flatten(a + b) == Flatten(a) + Flatten(b)
  {
    EncodableConcat(a, b);
    if a == [] {
      assert a + b == b;
    } else {
      var h, t := a[0], a[1..];
      FlattenConcat(t, b);
      FlattenCons(h, t);
      FlattenCons(h, t + b);
      assert [h] + t == a && [h] + (t + b) == a + b;
      assert h.Bytes() + (Flatten(t) + Flatten(b)) == (h.Bytes() + Flatten(t)) + Flatten(b);
    }
  }

  lemma {:induction false} FlattenOne(t: Tlv)
    requires t.Encodable()
    ensures Flatten([t]) == t.Bytes()
  {
    assert [t][1..] == [];
  }

  /** The bytes written after the header, in the order putMeta writes them. */
  lemma {:induction false} CallTlvsFlat(budget: int, opts: CallOptions)
    requires opts.Valid()
    ensures Flatten(CallTlvs(budget, opts)) ==
      (if budget > 0 then [TAG_BUDGET, 8] + LittleEndian(budget, 8) else []) +
      (if opts.caller != 0 then [TAG_CALLER, 8] + LittleEndian(opts.caller, 8) else []) +
      (if opts.trace != NoTrace() then [TAG_TRACE, 16] + opts.trace else [])
  {
    var a := if budget > 0 then [Tlv(TAG_BUDGET, LittleEndian(budget, 8))] else [];
    var b := if opts.caller != 0 then [Tlv(TAG_CALLER, LittleEndian(opts.caller, 8))] else [];
    var c := if opts.trace != NoTrace() then [Tlv(TAG_TRACE, opts.trace)] else [];
    FlattenConcat(a, b);
    FlattenConcat(a + b, c);
    if budget > 0 { FlattenOne(a[0]); }
    if opts.caller != 0 { FlattenOne(b[0]); }
    if opts.trace != NoTrace() { FlattenOne(c[0]); }
  }

  /** Copies src into dst at offset at. */
  method PutBytes(dst: array<byte>, at: nat, src: seq<byte>)
    requires at + |src| <= dst.Length
    modifies dst
    ensures dst[..at + |src|] == old(dst[..at]) + src
    ensures dst[at + |src|..] == old(dst[at + |src|..])
  {
    var i := 0;
    while i < |src|
      invariant 0 <= i <= |src|
      invariant dst[..at + i] == old(dst[..at]) + src[..i]
      invariant dst[at + i..] == old(dst[at + i..])
    {
      ghost var before := dst[..at + i];
      ghost var after := dst[at + i..];
      dst[at + i] := src[i];
      i := i + 1;
      assert dst[..at + i] == before + [src[i - 1]];
      assert dst[at + i..] == after[1..];
      assert old(dst[at + i - 1..])[1..] == old(dst[at + i..]);
    }
  }

  /** Appends one item behind the items ts already in dst[..n]. */
  method PutTlv(dst: array<byte>, n: nat, tag: byte, value: seq<byte>, ghost ts: seq<Tlv>) returns (m: nat)
    requires |value| < 256 && n + 2 + |value| <= dst.Length
    requires AllEncodable(ts) && dst[..n] == [0, 0, 0, 0] + Flatten(ts)
    modifies dst
    ensures m == n + 2 + |value|
    ensures AllEncodable(ts + [Tlv(tag, value)])
    ensures dst[..m] == [0, 0, 0, 0] + Flatten(ts + [Tlv(tag, value)])
  {
    PutBytes(dst, n, [tag, |value| as byte] + value);
    m := n + 2 + |value|;
    FlattenOne(Tlv(tag, value));
    FlattenConcat(ts, [Tlv(tag, value)]);
  }

  /** putMeta: writes the block of the call to the front of dst and reports its length. */
  method PutMeta(dst: array<byte>, budget: int, opts: CallOptions) returns (size: nat)
    requires dst.Length == MAX_BLOCK
    requires dst[..] == seq(MAX_BLOCK, _ => 0)
    requires budget < TWO_63 && opts.Valid()
    modifies dst
    ensures size <= MAX_BLOCK
    ensures dst[..size] == CallBlock(budget, opts)
  {
    var n := HEADER_SIZE;
    ghost var ts: seq<Tlv> := [];
    assert dst[..n] == [0, 0, 0, 0] + Flatten(ts);
    if budget > 0 {
      n := PutTlv(dst, n, TAG_BUDGET, LittleEndian(budget, 8), ts);
      ts := ts + [Tlv(TAG_BUDGET, LittleEndian(budget, 8))];
    }
    if opts.caller != 0 {
      n := PutTlv(dst, n, TAG_CALLER, LittleEndian(opts.caller, 8), ts);
      ts := ts + [Tlv(TAG_CALLER, LittleEndian(opts.caller, 8))];
    }
    if opts.trace != NoTrace() {
      n := PutTlv(dst, n, TAG_TRACE, opts.trace, ts);
      ts := ts + [Tlv(TAG_TRACE, opts.trace)];
    }
    assert ts == CallTlvs(budget, opts);
    if n == HEADER_SIZE {
      return 0;
    }
    PutLength(dst, n, ts);
    return n;
  }

  /** Writes the length of the items into the header. */
  method PutLength(dst: array<byte>, n: nat, ghost ts: seq<Tlv>)
    requires HEADER_SIZE <= n <= dst.Length
    requires AllEncodable(ts) && dst[..n] == [0, 0, 0, 0] + Flatten(ts)
    modifies dst
    ensures dst[..n] == Block(ts)
  {
    ghost var body := dst[2..n];
    assert body == [0, 0] + Flatten(ts) by { assert body == dst[..n][2..]; }
    PutBytes(dst, 0, LittleEndian(n - HEADER_SIZE, 2));
    assert dst[2..n] == body by { assert dst[2..n] == dst[2..][..n - 2]; }
    assert dst[..n] == dst[..2] + dst[2..n];
  }

  // ------------------------------------------------------------------- parse

  /** The loop of parseMeta over the items of the block. */
  function ParseTlvs(tlv: seq<byte>, m: Meta): (r: Result<Meta>)
    decreases |tlv|
  {
    if tlv == [] then
      Ok(m)
    else if |tlv| < 2 || |tlv| < 2 + tlv[1] as int then
      Err(ErrProtocol)
    else
      var t := Tlv(tlv[0], tlv[2..2 + tlv[1] as int]);
      if t.WellFormed() then ParseTlvs(tlv[2 + |t.value|..], ApplyTlv(t, m)) else Err(ErrProtocol)
  }

  /** parseMeta on values: the parsed values and the size of the block. */
  function ParseMeta(data: seq<byte>): (r: Result<(Meta, nat)>)
    ensures r.Ok? ==> HEADER_SIZE <= r.value.1 <= |data|
  {
    if |data| < HEADER_SIZE then
      Err(ErrProtocol)
    else
      var end := HEADER_SIZE + FromLittleEndian(data[0..2]);
      if end > |data| then
        Err(ErrProtocol)
      else
        var m := ParseTlvs(data[HEADER_SIZE..end], NoMeta());
        if m.Ok? then Ok((m.value, end)) else Err(m.error)
  }

  /** parseMeta as written: a loop over a shrinking slice. */
  method ParseMetaBlock(data: seq<byte>) returns (r: Result<(Meta, nat)>)
    ensures r == ParseMeta(data)
  {
    if |data| < HEADER_SIZE {
      return Err(ErrProtocol);
    }
    var end := HEADER_SIZE + FromLittleEndian(data[0..2]);
    if end > |data| {
      return Err(ErrProtocol);
    }
    var meta := NoMeta();
    var tlv := data[HEADER_SIZE..end];
    while |tlv| > 0
      invariant ParseTlvs(tlv, meta) == ParseTlvs(data[HEADER_SIZE..end], NoMeta())
      decreases |tlv|
    {
      if |tlv| < 2 || |tlv| < 2 + tlv[1] as int {
        return Err(ErrProtocol);
      }
      var tag, value := tlv[0], tlv[2..2 + tlv[1] as int];
      tlv := tlv[2 + |value|..];
      if tag == TAG_BUDGET {
        if |value| != 8 {
          return Err(ErrProtocol);
        }
        meta := meta.(hasBudget := true, budget := Min(FromLittleEndian(value), MAX_INT));
      } else if tag == TAG_CALLER {
        if |value| != 8 {
          return Err(ErrProtocol);
        }
        meta := meta.(caller := FromLittleEndian(value));
      } else if tag == TAG_TRACE {
        if |value| != 16 {
          return Err(ErrProtocol);
        }
        meta := meta.(trace := value);
      }
    }
    return Ok((meta, end));
  }

  // -------------------------------------------------- parser against grammar

  /** On the bytes of any list of items the parser accepts exactly the well-formed
      lists and applies them in order. */
  lemma {:induction false} ParseFlatten(ts: seq<Tlv>, m: Meta)
    requires AllEncodable(ts)
    ensures ParseTlvs(Flatten(ts), m) ==
      if AllWellFormed(ts) then Ok(ApplyAll(ts, m)) else Err(ErrProtocol)
  {
    if ts != [] {
      var flat := Flatten(ts);
      assert flat[2..2 + flat[1] as int] == ts[0].value;
      assert flat[2 + |ts[0].value|..] == Flatten(ts[1..]);
      assert Tlv(flat[0], ts[0].value) == ts[0];
      ParseFlatten(ts[1..], ApplyTlv(ts[0], m));
      assert AllWellFormed(ts) <==> ts[0].WellFormed() && AllWellFormed(ts[1..]) by {
        assert forall i :: 0 < i < |ts| ==> ts[i] == ts[1..][i - 1];
      }
    }
  }

  lemma {:induction false} ConsTlv(t: Tlv, rest: seq<Tlv>, m: Meta)
    requires t.Encodable() && AllEncodable(rest)
    ensures AllEncodable([t] + rest) && Flatten([t] + rest) == t.Bytes() + Flatten(rest)
    ensures AllWellFormed([t] + rest) <==> t.WellFormed() && AllWellFormed(rest)
    ensures ApplyAll([t] + rest, m) == ApplyAll(rest, ApplyTlv(t, m))
  {
    var ts := [t] + rest;
    assert ts[1..] == rest;
    assert forall i :: 0 <= i < |rest| ==> rest[i] == ts[i + 1];
  }

  /** The first item of bytes the parser accepts. */
  lemma {:induction false} FirstTlv(tlv: seq<byte>, m: Meta) returns (t: Tlv)
    requires tlv != [] && ParseTlvs(tlv, m).Ok?
    ensures t.Encodable() && t.WellFormed() && 2 + |t.value| <= |tlv|
    ensures t.Bytes() + tlv[2 + |t.value|..] == tlv
    ensures ParseTlvs(tlv, m) == ParseTlvs(tlv[2 + |t.value|..], ApplyTlv(t, m))
  {
    t := Tlv(tlv[0], tlv[2..2 + tlv[1] as int]);
    assert t.Bytes()[..2] == tlv[..2] && t.Bytes()[2..] == tlv[2..2 + |t.value|];
  }

  /** Whatever bytes the parser accepts are the bytes of a well-formed list. */
  lemma {:induction false} ParseSound(tlv: seq<byte>, m: Meta) returns (ts: seq<Tlv>)
    requires ParseTlvs(tlv, m).Ok?
    ensures AllEncodable(ts) && AllWellFormed(ts) && Flatten(ts) == tlv
    ensures ParseTlvs(tlv, m) == Ok(ApplyAll(ts, m))
    decreases |tlv|
  {
    if tlv == [] {
      ts := [];
    } else {
      var t := FirstTlv(tlv, m);
      var rest := ParseSound(tlv[2 + |t.value|..], ApplyTlv(t, m));
      ts := [t] + rest;
      ConsTlv(t, rest, m);
    }
  }

  lemma {:induction false} ParsedIsBlock(data: seq<byte>) returns (ts: seq<Tlv>)
    requires ParseMeta(data).Ok?
    ensures AllEncodable(ts) && AllWellFormed(ts) && HasBlock(data, ts, ParseMeta(data).value.1)
    ensures ParseMeta(data).value.0 == ApplyAll(ts, NoMeta())
  {
    ts := ParseSound(data[HEADER_SIZE..ParseMeta(data).value.1], NoMeta());
  }

  lemma {:induction false} BlockIsParsed(data: seq<byte>, ts: seq<Tlv>, size: nat)
    requires AllEncodable(ts) && AllWellFormed(ts) && HasBlock(data, ts, size)
    ensures ParseMeta(data) == Ok((ApplyAll(ts, NoMeta()), size))
  {
    ParseFlatten(ts, NoMeta());
  }

  /** The parser is the grammar: parseMeta accepts data exactly if it starts with a
      block of well-formed items, and then returns their values and the block size. */
  lemma {:induction false} ParseMetaIffBlock(data: seq<byte>, m: Meta, size: nat)
    ensures ParseMeta(data) == Ok((m, size)) <==>
      exists ts: seq<Tlv> :: AllEncodable(ts) && AllWellFormed(ts) && HasBlock(data, ts, size) &&
                             m == ApplyAll(ts, NoMeta())
  {
    if ParseMeta(data) == Ok((m, size)) {
      var ts := ParsedIsBlock(data);
    }
    if ts: seq<Tlv> :| AllEncodable(ts) && AllWellFormed(ts) && HasBlock(data, ts, size) &&
                       m == ApplyAll(ts, NoMeta()) {
      BlockIsParsed(data, ts, size);
    }
  }

  /** data starts with a block of size bytes whose items are ts (the two reserved
      bytes of its header are ignored). */
  predicate HasBlock(data: seq<byte>, ts: seq<Tlv>, size: nat)
    requires AllEncodable(ts)
  {
    HEADER_SIZE <= size <= |data| &&
    FromLittleEndian(data[0..2]) == size - HEADER_SIZE &&
    data[HEADER_SIZE..size] == Flatten(ts)
  }

  /** Parsing looks at the block only: replacing everything behind it changes
      nothing. */
  lemma {:induction false} ParseReadsOnlyBlock(data: seq<byte>, other: seq<byte>)
    requires ParseMeta(data).Ok?
    ensures ParseMeta(data[..ParseMeta(data).value.1] + other) == ParseMeta(data)
  {
    var end := ParseMeta(data).value.1;
    var swapped := data[..end] + other;
    assert swapped[0..2] == data[0..2];
    assert swapped[HEADER_SIZE..end] == data[HEADER_SIZE..end];
  }

  // -------------------------------------------------------------- round trip

  lemma {:induction false} BlockShape(ts: seq<Tlv>, payload: seq<byte>)
    requires AllEncodable(ts) && |Flatten(ts)| < 0x1_0000
    ensures HasBlock(Block(ts) + payload, ts, |Block(ts)|)
  {
    var data := Block(ts) + payload;
    assert data[0..2] == LittleEndian(|Flatten(ts)|, 2);
    assert data[HEADER_SIZE..|Block(ts)|] == Flatten(ts);
    assert |Flatten(ts)| < Pow256(2) by { Pow256Values(); }
    LittleEndianRoundTrip(|Flatten(ts)|, 2);
  }

  lemma {:induction false} ParseBlock(ts: seq<Tlv>, payload: seq<byte>)
    requires AllEncodable(ts) && |Flatten(ts)| < 0x1_0000
    ensures ParseMeta(Block(ts) + payload) ==
      if AllWellFormed(ts) then Ok((ApplyAll(ts, NoMeta()), |Block(ts)|)) else Err(ErrProtocol)
  {
    BlockShape(ts, payload);
    ParseFlatten(ts, NoMeta());
  }

  lemma {:induction false} ApplyConcat(a: seq<Tlv>, b: seq<Tlv>, m: Meta)
    ensures ApplyAll(a + b, m) == ApplyAll(b, ApplyAll(a, m))
  {
    if a == [] {
      assert a + b == b;
    } else {
      assert (a + b)[1..] == a[1..] + b;
      ApplyConcat(a[1..], b, ApplyTlv(a[0], m));
    }
  }

  lemma {:induction false} CallTlvsApply(budget: int, opts: CallOptions)
    requires budget < TWO_63 && opts.Valid()
    ensures ApplyAll(CallTlvs(budget, opts), NoMeta()) ==
      Meta(budget > 0, if budget > 0 then budget else 0, opts.caller, opts.trace)
  {
    var a := if budget > 0 then [Tlv(TAG_BUDGET, LittleEndian(budget, 8))] else [];
    var b := if opts.caller != 0 then [Tlv(TAG_CALLER, LittleEndian(opts.caller, 8))] else [];
    var c := if opts.trace != NoTrace() then [Tlv(TAG_TRACE, opts.trace)] else [];
    Pow256Values();
    ApplyConcat(a, b, NoMeta());
    ApplyConcat(a + b, c, NoMeta());
    if budget > 0 { LittleEndianRoundTrip(budget, 8); }
    LittleEndianRoundTrip(opts.caller, 8);
  }

  /** Whatever a call sends is what the receiver reads: the same budget, caller and
      trace, and exactly the block, whatever payload follows. */
  lemma {:induction false} MetaRoundTrip(budget: int, opts: CallOptions, payload: seq<byte>)
    requires budget < TWO_63 && opts.Valid()
    requires CallBlock(budget, opts) != []
    ensures ParseMeta(CallBlock(budget, opts) + payload) ==
      Ok((Meta(budget > 0, if budget > 0 then budget else 0, opts.caller, opts.trace),
          |CallBlock(budget, opts)|))
  {
    CallTlvsFlat(budget, opts);
    CallTlvsApply(budget, opts);
    ParseBlock(CallTlvs(budget, opts), payload);
  }

  /** Forward compatibility: an item with an unknown tag, inserted anywhere between
      the items of a block, changes neither acceptance nor the values read. */
  lemma {:induction false} UnknownTagsAreSkipped(ts: seq<Tlv>, i: nat, extra: Tlv, payload: seq<byte>)
    requires AllEncodable(ts) && i <= |ts| && extra.Encodable() && !extra.Known()
    requires |Flatten(ts)| + 2 + |extra.value| < 0x1_0000
    ensures AllEncodable(ts[..i] + [extra] + ts[i..])
    ensures
      var plain := ParseMeta(Block(ts) + payload);
      var extended := ParseMeta(Block(ts[..i] + [extra] + ts[i..]) + payload);
      extended == if plain.Ok? then Ok((plain.value.0, plain.value.1 + 2 + |extra.value|)) else plain
  {
    InsertUnknown(ts, i, extra);
    ParseBlock(ts, payload);
    ParseBlock(ts[..i] + [extra] + ts[i..], payload);
  }

  lemma {:induction false} InsertUnknown(ts: seq<Tlv>, i: nat, extra: Tlv)
    requires AllEncodable(ts) && i <= |ts| && extra.Encodable() && !extra.Known()
    ensures var ext := ts[..i] + [extra] + ts[i..];
      AllEncodable(ext) &&
      |Flatten(ext)| == |Flatten(ts)| + 2 + |extra.value| &&
      (AllWellFormed(ext) <==> AllWellFormed(ts)) &&
      ApplyAll(ext, NoMeta()) == ApplyAll(ts, NoMeta())
  {
    var a, b := ts[..i], ts[i..];
    var ext := a + ([extra] + b);
    assert ts[..i] + [extra] + ts[i..] == ext;
    assert ts == a + b;
    ConsTlv(extra, b, ApplyAll(a, NoMeta()));
    FlattenConcat(a, b);
    FlattenConcat(a, [extra] + b);
    ApplyConcat(a, b, NoMeta());
    ApplyConcat(a, [extra] + b, NoMeta());
    WellFormedConcat(a, b);
    WellFormedConcat(a, [extra] + b);
  }

  lemma {:induction false} WellFormedConcat(a: seq<Tlv>, b: seq<Tlv>)
    ensures AllWellFormed(a + b) <==> AllWellFormed(a) && AllWellFormed(b)
  {
    assert forall i :: 0 <= i < |a| ==> a[i] == (a + b)[i];
    assert forall i :: 0 <= i < |b| ==> b[i] == (a + b)[|a| + i];
  }

  // -------------------------------------------------------------- literal bytes

  lemma {:induction false} OneItem(tag: byte, v: seq<byte>, payload: seq<byte>)
    requires |v| < 256 && Tlv(tag, v).WellFormed()
    ensures ParseMeta(LittleEndian(2 + |v|, 2) + [0, 0] + ([tag, |v| as byte] + v) + payload) ==
            Ok((ApplyTlv(Tlv(tag, v), NoMeta()), 6 + |v|))
  {
    var t := Tlv(tag, v);
    var ts := [t];
    assert ts[1..] == [] && Flatten(ts) == t.Bytes();
    assert ApplyAll(ts, NoMeta()) == ApplyTlv(t, NoMeta());
    var data := LittleEndian(2 + |v|, 2) + [0, 0] + ([tag, |v| as byte] + v) + payload;
    Pow256Values();
    LittleEndianRoundTrip(2 + |v|, 2);
    assert data[0..2] == LittleEndian(2 + |v|, 2);
    assert data[HEADER_SIZE..6 + |v|] == Flatten(ts);
    BlockIsParsed(data, ts, 6 + |v|);
  }

  lemma {:induction false} LengthBytes()
    ensures LittleEndian(10, 2) == [10, 0] && LittleEndian(18, 2) == [18, 0]
  {
    assert LittleEndian(10, 2) == [10] + ([0] + LittleEndian(0, 0));
    assert LittleEndian(18, 2) == [18] + ([0] + LittleEndian(0, 0));
  }

  /** The three items on the wire: tag 1 is the budget, tag 2 the caller, both eight bytes with the
      least significant first; tag 3 is the trace, sixteen bytes as they are. */
  lemma {:induction false} ItemsOnTheWire(v: seq<byte>, trace: seq<byte>, payload: seq<byte>)
    requires |v| == 8 && |trace| == 16
    ensures
      var n := FromLittleEndian(v);
      ParseMeta([10, 0, 0, 0, 1, 8] + v + payload) == Ok((Meta(true, if n < MAX_INT then n else MAX_INT, 0, NoTrace()), 14)) &&
      ParseMeta([10, 0, 0, 0, 2, 8] + v + payload) == Ok((Meta(false, 0, n, NoTrace()), 14)) &&
      ParseMeta([18, 0, 0, 0, 3, 16] + trace + payload) == Ok((Meta(false, 0, 0, trace), 22))
  {
    LengthBytes();
    OneItem(1, v, payload);
    OneItem(2, v, payload);
    OneItem(3, trace, payload);
    assert [10, 0] + [0, 0] + ([1, 8] + v) + payload == [10, 0, 0, 0, 1, 8] + v + payload;
    assert [10, 0] + [0, 0] + ([2, 8] + v) + payload == [10, 0, 0, 0, 2, 8] + v + payload;
    assert [18, 0] + [0, 0] + ([3, 16] + trace) + payload == [18, 0, 0, 0, 3, 16] + trace + payload;
  }

  /** Eight bytes, least significant first. */
  lemma {:induction false} EightBytes(v: seq<byte>)
    requires |v| == 8 && v[1..] == [0, 0, 0, 0, 0, 0, 0]
    ensures FromLittleEndian(v) == v[0] as nat
  {
    var rest := v[1..];
    ZeroBytes(rest);
  }

  lemma {:induction false} ZeroBytes(b: seq<byte>)
    requires forall i :: 0 <= i < |b| ==> b[i] == 0
    ensures FromLittleEndian(b) == 0
  {
    if b != [] {
      ZeroBytes(b[1..]);
    }
  }
}
