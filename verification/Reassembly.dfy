/** The receive side of chunked messages (advanced_io.go) on values: what one frame
    does to the incomplete messages, the refused keys and the memory budget, and
    what holds after any sequence of frames, well-formed or not. */
module Reassembly {
  import opened Wire
  import opened Metadata
  import MessagePool

  const OVERHEAD: nat := 256          // advancedAssemblyOverhead
  const MAX_REJECTED: nat := 1024     // maxRejectedMessages
  const IDLE_CHUNKS: nat := 0x1_0000  // advancedAssemblyIdleChunks

  /** The limits of a link. metadata tells whether FeatureMetadata was negotiated. */
  datatype Config = Config(maxMessageSize: nat, maxReassemblyBytes: nat, metadata: bool) {
    predicate Valid() {
      0 < maxMessageSize < TWO_64 && maxReassemblyBytes < TWO_64
    }
  }

  /** advancedAssembly: one incomplete message. data is its pooled buffer. */
  datatype AssemblyRecord = AssemblyRecord(
    hdr: Header, data: seq<byte>, size: nat, next: nat, seen: nat, recvAt: int)
  {
    function Charge(): nat {
      size + OVERHEAD
    }
  }

  const NoFlags := Flags(false, false, false, false, false, false, false, 0)

  /** The buffer of an assembly always holds the announced message, and the offset of
      its next chunk never passes the announced size. */
  type Assembly = a: AssemblyRecord | a.next <= a.size <= |a.data|
    witness AssemblyRecord(Header(0, 0, NoFlags, 0), [], 0, 0, 0, 0)

  /** A received message: the payload is data[off..off + n]. */
  datatype Message = Message(hdr: Header, data: seq<byte>, off: nat, n: nat, meta: Option<(Meta, int)>) {
    predicate Valid() {
      off + n <= |data|
    }

    function Bytes(): seq<byte>
      requires Valid()
    {
      data[off..off + n]
    }
  }

  /** The fields of AdvancedLink guarded by receiveMu. */
  datatype Rx = Rx(
    assemblies: map<Key, Assembly>, assemblyBytes: nat,
    rejected: set<Key>, rejectedOrder: seq<Key>, rejectedEvicted: bool,
    chunks: nat, chunksAtSweep: nat,
    reclaimed: seq<Header>, dropped: nat)

  const EmptyRx := Rx(map[], 0, {}, [], false, 0, 0, [], 0)

  datatype Outcome =
    | Partial
    | Complete(msg: Message)
    | Aborted(hdr: Header)
    | Refused(hdr: Header)
    | Failed(err: Error)

  /** What the environment contributes to one frame: the order in which a sweep
      visits the assemblies, the spare buffer the message pool hands out, and the
      clock. */
  datatype Env = Env(order: seq<Key>, spare: seq<byte>, now: int)

  // -------------------------------------------------------------- operations

  /** A buffer for n bytes: the spare one if it is of the right class, else zeroed. */
  function TakeBuffer(c: Config, n: nat, spare: seq<byte>): (data: seq<byte>)
    requires n <= c.maxMessageSize && n <= MAX_INT
    ensures n <= |data|
  {
    var size := MessagePool.ClassSize(MessagePool.ClassOf(n), c.maxMessageSize);
    MessagePool.ClassFits(n, c.maxMessageSize);
    if |spare| == size then spare else seq(size, _ => 0)
  }

  function CopyAt(data: seq<byte>, at: nat, src: seq<byte>): (r: seq<byte>)
    requires at + |src| <= |data|
    ensures |r| == |data|
  {
    data[..at] + src + data[at + |src|..]
  }

  function IndexOf<T(==)>(s: seq<T>, x: T): (i: nat)
    ensures i <= |s|
    ensures x !in s[..i]
    ensures i < |s| ==> s[i] == x
  {
    if s == [] || s[0] == x then
      0
    else
      var i := 1 + IndexOf(s[1..], x);
      assert s[..i] == [s[0]] + s[1..][..i - 1];
      i
  }

  function RemoveFirst<T(==)>(s: seq<T>, x: T): seq<T> {
    var i := IndexOf(s, x);
    if i < |s| then s[..i] + s[i + 1..] else s
  }

  function DropAssembly(s: Rx, k: Key): Rx {
    if k in s.assemblies then
      s.(assemblies := s.assemblies - {k}, assemblyBytes := Sub64(s.assemblyBytes, s.assemblies[k].Charge()))
    else
      s
  }

  function RejectMessage(s: Rx, k: Key): Rx {
    var s1 :=
      if |s.rejectedOrder| >= MAX_REJECTED then
        s.(rejected := s.rejected - {s.rejectedOrder[0]}, rejectedOrder := s.rejectedOrder[1..],
           rejectedEvicted := true)
      else
        s;
    s1.(rejected := s1.rejected + {k}, rejectedOrder := s1.rejectedOrder + [k])
  }

  function ForgetRejected(s: Rx, k: Key): Rx {
    if k in s.rejected then
      s.(rejected := s.rejected - {k}, rejectedOrder := RemoveFirst(s.rejectedOrder, k))
    else
      s
  }

  /** Gives up the incomplete message k to make room. */
  function Reclaim(s: Rx, k: Key): Rx
    requires k in s.assemblies
  {
    var h := s.assemblies[k].hdr;
    var hdr := h.(flags := h.flags.(abort := true));
    var s1 := RejectMessage(DropAssembly(s, k), k);
    s1.(dropped := Add64(s1.dropped, 1),
        reclaimed := if h.flags.request || h.flags.response then s1.reclaimed + [hdr] else s1.reclaimed)
  }

  predicate Fits(c: Config, s: Rx, charge: nat) {
    charge <= c.maxReassemblyBytes && s.assemblyBytes <= c.maxReassemblyBytes - charge
  }

  predicate Idle(s: Rx, k: Key)
    requires k in s.assemblies
  {
    Sub64(s.chunks, s.assemblies[k].seen) >= IDLE_CHUNKS
  }

  /** The sweep over the assemblies in the given order. */
  function Sweep(c: Config, s: Rx, charge: nat, order: seq<Key>): Rx
    decreases |order|
  {
    if order == [] || Fits(c, s, charge) then
      s
    else if order[0] in s.assemblies && Idle(s, order[0]) then
      Sweep(c, Reclaim(s, order[0]), charge, order[1..])
    else
      Sweep(c, s, charge, order[1..])
  }

  predicate SweepDue(c: Config, s: Rx, charge: nat) {
    charge <= c.maxReassemblyBytes && !Fits(c, s, charge) &&
    Sub64(s.chunks, s.chunksAtSweep) >= (if |s.assemblies| > IDLE_CHUNKS then |s.assemblies| else IDLE_CHUNKS)
  }

  function ReclaimIdle(c: Config, s: Rx, charge: nat, order: seq<Key>): Rx {
    if SweepDue(c, s, charge) then
      Sweep(c, s.(chunksAtSweep := s.chunks), charge, order)
    else
      s
  }

  // --------------------------------------------------------------- one frame

  predicate FlagsKnown(c: Config, f: Flags) {
    f.other == 0 && (f.meta ==> c.metadata) &&
    !(f.request && f.response) && (f.error ==> f.response) && (f.meta ==> f.request)
  }

  /** The size checks of a frame that is not an abort, in the order they are made. */
  function SizeError(c: Config, f: Frame): Option<Error> {
    if f.chunkSize > |f.buffer| || f.offset > f.total || f.chunkSize > f.total - f.offset then
      Some(ErrInvalidSize)
    else if c.maxMessageSize > 0 && f.total > c.maxMessageSize then
      Some(ErrBufferOverflow)
    else if f.total == 0 && (f.offset != 0 || f.chunkSize != 0 || !(f.flags.begin && f.flags.end)) then
      Some(ErrInvalidSize)
    else if f.total > 0 && f.chunkSize == 0 then
      Some(ErrInvalidSize)
    else if f.offset != 0 && f.aux != 0 then
      Some(ErrInvalidSize)
    else if f.total > MAX_INT then
      Some(ErrBufferOverflow)
    else
      None
  }

  function Fail(s: Rx, k: Key, e: Error): (Rx, Outcome) {
    (ForgetRejected(DropAssembly(s, k), k), Failed(e))
  }

  /** stripMeta, for a complete message that carries a metadata block. */
  function Finish(m: Message, recvAt: int): Outcome
    requires m.Valid() && m.off == 0
  {
    if !m.hdr.flags.meta then
      Complete(m)
    else
      var parsed := ParseMeta(m.data[..m.n]);
      if parsed.Ok? then
        Complete(m.(meta := Some((parsed.value.0, recvAt)), off := parsed.value.1, n := m.n - parsed.value.1))
      else
        Failed(parsed.error)
  }

  /** The state in which the first chunk of an admitted message is appended. */
  function Admit(c: Config, s: Rx, f: Frame, env: Env): Rx
    requires c.Valid() && SizeError(c, f) == None
  {
    var hdr := f.FrameHeader().(flags := f.flags.(begin := false, end := false));
    var a := AssemblyRecord(hdr, TakeBuffer(c, f.total, env.spare), f.total, 0, 0, if f.flags.meta then env.now else 0);
    s.(assemblies := s.assemblies[f.MessageKey() := a], assemblyBytes := Add64(s.assemblyBytes, f.total + OVERHEAD))
  }

  /** A message of one frame: no assembly state. */
  function Single(c: Config, f: Frame, env: Env): Outcome
    requires c.Valid() && SizeError(c, f) == None && f.offset == 0 && f.chunkSize == f.total
  {
    var data := CopyAt(TakeBuffer(c, f.total, env.spare), 0, f.Chunk());
    Finish(Message(f.FrameHeader(), data, 0, f.total, None), env.now)
  }

  /** The first of several frames: the message is refused if it does not fit. */
  function Open(c: Config, s: Rx, f: Frame, env: Env): (Rx, Outcome)
    requires c.Valid() && SizeError(c, f) == None
  {
    OpenIfFits(c, ReclaimIdle(c, s, f.total + OVERHEAD, env.order), f, env)
  }

  function OpenIfFits(c: Config, s: Rx, f: Frame, env: Env): (Rx, Outcome)
    requires c.Valid() && SizeError(c, f) == None
  {
    if Fits(c, s, f.total + OVERHEAD) then
      Append(c, Admit(c, s, f, env), f)
    else
      (RejectMessage(s, f.MessageKey()),
       Refused(f.FrameHeader().(flags := f.flags.(begin := false, end := false, abort := true))))
  }

  lemma {:induction false} OpensFrom(c: Config, s: Rx, f: Frame, env: Env)
    requires c.Valid() && SizeError(c, f) == None
    ensures Open(c, s, f, env) == OpenIfFits(c, ReclaimIdle(c, s, f.total + OVERHEAD, env.order), f, env)
  {
  }

  /** A frame that opens a message. */
  function Begin(c: Config, s: Rx, f: Frame, env: Env): (Rx, Outcome)
    requires c.Valid() && SizeError(c, f) == None
  {
    var k := f.MessageKey();
    if f.offset != 0 || k in s.assemblies || k in s.rejected then
      Fail(s, k, ErrInvalidSize)
    else if f.flags.end then
      if f.chunkSize != f.total then
        Fail(s, k, ErrInvalidSize)
      else
        (s, Single(c, f, env))
    else
      Open(c, s, f, env)
  }

  /** A frame of a message that is being assembled. */
  function Append(c: Config, s: Rx, f: Frame): (Rx, Outcome)
    requires c.Valid() && SizeError(c, f) == None && f.MessageKey() in s.assemblies
  {
    var k := f.MessageKey();
    var a: Assembly := s.assemblies[k].(seen := s.chunks);
    var s1 := s.(assemblies := s.assemblies[k := a]);
    if f.offset != a.next || a.size != f.total then
      Fail(s1, k, ErrInvalidSize)
    else
      var b: Assembly := a.(data := CopyAt(a.data, f.offset, f.Chunk()), next := a.next + f.chunkSize);
      Stored(s.(assemblies := s.assemblies[k := b]), f)
  }

  /** The same once the chunk is stored. */
  function Stored(s: Rx, f: Frame): (Rx, Outcome)
    requires f.MessageKey() in s.assemblies && s.assemblies[f.MessageKey()].size == f.total
  {
    var k := f.MessageKey();
    var b := s.assemblies[k];
    if !f.flags.end then
      (s, Partial)
    else if b.next != f.total then
      Fail(s, k, ErrInvalidSize)
    else
      var flags := b.hdr.flags.(begin := true, end := true);
      (DropAssembly(s, k), Finish(Message(b.hdr.(flags := flags), b.data, 0, f.total, None), b.recvAt))
  }

  /** consumeAdvancedChunk. */
  function Consume(c: Config, s0: Rx, f: Frame, env: Env): (r: (Rx, Outcome))
    requires c.Valid()
  {
    var s := s0.(chunks := Add64(s0.chunks, 1));
    var k := f.MessageKey();
    if !FlagsKnown(c, f.flags) then
      (s, Failed(ErrProtocol))
    else if f.flags.abort then
      var s1 := DropAssembly(s, k);
      if k in s1.rejected then (ForgetRejected(s1, k), Partial) else (s1, Aborted(f.FrameHeader()))
    else
      var e := SizeError(c, f);
      if e.Some? then
        Fail(s, k, e.value)
      else if f.flags.begin then
        Begin(c, s, f, env)
      else if k in s.assemblies then
        Append(c, s, f)
      else if k in s.rejected || s.rejectedEvicted then
        (if f.flags.end then ForgetRejected(s, k) else s, Partial)
      else
        (s, Failed(ErrProtocol))
  }

  // --------------------------------------------------------- the invariant

  /** An arbitrary but fixed key of a non-empty map. */
  ghost function PickKey(m: map<Key, Assembly>): (k: Key)
    requires m != map[]
    ensures k in m
  {
    assert m.Keys != {};
    var k :| k in m;
    k
  }

  /** The memory charged by the assemblies of m. */
  ghost function Charges(m: map<Key, Assembly>): nat
    decreases |m|
  {
    if m == map[] then 0 else var k := PickKey(m); m[k].Charge() + Charges(m - {k})
  }

  lemma {:induction false} ChargesRemove(m: map<Key, Assembly>, k: Key)
    requires k in m
    ensures Charges(m) == m[k].Charge() + Charges(m - {k})
    decreases |m|
  {
    var p := PickKey(m);
    if p != k {
      ChargesRemove(m - {p}, k);
      ChargesRemove(m - {k}, p);
      assert m - {p} - {k} == m - {k} - {p};
    }
  }

  lemma {:induction false} ChargesPut(m: map<Key, Assembly>, k: Key, a: Assembly)
    ensures Charges(m[k := a]) == a.Charge() + Charges(m - {k})
  {
    ChargesRemove(m[k := a], k);
    assert m[k := a] - {k} == m - {k};
  }

  predicate NoDuplicates<T(==)>(s: seq<T>) {
    forall i, j :: 0 <= i < j < |s| ==> s[i] != s[j]
  }

  ghost predicate AssemblyOk(c: Config, a: Assembly) {
    0 < a.size && a.size <= c.maxMessageSize && a.size <= MAX_INT
  }

  /** What every sequence of frames keeps. */
  ghost predicate Invariant(c: Config, s: Rx) {
    s.assemblyBytes == Charges(s.assemblies) &&
    s.assemblyBytes <= c.maxReassemblyBytes &&
    s.rejected == (set k | k in s.rejectedOrder) &&
    NoDuplicates(s.rejectedOrder) && |s.rejectedOrder| <= MAX_REJECTED &&
    s.rejected !! s.assemblies.Keys &&
    forall k :: k in s.assemblies ==> AssemblyOk(c, s.assemblies[k])
  }

  lemma {:induction false} EmptyInvariant(c: Config)
    ensures Invariant(c, EmptyRx)
  {
  }

  lemma {:induction false} RemoveFirstUnique<T>(s: seq<T>, x: T)
    requires NoDuplicates(s) && x in s
    ensures NoDuplicates(RemoveFirst(s, x))
    ensures |RemoveFirst(s, x)| == |s| - 1
    ensures forall y :: y in RemoveFirst(s, x) <==> y in s && y != x
  {
    var i := IndexOf(s, x);
    assert s[..|s|] == s;
    var r := s[..i] + s[i + 1..];
    assert forall j :: 0 <= j < |r| ==> r[j] == if j < i then s[j] else s[j + 1];
    forall y | y in s && y != x ensures y in r {
      var j :| 0 <= j < |s| && s[j] == y;
      assert y == if j < i then r[j] else r[j - 1];
    }
  }

  lemma {:induction false} DropKeeps(c: Config, s: Rx, k: Key)
    requires c.Valid() && Invariant(c, s)
    ensures Invariant(c, DropAssembly(s, k))
  {
    if k in s.assemblies {
      ChargesRemove(s.assemblies, k);
    }
  }

  lemma {:induction false} RejectKeeps(c: Config, s: Rx, k: Key)
    requires Invariant(c, s) && k !in s.assemblies && k !in s.rejected
    ensures Invariant(c, RejectMessage(s, k))
    ensures k in RejectMessage(s, k).rejected
  {
    var t := RejectMessage(s, k);
    var kept := if |s.rejectedOrder| >= MAX_REJECTED then s.rejectedOrder[1..] else s.rejectedOrder;
    assert t.rejectedOrder == kept + [k];
    assert forall x :: x in t.rejectedOrder <==> x in kept || x == k;
    if |s.rejectedOrder| >= MAX_REJECTED {
      assert s.rejectedOrder == [s.rejectedOrder[0]] + kept;
      assert forall x :: x in s.rejectedOrder <==> x == s.rejectedOrder[0] || x in kept;
    }
  }

  lemma {:induction false} ForgetKeeps(c: Config, s: Rx, k: Key)
    requires Invariant(c, s)
    ensures Invariant(c, ForgetRejected(s, k))
    ensures k !in ForgetRejected(s, k).rejected
  {
    if k in s.rejected {
      RemoveFirstUnique(s.rejectedOrder, k);
    }
  }

  lemma {:induction false} ReclaimKeeps(c: Config, s: Rx, k: Key)
    requires c.Valid() && Invariant(c, s) && k in s.assemblies
    ensures Invariant(c, Reclaim(s, k))
    ensures k in Reclaim(s, k).rejected
  {
    DropKeeps(c, s, k);
    RejectKeeps(c, DropAssembly(s, k), k);
  }

  /** What a step that is not about key k may do to it: an idle assembly may be
      given up (its chunks are drained from then on), a refused key may be evicted,
      and nothing else. */
  ghost predicate Fate(s: Rx, t: Rx, k: Key) {
    s.chunks == t.chunks &&
    (s.rejectedEvicted ==> t.rejectedEvicted) &&
    (k in t.assemblies ==> k in s.assemblies && t.assemblies[k] == s.assemblies[k]) &&
    (k in s.assemblies && k !in t.assemblies ==> Idle(s, k) && (k in t.rejected || t.rejectedEvicted)) &&
    (k in t.rejected ==> k in s.rejected || k in s.assemblies) &&
    (k in s.rejected ==> k in t.rejected || t.rejectedEvicted)
  }

  lemma {:induction false} FateTransitive(s: Rx, t: Rx, u: Rx, k: Key)
    requires Fate(s, t, k) && Fate(t, u, k)
    ensures Fate(s, u, k)
  {
  }

  lemma {:induction false} ReclaimFate(c: Config, s: Rx, r: Key, k: Key)
    requires Invariant(c, s) && r in s.assemblies && Idle(s, r)
    ensures Fate(s, Reclaim(s, r), k)
  {
  }

  lemma {:induction false} SweepKeeps(c: Config, s: Rx, charge: nat, order: seq<Key>)
    requires c.Valid() && Invariant(c, s)
    ensures Invariant(c, Sweep(c, s, charge, order))
    decreases |order|
  {
    if order != [] && !Fits(c, s, charge) {
      if order[0] in s.assemblies && Idle(s, order[0]) {
        ReclaimKeeps(c, s, order[0]);
        SweepKeeps(c, Reclaim(s, order[0]), charge, order[1..]);
      } else {
        SweepKeeps(c, s, charge, order[1..]);
      }
    }
  }

  lemma {:induction false} SweepFate(c: Config, s: Rx, charge: nat, order: seq<Key>, k: Key)
    requires c.Valid() && Invariant(c, s)
    ensures Fate(s, Sweep(c, s, charge, order), k)
    decreases |order|
  {
    if order != [] && !Fits(c, s, charge) {
      if order[0] in s.assemblies && Idle(s, order[0]) {
        ReclaimKeeps(c, s, order[0]);
        ReclaimFate(c, s, order[0], k);
        SweepFate(c, Reclaim(s, order[0]), charge, order[1..], k);
        FateTransitive(s, Reclaim(s, order[0]), Sweep(c, s, charge, order), k);
      } else {
        SweepFate(c, s, charge, order[1..], k);
      }
    }
  }

  ghost predicate Swept(c: Config, s: Rx, charge: nat) {
    Fits(c, s, charge) || forall k :: k in s.assemblies ==> !Idle(s, k)
  }

  /** A sweep that visits every assembly stops early only when the message fits;
      otherwise no idle assembly is left. */
  lemma {:induction false} SweepComplete(c: Config, s: Rx, charge: nat, order: seq<Key>)
    requires c.Valid() && Invariant(c, s)
    requires forall k :: k in s.assemblies && Idle(s, k) ==> k in order
    ensures Swept(c, Sweep(c, s, charge, order), charge)
    decreases |order|
  {
    if order != [] && !Fits(c, s, charge) {
      var k0, rest := order[0], order[1..];
      assert forall k :: k in order ==> k == k0 || k in rest;
      if k0 in s.assemblies && Idle(s, k0) {
        ReclaimKeeps(c, s, k0);
        SweepComplete(c, Reclaim(s, k0), charge, rest);
      } else {
        SweepComplete(c, s, charge, rest);
      }
    }
  }

  lemma {:induction false} FailKeeps(c: Config, s: Rx, k: Key, e: Error)
    requires c.Valid() && Invariant(c, s)
    ensures Invariant(c, Fail(s, k, e).0)
  {
    DropKeeps(c, s, k);
    ForgetKeeps(c, DropAssembly(s, k), k);
  }

  lemma {:induction false} AppendKeeps(c: Config, s: Rx, f: Frame)
    requires c.Valid() && SizeError(c, f) == None && f.MessageKey() in s.assemblies
    requires Invariant(c, s)
    ensures Invariant(c, Append(c, s, f).0)
  {
    var k := f.MessageKey();
    var a: Assembly := s.assemblies[k].(seen := s.chunks);
    if f.offset != a.next || a.size != f.total {
      PutKeeps(c, s, k, a);
      FailKeeps(c, s.(assemblies := s.assemblies[k := a]), k, ErrInvalidSize);
    } else {
      var b: Assembly := a.(data := CopyAt(a.data, f.offset, f.Chunk()), next := a.next + f.chunkSize);
      PutKeeps(c, s, k, b);
      StoredKeeps(c, s.(assemblies := s.assemblies[k := b]), f);
    }
  }

  lemma {:induction false} StoredKeeps(c: Config, s: Rx, f: Frame)
    requires c.Valid() && Invariant(c, s)
    requires f.MessageKey() in s.assemblies && s.assemblies[f.MessageKey()].size == f.total
    ensures Invariant(c, Stored(s, f).0)
  {
    FailKeeps(c, s, f.MessageKey(), ErrInvalidSize);
    DropKeeps(c, s, f.MessageKey());
  }

  lemma {:induction false} PutKeeps(c: Config, s: Rx, k: Key, a: Assembly)
    requires Invariant(c, s) && k in s.assemblies
    requires a.size == s.assemblies[k].size && AssemblyOk(c, a)
    ensures Invariant(c, s.(assemblies := s.assemblies[k := a]))
  {
    ChargesRemove(s.assemblies, k);
    ChargesPut(s.assemblies, k, a);
  }

  lemma {:induction false} AdmitKeeps(c: Config, s: Rx, f: Frame, env: Env)
    requires c.Valid() && SizeError(c, f) == None && Invariant(c, s)
    requires f.MessageKey() !in s.assemblies && f.MessageKey() !in s.rejected
    requires f.total > 0 && Fits(c, s, f.total + OVERHEAD)
    ensures Invariant(c, Admit(c, s, f, env))
  {
    var k := f.MessageKey();
    ChargesPut(s.assemblies, k, Admit(c, s, f, env).assemblies[k]);
    assert s.assemblies - {k} == s.assemblies;
  }

  lemma {:induction false} BeginKeeps(c: Config, s: Rx, f: Frame, env: Env)
    requires c.Valid() && SizeError(c, f) == None && Invariant(c, s)
    requires f.flags.begin
    ensures Invariant(c, Begin(c, s, f, env).0)
  {
    var k := f.MessageKey();
    FailKeeps(c, s, k, ErrInvalidSize);
    if k !in s.assemblies && k !in s.rejected && !f.flags.end {
      OpenKeeps(c, s, f, env);
    }
  }

  lemma {:induction false} OpenKeeps(c: Config, s: Rx, f: Frame, env: Env)
    requires c.Valid() && SizeError(c, f) == None && Invariant(c, s) && f.total > 0
    requires f.MessageKey() !in s.assemblies && f.MessageKey() !in s.rejected
    ensures Invariant(c, Open(c, s, f, env).0)
  {
    var charge := f.total + OVERHEAD;
    var s1 := ReclaimIdle(c, s, charge, env.order);
    ReclaimIdleKeeps(c, s, charge, env.order, f.MessageKey());
    if Fits(c, s1, charge) {
      AdmitKeeps(c, s1, f, env);
      AppendKeeps(c, Admit(c, s1, f, env), f);
    } else {
      RejectKeeps(c, s1, f.MessageKey());
    }
  }

  lemma {:induction false} ReclaimIdleKeeps(c: Config, s: Rx, charge: nat, order: seq<Key>, k: Key)
    requires c.Valid() && Invariant(c, s)
    ensures Invariant(c, ReclaimIdle(c, s, charge, order))
    ensures Fate(s, ReclaimIdle(c, s, charge, order), k)
  {
    var s1 := s.(chunksAtSweep := s.chunks);
    SweepKeeps(c, s1, charge, order);
    SweepFate(c, s1, charge, order, k);
  }

  /** One frame, whatever it contains, keeps the invariant. */
  lemma {:induction false} ConsumeKeeps(c: Config, s0: Rx, f: Frame, env: Env)
    requires c.Valid() && Invariant(c, s0)
    ensures Invariant(c, Consume(c, s0, f, env).0)
  {
    var s := s0.(chunks := Add64(s0.chunks, 1));
    var k := f.MessageKey();
    assert Invariant(c, s);
    DropKeeps(c, s, k);
    ForgetKeeps(c, s, k);
    ForgetKeeps(c, DropAssembly(s, k), k);
    if FlagsKnown(c, f.flags) && !f.flags.abort {
      var e := SizeError(c, f);
      if e == None && f.flags.begin {
        BeginKeeps(c, s, f, env);
      } else if e == None && k in s.assemblies {
        AppendKeeps(c, s, f);
      }
    }
  }

  // ------------------------------------------------------------ whole runs

  /** The state after the frames of h, received in order on a fresh link. */
  function After(c: Config, h: seq<Frame>, env: seq<Env>): Rx
    requires c.Valid() && |env| == |h|
  {
    if h == [] then
      EmptyRx
    else
      var n := |h| - 1;
      Consume(c, After(c, h[..n], env[..n]), h[n], env[n]).0
  }

  /** What the j-th frame of h produces. */
  function OutcomeAt(c: Config, h: seq<Frame>, env: seq<Env>, j: nat): Outcome
    requires c.Valid() && |env| == |h| && j < |h|
  {
    Consume(c, After(c, h[..j], env[..j]), h[j], env[j]).1
  }

  /** A frame that is an error leaves nothing of its message behind, unless its flags are
      unknown: then it changes nothing but the frame counter. */
  lemma {:induction false} ErrorsLeaveNoState(c: Config, s0: Rx, f: Frame, env: Env)
    requires c.Valid() && Invariant(c, s0) && Consume(c, s0, f, env).1.Failed?
    ensures
      var t, k := Consume(c, s0, f, env).0, f.MessageKey();
      if FlagsKnown(c, f.flags) then k !in t.assemblies && k !in t.rejected else t == s0.(chunks := Add64(s0.chunks, 1))
  {
    var s := s0.(chunks := Add64(s0.chunks, 1));
    assert Invariant(c, s);
    if FlagsKnown(c, f.flags) && !f.flags.abort && SizeError(c, f) == None {
      if f.flags.begin {
        BeginErrorLeavesNoState(c, s, f, env);
      } else if f.MessageKey() in s.assemblies {
        AppendErrorLeavesNoState(c, s, f);
      }
    }
  }

  lemma {:induction false} AppendErrorLeavesNoState(c: Config, s: Rx, f: Frame)
    requires c.Valid() && SizeError(c, f) == None && f.MessageKey() in s.assemblies && Invariant(c, s)
    requires Append(c, s, f).1.Failed?
    ensures f.MessageKey() !in Append(c, s, f).0.assemblies && f.MessageKey() !in Append(c, s, f).0.rejected
  {
  }

  lemma {:induction false} BeginErrorLeavesNoState(c: Config, s: Rx, f: Frame, env: Env)
    requires c.Valid() && SizeError(c, f) == None && Invariant(c, s) && Begin(c, s, f, env).1.Failed?
    ensures f.MessageKey() !in Begin(c, s, f, env).0.assemblies && f.MessageKey() !in Begin(c, s, f, env).0.rejected
  {
  }

  /** After any sequence of frames, malformed ones included: the budget counter is
      the sum of the charges of the incomplete messages and within the limit, the
      refused set is the duplicate-free list of at most 1024 keys and has no key that
      is being assembled, and every buffer holds its message. */
  lemma {:induction false} AnyTrafficKeepsInvariant(c: Config, h: seq<Frame>, env: seq<Env>)
    requires c.Valid() && |env| == |h|
    ensures Invariant(c, After(c, h, env))
  {
    if h != [] {
      var n := |h| - 1;
      AnyTrafficKeepsInvariant(c, h[..n], env[..n]);
      ConsumeKeeps(c, After(c, h[..n], env[..n]), h[n], env[n]);
    }
  }

  // -------------------------------------------------------------- integrity

  /** The frames of h that count for message k: its key, with flags the link knows. */
  predicate Counts(c: Config, f: Frame, k: Key) {
    f.MessageKey() == k && FlagsKnown(c, f.flags)
  }

  /** The chunks received for k since its latest Begin frame, concatenated. */
  function Gathered(c: Config, h: seq<Frame>, k: Key): seq<byte> {
    if h == [] then
      []
    else
      var n := |h| - 1;
      if !Counts(c, h[n], k) then Gathered(c, h[..n], k)
      else if h[n].flags.begin then h[n].Chunk()
      else Gathered(c, h[..n], k) + h[n].Chunk()
  }

  /** The header of the latest Begin frame of k. */
  function Opener(c: Config, h: seq<Frame>, k: Key): Option<Header> {
    if h == [] then
      None
    else
      var n := |h| - 1;
      if Counts(c, h[n], k) && h[n].flags.begin then Some(h[n].FrameHeader())
      else Opener(c, h[..n], k)
  }

  /** hdr is the header of the Begin frame, apart from the Begin and End bits. */
  predicate SameHeader(hdr: Header, opener: Option<Header>) {
    opener.Some? &&
    hdr.(flags := hdr.flags.(begin := true, end := true)) ==
    opener.value.(flags := opener.value.flags.(begin := true, end := true))
  }

  ghost predicate Tracks(c: Config, h: seq<Frame>, s: Rx) {
    forall k :: k in s.assemblies ==>
      s.assemblies[k].data[..s.assemblies[k].next] == Gathered(c, h, k) &&
      SameHeader(s.assemblies[k].hdr, Opener(c, h, k))
  }

  /** The message a frame completes is the concatenation of the chunks received for
      its key since the Begin frame, all of them, and carries that frame's header. */
  ghost predicate Faithful(c: Config, h: seq<Frame>, f: Frame, m: Message) {
    var k := f.MessageKey();
    m.Valid() &&
    m.off + m.n == f.total && m.data[..f.total] == Gathered(c, h + [f], k) &&
    m.hdr.flags.begin && m.hdr.flags.end && SameHeader(m.hdr, Opener(c, h + [f], k)) &&
    (if m.hdr.flags.meta then
       var p := ParseMeta(m.data[..f.total]);
       p.Ok? && m.meta.Some? && m.meta.value.0 == p.value.0 && m.off == p.value.1
     else
       m.meta.None? && m.off == 0)
  }

  lemma {:induction false} GatheredStep(c: Config, h: seq<Frame>, f: Frame, k: Key)
    ensures Gathered(c, h + [f], k) ==
      (if !Counts(c, f, k) then Gathered(c, h, k)
       else if f.flags.begin then f.Chunk() else Gathered(c, h, k) + f.Chunk())
    ensures Opener(c, h + [f], k) ==
      (if Counts(c, f, k) && f.flags.begin then Some(f.FrameHeader()) else Opener(c, h, k))
  {
    assert (h + [f])[..|h|] == h;
  }

  lemma {:induction false} AppendTracks(c: Config, h: seq<Frame>, s: Rx, f: Frame)
    requires c.Valid() && SizeError(c, f) == None && f.MessageKey() in s.assemblies
    requires Invariant(c, s) && FlagsKnown(c, f.flags)
    requires forall k :: k in s.assemblies && k != f.MessageKey() ==>
      s.assemblies[k].data[..s.assemblies[k].next] == Gathered(c, h + [f], k) &&
      SameHeader(s.assemblies[k].hdr, Opener(c, h + [f], k))
    requires
      var a := s.assemblies[f.MessageKey()];
      a.data[..a.next] + f.Chunk() == Gathered(c, h + [f], f.MessageKey()) &&
      SameHeader(a.hdr, Opener(c, h + [f], f.MessageKey()))
    ensures Tracks(c, h + [f], Append(c, s, f).0)
    ensures Append(c, s, f).1.Complete? ==> Faithful(c, h, f, Append(c, s, f).1.msg)
  {
    AppendEffect(c, s, f);
    var k, t := f.MessageKey(), Append(c, s, f).0;
    if Follows(s, f) {
      var a := s.assemblies[k];
      assert CopyAt(a.data, f.offset, f.Chunk())[..a.next + f.chunkSize] == a.data[..a.next] + f.Chunk();
    }
  }

  /** f is the next chunk of its message. */
  predicate Follows(s: Rx, f: Frame)
    requires f.MessageKey() in s.assemblies
  {
    f.offset == s.assemblies[f.MessageKey()].next && f.total == s.assemblies[f.MessageKey()].size
  }

  /** What a chunk leaves behind: other messages stay, and its own holds the chunk or is gone. */
  lemma {:induction false} AppendEffect(c: Config, s: Rx, f: Frame)
    requires c.Valid() && SizeError(c, f) == None && f.MessageKey() in s.assemblies
    ensures
      var k, t := f.MessageKey(), Append(c, s, f).0;
      (forall x :: x != k && x in t.assemblies ==> x in s.assemblies && t.assemblies[x] == s.assemblies[x]) &&
      (k in t.assemblies ==>
         Follows(s, f) && t.assemblies[k].hdr == s.assemblies[k].hdr &&
         t.assemblies[k].data == CopyAt(s.assemblies[k].data, f.offset, f.Chunk()) &&
         t.assemblies[k].next == s.assemblies[k].next + f.chunkSize)
    ensures Append(c, s, f).1.Complete? ==>
      Follows(s, f) && s.assemblies[f.MessageKey()].next + f.chunkSize == f.total &&
      var a := s.assemblies[f.MessageKey()];
      var hdr := a.hdr.(flags := a.hdr.flags.(begin := true, end := true));
      Append(c, s, f).1 == Finish(Message(hdr, CopyAt(a.data, f.offset, f.Chunk()), 0, f.total, None), a.recvAt)
  {
  }

  lemma {:induction false} BeginTracks(c: Config, h: seq<Frame>, s: Rx, f: Frame, env: Env)
    requires c.Valid() && SizeError(c, f) == None && Invariant(c, s) && Tracks(c, h, s)
    requires f.flags.begin && FlagsKnown(c, f.flags)
    ensures Tracks(c, h + [f], Begin(c, s, f, env).0)
    ensures Begin(c, s, f, env).1.Complete? ==> Faithful(c, h, f, Begin(c, s, f, env).1.msg)
  {
    var k := f.MessageKey();
    var t := Begin(c, s, f, env).0;
    if f.offset != 0 || k in s.assemblies || k in s.rejected {
      ShrinkTracks(c, h, s, t, f);
    } else if f.flags.end {
      ShrinkTracks(c, h, s, t, f);
      if f.chunkSize == f.total {
        SingleFaithful(c, h, f, env);
      }
    } else {
      OpenTracks(c, h, s, f, env);
    }
  }

  lemma {:induction false} OpenTracks(c: Config, h: seq<Frame>, s: Rx, f: Frame, env: Env)
    requires c.Valid() && SizeError(c, f) == None && Invariant(c, s) && Tracks(c, h, s)
    requires f.flags.begin && FlagsKnown(c, f.flags) && f.total > 0
    requires f.MessageKey() !in s.assemblies && f.MessageKey() !in s.rejected
    ensures Tracks(c, h + [f], Open(c, s, f, env).0)
    ensures Open(c, s, f, env).1.Complete? ==> Faithful(c, h, f, Open(c, s, f, env).1.msg)
  {
    var s1 := ReclaimIdle(c, s, f.total + OVERHEAD, env.order);
    ReclaimIdleTracks(c, h, s, f.total + OVERHEAD, env.order);
    ReclaimIdleKeeps(c, s, f.total + OVERHEAD, env.order, f.MessageKey());
    OpenIfFitsTracks(c, h, s1, f, env);
  }

  lemma {:induction false} OpenIfFitsTracks(c: Config, h: seq<Frame>, s: Rx, f: Frame, env: Env)
    requires c.Valid() && SizeError(c, f) == None && Invariant(c, s) && Tracks(c, h, s)
    requires f.flags.begin && FlagsKnown(c, f.flags) && f.total > 0
    requires f.MessageKey() !in s.assemblies && f.MessageKey() !in s.rejected
    ensures Tracks(c, h + [f], OpenIfFits(c, s, f, env).0)
    ensures OpenIfFits(c, s, f, env).1.Complete? ==> Faithful(c, h, f, OpenIfFits(c, s, f, env).1.msg)
  {
    if Fits(c, s, f.total + OVERHEAD) {
      AdmitTracks(c, h, s, f, env);
    } else {
      ShrinkTracks(c, h, s, RejectMessage(s, f.MessageKey()), f);
    }
  }

  lemma {:induction false} SingleFaithful(c: Config, h: seq<Frame>, f: Frame, env: Env)
    requires c.Valid() && SizeError(c, f) == None && f.offset == 0 && f.chunkSize == f.total
    requires f.flags.begin && f.flags.end && FlagsKnown(c, f.flags)
    ensures Single(c, f, env).Complete? ==> Faithful(c, h, f, Single(c, f, env).msg)
  {
    var data := CopyAt(TakeBuffer(c, f.total, env.spare), 0, f.Chunk());
    assert data[..f.total] == f.Chunk();
    GatheredStep(c, h, f, f.MessageKey());
  }

  /** Dropping assemblies, that of f's key among them, loses nothing. */
  lemma {:induction false} ShrinkTracks(c: Config, h: seq<Frame>, s: Rx, t: Rx, f: Frame)
    requires Tracks(c, h, s)
    requires forall k :: k in t.assemblies ==> k in s.assemblies && t.assemblies[k] == s.assemblies[k]
    requires Counts(c, f, f.MessageKey()) ==> f.MessageKey() !in t.assemblies
    ensures Tracks(c, h + [f], t)
  {
    forall k | k in t.assemblies
      ensures Gathered(c, h + [f], k) == Gathered(c, h, k) && Opener(c, h + [f], k) == Opener(c, h, k)
    {
      GatheredStep(c, h, f, k);
    }
  }

  lemma {:induction false} ReclaimIdleTracks(c: Config, h: seq<Frame>, s: Rx, charge: nat, order: seq<Key>)
    requires c.Valid() && Invariant(c, s) && Tracks(c, h, s)
    ensures Tracks(c, h, ReclaimIdle(c, s, charge, order))
  {
    var t := ReclaimIdle(c, s, charge, order);
    forall x | x in t.assemblies ensures x in s.assemblies && t.assemblies[x] == s.assemblies[x] {
      ReclaimIdleKeeps(c, s, charge, order, x);
    }
  }

  lemma {:induction false} AdmitTracks(c: Config, h: seq<Frame>, s: Rx, f: Frame, env: Env)
    requires c.Valid() && SizeError(c, f) == None && Invariant(c, s) && Tracks(c, h, s)
    requires f.flags.begin && FlagsKnown(c, f.flags) && f.total > 0
    requires f.MessageKey() !in s.assemblies && f.MessageKey() !in s.rejected && Fits(c, s, f.total + OVERHEAD)
    ensures Tracks(c, h + [f], Append(c, Admit(c, s, f, env), f).0)
    ensures Append(c, Admit(c, s, f, env), f).1.Complete? ==>
      Faithful(c, h, f, Append(c, Admit(c, s, f, env), f).1.msg)
  {
    var k := f.MessageKey();
    var t := Admit(c, s, f, env);
    AdmitKeeps(c, s, f, env);
    forall x ensures x in s.assemblies ==>
      Gathered(c, h + [f], x) == Gathered(c, h, x) && Opener(c, h + [f], x) == Opener(c, h, x) {
      GatheredStep(c, h, f, x);
    }
    GatheredStep(c, h, f, k);
    assert t.assemblies[k].data[..0] + f.Chunk() == f.Chunk();
    AppendTracks(c, h, t, f);
  }

  lemma {:induction false} OwnChunkTracks(c: Config, h: seq<Frame>, s: Rx, f: Frame)
    requires c.Valid() && Invariant(c, s) && Tracks(c, h, s)
    requires FlagsKnown(c, f.flags) && !f.flags.abort && SizeError(c, f) == None && !f.flags.begin
    requires f.MessageKey() in s.assemblies
    ensures Tracks(c, h + [f], Append(c, s, f).0)
    ensures Append(c, s, f).1.Complete? ==> Faithful(c, h, f, Append(c, s, f).1.msg)
  {
    var k := f.MessageKey();
    forall x | x in s.assemblies
      ensures x != k ==> Gathered(c, h + [f], x) == Gathered(c, h, x) && Opener(c, h + [f], x) == Opener(c, h, x)
    {
      GatheredStep(c, h, f, x);
    }
    GatheredStep(c, h, f, k);
    AppendTracks(c, h, s, f);
  }

  lemma {:induction false} ConsumeTracks(c: Config, h: seq<Frame>, s0: Rx, f: Frame, env: Env)
    requires c.Valid() && Invariant(c, s0) && Tracks(c, h, s0)
    ensures Tracks(c, h + [f], Consume(c, s0, f, env).0)
    ensures Consume(c, s0, f, env).1.Complete? ==> Faithful(c, h, f, Consume(c, s0, f, env).1.msg)
  {
    var s := s0.(chunks := Add64(s0.chunks, 1));
    var k := f.MessageKey();
    assert Invariant(c, s) && Tracks(c, h, s);
    if FlagsKnown(c, f.flags) && !f.flags.abort && SizeError(c, f) == None && f.flags.begin {
      BeginTracks(c, h, s, f, env);
    } else if FlagsKnown(c, f.flags) && !f.flags.abort && SizeError(c, f) == None && k in s.assemblies {
      OwnChunkTracks(c, h, s, f);
    } else {
      OtherwiseShrinks(c, s0, f, env);
      ShrinkTracks(c, h, s, Consume(c, s0, f, env).0, f);
    }
  }

  /** A frame that neither opens nor continues a message completes none and drops at most its own. */
  lemma {:induction false} OtherwiseShrinks(c: Config, s: Rx, f: Frame, env: Env)
    requires c.Valid() && Invariant(c, s)
    requires !(FlagsKnown(c, f.flags) && !f.flags.abort && SizeError(c, f) == None &&
               (f.flags.begin || f.MessageKey() in s.assemblies))
    ensures
      var (t, o) := Consume(c, s, f, env);
      !o.Complete? && (FlagsKnown(c, f.flags) ==> f.MessageKey() !in t.assemblies) &&
      forall k :: k in t.assemblies ==> k in s.assemblies && t.assemblies[k] == s.assemblies[k]
  {
  }

  lemma {:induction false} RunTracks(c: Config, h: seq<Frame>, env: seq<Env>)
    requires c.Valid() && |env| == |h|
    ensures Tracks(c, h, After(c, h, env))
  {
    if h != [] {
      var n := |h| - 1;
      RunTracks(c, h[..n], env[..n]);
      AnyTrafficKeepsInvariant(c, h[..n], env[..n]);
      assert h[..n] + [h[n]] == h;
      ConsumeTracks(c, h[..n], After(c, h[..n], env[..n]), h[n], env[n]);
    }
  }

  /** Integrity under arbitrary traffic: whatever frames of whatever messages arrive
      in whatever order, a delivered message consists of exactly the chunks received
      for its key since its Begin frame. No byte of another message and no byte left
      over in a recycled buffer is ever delivered. */
  lemma {:induction false} DeliveredBytesAreReceivedBytes(c: Config, h: seq<Frame>, env: seq<Env>, j: nat)
    requires c.Valid() && |env| == |h| && j < |h|
    requires OutcomeAt(c, h, env, j).Complete?
    ensures Faithful(c, h[..j], h[j], OutcomeAt(c, h, env, j).msg)
  {
    RunTracks(c, h[..j], env[..j]);
    AnyTrafficKeepsInvariant(c, h[..j], env[..j]);
    ConsumeTracks(c, h[..j], After(c, h[..j], env[..j]), h[j], env[j]);
  }
}
