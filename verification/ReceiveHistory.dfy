/** The receive path over whole histories: what its counters, its idle marks, its notices and
    its arrival times mean in terms of the frames received. */
module ReceiveHistory {
  import opened Wire
  import opened Metadata
  import opened Reassembly
  import opened Delivery

  // ---------------------------------------------------------------- the frame counter

  lemma {:induction false} OneFrameCounted(c: Config, s: Rx, f: Frame, env: Env)
    requires c.Valid() && Invariant(c, s)
    ensures Consume(c, s, f, env).0.chunks == Add64(s.chunks, 1)
  {
    var k := f.MessageKey();
    ConsumeFate(c, s, f, env, k.(stream := k.stream + 1));
  }

  lemma {:induction false} FramesAreCounted(c: Config, h: seq<Frame>, env: seq<Env>)
    requires c.Valid() && |env| == |h| && |h| < TWO_64
    ensures After(c, h, env).chunks == |h|
  {
    if h != [] {
      var n := |h| - 1;
      FramesAreCounted(c, h[..n], env[..n]);
      AnyTrafficKeepsInvariant(c, h[..n], env[..n]);
      OneFrameCounted(c, After(c, h[..n], env[..n]), h[n], env[n]);
    }
  }

  // ---------------------------------------------------------------------- idleness

  /** One more than the number of the latest frame of k, zero if there was none. */
  function LastFrame(c: Config, h: seq<Frame>, k: Key): (r: nat)
    ensures r <= |h| && (r > 0 ==> Counts(c, h[r - 1], k))
    ensures forall i :: r <= i < |h| ==> !Counts(c, h[i], k)
  {
    if h == [] then 0
    else
      var n := |h| - 1;
      if Counts(c, h[n], k) then n + 1 else LastFrame(c, h[..n], k)
  }

  /** The mark of an incomplete message is the number of its latest frame. */
  ghost predicate Marked(c: Config, h: seq<Frame>, s: Rx) {
    forall k :: k in s.assemblies ==> s.assemblies[k].seen == LastFrame(c, h, k) > 0
  }

  lemma {:induction false} AppendMarks(c: Config, s: Rx, f: Frame)
    requires c.Valid() && SizeError(c, f) == None && f.MessageKey() in s.assemblies
    ensures
      var t, k := Append(c, s, f).0, f.MessageKey();
      k in t.assemblies ==> t.assemblies[k].seen == s.chunks && t.assemblies[k].recvAt == s.assemblies[k].recvAt
  {
  }

  lemma {:induction false} OpenMarks(c: Config, s: Rx, f: Frame, env: Env)
    requires c.Valid() && SizeError(c, f) == None && Invariant(c, s) && f.MessageKey() !in s.assemblies
    ensures
      var t, k := Open(c, s, f, env).0, f.MessageKey();
      k in t.assemblies ==> t.assemblies[k].seen == s.chunks && t.assemblies[k].recvAt == if f.flags.meta then env.now else 0
  {
    OpensFrom(c, s, f, env);
    ReclaimIdleKeeps(c, s, f.total + OVERHEAD, env.order, f.MessageKey());
    OpenIfFitsMarks(c, ReclaimIdle(c, s, f.total + OVERHEAD, env.order), f, env);
  }

  lemma {:induction false} OpenIfFitsMarks(c: Config, s: Rx, f: Frame, env: Env)
    requires c.Valid() && SizeError(c, f) == None && f.MessageKey() !in s.assemblies
    ensures
      var t, k := OpenIfFits(c, s, f, env).0, f.MessageKey();
      k in t.assemblies ==> t.assemblies[k].seen == s.chunks && t.assemblies[k].recvAt == if f.flags.meta then env.now else 0
  {
    if Fits(c, s, f.total + OVERHEAD) {
      AppendMarks(c, Admit(c, s, f, env), f);
    }
  }

  /** A frame of k that leaves k incomplete marks it; only its first frame sets the time. */
  lemma {:induction false} OwnFrameMarks(c: Config, s: Rx, f: Frame, env: Env)
    requires c.Valid() && Invariant(c, s) && FlagsKnown(c, f.flags)
    ensures
      var t, k := Consume(c, s, f, env).0, f.MessageKey();
      k in t.assemblies ==>
        t.assemblies[k].seen == Add64(s.chunks, 1) &&
        if f.flags.begin then t.assemblies[k].recvAt == (if f.flags.meta then env.now else 0)
        else k in s.assemblies && t.assemblies[k].recvAt == s.assemblies[k].recvAt
  {
    var s1 := s.(chunks := Add64(s.chunks, 1));
    var k := f.MessageKey();
    assert Invariant(c, s1);
    if !f.flags.abort && SizeError(c, f) == None {
      if f.flags.begin && f.offset == 0 && k !in s.assemblies && k !in s.rejected && !f.flags.end {
        OpenMarks(c, s1, f, env);
      } else if !f.flags.begin && k in s.assemblies {
        AppendMarks(c, s1, f);
      }
    }
  }

  lemma {:induction false} LastFrameStep(c: Config, h: seq<Frame>, f: Frame, k: Key)
    ensures LastFrame(c, h + [f], k) == if Counts(c, f, k) then |h| + 1 else LastFrame(c, h, k)
  {
    assert (h + [f])[..|h|] == h;
  }

  lemma {:induction false} MarkedStep(c: Config, h: seq<Frame>, s: Rx, f: Frame, env: Env)
    requires c.Valid() && Invariant(c, s) && Marked(c, h, s) && s.chunks == |h| && |h| + 1 < TWO_64
    ensures Marked(c, h + [f], Consume(c, s, f, env).0)
  {
    var t, own := Consume(c, s, f, env).0, f.MessageKey();
    forall k | k in t.assemblies ensures t.assemblies[k].seen == LastFrame(c, h + [f], k) > 0 {
      LastFrameStep(c, h, f, k);
      if k != own {
        ConsumeFate(c, s, f, env, k);
      } else if FlagsKnown(c, f.flags) {
        OwnFrameMarks(c, s, f, env);
      }
    }
  }

  lemma {:induction false} EveryMessageIsMarked(c: Config, h: seq<Frame>, env: seq<Env>)
    requires c.Valid() && |env| == |h| && |h| < TWO_64
    ensures Marked(c, h, After(c, h, env))
  {
    if h != [] {
      var n := |h| - 1;
      EveryMessageIsMarked(c, h[..n], env[..n]);
      FramesAreCounted(c, h[..n], env[..n]);
      AnyTrafficKeepsInvariant(c, h[..n], env[..n]);
      assert h[..n] + [h[n]] == h;
      MarkedStep(c, h[..n], After(c, h[..n], env[..n]), h[n], env[n]);
    }
  }

  lemma {:induction false} AfterOne(c: Config, h: seq<Frame>, env: seq<Env>, j: nat)
    requires c.Valid() && |env| == |h| && j < |h|
    ensures After(c, h[..j + 1], env[..j + 1]) == Consume(c, After(c, h[..j], env[..j]), h[j], env[j]).0
  {
    assert h[..j + 1][..j] == h[..j] && env[..j + 1][..j] == env[..j];
  }

  /** Only silent messages are given up: if a frame of another message takes k out of the
      assemblies, the last 65536 frames before it brought nothing of k. */
  lemma {:induction false} ReclaimedWasSilent(c: Config, h: seq<Frame>, env: seq<Env>, j: nat, k: Key, i: nat)
    requires c.Valid() && |env| == |h| < TWO_64 && i < j < |h| && h[j].MessageKey() != k && Counts(c, h[i], k)
    requires k in After(c, h[..j], env[..j]).assemblies && k !in After(c, h[..j + 1], env[..j + 1]).assemblies
    ensures i + IDLE_CHUNKS <= j
  {
    var s := After(c, h[..j], env[..j]);
    AfterOne(c, h, env, j);
    AnyTrafficKeepsInvariant(c, h[..j], env[..j]);
    FramesAreCounted(c, h[..j], env[..j]);
    EveryMessageIsMarked(c, h[..j], env[..j]);
    ConsumeFate(c, s, h[j], env[j], k);
    assert h[..j][i] == h[i];
  }

  // ------------------------------------------------------------------------- sweeps

  /** Frame f opens a message of several frames in s. */
  predicate Opens(c: Config, s: Rx, f: Frame) {
    FlagsKnown(c, f.flags) && !f.flags.abort && SizeError(c, f) == None && f.flags.begin && !f.flags.end && f.offset == 0 &&
    f.MessageKey() !in s.assemblies && f.MessageKey() !in s.rejected
  }

  /** The state in which frame f is looked at. */
  function Counted(s: Rx): Rx {
    s.(chunks := Add64(s.chunks, 1))
  }

  /** Frame j of h makes the receiver look for idle messages. */
  predicate SweepsAt(c: Config, h: seq<Frame>, env: seq<Env>, j: nat)
    requires c.Valid() && |env| == |h| && j < |h|
  {
    var s := After(c, h[..j], env[..j]);
    Opens(c, s, h[j]) && SweepDue(c, Counted(s), h[j].total + OVERHEAD)
  }

  /** When a message is refused although the receiver just looked for idle messages, every
      message that is left had a frame among the last 65536. */
  lemma {:induction false} RefusedAmongActive(c: Config, h: seq<Frame>, env: seq<Env>, j: nat, k: Key) returns (i: nat)
    requires c.Valid() && |env| == |h| < TWO_64 && j < |h| && SweepsAt(c, h, env, j)
    requires forall x :: x in After(c, h[..j], env[..j]).assemblies ==> x in env[j].order
    requires OutcomeAt(c, h, env, j).Refused? && k in After(c, h[..j + 1], env[..j + 1]).assemblies
    ensures i < j < i + IDLE_CHUNKS && Counts(c, h[i], k)
  {
    var s := After(c, h[..j], env[..j]);
    AfterOne(c, h, env, j);
    AnyTrafficKeepsInvariant(c, h[..j], env[..j]);
    FramesAreCounted(c, h[..j], env[..j]);
    EveryMessageIsMarked(c, h[..j], env[..j]);
    RefusedLeavesActive(c, s, h[j], env[j], k);
    i := LastFrame(c, h[..j], k) - 1;
  }

  lemma {:induction false} RefusedLeavesActive(c: Config, s: Rx, f: Frame, env: Env, k: Key)
    requires c.Valid() && Invariant(c, s) && Opens(c, s, f) && SweepDue(c, Counted(s), f.total + OVERHEAD)
    requires forall x :: x in s.assemblies ==> x in env.order
    requires Consume(c, s, f, env).1.Refused? && k in Consume(c, s, f, env).0.assemblies
    ensures k in s.assemblies && !Idle(Counted(s), k)
  {
    var s1, charge := Counted(s), f.total + OVERHEAD;
    assert Invariant(c, s1);
    var s2 := s1.(chunksAtSweep := s1.chunks);
    assert Invariant(c, s2);
    OpensFrom(c, s1, f, env);
    SweepComplete(c, s2, charge, env.order);
    SweepFate(c, s2, charge, env.order, k);
    RefusedKeeps(c, ReclaimIdle(c, s1, charge, env.order), f, env);
  }

  lemma {:induction false} RefusedKeeps(c: Config, s: Rx, f: Frame, env: Env)
    requires c.Valid() && SizeError(c, f) == None && OpenIfFits(c, s, f, env).1.Refused?
    ensures !Fits(c, s, f.total + OVERHEAD) && OpenIfFits(c, s, f, env).0.assemblies == s.assemblies
  {
  }

  lemma {:induction false} SweepIsNoted(c: Config, s: Rx, f: Frame, env: Env)
    requires c.Valid() && Invariant(c, s)
    ensures Consume(c, s, f, env).0.chunksAtSweep ==
      if Opens(c, s, f) && SweepDue(c, Counted(s), f.total + OVERHEAD) then Counted(s).chunks else s.chunksAtSweep
  {
    var s1 := Counted(s);
    if Opens(c, s, f) {
      var charge := f.total + OVERHEAD;
      OpensFrom(c, s1, f, env);
      SweepKeepsNote(c, s1.(chunksAtSweep := s1.chunks), charge, env.order);
      OpenIfFitsKeepsNote(c, ReclaimIdle(c, s1, charge, env.order), f, env);
    }
  }

  lemma {:induction false} SweepKeepsNote(c: Config, s: Rx, charge: nat, order: seq<Key>)
    ensures Sweep(c, s, charge, order).chunksAtSweep == s.chunksAtSweep
    decreases |order|
  {
    if order != [] && !Fits(c, s, charge) {
      if order[0] in s.assemblies && Idle(s, order[0]) {
        SweepKeepsNote(c, Reclaim(s, order[0]), charge, order[1..]);
      } else {
        SweepKeepsNote(c, s, charge, order[1..]);
      }
    }
  }

  lemma {:induction false} OpenIfFitsKeepsNote(c: Config, s: Rx, f: Frame, env: Env)
    requires c.Valid() && SizeError(c, f) == None
    ensures OpenIfFits(c, s, f, env).0.chunksAtSweep == s.chunksAtSweep
  {
  }

  lemma {:induction false} NoteAt(c: Config, h: seq<Frame>, env: seq<Env>, n: nat)
    requires c.Valid() && |env| == |h| < TWO_64 && n < |h|
    ensures After(c, h[..n + 1], env[..n + 1]).chunksAtSweep ==
      if SweepsAt(c, h, env, n) then n + 1 else After(c, h[..n], env[..n]).chunksAtSweep
  {
    FramesAreCounted(c, h[..n], env[..n]);
    AnyTrafficKeepsInvariant(c, h[..n], env[..n]);
    AfterOne(c, h, env, n);
    SweepIsNoted(c, After(c, h[..n], env[..n]), h[n], env[n]);
  }

  /** A note that is set to the number of each sweep. */
  lemma {:induction false} NotesGrow(notes: seq<nat>, sweeps: seq<bool>, i: nat, j: nat)
    requires |notes| == |sweeps| + 1 && notes[0] == 0
    requires forall n :: 0 <= n < |sweeps| ==> notes[n + 1] == if sweeps[n] then n + 1 else notes[n]
    requires i < j < |notes| && sweeps[i]
    ensures i < notes[j] <= j
  {
    if i + 1 < j {
      NotesGrow(notes, sweeps, i, j - 1);
    }
    assert notes[j] == if sweeps[j - 1] then j else notes[j - 1];
  }

  /** Sweeps are rare: between two of them lie as many frames as the later one has messages to
      visit, and at least 65536. */
  lemma {:induction false} SweepsAreApart(c: Config, h: seq<Frame>, env: seq<Env>, i: nat, j: nat)
    requires c.Valid() && |env| == |h| < TWO_64 && i < j < |h| && SweepsAt(c, h, env, i) && SweepsAt(c, h, env, j)
    ensures i + IDLE_CHUNKS <= j && i + |After(c, h[..j], env[..j]).assemblies| <= j
  {
    FramesAreCounted(c, h[..j], env[..j]);
    var notes := seq(|h| + 1, n requires 0 <= n <= |h| => After(c, h[..n], env[..n]).chunksAtSweep);
    var sweeps := seq(|h|, n requires 0 <= n < |h| => SweepsAt(c, h, env, n));
    forall n | 0 <= n < |sweeps| ensures notes[n + 1] == if sweeps[n] then n + 1 else notes[n] {
      NoteAt(c, h, env, n);
    }
    NotesGrow(notes, sweeps, i, j);
  }

  // ------------------------------------------------------------------------ notices

  /** What is reported about a message that is given up: its header, as an abort, if it is a
      request or a response. */
  function Report(a: Assembly): seq<Header> {
    if a.hdr.flags.request || a.hdr.flags.response then [a.hdr.(flags := a.hdr.flags.(abort := true))] else []
  }

  function Reports(m: map<Key, Assembly>, gone: seq<Key>): seq<Header>
    requires forall k :: k in gone ==> k in m
  {
    if gone == [] then [] else Report(m[gone[0]]) + Reports(m, gone[1..])
  }

  /** The youngest of the keys that were ever refused, as many as are remembered. */
  function Youngest(keys: seq<Key>): seq<Key> {
    if |keys| > MAX_REJECTED then keys[|keys| - MAX_REJECTED..] else keys
  }

  /** From s to t the messages gone were given up, in that order: each was idle, is counted and
      reported once, and is refused from now on; the refused keys it pushes out are the oldest. */
  ghost predicate GaveUp(s: Rx, t: Rx, gone: seq<Key>) {
    NoDuplicates(gone) && (forall k :: k in gone ==> k in s.assemblies && Idle(s, k)) &&
    t.assemblies == s.assemblies - (set k | k in gone) &&
    t.reclaimed == s.reclaimed + Reports(s.assemblies, gone) &&
    t.dropped == (s.dropped + |gone|) % TWO_64 &&
    t.rejectedOrder == Youngest(s.rejectedOrder + gone)
  }

  /** Keys that are forgotten anyway can be forgotten before. */
  lemma {:induction false} ForgetBefore(a: seq<Key>, d: nat, more: seq<Key>)
    requires d <= |a| && (d == 0 || |a| - d >= MAX_REJECTED)
    ensures Youngest(a[d..] + more) == Youngest(a + more)
  {
    var all := a + more;
    assert a[d..] + more == all[d..];
    if d > 0 {
      assert all[d..][|all| - d - MAX_REJECTED..] == all[|all| - MAX_REJECTED..];
    }
  }

  lemma {:induction false} YoungestOf(a: seq<Key>, k: Key, more: seq<Key>)
    ensures Youngest(Youngest(a + [k]) + more) == Youngest(a + ([k] + more))
  {
    assert a + [k] + more == a + ([k] + more);
    var b := a + [k];
    ForgetBefore(b, if |b| > MAX_REJECTED then |b| - MAX_REJECTED else 0, more);
  }

  lemma {:induction false} RejectPushesOut(s: Rx, k: Key)
    requires |s.rejectedOrder| <= MAX_REJECTED
    ensures RejectMessage(s, k).rejectedOrder == Youngest(s.rejectedOrder + [k])
  {
  }

  /** One message given up, then those that follow. */
  lemma {:induction false} OneMoreGone(c: Config, s: Rx, k: Key, t: Rx, more: seq<Key>)
    requires Invariant(c, s) && s.dropped < TWO_64 && k in s.assemblies && Idle(s, k) && GaveUp(Reclaim(s, k), t, more)
    ensures GaveUp(s, t, [k] + more)
  {
    OneMoreReported(c, s, k, more);
    OneMoreSilent(s, k, Reclaim(s, k), t.assemblies, more);
    DroppedAdds(s.dropped, |more|);
    YoungestOf(s.rejectedOrder, k, more);
  }

  lemma {:induction false} OneMoreSilent(s: Rx, k: Key, r: Rx, left: map<Key, Assembly>, more: seq<Key>)
    requires k in s.assemblies && Idle(s, k) && r.assemblies == s.assemblies - {k} && r.chunks == s.chunks
    requires NoDuplicates(more) && (forall x :: x in more ==> x in r.assemblies && Idle(r, x))
    requires left == r.assemblies - (set x | x in more)
    ensures
      var gone := [k] + more;
      NoDuplicates(gone) && (forall x :: x in gone ==> x in s.assemblies && Idle(s, x)) &&
      left == s.assemblies - (set x | x in gone)
  {
    NoneTwice(k, more);
  }

  lemma {:induction false} OneMoreReported(c: Config, s: Rx, k: Key, more: seq<Key>)
    requires Invariant(c, s) && k in s.assemblies && forall x :: x in more ==> x in s.assemblies && x != k
    ensures
      var r := Reclaim(s, k);
      r.assemblies == s.assemblies - {k} && r.chunks == s.chunks && r.dropped == Add64(s.dropped, 1) &&
      r.rejectedOrder == Youngest(s.rejectedOrder + [k]) &&
      r.reclaimed + Reports(r.assemblies, more) == s.reclaimed + Reports(s.assemblies, [k] + more)
  {
    var r := Reclaim(s, k);
    assert ([k] + more)[1..] == more;
    RejectPushesOut(DropAssembly(s, k), k);
    SameReports(r.assemblies, s.assemblies, more);
    assert r.reclaimed == s.reclaimed + Report(s.assemblies[k]);
  }

  lemma {:induction false} NoneTwice(k: Key, more: seq<Key>)
    requires NoDuplicates(more) && k !in more
    ensures NoDuplicates([k] + more)
  {
    var gone := [k] + more;
    forall i, j | 0 <= i < j < |gone| ensures gone[i] != gone[j] {
      assert gone[j] == more[j - 1] && (i > 0 ==> gone[i] == more[i - 1]);
    }
  }

  lemma {:induction false} DroppedAdds(d: nat, n: nat)
    ensures (Add64(d, 1) + n) % TWO_64 == (d + (1 + n)) % TWO_64
  {
  }

  lemma {:induction false} SameReports(m: map<Key, Assembly>, n: map<Key, Assembly>, gone: seq<Key>)
    requires forall k :: k in gone ==> k in m && k in n && m[k] == n[k]
    ensures Reports(m, gone) == Reports(n, gone)
  {
    if gone != [] {
      SameReports(m, n, gone[1..]);
    }
  }

  lemma {:induction false} SweepGivesUp(c: Config, s: Rx, charge: nat, order: seq<Key>) returns (gone: seq<Key>)
    requires c.Valid() && Invariant(c, s) && s.dropped < TWO_64
    ensures GaveUp(s, Sweep(c, s, charge, order), gone) && forall k :: k in gone ==> k in order
    decreases |order|
  {
    gone := [];
    if order == [] || Fits(c, s, charge) {
      NothingGone(s);
    } else if order[0] in s.assemblies && Idle(s, order[0]) {
      ReclaimKeeps(c, s, order[0]);
      var more := SweepGivesUp(c, Reclaim(s, order[0]), charge, order[1..]);
      OneMoreGone(c, s, order[0], Sweep(c, s, charge, order), more);
      gone := [order[0]] + more;
    } else {
      gone := SweepGivesUp(c, s, charge, order[1..]);
    }
  }

  lemma {:induction false} NothingGone(s: Rx)
    requires s.dropped < TWO_64 && |s.rejectedOrder| <= MAX_REJECTED
    ensures GaveUp(s, s, [])
  {
    assert s.rejectedOrder + [] == s.rejectedOrder && s.reclaimed + [] == s.reclaimed;
    assert s.assemblies - (set k | k in []) == s.assemblies;
  }

  /** What one frame does to the notices: nothing, unless it opens a message; then the messages
      gone are given up for it, and it is refused or not. */
  ghost predicate Noticed(c: Config, s: Rx, f: Frame, t: Rx, o: Outcome, gone: seq<Key>) {
    if Opens(c, s, f) then
      NoDuplicates(gone) && (forall k :: k in gone ==> k in s.assemblies && Idle(Counted(s), k)) &&
      t.assemblies.Keys == s.assemblies.Keys - (set k | k in gone) + (if o.Refused? then {} else {f.MessageKey()}) &&
      t.reclaimed == s.reclaimed + Reports(s.assemblies, gone) && t.dropped == (s.dropped + |gone|) % TWO_64 &&
      t.rejectedOrder == Youngest(s.rejectedOrder + gone + (if o.Refused? then [f.MessageKey()] else []))
    else
      gone == [] && t.reclaimed == s.reclaimed && t.dropped == s.dropped && !o.Refused?
  }

  lemma {:induction false} OtherFramesReportNothing(c: Config, s: Rx, f: Frame, env: Env)
    requires c.Valid() && !Opens(c, s, f)
    ensures Noticed(c, s, f, Consume(c, s, f, env).0, Consume(c, s, f, env).1, [])
  {
    if FlagsKnown(c, f.flags) && !f.flags.abort && SizeError(c, f) == None && !f.flags.begin && f.MessageKey() in s.assemblies {
      AppendReportsNothing(c, Counted(s), f);
    }
  }

  lemma {:induction false} AppendReportsNothing(c: Config, s: Rx, f: Frame)
    requires c.Valid() && SizeError(c, f) == None && f.MessageKey() in s.assemblies
    ensures
      var (t, o) := Append(c, s, f);
      t.reclaimed == s.reclaimed && t.dropped == s.dropped && !o.Refused?
  {
  }

  lemma {:induction false} OpeningReports(c: Config, s: Rx, f: Frame, env: Env) returns (gone: seq<Key>)
    requires c.Valid() && Invariant(c, s) && s.dropped < TWO_64 && Opens(c, s, f)
    ensures Noticed(c, s, f, Consume(c, s, f, env).0, Consume(c, s, f, env).1, gone)
  {
    var s1, charge := Counted(s), f.total + OVERHEAD;
    assert Invariant(c, s1);
    gone := IdleAreGivenUp(c, s1, charge, env.order);
    ConsumeOpens(c, s, f, env);
    var swept := ReclaimIdle(c, s1, charge, env.order);
    ReclaimIdleKeeps(c, s1, charge, env.order, f.MessageKey());
    OpeningEnds(c, swept, f, env);
    OpeningNoticed(c, s, f, swept, OpenIfFits(c, swept, f, env), gone);
  }

  lemma {:induction false} ConsumeOpens(c: Config, s: Rx, f: Frame, env: Env)
    requires c.Valid() && Opens(c, s, f)
    ensures Consume(c, s, f, env) == OpenIfFits(c, ReclaimIdle(c, Counted(s), f.total + OVERHEAD, env.order), f, env)
  {
    OpensFrom(c, Counted(s), f, env);
  }

  lemma {:induction false} IdleAreGivenUp(c: Config, s: Rx, charge: nat, order: seq<Key>) returns (gone: seq<Key>)
    requires c.Valid() && Invariant(c, s) && s.dropped < TWO_64
    ensures GaveUp(s, ReclaimIdle(c, s, charge, order), gone)
  {
    if SweepDue(c, s, charge) {
      var s2 := s.(chunksAtSweep := s.chunks);
      assert Invariant(c, s2);
      gone := SweepGivesUp(c, s2, charge, order);
      SameStart(s, s2, Sweep(c, s2, charge, order), gone);
    } else {
      gone := [];
      NothingGone(s);
    }
  }

  lemma {:induction false} SameStart(s: Rx, s2: Rx, t: Rx, gone: seq<Key>)
    requires s2 == s.(chunksAtSweep := s.chunks) && GaveUp(s2, t, gone)
    ensures GaveUp(s, t, gone)
  {
    assert forall k :: k in s.assemblies ==> (Idle(s2, k) <==> Idle(s, k));
  }

  lemma {:induction false} OpeningNoticed(c: Config, s: Rx, f: Frame, swept: Rx, r: (Rx, Outcome), gone: seq<Key>)
    requires Opens(c, s, f) && GaveUp(Counted(s), swept, gone) && OpeningEnded(swept, f, r)
    ensures Noticed(c, s, f, r.0, r.1, gone)
  {
    YoungestTwice(s.rejectedOrder + gone, f.MessageKey());
  }

  lemma {:induction false} YoungestTwice(a: seq<Key>, k: Key)
    ensures Youngest(Youngest(a) + [k]) == Youngest(a + [k]) && a + [] == a
  {
    ForgetBefore(a, if |a| > MAX_REJECTED then |a| - MAX_REJECTED else 0, [k]);
  }

  predicate OpeningEnded(s: Rx, f: Frame, r: (Rx, Outcome)) {
    r.0.reclaimed == s.reclaimed && r.0.dropped == s.dropped &&
    r.0.assemblies.Keys == s.assemblies.Keys + (if r.1.Refused? then {} else {f.MessageKey()}) &&
    r.0.rejectedOrder == if r.1.Refused? then Youngest(s.rejectedOrder + [f.MessageKey()]) else s.rejectedOrder
  }

  /** After the sweep: the message is admitted or refused. */
  lemma {:induction false} OpeningEnds(c: Config, s: Rx, f: Frame, env: Env)
    requires c.Valid() && SizeError(c, f) == None && !f.flags.end && f.offset == 0 && |s.rejectedOrder| <= MAX_REJECTED
    requires f.MessageKey() !in s.assemblies
    ensures OpeningEnded(s, f, OpenIfFits(c, s, f, env))
  {
    RejectPushesOut(s, f.MessageKey());
  }

  lemma {:induction false} DroppedIsWord(c: Config, h: seq<Frame>, env: seq<Env>)
    requires c.Valid() && |env| == |h|
    ensures After(c, h, env).dropped < TWO_64
  {
    if h != [] {
      var n := |h| - 1;
      DroppedIsWord(c, h[..n], env[..n]);
      var gone := NoticesOf(c, h[..n], env[..n], h[n], env[n]);
    }
  }

  lemma {:induction false} NoticesOf(c: Config, h: seq<Frame>, env: seq<Env>, f: Frame, e: Env) returns (gone: seq<Key>)
    requires c.Valid() && |env| == |h| && After(c, h, env).dropped < TWO_64
    ensures
      var s := After(c, h, env);
      Noticed(c, s, f, Consume(c, s, f, e).0, Consume(c, s, f, e).1, gone)
  {
    var s := After(c, h, env);
    AnyTrafficKeepsInvariant(c, h, env);
    if Opens(c, s, f) {
      gone := OpeningReports(c, s, f, e);
    } else {
      gone := [];
      OtherFramesReportNothing(c, s, f, e);
    }
  }

  /** In every history, every message that is given up is reported and counted exactly once, at
      the frame that made room, and nothing else is. */
  lemma {:induction false} EveryReclaimIsReported(c: Config, h: seq<Frame>, env: seq<Env>, j: nat) returns (gone: seq<Key>)
    requires c.Valid() && |env| == |h| && j < |h|
    ensures Noticed(c, After(c, h[..j], env[..j]), h[j], After(c, h[..j + 1], env[..j + 1]), OutcomeAt(c, h, env, j), gone)
  {
    DroppedIsWord(c, h[..j], env[..j]);
    AfterOne(c, h, env, j);
    gone := NoticesOf(c, h[..j], env[..j], h[j], env[j]);
  }

  // ------------------------------------------------------------------ arrival times

  /** One more than the number of the latest Begin frame of k, zero if there was none. */
  function BeginFrame(c: Config, h: seq<Frame>, k: Key): (r: nat)
    ensures r <= |h| && (r > 0 ==> Counts(c, h[r - 1], k) && h[r - 1].flags.begin)
    ensures forall i :: r <= i < |h| ==> !(Counts(c, h[i], k) && h[i].flags.begin)
  {
    if h == [] then 0
    else
      var n := |h| - 1;
      if Counts(c, h[n], k) && h[n].flags.begin then n + 1 else BeginFrame(c, h[..n], k)
  }

  lemma {:induction false} BeginFrameStep(c: Config, h: seq<Frame>, f: Frame, k: Key)
    ensures BeginFrame(c, h + [f], k) == if Counts(c, f, k) && f.flags.begin then |h| + 1 else BeginFrame(c, h, k)
  {
    assert (h + [f])[..|h|] == h;
  }

  /** The time of the latest Begin frame of k, if that frame announces metadata. */
  function StartTime(c: Config, h: seq<Frame>, env: seq<Env>, k: Key): int
    requires |env| == |h|
  {
    if h == [] then 0
    else
      var n := |h| - 1;
      if Counts(c, h[n], k) && h[n].flags.begin then (if h[n].flags.meta then env[n].now else 0)
      else StartTime(c, h[..n], env[..n], k)
  }

  lemma {:induction false} StartTimeStep(c: Config, h: seq<Frame>, env: seq<Env>, f: Frame, e: Env, k: Key)
    requires |env| == |h|
    ensures StartTime(c, h + [f], env + [e], k) ==
      if Counts(c, f, k) && f.flags.begin then (if f.flags.meta then e.now else 0) else StartTime(c, h, env, k)
  {
    assert (h + [f])[..|h|] == h && (env + [e])[..|h|] == env;
  }

  lemma {:induction false} StartTimeIsBegin(c: Config, h: seq<Frame>, env: seq<Env>, k: Key)
    requires |env| == |h|
    ensures
      var b := BeginFrame(c, h, k);
      b > 0 && h[b - 1].flags.meta ==> StartTime(c, h, env, k) == env[b - 1].now
  {
    if h != [] {
      var n := |h| - 1;
      StartTimeIsBegin(c, h[..n], env[..n], k);
    }
  }

  /** An incomplete message carries the time of its Begin frame. */
  ghost predicate Timed(c: Config, h: seq<Frame>, env: seq<Env>, s: Rx)
    requires |env| == |h|
  {
    forall k :: k in s.assemblies ==> s.assemblies[k].recvAt == StartTime(c, h, env, k)
  }

  lemma {:induction false} TimedStep(c: Config, h: seq<Frame>, env: seq<Env>, s: Rx, f: Frame, e: Env)
    requires c.Valid() && |env| == |h| && Invariant(c, s) && Timed(c, h, env, s)
    ensures Timed(c, h + [f], env + [e], Consume(c, s, f, e).0)
  {
    var t, own := Consume(c, s, f, e).0, f.MessageKey();
    forall k | k in t.assemblies ensures t.assemblies[k].recvAt == StartTime(c, h + [f], env + [e], k) {
      StartTimeStep(c, h, env, f, e, k);
      if k != own {
        ConsumeFate(c, s, f, e, k);
      } else if FlagsKnown(c, f.flags) {
        OwnFrameMarks(c, s, f, e);
      }
    }
  }

  lemma {:induction false} EveryMessageIsTimed(c: Config, h: seq<Frame>, env: seq<Env>)
    requires c.Valid() && |env| == |h|
    ensures Timed(c, h, env, After(c, h, env))
  {
    if h != [] {
      var n := |h| - 1;
      EveryMessageIsTimed(c, h[..n], env[..n]);
      AnyTrafficKeepsInvariant(c, h[..n], env[..n]);
      TimedStep(c, h[..n], env[..n], After(c, h[..n], env[..n]), h[n], env[n]);
      assert h[..n] + [h[n]] == h && env[..n] + [env[n]] == env;
    }
  }

  lemma {:induction false} OpenerIsBegin(c: Config, h: seq<Frame>, k: Key)
    ensures
      var b := BeginFrame(c, h, k);
      Opener(c, h, k) == if b > 0 then Some(h[b - 1].FrameHeader()) else None
  {
    if h != [] {
      OpenerIsBegin(c, h[..|h| - 1], k);
    }
  }

  lemma {:induction false} TimeIsHandedOn(c: Config, s: Rx, f: Frame, env: Env)
    requires c.Valid() && Consume(c, s, f, env).1.Complete? && Consume(c, s, f, env).1.msg.meta.Some?
    ensures
      var time := Consume(c, s, f, env).1.msg.meta.value.1;
      if f.flags.begin then time == env.now else f.MessageKey() in s.assemblies && time == s.assemblies[f.MessageKey()].recvAt
  {
  }

  lemma {:induction false} ArrivalOf(c: Config, h: seq<Frame>, env: seq<Env>, s: Rx, f: Frame, e: Env)
    requires c.Valid() && |env| == |h| && Timed(c, h, env, s)
    requires Consume(c, s, f, e).1.Complete? && Consume(c, s, f, e).1.msg.meta.Some?
    requires var b := BeginFrame(c, h + [f], f.MessageKey()); b > 0 && (h + [f])[b - 1].flags.meta
    ensures Consume(c, s, f, e).1.msg.meta.value.1 == (env + [e])[BeginFrame(c, h + [f], f.MessageKey()) - 1].now
  {
    var k, b := f.MessageKey(), BeginFrame(c, h + [f], f.MessageKey());
    TimeIsHandedOn(c, s, f, e);
    BeginFrameStep(c, h, f, k);
    StartTimeIsBegin(c, h, env, k);
    if f.flags.begin {
      OnlyKnownDeliver(c, s, f, e);
    }
  }

  lemma {:induction false} OnlyKnownDeliver(c: Config, s: Rx, f: Frame, env: Env)
    requires c.Valid() && Consume(c, s, f, env).1.Complete?
    ensures FlagsKnown(c, f.flags)
  {
  }

  /** The Begin frame of a message that is delivered with metadata announced it. */
  lemma {:induction false} BeginHasMeta(c: Config, h: seq<Frame>, s: Rx, f: Frame, e: Env)
    requires c.Valid() && Invariant(c, s) && Tracks(c, h, s)
    requires Consume(c, s, f, e).1.Complete? && Consume(c, s, f, e).1.msg.meta.Some?
    ensures var b := BeginFrame(c, h + [f], f.MessageKey()); b > 0 && (h + [f])[b - 1].flags.meta
  {
    ConsumeTracks(c, h, s, f, e);
    OpenerIsBegin(c, h + [f], f.MessageKey());
  }

  /** The arrival time of a delivered request is the time at which its Begin frame was received:
      f is any frame after any history h. */
  lemma {:induction false} ArrivalIsFirstFrame(c: Config, h: seq<Frame>, env: seq<Env>, f: Frame, e: Env)
    requires c.Valid() && |env| == |h|
    requires var o := Consume(c, After(c, h, env), f, e).1; o.Complete? && o.msg.meta.Some?
    ensures
      var b := BeginFrame(c, h + [f], f.MessageKey());
      b > 0 && Consume(c, After(c, h, env), f, e).1.msg.meta.value.1 == (env + [e])[b - 1].now
  {
    var s := After(c, h, env);
    AnyTrafficKeepsInvariant(c, h, env);
    RunTracks(c, h, env);
    EveryMessageIsTimed(c, h, env);
    BeginHasMeta(c, h, s, f, e);
    ArrivalOf(c, h, env, s, f, e);
  }
}
