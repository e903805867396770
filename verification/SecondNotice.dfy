/** A message that is told twice: refused, evicted from the refused set by 1024 younger
    refusals, and then aborted by its sender. */
module SecondNotice {
  import opened Wire
  import opened Metadata
  import opened Reassembly
  import opened Delivery

  /** A budget too small for any message of two frames. */
  const C := Config(2, 100, false)
  const CHUNK: nat := 1

  function K(i: nat): Key {
    Key(0, i, false, false)
  }

  function Msg(i: nat): Outgoing {
    Outgoing(0, i, false, false, false, false, 0, [], [0, 0])
  }

  function First(i: nat): Frame {
    Frame(0, i, 2, 0, 1, NoFlags.(begin := true), 0, [0])
  }

  const Abort := Frame(0, 0, 0, 0, 0, NoFlags.(abort := true), 0, [])
  const E := Env([], [], 0)

  /** The first frames of messages 0 to n - 1. */
  function Firsts(n: nat): (h: seq<Frame>)
    ensures |h| == n
  {
    if n == 0 then [] else Firsts(n - 1) + [First(n - 1)]
  }

  function Envs(n: nat): (e: seq<Env>)
    ensures |e| == n
  {
    if n == 0 then [] else Envs(n - 1) + [E]
  }

  function Keys(from: nat, to: nat): (ks: seq<Key>)
    requires from <= to
    ensures |ks| == to - from && forall i :: 0 <= i < |ks| ==> ks[i] == K(from + i)
  {
    seq(to - from, i requires 0 <= i < to - from => K(from + i))
  }

  function Oldest(n: nat): nat {
    if n <= MAX_REJECTED then 0 else n - MAX_REJECTED
  }

  /** Every one of them is refused, and the refused set keeps the youngest 1024. */
  lemma {:induction false} AllRefused(n: nat)
    ensures
      var s := After(C, Firsts(n), Envs(n));
      s.assemblies == map[] && s.rejectedOrder == Keys(Oldest(n), n) && Invariant(C, s)
  {
    AnyTrafficKeepsInvariant(C, Firsts(n), Envs(n));
    if n > 0 {
      AllRefused(n - 1);
      OneMoreFirst(n - 1);
      Refuse(After(C, Firsts(n - 1), Envs(n - 1)), n - 1);
    }
  }

  lemma {:induction false} OneMoreFirst(n: nat)
    ensures After(C, Firsts(n + 1), Envs(n + 1)) == Consume(C, After(C, Firsts(n), Envs(n)), First(n), E).0
  {
    assert Firsts(n + 1)[..n] == Firsts(n) && Envs(n + 1)[..n] == Envs(n);
    assert Firsts(n + 1)[n] == First(n) && Envs(n + 1)[n] == E;
  }

  lemma {:induction false} Refuse(s: Rx, n: nat)
    requires s.assemblies == map[] && s.rejectedOrder == Keys(Oldest(n), n) && Invariant(C, s)
    ensures
      var (t, o) := Consume(C, s, First(n), E);
      o.Refused? && t.assemblies == map[] && t.rejectedOrder == Keys(Oldest(n + 1), n + 1)
  {
    assert First(n).MessageKey() == K(n) && K(n) !in s.rejectedOrder;
    var ks := Keys(Oldest(n), n);
    if n >= MAX_REJECTED {
      assert ks[1..] + [K(n)] == Keys(Oldest(n + 1), n + 1);
    } else {
      assert ks + [K(n)] == Keys(Oldest(n + 1), n + 1);
    }
  }

  const N: nat := MAX_REJECTED + 1

  function History(): (h: seq<Frame>)
    ensures |h| == N + 1
  {
    Firsts(N) + [Abort]
  }

  function Msgs(n: nat): (m: map<Key, Outgoing>)
    ensures forall i: nat :: i < n ==> K(i) in m && m[K(i)] == Msg(i)
    ensures forall k :: k in m ==> k.message < n && k == K(k.message)
  {
    if n == 0 then map[] else Msgs(n - 1)[K(n - 1) := Msg(n - 1)]
  }

  lemma {:induction false} FirstsAt(n: nat, i: nat)
    requires i < n
    ensures Firsts(n)[i] == First(i)
  {
    if i < n - 1 {
      FirstsAt(n - 1, i);
    }
  }

  lemma {:induction false} ProjFirsts(n: nat, i: nat)
    ensures Proj(Firsts(n), K(i)) == if i < n then [First(i)] else []
  {
    if n > 0 {
      ProjFirsts(n - 1, i);
      ProjLast(Firsts(n), K(i));
      assert Firsts(n)[..n - 1] == Firsts(n - 1) && Firsts(n)[n - 1] == First(n - 1);
    }
  }

  lemma {:induction false} ProjHistory(i: nat)
    requires i < N
    ensures Proj(History(), K(i)) == if i == 0 then [First(0), Abort] else [First(i)]
  {
    ProjFirsts(N, i);
    assert History()[..N] == Firsts(N);
  }

  lemma {:induction false} EachIsEmission(i: nat)
    requires i < N
    ensures Emission(Proj(History(), K(i)), Msg(i), CHUNK)
  {
    ProjHistory(i);
    assert Msg(i).Body() == [0, 0];
    assert IsChunk(First(i), Msg(i), CHUNK, 0);
    if i == 0 {
      assert [First(0), Abort][..1] == [First(0)];
      assert !AllSent(Msg(0), CHUNK, 1);
      assert IsAborted([First(0), Abort], Msg(0), CHUNK);
    }
  }

  lemma {:induction false} HistoryIsTraffic()
    ensures Traffic(C, History(), Msgs(N), CHUNK)
  {
    var h, m := History(), Msgs(N);
    forall k | k in m ensures Emission(Proj(h, k), m[k], CHUNK) && m[k].MessageKey() == k && WellFormedMessage(C, m[k]) {
      EachIsEmission(k.message);
    }
    forall i | 0 <= i < |h| ensures h[i].MessageKey() in m {
      if i < N {
        FirstsAt(N, i);
        assert h[i].MessageKey() == K(i);
      } else {
        assert h[i].MessageKey() == K(0);
      }
    }
  }

  lemma {:induction false} FirstIsRefused()
    ensures Notice(C, History(), Envs(N + 1), 0, K(0))
  {
    var h, env := History(), Envs(N + 1);
    assert h[..0] == [] && env[..0] == [];
    FirstsAt(N, 0);
    EnvsAre(N + 1, 0);
    AllRefused(0);
    Refuse(EmptyRx, 0);
  }

  lemma {:induction false} AbortIsReported()
    requires Traffic(C, History(), Msgs(N), CHUNK)
    ensures Notice(C, History(), Envs(N + 1), N, K(0))
  {
    var h, env := History(), Envs(N + 1);
    assert h[..N] == Firsts(N) && env[..N] == Envs(N) && h[N] == Abort;
    AllRefused(N);
    AbortNoticeIffNotRefused(C, h, env, Msgs(N), CHUNK, N);
  }

  /** Two notices for one message in well-formed traffic. */
  lemma {:induction false} SecondNoticeHappens()
    ensures
      var h, env := History(), Envs(N + 1);
      Traffic(C, h, Msgs(N), CHUNK) && Notice(C, h, env, 0, K(0)) && Notice(C, h, env, N, K(0))
  {
    HistoryIsTraffic();
    FirstIsRefused();
    AbortIsReported();
  }

  lemma {:induction false} EnvsAre(n: nat, i: nat)
    requires i < n
    ensures Envs(n)[i] == E
  {
    if i < n - 1 {
      EnvsAre(n - 1, i);
    }
  }
}
