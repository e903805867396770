/** When the reassembly budget is enough: in well-formed traffic no message is refused or
    reclaimed exactly if the messages that are open at the same time fit the budget together. */
module Budget {
  import opened Wire
  import opened Reassembly
  import opened Delivery

  // ------------------------------------------------------------------ the demand

  /** What the receiver charges for the messages in open. */
  ghost function Demand(open: set<Key>, msgs: map<Key, Outgoing>): nat
    requires forall k :: k in open ==> k in msgs
  {
    if open == {} then 0 else var k := Pick(open); msgs[k].Total() + OVERHEAD + Demand(open - {k}, msgs)
  }

  ghost function Pick(open: set<Key>): (k: Key)
    requires open != {}
    ensures k in open
  {
    var k :| k in open;
    k
  }

  lemma {:induction false} DemandOf(open: set<Key>, msgs: map<Key, Outgoing>, k: Key)
    requires k in open && forall x :: x in open ==> x in msgs
    ensures Demand(open, msgs) == msgs[k].Total() + OVERHEAD + Demand(open - {k}, msgs)
    decreases |open|
  {
    var p := Pick(open);
    if p != k {
      DemandOf(open - {p}, msgs, k);
      DemandOf(open - {k}, msgs, p);
      assert open - {p} - {k} == open - {k} - {p};
    }
  }

  /** The messages that were begun and neither finished nor aborted. */
  ghost function OpenKeys(h: seq<Frame>, msgs: map<Key, Outgoing>, chunk: nat): set<Key> {
    set k | k in msgs && IsOpen(Proj(h, k), msgs[k], chunk)
  }

  /** The messages open at the same time never need more than the budget. */
  ghost predicate FitsBudget(c: Config, h: seq<Frame>, msgs: map<Key, Outgoing>, chunk: nat) {
    forall n :: 0 <= n <= |h| ==> Demand(OpenKeys(h[..n], msgs, chunk), msgs) <= c.maxReassemblyBytes
  }

  // ---------------------------------------------- what is charged while nothing is lost

  lemma {:induction false} ChargesAreDemand(m: map<Key, Assembly>, open: set<Key>, msgs: map<Key, Outgoing>)
    requires m.Keys == open && forall k :: k in m ==> k in msgs && m[k].size == msgs[k].Total()
    ensures Charges(m) == Demand(open, msgs)
    decreases |open|
  {
    if m != map[] {
      var k := PickKey(m);
      assert (m - {k}).Keys == open - {k};
      ChargesAreDemand(m - {k}, open - {k}, msgs);
      DemandOf(open, msgs, k);
    }
  }

  /** Only messages of the traffic are being assembled. */
  lemma {:induction false} AssembliesAreTraffic(
    c: Config, h: seq<Frame>, env: seq<Env>, msgs: map<Key, Outgoing>, chunk: nat, k: Key)
    requires c.Valid() && |env| == |h| && Traffic(c, h, msgs, chunk) && k in After(c, h, env).assemblies
    ensures k in msgs
    decreases |h|
  {
    var n := |h| - 1;
    if h[n].MessageKey() != k {
      AnyTrafficKeepsInvariant(c, h[..n], env[..n]);
      ConsumeFate(c, After(c, h[..n], env[..n]), h[n], env[n], k);
      TrafficPrefix(c, h, msgs, chunk);
      AssembliesAreTraffic(c, h[..n], env[..n], msgs, chunk, k);
    }
  }

  ghost predicate NoneLost(c: Config, h: seq<Frame>, env: seq<Env>, msgs: map<Key, Outgoing>)
    requires c.Valid() && |env| == |h|
  {
    forall k :: k in msgs ==> !Lost(c, h, env, k)
  }

  /** While nothing is lost, the receiver assembles exactly the open messages. */
  lemma {:induction false} OpenIsAssembled(c: Config, h: seq<Frame>, env: seq<Env>, msgs: map<Key, Outgoing>, chunk: nat)
    requires c.Valid() && |env| == |h| && Traffic(c, h, msgs, chunk) && NoneLost(c, h, env, msgs)
    ensures After(c, h, env).assemblyBytes == Demand(OpenKeys(h, msgs, chunk), msgs) <= c.maxReassemblyBytes
  {
    var s, open := After(c, h, env), OpenKeys(h, msgs, chunk);
    AnyTrafficKeepsInvariant(c, h, env);
    RunAgrees(c, h, env, msgs, chunk);
    forall k ensures k in s.assemblies <==> k in open {
      if k in s.assemblies {
        AssembliesAreTraffic(c, h, env, msgs, chunk, k);
      }
      assert k in msgs ==> KeyState(s, Proj(h, k), msgs[k], chunk, Lost(c, h, env, k));
    }
    forall k | k in s.assemblies ensures k in msgs && s.assemblies[k].size == msgs[k].Total() {
      assert k in open && KeyState(s, Proj(h, k), msgs[k], chunk, Lost(c, h, env, k));
    }
    ChargesAreDemand(s.assemblies, open, msgs);
  }

  // -------------------------------------------------------------- one more frame

  /** A frame that finds room, or needs none, costs no message anything. */
  lemma {:induction false} RoomMeansNoLoss(c: Config, s0: Rx, f: Frame, env: Env, x: Key)
    requires c.Valid()
    requires f.flags.begin && !f.flags.end ==> Fits(c, s0, f.total + OVERHEAD)
    ensures !Consume(c, s0, f, env).1.Refused?
    ensures x != f.MessageKey() && x in s0.assemblies ==> x in Consume(c, s0, f, env).0.assemblies
  {
    var s := s0.(chunks := Add64(s0.chunks, 1));
    if FlagsKnown(c, f.flags) && !f.flags.abort && SizeError(c, f) == None {
      if f.flags.begin && !f.flags.end {
        OpensFrom(c, s, f, env);
        RoomyOpen(c, s, f, env, x);
      } else if !f.flags.begin && f.MessageKey() in s.assemblies {
        AppendLosesNone(c, s, f, x);
      }
    }
  }

  lemma {:induction false} RoomyOpen(c: Config, s: Rx, f: Frame, env: Env, x: Key)
    requires c.Valid() && SizeError(c, f) == None && Fits(c, s, f.total + OVERHEAD)
    ensures ReclaimIdle(c, s, f.total + OVERHEAD, env.order) == s && !OpenIfFits(c, s, f, env).1.Refused?
    ensures x != f.MessageKey() && x in s.assemblies ==> x in OpenIfFits(c, s, f, env).0.assemblies
  {
    AppendLosesNone(c, Admit(c, s, f, env), f, x);
  }

  lemma {:induction false} AppendLosesNone(c: Config, s: Rx, f: Frame, x: Key)
    requires c.Valid() && SizeError(c, f) == None && f.MessageKey() in s.assemblies
    ensures !Append(c, s, f).1.Refused?
    ensures x != f.MessageKey() && x in s.assemblies ==> x in Append(c, s, f).0.assemblies
  {
  }

  /** The first of several frames opens its message and no other. */
  lemma {:induction false} FirstFrameOpens(c: Config, h: seq<Frame>, msgs: map<Key, Outgoing>, chunk: nat)
    requires Traffic(c, h, msgs, chunk) && |h| > 0
    requires var f := h[|h| - 1]; f.flags.begin && !f.flags.end
    ensures
      var n := |h| - 1;
      var k := h[n].MessageKey();
      k in msgs && h[n].total == msgs[k].Total() && k !in OpenKeys(h[..n], msgs, chunk) &&
      OpenKeys(h, msgs, chunk) == OpenKeys(h[..n], msgs, chunk) + {k}
  {
    var n := |h| - 1;
    var k := h[n].MessageKey();
    OneFrameProj(c, h, msgs, chunk);
    var before, after := OpenKeys(h[..n], msgs, chunk), OpenKeys(h, msgs, chunk);
    forall x ensures x in after <==> x in before || x == k {
      if x != k {
        SameProj(h, x);
      }
    }
  }

  lemma {:induction false} SameProj(h: seq<Frame>, x: Key)
    requires |h| > 0 && h[|h| - 1].MessageKey() != x
    ensures Proj(h, x) == Proj(h[..|h| - 1], x)
  {
    ProjLast(h, x);
  }

  lemma {:induction false} OneFrameProj(c: Config, h: seq<Frame>, msgs: map<Key, Outgoing>, chunk: nat)
    requires Traffic(c, h, msgs, chunk) && |h| > 0
    requires var f := h[|h| - 1]; f.flags.begin && !f.flags.end
    ensures
      var n := |h| - 1;
      var k := h[n].MessageKey();
      k in msgs && h[n].total == msgs[k].Total() && Proj(h[..n], k) == [] && IsOpen(Proj(h, k), msgs[k], chunk)
  {
    var n := |h| - 1;
    var k := h[n].MessageKey();
    if Proj(h[..n], k) != [] {
      OpenNotBegin(c, h, msgs, chunk, n);
    }
    ProjLast(h, k);
    assert Proj(h, k) == [h[n]];
    assert InProgress(Proj(h, k), msgs[k], chunk) ==> IsChunk(Proj(h, k)[0], msgs[k], chunk, 0);
  }

  // --------------------------------------------------------------------- results

  lemma {:induction false} FittingPrefix(c: Config, h: seq<Frame>, msgs: map<Key, Outgoing>, chunk: nat)
    requires FitsBudget(c, h, msgs, chunk) && |h| > 0
    ensures FitsBudget(c, h[..|h| - 1], msgs, chunk)
    ensures Demand(OpenKeys(h, msgs, chunk), msgs) <= c.maxReassemblyBytes
  {
    var g := h[..|h| - 1];
    forall n | 0 <= n <= |g| ensures g[..n] == h[..n] {
    }
    assert h[..|h|] == h;
  }

  lemma {:induction false} FittingLosesNone(c: Config, h: seq<Frame>, env: seq<Env>, msgs: map<Key, Outgoing>, chunk: nat)
    requires c.Valid() && |env| == |h| && Traffic(c, h, msgs, chunk) && FitsBudget(c, h, msgs, chunk)
    ensures NoneLost(c, h, env, msgs)
    decreases |h|
  {
    if h != [] {
      var n := |h| - 1;
      TrafficPrefix(c, h, msgs, chunk);
      FittingPrefix(c, h, msgs, chunk);
      FittingLosesNone(c, h[..n], env[..n], msgs, chunk);
      LastFrameFinds(c, h, env, msgs, chunk);
      forall k | k in msgs ensures !Lost(c, h, env, k) {
        RoomMeansNoLoss(c, After(c, h[..n], env[..n]), h[n], env[n], k);
        LosesIfLast(c, h, env, k);
      }
    }
  }

  lemma {:induction false} LosesIfLast(c: Config, h: seq<Frame>, env: seq<Env>, k: Key)
    requires c.Valid() && |env| == |h| && |h| > 0
    ensures
      var n := |h| - 1;
      var s, r := After(c, h[..n], env[..n]), Consume(c, After(c, h[..n], env[..n]), h[n], env[n]);
      LosesLast(c, h, env, k) <==>
        if h[n].MessageKey() == k then r.1.Refused? else k in s.assemblies && k !in r.0.assemblies
  {
  }

  lemma {:induction false} LastFrameFinds(c: Config, h: seq<Frame>, env: seq<Env>, msgs: map<Key, Outgoing>, chunk: nat)
    requires c.Valid() && |env| == |h| && Traffic(c, h, msgs, chunk) && |h| > 0
    requires NoneLost(c, h[..|h| - 1], env[..|h| - 1], msgs)
    requires Demand(OpenKeys(h, msgs, chunk), msgs) <= c.maxReassemblyBytes
    ensures
      var n := |h| - 1;
      h[n].flags.begin && !h[n].flags.end ==> Fits(c, After(c, h[..n], env[..n]), h[n].total + OVERHEAD)
  {
    var n := |h| - 1;
    TrafficPrefix(c, h, msgs, chunk);
    OpenIsAssembled(c, h[..n], env[..n], msgs, chunk);
    if h[n].flags.begin && !h[n].flags.end {
      FirstFrameDemands(c, h, msgs, chunk);
    }
  }

  lemma {:induction false} FirstFrameDemands(c: Config, h: seq<Frame>, msgs: map<Key, Outgoing>, chunk: nat)
    requires Traffic(c, h, msgs, chunk) && |h| > 0
    requires var f := h[|h| - 1]; f.flags.begin && !f.flags.end
    ensures
      var n := |h| - 1;
      Demand(OpenKeys(h, msgs, chunk), msgs) == h[n].total + OVERHEAD + Demand(OpenKeys(h[..n], msgs, chunk), msgs)
  {
    var n := |h| - 1;
    var k := h[n].MessageKey();
    FirstFrameOpens(c, h, msgs, chunk);
    var before, after := OpenKeys(h[..n], msgs, chunk), OpenKeys(h, msgs, chunk);
    DemandOf(after, msgs, k);
    assert after - {k} == before;
  }

  /** The budget is enough exactly if the messages open at the same time fit it: then, and only
      then, no message is refused or reclaimed, whatever the interleaving and the sweeps. */
  lemma {:induction false} NoneLostIffFits(c: Config, h: seq<Frame>, env: seq<Env>, msgs: map<Key, Outgoing>, chunk: nat)
    requires c.Valid() && |env| == |h| && Traffic(c, h, msgs, chunk)
    ensures NoneLost(c, h, env, msgs) <==> FitsBudget(c, h, msgs, chunk)
  {
    if FitsBudget(c, h, msgs, chunk) {
      FittingLosesNone(c, h, env, msgs, chunk);
    }
    if NoneLost(c, h, env, msgs) {
      forall n | 0 <= n <= |h| ensures Demand(OpenKeys(h[..n], msgs, chunk), msgs) <= c.maxReassemblyBytes {
        TrafficTake(c, h, msgs, chunk, n);
        forall k | k in msgs ensures !Lost(c, h[..n], env[..n], k) {
          if Lost(c, h[..n], env[..n], k) {
            LostForever(c, h, env, k, n);
          }
        }
        OpenIsAssembled(c, h[..n], env[..n], msgs, chunk);
      }
    }
  }

  /** End to end: if the messages open at the same time fit the budget, every message all of
      whose frames arrived was delivered, by the frame h[j]. */
  lemma {:induction false} FittingMessagesAreDelivered(
    c: Config, h: seq<Frame>, env: seq<Env>, msgs: map<Key, Outgoing>, chunk: nat, k: Key) returns (j: nat)
    requires c.Valid() && |env| == |h| && Traffic(c, h, msgs, chunk) && FitsBudget(c, h, msgs, chunk) && k in msgs
    requires InProgress(Proj(h, k), msgs[k], chunk) && AllSent(msgs[k], chunk, |Proj(h, k)|)
    ensures j < |h| && h[j].MessageKey() == k && Delivers(OutcomeAt(c, h, env, j), msgs[k])
  {
    NoneLostIffFits(c, h, env, msgs, chunk);
    j := CompleteMessagesAreDelivered(c, h, env, msgs, chunk, k);
  }
}
