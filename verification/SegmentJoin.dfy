/** What a Secondary knows of the segment it joined: it compared every word of the geometry, and
    if the segment was not initialized anew since then, it has the geometry of the Primary. */
module SegmentJoin {
  import opened Wire
  import opened Segment
  import opened SegmentCrash

  /** How many words of the geometry the endpoint has compared. */
  function Compared(pc: Pc): nat {
    if pc.CompareGeometry? then pc.i else if pc.LoadSecondary? || pc.Join? || IsSecondary(pc) then 4 else 0
  }

  /** Step i of the run is the comparison of word j by endpoint e, with success. */
  ghost predicate ComparesAt(states: seq<State>, actions: seq<Action>, i: nat, e: nat, j: nat)
    requires |states| == |actions| + 1 && j < 4
  {
    i < |actions| && actions[i].Act? && actions[i].e == e && e in states[i].eps && |states[i].eps[e].geo| == 4 &&
    states[i].eps[e].pc == CompareGeometry(j) && states[i].mem[GEOMETRY + j] == states[i].eps[e].geo[j]
  }

  /** The steps at which e compared the first words, in order. */
  ghost predicate Comparisons(states: seq<State>, actions: seq<Action>, steps: seq<nat>, e: nat)
    requires |states| == |actions| + 1
  {
    |steps| <= 4 && (forall i, j :: 0 <= i < j < |steps| ==> steps[i] < steps[j]) &&
    forall j :: 0 <= j < |steps| ==> ComparesAt(states, actions, steps[j], e, j)
  }

  lemma {:induction false} ComparedClaim(ep: Endpoint, words: nat, b: bool, c: bool, x: nat)
    requires Claiming(ep.pc) && InRange(ep, words)
    ensures
      var next := AfterClaim(ep, words, b, c, x).pc;
      Compared(next) > 0 ==>
        (Compared(next) == Compared(ep.pc) && !ep.pc.CompareGeometry?) ||
        (ep.pc.CompareGeometry? && Compared(next) == ep.pc.i + 1 && x == ep.geo[ep.pc.i])
  {
  }

  lemma {:induction false} ComparedWork(e: nat, ep: Endpoint, b: bool, c: bool, x: nat)
    requires !Claiming(ep.pc) && !Halted(ep.pc)
    ensures Compared(AfterWork(e, ep, b, c, x).pc) > 0 ==> Compared(ep.pc) == Compared(AfterWork(e, ep, b, c, x).pc)
  {
  }

  /** One step back: e had compared as much before, or this step compares the last word. */
  lemma {:induction false} ComparedBack(s: State, a: Action, e: nat)
    requires Enabled(s, a) && e in Apply(s, a).eps && Compared(Apply(s, a).eps[e].pc) > 0 && (e in s.eps ==> InRange(s.eps[e], |s.mem|))
    ensures
      var n := Compared(Apply(s, a).eps[e].pc);
      e in s.eps && s.eps[e].geo == Apply(s, a).eps[e].geo &&
      (Compared(s.eps[e].pc) == n ||
       (a.Act? && a.e == e && s.eps[e].pc == CompareGeometry(n - 1) && n <= 4 && s.mem[GEOMETRY + (n - 1)] == s.eps[e].geo[n - 1]))
  {
    if a.Act? && a.e == e {
      var x := Returned(s.mem, OpOf(s, a));
      SameEndpoint(e, s.eps[e], |s.mem|, a.b, a.c, x);
      if Claiming(s.eps[e].pc) {
        ComparedClaim(s.eps[e], |s.mem|, a.b, a.c, x);
      } else {
        ComparedWork(e, s.eps[e], a.b, a.c, x);
      }
    }
  }

  /** In every run, an endpoint past a comparison made it, and those before, in order. */
  lemma {:induction false} ComparedInOrder(states: seq<State>, actions: seq<Action>, n: nat, e: nat) returns (steps: seq<nat>)
    requires IsRun(states, actions) && n < |states| && e in states[n].eps
    ensures |steps| == Compared(states[n].eps[e].pc) && Comparisons(states, actions, steps, e)
    ensures forall i :: 0 <= i < |steps| ==> steps[i] < n && states[steps[i]].eps[e].geo == states[n].eps[e].geo
  {
    var k := Compared(states[n].eps[e].pc);
    if k == 0 {
      steps := [];
    } else {
      assert StepAt(states, actions, n - 1);
      if e in states[n - 1].eps {
        RunInRange(states, actions, n - 1, e);
      }
      ComparedBack(states[n - 1], actions[n - 1], e);
      steps := ComparedInOrder(states, actions, n - 1, e);
      if Compared(states[n - 1].eps[e].pc) != k {
        assert ComparesAt(states, actions, n - 1, e, k - 1);
        OneMoreComparison(states, actions, steps, e, n - 1);
        steps := steps + [n - 1];
      }
    }
  }

  lemma {:induction false} OneMoreComparison(states: seq<State>, actions: seq<Action>, steps: seq<nat>, e: nat, i: nat)
    requires |states| == |actions| + 1 && Comparisons(states, actions, steps, e) && |steps| < 4
    requires ComparesAt(states, actions, i, e, |steps|) && forall j :: 0 <= j < |steps| ==> steps[j] < i
    ensures Comparisons(states, actions, steps + [i], e)
  {
  }

  /** Step i of the run is the successful join of e. */
  ghost predicate JoinsAt(states: seq<State>, actions: seq<Action>, i: nat, e: nat)
    requires |states| == |actions| + 1
  {
    i < |actions| && actions[i].Act? && actions[i].e == e && e in states[i].eps && states[i].eps[e].pc == Join &&
    states[i].mem[SECONDARY] == 0
  }

  lemma {:induction false} SecondaryBack(s: State, a: Action, e: nat)
    requires Enabled(s, a) && e in Apply(s, a).eps && IsSecondary(Apply(s, a).eps[e].pc)
    ensures e in s.eps && s.eps[e].geo == Apply(s, a).eps[e].geo
    ensures IsSecondary(s.eps[e].pc) || (a.Act? && a.e == e && s.eps[e].pc == Join && s.mem[SECONDARY] == 0)
  {
    if a.Act? && a.e == e {
      var x := Returned(s.mem, OpOf(s, a));
      SameEndpoint(e, s.eps[e], |s.mem|, a.b, a.c, x);
      if Claiming(s.eps[e].pc) {
        NewPartClaim(s.eps[e], |s.mem|, a.b, a.c, x);
      } else {
        NewPartWork(e, s.eps[e], a.b, a.c, x);
      }
    }
  }

  lemma {:induction false} JoinOf(states: seq<State>, actions: seq<Action>, n: nat, e: nat) returns (join: nat)
    requires IsRun(states, actions) && n < |states| && e in states[n].eps && IsSecondary(states[n].eps[e].pc)
    ensures join < n && JoinsAt(states, actions, join, e) && states[join].eps[e].geo == states[n].eps[e].geo
  {
    assert StepAt(states, actions, n - 1);
    SecondaryBack(states[n - 1], actions[n - 1], e);
    if IsSecondary(states[n - 1].eps[e].pc) {
      join := JoinOf(states, actions, n - 1, e);
    } else {
      join := n - 1;
    }
  }

  /** In every run, a Secondary compared all four words of the geometry with its own, one after
      the other, before it joined. */
  lemma {:induction false} SecondaryComparedGeometry(states: seq<State>, actions: seq<Action>, n: nat, e: nat)
    returns (steps: seq<nat>, join: nat)
    requires IsRun(states, actions) && n < |states| && e in states[n].eps && IsSecondary(states[n].eps[e].pc)
    ensures |steps| == 4 && Comparisons(states, actions, steps, e) && steps[3] < join < n && JoinsAt(states, actions, join, e)
    ensures forall i :: 0 <= i < 4 ==> states[steps[i]].eps[e].geo == states[n].eps[e].geo
  {
    join := JoinOf(states, actions, n, e);
    steps := ComparedInOrder(states, actions, join, e);
  }

  // ------------------------------------------------------- the same initialization

  /** The geometry in the segment is complete: it is Ready or about to be. */
  ghost predicate Published(s: State) {
    s.mem[STATE] == READY || exists f :: f in s.eps && s.eps[f].pc.MarkReady?
  }

  lemma {:induction false} EpochGrows(s: State, a: Action)
    requires Enabled(s, a)
    ensures Apply(s, a).mem[EPOCH] >= s.mem[EPOCH]
    ensures a.Act? && s.eps[a.e].pc == Bump ==> Apply(s, a).mem[EPOCH] > s.mem[EPOCH]
  {
  }

  lemma {:induction false} MarkReadyFromBump(e: nat, ep: Endpoint, words: nat, b: bool, c: bool, x: nat)
    requires !Halted(ep.pc) && After(e, ep, words, b, c, x).pc.MarkReady?
    ensures ep.pc == Bump
  {
  }

  /** Only an owner that publishes writes the geometry, and only one about to mark it makes the
      segment Ready. */
  lemma {:induction false} GeometryStore(m: Memory, e: nat, ep: Endpoint, b: bool, v: nat)
    requires |ep.geo| == 4 && OpOk(m, Access(e, ep, b, v))
    ensures
      var n := Exec(m, Access(e, ep, b, v));
      |n| == |m| && (n[STATE] == READY ==> m[STATE] == READY || ep.pc.MarkReady?) &&
      (!ep.pc.Publish? ==> forall i :: GEOMETRY <= i < GEOMETRY + 4 ==> n[i] == m[i])
  {
  }

  /** As long as the epoch stays, a published geometry was published before, and is the same. */
  lemma {:induction false} PublishedBack(s: State, a: Action, r: Parts)
    requires Invariant(s, r) && Enabled(s, a) && Published(Apply(s, a)) && Apply(s, a).mem[EPOCH] == s.mem[EPOCH]
    ensures Published(s) && forall i :: GEOMETRY <= i < GEOMETRY + 4 ==> Apply(s, a).mem[i] == s.mem[i]
  {
    var t := Apply(s, a);
    EpochGrows(s, a);
    if a.Act? {
      var ep := s.eps[a.e];
      GeometryStore(s.mem, a.e, ep, a.b, a.v);
      if t.mem[STATE] != READY {
        var f :| f in t.eps && t.eps[f].pc.MarkReady?;
        if f == a.e {
          MarkReadyFromBump(a.e, ep, |s.mem|, a.b, a.c, Returned(s.mem, OpOf(s, a)));
        }
        assert f in s.eps && s.eps[f].pc.MarkReady?;
      }
      assert Published(s);
      PublisherIsAlone(s, a.e, r);
    }
  }

  lemma {:induction false} PublisherIsAlone(s: State, e: nat, r: Parts)
    requires Invariant(s, r) && Published(s) && e in s.eps
    ensures !s.eps[e].pc.Publish?
  {
    assert EndpointOk(s.mem, e, s.eps[e], r);
    if f :| f in s.eps && s.eps[f].pc.MarkReady? {
      assert EndpointOk(s.mem, f, s.eps[f], r);
    }
  }

  lemma {:induction false} EpochBetween(states: seq<State>, actions: seq<Action>, i: nat, n: nat)
    requires IsRun(states, actions) && i <= n < |states|
    ensures states[i].mem[EPOCH] <= states[n].mem[EPOCH]
  {
    if i < n {
      EpochBetween(states, actions, i, n - 1);
      assert StepAt(states, actions, n - 1);
      EpochGrows(states[n - 1], actions[n - 1]);
    }
  }

  lemma {:induction false} PublishedSince(states: seq<State>, actions: seq<Action>, i: nat, n: nat)
    requires IsCrashRun(states, actions) && i <= n < |states| && Published(states[n]) && states[i].mem[EPOCH] == states[n].mem[EPOCH]
    ensures Published(states[i]) && forall w :: GEOMETRY <= w < GEOMETRY + 4 ==> states[i].mem[w] == states[n].mem[w]
  {
    if i < n {
      assert StepAt(states, actions, n - 1);
      EpochBetween(states, actions, i, n - 1);
      EpochGrows(states[n - 1], actions[n - 1]);
      var r := RunKeepsInvariant(states, actions, n - 1);
      PublishedBack(states[n - 1], actions[n - 1], r);
      PublishedSince(states, actions, i, n - 1);
    }
  }

  lemma {:induction false} WordStays(states: seq<State>, actions: seq<Action>, first: nat, i: nat, n: nat, w: nat)
    requires IsCrashRun(states, actions) && first <= i <= n < |states| && states[first].mem[EPOCH] == states[n].mem[EPOCH]
    requires Published(states[n]) && GEOMETRY <= w < GEOMETRY + 4
    ensures states[i].mem[w] == states[n].mem[w]
  {
    EpochBetween(states, actions, first, i);
    EpochBetween(states, actions, i, n);
    PublishedSince(states, actions, i, n);
  }

  /** If the epoch has not changed since the first comparison, the segment has the geometry of its
      Secondary, and so has a Primary. */
  lemma {:induction false} SecondaryHasGeometry(states: seq<State>, actions: seq<Action>, n: nat, e: nat, steps: seq<nat>, p: nat)
    requires IsCrashRun(states, actions) && n < |states| && e in states[n].eps && IsSecondary(states[n].eps[e].pc)
    requires |steps| == 4 && Comparisons(states, actions, steps, e) && steps[3] < n
    requires forall i :: 0 <= i < 4 ==> states[steps[i]].eps[e].geo == states[n].eps[e].geo
    requires states[steps[0]].mem[EPOCH] == states[n].mem[EPOCH]
    ensures states[n].mem[GEOMETRY..GEOMETRY + 4] == states[n].eps[e].geo
    ensures p in states[n].eps && IsPrimary(states[n].eps[p].pc) ==> states[n].eps[p].geo == states[n].eps[e].geo
  {
    var s := states[n];
    var r := RunKeepsInvariant(states, actions, n);
    assert EndpointOk(s.mem, e, s.eps[e], r);
    forall j | 0 <= j < 4 ensures s.mem[GEOMETRY + j] == s.eps[e].geo[j] {
      assert ComparesAt(states, actions, steps[j], e, j);
      WordStays(states, actions, steps[0], steps[j], n, GEOMETRY + j);
    }
    PrimaryHasGeometry(s, p, r);
  }

  lemma {:induction false} PrimaryHasGeometry(s: State, p: nat, r: Parts)
    requires Invariant(s, r)
    ensures p in s.eps && IsPrimary(s.eps[p].pc) ==> s.mem[GEOMETRY..GEOMETRY + 4] == s.eps[p].geo
  {
    if p in s.eps && IsPrimary(s.eps[p].pc) {
      assert EndpointOk(s.mem, p, s.eps[p], r);
    }
  }
}
