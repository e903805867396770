/** What an endpoint has seen before it claims a segment, in every run and whatever the others do:
    a page of zeros, two dead endpoints, or an initializer without progress. */
module SegmentClaim {
  import opened Wire
  import opened Segment
  import opened SegmentCrash
  import opened SegmentJoin

  /** Step i of the run is a step of e at pc that returns x. */
  ghost predicate Reads(states: seq<State>, actions: seq<Action>, i: nat, e: nat, pc: Pc, w: nat, x: nat)
    requires |states| == |actions| + 1
  {
    i < |actions| && actions[i].Act? && actions[i].e == e && e in states[i].eps && states[i].eps[e].pc == pc &&
    w < |states[i].mem| && states[i].mem[w] == x
  }

  /** The step of e that led to states[n], if its last step was step n - 1. */
  ghost predicate Moved(states: seq<State>, actions: seq<Action>, n: nat, e: nat)
    requires |states| == |actions| + 1
  {
    0 < n <= |actions| && actions[n - 1].Act? && actions[n - 1].e == e
  }

  lemma {:induction false} StoodStill(states: seq<State>, actions: seq<Action>, n: nat, e: nat)
    requires IsRun(states, actions) && 0 < n < |states| && e in states[n].eps && !Moved(states, actions, n, e)
    ensures states[n].eps[e].pc == Crashed || states[n].eps[e] == Endpoint(states[n].eps[e].role, states[n].eps[e].geo, Poll, None) ||
      (e in states[n - 1].eps && states[n - 1].eps[e] == states[n].eps[e])
  {
    assert StepAt(states, actions, n - 1);
  }

  lemma {:induction false} StepIs(states: seq<State>, actions: seq<Action>, n: nat, e: nat)
    requires IsRun(states, actions) && n < |states| && Moved(states, actions, n, e)
    ensures e in states[n - 1].eps && e in states[n].eps && !Halted(states[n - 1].eps[e].pc) && |states[n - 1].eps[e].geo| == 4
    ensures
      var s, a := states[n - 1], actions[n - 1];
      OpOk(s.mem, Access(e, s.eps[e], a.b, a.v)) &&
      states[n].eps[e] == After(e, s.eps[e], |s.mem|, a.b, a.c, Returned(s.mem, Access(e, s.eps[e], a.b, a.v))) &&
      states[n].eps[e].role == s.eps[e].role && |states[n].mem| == |s.mem|
  {
    assert StepAt(states, actions, n - 1);
    var s, a := states[n - 1], actions[n - 1];
    SameEndpoint(e, s.eps[e], |s.mem|, a.b, a.c, Returned(s.mem, OpOf(s, a)));
  }

  lemma {:induction false} PageStays(states: seq<State>, actions: seq<Action>, n: nat)
    requires IsRun(states, actions) && n < |actions|
    ensures |states[n + 1].mem| == |states[n].mem|
  {
    assert StepAt(states, actions, n);
  }

  // ------------------------------------------------------------------ an empty page

  /** How many words of the page e has found zero. */
  function Scanned(pc: Pc, words: nat): nat {
    if pc.Scan? then pc.i else if pc.ClaimEmpty? then words else 0
  }

  lemma {:induction false} ScanStep(e: nat, ep: Endpoint, words: nat, b: bool, c: bool, x: nat)
    requires !Halted(ep.pc)
    ensures
      var next := After(e, ep, words, b, c, x).pc;
      Scanned(next, words) > 0 && words > 0 ==>
        (ep.pc.Scan? && x == 0 && (next == Scan(ep.pc.i + 1) || (next.ClaimEmpty? && ep.pc.i + 1 >= words)))
  {
  }

  /** An endpoint that claims an empty segment has found every word of the page zero. */
  lemma {:induction false} ClaimedPageWasZero(states: seq<State>, actions: seq<Action>, n: nat, e: nat, w: nat) returns (i: nat)
    requires IsRun(states, actions) && n < |states| && e in states[n].eps
    requires w < Scanned(states[n].eps[e].pc, |states[n].mem|) && w < |states[n].mem|
    ensures i < n && Reads(states, actions, i, e, Scan(w), w, 0)
  {
    if n > 0 {
      PageStays(states, actions, n - 1);
    }
    if !Moved(states, actions, n, e) {
      StoodStill(states, actions, n, e);
      i := ClaimedPageWasZero(states, actions, n - 1, e, w);
    } else {
      var s, a := states[n - 1], actions[n - 1];
      StepIs(states, actions, n, e);
      ScanStep(e, s.eps[e], |s.mem|, a.b, a.c, Returned(s.mem, Access(e, s.eps[e], a.b, a.v)));
      if w == s.eps[e].pc.i {
        i := n - 1;
      } else {
        RunInRange(states, actions, n - 1, e);
        i := ClaimedPageWasZero(states, actions, n - 1, e, w);
      }
    }
  }

  // --------------------------------------------------------------- liveness verdicts

  /** Step i is the verdict of e about both endpoints of a Ready segment. */
  ghost predicate JudgesAt(states: seq<State>, actions: seq<Action>, i: nat, e: nat, primary: bool, secondary: bool)
    requires |states| == |actions| + 1
  {
    i < |actions| && actions[i].Act? && actions[i].e == e && e in states[i].eps && states[i].eps[e].pc == JudgeAlive &&
    actions[i].b == primary && actions[i].c == secondary
  }

  predicate Joining(pc: Pc) {
    pc.CompareGeometry? || pc.LoadSecondary? || pc.Join? || IsSecondary(pc)
  }

  lemma {:induction false} JoiningStep(e: nat, ep: Endpoint, words: nat, b: bool, c: bool, x: nat)
    requires !Halted(ep.pc) && Joining(After(e, ep, words, b, c, x).pc)
    ensures Joining(ep.pc) || (ep.pc.JudgeAlive? && b && ep.role != RoleCreator)
  {
    if Claiming(ep.pc) {
      JoiningClaim(ep, words, b, c, x);
    } else {
      JoiningWork(e, ep, b, c, x);
    }
  }

  lemma {:induction false} JoiningClaim(ep: Endpoint, words: nat, b: bool, c: bool, x: nat)
    requires Claiming(ep.pc) && Joining(AfterClaim(ep, words, b, c, x).pc)
    ensures Joining(ep.pc) || (ep.pc.JudgeAlive? && b && ep.role != RoleCreator)
  {
  }

  lemma {:induction false} JoiningWork(e: nat, ep: Endpoint, b: bool, c: bool, x: nat)
    requires !Claiming(ep.pc) && !Halted(ep.pc) && Joining(AfterWork(e, ep, b, c, x).pc)
    ensures Joining(ep.pc)
  {
  }

  /** Who joins judged the Primary alive before, and is no creator. */
  lemma {:induction false} JoinsLivePrimary(states: seq<State>, actions: seq<Action>, n: nat, e: nat) returns (i: nat)
    requires IsRun(states, actions) && n < |states| && e in states[n].eps && Joining(states[n].eps[e].pc)
    ensures i < n && states[n].eps[e].role != RoleCreator
    ensures JudgesAt(states, actions, i, e, true, false) || JudgesAt(states, actions, i, e, true, true)
  {
    if !Moved(states, actions, n, e) {
      StoodStill(states, actions, n, e);
      i := JoinsLivePrimary(states, actions, n - 1, e);
    } else {
      var s, a := states[n - 1], actions[n - 1];
      StepIs(states, actions, n, e);
      JoiningStep(e, s.eps[e], |s.mem|, a.b, a.c, Returned(s.mem, Access(e, s.eps[e], a.b, a.v)));
      if Joining(s.eps[e].pc) {
        i := JoinsLivePrimary(states, actions, n - 1, e);
      } else {
        i := n - 1;
      }
    }
  }

  lemma {:induction false} DeadStep(e: nat, ep: Endpoint, words: nat, b: bool, c: bool, x: nat)
    requires !Halted(ep.pc) && After(e, ep, words, b, c, x).pc.ClaimDead?
    ensures ep.pc.JudgeAlive? && !b && !c && ep.role != RoleOpener
  {
  }

  /** Who claims a Ready segment just judged both of its endpoints dead, and is no opener. */
  lemma {:induction false} ClaimsDeadSegment(states: seq<State>, actions: seq<Action>, n: nat, e: nat) returns (i: nat)
    requires IsRun(states, actions) && n < |states| && e in states[n].eps && states[n].eps[e].pc == ClaimDead
    ensures i < n && states[n].eps[e].role != RoleOpener && JudgesAt(states, actions, i, e, false, false)
  {
    if !Moved(states, actions, n, e) {
      StoodStill(states, actions, n, e);
      i := ClaimsDeadSegment(states, actions, n - 1, e);
    } else {
      var s, a := states[n - 1], actions[n - 1];
      StepIs(states, actions, n, e);
      DeadStep(e, s.eps[e], |s.mem|, a.b, a.c, Returned(s.mem, Access(e, s.eps[e], a.b, a.v)));
      i := n - 1;
    }
  }

  // --------------------------------------------------------------- no progress

  /** e read token tok at step i and heartbeat hb at step j. */
  ghost predicate Sight(states: seq<State>, actions: seq<Action>, i: nat, j: nat, e: nat, tok: nat, hb: nat)
    requires |states| == |actions| + 1
  {
    i < j && Reads(states, actions, i, e, SeeToken, INIT_TOKEN, tok) && Reads(states, actions, j, e, SeeBeat(tok), INIT_BEAT, hb)
  }

  ghost predicate PollsAt(states: seq<State>, actions: seq<Action>, i: nat, e: nat)
    requires |states| == |actions| + 1
  {
    i < |actions| && actions[i].Act? && actions[i].e == e && e in states[i].eps && states[i].eps[e].pc == Poll
  }

  /** Whenever e looked at the state word from step i up to step n, the segment was being initialized. */
  ghost predicate SawInitializing(states: seq<State>, actions: seq<Action>, i: nat, n: nat, e: nat)
    requires |states| == |actions| + 1
  {
    n <= i ||
    (SawInitializing(states, actions, i, n - 1, e) && (PollsAt(states, actions, n - 1, e) ==> states[n - 1].mem[STATE] == INITIALIZING))
  }

  lemma {:induction false} SawOn(states: seq<State>, actions: seq<Action>, i: nat, j: nat, n: nat, e: nat)
    requires |states| == |actions| + 1 && i <= j <= n
    requires SawInitializing(states, actions, i, j, e) && SawInitializing(states, actions, j, n, e)
    ensures SawInitializing(states, actions, i, n, e)
  {
    if j < n {
      SawOn(states, actions, i, j, n - 1, e);
    }
  }

  /** On the way from a sight to its judgement. */
  predicate Carries(pc: Pc, tok: nat, hb: nat) {
    pc == CheckRequired(false, tok, hb) || pc == CheckMagic(false, tok, hb) || pc == CheckMajor(false, tok, hb) ||
    pc == CheckToken(tok, hb) || pc == Judge(tok, hb)
  }

  lemma {:induction false} CarriesStep(e: nat, ep: Endpoint, words: nat, b: bool, c: bool, x: nat, tok: nat, hb: nat)
    requires !Halted(ep.pc) && Carries(After(e, ep, words, b, c, x).pc, tok, hb)
    ensures After(e, ep, words, b, c, x).watch == ep.watch
    ensures Carries(ep.pc, tok, hb) || (ep.pc == SeeBeat(tok) && x == hb)
  {
    if Claiming(ep.pc) {
      CarriesClaim(ep, words, b, c, x, tok, hb);
    } else {
      WorkCarriesNothing(e, ep, b, c, x, tok, hb);
    }
  }

  lemma {:induction false} CarriesClaim(ep: Endpoint, words: nat, b: bool, c: bool, x: nat, tok: nat, hb: nat)
    requires Claiming(ep.pc) && Carries(AfterClaim(ep, words, b, c, x).pc, tok, hb)
    ensures AfterClaim(ep, words, b, c, x).watch == ep.watch
    ensures Carries(ep.pc, tok, hb) || (ep.pc == SeeBeat(tok) && x == hb)
  {
  }

  lemma {:induction false} WorkCarriesNothing(e: nat, ep: Endpoint, b: bool, c: bool, x: nat, tok: nat, hb: nat)
    requires !Claiming(ep.pc) && !Halted(ep.pc)
    ensures !Carries(AfterWork(e, ep, b, c, x).pc, tok, hb)
  {
  }

  lemma {:induction false} BeatStep(e: nat, ep: Endpoint, words: nat, b: bool, c: bool, x: nat, tok: nat)
    requires !Halted(ep.pc) && After(e, ep, words, b, c, x).pc == SeeBeat(tok)
    ensures After(e, ep, words, b, c, x).watch == ep.watch && ep.pc == SeeToken && x == tok
  {
  }

  lemma {:induction false} WatchStep(e: nat, ep: Endpoint, words: nat, b: bool, c: bool, x: nat, tok: nat, hb: nat)
    requires !Halted(ep.pc) && After(e, ep, words, b, c, x).watch == Some((tok, hb)) && !Halted(After(e, ep, words, b, c, x).pc)
    ensures ep.watch == Some((tok, hb)) || ep.pc == Judge(tok, hb)
    ensures ep.pc == Poll ==> x == INITIALIZING
  {
  }

  lemma {:induction false} TakeoverStep(e: nat, ep: Endpoint, words: nat, b: bool, c: bool, x: nat)
    requires !Halted(ep.pc)
    ensures
      var next := After(e, ep, words, b, c, x);
      (next.pc.Stamp? || next.pc.Swap?) && next.pc.takeover ==>
        ((ep.pc.Stamp? || ep.pc.Swap?) && ep.pc.takeover && ep.pc.expected == next.pc.expected && ep.watch == next.watch) ||
        (ep.pc.Judge? && b && ep.role != RoleOpener && ep.pc.tok == next.pc.expected && ep.watch == Some((ep.pc.tok, ep.pc.hb)))
  {
    if Claiming(ep.pc) {
      TakeoverClaim(ep, words, b, c, x);
    } else {
      TakeoverWork(e, ep, b, c, x);
    }
  }

  lemma {:induction false} TakeoverClaim(ep: Endpoint, words: nat, b: bool, c: bool, x: nat)
    requires Claiming(ep.pc)
    ensures
      var next := AfterClaim(ep, words, b, c, x);
      (next.pc.Stamp? || next.pc.Swap?) && next.pc.takeover ==>
        ep.pc.Judge? && b && ep.role != RoleOpener && ep.pc.tok == next.pc.expected && ep.watch == Some((ep.pc.tok, ep.pc.hb))
  {
  }

  lemma {:induction false} TakeoverWork(e: nat, ep: Endpoint, b: bool, c: bool, x: nat)
    requires !Claiming(ep.pc) && !Halted(ep.pc)
    ensures
      var next := AfterWork(e, ep, b, c, x);
      (next.pc.Stamp? || next.pc.Swap?) && next.pc.takeover ==>
        (ep.pc.Stamp? || ep.pc.Swap?) && ep.pc.takeover && ep.pc.expected == next.pc.expected && ep.watch == next.watch
  {
  }

  /** The step at which e read the token it knows, and its watch since. */
  lemma {:induction false} TokenSeen(states: seq<State>, actions: seq<Action>, n: nat, e: nat, tok: nat) returns (i: nat)
    requires IsRun(states, actions) && n < |states| && e in states[n].eps && states[n].eps[e].pc == SeeBeat(tok)
    ensures i < n && Reads(states, actions, i, e, SeeToken, INIT_TOKEN, tok) && states[i].eps[e].watch == states[n].eps[e].watch
    ensures SawInitializing(states, actions, i, n, e)
  {
    if !Moved(states, actions, n, e) {
      StoodStill(states, actions, n, e);
      i := TokenSeen(states, actions, n - 1, e, tok);
    } else {
      var s, a := states[n - 1], actions[n - 1];
      StepIs(states, actions, n, e);
      BeatStep(e, s.eps[e], |s.mem|, a.b, a.c, Returned(s.mem, Access(e, s.eps[e], a.b, a.v)), tok);
      i := n - 1;
      assert SawInitializing(states, actions, i, i, e);
    }
  }

  /** What e carries it has seen. */
  lemma {:induction false} CarriedWasSeen(states: seq<State>, actions: seq<Action>, n: nat, e: nat, tok: nat, hb: nat)
    returns (i: nat, j: nat)
    requires IsRun(states, actions) && n < |states| && e in states[n].eps && Carries(states[n].eps[e].pc, tok, hb)
    ensures i < j < n && Sight(states, actions, i, j, e, tok, hb) && states[i].eps[e].watch == states[n].eps[e].watch
    ensures SawInitializing(states, actions, i, n, e)
  {
    if !Moved(states, actions, n, e) {
      StoodStill(states, actions, n, e);
      i, j := CarriedWasSeen(states, actions, n - 1, e, tok, hb);
    } else {
      var s, a := states[n - 1], actions[n - 1];
      StepIs(states, actions, n, e);
      CarriesStep(e, s.eps[e], |s.mem|, a.b, a.c, Returned(s.mem, Access(e, s.eps[e], a.b, a.v)), tok, hb);
      if Carries(s.eps[e].pc, tok, hb) {
        i, j := CarriedWasSeen(states, actions, n - 1, e, tok, hb);
      } else {
        i := TokenSeen(states, actions, n - 1, e, tok);
        j := n - 1;
      }
    }
  }

  /** What e remembers it has seen. */
  lemma {:induction false} RememberedWasSeen(states: seq<State>, actions: seq<Action>, n: nat, e: nat, tok: nat, hb: nat)
    returns (i: nat, j: nat)
    requires IsRun(states, actions) && n < |states| && e in states[n].eps && states[n].eps[e].watch == Some((tok, hb))
    requires !Halted(states[n].eps[e].pc)
    ensures i < j < n && Sight(states, actions, i, j, e, tok, hb) && SawInitializing(states, actions, i, n, e)
  {
    assert n > 0;
    assert StepAt(states, actions, n - 1);
    if !Moved(states, actions, n, e) {
      assert e in states[n - 1].eps && states[n - 1].eps[e] == states[n].eps[e];
      i, j := RememberedWasSeen(states, actions, n - 1, e, tok, hb);
    } else {
      var s, a := states[n - 1], actions[n - 1];
      StepIs(states, actions, n, e);
      WatchStep(e, s.eps[e], |s.mem|, a.b, a.c, Returned(s.mem, Access(e, s.eps[e], a.b, a.v)), tok, hb);
      if s.eps[e].watch == Some((tok, hb)) {
        i, j := RememberedWasSeen(states, actions, n - 1, e, tok, hb);
      } else {
        i, j := CarriedWasSeen(states, actions, n - 1, e, tok, hb);
      }
    }
  }

  lemma {:induction false} JudgeSawTwice(states: seq<State>, actions: seq<Action>, n: nat, e: nat)
    returns (i: nat, j: nat, i': nat, j': nat)
    requires IsRun(states, actions) && n < |states| && e in states[n].eps && states[n].eps[e].pc.Judge?
    requires states[n].eps[e].watch == Some((states[n].eps[e].pc.tok, states[n].eps[e].pc.hb))
    ensures i < j < i' < j' < n && SawInitializing(states, actions, i, n, e)
    ensures
      var tok, hb := states[n].eps[e].pc.tok, states[n].eps[e].pc.hb;
      Sight(states, actions, i, j, e, tok, hb) && Sight(states, actions, i', j', e, tok, hb)
  {
    var tok, hb := states[n].eps[e].pc.tok, states[n].eps[e].pc.hb;
    i', j' := CarriedWasSeen(states, actions, n, e, tok, hb);
    i, j := RememberedWasSeen(states, actions, i', e, tok, hb);
    SawOn(states, actions, i, i', n, e);
  }

  /** Who takes over an initialization is no opener, and saw the token it replaces twice, one sight
      after the other, with the same heartbeat; and whenever it looked at the state word since the
      first sight, the segment was being initialized. */
  lemma {:induction false} TakeoverSawNoProgress(states: seq<State>, actions: seq<Action>, n: nat, e: nat)
    returns (hb: nat, i: nat, j: nat, i': nat, j': nat)
    requires IsRun(states, actions) && n < |states| && e in states[n].eps
    requires (states[n].eps[e].pc.Stamp? || states[n].eps[e].pc.Swap?) && states[n].eps[e].pc.takeover
    ensures states[n].eps[e].role != RoleOpener && i < j < i' < j' < n
    ensures
      var tok := states[n].eps[e].pc.expected;
      Sight(states, actions, i, j, e, tok, hb) && Sight(states, actions, i', j', e, tok, hb)
    ensures SawInitializing(states, actions, i, n, e)
  {
    if !Moved(states, actions, n, e) {
      StoodStill(states, actions, n, e);
      hb, i, j, i', j' := TakeoverSawNoProgress(states, actions, n - 1, e);
    } else {
      var s, a := states[n - 1], actions[n - 1];
      StepIs(states, actions, n, e);
      TakeoverStep(e, s.eps[e], |s.mem|, a.b, a.c, Returned(s.mem, Access(e, s.eps[e], a.b, a.v)));
      if s.eps[e].pc.Judge? {
        hb := s.eps[e].pc.hb;
        i, j, i', j' := JudgeSawTwice(states, actions, n - 1, e);
      } else {
        hb, i, j, i', j' := TakeoverSawNoProgress(states, actions, n - 1, e);
      }
    }
  }
}
