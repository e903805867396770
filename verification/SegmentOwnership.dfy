/** What an endpoint has written before it counts as attached, and how it checks, before every group
    of writes, that the segment is still its own. Every run, whatever the others do. */
module SegmentOwnership {
  import opened Wire
  import opened Segment
  import opened SegmentCrash
  import opened SegmentJoin
  import opened SegmentClaim

  /** Step i of the run is a step of e at pc. */
  ghost predicate ActsAt(states: seq<State>, actions: seq<Action>, i: nat, e: nat, pc: Pc)
    requires |states| == |actions| + 1
  {
    i < |actions| && actions[i].Act? && actions[i].e == e && e in states[i].eps && states[i].eps[e].pc == pc
  }

  /** Step i of the run is a store of v in word w by e. */
  ghost predicate StoresAt(states: seq<State>, actions: seq<Action>, i: nat, e: nat, w: nat, v: nat)
    requires |states| == |actions| + 1
  {
    i < |actions| && actions[i].Act? && actions[i].e == e && OpOf(states[i], actions[i]) == Store(w, v)
  }

  /** e stored v in word w between the two steps. */
  ghost predicate Stored(states: seq<State>, actions: seq<Action>, from: nat, to: nat, e: nat, w: nat, v: nat)
    requires |states| == |actions| + 1
  {
    exists i: nat :: from < i < to && StoresAt(states, actions, i, e, w, v)
  }

  /** The same for a value that depends on process and time. */
  ghost predicate Filled(states: seq<State>, actions: seq<Action>, from: nat, to: nat, e: nat, w: nat)
    requires |states| == |actions| + 1
  {
    exists i: nat :: from < i < to && i < |actions| && StoresAt(states, actions, i, e, w, Value(actions[i]))
  }

  function Value(a: Action): nat {
    if a.Act? then a.v else 0
  }

  // -------------------------------------------------------------------- the stages

  /** How far e is as the initializer of the segment: three stamps, the token, the name of the creator,
      the first heartbeat, and sixteen stores of the superblock. */
  function Stage(pc: Pc): nat {
    match pc
    case Stamp(i, _, _) => i
    case Swap(_, _) => 3
    case StoreCreator => 4
    case StoreBeat => 5
    case Format => 6
    case FormatBeat => 6
    case Check(i) => 6 + i
    case Publish(i) => 6 + i
    case Commit => 22
    case Bump => 22
    case MarkReady(_) => 22
    case Linked(slot, _) => if slot.PrimarySlot? then 22 else 0
    case Beat(slot, _) => if slot.PrimarySlot? then 22 else 0
    case _ => 0
  }

  /** The places where a stage is left for the next. */
  predicate Leaves(pc: Pc, r: nat) {
    Stage(pc) == r && (pc.Stamp? || pc.Swap? || pc.StoreCreator? || pc.StoreBeat? || pc.Publish?)
  }

  /** The first store of the group that store i belongs to. */
  function Group(i: nat): nat {
    if i < 3 then 0 else if i < 7 then 3 else if i < 11 then 7 else if i < 15 then 11 else 15
  }

  predicate Counted(pc: Pc) {
    (pc.Stamp? ==> pc.i < 3) && (pc.Publish? || pc.Check? ==> pc.i < 16) && (pc.Check? ==> Group(pc.i) == pc.i)
  }

  lemma {:induction false} StageStep(e: nat, ep: Endpoint, words: nat, b: bool, c: bool, x: nat, r: nat)
    requires !Halted(ep.pc) && Counted(ep.pc) && Stage(After(e, ep, words, b, c, x).pc) > r
    ensures Stage(ep.pc) > r || (Leaves(ep.pc, r) && (r == 3 ==> x == 1))
  {
    if Claiming(ep.pc) {
      ClaimHasNoStage(ep, words, b, c, x);
    } else {
      WorkStage(e, ep, b, c, x, r);
    }
  }

  lemma {:induction false} ClaimHasNoStage(ep: Endpoint, words: nat, b: bool, c: bool, x: nat)
    requires Claiming(ep.pc)
    ensures Stage(AfterClaim(ep, words, b, c, x).pc) == 0
  {
  }

  lemma {:induction false} WorkStage(e: nat, ep: Endpoint, b: bool, c: bool, x: nat, r: nat)
    requires !Claiming(ep.pc) && !Halted(ep.pc) && Counted(ep.pc) && Stage(AfterWork(e, ep, b, c, x).pc) > r
    ensures Stage(ep.pc) > r || (Leaves(ep.pc, r) && (r == 3 ==> x == 1))
  {
  }

  lemma {:induction false} CountedStep(e: nat, ep: Endpoint, words: nat, b: bool, c: bool, x: nat)
    requires !Halted(ep.pc) && Counted(ep.pc)
    ensures Counted(After(e, ep, words, b, c, x).pc)
  {
  }

  lemma {:induction false} RunCounted(states: seq<State>, actions: seq<Action>, n: nat, e: nat)
    requires IsRun(states, actions) && n < |states| && e in states[n].eps
    ensures Counted(states[n].eps[e].pc)
  {
    assert n > 0;
    if Moved(states, actions, n, e) {
      var s, a := states[n - 1], actions[n - 1];
      StepIs(states, actions, n, e);
      RunCounted(states, actions, n - 1, e);
      CountedStep(e, s.eps[e], |s.mem|, a.b, a.c, Returned(s.mem, Access(e, s.eps[e], a.b, a.v)));
    } else {
      StoodStill(states, actions, n, e);
      if e in states[n - 1].eps && states[n - 1].eps[e] == states[n].eps[e] {
        RunCounted(states, actions, n - 1, e);
      }
    }
  }

  /** Step i is the one at which e, of geometry geo, leaves stage r; the token it replaced was there. */
  ghost predicate LeavesAt(states: seq<State>, actions: seq<Action>, i: nat, e: nat, geo: seq<nat>, r: nat)
    requires |states| == |actions| + 1
  {
    i < |actions| && actions[i].Act? && actions[i].e == e && e in states[i].eps && Leaves(states[i].eps[e].pc, r) &&
    Counted(states[i].eps[e].pc) && states[i].eps[e].geo == geo && |geo| == 4 &&
    (r == 3 ==> states[i].eps[e].pc.Swap? && states[i].mem[INIT_TOKEN] == states[i].eps[e].pc.expected)
  }

  lemma {:induction false} StageLeft(states: seq<State>, actions: seq<Action>, n: nat, e: nat, r: nat) returns (i: nat)
    requires IsRun(states, actions) && n < |states| && e in states[n].eps && Stage(states[n].eps[e].pc) > r
    ensures i < n && LeavesAt(states, actions, i, e, states[n].eps[e].geo, r)
  {
    assert n > 0;
    if !Moved(states, actions, n, e) {
      StoodStill(states, actions, n, e);
      i := StageLeft(states, actions, n - 1, e, r);
    } else {
      var s, a := states[n - 1], actions[n - 1];
      StepIs(states, actions, n, e);
      RunCounted(states, actions, n - 1, e);
      var x := Returned(s.mem, Access(e, s.eps[e], a.b, a.v));
      StageStep(e, s.eps[e], |s.mem|, a.b, a.c, x, r);
      SameEndpoint(e, s.eps[e], |s.mem|, a.b, a.c, x);
      if Stage(s.eps[e].pc) > r {
        i := StageLeft(states, actions, n - 1, e, r);
      } else {
        RunCounted(states, actions, n - 1, e);
        i := n - 1;
      }
    }
  }

  ghost predicate LeftBetween(states: seq<State>, actions: seq<Action>, from: nat, to: nat, e: nat, geo: seq<nat>, r: nat)
    requires |states| == |actions| + 1
  {
    exists i: nat :: from < i < to && LeavesAt(states, actions, i, e, geo, r)
  }

  /** An initializer at stage r has left stage low and then, in between, all those that follow. */
  lemma {:induction false} StagesLeft(states: seq<State>, actions: seq<Action>, n: nat, e: nat, low: nat, r: nat) returns (f: nat)
    requires IsRun(states, actions) && n < |states| && e in states[n].eps && low < r <= Stage(states[n].eps[e].pc)
    ensures f < n && LeavesAt(states, actions, f, e, states[n].eps[e].geo, low)
    ensures forall q: nat :: low < q < r ==> LeftBetween(states, actions, f, n, e, states[n].eps[e].geo, q)
    decreases r
  {
    var geo := states[n].eps[e].geo;
    var i := StageLeft(states, actions, n, e, r - 1);
    if r - 1 == low {
      f := i;
    } else {
      f := StagesLeft(states, actions, i, e, low, r - 1);
      forall q: nat | low < q < r ensures LeftBetween(states, actions, f, n, e, geo, q) {
        if q < r - 1 {
          assert LeftBetween(states, actions, f, i, e, geo, q);
          var j: nat :| f < j < i && LeavesAt(states, actions, j, e, geo, q);
          assert f < j < n;
        } else {
          assert f < i < n;
        }
      }
    }
  }

  // ------------------------------------------------------------------ the initializer

  /** Step i stores the k-th word of the superblock for e. */
  ghost predicate PublishesAt(states: seq<State>, actions: seq<Action>, i: nat, e: nat, geo: seq<nat>, k: nat)
    requires |states| == |actions| + 1 && |geo| == 4
  {
    i < |actions| && actions[i].Act? && actions[i].e == e && OpOf(states[i], actions[i]) == PublishStore(k, e, geo, actions[i].v)
  }

  lemma {:induction false} LeavingPublishes(states: seq<State>, actions: seq<Action>, i: nat, e: nat, geo: seq<nat>, k: nat)
    requires |states| == |actions| + 1 && LeavesAt(states, actions, i, e, geo, 6 + k) && k < 16
    ensures PublishesAt(states, actions, i, e, geo, k)
  {
  }

  ghost predicate VersionStored(states: seq<State>, actions: seq<Action>, from: nat, to: nat, e: nat)
    requires |states| == |actions| + 1
  {
    Stored(states, actions, from, to, e, MAJOR, MAJOR_VALUE) && Stored(states, actions, from, to, e, MINOR, MINOR_VALUE) &&
    Stored(states, actions, from, to, e, REQUIRED, 0)
  }

  ghost predicate GeometryWordStored(states: seq<State>, actions: seq<Action>, from: nat, to: nat, e: nat, geo: seq<nat>, k: nat)
    requires |states| == |actions| + 1 && k < |geo|
  {
    Stored(states, actions, from, to, e, GEOMETRY + k, geo[k])
  }

  ghost predicate GeometryStored(states: seq<State>, actions: seq<Action>, from: nat, to: nat, e: nat, geo: seq<nat>)
    requires |states| == |actions| + 1 && |geo| == 4
  {
    forall k: nat :: k < 4 ==> GeometryWordStored(states, actions, from, to, e, geo, k)
  }

  ghost predicate RecordsStored(states: seq<State>, actions: seq<Action>, from: nat, to: nat, e: nat)
    requires |states| == |actions| + 1
  {
    Stored(states, actions, from, to, e, PRIMARY, e) &&
    (forall w: nat :: PRIMARY < w < PRIMARY + 4 ==> Filled(states, actions, from, to, e, w)) &&
    (forall w: nat :: SECONDARY <= w < SECONDARY + 4 ==> Stored(states, actions, from, to, e, w, 0))
  }

  lemma {:induction false} StoredOne(states: seq<State>, actions: seq<Action>, from: nat, to: nat, e: nat, geo: seq<nat>,
                                     k: nat, w: nat, v: nat)
    requires |states| == |actions| + 1 && LeftBetween(states, actions, from, to, e, geo, 6 + k) && k < 16 && |geo| == 4
    requires forall x: nat :: PublishStore(k, e, geo, x) == Store(w, v)
    ensures Stored(states, actions, from, to, e, w, v)
  {
    var i: nat :| from < i < to && LeavesAt(states, actions, i, e, geo, 6 + k);
    LeavingPublishes(states, actions, i, e, geo, k);
    assert StoresAt(states, actions, i, e, w, v);
  }

  lemma {:induction false} FilledOne(states: seq<State>, actions: seq<Action>, from: nat, to: nat, e: nat, geo: seq<nat>, k: nat)
    requires |states| == |actions| + 1 && LeftBetween(states, actions, from, to, e, geo, 17 + k) && 0 < k < 4 && |geo| == 4
    ensures Filled(states, actions, from, to, e, PRIMARY + k)
  {
    var i: nat :| from < i < to && LeavesAt(states, actions, i, e, geo, 17 + k);
    LeavingPublishes(states, actions, i, e, geo, 11 + k);
    assert StoresAt(states, actions, i, e, PRIMARY + k, Value(actions[i]));
  }

  ghost predicate AllLeft(states: seq<State>, actions: seq<Action>, from: nat, to: nat, e: nat, geo: seq<nat>)
    requires |states| == |actions| + 1
  {
    forall q: nat :: 3 < q < 21 ==> LeftBetween(states, actions, from, to, e, geo, q)
  }

  lemma {:induction false} StoresVersion(states: seq<State>, actions: seq<Action>, from: nat, to: nat, e: nat, geo: seq<nat>)
    requires |states| == |actions| + 1 && |geo| == 4 && AllLeft(states, actions, from, to, e, geo)
    ensures VersionStored(states, actions, from, to, e)
  {
    StoredOne(states, actions, from, to, e, geo, 0, MAJOR, MAJOR_VALUE);
    StoredOne(states, actions, from, to, e, geo, 1, MINOR, MINOR_VALUE);
    StoredOne(states, actions, from, to, e, geo, 2, REQUIRED, 0);
  }

  lemma {:induction false} StoresGeometry(states: seq<State>, actions: seq<Action>, from: nat, to: nat, e: nat, geo: seq<nat>)
    requires |states| == |actions| + 1 && |geo| == 4 && AllLeft(states, actions, from, to, e, geo)
    ensures GeometryStored(states, actions, from, to, e, geo)
  {
    forall k: nat | k < 4 ensures GeometryWordStored(states, actions, from, to, e, geo, k) {
      StoredOne(states, actions, from, to, e, geo, 3 + k, GEOMETRY + k, geo[k]);
    }
  }

  lemma {:induction false} StoresRecords(states: seq<State>, actions: seq<Action>, from: nat, to: nat, e: nat, geo: seq<nat>)
    requires |states| == |actions| + 1 && |geo| == 4 && AllLeft(states, actions, from, to, e, geo)
    ensures RecordsStored(states, actions, from, to, e)
  {
    StoredOne(states, actions, from, to, e, geo, 11, PRIMARY, e);
    forall w: nat | SECONDARY <= w < SECONDARY + 4 ensures Stored(states, actions, from, to, e, w, 0) {
      StoredOne(states, actions, from, to, e, geo, 7 + (w - SECONDARY), w, 0);
    }
    forall w: nat | PRIMARY < w < PRIMARY + 4 ensures Filled(states, actions, from, to, e, w) {
      FilledOne(states, actions, from, to, e, geo, w - PRIMARY);
    }
  }

  /** A Primary attaches to a segment it has published in full: after it put its token in place of the
      one it had seen, it stored every word of the superblock, the magic number as the last one. */
  lemma {:induction false} PrimaryHasPublished(states: seq<State>, actions: seq<Action>, n: nat, e: nat) returns (f: nat, m: nat)
    requires IsRun(states, actions) && n < |states| && e in states[n].eps && Stage(states[n].eps[e].pc) == 22
    ensures
      var geo := states[n].eps[e].geo;
      f < m < n && |geo| == 4 && LeavesAt(states, actions, f, e, geo, 3) && VersionStored(states, actions, f, m, e) &&
      GeometryStored(states, actions, f, m, e, geo) && RecordsStored(states, actions, f, m, e) &&
      StoresAt(states, actions, m, e, MAGIC, MAGIC_VALUE)
  {
    var geo := states[n].eps[e].geo;
    m := StageLeft(states, actions, n, e, 21);
    LeavingPublishes(states, actions, m, e, geo, 15);
    f := StagesLeft(states, actions, m, e, 3, 21);
    StoresVersion(states, actions, f, m, e, geo);
    StoresGeometry(states, actions, f, m, e, geo);
    StoresRecords(states, actions, f, m, e, geo);
  }

  lemma {:induction false} LeavingStamps(states: seq<State>, actions: seq<Action>, i: nat, e: nat, geo: seq<nat>, r: nat)
    requires |states| == |actions| + 1 && LeavesAt(states, actions, i, e, geo, r) && r < 3
    ensures
      if r == 0 then StoresAt(states, actions, i, e, MAJOR, MAJOR_VALUE)
      else if r == 1 then StoresAt(states, actions, i, e, MINOR, MINOR_VALUE)
      else StoresAt(states, actions, i, e, REQUIRED, 0)
  {
  }

  lemma {:induction false} LeavingNames(states: seq<State>, actions: seq<Action>, i: nat, e: nat, geo: seq<nat>, r: nat)
    requires |states| == |actions| + 1 && LeavesAt(states, actions, i, e, geo, r) && 3 < r < 6
    ensures StoresAt(states, actions, i, e, if r == 4 then CREATOR else INIT_BEAT, Value(actions[i]))
  {
  }

  /** Who owns an initialization marked the layout version before it took the token, and has left its
      name and a first heartbeat before it formats. */
  lemma {:induction false} OwnerHasStamped(states: seq<State>, actions: seq<Action>, n: nat, e: nat)
    returns (i: nat, j: nat, m: nat, f: nat)
    requires IsRun(states, actions) && n < |states| && e in states[n].eps && Stage(states[n].eps[e].pc) >= 6
    ensures i < j < m < f < n && LeavesAt(states, actions, f, e, states[n].eps[e].geo, 3)
    ensures StoresAt(states, actions, i, e, MAJOR, MAJOR_VALUE) && StoresAt(states, actions, j, e, MINOR, MINOR_VALUE)
    ensures StoresAt(states, actions, m, e, REQUIRED, 0)
    ensures Filled(states, actions, f, n, e, CREATOR) && Filled(states, actions, f, n, e, INIT_BEAT)
  {
    var geo := states[n].eps[e].geo;
    f := StagesLeft(states, actions, n, e, 3, 6);
    m := StageLeft(states, actions, f, e, 2);
    j := StageLeft(states, actions, m, e, 1);
    i := StageLeft(states, actions, j, e, 0);
    LeavingStamps(states, actions, i, e, geo, 0);
    LeavingStamps(states, actions, j, e, geo, 1);
    LeavingStamps(states, actions, m, e, geo, 2);
    Named(states, actions, f, n, e, geo, 4);
    Named(states, actions, f, n, e, geo, 5);
  }

  lemma {:induction false} Named(states: seq<State>, actions: seq<Action>, f: nat, n: nat, e: nat, geo: seq<nat>, r: nat)
    requires |states| == |actions| + 1 && LeftBetween(states, actions, f, n, e, geo, r) && 3 < r < 6
    ensures Filled(states, actions, f, n, e, if r == 4 then CREATOR else INIT_BEAT)
  {
    var i: nat :| f < i < n && LeavesAt(states, actions, i, e, geo, r);
    LeavingNames(states, actions, i, e, geo, r);
  }

  // ------------------------------------------------------------------- the Secondary

  /** How many words of its record the Secondary has stored. */
  function FillStage(pc: Pc): nat {
    if pc.Fill? then pc.i else if pc.LoadEpoch? || ((pc.Linked? || pc.Beat?) && pc.slot == SecondarySlot) then 3 else 0
  }

  lemma {:induction false} FillStep(e: nat, ep: Endpoint, words: nat, b: bool, c: bool, x: nat, r: nat)
    requires !Halted(ep.pc) && FillStage(After(e, ep, words, b, c, x).pc) > r
    ensures FillStage(ep.pc) > r || ep.pc == Fill(r)
  {
    if Claiming(ep.pc) {
      ClaimFillsNothing(ep, words, b, c, x);
    } else {
      FillWork(e, ep, b, c, x, r);
    }
  }

  lemma {:induction false} ClaimFillsNothing(ep: Endpoint, words: nat, b: bool, c: bool, x: nat)
    requires Claiming(ep.pc)
    ensures FillStage(AfterClaim(ep, words, b, c, x).pc) == 0
  {
  }

  lemma {:induction false} FillWork(e: nat, ep: Endpoint, b: bool, c: bool, x: nat, r: nat)
    requires !Claiming(ep.pc) && !Halted(ep.pc) && FillStage(AfterWork(e, ep, b, c, x).pc) > r
    ensures FillStage(ep.pc) > r || ep.pc == Fill(r)
  {
  }

  lemma {:induction false} RecordFilled(states: seq<State>, actions: seq<Action>, n: nat, e: nat, r: nat) returns (i: nat)
    requires IsRun(states, actions) && n < |states| && e in states[n].eps && r < FillStage(states[n].eps[e].pc)
    ensures i < n && ActsAt(states, actions, i, e, Fill(r)) && |states[i].eps[e].geo| == 4
  {
    assert n > 0;
    if !Moved(states, actions, n, e) {
      StoodStill(states, actions, n, e);
      i := RecordFilled(states, actions, n - 1, e, r);
    } else {
      var s, a := states[n - 1], actions[n - 1];
      StepIs(states, actions, n, e);
      FillStep(e, s.eps[e], |s.mem|, a.b, a.c, Returned(s.mem, Access(e, s.eps[e], a.b, a.v)), r);
      if FillStage(s.eps[e].pc) > r {
        i := RecordFilled(states, actions, n - 1, e, r);
      } else {
        i := n - 1;
      }
    }
  }

  /** A Secondary attaches after it has stored its process, its interval and, last, its heartbeat. */
  lemma {:induction false} SecondaryHasFilled(states: seq<State>, actions: seq<Action>, n: nat, e: nat)
    returns (i: nat, j: nat, m: nat)
    requires IsRun(states, actions) && n < |states| && e in states[n].eps
    requires states[n].eps[e].pc.Linked? && states[n].eps[e].pc.slot == SecondarySlot
    ensures i < j < m < n
    ensures StoresAt(states, actions, i, e, SECONDARY + 1, Value(actions[i]))
    ensures StoresAt(states, actions, j, e, SECONDARY + 3, Value(actions[j]))
    ensures StoresAt(states, actions, m, e, SECONDARY + 2, Value(actions[m]))
  {
    m := RecordFilled(states, actions, n, e, 2);
    j := RecordFilled(states, actions, m, e, 1);
    i := RecordFilled(states, actions, j, e, 0);
  }

  // --------------------------------------------------------------- ownership checks

  /** From step j to state n, e is about to make stores of the group that begins with store low. */
  ghost predicate PublishesSince(states: seq<State>, j: nat, n: nat, e: nat, low: nat)
    requires n < |states|
  {
    n <= j ||
    (e in states[n].eps && states[n].eps[e].pc.Publish? && Group(states[n].eps[e].pc.i) == low &&
     PublishesSince(states, j, n - 1, e, low))
  }

  lemma {:induction false} PublishStep(e: nat, ep: Endpoint, words: nat, b: bool, c: bool, x: nat)
    requires !Halted(ep.pc) && Counted(ep.pc) && After(e, ep, words, b, c, x).pc.Publish?
    ensures
      var i := After(e, ep, words, b, c, x).pc.i;
      (ep.pc == Check(i) && x == e && Group(i) == i) || (i > 0 && ep.pc == Publish(i - 1) && Group(i - 1) == Group(i))
  {
  }

  /** Before every group of stores, its author has seen that it still owns the initialization. */
  lemma {:induction false} PublisherHasChecked(states: seq<State>, actions: seq<Action>, n: nat, e: nat) returns (j: nat)
    requires IsRun(states, actions) && n < |states| && e in states[n].eps && states[n].eps[e].pc.Publish?
    ensures
      var i := states[n].eps[e].pc.i;
      j < n && ActsAt(states, actions, j, e, Check(Group(i))) && states[j].mem[INIT_TOKEN] == e &&
      PublishesSince(states, j, n, e, Group(i))
  {
    assert n > 0;
    if !Moved(states, actions, n, e) {
      StoodStill(states, actions, n, e);
      j := PublisherHasChecked(states, actions, n - 1, e);
    } else {
      var s, a := states[n - 1], actions[n - 1];
      StepIs(states, actions, n, e);
      RunCounted(states, actions, n - 1, e);
      PublishStep(e, s.eps[e], |s.mem|, a.b, a.c, Returned(s.mem, Access(e, s.eps[e], a.b, a.v)));
      if s.eps[e].pc.Publish? {
        j := PublisherHasChecked(states, actions, n - 1, e);
      } else {
        j := n - 1;
      }
    }
  }

  ghost predicate StaysSince(states: seq<State>, j: nat, n: nat, e: nat)
    requires n < |states| && e in states[n].eps
  {
    forall k: nat :: j < k <= n ==> e in states[k].eps && states[k].eps[e] == states[n].eps[e]
  }

  lemma {:induction false} BeatStepFrom(e: nat, ep: Endpoint, words: nat, b: bool, c: bool, x: nat)
    requires !Halted(ep.pc)
    ensures
      var next := After(e, ep, words, b, c, x).pc;
      (next.FormatBeat? ==> ep.pc == Format && x == e) &&
      (next.Beat? ==> ep.pc == Linked(next.slot, next.epoch) && x == e && b)
  {
  }

  /** Where e must find its token before a heartbeat: in the token of the initialization while it
      formats, in its own record once it is attached. */
  function OwnWord(pc: Pc): nat {
    if pc.Beat? then pc.slot.Record() else INIT_TOKEN
  }

  /** Every heartbeat is preceded by a look at the own token, with nothing in between. */
  lemma {:induction false} HeartbeatHasChecked(states: seq<State>, actions: seq<Action>, n: nat, e: nat) returns (j: nat)
    requires IsRun(states, actions) && n < |states| && e in states[n].eps
    requires states[n].eps[e].pc.FormatBeat? || states[n].eps[e].pc.Beat?
    ensures
      var pc := states[n].eps[e].pc;
      j < n && ActsAt(states, actions, j, e, if pc.Beat? then Linked(pc.slot, pc.epoch) else Format) &&
      states[j].mem[OwnWord(pc)] == e && StaysSince(states, j, n, e)
  {
    assert n > 0;
    if !Moved(states, actions, n, e) {
      StoodStill(states, actions, n, e);
      j := HeartbeatHasChecked(states, actions, n - 1, e);
    } else {
      var s, a := states[n - 1], actions[n - 1];
      StepIs(states, actions, n, e);
      BeatStepFrom(e, s.eps[e], |s.mem|, a.b, a.c, Returned(s.mem, Access(e, s.eps[e], a.b, a.v)));
      j := n - 1;
    }
  }

  /** An attached endpoint changes nothing but the heartbeat of its record and, when it closes, its
      token there, and that only while it is still its own. */
  lemma {:induction false} AttachedWritesOwnRecord(states: seq<State>, actions: seq<Action>, n: nat, e: nat)
    requires IsRun(states, actions) && n < |actions| && actions[n].Act? && actions[n].e == e
    requires e in states[n].eps && (states[n].eps[e].pc.Linked? || states[n].eps[e].pc.Beat?)
    ensures
      var m, pc := states[n].mem, states[n].eps[e].pc;
      var r := pc.slot.Record();
      states[n + 1].mem ==
      if pc.Beat? then m[r + 2 := actions[n].v] else if !actions[n].b && m[r] == e then m[r := DETACHED] else m
  {
    assert StepAt(states, actions, n);
  }

  // -------------------------------------------------------- refused or tried again

  /** What an endpoint that looks at the segment does not accept. */
  predicate Refuses(ep: Endpoint, m: Memory) {
    match ep.pc
    case RecheckEmpty => m[STATE] == EMPTY        // somebody else's data
    case CheckRequired(_, _, _) => m[REQUIRED] != 0
    case CheckMagic(ready, _, _) => m[MAGIC] != MAGIC_VALUE && !(m[MAGIC] == 0 && !ready)
    case CompareGeometry(i) => i < |ep.geo| && i < 4 && m[GEOMETRY + i] != ep.geo[i]
    case LoadSecondary => m[SECONDARY] != 0       // taken, or closed before
    case _ => false
  }

  /** A race that is lost against another endpoint. */
  predicate Loses(ep: Endpoint, m: Memory) {
    match ep.pc
    case ClaimEmpty => m[STATE] != EMPTY
    case ClaimDead => m[STATE] != READY
    case Join => m[SECONDARY] != 0
    case Swap(expected, takeover) => takeover && m[INIT_TOKEN] != expected
    case _ => false
  }

  /** A segment that does not fit is refused at once; who only loses a race looks again, without what
      it remembered of an initializer if it was about to replace it. */
  lemma {:induction false} RefusesOrRetries(states: seq<State>, actions: seq<Action>, n: nat, e: nat)
    requires IsRun(states, actions) && n < |actions| && actions[n].Act? && actions[n].e == e && e in states[n].eps
    ensures e in states[n + 1].eps
    ensures
      var ep, next, m := states[n].eps[e], states[n + 1].eps[e], states[n].mem;
      (Refuses(ep, m) ==> next.pc == Failed && states[n + 1].mem == m) &&
      (Loses(ep, m) ==> next.pc == Poll && states[n + 1].mem == m && (ep.pc.Swap? ==> next.watch == None))
  {
    assert StepAt(states, actions, n);
  }
}
