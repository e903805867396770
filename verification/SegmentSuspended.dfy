/** Why SegmentCrash and SegmentJoin need their assumptions: two runs without a crash, in which
    endpoints are only suspended. In the first a takeover begins a new initialization of a Ready
    segment with a live Primary; in the second a Secondary joins a segment of another geometry. */
module SegmentSuspended {
  import opened Wire
  import opened Segment
  import opened SegmentCrash

  const A: nat := 2   // initializes the segment
  const X: nat := 3   // takes it over
  const O: nat := 4   // opens it
  const B: nat := 5   // initializes it again
  const GEO: seq<nat> := [4096, 2, 8, 20480]
  const OTHER: seq<nat> := [4096, 4, 8, 20480]
  const WORDS: nat := 512

  function Zero(): State {
    State(seq(WORDS, _ => 0), map[])
  }

  function At(geo: seq<nat>, pc: Pc, watch: Option<(nat, nat)>): Endpoint {
    Endpoint(RoleAny, geo, pc, watch)
  }

  /** Reached from a zero page without a crash; if right, with every verdict still true when used. */
  ghost predicate Reachable(right: bool, s: State) {
    exists states: seq<State>, actions: seq<Action> :: Reaches(right, states, actions, s)
  }

  ghost predicate Reaches(right: bool, states: seq<State>, actions: seq<Action>, s: State) {
    IsRun(states, actions) && states[0] == Zero() && states[|actions|] == s &&
    forall i: nat :: i < |actions| ==> Quiet(right, states[i], actions[i])
  }

  ghost predicate Quiet(right: bool, s: State, a: Action) {
    !a.Crash? && (right ==> VerdictHolds(s, a))
  }

  /** The state in which endpoint e is as given by ep and others gives the rest is reachable. */
  ghost predicate Reached(right: bool, m: Memory, others: map<nat, Endpoint>, e: nat, ep: Endpoint) {
    Reachable(right, State(m, others[e := ep]))
  }

  lemma {:induction false} Begin(right: bool)
    ensures Reachable(right, Zero())
  {
    assert Reaches(right, [Zero()], [], Zero());
  }

  lemma {:induction false} Then(right: bool, s: State, a: Action)
    requires Reachable(right, s) && Enabled(s, a) && Quiet(right, s, a)
    ensures Reachable(right, Apply(s, a))
  {
    var states: seq<State>, actions: seq<Action> :| Reaches(right, states, actions, s);
    var more, acts := states + [Apply(s, a)], actions + [a];
    forall i: nat | i < |acts| ensures StepAt(more, acts, i) && Quiet(right, more[i], acts[i]) {
      assert i < |actions| ==> StepAt(states, actions, i) && Quiet(right, states[i], actions[i]);
    }
    assert Reaches(right, more, acts, Apply(s, a));
  }

  /** e arrives. */
  lemma {:induction false} Arrives(right: bool, m: Memory, eps: map<nat, Endpoint>, e: nat, geo: seq<nat>)
    requires Reachable(right, State(m, eps)) && e > DETACHED && e !in eps && |geo| == 4
    ensures Reached(right, m, eps, e, At(geo, Poll, None))
  {
    Then(right, State(m, eps), Arrive(e, RoleAny, geo));
  }

  /** The step rests on no verdict. */
  predicate Plain(pc: Pc) {
    !(pc.Swap? && pc.takeover) && !pc.ClaimDead? && !pc.Join?
  }

  /** The next step of e. */
  lemma {:induction false} Decides(right: bool, m: Memory, others: map<nat, Endpoint>, e: nat, ep: Endpoint, b: bool, c: bool)
    returns (m': Memory, next: Endpoint)
    requires Reached(right, m, others, e, ep) && !Halted(ep.pc) && |ep.geo| == 4 && OpOk(m, Access(e, ep, b, 0))
    requires right ==> VerdictHolds(State(m, others[e := ep]), Act(e, b, c, 0))
    ensures m' == Exec(m, Access(e, ep, b, 0)) && next == After(e, ep, |m|, b, c, Returned(m, Access(e, ep, b, 0)))
    ensures Reached(right, m', others, e, next)
  {
    var s, a := State(m, others[e := ep]), Act(e, b, c, 0);
    m' := Exec(m, Access(e, ep, b, 0));
    next := After(e, ep, |m|, b, c, Returned(m, Access(e, ep, b, 0)));
    Then(right, s, a);
    assert Apply(s, a) == State(m', others[e := next]) by {
      assert s.eps[e := next] == others[e := next];
    }
  }

  lemma {:induction false} Acts(right: bool, m: Memory, others: map<nat, Endpoint>, e: nat, ep: Endpoint, b: bool, c: bool)
    returns (m': Memory, next: Endpoint)
    requires Reached(right, m, others, e, ep) && !Halted(ep.pc) && |ep.geo| == 4 && OpOk(m, Access(e, ep, b, 0))
    requires right ==> Plain(ep.pc)
    ensures m' == Exec(m, Access(e, ep, b, 0)) && next == After(e, ep, |m|, b, c, Returned(m, Access(e, ep, b, 0)))
    ensures Reached(right, m', others, e, next)
  {
    m', next := Decides(right, m, others, e, ep, b, c);
  }

  // -------------------------------------------------------- the phases of an endpoint

  /** A reads the rest of the page and finds it zero. */
  lemma {:induction false} Scans(right: bool, m: Memory, i: nat)
    requires i < |m| && (forall j :: 0 <= j < |m| ==> m[j] == 0) && Reached(right, m, map[], A, At(GEO, Scan(i), None))
    ensures Reached(right, m, map[], A, At(GEO, ClaimEmpty, None))
    decreases |m| - i
  {
    var m', next := Acts(right, m, map[], A, At(GEO, Scan(i), None), false, false);
    if i + 1 < |m| {
      Scans(right, m, i + 1);
    }
  }

  /** What others see while A stands still. */
  predicate Claimed(m: Memory) {
    m[STATE] == INITIALIZING && m[INIT_TOKEN] == 0 && m[INIT_BEAT] == 0 && m[REQUIRED] == 0 && m[MAGIC] == 0 &&
    m[MAJOR] == 0
  }

  /** A wins the state word and stops before it loads initToken. */
  lemma {:induction false} AClaims(right: bool) returns (m: Memory)
    ensures Claimed(m) && Reached(right, m, map[], A, At(GEO, LoadOld, None))
  {
    Begin(right);
    m := Zero().mem;
    Arrives(right, m, map[], A, GEO);
    var next;
    m, next := Acts(right, m, map[], A, At(GEO, Poll, None), false, false);
    Scans(right, m, 0);
    m, next := Acts(right, m, map[], A, At(GEO, ClaimEmpty, None), false, false);
  }

  lemma {:induction false} LoadsOld(right: bool, m: Memory, others: map<nat, Endpoint>, e: nat, geo: seq<nat>)
    requires m[INIT_TOKEN] == 0 && |geo| == 4 && Reached(right, m, others, e, At(geo, LoadOld, None))
    ensures Reached(right, m, others, e, At(geo, Stamp(0, 0, false), None))
  {
    var m', next := Acts(right, m, others, e, At(geo, LoadOld, None), false, false);
  }

  lemma {:induction false} Stamps(right: bool, m: Memory, others: map<nat, Endpoint>, e: nat, geo: seq<nat>, i: nat)
    returns (m': Memory)
    requires m[INIT_TOKEN] == 0 && |geo| == 4 && i < 3 && Reached(right, m, others, e, At(geo, Stamp(i, 0, false), None))
    ensures m'[INIT_TOKEN] == 0 && Reached(right, m', others, e, At(geo, Swap(0, false), None))
    decreases 3 - i
  {
    var next;
    m', next := Acts(right, m, others, e, At(geo, Stamp(i, 0, false), None), false, false);
    if i < 2 {
      m' := Stamps(right, m', others, e, geo, i + 1);
    }
  }

  lemma {:induction false} Swaps(right: bool, m: Memory, others: map<nat, Endpoint>, e: nat, geo: seq<nat>) returns (m': Memory)
    requires m[INIT_TOKEN] == 0 && |geo| == 4 && Reached(right, m, others, e, At(geo, Swap(0, false), None))
    ensures m'[INIT_TOKEN] == e && Reached(right, m', others, e, At(geo, StoreBeat, None))
  {
    var next;
    m', next := Acts(right, m, others, e, At(geo, Swap(0, false), None), false, false);
    m', next := Acts(right, m', others, e, At(geo, StoreCreator, None), false, false);
  }

  lemma {:induction false} Formats(right: bool, m: Memory, others: map<nat, Endpoint>, e: nat, geo: seq<nat>) returns (m': Memory)
    requires m[INIT_TOKEN] == e && |geo| == 4 && Reached(right, m, others, e, At(geo, StoreBeat, None))
    ensures m'[INIT_TOKEN] == e && Reached(right, m', others, e, At(geo, Publish(0), None))
  {
    var next;
    m', next := Acts(right, m, others, e, At(geo, StoreBeat, None), false, false);
    m', next := Acts(right, m', others, e, At(geo, Format, None), false, true);
    m', next := Acts(right, m', others, e, At(geo, Check(0), None), false, false);
  }

  /** From the won state word to the first store of publishSuperblock. */
  lemma {:induction false} Starts(right: bool, m: Memory, others: map<nat, Endpoint>, e: nat, geo: seq<nat>) returns (m': Memory)
    requires m[INIT_TOKEN] == 0 && |geo| == 4 && Reached(right, m, others, e, At(geo, LoadOld, None))
    ensures m'[INIT_TOKEN] == e && Reached(right, m', others, e, At(geo, Publish(0), None))
  {
    LoadsOld(right, m, others, e, geo);
    m' := Stamps(right, m, others, e, geo, 0);
    m' := Swaps(right, m', others, e, geo);
    m' := Formats(right, m', others, e, geo);
  }

  /** What publishSuperblock has stored before store i. */
  predicate Stored(m: Memory, e: nat, geo: seq<nat>, i: nat)
    requires |geo| == 4
  {
    m[INIT_TOKEN] == e && (i >= 1 ==> m[MAJOR] == MAJOR_VALUE) && (i >= 3 ==> m[REQUIRED] == 0) &&
    (forall j :: 0 <= j < 4 && j < i - 3 ==> m[GEOMETRY + j] == geo[j]) &&
    (i >= 8 ==> m[SECONDARY] == 0) && (i >= 12 ==> m[PRIMARY] == e) && (i >= 16 ==> m[MAGIC] == MAGIC_VALUE)
  }

  lemma {:induction false} StoresOne(m: Memory, e: nat, geo: seq<nat>, i: nat)
    requires |geo| == 4 && i < 16 && Stored(m, e, geo, i)
    ensures Stored(Exec(m, PublishStore(i, e, geo, 0)), e, geo, i + 1)
  {
  }

  lemma {:induction false} Publishes(right: bool, m: Memory, others: map<nat, Endpoint>, e: nat, geo: seq<nat>, i: nat)
    returns (m': Memory)
    requires i < 16 && |geo| == 4 && Stored(m, e, geo, i) && Reached(right, m, others, e, At(geo, Publish(i), None))
    ensures Stored(m', e, geo, 16) && Reached(right, m', others, e, At(geo, Commit, None))
    decreases 16 - i
  {
    var next;
    m', next := Acts(right, m, others, e, At(geo, Publish(i), None), false, false);
    StoresOne(m, e, geo, i);
    if next.pc == Check(i + 1) {
      m', next := Acts(right, m', others, e, At(geo, Check(i + 1), None), false, false);
    }
    if i + 1 < 16 {
      m' := Publishes(right, m', others, e, geo, i + 1);
    }
  }

  /** A Ready segment of e. */
  predicate ReadyFor(m: Memory, e: nat, geo: seq<nat>)
    requires |geo| == 4
  {
    m[STATE] == READY && m[INIT_TOKEN] == 0 && m[MAJOR] == MAJOR_VALUE && m[REQUIRED] == 0 && m[MAGIC] == MAGIC_VALUE &&
    (forall j :: 0 <= j < 4 ==> m[GEOMETRY + j] == geo[j]) && m[SECONDARY] == 0 && m[PRIMARY] == e
  }

  lemma {:induction false} Commits(right: bool, m: Memory, others: map<nat, Endpoint>, e: nat, geo: seq<nat>)
    returns (m': Memory, epoch: nat)
    requires |geo| == 4 && Stored(m, e, geo, 16) && Reached(right, m, others, e, At(geo, Commit, None))
    ensures ReadyFor(m', e, geo) && Reached(right, m', others, e, At(geo, Linked(PrimarySlot, epoch), None))
  {
    var next;
    m', next := Acts(right, m, others, e, At(geo, Commit, None), false, false);
    assert ReadyFor(m'[STATE := READY], e, geo);
    m', epoch := MarksReady(right, m', others, e, geo);
  }

  lemma {:induction false} MarksReady(right: bool, m: Memory, others: map<nat, Endpoint>, e: nat, geo: seq<nat>)
    returns (m': Memory, epoch: nat)
    requires |geo| == 4 && ReadyFor(m[STATE := READY], e, geo) && Reached(right, m, others, e, At(geo, Bump, None))
    ensures ReadyFor(m', e, geo) && Reached(right, m', others, e, At(geo, Linked(PrimarySlot, epoch), None))
  {
    var next;
    m', next := Acts(right, m, others, e, At(geo, Bump, None), false, false);
    epoch := m'[EPOCH];
    m', next := Acts(right, m', others, e, At(geo, MarkReady(epoch), None), false, false);
  }

  /** From the won state word to the attached Primary. */
  lemma {:induction false} BecomesPrimary(right: bool, m: Memory, others: map<nat, Endpoint>, e: nat, geo: seq<nat>)
    returns (m': Memory, epoch: nat)
    requires m[INIT_TOKEN] == 0 && |geo| == 4 && Reached(right, m, others, e, At(geo, LoadOld, None))
    ensures ReadyFor(m', e, geo) && Reached(right, m', others, e, At(geo, Linked(PrimarySlot, epoch), None))
  {
    m' := Starts(right, m, others, e, geo);
    m' := Publishes(right, m', others, e, geo, 0);
    m', epoch := Commits(right, m', others, e, geo);
  }

  // ---------------------------------------------------------------- the first run

  /** X looks once at the segment that is being initialized. */
  lemma {:induction false} XLooks(m: Memory, others: map<nat, Endpoint>, w: Option<(nat, nat)>)
    requires Claimed(m) && Reached(false, m, others, X, At(GEO, Poll, w))
    ensures Reached(false, m, others, X, At(GEO, Judge(0, 0), w))
  {
    XReads(m, others, w);
    var m', next := Acts(false, m, others, X, At(GEO, CheckRequired(false, 0, 0), w), false, false);
    m', next := Acts(false, m, others, X, At(GEO, CheckMagic(false, 0, 0), w), false, false);
    m', next := Acts(false, m, others, X, At(GEO, CheckMajor(false, 0, 0), w), false, false);
    m', next := Acts(false, m, others, X, At(GEO, CheckToken(0, 0), w), false, false);
  }

  lemma {:induction false} XReads(m: Memory, others: map<nat, Endpoint>, w: Option<(nat, nat)>)
    requires Claimed(m) && Reached(false, m, others, X, At(GEO, Poll, w))
    ensures Reached(false, m, others, X, At(GEO, CheckRequired(false, 0, 0), w))
  {
    var m', next := Acts(false, m, others, X, At(GEO, Poll, w), false, false);
    m', next := Acts(false, m, others, X, At(GEO, SeeToken, w), false, false);
    m', next := Acts(false, m, others, X, At(GEO, SeeBeat(0), w), false, false);
  }

  /** The takeover that X prepares. */
  const TAKING: Endpoint := At(GEO, Stamp(0, 0, true), Some((0, 0)))

  /** For the whole window neither token nor heartbeat change: X decides to take over. */
  lemma {:induction false} XDecides() returns (m: Memory)
    ensures Claimed(m) && Reached(false, m, map[X := TAKING], A, At(GEO, LoadOld, None))
  {
    m := AClaims(false);
    var others := map[A := At(GEO, LoadOld, None)];
    assert map[][A := At(GEO, LoadOld, None)] == others;
    Arrives(false, m, others, X, GEO);
    XLooks(m, others, None);
    var m', next := Acts(false, m, others, X, At(GEO, Judge(0, 0), None), false, false);
    XLooks(m, others, Some((0, 0)));
    m', next := Acts(false, m, others, X, At(GEO, Judge(0, 0), Some((0, 0))), true, false);
    assert others[X := TAKING] == map[X := TAKING][A := At(GEO, LoadOld, None)];
  }

  /** X goes on: its swap succeeds, because initToken is zero again. */
  lemma {:induction false} XSwaps(m: Memory, others: map<nat, Endpoint>) returns (m': Memory)
    requires m[INIT_TOKEN] == 0 && m[STATE] == READY && Reached(false, m, others, X, TAKING)
    ensures m'[STATE] == READY && Reached(false, m', others, X, At(GEO, StoreCreator, Some((0, 0))))
  {
    var next;
    m', next := Acts(false, m, others, X, TAKING, false, false);
    m', next := Acts(false, m', others, X, At(GEO, Stamp(1, 0, true), Some((0, 0))), false, false);
    m', next := Acts(false, m', others, X, At(GEO, Stamp(2, 0, true), Some((0, 0))), false, false);
    m', next := Acts(false, m', others, X, At(GEO, Swap(0, true), Some((0, 0))), false, false);
  }

  /** No endpoint crashed and X waited for the whole window, and still a Ready segment has a
      live Primary and a second initializer. */
  lemma {:induction false} TakeoverOfLiveSegment() returns (s: State)
    ensures Reachable(false, s) && A in s.eps && X in s.eps && s.mem[STATE] == READY
    ensures IsPrimary(s.eps[A].pc) && Initializes(s.eps[X].pc)
  {
    var m := XDecides();
    var epoch;
    m, epoch := BecomesPrimary(false, m, map[X := TAKING], A, GEO);
    var others := map[A := At(GEO, Linked(PrimarySlot, epoch), None)];
    assert map[X := TAKING][A := others[A]] == others[X := TAKING];
    m := XSwaps(m, others);
    s := State(m, others[X := At(GEO, StoreCreator, Some((0, 0)))]);
  }

  // --------------------------------------------------------------- the second run

  /** e finds the segment Ready. */
  lemma {:induction false} FindsReady(m: Memory, others: map<nat, Endpoint>, e: nat, geo: seq<nat>)
    requires |geo| == 4 && m[STATE] == READY && m[REQUIRED] == 0 && m[MAGIC] == MAGIC_VALUE && m[MAJOR] == MAJOR_VALUE
    requires Reached(true, m, others, e, At(geo, Poll, None))
    ensures Reached(true, m, others, e, At(geo, JudgeAlive, None))
  {
    var m', next := Acts(true, m, others, e, At(geo, Poll, None), false, false);
    m', next := Acts(true, m, others, e, At(geo, CheckRequired(true, 0, 0), None), false, false);
    m', next := Acts(true, m, others, e, At(geo, CheckMagic(true, 0, 0), None), false, false);
    m', next := Acts(true, m, others, e, At(geo, CheckMajor(true, 0, 0), None), false, false);
  }

  /** O compares the geometry and stops before its join. */
  lemma {:induction false} OCompares(m: Memory, others: map<nat, Endpoint>, i: nat)
    requires i < 4 && ReadyFor(m, A, GEO) && Reached(true, m, others, O, At(GEO, CompareGeometry(i), None))
    ensures Reached(true, m, others, O, At(GEO, Join, None))
    decreases 4 - i
  {
    var m', next := Acts(true, m, others, O, At(GEO, CompareGeometry(i), None), false, false);
    if i < 3 {
      OCompares(m, others, i + 1);
    } else {
      m', next := Acts(true, m, others, O, At(GEO, LoadSecondary, None), false, false);
    }
  }

  /** A is attached, O is about to join. */
  lemma {:induction false} OIsSuspended() returns (m: Memory, epoch: nat)
    ensures ReadyFor(m, A, GEO)
    ensures Reached(true, m, map[O := At(GEO, Join, None)], A, At(GEO, Linked(PrimarySlot, epoch), None))
  {
    m := AClaims(true);
    m, epoch := BecomesPrimary(true, m, map[], A, GEO);
    var others := map[A := At(GEO, Linked(PrimarySlot, epoch), None)];
    assert map[][A := others[A]] == others;
    Arrives(true, m, others, O, GEO);
    FindsReady(m, others, O, GEO);
    var m', next := Acts(true, m, others, O, At(GEO, JudgeAlive, None), true, false);
    OCompares(m, others, 0);
    assert others[O := At(GEO, Join, None)] == map[O := At(GEO, Join, None)][A := others[A]];
  }

  /** A closes. */
  lemma {:induction false} ACloses() returns (m: Memory, others: map<nat, Endpoint>)
    ensures ReadyFor(m[PRIMARY := A], A, GEO) && m[PRIMARY] == DETACHED && Reachable(true, State(m, others))
    ensures others == map[O := At(GEO, Join, None), A := At(GEO, Closed, None)]
  {
    var epoch, next;
    m, epoch := OIsSuspended();
    m, next := Acts(true, m, map[O := At(GEO, Join, None)], A, At(GEO, Linked(PrimarySlot, epoch), None), false, false);
    others := map[O := At(GEO, Join, None), A := At(GEO, Closed, None)];
    assert map[O := At(GEO, Join, None)][A := At(GEO, Closed, None)] == others;
  }

  /** B finds nobody left. */
  lemma {:induction false} BClaims() returns (m: Memory, others: map<nat, Endpoint>)
    ensures m[INIT_TOKEN] == 0 && Reached(true, m, others, B, At(OTHER, LoadOld, None))
    ensures others == map[O := At(GEO, Join, None), A := At(GEO, Closed, None)]
  {
    m, others := ACloses();
    Arrives(true, m, others, B, OTHER);
    FindsReady(m, others, B, OTHER);
    var m', next := Acts(true, m, others, B, At(OTHER, JudgeAlive, None), false, false);
    m := BWins(m, others);
  }

  lemma {:induction false} BWins(m: Memory, others: map<nat, Endpoint>) returns (m': Memory)
    requires m[STATE] == READY && m[INIT_TOKEN] == 0 && m[PRIMARY] == DETACHED && m[SECONDARY] == 0
    requires others == map[O := At(GEO, Join, None), A := At(GEO, Closed, None)]
    requires Reached(true, m, others, B, At(OTHER, ClaimDead, None))
    ensures m'[INIT_TOKEN] == 0 && Reached(true, m', others, B, At(OTHER, LoadOld, None))
  {
    var next;
    m', next := Decides(true, m, others, B, At(OTHER, ClaimDead, None), false, false);
  }

  /** Every verdict was right when it was used, and still the Secondary has another geometry than
      the Primary: it compared the geometry of an earlier initialization. */
  lemma {:induction false} JoinOfOtherGeometry() returns (s: State)
    ensures Reachable(true, s) && B in s.eps && O in s.eps && s.mem[STATE] == READY
    ensures IsPrimary(s.eps[B].pc) && IsSecondary(s.eps[O].pc) && s.eps[B].geo != s.eps[O].geo
  {
    var m, others := BClaims();
    var epoch, next;
    m, epoch := BecomesPrimary(true, m, others, B, OTHER);
    var rest := map[A := At(GEO, Closed, None), B := At(OTHER, Linked(PrimarySlot, epoch), None)];
    assert others[B := rest[B]] == rest[O := At(GEO, Join, None)];
    m, next := Decides(true, m, rest, O, At(GEO, Join, None), false, false);
    s := State(m, rest[O := next]);
    assert GEO[1] != OTHER[1];
  }
}
