/** Exclusivity of a segment when every verdict about the life of others is right: endpoints may
    crash at any point, and what an endpoint concluded from waiting (the initializer stopped, both
    endpoints are gone, the Primary is attached) still holds at the compare-and-swap it leads to. */
module SegmentCrash {
  import opened Wire
  import opened Segment

  /** Responsible for a segment in state Initializing. */
  predicate Owns(pc: Pc) {
    pc.LoadOld? || (pc.Stamp? && !pc.takeover) || (pc.Swap? && !pc.takeover) || Initializes(pc) || pc.Bump? || pc.MarkReady?
  }

  /** Between its beginInit and its commitInit. */
  predicate Initializes(pc: Pc) {
    pc.StoreCreator? || pc.StoreBeat? || pc.Format? || pc.FormatBeat? || pc.Check? || pc.Publish? || pc.Commit?
  }

  predicate IsPrimary(pc: Pc) {
    (pc.Linked? || pc.Beat?) && pc.slot == PrimarySlot
  }

  predicate IsSecondary(pc: Pc) {
    pc.Fill? || pc.LoadEpoch? || ((pc.Linked? || pc.Beat?) && pc.slot == SecondarySlot)
  }

  predicate Alive(s: State, token: nat) {
    token in s.eps && !Halted(s.eps[token].pc)
  }

  /** The verdict behind a takeover, a re-initialization or a join is true when it is used. Only a
      takeover over an initToken of zero has to know more: that the segment is being initialized. */
  ghost predicate VerdictHolds(s: State, a: Action) {
    a.Act? && a.e in s.eps ==>
      match s.eps[a.e].pc
      case Swap(expected, takeover) =>
        takeover && s.mem[INIT_TOKEN] == expected ==>
          (expected == 0 ==> s.mem[STATE] == INITIALIZING) && forall f :: f in s.eps ==> !Owns(s.eps[f].pc)
      case ClaimDead => s.mem[STATE] == READY ==> !Alive(s, s.mem[PRIMARY]) && !Alive(s, s.mem[SECONDARY])
      case Join => s.mem[SECONDARY] == 0 ==> s.mem[PRIMARY] in s.eps && IsPrimary(s.eps[s.mem[PRIMARY]].pc)
      case _ => true
  }

  ghost predicate IsCrashRun(states: seq<State>, actions: seq<Action>) {
    IsRun(states, actions) && (forall i :: 0 <= i < |states[0].mem| ==> states[0].mem[i] == 0) &&
    forall i :: 0 <= i < |actions| ==> VerdictHolds(states[i], actions[i])
  }

  // ------------------------------------------------------------------- invariant

  /** Who took which part last. */
  datatype Parts = Parts(owner: Option<nat>, primary: Option<nat>, secondary: Option<nat>)

  ghost predicate GeometryUpTo(m: Memory, geo: seq<nat>, n: int) {
    |geo| == 4 && forall j :: 0 <= j < n && j < 4 ==> m[GEOMETRY + j] == geo[j]
  }

  /** What the owner has published so far. */
  ghost predicate Progress(m: Memory, e: nat, ep: Endpoint) {
    (ep.pc.Check? || ep.pc.Publish? ==> GeometryUpTo(m, ep.geo, ep.pc.i - 3) && (ep.pc.i >= 12 ==> m[PRIMARY] == e)) &&
    (ep.pc.Commit? || ep.pc.Bump? || ep.pc.MarkReady? ==> GeometryUpTo(m, ep.geo, 4) && m[PRIMARY] == e) &&
    (ep.pc.MarkReady? ==> ep.pc.epoch == m[EPOCH]) &&
    (ep.pc.Bump? || ep.pc.MarkReady? ==> m[INIT_TOKEN] == 0)
  }

  ghost predicate EndpointOk(m: Memory, e: nat, ep: Endpoint, r: Parts) {
    |ep.geo| == 4 && e > DETACHED &&
    (Owns(ep.pc) ==> r.owner == Some(e) && m[STATE] == INITIALIZING && Progress(m, e, ep)) &&
    (IsPrimary(ep.pc) ==> r.primary == Some(e) && m[STATE] == READY && m[PRIMARY] == e && m[EPOCH] == ep.pc.epoch) &&
    (IsSecondary(ep.pc) ==> r.secondary == Some(e) && m[STATE] == READY && m[SECONDARY] == e) &&
    (IsSecondary(ep.pc) && (ep.pc.Linked? || ep.pc.Beat?) ==> m[EPOCH] == ep.pc.epoch)
  }

  /** A Ready segment records the geometry of the endpoint that last became Primary. */
  ghost predicate ReadyOk(s: State, r: Parts) {
    s.mem[STATE] == READY ==>
      r.primary.Some? && r.primary.value in s.eps && GeometryUpTo(s.mem, s.eps[r.primary.value].geo, 4)
  }

  /** A token stands in initToken only while the segment is being initialized. */
  predicate TokenOk(m: Memory) {
    m[INIT_TOKEN] != 0 ==> m[STATE] == INITIALIZING
  }

  ghost predicate Invariant(s: State, r: Parts) {
    (forall e :: e in s.eps ==> EndpointOk(s.mem, e, s.eps[e], r)) && ReadyOk(s, r) && TokenOk(s.mem)
  }

  /** The parts after endpoint e went on to pc. */
  function PartsAfter(r: Parts, e: nat, pc: Pc): Parts {
    Parts(if Owns(pc) then Some(e) else r.owner,
          if IsPrimary(pc) then Some(e) else r.primary,
          if IsSecondary(pc) then Some(e) else r.secondary)
  }

  // ----------------------------------------------------------------------- steps

  /** The endpoint that acts, in the claim. */
  lemma {:induction false} SelfClaim(m: Memory, e: nat, ep: Endpoint, b: bool, c: bool, v: nat, r: Parts)
    requires EndpointOk(m, e, ep, r) && Claiming(ep.pc) && OpOk(m, Access(e, ep, b, v))
    requires ep.pc.Join? && m[SECONDARY] == 0 ==> m[STATE] == READY
    ensures
      var op := Access(e, ep, b, v);
      var next := AfterClaim(ep, |m|, b, c, Returned(m, op));
      EndpointOk(Exec(m, op), e, next, PartsAfter(r, e, next.pc))
  {
  }

  /** The same in beginInit and while formatting. */
  lemma {:induction false} SelfBegins(m: Memory, e: nat, ep: Endpoint, b: bool, c: bool, v: nat, r: Parts)
    requires EndpointOk(m, e, ep, r) && OpOk(m, Access(e, ep, b, v))
    requires ep.pc.LoadOld? || ep.pc.Stamp? || ep.pc.Swap? || ep.pc.StoreCreator? || ep.pc.StoreBeat? || ep.pc.Format? || ep.pc.FormatBeat?
    requires ep.pc.Swap? && ep.pc.takeover && m[INIT_TOKEN] == ep.pc.expected ==> m[STATE] == INITIALIZING
    ensures
      var op := Access(e, ep, b, v);
      var next := AfterWork(e, ep, b, c, Returned(m, op));
      EndpointOk(Exec(m, op), e, next, PartsAfter(r, e, next.pc))
  {
  }

  /** The same while publishing. */
  lemma {:induction false} SelfPublishes(m: Memory, e: nat, ep: Endpoint, b: bool, c: bool, v: nat, r: Parts)
    requires EndpointOk(m, e, ep, r) && OpOk(m, Access(e, ep, b, v))
    requires ep.pc.Check? || ep.pc.Publish? || ep.pc.Commit? || ep.pc.Bump? || ep.pc.MarkReady?
    ensures
      var op := Access(e, ep, b, v);
      var next := AfterWork(e, ep, b, c, Returned(m, op));
      EndpointOk(Exec(m, op), e, next, PartsAfter(r, e, next.pc))
  {
  }

  /** The same when attached. */
  lemma {:induction false} SelfAttached(m: Memory, e: nat, ep: Endpoint, b: bool, c: bool, v: nat, r: Parts)
    requires EndpointOk(m, e, ep, r) && OpOk(m, Access(e, ep, b, v))
    requires ep.pc.Fill? || ep.pc.LoadEpoch? || ep.pc.Linked? || ep.pc.Beat?
    ensures
      var op := Access(e, ep, b, v);
      var next := AfterWork(e, ep, b, c, Returned(m, op));
      EndpointOk(Exec(m, op), e, next, PartsAfter(r, e, next.pc))
  {
  }

  /** The words the other endpoints rely on. */
  predicate Relied(i: nat) {
    i == STATE || i == PRIMARY || i == SECONDARY || i == EPOCH || GEOMETRY <= i < GEOMETRY + 4
  }

  ghost predicate SameRelied(m: Memory, n: Memory) {
    |m| == |n| && forall i :: 0 <= i < |m| && Relied(i) ==> m[i] == n[i]
  }

  lemma {:induction false} NotTouched(m: Memory, n: Memory, f: nat, ep: Endpoint, r: Parts, q: Parts)
    requires EndpointOk(m, f, ep, r) && SameRelied(m, n)
    requires Owns(ep.pc) ==> m[INIT_TOKEN] == n[INIT_TOKEN]
    requires (Owns(ep.pc) ==> q.owner == Some(f)) && (IsPrimary(ep.pc) ==> q.primary == Some(f)) &&
             (IsSecondary(ep.pc) ==> q.secondary == Some(f))
    ensures EndpointOk(n, f, ep, q)
  {
  }

  /** An endpoint without a part relies on nothing. */
  lemma {:induction false} NoPart(m: Memory, n: Memory, f: nat, ep: Endpoint, r: Parts, q: Parts)
    requires EndpointOk(m, f, ep, r) && !Owns(ep.pc) && !IsPrimary(ep.pc) && !IsSecondary(ep.pc)
    ensures EndpointOk(n, f, ep, q)
  {
  }

  /** What an endpoint that is not the owner writes: nothing others rely on, unless it wins
      the state word, joins, or detaches. */
  lemma {:induction false} QuietAccess(m: Memory, e: nat, ep: Endpoint, b: bool, v: nat)
    requires |ep.geo| == 4 && !Owns(ep.pc) && OpOk(m, Access(e, ep, b, v))
    requires !ep.pc.ClaimEmpty? && !ep.pc.ClaimDead? && !ep.pc.Join? && !ep.pc.Linked?
    ensures
      var n := Exec(m, Access(e, ep, b, v));
      SameRelied(m, n) && (n[INIT_TOKEN] != m[INIT_TOKEN] ==> ep.pc.Swap? && ep.pc.takeover && m[INIT_TOKEN] == ep.pc.expected)
  {
  }

  /** Which parts a step can take. */
  lemma {:induction false} NewPartClaim(ep: Endpoint, words: nat, b: bool, c: bool, x: nat)
    requires Claiming(ep.pc)
    ensures
      var next := AfterClaim(ep, words, b, c, x).pc;
      (Owns(next) ==> x == 1 && (ep.pc.ClaimEmpty? || ep.pc.ClaimDead?)) &&
      !IsPrimary(next) && (IsSecondary(next) ==> x == 1 && ep.pc.Join?)
  {
  }

  lemma {:induction false} NewPartWork(e: nat, ep: Endpoint, b: bool, c: bool, x: nat)
    requires !Halted(ep.pc) && !Claiming(ep.pc)
    ensures
      var next := AfterWork(e, ep, b, c, x).pc;
      (Owns(next) ==> Owns(ep.pc) || (x == 1 && ep.pc.Swap?)) &&
      (IsPrimary(next) ==> IsPrimary(ep.pc) || ep.pc.MarkReady?) && (IsSecondary(next) ==> IsSecondary(ep.pc))
  {
  }

  /** The endpoints that do not act. */
  lemma {:induction false} OtherKeeps(s: State, a: Action, f: nat, r: Parts)
    requires Invariant(s, r) && Enabled(s, a) && VerdictHolds(s, a) && a.Act? && f in s.eps && f != a.e
    ensures EndpointOk(Apply(s, a).mem, f, s.eps[f], PartsAfter(r, a.e, NextEndpoint(s, a).pc))
  {
    var ep, m, n := s.eps[a.e], s.mem, Apply(s, a).mem;
    var q := PartsAfter(r, a.e, NextEndpoint(s, a).pc);
    assert EndpointOk(m, a.e, ep, r) && EndpointOk(m, f, s.eps[f], r);
    if Claiming(ep.pc) {
      NewPartClaim(ep, |m|, a.b, a.c, Returned(m, OpOf(s, a)));
    } else {
      NewPartWork(a.e, ep, a.b, a.c, Returned(m, OpOf(s, a)));
    }
    if Owns(ep.pc) || (ep.pc.ClaimEmpty? && m[STATE] == EMPTY) || (ep.pc.ClaimDead? && m[STATE] == READY) {
      NoPart(m, n, f, s.eps[f], r, q);
    } else if ep.pc.Linked? || ep.pc.Join? {
    } else {
      if !ep.pc.ClaimEmpty? && !ep.pc.ClaimDead? {
        QuietAccess(m, a.e, ep, a.b, a.v);
      }
      NotTouched(m, n, f, s.eps[f], r, q);
    }
  }

  lemma {:induction false} ReadyKeeps(s: State, a: Action, r: Parts)
    requires Invariant(s, r) && Enabled(s, a) && VerdictHolds(s, a) && a.Act?
    ensures ReadyOk(Apply(s, a), PartsAfter(r, a.e, NextEndpoint(s, a).pc))
  {
    var ep, m, op := s.eps[a.e], s.mem, OpOf(s, a);
    assert EndpointOk(m, a.e, ep, r);
    SameEndpoint(a.e, ep, |m|, a.b, a.c, Returned(m, op));
    if Claiming(ep.pc) {
      NewPartClaim(ep, |m|, a.b, a.c, Returned(m, op));
    } else {
      NewPartWork(a.e, ep, a.b, a.c, Returned(m, op));
    }
    if !Owns(ep.pc) {
      KeepsGeometry(m, a.e, ep, a.b, a.v);
    }
    assert ep.pc.MarkReady? ==> GeometryUpTo(Exec(m, op), ep.geo, 4);
  }

  /** Only the owner of the initialization writes the geometry or marks the segment Ready. */
  lemma {:induction false} KeepsGeometry(m: Memory, e: nat, ep: Endpoint, b: bool, v: nat)
    requires |ep.geo| == 4 && !Owns(ep.pc) && OpOk(m, Access(e, ep, b, v))
    ensures
      var n := Exec(m, Access(e, ep, b, v));
      |n| == |m| && (n[STATE] == READY ==> m[STATE] == READY) && forall i :: GEOMETRY <= i < GEOMETRY + 4 ==> n[i] == m[i]
  {
  }

  /** Whoever puts a token there initializes the segment, and it is gone before it is Ready. */
  lemma {:induction false} TokenKeeps(m: Memory, e: nat, ep: Endpoint, b: bool, v: nat, r: Parts)
    requires EndpointOk(m, e, ep, r) && TokenOk(m) && OpOk(m, Access(e, ep, b, v))
    requires ep.pc.Swap? && ep.pc.takeover && m[INIT_TOKEN] == ep.pc.expected && ep.pc.expected == 0 ==>
      m[STATE] == INITIALIZING
    ensures TokenOk(Exec(m, Access(e, ep, b, v)))
  {
  }

  lemma {:induction false} ActKeeps(s: State, a: Action, r: Parts)
    requires Invariant(s, r) && Enabled(s, a) && VerdictHolds(s, a) && a.Act?
    ensures Invariant(Apply(s, a), PartsAfter(r, a.e, NextEndpoint(s, a).pc))
  {
    var t, q := Apply(s, a), PartsAfter(r, a.e, NextEndpoint(s, a).pc);
    ReadyKeeps(s, a, r);
    TokenKeeps(s.mem, a.e, s.eps[a.e], a.b, a.v, r);
    forall f | f in t.eps ensures EndpointOk(t.mem, f, t.eps[f], q) {
      if f != a.e {
        OtherKeeps(s, a, f, r);
      } else {
        SelfKeeps(s, a, r);
      }
    }
  }

  lemma {:induction false} SelfKeeps(s: State, a: Action, r: Parts)
    requires Invariant(s, r) && Enabled(s, a) && VerdictHolds(s, a) && a.Act?
    ensures EndpointOk(Apply(s, a).mem, a.e, NextEndpoint(s, a), PartsAfter(r, a.e, NextEndpoint(s, a).pc))
  {
    var ep := s.eps[a.e];
    assert EndpointOk(s.mem, a.e, ep, r);
    if Claiming(ep.pc) {
      SelfClaim(s.mem, a.e, ep, a.b, a.c, a.v, r);
    } else if ep.pc.Check? || ep.pc.Publish? || ep.pc.Commit? || ep.pc.Bump? || ep.pc.MarkReady? {
      SelfPublishes(s.mem, a.e, ep, a.b, a.c, a.v, r);
    } else if ep.pc.Fill? || ep.pc.LoadEpoch? || ep.pc.Linked? || ep.pc.Beat? {
      SelfAttached(s.mem, a.e, ep, a.b, a.c, a.v, r);
    } else {
      SelfBegins(s.mem, a.e, ep, a.b, a.c, a.v, r);
    }
  }

  lemma {:induction false} StepKeeps(s: State, a: Action, r: Parts) returns (q: Parts)
    requires Invariant(s, r) && Enabled(s, a) && VerdictHolds(s, a)
    ensures Invariant(Apply(s, a), q)
  {
    q := r;
    if a.Act? {
      ActKeeps(s, a, r);
      q := PartsAfter(r, a.e, NextEndpoint(s, a).pc);
    }
  }

  lemma {:induction false} RunKeepsInvariant(states: seq<State>, actions: seq<Action>, n: nat) returns (r: Parts)
    requires IsCrashRun(states, actions) && n < |states|
    ensures Invariant(states[n], r)
  {
    if n == 0 {
      r := Parts(None, None, None);
    } else {
      r := RunKeepsInvariant(states, actions, n - 1);
      assert StepAt(states, actions, n - 1) && VerdictHolds(states[n - 1], actions[n - 1]);
      r := StepKeeps(states[n - 1], actions[n - 1], r);
    }
  }

  // ---------------------------------------------------------------------- results

  /** Never two initializers: at most one endpoint is responsible for the initialization, and
      while there is one nobody is attached. */
  lemma {:induction false} OneInitializer(states: seq<State>, actions: seq<Action>, n: nat, e: nat, f: nat)
    requires IsCrashRun(states, actions) && n < |states| && e in states[n].eps && f in states[n].eps
    requires Owns(states[n].eps[e].pc)
    ensures Owns(states[n].eps[f].pc) ==> e == f
    ensures !IsPrimary(states[n].eps[f].pc) && !IsSecondary(states[n].eps[f].pc)
  {
    var r := RunKeepsInvariant(states, actions, n);
    assert EndpointOk(states[n].mem, e, states[n].eps[e], r) && EndpointOk(states[n].mem, f, states[n].eps[f], r);
  }

  /** At most one live Primary and one live Secondary, each recorded in its slot. */
  lemma {:induction false} OneEndpointPerSlot(states: seq<State>, actions: seq<Action>, n: nat, e: nat, f: nat)
    requires IsCrashRun(states, actions) && n < |states| && e in states[n].eps && f in states[n].eps
    ensures IsPrimary(states[n].eps[e].pc) && IsPrimary(states[n].eps[f].pc) ==> e == f
    ensures IsSecondary(states[n].eps[e].pc) && IsSecondary(states[n].eps[f].pc) ==> e == f
    ensures IsPrimary(states[n].eps[e].pc) ==> states[n].mem[PRIMARY] == e
    ensures IsSecondary(states[n].eps[e].pc) ==> states[n].mem[SECONDARY] == e
  {
    var r := RunKeepsInvariant(states, actions, n);
    assert EndpointOk(states[n].mem, e, states[n].eps[e], r) && EndpointOk(states[n].mem, f, states[n].eps[f], r);
  }

  /** A live Primary and a live Secondary are on the same epoch, that of a Ready segment. */
  lemma {:induction false} SameEpoch(states: seq<State>, actions: seq<Action>, n: nat, p: nat, q: nat)
    requires IsCrashRun(states, actions) && n < |states| && p in states[n].eps && q in states[n].eps
    requires states[n].eps[p].pc.Linked? && states[n].eps[q].pc.Linked?
    ensures states[n].eps[p].pc.epoch == states[n].eps[q].pc.epoch == states[n].mem[EPOCH]
    ensures states[n].mem[STATE] == READY
  {
    var r := RunKeepsInvariant(states, actions, n);
    assert EndpointOk(states[n].mem, p, states[n].eps[p], r) && EndpointOk(states[n].mem, q, states[n].eps[q], r);
  }

  /** A Ready segment records exactly the geometry of its Primary. */
  lemma {:induction false} ReadyRecordsGeometry(states: seq<State>, actions: seq<Action>, n: nat)
    requires IsCrashRun(states, actions) && n < |states| && states[n].mem[STATE] == READY
    ensures exists p :: p in states[n].eps && states[n].mem[GEOMETRY..GEOMETRY + 4] == states[n].eps[p].geo &&
              forall f :: f in states[n].eps && IsPrimary(states[n].eps[f].pc) ==> f == p
  {
    var r := RunKeepsInvariant(states, actions, n);
    var s, p := states[n], r.primary.value;
    assert s.mem[GEOMETRY..GEOMETRY + 4] == s.eps[p].geo;
    forall f | f in s.eps && IsPrimary(s.eps[f].pc) ensures f == p {
      assert EndpointOk(s.mem, f, s.eps[f], r);
    }
  }
}
