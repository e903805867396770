/** Shutdown against concurrent requests (advanced_request.go): the in-flight counter,
    the shutting-down flag and the wake token, as interleaved atomic steps of any number
    of requests and of any number of Shutdown calls. */
module Shutdown {

  /** Where a received request is. */
  datatype Request =
    | Counted    // newRequestCtx added it to inflightN
    | Accepted   // the flag was not set: handed to the request queue
    | Refused    // the flag was set: answered with ErrCodeShuttingDown
    | SawZero    // its requestDone brought the counter to zero
    | Waking     // ... and then found the flag set: about to send the token
    | Ended
  {
    predicate InFlight() {
      Counted? || Accepted? || Refused?
    }

    /** Will send the wake token if the flag is set. */
    predicate Waker() {
      SawZero? || Waking?
    }
  }

  /** Where a call of Shutdown is. */
  datatype Call =
    | Checking    // the flag is set; about to read the counter
    | Waiting     // read a positive counter: waits for the token or its context
    | Completed   // read zero: Shutdown returns nil
    | Canceled

  datatype State = State(inflightN: int, shuttingDown: bool, token: bool, requests: map<nat, Request>, calls: map<nat, Call>)

  const Init := State(0, false, false, map[], map[])

  datatype Action =
    | Arrive(r: nat)       // newRequestCtx: inflightN.Add(1)
    | Decide(r: nat)       // routeRequest loads the flag
    | Release(r: nat)      // requestDone: inflightN.Add(-1)
    | LoadFlag(r: nat)     // requestDone loads the flag after it saw zero
    | SendToken(r: nat)    // requestDone sends on drained (capacity 1, never blocks)
    | Begin(c: nat)        // Shutdown stores the flag
    | Check(c: nat)        // Shutdown loads the counter
    | TakeToken(c: nat)    // Shutdown receives from drained
    | GiveUp(c: nat)       // the context of Shutdown ends, or the link is closed

  predicate RequestIs(s: State, r: nat, q: Request) {
    r in s.requests && s.requests[r] == q
  }

  predicate CallIs(s: State, c: nat, k: Call) {
    c in s.calls && s.calls[c] == k
  }

  predicate Enabled(s: State, a: Action) {
    match a
    case Arrive(r) => r !in s.requests
    case Decide(r) => RequestIs(s, r, Counted)
    case Release(r) => RequestIs(s, r, Accepted) || RequestIs(s, r, Refused)
    case LoadFlag(r) => RequestIs(s, r, SawZero)
    case SendToken(r) => RequestIs(s, r, Waking)
    case Begin(c) => c !in s.calls
    case Check(c) => CallIs(s, c, Checking)
    case TakeToken(c) => CallIs(s, c, Waiting) && s.token
    case GiveUp(c) => CallIs(s, c, Waiting)
  }

  function Apply(s: State, a: Action): State
    requires Enabled(s, a)
  {
    match a
    case Arrive(r) => s.(inflightN := s.inflightN + 1, requests := s.requests[r := Counted])
    case Decide(r) => s.(requests := s.requests[r := if s.shuttingDown then Refused else Accepted])
    case Release(r) =>
      s.(inflightN := s.inflightN - 1, requests := s.requests[r := if s.inflightN == 1 then SawZero else Ended])
    case LoadFlag(r) => s.(requests := s.requests[r := if s.shuttingDown then Waking else Ended])
    case SendToken(r) => s.(token := true, requests := s.requests[r := Ended])
    case Begin(c) => s.(shuttingDown := true, calls := s.calls[c := Checking])
    case Check(c) => s.(calls := s.calls[c := if s.inflightN > 0 then Waiting else Completed])
    case TakeToken(c) => s.(token := false, calls := s.calls[c := Checking])
    case GiveUp(c) => s.(calls := s.calls[c := Canceled])
  }

  function InFlight(s: State): set<nat> {
    set r | r in s.requests && s.requests[r].InFlight()
  }

  ghost predicate SomeWaker(s: State) {
    exists r :: r in s.requests && s.requests[r].Waker()
  }

  ghost predicate Invariant(s: State) {
    // the counter counts exactly the requests received and not yet released
    s.inflightN == |InFlight(s)| &&
    // the flag is never cleared while Shutdown is or was called
    (s.calls != map[] ==> s.shuttingDown) &&
    // after a completed Shutdown nothing accepted is left, and nothing new is accepted
    (forall c, r :: CallIs(s, c, Completed) && r in s.requests ==> !s.requests[r].Accepted?)
  }

  /** A request that stays in flight, or out of it, does not change the count. */
  lemma {:induction false} SameCount(s: State, r: nat, q: Request)
    requires r in s.requests && (s.requests[r].InFlight() <==> q.InFlight())
    ensures InFlight(s.(requests := s.requests[r := q])) == InFlight(s)
  {
  }

  lemma {:induction false} CounterStep(s: State, a: Action)
    requires s.inflightN == |InFlight(s)| && Enabled(s, a)
    ensures Apply(s, a).inflightN == |InFlight(Apply(s, a))|
  {
    var t := Apply(s, a);
    if a.Arrive? {
      assert InFlight(t) == InFlight(s) + {a.r};
    } else if a.Release? {
      assert InFlight(t) == InFlight(s) - {a.r};
    } else if a.Decide? || a.LoadFlag? || a.SendToken? {
      SameCount(s, a.r, t.requests[a.r]);
      assert InFlight(t) == InFlight(s.(requests := t.requests));
    } else {
      assert InFlight(t) == InFlight(s);
    }
  }

  lemma {:induction false} NoneAccepted(s: State, r: nat)
    requires s.inflightN == |InFlight(s)| && s.inflightN <= 0 && r in s.requests
    ensures !s.requests[r].InFlight()
  {
    assert InFlight(s) == {};
    assert r !in InFlight(s);
  }

  lemma {:induction false} DrainStep(s: State, a: Action, c: nat, r: nat)
    requires Invariant(s) && Enabled(s, a)
    requires CallIs(Apply(s, a), c, Completed) && r in Apply(s, a).requests
    ensures !Apply(s, a).requests[r].Accepted?
  {
    if CallIs(s, c, Completed) {
      assert s.shuttingDown;
    } else if r in s.requests {
      NoneAccepted(s, r);
    }
  }

  lemma {:induction false} StepKeepsInvariant(s: State, a: Action)
    requires Invariant(s) && Enabled(s, a)
    ensures Invariant(Apply(s, a))
  {
    var t := Apply(s, a);
    CounterStep(s, a);
    forall c, r | CallIs(t, c, Completed) && r in t.requests ensures !t.requests[r].Accepted? {
      DrainStep(s, a, c, r);
    }
  }

  // -------------------------------------------------------------------- runs

  ghost predicate StepAt(states: seq<State>, actions: seq<Action>, i: nat)
    requires i < |actions| && |states| == |actions| + 1
  {
    Enabled(states[i], actions[i]) && states[i + 1] == Apply(states[i], actions[i])
  }

  ghost predicate IsRun(states: seq<State>, actions: seq<Action>) {
    |states| == |actions| + 1 && states[0] == Init && forall i: nat :: i < |actions| ==> StepAt(states, actions, i)
  }

  lemma {:induction false} RunKeepsInvariant(states: seq<State>, actions: seq<Action>, n: nat)
    requires IsRun(states, actions) && n < |states|
    ensures Invariant(states[n])
  {
    if n > 0 {
      RunKeepsInvariant(states, actions, n - 1);
      assert StepAt(states, actions, n - 1);
      StepKeepsInvariant(states[n - 1], actions[n - 1]);
    }
  }

  /** In every state of every run the counter is the number of unreleased requests, and
      once a Shutdown call completed no request is accepted any more: neither in that
      state nor in any later one. */
  lemma {:induction false} CompletedShutdownAcceptsNothing(states: seq<State>, actions: seq<Action>, i: nat, j: nat, c: nat, r: nat)
    requires IsRun(states, actions) && i <= j < |states|
    requires CallIs(states[i], c, Completed)
    ensures states[j].inflightN == |InFlight(states[j])|
    ensures !RequestIs(states[j], r, Accepted)
  {
    RunKeepsInvariant(states, actions, j);
    CompletedStays(states, actions, i, j, c);
    if r in states[j].requests {
      assert CallIs(states[j], c, Completed);
    }
  }

  lemma {:induction false} CompletedStays(states: seq<State>, actions: seq<Action>, i: nat, j: nat, c: nat)
    requires IsRun(states, actions) && i <= j < |states|
    requires CallIs(states[i], c, Completed)
    ensures CallIs(states[j], c, Completed)
    decreases j
  {
    if i < j {
      CompletedStays(states, actions, i, j - 1, c);
      assert StepAt(states, actions, j - 1);
      CompletedStep(states[j - 1], actions[j - 1], c);
    }
  }

  lemma {:induction false} CompletedStep(s: State, a: Action, c: nat)
    requires Enabled(s, a) && CallIs(s, c, Completed)
    ensures CallIs(Apply(s, a), c, Completed)
  {
  }

  // ------------------------------------------------------------ what is decided when

  ghost predicate BegunBefore(actions: seq<Action>, n: nat)
    requires n <= |actions|
  {
    exists i :: 0 <= i < n && actions[i].Begin?
  }

  /** The flag is set exactly if some call of Shutdown has begun. */
  lemma {:induction false} FlagIsBegun(states: seq<State>, actions: seq<Action>, n: nat)
    requires IsRun(states, actions) && n < |states|
    ensures states[n].shuttingDown <==> BegunBefore(actions, n)
  {
    if n > 0 {
      FlagIsBegun(states, actions, n - 1);
      assert StepAt(states, actions, n - 1);
      if BegunBefore(actions, n - 1) {
        var i :| 0 <= i < n - 1 && actions[i].Begin?;
        assert BegunBefore(actions, n);
      }
    }
  }

  /** A request is accepted exactly if no call of Shutdown had begun when it was decided. */
  lemma {:induction false} AcceptedBeforeShutdown(states: seq<State>, actions: seq<Action>, n: nat, r: nat)
    requires IsRun(states, actions) && n < |actions| && actions[n] == Decide(r)
    ensures RequestIs(states[n + 1], r, if BegunBefore(actions, n) then Refused else Accepted)
  {
    FlagIsBegun(states, actions, n);
    assert StepAt(states, actions, n);
  }

  lemma {:induction false} DecisionStays(s: State, a: Action, r: nat, q: Request)
    requires Enabled(s, a) && RequestIs(s, r, q) && (q.Accepted? || q.Refused?) && a != Release(r)
    ensures RequestIs(Apply(s, a), r, q)
  {
  }

  /** What was decided about a request holds until it is released. */
  lemma {:induction false} DecisionHolds(states: seq<State>, actions: seq<Action>, i: nat, n: nat, r: nat, q: Request)
    requires IsRun(states, actions) && i <= n < |states| && RequestIs(states[i], r, q) && (q.Accepted? || q.Refused?)
    requires forall j :: i <= j < n ==> actions[j] != Release(r)
    ensures RequestIs(states[n], r, q)
  {
    if i < n {
      DecisionHolds(states, actions, i, n - 1, r, q);
      assert StepAt(states, actions, n - 1);
      DecisionStays(states[n - 1], actions[n - 1], r, q);
    }
  }

  /** A call of Shutdown completes exactly if nothing is in flight when it looks; otherwise it waits. */
  lemma {:induction false} CompletesIffDrained(states: seq<State>, actions: seq<Action>, n: nat, c: nat)
    requires IsRun(states, actions) && n < |actions| && actions[n] == Check(c)
    ensures CallIs(states[n + 1], c, if InFlight(states[n]) == {} then Completed else Waiting)
  {
    RunKeepsInvariant(states, actions, n);
    assert StepAt(states, actions, n);
    if InFlight(states[n]) != {} {
      var r :| r in InFlight(states[n]);
      assert |InFlight(states[n])| > 0;
    }
  }

  ghost predicate GivenUpBefore(actions: seq<Action>, n: nat, c: nat)
    requires n <= |actions|
  {
    exists i: nat :: i < n && actions[i] == GiveUp(c)
  }

  lemma {:induction false} CanceledStep(s: State, a: Action, c: nat)
    requires Enabled(s, a)
    ensures CallIs(Apply(s, a), c, Canceled) <==> CallIs(s, c, Canceled) || a == GiveUp(c)
  {
  }

  /** A call of Shutdown is canceled exactly if its context ended, or the link was closed, while it waited. */
  lemma {:induction false} CanceledIffGivenUp(states: seq<State>, actions: seq<Action>, n: nat, c: nat)
    requires IsRun(states, actions) && n < |states|
    ensures CallIs(states[n], c, Canceled) <==> GivenUpBefore(actions, n, c)
  {
    if n > 0 {
      CanceledIffGivenUp(states, actions, n - 1, c);
      assert StepAt(states, actions, n - 1);
      CanceledStep(states[n - 1], actions[n - 1], c);
      if GivenUpBefore(actions, n - 1, c) {
        assert GivenUpBefore(actions, n, c);
      }
    }
  }

  // ---------------------------------------------------------------- the wake-up

  /** The wake-up is on its way if it is due. */
  ghost predicate WakeUpDue(s: State) {
    s.inflightN == 0 ==> s.token || SomeWaker(s)
  }

  /** Only the receipt of the token undoes a wake-up that is on its way. */
  lemma {:induction false} WakeUpStays(s: State, a: Action)
    requires Invariant(s) && s.shuttingDown && WakeUpDue(s) && Enabled(s, a) && !a.TakeToken?
    ensures WakeUpDue(Apply(s, a))
  {
    var t := Apply(s, a);
    if t.inflightN == 0 && !t.token {
      if a.Release? || a.LoadFlag? {
        assert t.requests[a.r].Waker();
      } else {
        if a.Decide? {
          NoneAccepted(s, a.r);
        }
        var r :| r in s.requests && s.requests[r].Waker();
        assert r in t.requests && t.requests[r].Waker();
      }
    }
  }

  /** c is in the wait that its read of a positive counter at step i began. */
  ghost predicate WaitsSince(states: seq<State>, actions: seq<Action>, i: nat, n: nat, c: nat)
    requires IsRun(states, actions) && n < |states|
  {
    i < n && actions[i] == Check(c) && forall j :: i < j <= n ==> CallIs(states[j], c, Waiting)
  }

  /** Every wait has such a beginning. */
  lemma {:induction false} WaitStart(states: seq<State>, actions: seq<Action>, n: nat, c: nat) returns (i: nat)
    requires IsRun(states, actions) && n < |states| && CallIs(states[n], c, Waiting)
    ensures WaitsSince(states, actions, i, n, c)
  {
    assert StepAt(states, actions, n - 1);
    if CallIs(states[n - 1], c, Waiting) {
      i := WaitStart(states, actions, n - 1, c);
    } else {
      i := n - 1;
    }
  }

  lemma {:induction false} WakeUpDuringWait(states: seq<State>, actions: seq<Action>, i: nat, n: nat, c: nat)
    requires IsRun(states, actions) && n < |states| && WaitsSince(states, actions, i, n, c)
    requires forall j :: i < j < n ==> !actions[j].TakeToken?
    ensures WakeUpDue(states[n])
  {
    RunKeepsInvariant(states, actions, n - 1);
    assert StepAt(states, actions, n - 1);
    if i + 1 < n {
      WakeUpDuringWait(states, actions, i, n - 1, c);
      assert CallIs(states[n - 1], c, Waiting);
      WakeUpStays(states[n - 1], actions[n - 1]);
    }
  }

  /** No lost wake-up: a Shutdown call during whose wait no other call waits is always woken
      when nothing is in flight, whatever other calls did before or do without waiting. */
  lemma {:induction false} SingleShutdownIsWoken(states: seq<State>, actions: seq<Action>, i: nat, n: nat, c: nat)
    requires IsRun(states, actions) && n < |states| && WaitsSince(states, actions, i, n, c)
    requires forall j, d :: i < j <= n && CallIs(states[j], d, Waiting) ==> d == c
    requires states[n].inflightN == 0
    ensures states[n].token || SomeWaker(states[n])
  {
    forall j | i < j < n ensures !actions[j].TakeToken? {
      assert StepAt(states, actions, j) && CallIs(states[j + 1], c, Waiting);
    }
    WakeUpDuringWait(states, actions, i, n, c);
  }

  /** A waiting call that only its own context can still end. */
  ghost predicate Stuck(s: State, c: nat) {
    CallIs(s, c, Waiting) && s.inflightN == 0 && !s.token && !SomeWaker(s)
  }

  /** A call gets stuck in one way only: another call, which waited at the same time, received
      the token during its wait. */
  lemma {:induction false} StuckMeansTokenTaken(states: seq<State>, actions: seq<Action>, n: nat, c: nat) returns (i: nat, j: nat)
    requires IsRun(states, actions) && n < |states| && Stuck(states[n], c)
    ensures WaitsSince(states, actions, i, n, c) && i < j < n
    ensures actions[j].TakeToken? && actions[j].c != c && CallIs(states[j], actions[j].c, Waiting)
  {
    i := WaitStart(states, actions, n, c);
    if forall j :: i < j < n ==> !actions[j].TakeToken? {
      WakeUpDuringWait(states, actions, i, n, c);
      assert false;
    }
    j :| i < j < n && actions[j].TakeToken?;
    assert StepAt(states, actions, j) && CallIs(states[j + 1], c, Waiting);
  }

  lemma {:induction false} ExtendRun(states: seq<State>, actions: seq<Action>, a: Action) returns (more: seq<State>)
    requires IsRun(states, actions) && Enabled(states[|actions|], a)
    ensures more == states + [Apply(states[|actions|], a)] && IsRun(more, actions + [a])
  {
    more := states + [Apply(states[|actions|], a)];
    forall i: nat | i < |actions + [a]| ensures StepAt(more, actions + [a], i) {
      assert i < |actions| ==> StepAt(states, actions, i);
    }
  }

  lemma {:induction false} TwoCallsWait() returns (states: seq<State>, actions: seq<Action>)
    ensures IsRun(states, actions)
    ensures
      var s := states[|actions|];
      s.inflightN == 1 && s.shuttingDown && !s.token && s.requests.Keys == {0} && s.requests[0] == Accepted &&
      CallIs(s, 1, Waiting) && CallIs(s, 2, Waiting)
  {
    states, actions := [Init], [];
    states := ExtendRun(states, actions, Arrive(0)); actions := actions + [Arrive(0)];
    states := ExtendRun(states, actions, Decide(0)); actions := actions + [Decide(0)];
    states := ExtendRun(states, actions, Begin(1)); actions := actions + [Begin(1)];
    states := ExtendRun(states, actions, Begin(2)); actions := actions + [Begin(2)];
    states := ExtendRun(states, actions, Check(1)); actions := actions + [Check(1)];
    states := ExtendRun(states, actions, Check(2)); actions := actions + [Check(2)];
  }

  /** Two concurrent Shutdown calls that wait for the same request: there is a run in
      which the single token wakes one of them and the other waits on although nothing
      is in flight. */
  lemma {:induction false} SecondShutdownCanStick() returns (states: seq<State>, actions: seq<Action>)
    ensures IsRun(states, actions)
    ensures Stuck(states[|actions|], 2) && CallIs(states[|actions|], 1, Completed)
  {
    states, actions := TwoCallsWait();
    states := ExtendRun(states, actions, Release(0)); actions := actions + [Release(0)];
    states := ExtendRun(states, actions, LoadFlag(0)); actions := actions + [LoadFlag(0)];
    states := ExtendRun(states, actions, SendToken(0)); actions := actions + [SendToken(0)];
    states := ExtendRun(states, actions, TakeToken(1)); actions := actions + [TakeToken(1)];
    states := ExtendRun(states, actions, Check(1)); actions := actions + [Check(1)];
  }

  /** A stuck call stays stuck as long as no further request arrives and its context
      lives. */
  lemma {:induction false} StuckStays(s: State, a: Action, c: nat)
    requires Stuck(s, c) && Enabled(s, a) && !a.Arrive? && a != GiveUp(c)
    requires s.inflightN == |InFlight(s)|
    ensures Stuck(Apply(s, a), c)
  {
    var t := Apply(s, a);
    forall r | r in s.requests ensures !s.requests[r].InFlight() { NoneAccepted(s, r); }
    assert forall r :: r in t.requests ==> r in s.requests && t.requests[r] == s.requests[r];
  }

  /** Every other waiting call can still be woken without a new request: by the token, or by
      the request that is about to send it. */
  lemma {:induction false} WakesUnlessStuck(states: seq<State>, actions: seq<Action>, c: nat) returns (more: seq<State>, acts: seq<Action>)
    requires IsRun(states, actions) && CallIs(states[|actions|], c, Waiting) && states[|actions|].inflightN == 0
    requires !Stuck(states[|actions|], c)
    ensures IsRun(more, actions + acts) && CallIs(more[|actions + acts|], c, Checking)
    ensures forall a :: a in acts ==> !a.Arrive?
  {
    var s := states[|actions|];
    RunKeepsInvariant(states, actions, |actions|);
    more, acts := states, [];
    assert actions + acts == actions;
    if !s.token {
      var r :| r in s.requests && s.requests[r].Waker();
      if s.requests[r].SawZero? {
        more := ExtendRun(more, actions + acts, LoadFlag(r));
        acts := acts + [LoadFlag(r)];
        assert actions + acts == actions + [LoadFlag(r)];
      }
      more := ExtendRun(more, actions + acts, SendToken(r));
      assert actions + acts + [SendToken(r)] == actions + (acts + [SendToken(r)]);
      acts := acts + [SendToken(r)];
    }
    more := ExtendRun(more, actions + acts, TakeToken(c));
    assert actions + acts + [TakeToken(c)] == actions + (acts + [TakeToken(c)]);
    acts := acts + [TakeToken(c)];
  }

  // Two waiting calls: whatever the state, one of them can be left behind.

  ghost predicate PathTo(states: seq<State>, actions: seq<Action>, s: State, t: State) {
    |states| == |actions| + 1 && states[0] == s && states[|actions|] == t &&
    forall i :: 0 <= i < |actions| ==>
      Enabled(states[i], actions[i]) && !actions[i].Arrive? && states[i + 1] == Apply(states[i], actions[i])
  }

  /** Some steps lead from s to t without a new request. */
  ghost predicate Drains(s: State, t: State) {
    exists states: seq<State>, actions: seq<Action> :: PathTo(states, actions, s, t)
  }

  lemma {:induction false} DrainsNowhere(s: State)
    ensures Drains(s, s)
  {
    assert PathTo([s], [], s, s);
  }

  lemma {:induction false} DrainsOneMore(s: State, t: State, a: Action)
    requires Drains(s, t) && Enabled(t, a) && !a.Arrive?
    ensures Drains(s, Apply(t, a))
  {
    var states: seq<State>, actions: seq<Action> :| PathTo(states, actions, s, t);
    assert PathTo(states + [Apply(t, a)], actions + [a], s, Apply(t, a));
  }

  /** A request runs to its end; the calls do not notice. */
  lemma {:induction false} RequestEnds(s: State, t: State, r: nat) returns (u: State)
    requires Drains(s, t) && Invariant(t) && t.shuttingDown && r in t.requests
    ensures Drains(s, u) && Invariant(u) && u.shuttingDown && u.calls == t.calls && u.requests == t.requests[r := Ended]
    decreases match t.requests[r] case Counted => 5 case Accepted => 4 case Refused => 4 case SawZero => 3 case Waking => 2 case Ended => 1
  {
    if t.requests[r] == Ended {
      u := t;
    } else {
      var a :=
        match t.requests[r]
        case Counted => Decide(r)
        case SawZero => LoadFlag(r)
        case Waking => SendToken(r)
        case _ => Release(r);
      DrainsOneMore(s, t, a);
      StepKeepsInvariant(t, a);
      u := RequestEnds(s, Apply(t, a), r);
      assert u.requests == t.requests[r := Ended];
    }
  }

  function Open(s: State): set<nat> {
    set r | r in s.requests && s.requests[r] != Ended
  }

  lemma {:induction false} RequestsEnd(s: State, t: State) returns (u: State)
    requires Drains(s, t) && Invariant(t) && t.shuttingDown
    ensures Drains(s, u) && Invariant(u) && u.calls == t.calls && Open(u) == {}
    decreases |Open(t)|
  {
    if Open(t) == {} {
      u := t;
    } else {
      var r :| r in Open(t);
      u := RequestEnds(s, t, r);
      assert Open(u) == Open(t) - {r};
      u := RequestsEnd(s, u);
    }
  }

  /** From every reachable state in which two calls wait, some steps without a new request
      leave one of them stuck: being the only waiting call is what a caller must see to. */
  lemma {:induction false} TwoWaitersCanStick(states: seq<State>, actions: seq<Action>, n: nat, c: nat, d: nat) returns (t: State)
    requires IsRun(states, actions) && n < |states| && c != d
    requires CallIs(states[n], c, Waiting) && CallIs(states[n], d, Waiting)
    ensures Drains(states[n], t) && Stuck(t, c)
  {
    var s := states[n];
    RunKeepsInvariant(states, actions, n);
    DrainsNowhere(s);
    t := RequestsEnd(s, s);
    assert InFlight(t) <= Open(t);
    assert forall r :: r in t.requests ==> r !in Open(t);
    if t.token {
      DrainsOneMore(s, t, TakeToken(d));
      t := Apply(t, TakeToken(d));
    }
  }
}
