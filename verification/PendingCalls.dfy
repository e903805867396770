/** The one-shot response channels of Call (advanced_dispatch.go, advanced_io.go): how
    calls, the receive path and failures share the table of pending calls, and why a
    recycled channel never carries somebody else's response. Each action is one atomic
    step: one critical section of pendingMu, one channel operation, one pool operation. */
module PendingCalls {
  import opened Wire

  const MAX_ABANDONED: nat := 4096

  /** advancedCallKey. Keys are never reused. */
  datatype CallKey = CallKey(stream: nat, message: nat)

  type Chan = nat

  /** What is sent on a channel: the result of the call key. */
  datatype Result = Result(key: CallKey, body: nat)

  /** Where a call is. */
  datatype Caller =
    | Holding(ch: Chan)                       // got a channel from the pool
    | Waiting(ch: Chan)                       // registered, waiting for its result
    | Received(ch: Chan, result: Result)      // took the result, about to recycle ch
    | Removed(ch: Chan)                       // removed its own entry, about to recycle ch
    | Finished(answer: Option<Result>)
  {
    predicate Uses(c: Chan) {
      !Finished? && ch == c
    }
  }

  /** A routed result whose table entry is removed but that is not yet on its channel. */
  datatype Send = Send(ch: Chan, result: Result)

  datatype State = State(
    known: set<Chan>,                // channels ever made
    pool: set<Chan>,                 // pendingPool
    buffered: map<Chan, Result>,     // the value in each channel that holds one
    pending: map<CallKey, Chan>,     // pendingCalls
    abandoned: set<CallKey>,
    abandonedOrder: seq<CallKey>,
    callers: map<CallKey, Caller>,
    sends: map<nat, Send>,
    owner: map<Chan, CallKey>)       // history: the call that took each channel last

  const Init := State({}, {}, map[], map[], {}, [], map[], map[], map[])

  datatype Action =
    | Start(key: CallKey, ch: Chan)            // pendingPool.Get: a pooled or a new channel
    | PoolDrop(ch: Chan)                       // the garbage collector empties the pool
    | Register(key: CallKey)                   // registerPendingCall
    | Route(key: CallKey, body: nat, id: nat)  // routeResponse, its critical section
    | Deliver(id: nat)                         // routeResponse, its channel send
    | Fail(key: CallKey, body: nat)            // failPendingCalls, one entry
    | Receive(key: CallKey)                    // awaitResponse takes the result
    | Unregister(key: CallKey)                 // unregisterPendingCall
    | Abandon(key: CallKey)                    // abandonCall
    | Recycle(key: CallKey)                    // pendingPool.Put

  predicate IsWaiting(s: State, key: CallKey) {
    key in s.callers && s.callers[key].Waiting?
  }

  predicate Enabled(s: State, a: Action) {
    match a
    case Start(key, ch) => key !in s.callers && (ch in s.pool || ch !in s.known)
    case PoolDrop(ch) => ch in s.pool
    case Register(key) => key in s.callers && s.callers[key].Holding?
    case Route(_, _, id) => id !in s.sends
    case Deliver(id) => id in s.sends && s.sends[id].ch !in s.buffered  // capacity 1
    case Fail(key, _) => key in s.pending
    case Receive(key) => IsWaiting(s, key) && s.callers[key].ch in s.buffered
    case Unregister(key) => IsWaiting(s, key)
    case Abandon(key) => IsWaiting(s, key)
    case Recycle(key) => key in s.callers && (s.callers[key].Received? || s.callers[key].Removed?)
  }

  function AbandonKey(s: State, key: CallKey): State {
    var full := |s.abandonedOrder| >= MAX_ABANDONED;
    s.(abandoned := (if full then s.abandoned - {s.abandonedOrder[0]} else s.abandoned) + {key},
       abandonedOrder := (if full then s.abandonedOrder[1..] else s.abandonedOrder) + [key])
  }

  function Apply(s: State, a: Action): State
    requires Enabled(s, a)
  {
    match a
    case Start(key, ch) =>
      s.(known := s.known + {ch}, pool := s.pool - {ch}, callers := s.callers[key := Holding(ch)],
         owner := s.owner[ch := key])
    case PoolDrop(ch) =>
      s.(pool := s.pool - {ch})
    case Register(key) =>
      var ch := s.callers[key].ch;
      s.(pending := s.pending[key := ch], callers := s.callers[key := Waiting(ch)])
    case Route(key, body, id) =>
      if key in s.pending then
        s.(pending := s.pending - {key}, sends := s.sends[id := Send(s.pending[key], Result(key, body))])
      else
        s.(abandoned := s.abandoned - {key})
    case Deliver(id) =>
      s.(buffered := s.buffered[s.sends[id].ch := s.sends[id].result], sends := s.sends - {id})
    case Fail(key, body) =>
      var ch := s.pending[key];
      s.(pending := s.pending - {key},
         buffered := if ch in s.buffered then s.buffered else s.buffered[ch := Result(key, body)])
    case Receive(key) =>
      var ch := s.callers[key].ch;
      s.(buffered := s.buffered - {ch}, callers := s.callers[key := Received(ch, s.buffered[ch])])
    case Unregister(key) =>
      var ch := s.callers[key].ch;
      if key in s.pending && s.pending[key] == ch then
        s.(pending := s.pending - {key}, callers := s.callers[key := Removed(ch)])
      else
        s.(callers := s.callers[key := Finished(None)])
    case Abandon(key) =>
      var ch := s.callers[key].ch;
      var s1 := s.(callers := s.callers[key := Finished(None)]);
      if key in s.pending && s.pending[key] == ch then
        AbandonKey(s1.(pending := s.pending - {key}), key)
      else
        s1
    case Recycle(key) =>
      var c := s.callers[key];
      s.(pool := s.pool + {c.ch}, callers := s.callers[key := Finished(if c.Received? then Some(c.result) else None)])
  }

  // ------------------------------------------------------------------ safety

  /** No table entry, value, sender or call knows channel ch. */
  ghost predicate Unused(s: State, ch: Chan) {
    ch !in s.buffered && ch !in s.pending.Values &&
    (forall id :: id in s.sends ==> s.sends[id].ch != ch) &&
    (forall key :: key in s.callers ==> !s.callers[key].Uses(ch))
  }

  /** What the pool's comment promises, and what follows for callers. */
  ghost predicate Safe(s: State) {
    // nobody knows a pooled channel, and it holds no value
    (forall ch :: ch in s.pool ==> Unused(s, ch)) &&
    // a routed result always finds its channel empty: the send never blocks
    (forall id :: id in s.sends ==> s.sends[id].ch !in s.buffered) &&
    // nor does a failure find a full channel and drop its error
    (forall key :: key in s.pending ==> s.pending[key] !in s.buffered) &&
    // a call receives the result of its own key
    (forall key :: key in s.callers && s.callers[key].Received? ==> s.callers[key].result.key == key) &&
    (forall key :: key in s.callers && s.callers[key].Finished? && s.callers[key].answer.Some? ==>
       s.callers[key].answer.value.key == key) &&
    // a call whose entry is gone has its result on the way: none is lost
    (forall key :: IsWaiting(s, key) && key !in s.pending ==> OnTheWay(s, s.callers[key].ch)) &&
    // the memory for late responses is bounded
    |s.abandoned| <= MAX_ABANDONED && |s.abandonedOrder| <= MAX_ABANDONED
  }

  ghost predicate OnTheWay(s: State, ch: Chan) {
    ch in s.buffered || exists id :: id in s.sends && s.sends[id].ch == ch
  }

  /** Channels of calls are known, not pooled, and owned by the call. */
  ghost predicate CallersOk(s: State) {
    s.pool <= s.known && s.owner.Keys == s.known &&
    forall k :: k in s.callers && !s.callers[k].Finished? ==>
      s.callers[k].ch in s.known - s.pool && s.owner[s.callers[k].ch] == k
  }

  /** A table entry belongs to the call that waits on its channel. */
  ghost predicate PendingOk(s: State) {
    forall k :: k in s.pending ==>
      k in s.callers && s.callers[k] == Waiting(s.pending[k]) && s.pending[k] !in s.buffered
  }

  /** The result v, on channel ch or about to be, is that of the channel's owner, which
      waits for it or has given up. */
  ghost predicate IsResultOf(s: State, ch: Chan, v: Result)
    requires CallersOk(s)
  {
    ch in s.known - s.pool && s.owner[ch] == v.key && v.key !in s.pending &&
    v.key in s.callers && (s.callers[v.key] == Waiting(ch) || s.callers[v.key].Finished?)
  }

  ghost predicate ResultsOk(s: State)
    requires CallersOk(s)
  {
    (forall i :: i in s.sends ==> s.sends[i].ch !in s.buffered && IsResultOf(s, s.sends[i].ch, s.sends[i].result)) &&
    (forall i, j :: i in s.sends && j in s.sends && i != j ==> s.sends[i].ch != s.sends[j].ch) &&
    (forall ch :: ch in s.buffered ==> IsResultOf(s, ch, s.buffered[ch]))
  }

  ghost predicate AnswersOk(s: State) {
    (forall k :: k in s.callers && s.callers[k].Received? ==> s.callers[k].result.key == k) &&
    (forall k :: k in s.callers && s.callers[k].Finished? && s.callers[k].answer.Some? ==>
      s.callers[k].answer.value.key == k)
  }

  ghost predicate WaitersOk(s: State) {
    forall k :: IsWaiting(s, k) && k !in s.pending ==> OnTheWay(s, s.callers[k].ch)
  }

  ghost predicate Core(s: State) {
    CallersOk(s) && PendingOk(s) && ResultsOk(s) && AnswersOk(s)
  }

  ghost predicate Invariant(s: State) {
    Core(s) && WaitersOk(s) && AbandonedOk(s)
  }

  ghost predicate AbandonedOk(s: State) {
    s.abandoned <= (set k | k in s.abandonedOrder) &&
    |s.abandonedOrder| <= MAX_ABANDONED &&
    (forall k :: k in s.abandonedOrder ==> k in s.callers && s.callers[k].Finished?) && Distinct(s.abandonedOrder)
  }

  predicate Distinct(order: seq<CallKey>) {
    forall i, j :: 0 <= i < j < |order| ==> order[i] != order[j]
  }

  lemma {:induction false} SetOfSeqBound<T>(s: seq<T>)
    ensures |set x | x in s| <= |s|
  {
    var all := set x | x in s;
    if s != [] {
      SetOfSeqBound(s[1..]);
      assert s == [s[0]] + s[1..];
      assert all == {s[0]} + (set x | x in s[1..]);
    }
  }

  lemma {:induction false} InvariantIsSafe(s: State)
    requires Invariant(s)
    ensures Safe(s)
  {
    SetOfSeqBound(s.abandonedOrder);
    SubsetSize(s.abandoned, set k | k in s.abandonedOrder);
  }

  lemma {:induction false} StartKeepsCore(s: State, key: CallKey, ch: Chan)
    requires Core(s) && Enabled(s, Start(key, ch))
    ensures Core(Apply(s, Start(key, ch)))
  {
    StartKeepsCallers(s, key, ch);
  }

  lemma {:induction false} StartKeepsCallers(s: State, key: CallKey, ch: Chan)
    requires CallersOk(s) && Enabled(s, Start(key, ch))
    ensures CallersOk(Apply(s, Start(key, ch)))
  {
  }

  lemma {:induction false} PoolDropKeepsCore(s: State, ch: Chan)
    requires Core(s) && Enabled(s, PoolDrop(ch))
    ensures Core(Apply(s, PoolDrop(ch)))
  {
  }

  lemma {:induction false} RegisterKeepsCore(s: State, key: CallKey)
    requires Core(s) && Enabled(s, Register(key))
    ensures Core(Apply(s, Register(key)))
  {
  }

  lemma {:induction false} RouteKeepsCore(s: State, key: CallKey, body: nat, id: nat)
    requires Core(s) && Enabled(s, Route(key, body, id))
    ensures Core(Apply(s, Route(key, body, id)))
  {
  }

  lemma {:induction false} DeliverKeepsCore(s: State, id: nat)
    requires Core(s) && Enabled(s, Deliver(id))
    ensures Core(Apply(s, Deliver(id)))
  {
  }

  lemma {:induction false} FailKeepsCore(s: State, key: CallKey, body: nat)
    requires Core(s) && Enabled(s, Fail(key, body))
    ensures Core(Apply(s, Fail(key, body)))
  {
  }

  lemma {:induction false} ReceiveKeepsCore(s: State, key: CallKey)
    requires Core(s) && Enabled(s, Receive(key))
    ensures Core(Apply(s, Receive(key)))
  {
  }

  /** A waiting call takes its entry out of the table and stops waiting. */
  lemma {:induction false} LeaveKeepsCore(s: State, key: CallKey, c: Caller)
    requires Core(s) && IsWaiting(s, key) && key in s.pending
    requires c == Removed(s.callers[key].ch) || c == Finished(None)
    ensures Core(s.(pending := s.pending - {key}, callers := s.callers[key := c]))
  {
  }

  /** It finds its entry gone and leaves the channel behind. */
  lemma {:induction false} LeaveBehindKeepsCore(s: State, key: CallKey)
    requires Core(s) && IsWaiting(s, key) && key !in s.pending
    ensures Core(s.(callers := s.callers[key := Finished(None)]))
  {
  }

  lemma {:induction false} UnregisterKeepsCore(s: State, key: CallKey)
    requires Core(s) && Enabled(s, Unregister(key))
    ensures Core(Apply(s, Unregister(key)))
  {
    if key in s.pending {
      LeaveKeepsCore(s, key, Removed(s.callers[key].ch));
    } else {
      LeaveBehindKeepsCore(s, key);
    }
  }

  lemma {:induction false} AbandonKeepsCore(s: State, key: CallKey)
    requires Core(s) && Enabled(s, Abandon(key))
    ensures Core(Apply(s, Abandon(key)))
  {
    if key in s.pending {
      LeaveKeepsCore(s, key, Finished(None));
      CoreIgnoresAbandoned(
        s.(pending := s.pending - {key}, callers := s.callers[key := Finished(None)]), Apply(s, Abandon(key)));
    } else {
      LeaveBehindKeepsCore(s, key);
    }
  }

  lemma {:induction false} CoreIgnoresAbandoned(s: State, t: State)
    requires Core(s) && t == s.(abandoned := t.abandoned, abandonedOrder := t.abandonedOrder)
    ensures Core(t)
  {
  }

  lemma {:induction false} RecycleKeepsCore(s: State, key: CallKey)
    requires Core(s) && Enabled(s, Recycle(key))
    ensures Core(Apply(s, Recycle(key)))
  {
  }

  lemma {:induction false} CoreStep(s: State, a: Action)
    requires Core(s) && Enabled(s, a)
    ensures Core(Apply(s, a))
  {
    match a
    case Start(key, ch) => StartKeepsCore(s, key, ch);
    case PoolDrop(ch) => PoolDropKeepsCore(s, ch);
    case Register(key) => RegisterKeepsCore(s, key);
    case Route(key, body, id) => RouteKeepsCore(s, key, body, id);
    case Deliver(id) => DeliverKeepsCore(s, id);
    case Fail(key, body) => FailKeepsCore(s, key, body);
    case Receive(key) => ReceiveKeepsCore(s, key);
    case Unregister(key) => UnregisterKeepsCore(s, key);
    case Abandon(key) => AbandonKeepsCore(s, key);
    case Recycle(key) => RecycleKeepsCore(s, key);
  }

  /** A call whose entry is gone still has its result coming. */
  lemma {:induction false} WaitersStep(s: State, a: Action)
    requires Core(s) && WaitersOk(s) && Enabled(s, a)
    ensures WaitersOk(Apply(s, a))
  {
    var t := Apply(s, a);
    forall k | IsWaiting(t, k) && k !in t.pending ensures OnTheWay(t, t.callers[k].ch) {
      ResultComes(s, a, k);
    }
  }

  lemma {:induction false} ResultComes(s: State, a: Action, k: CallKey)
    requires Core(s) && WaitersOk(s) && Enabled(s, a)
    requires IsWaiting(Apply(s, a), k) && k !in Apply(s, a).pending
    ensures OnTheWay(Apply(s, a), Apply(s, a).callers[k].ch)
  {
    var t := Apply(s, a);
    var ch := t.callers[k].ch;
    if k in s.pending {
      EntryGone(s, a, k);
    } else {
      WasWaiting(s, a, k);
      assert OnTheWay(s, ch);
      if ch in s.buffered {
        BufferedStays(s, a, k, ch);
      } else {
        var i :| i in s.sends && s.sends[i].ch == ch;
        SendStays(s, a, i);
      }
    }
  }

  lemma {:induction false} EntryGone(s: State, a: Action, k: CallKey)
    requires Core(s) && Enabled(s, a) && k in s.pending
    requires IsWaiting(Apply(s, a), k) && k !in Apply(s, a).pending
    ensures OnTheWay(Apply(s, a), Apply(s, a).callers[k].ch)
  {
    WhoRemoves(s, a, k);
    if a.Route? {
      assert Apply(s, a).sends[a.id].ch == s.pending[k];
    }
  }

  lemma {:induction false} WhoRemoves(s: State, a: Action, k: CallKey)
    requires PendingOk(s) && Enabled(s, a) && k in s.pending
    requires IsWaiting(Apply(s, a), k) && k !in Apply(s, a).pending
    ensures (a.Route? || a.Fail?) && a.key == k
  {
  }

  lemma {:induction false} WasWaiting(s: State, a: Action, k: CallKey)
    requires Enabled(s, a) && k !in s.pending
    requires IsWaiting(Apply(s, a), k) && k !in Apply(s, a).pending
    ensures IsWaiting(s, k) && s.callers[k] == Apply(s, a).callers[k]
  {
    if a.Register? {
      assert a.key in Apply(s, a).pending;
    }
  }

  lemma {:induction false} BufferedStays(s: State, a: Action, k: CallKey, ch: Chan)
    requires Core(s) && Enabled(s, a) && ch in s.buffered && k in s.callers && s.callers[k] == Waiting(ch)
    requires k in Apply(s, a).callers && Apply(s, a).callers[k] == Waiting(ch)
    ensures ch in Apply(s, a).buffered
  {
  }

  lemma {:induction false} SendStays(s: State, a: Action, i: nat)
    requires Enabled(s, a) && i in s.sends
    ensures OnTheWay(Apply(s, a), s.sends[i].ch)
  {
    var t := Apply(s, a);
    if a != Deliver(i) {
      assert i in t.sends && t.sends[i] == s.sends[i];
    }
  }

  lemma {:induction false} FinishedStays(s: State, a: Action, k: CallKey)
    requires Enabled(s, a) && k in s.callers && s.callers[k].Finished?
    ensures k in Apply(s, a).callers && Apply(s, a).callers[k].Finished?
  {
  }

  /** a adds its key to the abandoned ones. */
  predicate Abandons(s: State, a: Action) {
    a.Abandon? && IsWaiting(s, a.key) && a.key in s.pending && s.pending[a.key] == s.callers[a.key].ch
  }

  lemma {:induction false} OrderStays(s: State, a: Action)
    requires Enabled(s, a) && !Abandons(s, a)
    ensures Apply(s, a).abandonedOrder == s.abandonedOrder && Apply(s, a).abandoned <= s.abandoned
  {
  }

  lemma {:induction false} OrderGrows(order: seq<CallKey>, abandoned: set<CallKey>, key: CallKey)
    requires Distinct(order) && key !in order && abandoned <= (set k | k in order)
    ensures Distinct(order + [key]) && abandoned + {key} <= (set k | k in order + [key])
  {
  }

  lemma {:induction false} OldestLeaves(order: seq<CallKey>, abandoned: set<CallKey>)
    requires Distinct(order) && order != [] && abandoned <= (set k | k in order)
    ensures Distinct(order[1..]) && abandoned - {order[0]} <= (set k | k in order[1..])
  {
    assert order == [order[0]] + order[1..];
  }

  lemma {:induction false} AbandonedStep(s: State, a: Action)
    requires AbandonedOk(s) && Enabled(s, a)
    ensures AbandonedOk(Apply(s, a))
  {
    var o := s.abandonedOrder;
    forall k | k in o ensures k in Apply(s, a).callers && Apply(s, a).callers[k].Finished? {
      FinishedStays(s, a, k);
    }
    if Abandons(s, a) {
      AbandonGrows(s, a.key);
    } else {
      OrderStays(s, a);
    }
  }

  lemma {:induction false} AbandonGrows(s: State, key: CallKey)
    requires AbandonedOk(s) && Enabled(s, Abandon(key)) && Abandons(s, Abandon(key))
    ensures AbandonedOk(Apply(s, Abandon(key)))
  {
    var o := s.abandonedOrder;
    if |o| >= MAX_ABANDONED {
      OldestLeaves(o, s.abandoned);
      OrderGrows(o[1..], s.abandoned - {o[0]}, key);
    } else {
      OrderGrows(o, s.abandoned, key);
    }
  }

  lemma {:induction false} StepKeepsInvariant(s: State, a: Action)
    requires Invariant(s) && Enabled(s, a)
    ensures Invariant(Apply(s, a))
  {
    CoreStep(s, a);
    WaitersStep(s, a);
    AbandonedStep(s, a);
  }

  /** states is a run: from the initial state, one action after the other. */
  ghost predicate IsRun(states: seq<State>, actions: seq<Action>) {
    |states| == |actions| + 1 && states[0] == Init && forall i: nat :: i < |actions| ==> StepAt(states, actions, i)
  }

  ghost predicate StepAt(states: seq<State>, actions: seq<Action>, i: nat)
    requires i < |actions| && |states| == |actions| + 1
  {
    Enabled(states[i], actions[i]) && states[i + 1] == Apply(states[i], actions[i])
  }

  /** Every state of every run is safe, whatever the interleaving of calls, responses
      (duplicate and unsolicited ones included), failures and garbage collections. */
  lemma {:induction false} EveryRunIsSafe(states: seq<State>, actions: seq<Action>, n: nat)
    requires IsRun(states, actions) && n < |states|
    ensures Invariant(states[n]) && Safe(states[n])
  {
    if n > 0 {
      EveryRunIsSafe(states, actions, n - 1);
      assert StepAt(states, actions, n - 1);
      StepKeepsInvariant(states[n - 1], actions[n - 1]);
    }
    InvariantIsSafe(states[n]);
  }

  // ------------------------------------------------------------- where answers come from

  /** v is on its way to its call, or there. */
  ghost predicate Holds(s: State, v: Result) {
    (exists id :: id in s.sends && s.sends[id].result == v) || (exists ch :: ch in s.buffered && s.buffered[ch] == v) ||
    (exists k :: k in s.callers && Has(s.callers[k], v))
  }

  /** The call has taken v. */
  predicate Has(c: Caller, v: Result) {
    (c.Received? && c.result == v) || c == Finished(Some(v))
  }

  /** a answers the pending call k with body: a response that arrives for it, or its failure. */
  predicate Answers(s: State, a: Action, k: CallKey, body: nat) {
    k in s.pending && ((a.Route? && a.key == k && a.body == body) || a == Fail(k, body))
  }

  lemma {:induction false} OnlyAnswersHold(s: State, a: Action, v: Result)
    requires Enabled(s, a) && Holds(Apply(s, a), v) && !Holds(s, v)
    ensures Answers(s, a, v.key, v.body)
  {
    var t := Apply(s, a);
    if id :| id in t.sends && t.sends[id].result == v {
      NewSend(s, a, id);
    } else if ch :| ch in t.buffered && t.buffered[ch] == v {
      NewValue(s, a, ch);
    } else {
      var k :| k in t.callers && Has(t.callers[k], v);
      NewAnswer(s, a, k, v);
    }
  }

  lemma {:induction false} NewSend(s: State, a: Action, id: nat)
    requires Enabled(s, a) && id in Apply(s, a).sends
    ensures
      var v := Apply(s, a).sends[id].result;
      Answers(s, a, v.key, v.body) || (id in s.sends && s.sends[id].result == v)
  {
  }

  lemma {:induction false} NewValue(s: State, a: Action, ch: Chan)
    requires Enabled(s, a) && ch in Apply(s, a).buffered
    ensures
      var v := Apply(s, a).buffered[ch];
      Answers(s, a, v.key, v.body) || (ch in s.buffered && s.buffered[ch] == v) ||
      (a.Deliver? && s.sends[a.id].result == v)
  {
  }

  lemma {:induction false} NewAnswer(s: State, a: Action, k: CallKey, v: Result)
    requires Enabled(s, a) && k in Apply(s, a).callers && Has(Apply(s, a).callers[k], v)
    ensures (k in s.callers && Has(s.callers[k], v)) ||
      (a.Receive? && s.buffered[s.callers[k].ch] == v && s.callers[k].ch in s.buffered)
  {
  }

  lemma {:induction false} HeldWasAnswered(states: seq<State>, actions: seq<Action>, n: nat, v: Result) returns (i: nat)
    requires IsRun(states, actions) && n < |states| && Holds(states[n], v)
    ensures i < n && Answers(states[i], actions[i], v.key, v.body)
  {
    assert StepAt(states, actions, n - 1);
    if Holds(states[n - 1], v) {
      i := HeldWasAnswered(states, actions, n - 1, v);
    } else {
      OnlyAnswersHold(states[n - 1], actions[n - 1], v);
      i := n - 1;
    }
  }

  /** In every run: what a call gets is what arrived for its key while it was pending, or the error
      of a failure. */
  lemma {:induction false} AnswersArrived(states: seq<State>, actions: seq<Action>, n: nat, k: CallKey, v: Result) returns (i: nat)
    requires IsRun(states, actions) && n < |states| && k in states[n].callers && Has(states[n].callers[k], v)
    ensures i < n && Answers(states[i], actions[i], k, v.body)
  {
    EveryRunIsSafe(states, actions, n);
    i := HeldWasAnswered(states, actions, n, v);
  }

  lemma {:induction false} AnswerStaysStep(s: State, a: Action, k: CallKey, v: Result)
    requires Enabled(s, a) && k in s.callers && Has(s.callers[k], v)
    ensures k in Apply(s, a).callers && Has(Apply(s, a).callers[k], v)
  {
  }

  /** What a call has taken it keeps, and returns. */
  lemma {:induction false} AnswersStay(states: seq<State>, actions: seq<Action>, i: nat, n: nat, k: CallKey, v: Result)
    requires IsRun(states, actions) && i <= n < |states| && k in states[i].callers && Has(states[i].callers[k], v)
    ensures k in states[n].callers && Has(states[n].callers[k], v)
  {
    if i < n {
      AnswersStay(states, actions, i, n - 1, k, v);
      assert StepAt(states, actions, n - 1);
      AnswerStaysStep(states[n - 1], actions[n - 1], k, v);
    }
  }

  /** The call has been registered. */
  predicate Registered(s: State, k: CallKey) {
    k in s.callers && !s.callers[k].Holding?
  }

  lemma {:induction false} RegisteredStep(s: State, a: Action, k: CallKey)
    requires Enabled(s, a) && Registered(s, k) && k !in s.pending
    ensures Registered(Apply(s, a), k) && k !in Apply(s, a).pending
  {
  }

  lemma {:induction false} AnsweredIsGone(s: State, a: Action, k: CallKey, body: nat)
    requires PendingOk(s) && Enabled(s, a) && Answers(s, a, k, body)
    ensures Registered(Apply(s, a), k) && k !in Apply(s, a).pending
  {
  }

  lemma {:induction false} GoneForGood(states: seq<State>, actions: seq<Action>, i: nat, n: nat, k: CallKey)
    requires IsRun(states, actions) && i <= n < |states| && Registered(states[i], k) && k !in states[i].pending
    ensures Registered(states[n], k) && k !in states[n].pending
  {
    if i < n {
      GoneForGood(states, actions, i, n - 1, k);
      assert StepAt(states, actions, n - 1);
      RegisteredStep(states[n - 1], actions[n - 1], k);
    }
  }

  /** The first answer counts: a pending call is answered at most once. */
  lemma {:induction false} AnsweredOnce(states: seq<State>, actions: seq<Action>, i: nat, j: nat, k: CallKey, body: nat, other: nat)
    requires IsRun(states, actions) && i < j < |actions| && Answers(states[i], actions[i], k, body)
    ensures !Answers(states[j], actions[j], k, other)
  {
    EveryRunIsSafe(states, actions, i);
    assert StepAt(states, actions, i);
    AnsweredIsGone(states[i], actions[i], k, body);
    GoneForGood(states, actions, i + 1, j, k);
  }

  // ------------------------------------------------------------- late responses

  /** The keys abandoned in the first n steps, in order. */
  ghost function AbandonedKeys(states: seq<State>, actions: seq<Action>, n: nat): seq<CallKey>
    requires n <= |actions| < |states|
  {
    if n == 0 then []
    else
      AbandonedKeys(states, actions, n - 1) +
      if Abandons(states[n - 1], actions[n - 1]) then [actions[n - 1].key] else []
  }

  function Youngest(keys: seq<CallKey>): seq<CallKey> {
    if |keys| > MAX_ABANDONED then keys[|keys| - MAX_ABANDONED..] else keys
  }

  lemma {:induction false} OrderStep(s: State, a: Action, keys: seq<CallKey>)
    requires Enabled(s, a) && s.abandonedOrder == Youngest(keys)
    ensures Apply(s, a).abandonedOrder == Youngest(keys + if Abandons(s, a) then [a.key] else [])
  {
    if Abandons(s, a) {
      if |keys| >= MAX_ABANDONED {
        assert keys[|keys| - MAX_ABANDONED..][1..] + [a.key] == (keys + [a.key])[|keys| + 1 - MAX_ABANDONED..];
      }
    } else {
      OrderStays(s, a);
      assert keys + [] == keys;
    }
  }

  /** The calls remembered are the youngest of those that gave up. */
  lemma {:induction false} YoungestAreRemembered(states: seq<State>, actions: seq<Action>, n: nat)
    requires IsRun(states, actions) && n < |states|
    ensures states[n].abandonedOrder == Youngest(AbandonedKeys(states, actions, n))
  {
    if n > 0 {
      YoungestAreRemembered(states, actions, n - 1);
      assert StepAt(states, actions, n - 1);
      OrderStep(states[n - 1], actions[n - 1], AbandonedKeys(states, actions, n - 1));
    }
  }

  /** A response for k arrived after k gave up. */
  ghost predicate LateResponse(states: seq<State>, actions: seq<Action>, n: nat, k: CallKey)
    requires n <= |actions| < |states|
  {
    exists i, j ::
      0 <= i < j < n && Abandons(states[i], actions[i]) && actions[i].key == k && actions[j].Route? && actions[j].key == k
  }

  lemma {:induction false} LateGrows(states: seq<State>, actions: seq<Action>, n: nat, k: CallKey)
    requires 0 < n <= |actions| < |states|
    ensures LateResponse(states, actions, n, k) <==>
      LateResponse(states, actions, n - 1, k) ||
      (actions[n - 1].Route? && actions[n - 1].key == k && k in AbandonedKeys(states, actions, n - 1))
  {
    AbandonedBefore(states, actions, n - 1, k);
    if LateResponse(states, actions, n, k) {
      var i, j :|
        0 <= i < j < n && Abandons(states[i], actions[i]) && actions[i].key == k && actions[j].Route? && actions[j].key == k;
      assert j < n - 1 ==> LateResponse(states, actions, n - 1, k);
    }
  }

  lemma {:induction false} AbandonedBefore(states: seq<State>, actions: seq<Action>, n: nat, k: CallKey)
    requires n <= |actions| < |states|
    ensures k in AbandonedKeys(states, actions, n) <==>
      exists i :: 0 <= i < n && Abandons(states[i], actions[i]) && actions[i].key == k
  {
    if n > 0 {
      AbandonedBefore(states, actions, n - 1, k);
    }
  }

  lemma {:induction false} AbandonedSetStep(s: State, a: Action, k: CallKey)
    requires AbandonedOk(s) && PendingOk(s) && Enabled(s, a)
    ensures k in Apply(s, a).abandoned <==>
      (Abandons(s, a) && k == a.key) ||
      (k in s.abandoned && k in Apply(s, a).abandonedOrder && !(a.Route? && a.key == k))
  {
    OldestIsOnce(s.abandonedOrder);
  }

  lemma {:induction false} OldestIsOnce(order: seq<CallKey>)
    requires Distinct(order)
    ensures order != [] ==> order[0] !in order[1..] && order == [order[0]] + order[1..]
  {
  }

  /** A late response is recognized exactly as long as its call is among the last 4096 that gave up
      and no response for it has arrived before. */
  lemma {:induction false} LateResponsesAreRecognized(states: seq<State>, actions: seq<Action>, n: nat, k: CallKey)
    requires IsRun(states, actions) && n < |states|
    ensures k in states[n].abandoned <==>
      k in Youngest(AbandonedKeys(states, actions, n)) && !LateResponse(states, actions, n, k)
  {
    if n > 0 {
      LateResponsesAreRecognized(states, actions, n - 1, k);
      LateStep(states, actions, n - 1, k);
    }
  }

  lemma {:induction false} RunAbandoned(states: seq<State>, actions: seq<Action>, n: nat)
    requires IsRun(states, actions) && n < |states|
    ensures AbandonedOk(states[n]) && PendingOk(states[n])
  {
    EveryRunIsSafe(states, actions, n);
  }

  lemma {:induction false} LateStep(states: seq<State>, actions: seq<Action>, n: nat, k: CallKey)
    requires IsRun(states, actions) && n < |actions|
    requires k in states[n].abandoned <==>
      k in Youngest(AbandonedKeys(states, actions, n)) && !LateResponse(states, actions, n, k)
    ensures k in states[n + 1].abandoned <==>
      k in Youngest(AbandonedKeys(states, actions, n + 1)) && !LateResponse(states, actions, n + 1, k)
  {
    RunAbandoned(states, actions, n);
    YoungestAreRemembered(states, actions, n + 1);
    assert StepAt(states, actions, n);
    AbandonedSetStep(states[n], actions[n], k);
    LateGrows(states, actions, n + 1, k);
    if Abandons(states[n], actions[n]) && k == actions[n].key {
      NotBefore(states, actions, n, k);
    } else {
      YoungestKeeps(AbandonedKeys(states, actions, n), actions[n], Abandons(states[n], actions[n]), k);
    }
  }

  lemma {:induction false} YoungestKeeps(keys: seq<CallKey>, a: Action, more: bool, k: CallKey)
    requires more ==> a.Abandon? && a.key != k
    ensures k in Youngest(keys) ==> k in keys
    ensures k in Youngest(keys + if more then [a.key] else []) ==> k in Youngest(keys)
  {
    var all := keys + if more then [a.key] else [];
    if k in Youngest(all) {
      var d := |all| - |Youngest(all)|;
      var i :| d <= i < |all| && all[i] == k;
      assert keys[i] == k && i >= |keys| - |Youngest(keys)|;
      assert Youngest(keys)[i - (|keys| - |Youngest(keys)|)] == k;
    }
  }

  /** A call gives up at most once: before, it is not among those that did, and nothing is late. */
  lemma {:induction false} NotBefore(states: seq<State>, actions: seq<Action>, n: nat, k: CallKey)
    requires IsRun(states, actions) && n < |actions| && Abandons(states[n], actions[n]) && k == actions[n].key
    ensures k !in AbandonedKeys(states, actions, n) && !LateResponse(states, actions, n, k)
    ensures k in Youngest(AbandonedKeys(states, actions, n) + [k])
  {
    AbandonedBefore(states, actions, n, k);
    var keys := AbandonedKeys(states, actions, n) + [k];
    assert Youngest(keys)[|Youngest(keys)| - 1] == k;
    if i :| 0 <= i < n && Abandons(states[i], actions[i]) && actions[i].key == k {
      assert StepAt(states, actions, i);
      FinishedForGood(states, actions, i + 1, n, k);
    }
  }

  lemma {:induction false} FinishedForGood(states: seq<State>, actions: seq<Action>, i: nat, n: nat, k: CallKey)
    requires IsRun(states, actions) && i <= n < |states| && k in states[i].callers && states[i].callers[k].Finished?
    ensures k in states[n].callers && states[n].callers[k].Finished?
  {
    if i < n {
      FinishedForGood(states, actions, i, n - 1, k);
      assert StepAt(states, actions, n - 1);
      FinishedStays(states[n - 1], actions[n - 1], k);
    }
  }
}
