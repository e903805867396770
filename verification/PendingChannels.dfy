/** The channels of PendingCalls over whole runs: none is lost that a later call could use, and a call
    that nothing disturbs gets its response. */
module PendingChannels {
  import Wire
  import opened PendingCalls

  /** A call, or the pool for a later one, has the channel. */
  ghost predicate Kept(s: State, ch: Chan) {
    ch in s.pool || exists k :: k in s.callers && s.callers[k].Uses(ch)
  }

  /** The step gives the channel up: the garbage collector takes it from the pool, or its call ends
      while the result may still arrive on it. */
  ghost predicate GivesUp(s: State, a: Action, ch: Chan) {
    match a
    case PoolDrop(c) => c == ch
    case Abandon(k) => k in s.callers && s.callers[k].Uses(ch)
    case Unregister(k) => k in s.callers && s.callers[k].Uses(ch) && k !in s.pending
    case _ => false
  }

  lemma {:induction false} UserKeeps(s: State, a: Action, ch: Chan, k: CallKey)
    requires Enabled(s, a) && k in s.callers && s.callers[k].Uses(ch) && !GivesUp(s, a, ch)
    requires k in s.pending ==> s.callers[k] == Waiting(s.pending[k])
    ensures ch in Apply(s, a).pool || (k in Apply(s, a).callers && Apply(s, a).callers[k].Uses(ch))
  {
  }

  lemma {:induction false} PoolKeeps(s: State, a: Action, ch: Chan)
    requires Enabled(s, a) && ch in s.pool && !GivesUp(s, a, ch)
    ensures Kept(Apply(s, a), ch)
  {
    if a.Start? && a.ch == ch {
      assert Apply(s, a).callers[a.key].Uses(ch);
    }
  }

  lemma {:induction false} KeptStep(s: State, a: Action, ch: Chan)
    requires Invariant(s) && Enabled(s, a) && Kept(s, ch) && !GivesUp(s, a, ch)
    ensures Kept(Apply(s, a), ch)
  {
    if ch in s.pool {
      PoolKeeps(s, a, ch);
    } else {
      var k :| k in s.callers && s.callers[k].Uses(ch);
      UserKeeps(s, a, ch, k);
    }
  }

  lemma {:induction false} KnownStep(s: State, a: Action, ch: Chan)
    requires Enabled(s, a) && ch !in s.known && ch in Apply(s, a).known
    ensures Kept(Apply(s, a), ch)
  {
    assert Apply(s, a).callers[a.key].Uses(ch);
  }

  ghost predicate GivenUpAt(states: seq<State>, actions: seq<Action>, i: nat, ch: Chan)
    requires |states| == |actions| + 1
  {
    i < |actions| && GivesUp(states[i], actions[i], ch)
  }

  /** No channel is wasted: every channel ever made is in the pool or has a call that uses it, unless the
      garbage collector took it or its call ended with the result possibly on the way. In particular a
      call that got its response, or took its own entry out of the table, passes its channel on. */
  lemma {:induction false} ChannelsAreReused(states: seq<State>, actions: seq<Action>, n: nat, ch: Chan)
    requires IsRun(states, actions) && n < |states| && ch in states[n].known
    ensures Kept(states[n], ch) || exists i: nat :: i < n && GivenUpAt(states, actions, i, ch)
  {
    if n > 0 {
      assert StepAt(states, actions, n - 1);
      EveryRunIsSafe(states, actions, n - 1);
      if ch !in states[n - 1].known {
        KnownStep(states[n - 1], actions[n - 1], ch);
      } else if GivesUp(states[n - 1], actions[n - 1], ch) {
        assert GivenUpAt(states, actions, n - 1, ch);
      } else {
        ChannelsAreReused(states, actions, n - 1, ch);
        if Kept(states[n - 1], ch) {
          KeptStep(states[n - 1], actions[n - 1], ch);
        }
      }
    }
  }

  // ------------------------------------------------------------------- an undisturbed call

  ghost predicate Plays(s: State, actions: seq<Action>, t: State)
    decreases |actions|
  {
    if actions == [] then s == t else Enabled(s, actions[0]) && Plays(Apply(s, actions[0]), actions[1..], t)
  }

  lemma {:induction false} PlaysOne(s: State, a: Action, actions: seq<Action>, t: State)
    requires Enabled(s, a) && Plays(Apply(s, a), actions, t)
    ensures Plays(s, [a] + actions, t)
  {
    assert ([a] + actions)[1..] == actions;
  }

  /** s with a call key of this status on channel ch; the channel is out of the pool. */
  function With(s: State, key: CallKey, ch: Chan, c: Caller): State {
    s.(known := s.known + {ch}, pool := s.pool - {ch}, owner := s.owner[ch := key], callers := s.callers[key := c])
  }

  /** The steps of a call until its request is answered, and those after. */
  function Asking(key: CallKey, ch: Chan, body: nat, id: nat, rest: seq<Action>): seq<Action> {
    [Start(key, ch)] + ([Register(key)] + ([Route(key, body, id)] + rest))
  }

  function Answering(key: CallKey, id: nat): seq<Action> {
    [Deliver(id)] + ([Receive(key)] + ([Recycle(key)] + []))
  }

  predicate CanStart(s: State, key: CallKey, ch: Chan, id: nat) {
    key !in s.callers && key !in s.pending && id !in s.sends && (ch in s.pool || ch !in s.known) && ch !in s.buffered
  }

  /** Everything as in s, with the call key answered and its channel in the pool. */
  function Ended(s: State, key: CallKey, ch: Chan, r: Result): State {
    s.(known := s.known + {ch}, pool := s.pool + {ch}, owner := s.owner[ch := key],
       callers := s.callers[key := Finished(Wire.Some(r))])
  }

  lemma {:induction false} Asked(s: State, key: CallKey, ch: Chan, body: nat, id: nat, rest: seq<Action>, t: State)
    requires CanStart(s, key, ch, id)
    requires Plays(With(s, key, ch, Waiting(ch)).(sends := s.sends[id := Send(ch, Result(key, body))]), rest, t)
    ensures Plays(s, Asking(key, ch, body, id, rest), t)
  {
    var a := With(s, key, ch, Holding(ch));
    var b := With(s, key, ch, Waiting(ch)).(pending := s.pending[key := ch]);
    assert b.pending - {key} == s.pending;
    PlaysOne(b, Route(key, body, id), rest, t);
    assert Apply(a, Register(key)) == b;
    PlaysOne(a, Register(key), [Route(key, body, id)] + rest, t);
    PlaysOne(s, Start(key, ch), [Register(key)] + ([Route(key, body, id)] + rest), t);
  }

  lemma {:induction false} Recycles(s: State, key: CallKey, ch: Chan, r: Result)
    ensures
      var e := With(s, key, ch, Received(ch, r));
      Enabled(e, Recycle(key)) && Apply(e, Recycle(key)) == Ended(s, key, ch, r)
  {
    assert s.pool - {ch} + {ch} == s.pool + {ch};
  }

  lemma {:induction false} Receives(s: State, key: CallKey, ch: Chan, r: Result)
    requires ch !in s.buffered
    ensures
      var d := With(s, key, ch, Waiting(ch)).(buffered := s.buffered[ch := r]);
      Enabled(d, Receive(key)) && Apply(d, Receive(key)) == With(s, key, ch, Received(ch, r))
  {
    assert s.buffered[ch := r] - {ch} == s.buffered;
  }

  lemma {:induction false} Delivers(s: State, key: CallKey, ch: Chan, r: Result, id: nat)
    requires ch !in s.buffered && id !in s.sends
    ensures
      var c := With(s, key, ch, Waiting(ch)).(sends := s.sends[id := Send(ch, r)]);
      Enabled(c, Deliver(id)) && Apply(c, Deliver(id)) == With(s, key, ch, Waiting(ch)).(buffered := s.buffered[ch := r])
  {
    assert s.sends[id := Send(ch, r)] - {id} == s.sends;
  }

  lemma {:induction false} Answered(s: State, key: CallKey, ch: Chan, r: Result, id: nat)
    requires CanStart(s, key, ch, id)
    ensures
      Plays(With(s, key, ch, Waiting(ch)).(sends := s.sends[id := Send(ch, r)]), Answering(key, id), Ended(s, key, ch, r))
  {
    Delivers(s, key, ch, r, id);
    Receives(s, key, ch, r);
    Recycles(s, key, ch, r);
    var t := Ended(s, key, ch, r);
    PlaysOne(With(s, key, ch, Received(ch, r)), Recycle(key), [], t);
    PlaysOne(With(s, key, ch, Waiting(ch)).(buffered := s.buffered[ch := r]), Receive(key), [Recycle(key)] + [], t);
    PlaysOne(With(s, key, ch, Waiting(ch)).(sends := s.sends[id := Send(ch, r)]), Deliver(id),
             [Receive(key)] + ([Recycle(key)] + []), t);
  }

  lemma {:induction false} FreshIsUnused(s: State, key: CallKey, ch: Chan)
    requires Invariant(s) && Safe(s) && key !in s.callers && (ch in s.pool || ch !in s.known)
    ensures ch !in s.buffered && key !in s.pending
  {
  }

  /** In every reachable state a new call can be made on a pooled or new channel, and if its response
      arrives it ends with exactly this response, with its channel back in the pool and with everything
      of the other calls as it was. */
  lemma {:induction false} CallGetsItsResponse(states: seq<State>, actions: seq<Action>, n: nat,
                                               key: CallKey, ch: Chan, body: nat, id: nat)
    requires IsRun(states, actions) && n < |states| && key !in states[n].callers && id !in states[n].sends
    requires ch in states[n].pool || ch !in states[n].known
    ensures Plays(states[n], Asking(key, ch, body, id, Answering(key, id)), Ended(states[n], key, ch, Result(key, body)))
  {
    EveryRunIsSafe(states, actions, n);
    FreshIsUnused(states[n], key, ch);
    Answered(states[n], key, ch, Result(key, body), id);
    Asked(states[n], key, ch, body, id, Answering(key, id), Ended(states[n], key, ch, Result(key, body)));
  }
}
