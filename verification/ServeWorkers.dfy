/** Which requests Serve handles inline, how many workers it starts, and when its timer may fire. */
module ServeWorkers {
  import opened Wire
  import opened Serve
  import opened ServeInvariant
  import opened ServeSafety

  // ------------------------------------------------------------------ inline or not

  /** Nobody holds a slot: no handler runs beside the receiver and no callback is about to escalate. */
  ghost predicate NoneInFlight(s: State) {
    (forall h :: h in s.gs ==> !HoldsSlot(s.gs[h], s.run.word)) && (forall c :: c in s.cbs ==> !LookHoldsSlot(s.cbs[c]))
  }

  lemma {:induction false} FreeIffNoneInFlight(k: Config, s: State)
    requires SlotsOk(s.gs, s.cbs, s.run.word, s.slots, k.max)
    ensures s.slots.taken == 0 <==> NoneInFlight(s)
  {
    if NoneInFlight(s) {
      forall h ensures h !in s.slots.holders {
        if h.G? {
          assert h == G(h.g);
        } else {
          assert h == C(h.c);
        }
      }
      assert s.slots.holders == {};
    }
  }

  /** A request is handled inline exactly if nothing else is in flight when the receiver looks;
      otherwise it has to wait for a slot. */
  lemma {:induction false} InlineIffAlone(k: Config, states: seq<State>, actions: seq<Action>, n: nat)
    requires IsRun(k, states, actions) && n < |actions| && actions[n].Go?
    requires actions[n].g in states[n].gs && states[n].gs[actions[n].g].Received?
    ensures
      var g, m := actions[n].g, states[n].gs[actions[n].g].m;
      g in states[n + 1].gs &&
      states[n + 1].gs[g] == if NoneInFlight(states[n]) then ReadingClock(m) else Acquiring(m)
  {
    RunKeepsInvariant(k, states, actions, n);
    FreeIffNoneInFlight(k, states[n]);
    assert StepAt(k, states, actions, n);
  }

  // ------------------------------------------------------------------------ workers

  /** Every worker is on a request. */
  ghost predicate AllBusy(s: State) {
    forall w :: w in s.pool.workers ==> w in s.gs && (s.gs[w].Working? || s.gs[w].WorkerReply?)
  }

  lemma {:induction false} PoolReceiver(k: Config, s: State, g: nat, ch: Choice, t: State)
    requires g in s.gs && ReceiverStep(k, s, g, ch, t)
    ensures t.pool == s.pool || (s.gs[g].Offering? && ch.Spawn? && NoneIdle(s) && t == SpawnWorker(s, g, ch.w, s.gs[g].m))
  {
  }

  lemma {:induction false} PoolOthers(k: Config, s: State, g: nat, ch: Choice, t: State)
    requires g in s.gs
    requires StartStep(k, s, g, ch, t) || ReplyStep(k, s, g, ch, t) || WorkerStep(k, s, g, ch, t)
    ensures t.pool == s.pool
  {
  }

  lemma {:induction false} PoolEnd(k: Config, s: State, g: nat, ch: Choice, t: State)
    requires g in s.gs && (StopStep(k, s, g, ch, t) || ReturnStep(k, s, g, ch, t))
    ensures t.pool == s.pool
  {
  }

  lemma {:induction false} PoolLook(k: Config, s: State, c: nat, id: nat, t: State)
    requires LookStep(k, s, c, id, t)
    ensures t.pool == s.pool
  {
  }

  /** While requests are handed out, no worker has returned. */
  ghost predicate Usable(s: State) {
    forall g, w :: g in s.gs && s.gs[g].Offering? && w in s.pool.workers ==> w in s.gs && IsWorker(s.gs[w])
  }

  /** A worker is started only when all the others are on a request. */
  lemma {:induction false} PoolStep(k: Config, s: State, a: Action, t: State)
    requires Step(k, s, a, t) && Usable(s)
    ensures t.pool == s.pool || AllBusy(t)
  {
    match a {
      case Go(g, ch) =>
        if ReceiverStep(k, s, g, ch, t) {
          PoolReceiver(k, s, g, ch, t);
        } else if StopStep(k, s, g, ch, t) || ReturnStep(k, s, g, ch, t) {
          PoolEnd(k, s, g, ch, t);
        } else {
          PoolOthers(k, s, g, ch, t);
        }
      case Look(c, id) => PoolLook(k, s, c, id, t);
      case _ =>
    }
  }

  lemma {:induction false} WorkersExist(k: Config, states: seq<State>, actions: seq<Action>, n: nat)
    requires IsRun(k, states, actions) && n < |states|
    ensures |states[n].pool.workers| == states[n].pool.started
    ensures Usable(states[n])
  {
    RunKeepsInvariant(k, states, actions, n);
  }

  lemma {:induction false} PoolStepAt(k: Config, states: seq<State>, actions: seq<Action>, n: nat)
    requires IsRun(k, states, actions) && n < |actions|
    ensures states[n + 1].pool == states[n].pool || AllBusy(states[n + 1])
  {
    WorkersExist(k, states, actions, n);
    assert StepAt(k, states, actions, n);
    PoolStep(k, states[n], actions[n], states[n + 1]);
  }

  /** Serve starts no more workers than were ever busy at once: there was a moment at which each of
      the workers started so far was on a request. */
  lemma {:induction false} WorkersMeetDemand(k: Config, states: seq<State>, actions: seq<Action>, n: nat) returns (i: nat)
    requires IsRun(k, states, actions) && n < |states|
    ensures i <= n && states[i].pool == states[n].pool && AllBusy(states[i])
    ensures |states[n].pool.workers| == states[n].pool.started
  {
    WorkersExist(k, states, actions, n);
    if n == 0 {
      i := 0;
    } else {
      PoolStepAt(k, states, actions, n - 1);
      if states[n].pool == states[n - 1].pool {
        i := WorkersMeetDemand(k, states, actions, n - 1);
      } else {
        i := n;
      }
    }
  }

  // -------------------------------------------------------------------------- timer

  /** Step i sets the timer to go off at time d: a goroutine for a whole limit, a callback for what
      it waits. */
  ghost predicate SetsTimer(k: Config, states: seq<State>, actions: seq<Action>, i: nat, d: nat)
    requires |states| == |actions| + 1
  {
    i < |actions| &&
    match actions[i]
    case Go(g, _) => g in states[i].gs && states[i].gs[g].Scheduling? && d == states[i].run.clock + k.limit
    case Look(c, _) =>
      c in states[i].cbs && states[i].cbs[c].Rescheduling? &&
      d == states[i].run.clock + (if states[i].cbs[c].wait > 0 then states[i].cbs[c].wait else 0)
    case _ => false
  }

  lemma {:induction false} TimerReceiver(k: Config, s: State, g: nat, ch: Choice, t: State)
    requires g in s.gs && (ReceiverStep(k, s, g, ch, t) || ReplyStep(k, s, g, ch, t) || WorkerStep(k, s, g, ch, t))
    ensures t.watch == s.watch
  {
  }

  lemma {:induction false} TimerStart(k: Config, s: State, g: nat, ch: Choice, t: State)
    requires g in s.gs && StartStep(k, s, g, ch, t)
    ensures t.watch.timer == s.watch.timer || (s.gs[g].Scheduling? && t.watch.timer == Some(s.run.clock + k.limit))
  {
  }

  lemma {:induction false} TimerEnd(k: Config, s: State, g: nat, ch: Choice, t: State)
    requires g in s.gs && (StopStep(k, s, g, ch, t) || ReturnStep(k, s, g, ch, t))
    ensures t.watch.timer == s.watch.timer || t.watch.timer == None
  {
  }

  lemma {:induction false} TimerLook(k: Config, s: State, c: nat, id: nat, t: State)
    requires LookStep(k, s, c, id, t)
    ensures
      t.watch.timer == s.watch.timer ||
      (s.cbs[c].Rescheduling? && t.watch.timer == Some(s.run.clock + (if s.cbs[c].wait > 0 then s.cbs[c].wait else 0)))
  {
  }

  lemma {:induction false} TimerStep(k: Config, states: seq<State>, actions: seq<Action>, n: nat, d: nat)
    requires IsRun(k, states, actions) && n < |actions| && states[n + 1].watch.timer == Some(d)
    ensures states[n].watch.timer == Some(d) || SetsTimer(k, states, actions, n, d)
  {
    assert StepAt(k, states, actions, n);
    var s, t := states[n], states[n + 1];
    match actions[n] {
      case Go(g, ch) =>
        if StartStep(k, s, g, ch, t) {
          TimerStart(k, s, g, ch, t);
        } else if StopStep(k, s, g, ch, t) || ReturnStep(k, s, g, ch, t) {
          TimerEnd(k, s, g, ch, t);
        } else {
          TimerReceiver(k, s, g, ch, t);
        }
      case Look(c, id) => TimerLook(k, s, c, id, t);
      case _ =>
    }
  }

  lemma {:induction false} TimerWasSet(k: Config, states: seq<State>, actions: seq<Action>, n: nat, d: nat) returns (i: nat)
    requires IsRun(k, states, actions) && n < |states| && states[n].watch.timer == Some(d)
    ensures i < n && SetsTimer(k, states, actions, i, d)
    ensures forall j: nat :: i < j <= n ==> states[j].watch.timer == Some(d)
  {
    assert n > 0;
    TimerStep(k, states, actions, n - 1, d);
    if SetsTimer(k, states, actions, n - 1, d) {
      i := n - 1;
    } else {
      i := TimerWasSet(k, states, actions, n - 1, d);
    }
  }

  /** A callback starts only when the time for which the timer was last set is over: a whole limit
      after a goroutine armed the watchdog, and what is left of it after a callback looked too early. */
  lemma {:induction false} TimerRunsItsTime(k: Config, states: seq<State>, actions: seq<Action>, n: nat) returns (i: nat, d: nat)
    requires IsRun(k, states, actions) && n < |actions| && actions[n].Fire?
    ensures i < n && SetsTimer(k, states, actions, i, d) && d <= states[n].run.clock
    ensures forall j: nat :: i < j <= n ==> states[j].watch.timer == Some(d)
  {
    assert StepAt(k, states, actions, n);
    d := states[n].watch.timer.value;
    i := TimerWasSet(k, states, actions, n, d);
  }
}
