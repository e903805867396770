/** Three runs against two comments: after stopWatch returned the timer is scheduled again; a
    callback is still there when Serve has returned; and two callbacks run at once. A fourth run has
    a callback that waits for longer than the limit. */
module ServeLateTimer {
  import opened Wire
  import opened Serve
  import opened ServeInvariant
  import opened ServeSafety

  const K := Config(1, 1)

  ghost predicate Reachable(s: State) {
    exists states: seq<State>, actions: seq<Action> :: IsRun(K, states, actions) && states[|actions|] == s
  }

  lemma {:induction false} Start()
    ensures Reachable(Init)
  {
    assert IsRun(K, [Init], []);
  }

  lemma {:induction false} Then(s: State, a: Action, t: State)
    requires Reachable(s) && Step(K, s, a, t)
    ensures Reachable(t)
  {
    var states: seq<State>, actions: seq<Action> :| IsRun(K, states, actions) && states[|actions|] == s;
    var more, acts := states + [t], actions + [a];
    forall i: nat | i < |acts| ensures StepAt(K, more, acts, i) {
      if i < |actions| {
        assert StepAt(K, states, actions, i);
      }
    }
    assert IsRun(K, more, acts) && more[|acts|] == t;
  }

  // One lemma per kind of step taken.

  lemma {:induction false} DoAccept(s: State, g: nat, m: nat)
    requires Reachable(s) && Is(s.gs, g, Receiving) && m !in s.owner
    ensures Reachable(Accept(s, g, m))
  {
    Then(s, Go(g, Get(m)), Accept(s, g, m));
  }

  lemma {:induction false} DoBeginInline(s: State, g: nat, m: nat)
    requires Reachable(s) && Is(s.gs, g, Received(m)) && s.slots.taken == 0
    ensures Reachable(BeginInline(s, g, m))
  {
    Then(s, Go(g, Next), BeginInline(s, g, m));
  }

  lemma {:induction false} DoReadClock(s: State, g: nat, m: nat)
    requires Reachable(s) && Is(s.gs, g, ReadingClock(m))
    ensures Reachable(Move(s, g, StoringStart(m, s.run.clock)))
  {
    Then(s, Go(g, Next), Move(s, g, StoringStart(m, s.run.clock)));
  }

  lemma {:induction false} DoStoreStart(s: State, g: nat, m: nat, t: nat)
    requires Reachable(s) && Is(s.gs, g, StoringStart(m, t))
    ensures Reachable(StoreStart(s, g, m, t))
  {
    Then(s, Go(g, Next), StoreStart(s, g, m, t));
  }

  lemma {:induction false} DoStoreWord(s: State, g: nat, m: nat)
    requires Reachable(s) && Is(s.gs, g, StoringWord(m))
    ensures Reachable(StoreWord(s, g, m))
  {
    Then(s, Go(g, Next), StoreWord(s, g, m));
  }

  lemma {:induction false} DoLoadArmed(s: State, g: nat, m: nat, e: nat)
    requires Reachable(s) && Is(s.gs, g, LoadingArmed(m, e)) && !s.watch.armed
    ensures Reachable(Move(s, g, Arming(m, e)))
  {
    Then(s, Go(g, Next), Move(s, g, Arming(m, e)));
  }

  lemma {:induction false} DoSetArmed(s: State, g: nat, m: nat, e: nat)
    requires Reachable(s) && Is(s.gs, g, Arming(m, e)) && !s.watch.armed
    ensures Reachable(SetArmed(s, g, m, e))
  {
    Then(s, Go(g, Next), SetArmed(s, g, m, e));
  }

  lemma {:induction false} DoSchedule(s: State, g: nat, m: nat, e: nat)
    requires Reachable(s) && Is(s.gs, g, Scheduling(m, e))
    ensures Reachable(Schedule(s, g, m, e, K.limit))
  {
    Then(s, Go(g, Next), Schedule(s, g, m, e, K.limit));
  }

  lemma {:induction false} DoKeep(s: State, g: nat, m: nat, e: nat)
    requires Reachable(s) && Is(s.gs, g, Handling(m, e)) && s.run.word == Word(e, Running)
    ensures Reachable(Keep(s, g, m, e))
  {
    Then(s, Go(g, Next), Keep(s, g, m, e));
  }

  lemma {:induction false} DoReply(s: State, g: nat, m: nat)
    requires Reachable(s) && Is(s.gs, g, Replying(m))
    ensures Reachable(Finish(s, g, m, Receiving))
  {
    Then(s, Go(g, Next), Finish(s, g, m, Receiving));
  }

  lemma {:induction false} DoEnd(s: State, g: nat)
    requires Reachable(s) && Is(s.gs, g, Receiving)
    ensures Reachable(End(s, g))
  {
    Then(s, Go(g, Fail), End(s, g));
  }

  lemma {:induction false} DoSetStopped(s: State, g: nat)
    requires Reachable(s) && Is(s.gs, g, Stopping)
    ensures Reachable(SetStopped(s, g))
  {
    Then(s, Go(g, Next), SetStopped(s, g));
  }

  lemma {:induction false} DoFindDisarmed(s: State, g: nat)
    requires Reachable(s) && Is(s.gs, g, CheckingArmed) && !s.watch.armed
    ensures Reachable(FoundDisarmed(s, g))
  {
    Then(s, Go(g, Next), FoundDisarmed(s, g));
  }

  lemma {:induction false} DoTurn(s: State, c: nat, next: Watch)
    requires Reachable(s) && c in s.cbs && ReadStep(K, s, c, Turn(s, c, next))
    ensures Reachable(Turn(s, c, next))
  {
    Then(s, Look(c, 0), Turn(s, c, next));
  }

  lemma {:induction false} DoBorrow(s: State, c: nat, st: Word)
    requires Reachable(s) && c in s.cbs && s.cbs[c] == TakingSlot(st) && s.slots.taken < 1
    ensures Reachable(BorrowSlot(s, c, st))
  {
    Then(s, Look(c, 0), BorrowSlot(s, c, st));
  }

  lemma {:induction false} DoEscalate(s: State, c: nat, st: Word)
    requires Reachable(s) && c in s.cbs && s.cbs[c] == Swapping(st) && s.run.word == st
    ensures Reachable(Escalate(s, c, st))
  {
    Then(s, Look(c, 0), Escalate(s, c, st));
  }

  lemma {:induction false} DoSpawn(s: State, c: nat, id: nat)
    requires Reachable(s) && c in s.cbs && s.cbs[c] == Spawning && id !in s.gs
    ensures Reachable(SpawnReceiver(s, c, id))
  {
    Then(s, Look(c, id), SpawnReceiver(s, c, id));
  }

  lemma {:induction false} DoClear(s: State, c: nat)
    requires Reachable(s) && c in s.cbs && s.cbs[c] == Clearing
    ensures Reachable(Disarm(s, c, Leaving))
  {
    Then(s, Look(c, 0), Disarm(s, c, Leaving));
  }

  lemma {:induction false} DoFire(s: State, c: nat)
    requires Reachable(s) && c !in s.cbs && s.watch.timer.Some? && s.watch.timer.value <= s.run.clock
    ensures Reachable(FireTimer(s, c))
  {
    Then(s, Fire(c), FireTimer(s, c));
  }

  lemma {:induction false} DoTick(s: State)
    requires Reachable(s)
    ensures Reachable(s.(run := s.run.(clock := s.run.clock + 1)))
  {
    Then(s, Tick, s.(run := s.run.(clock := s.run.clock + 1)));
  }

  /** From the receipt of a request to the published inline run. */
  function Published(s: State, g: nat, m: nat): State {
    var e, t := s.run.epoch + 1, s.run.clock;
    s.(gs := s.gs[g := LoadingArmed(m, e)], owner := s.owner[m := Some(g)],
       run := s.run.(epoch := e, startNs := t, starts := s.run.starts[e := t], word := Word(e, Running)))
  }

  lemma {:induction false} Publish(s: State, g: nat, m: nat)
    requires Reachable(s) && Is(s.gs, g, Receiving) && m !in s.owner && s.slots.taken == 0
    ensures Reachable(Published(s, g, m))
  {
    var s1 := Accept(s, g, m);
    DoAccept(s, g, m);
    var s2 := BeginInline(s1, g, m);
    DoBeginInline(s1, g, m);
    var s3 := Move(s2, g, StoringStart(m, s2.run.clock));
    DoReadClock(s2, g, m);
    var s4 := StoreStart(s3, g, m, s2.run.clock);
    DoStoreStart(s3, g, m, s2.run.clock);
    DoStoreWord(s4, g, m);
    assert StoreWord(s4, g, m).gs == Published(s, g, m).gs;
  }

  // Serve's goroutine 0 runs the first request inline, arms the timer, answers in time, and
  // publishes a second inline run. It is suspended before its armed check.

  const Served := State(
    map[0 := Receiving], map[], Run(Word(1, Done), 1, 0, 0, map[1 := 0], {1}), Slots(0, {}), Watchdog(true, Some(1), ByTimer),
    Pool({}, 0), Life(false, false, false, 0), By(0), map[0 := None])

  lemma {:induction false} FirstRequest()
    ensures Reachable(Served)
  {
    Start();
    Publish(Init, 0, 0);
    var s5 := Published(Init, 0, 0);
    DoLoadArmed(s5, 0, 0, 1);
    var s6 := Move(s5, 0, Arming(0, 1));
    DoSetArmed(s6, 0, 0, 1);
    var s7 := SetArmed(s6, 0, 0, 1);
    DoSchedule(s7, 0, 0, 1);
    var s8 := Schedule(s7, 0, 0, 1, K.limit);
    DoKeep(s8, 0, 0, 1);
    var s9 := Keep(s8, 0, 0, 1);
    DoReply(s9, 0, 0);
    assert Finish(s9, 0, 0, Receiving).gs == Served.gs;
    assert Finish(s9, 0, 0, Receiving) == Served;
  }

  // The timer fires, the callback finds the run a limit old and moves the role to goroutine 1.

  const St := Word(2, Running)
  const TwoRuns := Run(Word(2, Escalated), 2, 0, 1, map[1 := 0, 2 := 0], {1, 2})

  const Moved := State(
    map[0 := LoadingArmed(1, 2), 1 := Receiving], map[0 := Top], TwoRuns, Slots(1, {G(0)}), Watchdog(true, None, ByCallback(0)),
    Pool({}, 0), Life(false, false, false, 0), By(1), map[0 := None, 1 := Some(0)])

  lemma {:induction false} Observe(s: State)
    requires Reachable(s) && 0 in s.cbs && s.cbs[0] == Top && !s.life.stopped && s.run.word == St
    requires s.run.clock - s.run.startNs >= 1
    ensures Reachable(s.(cbs := s.cbs[0 := TakingSlot(St)]))
  {
    DoTurn(s, 0, LoadingWord);
    var s1 := Turn(s, 0, LoadingWord);
    DoTurn(s1, 0, ReadingNow(St));
    var s2 := Turn(s1, 0, ReadingNow(St));
    DoTurn(s2, 0, ReadingStart(St, s.run.clock));
    var s3 := Turn(s2, 0, ReadingStart(St, s.run.clock));
    DoTurn(s3, 0, TakingSlot(St));
    assert Turn(s3, 0, TakingSlot(St)).cbs == s.cbs[0 := TakingSlot(St)];
  }

  lemma {:induction false} RoleMoves()
    ensures Reachable(Moved)
  {
    FirstRequest();
    Publish(Served, 0, 1);
    var s1 := Published(Served, 0, 1);
    DoTick(s1);
    var s2 := s1.(run := s1.run.(clock := 1));
    DoFire(s2, 0);
    var s3 := FireTimer(s2, 0);
    Observe(s3);
    var s4 := s3.(cbs := s3.cbs[0 := TakingSlot(St)]);
    DoBorrow(s4, 0, St);
    var s5 := BorrowSlot(s4, 0, St);
    DoEscalate(s5, 0, St);
    var s6 := Escalate(s5, 0, St);
    DoSpawn(s6, 0, 1);
    var s7 := SpawnReceiver(s6, 0, 1);
    assert s7.gs == Moved.gs && s7.cbs == Moved.cbs && s7.owner == Moved.owner;
    assert s7.run.won == {1, 2} && s7.run.starts == map[1 := 0, 2 := 0];
    assert s7.slots.holders == {G(0)};
    assert s7 == Moved;
  }

  // Goroutine 1 ends receiving. The callback clears armed, so stopWatch returns at once.

  const AfterStopWatch := State(
    map[0 := LoadingArmed(1, 2), 1 := SendingResult], map[0 := Leaving], TwoRuns, Slots(1, {G(0)}), Watchdog(false, None, NoOne),
    Pool({}, 0), Life(true, true, false, 0), Over(1), map[0 := None, 1 := Some(0)])

  lemma {:induction false} ReceivingEnds()
    ensures Reachable(AfterStopWatch)
  {
    RoleMoves();
    DoEnd(Moved, 1);
    var s1 := End(Moved, 1);
    DoSetStopped(s1, 1);
    var s2 := SetStopped(s1, 1);
    DoTurn(s2, 0, Clearing);
    var s3 := Turn(s2, 0, Clearing);
    DoClear(s3, 0);
    var s4 := Disarm(s3, 0, Leaving);
    DoFindDisarmed(s4, 1);
    var s5 := FoundDisarmed(s4, 1);
    assert s5.gs == AfterStopWatch.gs && s5.cbs == AfterStopWatch.cbs;
    assert s5 == AfterStopWatch;
  }

  /** The suspended goroutine goes on: the timer is scheduled although stopWatch returned. */
  lemma {:induction false} TimerComesAfterStopWatch()
    ensures exists s :: Reachable(s) && s.life.quiet && s.watch.timer.Some?
  {
    ReceivingEnds();
    var s := AfterStopWatch;
    DoLoadArmed(s, 0, 1, 2);
    var s1 := Move(s, 0, Arming(1, 2));
    DoSetArmed(s1, 0, 1, 2);
    var s2 := SetArmed(s1, 0, 1, 2);
    DoSchedule(s2, 0, 1, 2);
    var s3 := Schedule(s2, 0, 1, 2, K.limit);
    assert s3.life.quiet && s3.watch.timer.Some?;
  }

  // The second run: the callback of the first request clears armed; the receiver publishes a
  // second inline run, finds the watchdog disarmed and arms it again.

  const Cleared := State(
    map[0 := Receiving], map[0 := LoadingStopped], Run(Word(1, Done), 1, 0, 1, map[1 := 0], {1}), Slots(0, {}),
    Watchdog(false, None, NoOne), Pool({}, 0), Life(false, false, false, 0), By(0), map[0 := None])

  lemma {:induction false} FirstCallback()
    ensures Reachable(Cleared)
  {
    FirstRequest();
    DoTick(Served);
    var s1 := Served.(run := Served.run.(clock := 1));
    DoFire(s1, 0);
    var s2 := FireTimer(s1, 0);
    DoTurn(s2, 0, LoadingWord);
    var s3 := Turn(s2, 0, LoadingWord);
    DoTurn(s3, 0, Disarming);
    var s4 := Turn(s3, 0, Disarming);
    Then(s4, Look(0, 0), Disarm(s4, 0, LoadingStopped));
    var s5 := Disarm(s4, 0, LoadingStopped);
    assert s5.cbs == Cleared.cbs && s5 == Cleared;
  }

  /** Two callbacks at once: one that cleared armed and has not returned, and the next. */
  lemma {:induction false} CallbacksOverlap()
    ensures exists s :: Reachable(s) && 0 in s.cbs && s.cbs[0] == LoadingStopped && 1 in s.cbs && s.cbs[1] == Top
  {
    FirstCallback();
    Publish(Cleared, 0, 1);
    var s1 := Published(Cleared, 0, 1);
    DoLoadArmed(s1, 0, 1, 2);
    var s2 := Move(s1, 0, Arming(1, 2));
    DoSetArmed(s2, 0, 1, 2);
    var s3 := SetArmed(s2, 0, 1, 2);
    DoSchedule(s3, 0, 1, 2);
    var s4 := Schedule(s3, 0, 1, 2, K.limit);
    DoTick(s4);
    var s5 := s4.(run := s4.run.(clock := 2));
    DoFire(s5, 1);
    var s6 := FireTimer(s5, 1);
    assert s6.cbs[0] == LoadingStopped && s6.cbs[1] == Top;
  }

  /** A callback outlives Serve: it cleared armed, so stopWatch does not wait for it, and it has
      yet to load stopped. */
  lemma {:induction false} CallbackOutlivesServe()
    ensures exists s :: Reachable(s) && Is(s.gs, 0, Returned) && s.life.quiet && 0 in s.cbs && s.cbs[0] == LoadingStopped
  {
    FirstCallback();
    DoEnd(Cleared, 0);
    var s1 := End(Cleared, 0);
    DoSetStopped(s1, 0);
    var s2 := SetStopped(s1, 0);
    DoFindDisarmed(s2, 0);
    var s3 := FoundDisarmed(s2, 0);
    Then(s3, Go(0, Next), CloseWork(s3, 0));
    var s4 := CloseWork(s3, 0);
    assert OthersExited(s4);
    Then(s4, Go(0, Next), Move(s4, 0, Returned));
    var s5 := Move(s4, 0, Returned);
    assert Is(s5.gs, 0, Returned) && s5.life.quiet && s5.cbs[0] == LoadingStopped;
  }

  // The fourth run: a callback sees the second inline run and reads the clock; the handler returns,
  // time passes, and the third run starts before the callback reads the start time.

  lemma {:induction false} Returns(s: State, g: nat, m: nat, e: nat)
    requires Reachable(s) && Is(s.gs, g, LoadingArmed(m, e)) && s.watch.armed && s.run.word == Word(e, Running)
    ensures Reachable(Finish(Keep(Move(s, g, Handling(m, e)), g, m, e), g, m, Receiving))
  {
    var s1 := Move(s, g, Handling(m, e));
    Then(s, Go(g, Next), s1);
    DoKeep(s1, g, m, e);
    DoReply(Keep(s1, g, m, e), g, m);
  }

  lemma {:induction false} ReadsEarly(s: State)
    requires Reachable(s) && 0 in s.cbs && s.cbs[0] == Top && !s.life.stopped && s.run.word == St
    ensures Reachable(s.(cbs := s.cbs[0 := ReadingStart(St, s.run.clock)]))
  {
    DoTurn(s, 0, LoadingWord);
    var s1 := Turn(s, 0, LoadingWord);
    DoTurn(s1, 0, ReadingNow(St));
    var s2 := Turn(s1, 0, ReadingNow(St));
    DoTurn(s2, 0, ReadingStart(St, s.run.clock));
    assert Turn(s2, 0, ReadingStart(St, s.run.clock)).cbs == s.cbs[0 := ReadingStart(St, s.run.clock)];
  }

  /** A callback is about to wait for two limits although the handler that has the role just started:
      an escalation can come later than a limit from now. */
  lemma {:induction false} WaitCanExceedLimit()
    ensures exists s :: Reachable(s) && 0 in s.gs && s.gs[0].Handling? && s.run.word == Word(s.gs[0].e, Running) &&
              s.run.startNs == s.run.clock && s.watch.timer.None? && 0 in s.cbs && s.cbs[0] == Rescheduling(2 * K.limit)
  {
    FirstRequest();
    Publish(Served, 0, 1);
    var s1 := Published(Served, 0, 1);
    DoTick(s1);
    var s2 := s1.(run := s1.run.(clock := 1));
    DoFire(s2, 0);
    var s3 := FireTimer(s2, 0);
    ReadsEarly(s3);
    var s4 := s3.(cbs := s3.cbs[0 := ReadingStart(St, 1)]);
    Returns(s4, 0, 1, 2);
    ThirdRun(Finish(Keep(Move(s4, 0, Handling(1, 2)), 0, 1, 2), 0, 1, Receiving));
  }

  lemma {:induction false} ThirdRun(s: State)
    requires Reachable(s) && Is(s.gs, 0, Receiving) && 2 !in s.owner && s.slots.taken == 0 && s.watch.armed && s.watch.timer.None?
    requires 0 in s.cbs && s.cbs[0] == ReadingStart(St, 1) && s.run.clock == 1
    ensures exists t :: Reachable(t) && 0 in t.gs && t.gs[0].Handling? && t.run.word == Word(t.gs[0].e, Running) &&
              t.run.startNs == t.run.clock && t.watch.timer.None? && 0 in t.cbs && t.cbs[0] == Rescheduling(2 * K.limit)
  {
    DoTick(s);
    var s1 := s.(run := s.run.(clock := 2));
    Publish(s1, 0, 2);
    var s2 := Published(s1, 0, 2);
    var e := s2.run.epoch;
    Then(s2, Go(0, Next), Move(s2, 0, Handling(2, e)));
    var s3 := Move(s2, 0, Handling(2, e));
    DoTurn(s3, 0, Rescheduling(2));
    var s4 := Turn(s3, 0, Rescheduling(2));
    assert s4.gs[0].Handling? && s4.run.word == Word(e, Running);
  }
}
