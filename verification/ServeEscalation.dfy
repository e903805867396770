/** What watching an inline handler leads to: its run is decided by the watchdog in time. */
module ServeEscalation {
  import opened Wire
  import opened Serve
  import opened ServeInvariant
  import opened ServeSafety
  import opened ServeResults
  import opened ServeOverlap
  import opened ServeReturn

  /** In every run: a callback that read the clock and then the start time escalates exactly if
      they are a limit apart, and otherwise waits for exactly the rest. */
  lemma {:induction false} WaitIsTheRest(k: Config, states: seq<State>, actions: seq<Action>, n: nat)
    requires IsRun(k, states, actions) && n < |actions| && actions[n].Look?
    requires actions[n].c in states[n].cbs && states[n].cbs[actions[n].c].ReadingStart?
    ensures actions[n].c in states[n + 1].cbs
    ensures
      var pc, next, start := states[n].cbs[actions[n].c], states[n + 1].cbs[actions[n].c], states[n].run.startNs;
      (next == TakingSlot(pc.st) && start + k.limit <= pc.now) ||
      (next.Rescheduling? && start + k.limit == pc.now + next.wait && next.wait > 0)
  {
    assert StepAt(k, states, actions, n);
  }

  /** The timer is set to what a callback waits for, or by a goroutine for a whole limit. */
  lemma {:induction false} CallbackSetsTimer(k: Config, s: State, c: nat, id: nat, t: State)
    requires LookStep(k, s, c, id, t) && t.watch.timer != s.watch.timer && t.watch.timer.Some?
    ensures s.cbs[c].Rescheduling? && t.watch.timer.value == s.run.clock + (if s.cbs[c].wait > 0 then s.cbs[c].wait else 0)
  {
  }

  lemma {:induction false} GoroutineSetsTimer(k: Config, s: State, g: nat, t: State)
    requires g in s.gs && StartStep(k, s, g, Next, t) && t.watch.timer != s.watch.timer && t.watch.timer.Some?
    ensures s.gs[g].Scheduling? && t.watch.timer.value == s.run.clock + k.limit
  {
  }

  // -------------------------------------------------------- futures without goroutine g

  ghost predicate LeadsWithout(k: Config, s: State, g: nat, t: State) {
    exists states: seq<State>, actions: seq<Action> :: PathWithout(k, states, actions, g) && states[0] == s && states[|actions|] == t
  }

  ghost predicate PathWithout(k: Config, states: seq<State>, actions: seq<Action>, g: nat) {
    Path(k, states, actions) && forall i: nat :: i < |actions| ==> !(actions[i].Go? && actions[i].g == g)
  }

  lemma {:induction false} LeadsOnWithout(k: Config, s: State, g: nat, t: State, a: Action, u: State)
    requires LeadsWithout(k, s, g, t) && Step(k, t, a, u) && !(a.Go? && a.g == g)
    ensures LeadsWithout(k, s, g, u)
  {
    var states: seq<State>, actions: seq<Action> :|
      PathWithout(k, states, actions, g) && states[0] == s && states[|actions|] == t;
    var more, acts := states + [u], actions + [a];
    forall i: nat | i < |acts| ensures StepAt(k, more, acts, i) {
      if i < |actions| {
        assert StepAt(k, states, actions, i);
      }
    }
    assert PathWithout(k, more, acts, g) && more[0] == s && more[|acts|] == u;
  }

  /** s is a possible future of first in which goroutine g is still in the handler of its run. */
  ghost predicate On(k: Config, first: State, g: nat, s: State) {
    k.max > 0 && Leads(k, Init, s) && LeadsWithout(k, first, g, s) && SameRun(first, s) &&
    g in first.gs && g in s.gs && s.gs[g] == first.gs[g] && s.gs[g].Handling? && s.run.word == Word(s.gs[g].e, Running)
  }

  predicate SameRun(first: State, s: State) {
    s.run == first.run.(clock := s.run.clock)
  }

  lemma {:induction false} OnInvariant(k: Config, first: State, g: nat, s: State)
    requires On(k, first, g, s)
    ensures Invariant(k, s) && s.role == By(g)
  {
    AtInvariant(k, s, 0, s) by {
      assert Path(k, [s], []);
    }
    assert HoldsRole(s.gs[g], s.run.word);
  }

  lemma {:induction false} GoesOn(k: Config, first: State, g: nat, s: State, a: Action, t: State)
    requires On(k, first, g, s) && Step(k, s, a, t) && !(a.Go? && a.g == g)
    requires t.run == s.run.(clock := t.run.clock) && g in t.gs && t.gs[g] == s.gs[g]
    ensures On(k, first, g, t)
  {
    LeadsOn(k, Init, s, a, t);
    LeadsOnWithout(k, first, g, s, a, t);
  }

  lemma {:induction false} Reads(k: Config, first: State, g: nat, s: State, c: nat, pc: Watch) returns (t: State)
    requires On(k, first, g, s) && c in s.cbs && ReadStep(k, s, c, Turn(s, c, pc))
    ensures t == Turn(s, c, pc) && On(k, first, g, t)
  {
    t := Turn(s, c, pc);
    GoesOn(k, first, g, s, Look(c, 0), t);
  }

  // ----------------------------------------------------------------------- the path

  /** The callback c is about to swap the state word that is there: the next step escalates. */
  predicate AboutToEscalate(s: State, c: nat) {
    c in s.cbs && s.cbs[c] == Swapping(s.run.word)
  }

  /** A callback about to take a slot finds one. */
  lemma {:induction false} SlotIsFree(k: Config, first: State, g: nat, s: State, c: nat)
    requires On(k, first, g, s) && c in s.cbs && s.cbs[c].TakingSlot?
    ensures s.slots.taken == 0 < k.max
  {
    OnInvariant(k, first, g, s);
    assert s.slots.holders == {};
  }

  lemma {:induction false} TakesSlot(k: Config, first: State, g: nat, s: State, c: nat) returns (t: State)
    requires On(k, first, g, s) && c in s.cbs && s.cbs[c].TakingSlot?
    ensures On(k, first, g, t) && c in t.cbs && t.cbs[c] == Swapping(s.cbs[c].st) && t.run == s.run
  {
    SlotIsFree(k, first, g, s, c);
    t := BorrowSlot(s, c, s.cbs[c].st);
    assert EscalateStep(k, s, c, 0, t);
    GoesOn(k, first, g, s, Look(c, 0), t);
  }

  lemma {:induction false} NotStopped(k: Config, first: State, g: nat, s: State)
    requires On(k, first, g, s)
    ensures !s.life.stopped && !s.life.quiet && s.run.startNs <= s.run.clock && s.watch.charge != Retired
  {
    OnInvariant(k, first, g, s);
  }

  /** From the top of watch to the age of the handler. */
  lemma {:induction false} Looks(k: Config, first: State, g: nat, s: State, c: nat) returns (t: State)
    requires On(k, first, g, s) && c in s.cbs && (s.cbs[c].Top? || s.cbs[c].LoadingWord?)
    ensures On(k, first, g, t) && c in t.cbs && t.cbs[c] == ReadingStart(s.run.word, s.run.clock) && t.run == s.run
  {
    NotStopped(k, first, g, s);
    t := s;
    if s.cbs[c].Top? {
      t := Reads(k, first, g, s, c, LoadingWord);
    }
    t := Reads(k, first, g, t, c, ReadingNow(s.run.word));
    t := Reads(k, first, g, t, c, ReadingStart(s.run.word, s.run.clock));
  }

  /** The timer is set for the rest of the limit. */
  lemma {:induction false} Waits(k: Config, first: State, g: nat, s: State, c: nat) returns (t: State)
    requires On(k, first, g, s) && c in s.cbs && s.cbs[c].Rescheduling? && s.cbs[c].wait > 0
    ensures On(k, first, g, t) && t.watch.timer == Some(s.run.clock + s.cbs[c].wait) && t.run == s.run
  {
    t := Reschedule(s, c, s.cbs[c].wait);
    assert ArmStep(s, c, t);
    GoesOn(k, first, g, s, Look(c, 0), t);
  }

  /** Time passes until the timer is due, and it fires. */
  lemma {:induction false} Fires(k: Config, first: State, g: nat, s: State) returns (t: State, c: nat)
    requires On(k, first, g, s) && s.watch.timer.Some?
    ensures On(k, first, g, t) && c in t.cbs && t.cbs[c] == Top
    ensures t.run.clock == if s.run.clock < s.watch.timer.value then s.watch.timer.value else s.run.clock
    decreases if s.run.clock < s.watch.timer.value then s.watch.timer.value - s.run.clock else 0
  {
    if s.run.clock < s.watch.timer.value {
      var u := s.(run := s.run.(clock := s.run.clock + 1));
      GoesOn(k, first, g, s, Tick, u);
      t, c := Fires(k, first, g, u);
    } else {
      c := Unused(s.cbs.Keys);
      t := FireTimer(s, c);
      GoesOn(k, first, g, s, Fire(c), t);
    }
  }

  /** A callback at the top of watch escalates, now or after the rest of the limit. */
  lemma {:induction false} TopEscalates(k: Config, first: State, g: nat, s: State, c: nat) returns (t: State, d: nat)
    requires On(k, first, g, s) && c in s.cbs && (s.cbs[c].Top? || s.cbs[c].LoadingWord?)
    ensures On(k, first, g, t) && AboutToEscalate(t, d)
    ensures t.run.clock == if s.run.clock < s.run.startNs + k.limit then s.run.startNs + k.limit else s.run.clock
    decreases if s.run.clock < s.run.startNs + k.limit then 1 else 0
  {
    t := Looks(k, first, g, s, c);
    if s.run.clock < s.run.startNs + k.limit {
      var wait := k.limit - (s.run.clock - s.run.startNs);
      t := Reads(k, first, g, t, c, Rescheduling(wait));
      t := Waits(k, first, g, t, c);
      t, d := Fires(k, first, g, t);
      t, d := TopEscalates(k, first, g, t, d);
    } else {
      t := Reads(k, first, g, t, c, TakingSlot(s.run.word));
      t := TakesSlot(k, first, g, t, c);
      d := c;
    }
  }

  function Later(a: nat, b: nat): nat {
    if a < b then b else a
  }

  lemma {:induction false} TimerEscalates(k: Config, first: State, g: nat, s: State) returns (t: State, d: nat)
    requires On(k, first, g, s) && s.watch.timer.Some?
    ensures On(k, first, g, t) && AboutToEscalate(t, d)
    ensures t.run.clock <= Later(s.watch.timer.value, s.run.clock + k.limit)
  {
    NotStopped(k, first, g, s);
    t, d := Fires(k, first, g, s);
    t, d := TopEscalates(k, first, g, t, d);
  }

  /** escalate of an earlier run fails, and watch starts over. */
  lemma {:induction false} StaleGoesBack(k: Config, first: State, g: nat, s: State, c: nat) returns (t: State)
    requires On(k, first, g, s) && c in s.cbs && (s.cbs[c].Swapping? || s.cbs[c].Undoing? || s.cbs[c].Rechecking?)
    requires s.cbs[c].Swapping? ==> s.cbs[c].st != s.run.word
    ensures On(k, first, g, t) && c in t.cbs && t.cbs[c] == Top && t.run == s.run
  {
    t := s;
    if t.cbs[c].Swapping? {
      var u := Turn(t, c, Undoing(t.cbs[c].st));
      assert EscalateStep(k, t, c, 0, u);
      GoesOn(k, first, g, t, Look(c, 0), u);
      t := u;
    }
    if t.cbs[c].Undoing? {
      t := GivesSlotBack(k, first, g, t, c);
    }
    OnInvariant(k, first, g, t);
    t := Reads(k, first, g, t, c, Top);
  }

  lemma {:induction false} GivesSlotBack(k: Config, first: State, g: nat, s: State, c: nat) returns (t: State)
    requires On(k, first, g, s) && c in s.cbs && s.cbs[c].Undoing?
    ensures On(k, first, g, t) && c in t.cbs && t.cbs[c] == Rechecking(s.cbs[c].st) && t.run == s.run
  {
    OnInvariant(k, first, g, s);
    assert C(c) in s.slots.holders;
    t := ReturnSlot(s, c, s.cbs[c].st);
    assert EscalateStep(k, s, c, 0, t);
    GoesOn(k, first, g, s, Look(c, 0), t);
  }

  lemma {:induction false} SlotEscalates(k: Config, first: State, g: nat, s: State, c: nat) returns (t: State, d: nat)
    requires On(k, first, g, s) && c in s.cbs
    requires s.cbs[c].TakingSlot? || s.cbs[c].Swapping? || s.cbs[c].Undoing? || s.cbs[c].Rechecking?
    ensures On(k, first, g, t) && AboutToEscalate(t, d) && t.run.clock <= s.run.clock + k.limit
  {
    NotStopped(k, first, g, s);
    t, d := s, c;
    if t.cbs[c].TakingSlot? {
      t := TakesSlot(k, first, g, t, c);
    }
    if t.cbs[c] != Swapping(s.run.word) {
      t := StaleGoesBack(k, first, g, t, c);
      t, d := TopEscalates(k, first, g, t, c);
    }
  }

  /** The time until which the callback in charge or the timer already waits. */
  function Pending(k: Config, s: State): int {
    if s.watch.timer.Some? then s.watch.timer.value
    else if s.watch.charge.ByCallback? && s.watch.charge.c in s.cbs then
      var pc := s.cbs[s.watch.charge.c];
      if pc.Rescheduling? then s.run.clock + pc.wait
      else if pc.ReadingStart? then s.run.clock + k.limit - (pc.now - s.run.startNs)
      else s.run.clock
    else s.run.clock
  }

  function Bound(k: Config, s: State): int {
    if Pending(k, s) < s.run.clock + k.limit then s.run.clock + k.limit else Pending(k, s)
  }

  lemma {:induction false} ReadingEscalates(k: Config, first: State, g: nat, s: State, c: nat) returns (t: State, d: nat)
    requires On(k, first, g, s) && c in s.cbs && s.cbs[c].ReadingStart?
    ensures On(k, first, g, t) && AboutToEscalate(t, d)
    ensures
      var until := s.run.clock + k.limit - (s.cbs[c].now - s.run.startNs);
      t.run.clock <= s.run.clock + k.limit || t.run.clock <= until
  {
    var pc := s.cbs[c];
    var wait := k.limit - (pc.now - s.run.startNs);
    t := Reads(k, first, g, s, c, if wait > 0 then Rescheduling(wait) else TakingSlot(pc.st));
    if wait > 0 {
      t := Waits(k, first, g, t, c);
      t, d := TimerEscalates(k, first, g, t);
    } else {
      t, d := SlotEscalates(k, first, g, t, c);
    }
  }

  /** A callback that gave up armed looks again, finds the run and takes armed back. */
  lemma {:induction false} RecheckEscalates(k: Config, first: State, g: nat, s: State, c: nat) returns (t: State, d: nat)
    requires On(k, first, g, s) && c in s.cbs && AboutToRecheck(s.cbs[c]) && !s.watch.armed
    ensures On(k, first, g, t) && AboutToEscalate(t, d) && t.run.clock <= s.run.clock + k.limit
  {
    NotStopped(k, first, g, s);
    t := s;
    if t.cbs[c].LoadingStopped? {
      t := Reads(k, first, g, t, c, LoadingAgain);
    }
    if t.cbs[c].LoadingAgain? {
      t := Reads(k, first, g, t, c, Rearming);
    }
    var u := Rearm(t, c);
    assert ArmStep(t, c, u);
    GoesOn(k, first, g, t, Look(c, 0), u);
    t, d := TopEscalates(k, first, g, u, c);
  }

  lemma {:induction false} DisarmingEscalates(k: Config, first: State, g: nat, s: State, c: nat) returns (t: State, d: nat)
    requires On(k, first, g, s) && c in s.cbs && s.cbs[c].Disarming?
    ensures On(k, first, g, t) && AboutToEscalate(t, d) && t.run.clock <= s.run.clock + k.limit
  {
    t := Disarm(s, c, LoadingStopped);
    assert ArmStep(s, c, t);
    GoesOn(k, first, g, s, Look(c, 0), t);
    t, d := RecheckEscalates(k, first, g, t, c);
  }

  lemma {:induction false} CallbackStands(k: Config, first: State, g: nat, s: State, c: nat)
    requires On(k, first, g, s) && c in s.cbs
    ensures !s.cbs[c].Clearing? && !s.cbs[c].Spawning? && (s.cbs[c].Rescheduling? ==> s.cbs[c].wait > 0)
  {
    OnInvariant(k, first, g, s);
    assert LookOk(k, s.cbs[c], s.run.word, s.run.starts, s.run.clock);
  }

  lemma {:induction false} CallbackEscalates(k: Config, first: State, g: nat, s: State, c: nat) returns (t: State, d: nat)
    requires On(k, first, g, s) && c in s.cbs && InCharge(s.cbs[c]) && s.watch.charge == ByCallback(c) && s.watch.timer.None?
    ensures On(k, first, g, t) && AboutToEscalate(t, d) && t.run.clock <= Bound(k, s)
  {
    CallbackStands(k, first, g, s, c);
    NotStopped(k, first, g, s);
    var pc := s.cbs[c];
    if pc.Top? || pc.LoadingWord? {
      t, d := TopEscalates(k, first, g, s, c);
    } else if pc.ReadingNow? {
      t := Reads(k, first, g, s, c, ReadingStart(pc.st, s.run.clock));
      t, d := ReadingEscalates(k, first, g, t, c);
    } else if pc.ReadingStart? {
      t, d := ReadingEscalates(k, first, g, s, c);
    } else if pc.Rescheduling? {
      t := Waits(k, first, g, s, c);
      t, d := TimerEscalates(k, first, g, t);
    } else if pc.Disarming? {
      t, d := DisarmingEscalates(k, first, g, s, c);
    } else {
      t, d := SlotEscalates(k, first, g, s, c);
    }
  }

  lemma {:induction false} SchedulingEscalates(k: Config, first: State, g: nat, s: State, h: nat) returns (t: State, d: nat)
    requires On(k, first, g, s) && h in s.gs && s.gs[h].Scheduling?
    ensures On(k, first, g, t) && AboutToEscalate(t, d) && t.run.clock <= s.run.clock + k.limit
  {
    t := Schedule(s, h, s.gs[h].m, s.gs[h].e, k.limit);
    assert StartStep(k, s, h, Next, t);
    GoesOn(k, first, g, s, Go(h, Next), t);
    t, d := TimerEscalates(k, first, g, t);
  }

  /** Who watches the handler. */
  lemma {:induction false} WatcherStands(k: Config, first: State, g: nat, s: State)
    requires On(k, first, g, s)
    ensures
      var arm := s.watch.charge;
      (arm == ByTimer <==> s.watch.timer.Some?) && (arm.ByGo? ==> arm.g in s.gs && s.gs[arm.g].Scheduling?) &&
      (arm.ByCallback? ==> arm.c in s.cbs && InCharge(s.cbs[arm.c])) && arm != Retired &&
      (arm == NoOne ==> !s.watch.armed && exists c :: c in s.cbs && AboutToRecheck(s.cbs[c]))
  {
    OnInvariant(k, first, g, s);
  }

  /** From every reachable state with a handler in an inline run that has the role, and without a
      step of its goroutine, the watchdog can decide the run: a callback d is about to swap its state
      word. It happens by the time for which the watchdog already waits, or within a limit. */
  lemma {:induction false} SlowHandlerIsEscalated(k: Config, states: seq<State>, actions: seq<Action>, n: nat, g: nat)
    returns (t: State, d: nat)
    requires IsRun(k, states, actions) && n < |states|
    requires g in states[n].gs && states[n].gs[g].Handling? && states[n].run.word == Word(states[n].gs[g].e, Running)
    ensures LeadsWithout(k, states[n], g, t) && g in t.gs && t.gs[g] == states[n].gs[g] && t.run.word == states[n].run.word
    ensures Step(k, t, Look(d, 0), Escalate(t, d, t.run.word)) && Decides(t, Look(d, 0)) == Some(states[n].gs[g].e)
    ensures t.run.clock <= Bound(k, states[n])
  {
    var s := states[n];
    StartsOn(k, states, actions, n, g);
    WatcherStands(k, s, g, s);
    var arm := s.watch.charge;
    if arm.ByTimer? {
      t, d := TimerEscalates(k, s, g, s);
    } else if arm.ByGo? {
      t, d := SchedulingEscalates(k, s, g, s, arm.g);
    } else if arm.ByCallback? {
      t, d := CallbackEscalates(k, s, g, s, arm.c);
    } else {
      var c :| c in s.cbs && AboutToRecheck(s.cbs[c]);
      t, d := RecheckEscalates(k, s, g, s, c);
    }
  }

  lemma {:induction false} StartsOn(k: Config, states: seq<State>, actions: seq<Action>, n: nat, g: nat)
    requires IsRun(k, states, actions) && n < |states|
    requires g in states[n].gs && states[n].gs[g].Handling? && states[n].run.word == Word(states[n].gs[g].e, Running)
    ensures On(k, states[n], g, states[n])
  {
    Here(k, states, actions, n, 0);
    assert PathWithout(k, [states[n]], [], g);
  }
}
