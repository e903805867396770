/** When two callbacks of the watchdog run at once. The comment on watch says never; they do,
    and exactly when all but one are no longer in charge of armed. */
module ServeOverlap {
  import opened Wire
  import opened Serve
  import opened ServeInvariant
  import opened ServeSafety
  import opened ServeResults

  /** c runs together with another callback. */
  ghost predicate NotAlone(s: State, c: nat) {
    c in s.cbs && exists d :: d in s.cbs && d != c
  }

  /** Callbacks overlap only if at most one of them is in charge. */
  lemma {:induction false} OverlapNeedsHandOff(k: Config, states: seq<State>, actions: seq<Action>, n: nat, c: nat, d: nat)
    requires IsRun(k, states, actions) && n < |states| && c != d && c in states[n].cbs && d in states[n].cbs
    ensures !InCharge(states[n].cbs[c]) || !InCharge(states[n].cbs[d])
  {
    if InCharge(states[n].cbs[c]) && InCharge(states[n].cbs[d]) {
      OneCallbackInCharge(k, states, actions, n, c, d);
    }
  }

  // ------------------------------------------------ every such callback can be overtaken

  /** Some steps start a second callback beside c. */
  ghost predicate Overtaken(k: Config, s: State, c: nat) {
    exists states: seq<State>, actions: seq<Action> ::
      Path(k, states, actions) && states[0] == s && NotAlone(states[|actions|], c)
  }

  lemma {:induction false} Already(k: Config, s: State, c: nat)
    requires NotAlone(s, c)
    ensures Overtaken(k, s, c)
  {
    assert Path(k, [s], []);
  }

  lemma {:induction false} AfterStep(k: Config, s: State, a: Action, t: State, c: nat)
    requires Step(k, s, a, t) && Overtaken(k, t, c)
    ensures Overtaken(k, s, c)
  {
    var states: seq<State>, actions: seq<Action> :|
      Path(k, states, actions) && states[0] == t && NotAlone(states[|actions|], c);
    PathBefore(k, s, a, states, actions);
  }

  /** A number that is not in use. */
  lemma {:induction false} Unused(used: set<nat>) returns (n: nat)
    ensures n !in used
  {
    var bound := UpperBound(used);
    n := bound;
  }

  lemma {:induction false} UpperBound(used: set<nat>) returns (n: nat)
    ensures forall x :: x in used ==> x < n
  {
    if used == {} {
      n := 0;
    } else {
      var x :| x in used;
      n := UpperBound(used - {x});
      assert forall y :: y in used ==> y == x || y in used - {x};
      n := if x < n then n else x + 1;
    }
  }

  lemma {:induction false} TimerOvertakes(k: Config, s: State, c: nat)
    requires s.watch.timer.Some? && c in s.cbs
    ensures Overtaken(k, s, c)
    decreases if s.run.clock < s.watch.timer.value then s.watch.timer.value - s.run.clock else 0
  {
    if s.watch.timer.value <= s.run.clock {
      var d := Unused(s.cbs.Keys);
      var t := FireTimer(s, d);
      assert d in t.cbs && c in t.cbs;
      Already(k, t, c);
      AfterStep(k, s, Fire(d), t, c);
    } else {
      var t := s.(run := s.run.(clock := s.run.clock + 1));
      TimerOvertakes(k, t, c);
      AfterStep(k, s, Tick, t, c);
    }
  }

  lemma {:induction false} GoOvertakes(k: Config, s: State, g: nat, ch: Choice, t: State, c: nat)
    requires GoStep(k, s, g, ch, t) && Overtaken(k, t, c)
    ensures Overtaken(k, s, c)
  {
    AfterStep(k, s, Go(g, ch), t, c);
  }

  lemma {:induction false} SchedulingOvertakes(k: Config, s: State, g: nat, c: nat)
    requires g in s.gs && s.gs[g].Scheduling? && c in s.cbs
    ensures Overtaken(k, s, c)
  {
    var t := Schedule(s, g, s.gs[g].m, s.gs[g].e, k.limit);
    TimerOvertakes(k, t, c);
    GoOvertakes(k, s, g, Next, t, c);
  }

  lemma {:induction false} ArmingOvertakes(k: Config, s: State, g: nat, c: nat)
    requires g in s.gs && s.gs[g].Arming? && !s.watch.armed && c in s.cbs
    ensures Overtaken(k, s, c)
  {
    var t := SetArmed(s, g, s.gs[g].m, s.gs[g].e);
    SchedulingOvertakes(k, t, g, c);
    GoOvertakes(k, s, g, Next, t, c);
  }

  lemma {:induction false} LoadingOvertakes(k: Config, s: State, g: nat, c: nat)
    requires g in s.gs && s.gs[g].LoadingArmed? && !s.watch.armed && c in s.cbs
    ensures Overtaken(k, s, c)
  {
    var t := Move(s, g, Arming(s.gs[g].m, s.gs[g].e));
    ArmingOvertakes(k, t, g, c);
    GoOvertakes(k, s, g, Next, t, c);
  }

  /** A receiver that starts an inline run arms the timer. */
  lemma {:induction false} PreludeOvertakes(k: Config, s: State, g: nat, c: nat)
    requires g in s.gs && Prelude(s.gs[g]) && !s.watch.armed && c in s.cbs
    ensures Overtaken(k, s, c)
    decreases if s.gs[g].ReadingClock? then 2 else if s.gs[g].StoringStart? then 1 else 0
  {
    var pc := s.gs[g];
    if pc.ReadingClock? {
      var t := Move(s, g, StoringStart(pc.m, s.run.clock));
      PreludeOvertakes(k, t, g, c);
      GoOvertakes(k, s, g, Next, t, c);
    } else if pc.StoringStart? {
      var t := StoreStart(s, g, pc.m, pc.t);
      PreludeOvertakes(k, t, g, c);
      GoOvertakes(k, s, g, Next, t, c);
    } else {
      var t := StoreWord(s, g, pc.m);
      LoadingOvertakes(k, t, g, c);
      GoOvertakes(k, s, g, Next, t, c);
    }
  }

  lemma {:induction false} ReceivedOvertakes(k: Config, s: State, g: nat, c: nat)
    requires g in s.gs && s.gs[g].Received? && s.slots.taken == 0 && !s.watch.armed && c in s.cbs
    ensures Overtaken(k, s, c)
  {
    var t := BeginInline(s, g, s.gs[g].m);
    PreludeOvertakes(k, t, g, c);
    GoOvertakes(k, s, g, Next, t, c);
  }

  lemma {:induction false} ReceivingOvertakes(k: Config, s: State, g: nat, c: nat)
    requires Is(s.gs, g, Receiving) && s.slots.taken == 0 && !s.watch.armed && c in s.cbs
    ensures Overtaken(k, s, c)
  {
    var m := Unused(s.owner.Keys);
    var t := Accept(s, g, m);
    ReceivedOvertakes(k, t, g, c);
    GoOvertakes(k, s, g, Get(m), t, c);
  }

  lemma {:induction false} ReplyingOvertakes(k: Config, s: State, g: nat, c: nat)
    requires g in s.gs && s.gs[g].Replying? && s.slots.taken == 0 && !s.watch.armed && c in s.cbs
    ensures Overtaken(k, s, c)
  {
    var t := Finish(s, g, s.gs[g].m, Receiving);
    ReceivingOvertakes(k, t, g, c);
    GoOvertakes(k, s, g, Next, t, c);
  }

  /** The request that a worker took is done at once, and nothing is in flight again. */
  lemma {:induction false} HandedOvertakes(k: Config, s: State, g: nat, w: nat, c: nat)
    requires Is(s.gs, g, Receiving) && w in s.gs && s.gs[w].Working? && s.slots.taken == 1 && !s.watch.armed && c in s.cbs
    ensures Overtaken(k, s, c)
  {
    var t := FreeSlot(s, w, WorkerReply(s.gs[w].m));
    ReceivingOvertakes(k, t, g, c);
    GoOvertakes(k, s, w, Next, t, c);
  }

  lemma {:induction false} BlockedOvertakes(k: Config, s: State, g: nat, w: nat, c: nat)
    requires g in s.gs && s.gs[g].Blocked? && s.slots.taken == 1 && !s.watch.armed && c in s.cbs
    requires w in s.gs && (s.gs[w].Idle? || s.gs[w].WorkerReply?)
    ensures Overtaken(k, s, c)
    decreases if s.gs[w].Idle? then 0 else 1
  {
    if s.gs[w].Idle? {
      var t := HandOver(s, g, w, s.gs[g].m);
      HandedOvertakes(k, t, g, w, c);
      GoOvertakes(k, s, g, Hand(w), t, c);
    } else {
      var t := Finish(s, w, s.gs[w].m, Idle);
      BlockedOvertakes(k, t, g, w, c);
      GoOvertakes(k, s, w, Next, t, c);
    }
  }

  lemma {:induction false} OfferingOvertakes(k: Config, s: State, g: nat, w: nat, c: nat)
    requires g in s.gs && s.gs[g].Offering? && s.slots.taken == 1 && !s.watch.armed && c in s.cbs
    requires s.pool.started >= k.max ==> w in s.gs && (s.gs[w].Idle? || s.gs[w].WorkerReply?)
    ensures Overtaken(k, s, c)
  {
    var m := s.gs[g].m;
    if !NoneIdle(s) {
      var i :| i in s.gs && s.gs[i] == Idle;
      var t := HandOver(s, g, i, m);
      HandedOvertakes(k, t, g, i, c);
      GoOvertakes(k, s, g, Hand(i), t, c);
    } else if s.pool.started < k.max {
      var i := Unused(s.gs.Keys);
      var t := SpawnWorker(s, g, i, m);
      HandedOvertakes(k, t, g, i, c);
      GoOvertakes(k, s, g, Spawn(i), t, c);
    } else {
      var t := Move(s, g, Blocked(m));
      BlockedOvertakes(k, t, g, w, c);
      GoOvertakes(k, s, g, Next, t, c);
    }
  }

  lemma {:induction false} AcquiringOvertakes(k: Config, s: State, g: nat, w: nat, c: nat)
    requires g in s.gs && s.gs[g].Acquiring? && s.slots.taken == 0 && k.max > 0 && !s.watch.armed && c in s.cbs
    requires s.pool.started >= k.max ==> w in s.gs && (s.gs[w].Idle? || s.gs[w].WorkerReply?)
    ensures Overtaken(k, s, c)
  {
    var t := TakeSlot(s, g, Offering(s.gs[g].m));
    OfferingOvertakes(k, t, g, w, c);
    GoOvertakes(k, s, g, Next, t, c);
  }

  // The state that remains when every other goroutine has given its slot back.

  /** What an unarmed running state looks like to the other goroutines that hold a slot. */
  lemma {:induction false} OtherHolders(k: Config, s: State, h: nat)
    requires CoreOk(k, s) && ArmOk(s.gs, s.cbs, s.watch) && s.role.By? && h != s.role.g && !s.watch.armed
    requires G(h) in s.slots.holders
    ensures h in s.gs && s.slots.taken > 0
    ensures s.gs[h].Working? || s.gs[h].Displaced? || s.gs[h].LoadingArmed? || s.gs[h].Arming? ||
            (s.gs[h].Handling? && s.run.word != Word(s.gs[h].e, Running))
  {
    assert HoldsSlot(s.gs[h], s.run.word) && !HoldsRole(s.gs[h], s.run.word);
  }

  lemma {:induction false} NoCallbackHolds(k: Config, s: State, d: nat)
    requires CoreOk(k, s) && ArmOk(s.gs, s.cbs, s.watch) && !s.watch.armed
    ensures C(d) !in s.slots.holders
  {
    assert d in s.cbs ==> !InCharge(s.cbs[d]);
  }

  /** With no other slot taken, the number of slots says whether the receiver holds one, and
      no worker works. */
  lemma {:induction false} OnlyReceiverHolds(k: Config, s: State)
    requires CoreOk(k, s) && ArmOk(s.gs, s.cbs, s.watch) && s.role.By? && !s.watch.armed
    requires forall h :: G(h) in s.slots.holders ==> h == s.role.g
    ensures s.role.g in s.gs && HoldsRole(s.gs[s.role.g], s.run.word)
    ensures s.slots.taken == if s.gs[s.role.g].Offering? || s.gs[s.role.g].Blocked? then 1 else 0
    ensures forall w :: w in s.gs && w != s.role.g ==> !s.gs[w].Working?
  {
    var g := s.role.g;
    forall h | h in s.slots.holders ensures h == G(g) {
      if h.C? {
        NoCallbackHolds(k, s, h.c);
      }
    }
    if HoldsSlot(s.gs[g], s.run.word) {
      assert s.slots.holders == {G(g)};
    } else {
      assert s.slots.holders == {};
    }
  }

  /** A worker that is free, if all are started. */
  lemma {:induction false} FreeWorker(k: Config, s: State) returns (w: nat)
    requires WorkersOk(s.gs, s.pool.workers, s.pool.started, k.max, s.life.closed) && !s.life.closed && k.max > 0
    requires forall h :: h in s.gs && IsWorker(s.gs[h]) ==> !s.gs[h].Working?
    ensures s.pool.started >= k.max ==> w in s.gs && (s.gs[w].Idle? || s.gs[w].WorkerReply?)
  {
    w := 0;
    if s.pool.started >= k.max {
      assert s.pool.workers != {};
      w :| w in s.pool.workers;
    }
  }

  lemma {:induction false} ReceiverOvertakes(k: Config, s: State, c: nat)
    requires k.max > 0 && Invariant(k, s) && s.role.By? && !s.watch.armed && c in s.cbs
    requires forall h :: G(h) in s.slots.holders ==> h == s.role.g
    ensures Overtaken(k, s, c)
  {
    var g := s.role.g;
    OnlyReceiverHolds(k, s);
    var pc := s.gs[g];
    var w := FreeWorker(k, s);
    if pc.Receiving? {
      ReceivingOvertakes(k, s, g, c);
    } else if pc.Received? {
      ReceivedOvertakes(k, s, g, c);
    } else if pc.Acquiring? {
      AcquiringOvertakes(k, s, g, w, c);
    } else if pc.Offering? {
      OfferingOvertakes(k, s, g, w, c);
    } else if pc.Blocked? {
      BlockedOvertakes(k, s, g, w, c);
    } else if pc.Replying? {
      ReplyingOvertakes(k, s, g, c);
    } else if Prelude(pc) {
      PreludeOvertakes(k, s, g, c);
    } else {
      RunOvertakes(k, s, g, c);
    }
  }

  /** The receiver is in an inline run that has the role. */
  lemma {:induction false} RunOvertakes(k: Config, s: State, g: nat, c: nat)
    requires g in s.gs && InRun(s.gs[g]) && s.run.word == Word(s.gs[g].e, Running) && s.slots.taken == 0
    requires !s.watch.armed && c in s.cbs
    ensures Overtaken(k, s, c)
  {
    var pc := s.gs[g];
    if pc.LoadingArmed? {
      LoadingOvertakes(k, s, g, c);
    } else if pc.Arming? {
      ArmingOvertakes(k, s, g, c);
    } else if pc.Scheduling? {
      SchedulingOvertakes(k, s, g, c);
    } else {
      var t := Keep(s, g, pc.m, pc.e);
      ReplyingOvertakes(k, t, g, c);
      GoOvertakes(k, s, g, Next, t, c);
    }
  }

  /** The other goroutines give their slots back, one by one. */
  lemma {:induction false} UnarmedOvertakes(k: Config, s: State, c: nat)
    requires k.max > 0 && Invariant(k, s) && s.role.By? && !s.watch.armed && c in s.cbs
    ensures Overtaken(k, s, c)
    decreases s.slots.taken, 1
  {
    if forall h :: G(h) in s.slots.holders ==> h == s.role.g {
      ReceiverOvertakes(k, s, c);
    } else {
      var h :| G(h) in s.slots.holders && h != s.role.g;
      OtherHolders(k, s, h);
      if s.gs[h].LoadingArmed? {
        LoadingOvertakes(k, s, h, c);
      } else if s.gs[h].Arming? {
        ArmingOvertakes(k, s, h, c);
      } else if s.gs[h].Handling? {
        var t := Move(s, h, Displaced(s.gs[h].m));
        assert ReplyStep(k, s, h, Next, t);
        StepKeepsInvariant(k, s, Go(h, Next), t);
        ReleaseOvertakes(k, t, h, c);
        GoOvertakes(k, s, h, Next, t, c);
      } else {
        ReleaseOvertakes(k, s, h, c);
      }
    }
  }

  lemma {:induction false} ReleaseOvertakes(k: Config, s: State, h: nat, c: nat)
    requires k.max > 0 && Invariant(k, s) && s.role.By? && !s.watch.armed && c in s.cbs && s.slots.taken > 0
    requires h in s.gs && (s.gs[h].Displaced? || s.gs[h].Working?)
    ensures Overtaken(k, s, c)
    decreases s.slots.taken, 0
  {
    var t := FreeSlot(s, h, if s.gs[h].Displaced? then LateReply(s.gs[h].m) else WorkerReply(s.gs[h].m));
    assert GoStep(k, s, h, Next, t);
    StepKeepsInvariant(k, s, Go(h, Next), t);
    UnarmedOvertakes(k, t, c);
    GoOvertakes(k, s, h, Next, t, c);
  }

  /** The condition is exact: as long as Serve receives, any callback that is no longer in
      charge can be overtaken by a second one. */
  lemma {:induction false} OverlapPossible(k: Config, states: seq<State>, actions: seq<Action>, n: nat, c: nat)
    requires IsRun(k, states, actions) && n < |states| && !Ended(states[n])
    requires c in states[n].cbs && !InCharge(states[n].cbs[c])
    ensures Overtaken(k, states[n], c)
  {
    RunKeepsInvariant(k, states, actions, n);
    StateOvertakes(k, states[n], c);
  }

  lemma {:induction false} StateOvertakes(k: Config, s: State, c: nat)
    requires k.max > 0 && Invariant(k, s) && !s.role.Over? && c in s.cbs && !InCharge(s.cbs[c])
    ensures Overtaken(k, s, c)
  {
    if NotAlone(s, c) {
      Already(k, s, c);
    } else {
      AloneMeans(k, s, c);
      if s.watch.timer.Some? {
        TimerOvertakes(k, s, c);
      } else if s.watch.charge.ByGo? {
        SchedulingOvertakes(k, s, s.watch.charge.g, c);
      } else {
        UnarmedOvertakes(k, s, c);
      }
    }
  }

  /** c is alone and not in charge: the timer is, or a goroutine about to schedule it, or
      nobody, and a goroutine has the receiver role. */
  lemma {:induction false} AloneMeans(k: Config, s: State, c: nat)
    requires Invariant(k, s) && !s.role.Over? && c in s.cbs && !InCharge(s.cbs[c]) && !NotAlone(s, c)
    ensures s.role.By?
    ensures s.watch.charge.ByGo? ==> s.watch.charge.g in s.gs && s.gs[s.watch.charge.g].Scheduling?
    ensures s.watch.timer.Some? || s.watch.charge.ByGo? || !s.watch.armed
  {
    assert forall d :: d in s.cbs ==> d == c;
  }
}
