/** The end of Serve: from every reachable state some steps let Serve return, and a callback
    that is no longer in charge of armed can outlive both stopWatch and Serve. */
module ServeReturn {
  import opened Wire
  import opened Serve
  import opened ServeInvariant
  import opened ServeSafety
  import opened ServeResults
  import opened ServeOverlap

  // ----------------------------------------------------- how far the end has come

  predicate BeforeQuiet(pc: Pc) {
    pc.Stopping? || pc.CheckingArmed? || pc.StoppingTimer?
  }

  /** Once receiving ended: stopWatch has returned and work is closed exactly if the ender is
      past them, and the result is on its way to Serve's own goroutine or has arrived. */
  ghost predicate ReturnOk(s: State) {
    0 in s.gs && s.gs[0] != Exited && (s.role.Over? ==> EnderOk(s.gs, s.role.ender, s.life))
  }

  ghost predicate EnderOk(gs: map<nat, Pc>, e: nat, life: Life)
    requires 0 in gs
  {
    e in gs && (life.closed <==> !IsEnding(gs[e])) && (life.quiet <==> !BeforeQuiet(gs[e])) &&
    if e == 0 then IsEnding(gs[0]) || gs[0].Joining? || gs[0].Returned?
    else BeforeQuiet(gs[e]) || gs[e].SendingResult? || life.results == 1 || gs[0].Joining? || gs[0].Returned?
  }

  lemma {:induction false} ReceiverReturn(k: Config, s: State, g: nat, ch: Choice, t: State)
    requires RoleOk(s.gs, s.cbs, s.run.word, s.role) && DogOk(s) && ReturnOk(s) && g in s.gs && ReceiverStep(k, s, g, ch, t)
    requires forall w :: w in s.gs && s.gs[w].Idle? ==> w != 0
    ensures ReturnOk(t)
  {
    assert HoldsRole(s.gs[g], s.run.word);
  }

  lemma {:induction false} StartReturn(k: Config, s: State, g: nat, ch: Choice, t: State)
    requires RoleOk(s.gs, s.cbs, s.run.word, s.role) && ReturnOk(s) && g in s.gs && StartStep(k, s, g, ch, t)
    ensures ReturnOk(t)
  {
  }

  lemma {:induction false} ReplyReturn(k: Config, s: State, g: nat, ch: Choice, t: State)
    requires RoleOk(s.gs, s.cbs, s.run.word, s.role) && ReturnOk(s) && g in s.gs && ReplyStep(k, s, g, ch, t)
    ensures ReturnOk(t)
  {
  }

  lemma {:induction false} WorkerReturn(k: Config, s: State, g: nat, ch: Choice, t: State)
    requires ReturnOk(s) && g in s.gs && g != 0 && WorkerStep(k, s, g, ch, t)
    ensures ReturnOk(t)
  {
  }

  lemma {:induction false} StopReturn(k: Config, s: State, g: nat, ch: Choice, t: State)
    requires DogOk(s) && ReturnOk(s) && g in s.gs && StopStep(k, s, g, ch, t)
    ensures ReturnOk(t)
  {
  }

  lemma {:induction false} EndReturn(k: Config, s: State, g: nat, ch: Choice, t: State)
    requires DogOk(s) && ReturnOk(s) && g in s.gs && ReturnStep(k, s, g, ch, t)
    ensures ReturnOk(t)
  {
  }

  lemma {:induction false} LookReturn(k: Config, s: State, c: nat, id: nat, t: State)
    requires RoleOk(s.gs, s.cbs, s.run.word, s.role) && LooksOk(k, s.cbs, s.run.word, s.run.starts, s.run.clock)
    requires ReturnOk(s) && LookStep(k, s, c, id, t)
    ensures ReturnOk(t)
  {
  }

  lemma {:induction false} ReturnStays(k: Config, s: State, a: Action, t: State)
    requires Invariant(k, s) && ReturnOk(s) && Step(k, s, a, t)
    ensures ReturnOk(t)
  {
    if a.Go? {
      var g, ch := a.g, a.choice;
      if ReceiverStep(k, s, g, ch, t) {
        ReceiverReturn(k, s, g, ch, t);
      } else if StartStep(k, s, g, ch, t) {
        StartReturn(k, s, g, ch, t);
      } else if ReplyStep(k, s, g, ch, t) {
        ReplyReturn(k, s, g, ch, t);
      } else if WorkerStep(k, s, g, ch, t) {
        WorkerReturn(k, s, g, ch, t);
      } else if StopStep(k, s, g, ch, t) {
        StopReturn(k, s, g, ch, t);
      } else {
        EndReturn(k, s, g, ch, t);
      }
    } else if a.Look? {
      LookReturn(k, s, a.c, a.id, t);
    }
  }

  lemma {:induction false} RunKeepsReturn(k: Config, states: seq<State>, actions: seq<Action>, n: nat)
    requires IsRun(k, states, actions) && n < |states|
    ensures ReturnOk(states[n])
  {
    if n > 0 {
      RunKeepsReturn(k, states, actions, n - 1);
      RunKeepsInvariant(k, states, actions, n - 1);
      assert StepAt(k, states, actions, n - 1);
      ReturnStays(k, states[n - 1], actions[n - 1], states[n]);
    }
  }

  // ------------------------------------------------------------- possible futures

  ghost predicate Leads(k: Config, s: State, t: State) {
    exists states: seq<State>, actions: seq<Action> :: Path(k, states, actions) && states[0] == s && states[|actions|] == t
  }

  lemma {:induction false} LeadsOn(k: Config, s: State, t: State, a: Action, u: State)
    requires Leads(k, s, t) && Step(k, t, a, u)
    ensures Leads(k, s, u)
  {
    var states: seq<State>, actions: seq<Action> :| Path(k, states, actions) && states[0] == s && states[|actions|] == t;
    var more, acts := states + [u], actions + [a];
    forall i: nat | i < |acts| ensures StepAt(k, more, acts, i) {
      if i < |actions| {
        assert StepAt(k, states, actions, i);
      }
    }
    assert Path(k, more, acts) && more[0] == s && more[|acts|] == u;
  }

  /** s is a possible future of first, itself reachable, in which the callback c is where it was. */
  ghost predicate At(k: Config, first: State, c: nat, s: State) {
    k.max > 0 && Leads(k, Init, s) && Leads(k, first, s) &&
    (c in s.cbs <==> c in first.cbs) && (c in s.cbs ==> s.cbs[c] == first.cbs[c])
  }

  lemma {:induction false} AtInvariant(k: Config, first: State, c: nat, s: State)
    requires At(k, first, c, s)
    ensures Invariant(k, s) && ReturnOk(s)
  {
    var states: seq<State>, actions: seq<Action> :| Path(k, states, actions) && states[0] == Init && states[|actions|] == s;
    assert IsRun(k, states, actions);
    RunKeepsInvariant(k, states, actions, |actions|);
    RunKeepsReturn(k, states, actions, |actions|);
  }

  /** A callback leaves the others alone. */
  ghost predicate OthersStay(s: State, d: nat, t: State) {
    forall c :: c != d ==> (c in t.cbs <==> c in s.cbs) && (c in s.cbs ==> t.cbs[c] == s.cbs[c])
  }

  lemma {:induction false} ReadKeepsOthers(k: Config, s: State, d: nat, t: State)
    requires d in s.cbs && ReadStep(k, s, d, t)
    ensures OthersStay(s, d, t)
  {
  }

  lemma {:induction false} EscalateKeepsOthers(k: Config, s: State, d: nat, id: nat, t: State)
    requires d in s.cbs && EscalateStep(k, s, d, id, t)
    ensures OthersStay(s, d, t)
  {
  }

  lemma {:induction false} ArmKeepsOthers(s: State, d: nat, t: State)
    requires d in s.cbs && ArmStep(s, d, t)
    ensures OthersStay(s, d, t)
  {
  }

  /** A goroutine takes a step. */
  lemma {:induction false} Goes(k: Config, first: State, c: nat, s: State, g: nat, ch: Choice, t: State)
    requires At(k, first, c, s) && GoStep(k, s, g, ch, t) && t.cbs == s.cbs
    ensures At(k, first, c, t)
  {
    LeadsOn(k, Init, s, Go(g, ch), t);
    LeadsOn(k, first, s, Go(g, ch), t);
  }

  lemma {:induction false} ReceiverGoes(k: Config, first: State, c: nat, s: State, g: nat, ch: Choice, t: State)
    requires At(k, first, c, s) && g in s.gs && ReceiverStep(k, s, g, ch, t)
    ensures At(k, first, c, t)
  {
    Goes(k, first, c, s, g, ch, t);
  }

  lemma {:induction false} StartGoes(k: Config, first: State, c: nat, s: State, g: nat, ch: Choice, t: State)
    requires At(k, first, c, s) && g in s.gs && StartStep(k, s, g, ch, t)
    ensures At(k, first, c, t)
  {
    Goes(k, first, c, s, g, ch, t);
  }

  lemma {:induction false} ReplyGoes(k: Config, first: State, c: nat, s: State, g: nat, ch: Choice, t: State)
    requires At(k, first, c, s) && g in s.gs && ReplyStep(k, s, g, ch, t)
    ensures At(k, first, c, t)
  {
    Goes(k, first, c, s, g, ch, t);
  }

  lemma {:induction false} WorkerGoes(k: Config, first: State, c: nat, s: State, g: nat, ch: Choice, t: State)
    requires At(k, first, c, s) && g in s.gs && WorkerStep(k, s, g, ch, t)
    ensures At(k, first, c, t)
  {
    Goes(k, first, c, s, g, ch, t);
  }

  lemma {:induction false} StopGoes(k: Config, first: State, c: nat, s: State, g: nat, ch: Choice, t: State)
    requires At(k, first, c, s) && g in s.gs && StopStep(k, s, g, ch, t)
    ensures At(k, first, c, t)
  {
    Goes(k, first, c, s, g, ch, t);
  }

  lemma {:induction false} ReturnGoes(k: Config, first: State, c: nat, s: State, g: nat, ch: Choice, t: State)
    requires At(k, first, c, s) && g in s.gs && ReturnStep(k, s, g, ch, t)
    ensures At(k, first, c, t)
  {
    Goes(k, first, c, s, g, ch, t);
  }

  /** A callback other than c takes a step. */
  lemma {:induction false} Looks(k: Config, first: State, c: nat, s: State, d: nat, id: nat, t: State)
    requires At(k, first, c, s) && LookStep(k, s, d, id, t) && d != c
    ensures At(k, first, c, t)
  {
    LeadsOn(k, Init, s, Look(d, id), t);
    LeadsOn(k, first, s, Look(d, id), t);
    if ReadStep(k, s, d, t) {
      ReadKeepsOthers(k, s, d, t);
    } else if EscalateStep(k, s, d, id, t) {
      EscalateKeepsOthers(k, s, d, id, t);
    } else {
      ArmKeepsOthers(s, d, t);
    }
  }

  lemma {:induction false} ReadLooks(k: Config, first: State, c: nat, s: State, d: nat, t: State)
    requires At(k, first, c, s) && d in s.cbs && ReadStep(k, s, d, t) && d != c
    ensures At(k, first, c, t)
  {
    Looks(k, first, c, s, d, 0, t);
  }

  lemma {:induction false} EscalateLooks(k: Config, first: State, c: nat, s: State, d: nat, t: State)
    requires At(k, first, c, s) && d in s.cbs && EscalateStep(k, s, d, 0, t) && d != c
    ensures At(k, first, c, t)
  {
    Looks(k, first, c, s, d, 0, t);
  }

  lemma {:induction false} ArmLooks(k: Config, first: State, c: nat, s: State, d: nat, t: State)
    requires At(k, first, c, s) && d in s.cbs && ArmStep(s, d, t) && d != c
    ensures At(k, first, c, t)
  {
    Looks(k, first, c, s, d, 0, t);
  }

  // ---------------------------------------------------------- receiving ends

  function RoleRank(pc: Pc): nat {
    match pc
    case Received(_) => 9 case ReadingClock(_) => 8 case StoringStart(_, _) => 7 case StoringWord(_) => 6
    case LoadingArmed(_, _) => 5 case Arming(_, _) => 4 case Scheduling(_, _) => 3 case Handling(_, _) => 2
    case Replying(_) => 1 case Offering(_) => 1
    case _ => 0
  }

  lemma {:induction false} PreludeGoesOn(k: Config, first: State, c: nat, s: State, g: nat) returns (t: State)
    requires At(k, first, c, s) && s.role == By(g) && g in s.gs && (s.gs[g].Received? || Prelude(s.gs[g]))
    ensures At(k, first, c, t) && t.role == By(g) && g in t.gs && RoleRank(t.gs[g]) < RoleRank(s.gs[g])
  {
    var pc := s.gs[g];
    if pc.Received? {
      t := if s.slots.taken != 0 then Move(s, g, Acquiring(pc.m)) else BeginInline(s, g, pc.m);
      ReceiverGoes(k, first, c, s, g, Next, t);
    } else {
      if pc.ReadingClock? {
        t := Move(s, g, StoringStart(pc.m, s.run.clock));
      } else if pc.StoringStart? {
        t := StoreStart(s, g, pc.m, pc.t);
      } else {
        t := StoreWord(s, g, pc.m);
      }
      StartGoes(k, first, c, s, g, Next, t);
    }
  }

  /** An inline run goes on up to its handler, in the role or not. */
  lemma {:induction false} RunGoesOn(k: Config, first: State, c: nat, s: State, g: nat) returns (t: State)
    requires At(k, first, c, s) && g in s.gs && StillArming(s.gs[g])
    ensures At(k, first, c, t) && t.role == s.role && t.life == s.life && t.run == s.run
    ensures g in t.gs && t.gs == s.gs[g := t.gs[g]] && InRun(t.gs[g]) && RoleRank(t.gs[g]) < RoleRank(s.gs[g])
    ensures s.gs[g].Scheduling? ==> t.watch.timer.Some?
  {
    var m, e := s.gs[g].m, s.gs[g].e;
    if s.gs[g].Scheduling? {
      t := Schedule(s, g, m, e, k.limit);
    } else if s.watch.armed {
      t := Move(s, g, Handling(m, e));
    } else if s.gs[g].Arming? {
      t := SetArmed(s, g, m, e);
    } else {
      t := Move(s, g, Arming(m, e));
    }
    StartGoes(k, first, c, s, g, Next, t);
  }

  lemma {:induction false} OfferGoesOn(k: Config, first: State, c: nat, s: State, g: nat) returns (t: State)
    requires At(k, first, c, s) && s.role == By(g) && g in s.gs && s.gs[g].Offering?
    ensures At(k, first, c, t) && t.role == By(g) && g in t.gs && RoleRank(t.gs[g]) == 0
  {
    var m := s.gs[g].m;
    if !NoneIdle(s) {
      var w :| w in s.gs && s.gs[w] == Idle;
      t := HandOver(s, g, w, m);
      ReceiverGoes(k, first, c, s, g, Hand(w), t);
    } else if s.pool.started < k.max {
      var w := Unused(s.gs.Keys);
      t := SpawnWorker(s, g, w, m);
      ReceiverGoes(k, first, c, s, g, Spawn(w), t);
    } else {
      t := Move(s, g, Blocked(m));
      ReceiverGoes(k, first, c, s, g, Next, t);
    }
  }

  lemma {:induction false} ReceiverHoldsRole(k: Config, first: State, c: nat, s: State, g: nat)
    requires At(k, first, c, s) && s.role == By(g)
    ensures g in s.gs && HoldsRole(s.gs[g], s.run.word)
  {
    AtInvariant(k, first, c, s);
  }

  lemma {:induction false} HandlerGoesOn(k: Config, first: State, c: nat, s: State, g: nat) returns (t: State)
    requires At(k, first, c, s) && s.role == By(g) && g in s.gs && (s.gs[g].Handling? || s.gs[g].Replying?)
    ensures At(k, first, c, t) && t.role == By(g) && g in t.gs && RoleRank(t.gs[g]) < RoleRank(s.gs[g])
  {
    var pc := s.gs[g];
    ReceiverHoldsRole(k, first, c, s, g);
    t := if pc.Handling? then Keep(s, g, pc.m, pc.e) else Finish(s, g, pc.m, Receiving);
    ReplyGoes(k, first, c, s, g, Next, t);
  }

  /** The receiver ends receiving, after it finished what it is doing. */
  lemma {:induction false} ReceiverEnds(k: Config, first: State, c: nat, s: State, g: nat) returns (t: State)
    requires At(k, first, c, s) && s.role == By(g) && g in s.gs
    ensures At(k, first, c, t) && t.role.Over? && Is(t.gs, t.role.ender, Stopping)
    decreases RoleRank(s.gs[g])
  {
    var pc := s.gs[g];
    ReceiverHoldsRole(k, first, c, s, g);
    if RoleRank(pc) == 0 {
      t := ReceiverFails(k, first, c, s, g);
    } else {
      if pc.Received? || Prelude(pc) {
        t := PreludeGoesOn(k, first, c, s, g);
      } else if StillArming(pc) {
        t := RunGoesOn(k, first, c, s, g);
      } else if pc.Offering? {
        t := OfferGoesOn(k, first, c, s, g);
      } else {
        t := HandlerGoesOn(k, first, c, s, g);
      }
      t := ReceiverEnds(k, first, c, t, g);
    }
  }

  lemma {:induction false} ReceiverFails(k: Config, first: State, c: nat, s: State, g: nat) returns (t: State)
    requires At(k, first, c, s) && s.role == By(g) && g in s.gs && RoleRank(s.gs[g]) == 0
    ensures At(k, first, c, t) && t.role == Over(g) && Is(t.gs, g, Stopping)
  {
    var pc := s.gs[g];
    AtInvariant(k, first, c, s);
    assert HoldsRole(pc, s.run.word);
    if pc.Receiving? {
      t := End(s, g);
    } else if pc.Acquiring? {
      t := EndAcquiring(s, g, pc.m);
    } else {
      assert G(g) in s.slots.holders;
      t := EndBlocked(s, g, pc.m);
    }
    ReceiverGoes(k, first, c, s, g, Fail, t);
  }

  /** Some steps end receiving, if it has not ended. */
  lemma {:induction false} ReceivingCanEnd(k: Config, first: State, c: nat, s: State) returns (t: State)
    requires At(k, first, c, s) && !s.role.Over? && (c in s.cbs ==> !InCharge(s.cbs[c]))
    ensures At(k, first, c, t) && t.role.Over? && Is(t.gs, t.role.ender, Stopping)
  {
    AtInvariant(k, first, c, s);
    if s.role.Handing? {
      var d := s.role.c;
      var id := Unused(s.gs.Keys);
      t := SpawnReceiver(s, d, id);
      Looks(k, first, c, s, d, id, t);
      t := ReceiverEnds(k, first, c, t, id);
    } else {
      t := ReceiverEnds(k, first, c, s, s.role.g);
    }
  }

  // --------------------------------------------------------- stopWatch returns

  function LookRank(pc: Watch): nat {
    match pc
    case ReadingNow(_) => 7 case ReadingStart(_, _) => 6 case TakingSlot(_) => 5 case Swapping(_) => 4 case Undoing(_) => 3
    case Rechecking(_) => 2 case Top => 1 case LoadingWord => 1
    case _ => 0
  }

  /** armed is clear, or the timer can be stopped. */
  predicate Settled(s: State) {
    !s.watch.armed || s.watch.timer.Some?
  }

  /** After the end of receiving no run has the role, so what a callback saw is over. */
  lemma {:induction false} NothingRuns(k: Config, first: State, c: nat, s: State, d: nat)
    requires At(k, first, c, s) && s.role.Over? && d in s.cbs
    ensures s.run.word.phase != Running
    ensures s.cbs[d].Swapping? || s.cbs[d].Rechecking? ==> s.run.word != s.cbs[d].st
    ensures s.cbs[d].Undoing? ==> s.slots.taken > 0
  {
    AtInvariant(k, first, c, s);
    assert LookOk(k, s.cbs[d], s.run.word, s.run.starts, s.run.clock);
    if s.cbs[d].Undoing? {
      assert C(d) in s.slots.holders;
    }
  }

  lemma {:induction false} ReadGoesOn(k: Config, first: State, c: nat, s: State, d: nat) returns (t: State)
    requires At(k, first, c, s) && s.role.Over? && s.life.stopped && d != c && d in s.cbs && LookRank(s.cbs[d]) > 0
    requires !s.cbs[d].TakingSlot? && !s.cbs[d].Swapping? && !s.cbs[d].Undoing?
    ensures At(k, first, c, t) && t.gs == s.gs && t.role == s.role && t.life == s.life
    ensures d in t.cbs && InCharge(t.cbs[d]) && LookRank(t.cbs[d]) < LookRank(s.cbs[d])
  {
    var pc := s.cbs[d];
    NothingRuns(k, first, c, s, d);
    var next: Watch;
    if pc.Top? {
      next := Clearing;
    } else if pc.LoadingWord? {
      next := Disarming;
    } else if pc.ReadingNow? {
      next := ReadingStart(pc.st, s.run.clock);
    } else if pc.ReadingStart? {
      var wait := k.limit - (pc.now - s.run.startNs);
      next := if wait > 0 then Rescheduling(wait) else TakingSlot(pc.st);
    } else {
      next := Top;
    }
    t := Turn(s, d, next);
    ReadLooks(k, first, c, s, d, t);
  }

  /** escalate fails: the run it saw is over. */
  lemma {:induction false} EscalateGoesOn(k: Config, first: State, c: nat, s: State, d: nat) returns (t: State)
    requires At(k, first, c, s) && s.role.Over? && d != c && d in s.cbs
    requires s.cbs[d].TakingSlot? || s.cbs[d].Swapping? || s.cbs[d].Undoing?
    ensures At(k, first, c, t) && t.gs == s.gs && t.role == s.role && t.life == s.life
    ensures d in t.cbs && InCharge(t.cbs[d]) && LookRank(t.cbs[d]) < LookRank(s.cbs[d])
  {
    var pc := s.cbs[d];
    NothingRuns(k, first, c, s, d);
    if pc.Swapping? {
      t := Turn(s, d, Undoing(pc.st));
    } else if pc.Undoing? {
      t := ReturnSlot(s, d, pc.st);
    } else if s.slots.taken < k.max {
      t := BorrowSlot(s, d, pc.st);
    } else {
      t := Turn(s, d, Rechecking(pc.st));
    }
    EscalateLooks(k, first, c, s, d, t);
  }

  /** A callback in charge gives armed or the timer away. */
  lemma {:induction false} LookSettles(k: Config, first: State, c: nat, s: State, d: nat) returns (t: State)
    requires At(k, first, c, s) && s.role.Over? && s.life.stopped && d != c && d in s.cbs && InCharge(s.cbs[d])
    ensures At(k, first, c, t) && t.gs == s.gs && t.role == s.role && t.life == s.life && Settled(t)
    decreases LookRank(s.cbs[d])
  {
    var pc := s.cbs[d];
    if LookRank(pc) > 0 {
      if pc.TakingSlot? || pc.Swapping? || pc.Undoing? {
        t := EscalateGoesOn(k, first, c, s, d);
      } else {
        t := ReadGoesOn(k, first, c, s, d);
      }
      t := LookSettles(k, first, c, t, d);
    } else {
      AtInvariant(k, first, c, s);
      if pc.Rescheduling? {
        t := Reschedule(s, d, pc.wait);
      } else {
        t := Disarm(s, d, if pc.Clearing? then Leaving else LoadingStopped);
      }
      ArmLooks(k, first, c, s, d, t);
    }
  }

  /** The ender stays where it is while others settle the watchdog. */
  lemma {:induction false} WatchdogSettles(k: Config, first: State, c: nat, s: State) returns (t: State)
    requires At(k, first, c, s) && s.role.Over? && s.life.stopped && !s.life.quiet && (c in s.cbs ==> !InCharge(s.cbs[c]))
    ensures At(k, first, c, t) && t.role == s.role && t.life == s.life && Settled(t)
    ensures s.role.ender in s.gs && s.role.ender in t.gs && t.gs[s.role.ender] == s.gs[s.role.ender]
  {
    AtInvariant(k, first, c, s);
    var arm := s.watch.charge;
    if arm.ByGo? {
      t := RunGoesOn(k, first, c, s, arm.g);
    } else if arm.ByCallback? {
      t := LookSettles(k, first, c, s, arm.c);
    } else {
      t := s;
    }
  }

  /** The ender leaves stopWatch: u is the state right after. */
  lemma {:induction false} StopWatchReturns(k: Config, first: State, c: nat, s: State, e: nat) returns (t: State, u: State)
    requires At(k, first, c, s) && s.role == Over(e) && e in s.gs && (s.gs[e].CheckingArmed? || s.gs[e].StoppingTimer?)
    requires Settled(s) && !s.life.quiet
    ensures At(k, first, c, t) && At(k, first, c, u) && Step(k, t, Go(e, Next), u)
    ensures !t.life.quiet && u.life.quiet && u.role == Over(e)
  {
    t := s;
    if s.watch.armed && s.gs[e].CheckingArmed? {
      t := Move(s, e, StoppingTimer);
      StopGoes(k, first, c, s, e, Next, t);
    } else if !s.watch.timer.Some? && s.gs[e].StoppingTimer? {
      t := Move(s, e, CheckingArmed);
      StopGoes(k, first, c, s, e, Next, t);
    }
    u := if t.gs[e].CheckingArmed? then FoundDisarmed(t, e) else StopTimer(t, e);
    TimerMeansArmed(k, first, c, s);
    StopGoes(k, first, c, t, e, Next, u);
  }

  lemma {:induction false} EnderStands(k: Config, first: State, c: nat, s: State)
    requires At(k, first, c, s) && s.role.Over?
    ensures
      var e := s.role.ender;
      e in s.gs && (s.life.quiet <==> !BeforeQuiet(s.gs[e])) && (s.life.closed <==> !IsEnding(s.gs[e])) &&
      (s.gs[e].CheckingArmed? || s.gs[e].StoppingTimer? ==> s.life.stopped) &&
      (s.gs[e].SendingResult? ==> s.life.results == 0)
  {
    AtInvariant(k, first, c, s);
  }

  lemma {:induction false} TimerMeansArmed(k: Config, first: State, c: nat, s: State)
    requires At(k, first, c, s)
    ensures s.watch.timer.Some? ==> s.watch.armed
  {
    AtInvariant(k, first, c, s);
  }

  /** stopWatch can return although the callback c, which is not in charge, is still there. */
  lemma {:induction false} StopWatchCanReturn(k: Config, first: State, c: nat, s: State) returns (t: State, u: State, g: nat)
    requires At(k, first, c, s) && !s.life.quiet && (c in s.cbs ==> !InCharge(s.cbs[c]))
    ensures At(k, first, c, t) && At(k, first, c, u) && Step(k, t, Go(g, Next), u)
    ensures !t.life.quiet && u.life.quiet && u.role.Over?
  {
    var v := s;
    if !s.role.Over? {
      v := ReceivingCanEnd(k, first, c, s);
    }
    EnderStands(k, first, c, v);
    g := v.role.ender;
    if v.gs[g].Stopping? {
      var w := SetStopped(v, g);
      StopGoes(k, first, c, v, g, Next, w);
      v := w;
    }
    EnderStands(k, first, c, v);
    v := WatchdogSettles(k, first, c, v);
    t, u := StopWatchReturns(k, first, c, v, g);
  }

  // -------------------------------------------------------------- Serve returns

  /** The ender sends the result and closes the work channel. */
  lemma {:induction false} EnderCloses(k: Config, first: State, c: nat, s: State) returns (t: State)
    requires At(k, first, c, s) && s.role.Over? && s.life.quiet
    ensures At(k, first, c, t) && t.role.Over? && t.life.closed
  {
    var e := s.role.ender;
    EnderStands(k, first, c, s);
    t := s;
    if t.gs[e].SendingResult? {
      t := SendResult(s, e);
      ReturnGoes(k, first, c, s, e, Next, t);
    }
    if t.gs[e].Closing? {
      var u := CloseWork(t, e);
      ReturnGoes(k, first, c, t, e, Next, u);
      t := u;
    }
  }

  /** What is left of a goroutine once receiving ended and work is closed. */
  function TailRank(pc: Pc): nat {
    match pc
    case LoadingArmed(_, _) => 8 case Arming(_, _) => 7 case Scheduling(_, _) => 6 case Handling(_, _) => 5
    case Displaced(_) => 4 case LateReply(_) => 3 case Working(_) => 3 case WorkerReply(_) => 2 case Idle => 1
    case _ => 0
  }

  lemma {:induction false} TailStands(k: Config, first: State, c: nat, s: State, h: nat)
    requires At(k, first, c, s) && s.role.Over? && s.life.closed && h in s.gs
    ensures h != 0 && TailRank(s.gs[h]) == 0 ==> s.gs[h] == Exited
    ensures h == 0 && TailRank(s.gs[h]) == 0 ==>
      s.gs[h].Joining? || s.gs[h].Returned? || (s.gs[h].AwaitingResult? && s.life.results > 0)
    ensures s.gs[h].Handling? ==> s.run.word != Word(s.gs[h].e, Running)
    ensures s.gs[h].Displaced? || s.gs[h].Working? ==> s.slots.taken > 0
    ensures IsWorker(s.gs[h]) ==> h != 0
  {
    AtInvariant(k, first, c, s);
    assert !HoldsRole(s.gs[h], s.run.word);
    if s.gs[h].Displaced? || s.gs[h].Working? {
      assert G(h) in s.slots.holders;
    }
  }

  lemma {:induction false} TailGoesOn(k: Config, first: State, c: nat, s: State, h: nat) returns (t: State)
    requires At(k, first, c, s) && s.role.Over? && s.life.closed && h in s.gs && TailRank(s.gs[h]) > 0
    ensures At(k, first, c, t) && t.role == s.role && t.life == s.life && h in t.gs && t.gs == s.gs[h := t.gs[h]]
    ensures TailRank(t.gs[h]) < TailRank(s.gs[h])
  {
    TailStands(k, first, c, s, h);
    var pc := s.gs[h];
    if StillArming(pc) {
      t := RunGoesOn(k, first, c, s, h);
    } else if IsWorker(pc) {
      if pc.Working? {
        t := FreeSlot(s, h, WorkerReply(pc.m));
      } else if pc.WorkerReply? {
        t := Finish(s, h, pc.m, Idle);
      } else {
        t := Move(s, h, Exited);
      }
      WorkerGoes(k, first, c, s, h, Next, t);
    } else {
      if pc.Handling? {
        t := Move(s, h, Displaced(pc.m));
      } else if pc.Displaced? {
        t := FreeSlot(s, h, LateReply(pc.m));
      } else {
        t := Finish(s, h, pc.m, if h == 0 then AwaitingResult else Exited);
      }
      ReplyGoes(k, first, c, s, h, Next, t);
    }
  }

  lemma {:induction false} TailEnds(k: Config, first: State, c: nat, s: State, h: nat) returns (t: State)
    requires At(k, first, c, s) && s.role.Over? && s.life.closed && h in s.gs
    ensures At(k, first, c, t) && t.role == s.role && t.life == s.life && h in t.gs && t.gs == s.gs[h := t.gs[h]]
    ensures TailRank(t.gs[h]) == 0
    decreases TailRank(s.gs[h])
  {
    t := s;
    if TailRank(s.gs[h]) > 0 {
      t := TailGoesOn(k, first, c, s, h);
      t := TailEnds(k, first, c, t, h);
    }
  }

  ghost function Live(s: State): set<nat> {
    set g | g in s.gs && g != 0 && s.gs[g] != Exited
  }

  /** All other goroutines exit, one by one. */
  lemma {:induction false} OthersExit(k: Config, first: State, c: nat, s: State) returns (t: State)
    requires At(k, first, c, s) && s.role.Over? && s.life.closed
    ensures At(k, first, c, t) && t.role.Over? && t.life.closed && OthersExited(t)
    decreases |Live(s)|
  {
    if Live(s) == {} {
      t := s;
      assert forall g :: g in s.gs && g != 0 && s.gs[g] != Exited ==> g in Live(s);
    } else {
      var h :| h in Live(s);
      t := TailEnds(k, first, c, s, h);
      TailStands(k, first, c, t, h);
      assert Live(t) == Live(s) - {h};
      t := OthersExit(k, first, c, t);
    }
  }

  /** Serve's own goroutine finishes its handler, takes the result and returns. */
  lemma {:induction false} OwnGoroutineReturns(k: Config, first: State, c: nat, s: State) returns (t: State)
    requires At(k, first, c, s) && s.role.Over? && s.life.closed && OthersExited(s) && 0 in s.gs
    ensures At(k, first, c, t) && Is(t.gs, 0, Returned)
  {
    t := TailEnds(k, first, c, s, 0);
    TailStands(k, first, c, t, 0);
    if t.gs[0].AwaitingResult? {
      var u := TakeResult(t, 0);
      ReturnGoes(k, first, c, t, 0, Next, u);
      t := u;
    }
    if t.gs[0].Joining? {
      var u := Move(t, 0, Returned);
      ReturnGoes(k, first, c, t, 0, Next, u);
      t := u;
    }
  }

  lemma {:induction false} QuietServeReturns(k: Config, first: State, c: nat, s: State) returns (t: State)
    requires At(k, first, c, s) && s.role.Over? && s.life.quiet
    ensures At(k, first, c, t) && Is(t.gs, 0, Returned)
  {
    t := EnderCloses(k, first, c, s);
    t := OthersExit(k, first, c, t);
    AtInvariant(k, first, c, t);
    t := OwnGoroutineReturns(k, first, c, t);
  }

  // --------------------------------------------------------------------- results

  lemma {:induction false} Here(k: Config, states: seq<State>, actions: seq<Action>, n: nat, c: nat)
    requires IsRun(k, states, actions) && n < |states|
    ensures At(k, states[n], c, states[n])
  {
    assert Path(k, [states[n]], []);
    var before, acts := states[..n + 1], actions[..n];
    forall i: nat | i < |acts| ensures StepAt(k, before, acts, i) {
      assert StepAt(k, states, actions, i);
    }
    assert Path(k, before, acts) && before[0] == Init && before[|acts|] == states[n];
  }

  /** The end of Serve cannot get stuck: from every reachable state, whatever handlers, workers
      and callbacks are there, some steps let Serve return. A callback c that is not in charge
      need not take any of them, so it can outlive Serve. */
  lemma {:induction false} ServeCanReturn(k: Config, states: seq<State>, actions: seq<Action>, n: nat, c: nat) returns (t: State)
    requires IsRun(k, states, actions) && n < |states| && (c in states[n].cbs ==> !InCharge(states[n].cbs[c]))
    ensures Leads(k, states[n], t) && Is(t.gs, 0, Returned)
    ensures c in states[n].cbs ==> c in t.cbs && t.cbs[c] == states[n].cbs[c]
  {
    var s := states[n];
    Here(k, states, actions, n, c);
    RunKeepsInvariant(k, states, actions, n);
    var u := s;
    if !s.life.quiet {
      var v, g;
      v, u, g := StopWatchCanReturn(k, s, c, s);
    }
    t := QuietServeReturns(k, s, c, u);
  }

  /** When stopWatch returns, no callback is in charge of armed. */
  lemma {:induction false} StopWatchLeavesNoneInCharge(k: Config, states: seq<State>, actions: seq<Action>, n: nat, c: nat)
    requires IsRun(k, states, actions) && n < |actions| && !states[n].life.quiet && states[n + 1].life.quiet
    requires c in states[n + 1].cbs
    ensures !InCharge(states[n + 1].cbs[c])
  {
    RunKeepsInvariant(k, states, actions, n);
    assert StepAt(k, states, actions, n);
    QuietComes(k, states[n], actions[n], states[n + 1]);
    RunKeepsInvariant(k, states, actions, n + 1);
  }

  /** Only stopWatch makes the watchdog quiet. */
  lemma {:induction false} QuietFrameGo(k: Config, s: State, g: nat, ch: Choice, t: State)
    requires g in s.gs && (ReceiverStep(k, s, g, ch, t) || ReplyStep(k, s, g, ch, t) || WorkerStep(k, s, g, ch, t))
    ensures t.life == s.life
  {
  }

  lemma {:induction false} QuietFrameRest(k: Config, s: State, g: nat, ch: Choice, t: State)
    requires g in s.gs && (StartStep(k, s, g, ch, t) || ReturnStep(k, s, g, ch, t))
    ensures t.life.quiet == s.life.quiet
  {
  }

  lemma {:induction false} QuietFrameLook(k: Config, s: State, c: nat, id: nat, t: State)
    requires LookStep(k, s, c, id, t)
    ensures t.life == s.life
  {
  }

  /** armed was clear, or the timer was pending. */
  lemma {:induction false} StopSettles(k: Config, s: State, g: nat, ch: Choice, t: State)
    requires ArmOk(s.gs, s.cbs, s.watch) && g in s.gs && StopStep(k, s, g, ch, t) && !s.life.quiet && t.life.quiet
    ensures t.watch.charge == NoOne || t.watch.charge == Retired
  {
  }

  lemma {:induction false} QuietComes(k: Config, s: State, a: Action, t: State)
    requires ArmOk(s.gs, s.cbs, s.watch) && Step(k, s, a, t) && !s.life.quiet && t.life.quiet
    ensures t.watch.charge == NoOne || t.watch.charge == Retired
  {
    if a.Look? {
      QuietFrameLook(k, s, a.c, a.id, t);
    } else if a.Go? {
      var g, ch := a.g, a.choice;
      if StopStep(k, s, g, ch, t) {
        StopSettles(k, s, g, ch, t);
      } else if StartStep(k, s, g, ch, t) || ReturnStep(k, s, g, ch, t) {
        QuietFrameRest(k, s, g, ch, t);
      } else {
        QuietFrameGo(k, s, g, ch, t);
      }
    }
  }

  /** The condition is exact: as long as stopWatch has not returned, any callback that is no
      longer in charge can still be there when it does. */
  lemma {:induction false} CallbackCanOutliveStopWatch(k: Config, states: seq<State>, actions: seq<Action>, n: nat, c: nat)
    returns (t: State, u: State, g: nat)
    requires IsRun(k, states, actions) && n < |states| && !states[n].life.quiet
    requires c in states[n].cbs && !InCharge(states[n].cbs[c])
    ensures Leads(k, states[n], t) && Step(k, t, Go(g, Next), u) && !t.life.quiet && u.life.quiet
    ensures c in u.cbs && u.cbs[c] == states[n].cbs[c]
  {
    Here(k, states, actions, n, c);
    t, u, g := StopWatchCanReturn(k, states[n], c, states[n]);
  }
}
