/** What Serve promises, for every run. */
module ServeResults {
  import opened Wire
  import opened Serve
  import opened ServeInvariant
  import opened ServeSafety

  // ----------------------------------------------------- the role and the handlers

  /** Who can receive the next request: a goroutine, or the callback about to start one. */
  ghost function RoleHolders(s: State): set<Holder> {
    (set g | g in s.gs && HoldsRole(s.gs[g], s.run.word) :: G(g)) + (set c | c in s.cbs && s.cbs[c] == Spawning :: C(c))
  }

  /** The goroutines that run a handler. */
  ghost function Handlers(s: State): set<Holder> {
    set g | g in s.gs && (s.gs[g].Handling? || s.gs[g].Working?) :: G(g)
  }

  /** Receiving has ended: some goroutine left the receive loop with an error. */
  ghost predicate Ended(s: State) {
    s.role.Over?
  }

  lemma {:induction false} RoleOf(s: State)
    requires RoleOk(s.gs, s.cbs, s.run.word, s.role)
    ensures RoleHolders(s) == match s.role case By(g) => {G(g)} case Handing(c) => {C(c)} case Over(_) => {}
  {
  }

  /** Exactly one goroutine has the receiver role until receiving ends, and then none. */
  lemma {:induction false} OneReceiver(k: Config, states: seq<State>, actions: seq<Action>, n: nat)
    requires IsRun(k, states, actions) && n < |states|
    ensures |RoleHolders(states[n])| == if Ended(states[n]) then 0 else 1
    ensures n + 1 < |states| && Ended(states[n]) ==> Ended(states[n + 1])
  {
    RunKeepsInvariant(k, states, actions, n);
    RoleOf(states[n]);
    if n + 1 < |states| && Ended(states[n]) {
      assert StepAt(k, states, actions, n);
      OverStays(k, states[n], actions[n], states[n + 1]);
    }
  }

  lemma {:induction false} OverStays(k: Config, s: State, a: Action, t: State)
    requires CoreOk(k, s) && Step(k, s, a, t) && s.role.Over?
    ensures t.role == s.role
  {
    match a {
      case Go(g, ch) => assert !HoldsRole(s.gs[g], s.run.word);
      case Look(c, id) => assert !s.cbs[c].Spawning?;
      case Fire(_) =>
      case Tick =>
    }
  }

  /** Never more than BufferCount handlers run. */
  lemma {:induction false} HandlersBounded(k: Config, states: seq<State>, actions: seq<Action>, n: nat)
    requires IsRun(k, states, actions) && n < |states|
    ensures |Handlers(states[n])| <= k.max
  {
    RunKeepsInvariant(k, states, actions, n);
    HandlersHoldSlots(k, states[n]);
  }

  lemma {:induction false} HandlersHoldSlots(k: Config, s: State)
    requires CoreOk(k, s) && k.max > 0
    ensures |Handlers(s)| <= k.max
  {
    if s.role.By? && Inline(s.gs[s.role.g], s.run.word) {
      assert Handlers(s) <= {G(s.role.g)};
      SubsetSize(Handlers(s), {G(s.role.g)});
    } else {
      assert Handlers(s) <= s.slots.holders;
      SubsetSize(Handlers(s), s.slots.holders);
    }
  }

  /** A dispatcher that has a slot while every worker is started finds a worker that is
      idle or has only its response left to send. */
  lemma {:induction false} SomeWorkerComesFree(k: Config, states: seq<State>, actions: seq<Action>, n: nat, g: nat, m: nat)
    requires IsRun(k, states, actions) && n < |states| && Is(states[n].gs, g, Blocked(m))
    ensures exists w :: w in states[n].pool.workers && w in states[n].gs && (states[n].gs[w].Idle? || states[n].gs[w].WorkerReply?)
  {
    RunKeepsInvariant(k, states, actions, n);
    var s := states[n];
    if forall w :: w in s.pool.workers ==> s.gs[w].Working? {
      AllBusy(s.pool.workers, s.slots.holders - {G(g)});
    }
  }

  lemma {:induction false} AllBusy(workers: set<nat>, holders: set<Holder>)
    requires forall w :: w in workers ==> G(w) in holders
    ensures |workers| <= |holders|
  {
    if workers != {} {
      var w :| w in workers;
      AllBusy(workers - {w}, holders - {G(w)});
    }
  }

  // -------------------------------------------------------------- exactly once

  /** The inline run that action a decides in s: the receiver keeps the role, or the
      watchdog moves it. */
  ghost function Decides(s: State, a: Action): Option<nat> {
    match a
    case Go(g, _) =>
      if g in s.gs && s.gs[g].Handling? && s.run.word == Word(s.gs[g].e, Running) then Some(s.gs[g].e) else None
    case Look(c, _) =>
      if c in s.cbs && s.cbs[c].Swapping? && s.run.word == s.cbs[c].st then Some(s.cbs[c].st.epoch) else None
    case _ => None
  }

  lemma {:induction false} WonGrows(k: Config, s: State, a: Action, t: State)
    requires Step(k, s, a, t)
    ensures t.run.won == s.run.won + (if Decides(s, a).Some? then {Decides(s, a).value} else {})
  {
  }

  lemma {:induction false} DecidedNow(k: Config, s: State, a: Action)
    requires WinsOk(s.run.word, s.run.won) && LooksOk(k, s.cbs, s.run.word, s.run.starts, s.run.clock) && Decides(s, a).Some?
    ensures Decides(s, a).value !in s.run.won
  {
  }

  lemma {:induction false} DecideAt(k: Config, states: seq<State>, actions: seq<Action>, n: nat)
    requires IsRun(k, states, actions) && n < |actions|
    ensures states[n].run.won <= states[n + 1].run.won
    ensures Decides(states[n], actions[n]).Some? ==>
      Decides(states[n], actions[n]).value !in states[n].run.won && Decides(states[n], actions[n]).value in states[n + 1].run.won
  {
    RunKeepsInvariant(k, states, actions, n);
    assert StepAt(k, states, actions, n);
    WonGrows(k, states[n], actions[n], states[n + 1]);
    if Decides(states[n], actions[n]).Some? {
      DecidedNow(k, states[n], actions[n]);
    }
  }

  lemma {:induction false} WonStays(k: Config, states: seq<State>, actions: seq<Action>, i: nat, n: nat)
    requires IsRun(k, states, actions) && i <= n < |states|
    ensures states[i].run.won <= states[n].run.won
  {
    if i < n {
      WonStays(k, states, actions, i, n - 1);
      DecideAt(k, states, actions, n - 1);
    }
  }

  /** Exactly one of receiver and watchdog wins each inline run: no run is decided twice,
      and every run before the current one was decided. */
  lemma {:induction false} OneWinner(k: Config, states: seq<State>, actions: seq<Action>, i: nat, j: nat)
    requires IsRun(k, states, actions) && i < j < |actions| && Decides(states[i], actions[i]).Some?
    ensures Decides(states[j], actions[j]) != Decides(states[i], actions[i])
  {
    DecideAt(k, states, actions, i);
    DecideAt(k, states, actions, j);
    WonStays(k, states, actions, i + 1, j);
  }

  /** The step that put e among the runs that are over. */
  lemma {:induction false} EveryRunIsDecided(k: Config, states: seq<State>, actions: seq<Action>, n: nat, e: nat)
    requires IsRun(k, states, actions) && n < |states| && 1 <= e < states[n].run.word.epoch
    ensures exists i :: 0 <= i < n && Decides(states[i], actions[i]) == Some(e)
  {
    RunKeepsInvariant(k, states, actions, n);
    WonByStep(k, states, actions, n, e);
  }

  lemma {:induction false} WonByStep(k: Config, states: seq<State>, actions: seq<Action>, n: nat, e: nat)
    requires IsRun(k, states, actions) && n < |states| && e in states[n].run.won
    ensures exists i :: 0 <= i < n && Decides(states[i], actions[i]) == Some(e)
  {
    if n > 0 {
      if e in states[n - 1].run.won {
        WonByStep(k, states, actions, n - 1, e);
      } else {
        assert StepAt(k, states, actions, n - 1);
        WonGrows(k, states[n - 1], actions[n - 1], states[n]);
      }
    }
  }

  /** The request that action a answers or releases in s. */
  ghost function Finishes(s: State, a: Action): Option<nat> {
    if a.Go? && a.g in s.gs then
      match s.gs[a.g]
      case Replying(m) => Some(m)
      case LateReply(m) => Some(m)
      case WorkerReply(m) => Some(m)
      case Acquiring(m) => if a.choice == Fail then Some(m) else None
      case Blocked(m) => if a.choice == Fail then Some(m) else None
      case _ => None
    else None
  }

  ghost predicate IsFinished(s: State, m: nat) {
    m in s.owner && s.owner[m].None?
  }

  /** What a step may do to the request m. */
  ghost predicate OwnerStep(s: State, a: Action, t: State, m: nat) {
    (Finishes(s, a) == Some(m) ==> !IsFinished(s, m) && IsFinished(t, m)) &&
    (IsFinished(s, m) ==> IsFinished(t, m)) && (IsFinished(t, m) && !IsFinished(s, m) ==> Finishes(s, a) == Some(m))
  }

  lemma {:induction false} FinishReceiver(k: Config, s: State, g: nat, ch: Choice, t: State, m: nat)
    requires OwnOk(s.gs, s.owner) && g in s.gs && ReceiverStep(k, s, g, ch, t)
    ensures OwnerStep(s, Go(g, ch), t, m)
  {
    assert Carried(s.gs[g]).Some? ==> Owns(s.owner, g, Carried(s.gs[g]).value);
  }

  lemma {:induction false} FinishRun(k: Config, s: State, g: nat, ch: Choice, t: State, m: nat)
    requires OwnOk(s.gs, s.owner) && g in s.gs
    requires StartStep(k, s, g, ch, t) || ReplyStep(k, s, g, ch, t)
    ensures OwnerStep(s, Go(g, ch), t, m)
  {
    assert Carried(s.gs[g]).Some? ==> Owns(s.owner, g, Carried(s.gs[g]).value);
  }

  lemma {:induction false} FinishWorker(k: Config, s: State, g: nat, ch: Choice, t: State, m: nat)
    requires OwnOk(s.gs, s.owner) && g in s.gs
    requires WorkerStep(k, s, g, ch, t) || StopStep(k, s, g, ch, t) || ReturnStep(k, s, g, ch, t)
    ensures OwnerStep(s, Go(g, ch), t, m)
  {
    assert Carried(s.gs[g]).Some? ==> Owns(s.owner, g, Carried(s.gs[g]).value);
  }

  lemma {:induction false} FinishStep(k: Config, s: State, a: Action, t: State, m: nat)
    requires OwnOk(s.gs, s.owner) && Step(k, s, a, t)
    ensures OwnerStep(s, a, t, m)
  {
    if a.Go? {
      if ReceiverStep(k, s, a.g, a.choice, t) {
        FinishReceiver(k, s, a.g, a.choice, t, m);
      } else if StartStep(k, s, a.g, a.choice, t) || ReplyStep(k, s, a.g, a.choice, t) {
        FinishRun(k, s, a.g, a.choice, t, m);
      } else {
        FinishWorker(k, s, a.g, a.choice, t, m);
      }
    } else {
      OwnerKept(k, s, a, t);
    }
  }

  lemma {:induction false} OwnerKept(k: Config, s: State, a: Action, t: State)
    requires Step(k, s, a, t) && !a.Go?
    ensures t.owner == s.owner
  {
  }

  lemma {:induction false} FinishAt(k: Config, states: seq<State>, actions: seq<Action>, n: nat, m: nat)
    requires IsRun(k, states, actions) && n < |actions|
    ensures OwnerStep(states[n], actions[n], states[n + 1], m)
  {
    RunKeepsInvariant(k, states, actions, n);
    assert StepAt(k, states, actions, n);
    FinishStep(k, states[n], actions[n], states[n + 1], m);
  }

  lemma {:induction false} FinishedStays(k: Config, states: seq<State>, actions: seq<Action>, i: nat, n: nat, m: nat)
    requires IsRun(k, states, actions) && i <= n < |states| && IsFinished(states[i], m)
    ensures IsFinished(states[n], m)
  {
    if i < n {
      FinishedStays(k, states, actions, i, n - 1, m);
      FinishAt(k, states, actions, n - 1, m);
    }
  }

  lemma {:induction false} FinishedByStep(k: Config, states: seq<State>, actions: seq<Action>, n: nat, m: nat)
    requires IsRun(k, states, actions) && n < |states| && IsFinished(states[n], m)
    ensures exists i :: 0 <= i < n && Finishes(states[i], actions[i]) == Some(m)
  {
    if n > 0 {
      if IsFinished(states[n - 1], m) {
        FinishedByStep(k, states, actions, n - 1, m);
      } else {
        FinishAt(k, states, actions, n - 1, m);
      }
    }
  }

  /** No request is answered or released twice. */
  lemma {:induction false} RequestsFinishOnce(k: Config, states: seq<State>, actions: seq<Action>, i: nat, j: nat)
    requires IsRun(k, states, actions) && i < j < |actions| && Finishes(states[i], actions[i]).Some?
    ensures Finishes(states[j], actions[j]) != Finishes(states[i], actions[i])
  {
    var m := Finishes(states[i], actions[i]).value;
    FinishAt(k, states, actions, i, m);
    FinishedStays(k, states, actions, i + 1, j, m);
    FinishAt(k, states, actions, j, m);
  }

  /** When Serve returns, receiving has ended, no handler runs and every request it received was
      answered or released. (A callback of the watchdog may still be there: see ServeReturn.) */
  lemma {:induction false} ServeReturnsDrained(k: Config, states: seq<State>, actions: seq<Action>, n: nat)
    requires IsRun(k, states, actions) && n < |states| && Is(states[n].gs, 0, Returned)
    ensures Ended(states[n]) && Handlers(states[n]) == {}
    ensures forall m :: m in states[n].owner ==> exists i :: 0 <= i < n && Finishes(states[i], actions[i]) == Some(m)
  {
    RunKeepsInvariant(k, states, actions, n);
    var s := states[n];
    forall m | m in s.owner ensures exists i :: 0 <= i < n && Finishes(states[i], actions[i]) == Some(m) {
      assert s.owner[m].Some? ==> Carries(s.gs, s.owner[m].value, m);
      FinishedByStep(k, states, actions, n, m);
    }
  }

  // ------------------------------------------------------------------ the watchdog

  /** Action a of s moves the role away from an inline handler. */
  ghost predicate Escalates(s: State, a: Action) {
    a.Look? && a.c in s.cbs && s.cbs[a.c].Swapping? && s.run.word == s.cbs[a.c].st
  }

  /** No handler younger than the limit loses the role: the start time stored for its run
      is at least the limit ago. */
  lemma {:induction false} OnlyOldHandlersEscalate(k: Config, states: seq<State>, actions: seq<Action>, n: nat)
    requires IsRun(k, states, actions) && n < |actions| && Escalates(states[n], actions[n])
    ensures
      var s := states[n];
      s.run.word.epoch in s.run.starts && s.run.starts[s.run.word.epoch] + k.limit <= s.run.clock
  {
    RunKeepsInvariant(k, states, actions, n);
  }

  /** The branch of watch that finds escalate refused although its run goes on ("no free
      slot") is never taken. */
  lemma {:induction false} RetryIsNeverTaken(k: Config, states: seq<State>, actions: seq<Action>, n: nat, c: nat)
    requires IsRun(k, states, actions) && n < |states| && c in states[n].cbs && states[n].cbs[c].Rechecking?
    ensures states[n].run.word != states[n].cbs[c].st
  {
    RunKeepsInvariant(k, states, actions, n);
  }

  /** starts records what was stored: the start time of a run is the clock read before the
      word of that run is published, and it is not changed afterwards. */
  lemma {:induction false} StartsAreStored(k: Config, states: seq<State>, actions: seq<Action>, n: nat, e: nat)
    requires IsRun(k, states, actions) && n < |actions| && e <= states[n].run.word.epoch && e in states[n].run.starts
    ensures e in states[n + 1].run.starts && states[n + 1].run.starts[e] == states[n].run.starts[e]
  {
    RunKeepsInvariant(k, states, actions, n);
    assert StepAt(k, states, actions, n);
    StartKept(k, states[n], actions[n], states[n + 1], e);
  }

  lemma {:induction false} StartKept(k: Config, s: State, a: Action, t: State, e: nat)
    requires RoleOk(s.gs, s.cbs, s.run.word, s.role) && EpochOk(s.gs, s.run.word, s.run.epoch, s.role)
    requires Step(k, s, a, t) && e <= s.run.word.epoch && e in s.run.starts
    ensures e in t.run.starts && t.run.starts[e] == s.run.starts[e]
  {
    StartsFrame(k, s, a, t);
    if a.Go? && s.gs[a.g].StoringStart? {
      assert HoldsRole(s.gs[a.g], s.run.word);
    }
  }

  lemma {:induction false} StartsFrame(k: Config, s: State, a: Action, t: State)
    requires Step(k, s, a, t)
    ensures a.Go? ==> a.g in s.gs
    ensures t.run.starts ==
      if a.Go? && s.gs[a.g].StoringStart? then s.run.starts[s.run.epoch := s.gs[a.g].t] else s.run.starts
  {
  }

  /** An inline handler that has the role and passed its armed check is watched: armed is
      set and a goroutine about to schedule, the timer or a callback is in charge of it, or
      a callback that cleared armed is about to look again. */
  lemma {:induction false} InlineHandlersAreWatched(k: Config, states: seq<State>, actions: seq<Action>, n: nat, g: nat)
    requires IsRun(k, states, actions) && n < |states|
    requires g in states[n].gs && states[n].gs[g].Handling? && states[n].run.word == Word(states[n].gs[g].e, Running)
    ensures
      var s := states[n];
      (s.watch.armed && (s.watch.timer.Some? || (exists h :: h in s.gs && s.gs[h].Scheduling?) ||
                         exists c :: c in s.cbs && InCharge(s.cbs[c]))) ||
      exists c :: c in s.cbs && AboutToRecheck(s.cbs[c])
  {
    RunKeepsInvariant(k, states, actions, n);
  }

  /** At most one callback is in charge of armed, and none while the timer is scheduled. The
      others only look once more at the words and leave. */
  lemma {:induction false} OneCallbackInCharge(k: Config, states: seq<State>, actions: seq<Action>, n: nat, c: nat, d: nat)
    requires IsRun(k, states, actions) && n < |states|
    requires c in states[n].cbs && InCharge(states[n].cbs[c]) && d in states[n].cbs && InCharge(states[n].cbs[d])
    ensures c == d && states[n].watch.timer.None?
  {
    RunKeepsInvariant(k, states, actions, n);
  }

  // --------------------------------------------------------- after stopWatch returned

  /** After stopWatch returned, a callback changes nothing but its own position and armed:
      it takes no slot, moves no role, starts no goroutine and schedules no timer. */
  lemma {:induction false} LateCallbacksOnlyLeave(k: Config, states: seq<State>, actions: seq<Action>, n: nat)
    requires IsRun(k, states, actions) && n < |actions| && states[n].life.quiet && actions[n].Look?
    ensures
      var s, t := states[n], states[n + 1];
      t.gs == s.gs && t.run == s.run && t.slots == s.slots && t.role == s.role && t.watch.timer == s.watch.timer
  {
    RunKeepsInvariant(k, states, actions, n);
    assert StepAt(k, states, actions, n);
    QuietLook(k, states[n], actions[n].c, actions[n].id, states[n + 1]);
  }

  lemma {:induction false} QuietLook(k: Config, s: State, c: nat, id: nat, t: State)
    requires LookStep(k, s, c, id, t) && (InCharge(s.cbs[c]) ==> s.life.stopped && (s.cbs[c].Top? || s.cbs[c].Clearing?))
    ensures t.gs == s.gs && t.run == s.run && t.slots == s.slots && t.role == s.role && t.watch.timer == s.watch.timer
  {
  }

  /** A goroutine that published an inline run and has not passed its armed check. */
  ghost predicate StillArming(pc: Pc) {
    pc.LoadingArmed? || pc.Arming? || pc.Scheduling?
  }

  /** The timer is or may still be scheduled after stopWatch returned. */
  ghost predicate TimerMayCome(s: State) {
    s.watch.timer.Some? || (s.watch.charge != Retired && exists g :: g in s.gs && StillArming(s.gs[g]))
  }

  lemma {:induction false} NoTimerGo(k: Config, s: State, g: nat, ch: Choice, t: State)
    requires Invariant(k, s) && GoStep(k, s, g, ch, t) && s.life.quiet && !TimerMayCome(s)
    ensures !TimerMayCome(t)
  {
    NoNewRun(s, g);
    ArmFrame(k, s, g, ch, t);
  }

  lemma {:induction false} NoNewRun(s: State, g: nat)
    requires RoleOk(s.gs, s.cbs, s.run.word, s.role) && g in s.gs && s.role.Over?
    ensures !s.gs[g].StoringWord?
  {
    assert !HoldsRole(s.gs[g], s.run.word);
  }

  ghost predicate NoMoreArming(s: State, g: nat, t: State)
    requires g in s.gs
  {
    (forall h :: h in t.gs && StillArming(t.gs[h]) ==> h in s.gs && StillArming(s.gs[h])) &&
    (!s.gs[g].Scheduling? && t.watch.timer.Some? ==> s.watch.timer.Some?) &&
    (s.watch.armed && s.watch.charge == Retired && !s.gs[g].Scheduling? ==> t.watch.charge == Retired)
  }

  lemma {:induction false} ArmFrameReceiver(k: Config, s: State, g: nat, ch: Choice, t: State)
    requires g in s.gs && ReceiverStep(k, s, g, ch, t)
    ensures NoMoreArming(s, g, t)
  {
  }

  lemma {:induction false} ArmFrameStart(k: Config, s: State, g: nat, ch: Choice, t: State)
    requires g in s.gs && StartStep(k, s, g, ch, t) && !s.gs[g].StoringWord?
    ensures NoMoreArming(s, g, t)
  {
  }

  lemma {:induction false} ArmFrameRest(k: Config, s: State, g: nat, ch: Choice, t: State)
    requires g in s.gs && (WorkerStep(k, s, g, ch, t) || ReturnStep(k, s, g, ch, t))
    ensures NoMoreArming(s, g, t)
  {
  }

  lemma {:induction false} ArmFrameReply(k: Config, s: State, g: nat, ch: Choice, t: State)
    requires g in s.gs && ReplyStep(k, s, g, ch, t)
    ensures NoMoreArming(s, g, t)
  {
  }

  lemma {:induction false} ArmFrameStop(k: Config, s: State, g: nat, ch: Choice, t: State)
    requires g in s.gs && StopStep(k, s, g, ch, t)
    ensures NoMoreArming(s, g, t)
  {
  }

  lemma {:induction false} ArmFrame(k: Config, s: State, g: nat, ch: Choice, t: State)
    requires GoStep(k, s, g, ch, t) && !s.gs[g].StoringWord?
    ensures NoMoreArming(s, g, t)
  {
    if ReceiverStep(k, s, g, ch, t) {
      ArmFrameReceiver(k, s, g, ch, t);
    } else if StartStep(k, s, g, ch, t) {
      ArmFrameStart(k, s, g, ch, t);
    } else if StopStep(k, s, g, ch, t) {
      ArmFrameStop(k, s, g, ch, t);
    } else if ReplyStep(k, s, g, ch, t) {
      ArmFrameReply(k, s, g, ch, t);
    } else {
      ArmFrameRest(k, s, g, ch, t);
    }
  }

  lemma {:induction false} NoTimerLook(k: Config, s: State, c: nat, id: nat, t: State)
    requires Invariant(k, s) && LookStep(k, s, c, id, t) && s.life.quiet && !TimerMayCome(s)
    ensures !TimerMayCome(t)
  {
    QuietLook(k, s, c, id, t);
    if s.watch.charge == Retired {
      RetiredLook(k, s, c, id, t);
    }
  }

  lemma {:induction false} RetiredLook(k: Config, s: State, c: nat, id: nat, t: State)
    requires LookStep(k, s, c, id, t) && !InCharge(s.cbs[c]) && s.watch.armed
    ensures t.watch == s.watch
  {
  }

  lemma {:induction false} QuietGo(k: Config, s: State, g: nat, ch: Choice, t: State)
    requires g in s.gs && s.life.quiet
    requires ReceiverStep(k, s, g, ch, t) || StartStep(k, s, g, ch, t) || ReplyStep(k, s, g, ch, t)
    ensures t.life.quiet
  {
  }

  lemma {:induction false} QuietEnd(k: Config, s: State, g: nat, ch: Choice, t: State)
    requires g in s.gs && s.life.quiet
    requires WorkerStep(k, s, g, ch, t) || StopStep(k, s, g, ch, t) || ReturnStep(k, s, g, ch, t)
    ensures t.life.quiet
  {
  }

  lemma {:induction false} QuietStays(k: Config, s: State, a: Action, t: State)
    requires Step(k, s, a, t) && s.life.quiet
    ensures t.life.quiet
  {
    if a.Go? {
      if WorkerStep(k, s, a.g, a.choice, t) || StopStep(k, s, a.g, a.choice, t) || ReturnStep(k, s, a.g, a.choice, t) {
        QuietEnd(k, s, a.g, a.choice, t);
      } else {
        QuietGo(k, s, a.g, a.choice, t);
      }
    }
  }

  /** After stopWatch returned the timer is never scheduled again, and so no new callback
      starts, if no goroutine that lost the role still has its armed check before it. */
  lemma {:induction false} NoLateTimer(k: Config, states: seq<State>, actions: seq<Action>, i: nat, n: nat)
    requires IsRun(k, states, actions) && i <= n < |states| && states[i].life.quiet && !TimerMayCome(states[i])
    ensures states[n].life.quiet && !TimerMayCome(states[n])
  {
    if i < n {
      NoLateTimer(k, states, actions, i, n - 1);
      NoTimerAt(k, states, actions, n - 1);
    }
  }

  lemma {:induction false} NoTimerAt(k: Config, states: seq<State>, actions: seq<Action>, n: nat)
    requires IsRun(k, states, actions) && n < |actions| && states[n].life.quiet && !TimerMayCome(states[n])
    ensures states[n + 1].life.quiet && !TimerMayCome(states[n + 1])
  {
    RunKeepsInvariant(k, states, actions, n);
    assert StepAt(k, states, actions, n);
    QuietStays(k, states[n], actions[n], states[n + 1]);
    NoTimerStep(k, states[n], actions[n], states[n + 1]);
  }

  lemma {:induction false} NoTimerStep(k: Config, s: State, a: Action, t: State)
    requires Invariant(k, s) && Step(k, s, a, t) && s.life.quiet && !TimerMayCome(s)
    ensures !TimerMayCome(t)
  {
    if a.Go? {
      NoTimerGo(k, s, a.g, a.choice, t);
    } else if a.Look? {
      NoTimerLook(k, s, a.c, a.id, t);
    }
  }

  // The condition is exact: from any other state some steps schedule the timer.

  ghost predicate Path(k: Config, states: seq<State>, actions: seq<Action>) {
    |states| == |actions| + 1 && forall i: nat :: i < |actions| ==> StepAt(k, states, actions, i)
  }

  lemma {:induction false} PathBefore(k: Config, s: State, a: Action, states: seq<State>, actions: seq<Action>)
    requires Path(k, states, actions) && Step(k, s, a, states[0])
    ensures Path(k, [s] + states, [a] + actions) && ([s] + states)[|[a] + actions|] == states[|actions|]
  {
    var more, acts := [s] + states, [a] + actions;
    forall i: nat | i < |acts| ensures StepAt(k, more, acts, i) {
      if i > 0 {
        assert StepAt(k, states, actions, i - 1);
      }
    }
  }

  ghost predicate LeadsToTimer(k: Config, s: State) {
    exists states: seq<State>, actions: seq<Action> :: Path(k, states, actions) && states[0] == s && states[|actions|].watch.timer.Some?
  }

  lemma {:induction false} OneMore(k: Config, s: State, a: Action, t: State)
    requires Step(k, s, a, t) && LeadsToTimer(k, t)
    ensures LeadsToTimer(k, s)
  {
    var states: seq<State>, actions: seq<Action> :| Path(k, states, actions) && states[0] == t && states[|actions|].watch.timer.Some?;
    PathBefore(k, s, a, states, actions);
  }

  lemma {:induction false} TimerIsThere(k: Config, s: State)
    requires s.watch.timer.Some?
    ensures LeadsToTimer(k, s)
  {
    assert Path(k, [s], []);
  }

  lemma {:induction false} SchedulingLeads(k: Config, s: State, g: nat)
    requires g in s.gs && s.gs[g].Scheduling?
    ensures LeadsToTimer(k, s)
  {
    var t := Schedule(s, g, s.gs[g].m, s.gs[g].e, k.limit);
    assert StartStep(k, s, g, Next, t);
    TimerIsThere(k, t);
    OneMore(k, s, Go(g, Next), t);
  }

  lemma {:induction false} ArmingLeads(k: Config, s: State, g: nat)
    requires g in s.gs && s.gs[g].Arming? && !s.watch.armed
    ensures LeadsToTimer(k, s)
  {
    var t := SetArmed(s, g, s.gs[g].m, s.gs[g].e);
    assert StartStep(k, s, g, Next, t);
    SchedulingLeads(k, t, g);
    OneMore(k, s, Go(g, Next), t);
  }

  lemma {:induction false} LoadingLeads(k: Config, s: State, g: nat)
    requires g in s.gs && s.gs[g].LoadingArmed? && !s.watch.armed
    ensures LeadsToTimer(k, s)
  {
    var t := Move(s, g, Arming(s.gs[g].m, s.gs[g].e));
    assert StartStep(k, s, g, Next, t);
    ArmingLeads(k, t, g);
    OneMore(k, s, Go(g, Next), t);
  }

  lemma {:induction false} ClearingLeads(k: Config, s: State, g: nat, c: nat)
    requires g in s.gs && (s.gs[g].LoadingArmed? || s.gs[g].Arming?) && c in s.cbs && s.cbs[c].Clearing?
    ensures LeadsToTimer(k, s)
  {
    var t := Disarm(s, c, Leaving);
    assert ArmStep(s, c, t);
    if s.gs[g].Arming? { ArmingLeads(k, t, g); } else { LoadingLeads(k, t, g); }
    OneMore(k, s, Look(c, 0), t);
  }

  lemma {:induction false} TopLeads(k: Config, s: State, g: nat, c: nat)
    requires g in s.gs && (s.gs[g].LoadingArmed? || s.gs[g].Arming?) && c in s.cbs && s.cbs[c].Top? && s.life.stopped
    ensures LeadsToTimer(k, s)
  {
    var t := Turn(s, c, Clearing);
    assert ReadStep(k, s, c, t);
    ClearingLeads(k, t, g, c);
    OneMore(k, s, Look(c, 0), t);
  }

  /** Otherwise it can be scheduled after stopWatch returned. */
  lemma {:induction false} LateTimerPossible(k: Config, s: State)
    requires DogOk(s) && s.life.quiet && TimerMayCome(s)
    ensures LeadsToTimer(k, s)
  {
    var w := s.watch;
    if w.timer.Some? {
      TimerIsThere(k, s);
    } else if w.charge.ByGo? {
      SchedulingLeads(k, s, w.charge.g);
    } else {
      var g :| g in s.gs && StillArming(s.gs[g]);
      if w.charge.ByCallback? {
        if s.cbs[w.charge.c].Top? { TopLeads(k, s, g, w.charge.c); } else { ClearingLeads(k, s, g, w.charge.c); }
      } else if s.gs[g].Arming? {
        ArmingLeads(k, s, g);
      } else {
        LoadingLeads(k, s, g);
      }
    }
  }
}
