/** What holds in every run of the Serve loop. */
module ServeSafety {
  import opened Wire
  import opened Serve
  import opened ServeInvariant

  // ------------------------------------- every step, for each part of the invariant

  lemma {:induction false} ReceiverCore(k: Config, s: State, g: nat, ch: Choice, t: State)
    requires CoreOk(k, s) && g in s.gs && ReceiverStep(k, s, g, ch, t)
    ensures CoreOk(k, t)
  {
    match s.gs[g]
    case Receiving => if ch.Get? { CoreMove(k, s, g, Received(ch.m), t); } else { CoreEnd(k, s, g, t); }
    case Received(m) => if s.slots.taken != 0 { CoreMove(k, s, g, Acquiring(m), t); } else { CoreBeginInline(k, s, g, m); }
    case Acquiring(m) => if ch == Next { CoreTakeSlot(k, s, g, m); } else { CoreEnd(k, s, g, t); }
    case Offering(m) => OfferCore(k, s, g, m, ch, t);
    case Blocked(m) => OfferCore(k, s, g, m, ch, t);
  }

  lemma {:induction false} OfferCore(k: Config, s: State, g: nat, m: nat, ch: Choice, t: State)
    requires CoreOk(k, s) && (Is(s.gs, g, Offering(m)) || Is(s.gs, g, Blocked(m))) && ReceiverStep(k, s, g, ch, t)
    ensures CoreOk(k, t)
  {
    if s.gs[g].Offering? && ch == Next {
      CoreMove(k, s, g, Blocked(m), t);
    } else if s.gs[g].Blocked? && !ch.Hand? {
      CoreEndBlocked(k, s, g, m);
    } else {
      CoreHandOver(k, s, g, ch.w, m, t);
    }
  }

  lemma {:induction false} ReceiverDog(k: Config, s: State, g: nat, ch: Choice, t: State)
    requires RoleOk(s.gs, s.cbs, s.run.word, s.role) && DogOk(s) && g in s.gs && ReceiverStep(k, s, g, ch, t)
    ensures DogOk(t)
  {
    match s.gs[g]
    case Receiving => if ch.Get? { DogMove(s, g, Received(ch.m), t); } else { DogEnd(s, g, t); }
    case Received(m) => DogMove(s, g, if s.slots.taken != 0 then Acquiring(m) else ReadingClock(m), t);
    case Acquiring(m) => if ch == Next { DogMove(s, g, Offering(m), t); } else { DogEnd(s, g, t); }
    case Offering(m) => OfferDog(k, s, g, m, ch, t);
    case Blocked(m) => OfferDog(k, s, g, m, ch, t);
  }

  lemma {:induction false} OfferDog(k: Config, s: State, g: nat, m: nat, ch: Choice, t: State)
    requires RoleOk(s.gs, s.cbs, s.run.word, s.role) && DogOk(s)
    requires (Is(s.gs, g, Offering(m)) || Is(s.gs, g, Blocked(m))) && ReceiverStep(k, s, g, ch, t)
    ensures DogOk(t)
  {
    if s.gs[g].Offering? && ch == Next {
      DogMove(s, g, Blocked(m), t);
    } else if s.gs[g].Blocked? && !ch.Hand? {
      DogEnd(s, g, t);
    } else {
      DogHandOver(s, g, ch.w, m, t);
    }
  }

  lemma {:induction false} ReceiverWork(k: Config, s: State, g: nat, ch: Choice, t: State)
    requires WorkOk(k, s) && 0 in s.gs && g in s.gs && ReceiverStep(k, s, g, ch, t)
    ensures WorkOk(k, t)
  {
    match s.gs[g]
    case Receiving => if ch.Get? { WorkAccept(k, s, g, ch.m); } else { WorkMove(k, s, g, Stopping, t); }
    case Received(m) => WorkMove(k, s, g, if s.slots.taken != 0 then Acquiring(m) else ReadingClock(m), t);
    case Acquiring(m) => if ch == Next { WorkMove(k, s, g, Offering(m), t); } else { WorkFinish(k, s, g, m, Stopping, t); }
    case Offering(m) => if ch == Next { WorkMove(k, s, g, Blocked(m), t); } else { WorkHandOver(k, s, g, ch.w, m, t); }
    case Blocked(m) => if ch.Hand? { WorkHandOver(k, s, g, ch.w, m, t); } else { WorkFinish(k, s, g, m, Stopping, t); }
  }

  lemma {:induction false} StartCore(k: Config, s: State, g: nat, ch: Choice, t: State)
    requires CoreOk(k, s) && g in s.gs && StartStep(k, s, g, ch, t)
    ensures CoreOk(k, t)
  {
    var pc := s.gs[g];
    if pc.StoringStart? {
      CoreStoreStart(k, s, g, pc.m, pc.t);
    } else if pc.StoringWord? {
      CoreStoreWord(k, s, g, pc.m);
    } else {
      CoreMove(k, s, g, t.gs[g], t);
    }
  }

  lemma {:induction false} StartDog(k: Config, s: State, g: nat, ch: Choice, t: State)
    requires RoleOk(s.gs, s.cbs, s.run.word, s.role) && DogOk(s) && g in s.gs && StartStep(k, s, g, ch, t)
    ensures DogOk(t)
  {
    var pc := s.gs[g];
    if pc.StoringWord? {
      DogStoreWord(s, g, pc.m);
    } else if pc.Arming? && !s.watch.armed {
      DogSetArmed(s, g, pc.m, pc.e);
    } else if pc.Scheduling? {
      DogSchedule(s, g, pc.m, pc.e, k.limit);
    } else {
      DogMove(s, g, t.gs[g], t);
    }
  }

  lemma {:induction false} StartWork(k: Config, s: State, g: nat, ch: Choice, t: State)
    requires WorkOk(k, s) && g in s.gs && StartStep(k, s, g, ch, t)
    ensures WorkOk(k, t)
  {
    WorkMove(k, s, g, t.gs[g], t);
  }

  lemma {:induction false} ReplyCore(k: Config, s: State, g: nat, ch: Choice, t: State)
    requires CoreOk(k, s) && g in s.gs && ReplyStep(k, s, g, ch, t)
    ensures CoreOk(k, t)
  {
    var pc := s.gs[g];
    if pc.Handling? && s.run.word == Word(pc.e, Running) {
      CoreKeep(k, s, g, pc.m, pc.e);
    } else if pc.Displaced? {
      CoreFreeSlot(k, s, g, LateReply(pc.m));
    } else {
      CoreMove(k, s, g, t.gs[g], t);
    }
  }

  lemma {:induction false} ReplyDog(k: Config, s: State, g: nat, ch: Choice, t: State)
    requires RoleOk(s.gs, s.cbs, s.run.word, s.role) && DogOk(s) && g in s.gs && ReplyStep(k, s, g, ch, t)
    ensures DogOk(t)
  {
    var pc := s.gs[g];
    if pc.Handling? && s.run.word == Word(pc.e, Running) {
      DogKeep(s, g, pc.m, pc.e);
    } else {
      DogMove(s, g, t.gs[g], t);
    }
  }

  lemma {:induction false} ReplyWork(k: Config, s: State, g: nat, ch: Choice, t: State)
    requires WorkOk(k, s) && g in s.gs && ReplyStep(k, s, g, ch, t)
    ensures WorkOk(k, t)
  {
    if s.gs[g].Replying? || s.gs[g].LateReply? {
      WorkFinish(k, s, g, s.gs[g].m, t.gs[g], t);
    } else {
      WorkMove(k, s, g, t.gs[g], t);
    }
  }

  lemma {:induction false} WorkerCore(k: Config, s: State, g: nat, ch: Choice, t: State)
    requires CoreOk(k, s) && g in s.gs && WorkerStep(k, s, g, ch, t)
    ensures CoreOk(k, t)
  {
    if s.gs[g].Working? {
      CoreFreeSlot(k, s, g, WorkerReply(s.gs[g].m));
    } else {
      CoreMove(k, s, g, t.gs[g], t);
    }
  }

  lemma {:induction false} WorkerWork(k: Config, s: State, g: nat, ch: Choice, t: State)
    requires WorkOk(k, s) && g in s.gs && WorkerStep(k, s, g, ch, t)
    ensures WorkOk(k, t)
  {
    if s.gs[g].WorkerReply? {
      WorkFinish(k, s, g, s.gs[g].m, Idle, t);
    } else {
      WorkMove(k, s, g, t.gs[g], t);
    }
  }

  lemma {:induction false} WorkerDog(k: Config, s: State, g: nat, ch: Choice, t: State)
    requires DogOk(s) && g in s.gs && WorkerStep(k, s, g, ch, t)
    ensures DogOk(t)
  {
    DogMove(s, g, t.gs[g], t);
  }

  lemma {:induction false} StopFrame(k: Config, s: State, g: nat, ch: Choice, t: State)
    requires g in s.gs && StopStep(k, s, g, ch, t)
    ensures g in t.gs && t.gs == s.gs[g := t.gs[g]] && CoreSame(s, t) && Outside(s.gs[g]) && Outside(t.gs[g])
  {
  }

  lemma {:induction false} StopCore(k: Config, s: State, g: nat, ch: Choice, t: State)
    requires CoreOk(k, s) && g in s.gs && StopStep(k, s, g, ch, t)
    ensures CoreOk(k, t)
  {
    StopFrame(k, s, g, ch, t);
    CoreOutside(k, s, g, t.gs[g], t);
  }

  lemma {:induction false} StopDog(k: Config, s: State, g: nat, ch: Choice, t: State)
    requires DogOk(s) && g in s.gs && StopStep(k, s, g, ch, t)
    ensures DogOk(t)
  {
    if t.gs[g] == AfterStop(g) {
      DogStopped(s, g, t);
    } else {
      DogFinish(s, g, t);
    }
  }

  lemma {:induction false} StopWork(k: Config, s: State, g: nat, ch: Choice, t: State)
    requires WorkOk(k, s) && g in s.gs && StopStep(k, s, g, ch, t)
    ensures WorkOk(k, t)
  {
    WorkMove(k, s, g, t.gs[g], t);
  }

  lemma {:induction false} ReturnFrame(k: Config, s: State, g: nat, ch: Choice, t: State)
    requires g in s.gs && ReturnStep(k, s, g, ch, t)
    ensures g in t.gs && t.gs == s.gs[g := t.gs[g]] && CoreSame(s, t) && Outside(s.gs[g]) && Outside(t.gs[g])
  {
  }

  lemma {:induction false} ReturnCore(k: Config, s: State, g: nat, ch: Choice, t: State)
    requires CoreOk(k, s) && g in s.gs && ReturnStep(k, s, g, ch, t)
    ensures CoreOk(k, t)
  {
    ReturnFrame(k, s, g, ch, t);
    CoreOutside(k, s, g, t.gs[g], t);
  }

  lemma {:induction false} ReturnDog(k: Config, s: State, g: nat, ch: Choice, t: State)
    requires DogOk(s) && g in s.gs && ReturnStep(k, s, g, ch, t)
    ensures DogOk(t)
  {
    if s.gs[g].AwaitingResult? || s.gs[g].Joining? {
      DogReturn(s, t);
    } else {
      DogFinish(s, g, t);
    }
  }

  lemma {:induction false} ReturnWork(k: Config, s: State, g: nat, ch: Choice, t: State)
    requires WorkOk(k, s) && g in s.gs && ReturnStep(k, s, g, ch, t)
    ensures WorkOk(k, t)
  {
    WorkMove(k, s, g, t.gs[g], t);
  }

  lemma {:induction false} ReadFrame(k: Config, s: State, c: nat, t: State)
    requires c in s.cbs && ReadStep(k, s, c, t) && LookOk(k, s.cbs[c], s.run.word, s.run.starts, s.run.clock)
    requires forall e :: e in s.run.starts ==> s.run.starts[e] <= s.run.startNs
    requires s.run.word.phase == Running ==> s.run.word.epoch in s.run.starts
    ensures c in t.cbs && t == Turn(s, c, t.cbs[c]) && LookOk(k, t.cbs[c], s.run.word, s.run.starts, s.run.clock)
    ensures !s.cbs[c].Spawning? && !t.cbs[c].Spawning? && !LookHoldsSlot(s.cbs[c]) && !LookHoldsSlot(t.cbs[c])
  {
  }

  lemma {:induction false} ReadCore(k: Config, s: State, c: nat, t: State)
    requires CoreOk(k, s) && c in s.cbs && ReadStep(k, s, c, t)
    ensures CoreOk(k, t)
  {
    ReadFrame(k, s, c, t);
    CoreTurn(k, s, c, t.cbs[c], t);
  }

  lemma {:induction false} ReadDog(k: Config, s: State, c: nat, t: State)
    requires DogOk(s) && c in s.cbs && ReadStep(k, s, c, t)
    requires LooksOk(k, s.cbs, s.run.word, s.run.starts, s.run.clock)
    ensures DogOk(t)
  {
    DogTurn(s, c, t.cbs[c], t);
  }

  lemma {:induction false} EscalateCore(k: Config, s: State, c: nat, id: nat, t: State)
    requires CoreOk(k, s) && ArmOk(s.gs, s.cbs, s.watch) && k.max > 0 && c in s.cbs && EscalateStep(k, s, c, id, t)
    ensures CoreOk(k, t)
  {
    var pc := s.cbs[c];
    if pc.TakingSlot? {
      if s.run.word == pc.st {
        EscalateFindsSlot(k, s, c, pc.st);
      }
      if s.slots.taken < k.max {
        CoreBorrow(k, s, c, pc.st);
      } else {
        CoreTurn(k, s, c, Rechecking(pc.st), t);
      }
    } else if pc.Swapping? {
      if s.run.word == pc.st {
        CoreEscalate(k, s, c, pc.st);
      } else {
        CoreTurn(k, s, c, Undoing(pc.st), t);
      }
    } else if pc.Undoing? {
      CoreReturn(k, s, c, pc.st);
    } else {
      CoreSpawn(k, s, c, id);
    }
  }

  lemma {:induction false} EscalateDog(k: Config, s: State, c: nat, id: nat, t: State)
    requires RoleOk(s.gs, s.cbs, s.run.word, s.role) && LooksOk(k, s.cbs, s.run.word, s.run.starts, s.run.clock)
    requires DogOk(s) && c in s.cbs && EscalateStep(k, s, c, id, t)
    ensures DogOk(t)
  {
    var pc := s.cbs[c];
    if pc.Swapping? && s.run.word == pc.st {
      DogEscalate(s, c, pc.st);
    } else if pc.Spawning? {
      DogSpawn(s, c, id);
    } else {
      DogTurn(s, c, t.cbs[c], t);
    }
  }

  lemma {:induction false} ArmCore(k: Config, s: State, c: nat, t: State)
    requires CoreOk(k, s) && c in s.cbs && ArmStep(s, c, t)
    ensures CoreOk(k, t)
  {
    if s.cbs[c].Leaving? {
      CoreLeave(k, s, c);
    } else {
      CoreTurn(k, s, c, t.cbs[c], t);
    }
  }

  lemma {:induction false} ArmDog(k: Config, s: State, c: nat, t: State)
    requires DogOk(s) && c in s.cbs && ArmStep(s, c, t)
    ensures DogOk(t)
  {
    var pc := s.cbs[c];
    if pc.Clearing? || pc.Disarming? {
      DogDisarm(s, c, t.cbs[c]);
    } else if pc.Rescheduling? {
      DogReschedule(s, c, pc.wait);
    } else if pc.Leaving? {
      DogLeave(s, c);
    } else if s.watch.armed {
      DogTurn(s, c, Leaving, t);
    } else {
      DogRearm(s, c);
    }
  }

  lemma {:induction false} GoCore(k: Config, s: State, g: nat, ch: Choice, t: State)
    requires CoreOk(k, s) && GoStep(k, s, g, ch, t)
    ensures CoreOk(k, t)
  {
    if ReceiverStep(k, s, g, ch, t) {
      ReceiverCore(k, s, g, ch, t);
    } else if StartStep(k, s, g, ch, t) {
      StartCore(k, s, g, ch, t);
    } else if ReplyStep(k, s, g, ch, t) {
      ReplyCore(k, s, g, ch, t);
    } else if WorkerStep(k, s, g, ch, t) {
      WorkerCore(k, s, g, ch, t);
    } else if StopStep(k, s, g, ch, t) {
      StopCore(k, s, g, ch, t);
    } else {
      ReturnCore(k, s, g, ch, t);
    }
  }

  lemma {:induction false} GoDog(k: Config, s: State, g: nat, ch: Choice, t: State)
    requires CoreOk(k, s) && DogOk(s) && GoStep(k, s, g, ch, t)
    ensures DogOk(t)
  {
    if ReceiverStep(k, s, g, ch, t) {
      ReceiverDog(k, s, g, ch, t);
    } else if StartStep(k, s, g, ch, t) {
      StartDog(k, s, g, ch, t);
    } else if ReplyStep(k, s, g, ch, t) {
      ReplyDog(k, s, g, ch, t);
    } else if WorkerStep(k, s, g, ch, t) {
      WorkerDog(k, s, g, ch, t);
    } else if StopStep(k, s, g, ch, t) {
      StopDog(k, s, g, ch, t);
    } else {
      ReturnDog(k, s, g, ch, t);
    }
  }

  lemma {:induction false} GoWork(k: Config, s: State, g: nat, ch: Choice, t: State)
    requires DogOk(s) && WorkOk(k, s) && GoStep(k, s, g, ch, t)
    ensures WorkOk(k, t)
  {
    if ReceiverStep(k, s, g, ch, t) {
      ReceiverWork(k, s, g, ch, t);
    } else if StartStep(k, s, g, ch, t) {
      StartWork(k, s, g, ch, t);
    } else if ReplyStep(k, s, g, ch, t) {
      ReplyWork(k, s, g, ch, t);
    } else if WorkerStep(k, s, g, ch, t) {
      WorkerWork(k, s, g, ch, t);
    } else if StopStep(k, s, g, ch, t) {
      StopWork(k, s, g, ch, t);
    } else {
      ReturnWork(k, s, g, ch, t);
    }
  }

  lemma {:induction false} LookCore(k: Config, s: State, c: nat, id: nat, t: State)
    requires CoreOk(k, s) && DogOk(s) && k.max > 0 && LookStep(k, s, c, id, t)
    ensures CoreOk(k, t)
  {
    if ReadStep(k, s, c, t) {
      ReadCore(k, s, c, t);
    } else if EscalateStep(k, s, c, id, t) {
      EscalateCore(k, s, c, id, t);
    } else {
      ArmCore(k, s, c, t);
    }
  }

  lemma {:induction false} LookDog(k: Config, s: State, c: nat, id: nat, t: State)
    requires CoreOk(k, s) && DogOk(s) && LookStep(k, s, c, id, t)
    ensures DogOk(t)
  {
    if ReadStep(k, s, c, t) {
      ReadDog(k, s, c, t);
    } else if EscalateStep(k, s, c, id, t) {
      EscalateDog(k, s, c, id, t);
    } else {
      ArmDog(k, s, c, t);
    }
  }

  lemma {:induction false} LookWork(k: Config, s: State, c: nat, id: nat, t: State)
    requires WorkOk(k, s) && LookStep(k, s, c, id, t)
    ensures WorkOk(k, t)
  {
    if EscalateStep(k, s, c, id, t) && s.cbs[c] == Spawning {
      WorkSpawn(k, s, c, id);
    } else {
      LookFrame(k, s, c, id, t);
    }
  }

  lemma {:induction false} LookFrame(k: Config, s: State, c: nat, id: nat, t: State)
    requires LookStep(k, s, c, id, t) && s.cbs[c] != Spawning
    ensures t.gs == s.gs && t.owner == s.owner && t.pool == s.pool && t.life == s.life
  {
  }

  lemma {:induction false} FireKeeps(k: Config, s: State, c: nat)
    requires Invariant(k, s) && s.watch.timer.Some? && c !in s.cbs
    ensures Invariant(k, FireTimer(s, c))
  {
    CoreTurn(k, s, c, Top, FireTimer(s, c));
    DogFire(s, c);
  }

  lemma {:induction false} StepKeepsInvariant(k: Config, s: State, a: Action, t: State)
    requires k.max > 0 && Invariant(k, s) && Step(k, s, a, t)
    ensures Invariant(k, t)
  {
    match a
    case Go(g, ch) => GoCore(k, s, g, ch, t); GoDog(k, s, g, ch, t); GoWork(k, s, g, ch, t);
    case Look(c, id) => LookCore(k, s, c, id, t); LookDog(k, s, c, id, t); LookWork(k, s, c, id, t);
    case Fire(c) => FireKeeps(k, s, c);
    case Tick => CoreTick(k, s, t);
  }

  // ----------------------------------------------------------------------- runs

  ghost predicate StepAt(k: Config, states: seq<State>, actions: seq<Action>, i: nat)
    requires i < |actions| && |states| == |actions| + 1
  {
    Step(k, states[i], actions[i], states[i + 1])
  }

  ghost predicate IsRun(k: Config, states: seq<State>, actions: seq<Action>) {
    k.max > 0 && |states| == |actions| + 1 && states[0] == Init &&
    forall i: nat :: i < |actions| ==> StepAt(k, states, actions, i)
  }

  lemma {:induction false} InitOk(k: Config)
    ensures Invariant(k, Init)
  {
  }

  lemma {:induction false} RunKeepsInvariant(k: Config, states: seq<State>, actions: seq<Action>, n: nat)
    requires IsRun(k, states, actions) && n < |states|
    ensures Invariant(k, states[n])
  {
    if n == 0 {
      InitOk(k);
    } else {
      RunKeepsInvariant(k, states, actions, n - 1);
      assert StepAt(k, states, actions, n - 1);
      StepKeepsInvariant(k, states[n - 1], actions[n - 1], states[n]);
    }
  }
}
