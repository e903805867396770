/** What every step of the Serve loop keeps. Each part of the invariant speaks about the
    few fields it is about. */
module ServeInvariant {
  import opened Wire
  import opened Serve

  /** In an inline run, from the store of the state word to the attempt to keep the role. */
  predicate InRun(pc: Pc) {
    pc.LoadingArmed? || pc.Arming? || pc.Scheduling? || pc.Handling?
  }

  /** Between the look at the slots and the store of the state word. */
  predicate Prelude(pc: Pc) {
    pc.ReadingClock? || pc.StoringStart? || pc.StoringWord?
  }

  predicate HoldsRole(pc: Pc, word: Word) {
    pc.Receiving? || pc.Received? || pc.Acquiring? || pc.Offering? || pc.Blocked? || Prelude(pc) || pc.Replying? ||
    (InRun(pc) && word == Word(pc.e, Running))
  }

  /** Takes part in an inline run that still has the role. */
  predicate Inline(pc: Pc, word: Word) {
    Prelude(pc) || (InRun(pc) && word == Word(pc.e, Running))
  }

  predicate HoldsSlot(pc: Pc, word: Word) {
    pc.Offering? || pc.Blocked? || pc.Working? || pc.Displaced? || (InRun(pc) && word != Word(pc.e, Running))
  }

  predicate LookHoldsSlot(pc: Watch) {
    pc.Swapping? || pc.Undoing?
  }

  /** The callback is responsible for armed. */
  predicate InCharge(pc: Watch) {
    !(pc.LoadingStopped? || pc.LoadingAgain? || pc.Rearming? || pc.Leaving?)
  }

  predicate AboutToRecheck(pc: Watch) {
    pc.LoadingStopped? || pc.LoadingAgain? || pc.Rearming?
  }

  predicate IsWorker(pc: Pc) {
    pc.Working? || pc.WorkerReply? || pc.Idle?
  }

  predicate IsEnding(pc: Pc) {
    pc.Stopping? || pc.CheckingArmed? || pc.StoppingTimer? || pc.SendingResult? || pc.Closing?
  }

  function Carried(pc: Pc): Option<nat> {
    match pc
    case Received(m) => Some(m) case Acquiring(m) => Some(m) case Offering(m) => Some(m) case Blocked(m) => Some(m)
    case ReadingClock(m) => Some(m) case StoringStart(m, _) => Some(m) case StoringWord(m) => Some(m)
    case LoadingArmed(m, _) => Some(m) case Arming(m, _) => Some(m) case Scheduling(m, _) => Some(m)
    case Handling(m, _) => Some(m) case Replying(m) => Some(m) case Displaced(m) => Some(m) case LateReply(m) => Some(m)
    case Working(m) => Some(m) case WorkerReply(m) => Some(m)
    case _ => None
  }

  // ------------------------------------------------------------------ the parts

  /** The receiver role is where role says, and nowhere else. */
  ghost predicate RoleOk(gs: map<nat, Pc>, cbs: map<nat, Watch>, word: Word, role: Role) {
    (forall g :: g in gs && HoldsRole(gs[g], word) ==> role == By(g)) &&
    (role.By? ==> role.g in gs && HoldsRole(gs[role.g], word)) &&
    (forall c :: c in cbs && cbs[c] == Spawning ==> role == Handing(c)) &&
    (role.Handing? ==> role.c in cbs && cbs[role.c] == Spawning) &&
    (word.phase == Running ==> role.By? && InRun(gs[role.g]))
  }

  ghost predicate SlotsOk(gs: map<nat, Pc>, cbs: map<nat, Watch>, word: Word, slots: Slots, max: nat) {
    var holders := slots.holders;
    slots.taken == |holders| && slots.taken <= max &&
    (forall g :: g in gs ==> (G(g) in holders <==> HoldsSlot(gs[g], word))) &&
    (forall c :: c in cbs ==> (C(c) in holders <==> LookHoldsSlot(cbs[c]))) &&
    (forall g :: G(g) in holders ==> g in gs) &&
    (forall c :: C(c) in holders ==> c in cbs)
  }

  /** While an inline run has the role, no goroutine holds a slot. */
  ghost predicate InlineAlone(gs: map<nat, Pc>, word: Word, role: Role, holders: set<Holder>) {
    role.By? && role.g in gs && Inline(gs[role.g], word) ==> forall h :: h in holders ==> h.C?
  }

  /** armed is set exactly while one goroutine, the timer or one callback is in charge. */
  ghost predicate ArmOk(gs: map<nat, Pc>, cbs: map<nat, Watch>, watch: Watchdog) {
    var arm := watch.charge;
    (watch.armed <==> arm != NoOne) && (watch.timer.Some? <==> arm == ByTimer) &&
    (forall g :: g in gs ==> (gs[g].Scheduling? <==> arm == ByGo(g))) && (arm.ByGo? ==> arm.g in gs) &&
    (forall c :: c in cbs ==> (InCharge(cbs[c]) <==> arm == ByCallback(c))) && (arm.ByCallback? ==> arm.c in cbs)
  }

  ghost predicate EpochOk(gs: map<nat, Pc>, word: Word, epoch: nat, role: Role) {
    (forall g :: g in gs && InRun(gs[g]) ==> gs[g].e <= word.epoch) &&
    epoch == word.epoch + (if role.By? && role.g in gs && Prelude(gs[role.g]) then 1 else 0)
  }

  /** The run st is over: the word can never be st again. */
  predicate Passed(word: Word, st: Word) {
    word.epoch > st.epoch || (word.epoch == st.epoch && word.phase != Running)
  }

  ghost predicate LookOk(k: Config, pc: Watch, word: Word, starts: map<nat, nat>, clock: nat) {
    (pc.ReadingNow? || pc.ReadingStart? || pc.TakingSlot? || pc.Swapping? || pc.Undoing? || pc.Rechecking? ==>
       pc.st.phase == Running && pc.st.epoch <= word.epoch && pc.st.epoch in starts &&
       (pc.st == word || Passed(word, pc.st))) &&
    (pc.ReadingStart? ==> pc.now <= clock) &&
    (pc.TakingSlot? || pc.Swapping? ==> starts[pc.st.epoch] + k.limit <= clock) &&
    (pc.Undoing? || pc.Rechecking? ==> Passed(word, pc.st)) &&
    (pc.Rescheduling? ==> pc.wait > 0)
  }

  ghost predicate LooksOk(k: Config, cbs: map<nat, Watch>, word: Word, starts: map<nat, nat>, clock: nat) {
    forall c :: c in cbs ==> LookOk(k, cbs[c], word, starts, clock)
  }

  ghost predicate ClockOk(gs: map<nat, Pc>, role: Role, word: Word, epoch: nat, startNs: nat, starts: map<nat, nat>, clock: nat) {
    startNs <= clock && (forall e :: e in starts ==> starts[e] <= startNs) &&
    (word.phase == Running ==> word.epoch in starts) &&
    (role.By? && role.g in gs ==>
       (gs[role.g].StoringStart? ==> startNs <= gs[role.g].t <= clock) && (gs[role.g].StoringWord? ==> epoch in starts))
  }

  /** The runs that are over are those before the current one, and that one unless it goes on. */
  ghost predicate WinsOk(word: Word, won: set<nat>) {
    (word.phase == NoPhase <==> word.epoch == 0) &&
    forall e: nat :: e in won <==> 1 <= e < word.epoch || (e == word.epoch && (word.phase == Done || word.phase == Escalated))
  }

  /** Every request received and not finished is carried by exactly one goroutine. */
  ghost predicate OwnOk(gs: map<nat, Pc>, owner: map<nat, Option<nat>>) {
    (forall g :: g in gs && Carried(gs[g]).Some? ==> Owns(owner, g, Carried(gs[g]).value)) &&
    (forall m :: m in owner && owner[m].Some? ==> Carries(gs, owner[m].value, m))
  }

  predicate Owns(owner: map<nat, Option<nat>>, g: nat, m: nat) {
    m in owner && owner[m] == Some(g)
  }

  predicate Carries(gs: map<nat, Pc>, g: nat, m: nat) {
    g in gs && Carried(gs[g]) == Some(m)
  }

  ghost predicate WorkersOk(gs: map<nat, Pc>, workers: set<nat>, started: nat, max: nat, closed: bool) {
    |workers| == started <= max && 0 !in workers &&
    (forall w :: w in workers ==> w in gs && (IsWorker(gs[w]) || (closed && gs[w] == Exited))) &&
    (forall g :: g in gs && IsWorker(gs[g]) ==> g in workers) &&
    (forall g :: g in gs && gs[g].Blocked? ==> started == max)
  }

  ghost predicate EndOk(gs: map<nat, Pc>, role: Role, stopped: bool, quiet: bool, closed: bool, results: nat) {
    0 in gs && (stopped || quiet || closed || results > 0 ==> role.Over?) && results <= 1 &&
    (forall g :: g in gs && IsEnding(gs[g]) ==> role == Over(g)) &&
    (forall g :: g in gs && (gs[g].Stopping? || gs[g].CheckingArmed? || gs[g].StoppingTimer? || gs[g].SendingResult?) ==> results == 0) &&
    (forall g :: g in gs && (gs[g].AwaitingResult? || gs[g].Joining? || gs[g].Returned?) ==> g == 0) &&
    (gs[0].Joining? || gs[0].Returned? ==> role.Over?) &&
    (gs[0] == Returned ==> forall g :: g in gs && g != 0 ==> gs[g] == Exited)
  }

  /** After stopWatch returned, a callback in charge has only to see stopped and leave. */
  ghost predicate QuietOk(gs: map<nat, Pc>, cbs: map<nat, Watch>, stopped: bool, quiet: bool, arm: Arm) {
    (arm == Retired ==> quiet) && (quiet ==> stopped) &&
    (forall g :: g in gs && (gs[g].CheckingArmed? || gs[g].StoppingTimer?) ==> stopped) &&
    (forall c :: c in cbs && cbs[c].Clearing? ==> stopped) &&
    (quiet ==> forall c :: c in cbs && InCharge(cbs[c]) ==> cbs[c].Top? || cbs[c].Clearing?)
  }

  /** An inline handler past the armed check is watched. */
  ghost predicate Watched(cbs: map<nat, Watch>, arm: Arm) {
    (arm != NoOne && arm != Retired) || exists c :: c in cbs && AboutToRecheck(cbs[c])
  }

  ghost predicate WatchOk(gs: map<nat, Pc>, cbs: map<nat, Watch>, word: Word, role: Role, arm: Arm) {
    role.By? && role.g in gs && gs[role.g].Handling? && word == Word(gs[role.g].e, Running) ==> Watched(cbs, arm)
  }

  /** Role, slots, inline runs and time. */
  ghost predicate CoreOk(k: Config, s: State) {
    RoleOk(s.gs, s.cbs, s.run.word, s.role) &&
    SlotsOk(s.gs, s.cbs, s.run.word, s.slots, k.max) &&
    InlineAlone(s.gs, s.run.word, s.role, s.slots.holders) &&
    EpochOk(s.gs, s.run.word, s.run.epoch, s.role) &&
    LooksOk(k, s.cbs, s.run.word, s.run.starts, s.run.clock) &&
    ClockOk(s.gs, s.role, s.run.word, s.run.epoch, s.run.startNs, s.run.starts, s.run.clock) &&
    WinsOk(s.run.word, s.run.won)
  }

  /** The watchdog and the end of receiving. */
  ghost predicate DogOk(s: State) {
    ArmOk(s.gs, s.cbs, s.watch) &&
    EndOk(s.gs, s.role, s.life.stopped, s.life.quiet, s.life.closed, s.life.results) &&
    QuietOk(s.gs, s.cbs, s.life.stopped, s.life.quiet, s.watch.charge) &&
    WatchOk(s.gs, s.cbs, s.run.word, s.role, s.watch.charge)
  }

  /** Requests and workers. */
  ghost predicate WorkOk(k: Config, s: State) {
    OwnOk(s.gs, s.owner) && WorkersOk(s.gs, s.pool.workers, s.pool.started, k.max, s.life.closed)
  }

  ghost predicate Invariant(k: Config, s: State) {
    CoreOk(k, s) && DogOk(s) && WorkOk(k, s)
  }

  // ------------------------------------------------- role, slots, inline runs, time

  /** g goes on from pc to next without a change in role, slot or inline run. */
  predicate SameStanding(pc: Pc, next: Pc, run: Run) {
    (HoldsRole(pc, run.word) <==> HoldsRole(next, run.word)) && (HoldsSlot(pc, run.word) <==> HoldsSlot(next, run.word)) &&
    (Prelude(pc) <==> Prelude(next)) && (InRun(next) ==> InRun(pc) && next.e == pc.e) &&
    (InRun(pc) && run.word == Word(pc.e, Running) ==> InRun(next)) &&
    (next.StoringStart? ==> next.t == run.clock) && !next.StoringWord?
  }

  ghost predicate CoreSame(s: State, t: State) {
    t.cbs == s.cbs && t.run == s.run && t.slots == s.slots && t.role == s.role
  }

  lemma {:induction false} CoreMove(k: Config, s: State, g: nat, next: Pc, t: State)
    requires CoreOk(k, s) && g in s.gs && SameStanding(s.gs[g], next, s.run)
    requires t.gs == s.gs[g := next] && CoreSame(s, t)
    ensures CoreOk(k, t)
  {
  }

  /** Neither the receiver nor a run in progress. */
  predicate Outside(pc: Pc) {
    IsEnding(pc) || pc.AwaitingResult? || pc.Joining? || pc.Returned? || pc.Exited?
  }

  lemma {:induction false} OutsideStanding(pc: Pc, next: Pc, run: Run)
    requires Outside(pc) && Outside(next)
    ensures SameStanding(pc, next, run)
  {
  }

  lemma {:induction false} CoreOutside(k: Config, s: State, g: nat, next: Pc, t: State)
    requires CoreOk(k, s) && g in s.gs && Outside(s.gs[g]) && Outside(next)
    requires t.gs == s.gs[g := next] && CoreSame(s, t)
    ensures CoreOk(k, t)
  {
    OutsideStanding(s.gs[g], next, s.run);
    CoreMove(k, s, g, next, t);
  }

  lemma {:induction false} CoreBeginInline(k: Config, s: State, g: nat, m: nat)
    requires CoreOk(k, s) && Is(s.gs, g, Received(m)) && s.slots.taken == 0
    ensures CoreOk(k, BeginInline(s, g, m))
  {
    assert s.slots.holders == {};
  }

  lemma {:induction false} CoreTakeSlot(k: Config, s: State, g: nat, m: nat)
    requires CoreOk(k, s) && Is(s.gs, g, Acquiring(m)) && s.slots.taken < k.max
    ensures CoreOk(k, TakeSlot(s, g, Offering(m)))
  {
  }

  lemma {:induction false} CoreFreeSlot(k: Config, s: State, g: nat, next: Pc)
    requires CoreOk(k, s) && g in s.gs
    requires (s.gs[g].Displaced? && next.LateReply?) || (s.gs[g].Working? && next.WorkerReply?)
    ensures s.slots.taken > 0 && CoreOk(k, FreeSlot(s, g, next))
  {
    assert G(g) in s.slots.holders;
  }

  lemma {:induction false} SlotsHandOver(k: Config, s: State, g: nat, w: nat, m: nat)
    requires SlotsOk(s.gs, s.cbs, s.run.word, s.slots, k.max)
    requires (Is(s.gs, g, Offering(m)) || Is(s.gs, g, Blocked(m))) && (w in s.gs ==> s.gs[w] == Idle)
    ensures SlotsOk(s.gs[g := Receiving][w := Working(m)], s.cbs, s.run.word,
                    Slots(s.slots.taken, s.slots.holders - {G(g)} + {G(w)}), k.max)
  {
    assert G(g) in s.slots.holders && G(w) !in s.slots.holders;
  }

  lemma {:induction false} RoleHandOver(s: State, g: nat, w: nat, m: nat)
    requires RoleOk(s.gs, s.cbs, s.run.word, s.role) && EpochOk(s.gs, s.run.word, s.run.epoch, s.role)
    requires (Is(s.gs, g, Offering(m)) || Is(s.gs, g, Blocked(m))) && (w in s.gs ==> s.gs[w] == Idle)
    ensures
      var gs := s.gs[g := Receiving][w := Working(m)];
      RoleOk(gs, s.cbs, s.run.word, s.role) && EpochOk(gs, s.run.word, s.run.epoch, s.role) && s.role == By(g)
  {
  }

  lemma {:induction false} CoreHandOver(k: Config, s: State, g: nat, w: nat, m: nat, t: State)
    requires CoreOk(k, s) && (Is(s.gs, g, Offering(m)) || Is(s.gs, g, Blocked(m))) && (w in s.gs ==> s.gs[w] == Idle)
    requires t.gs == s.gs[g := Receiving][w := Working(m)] && t.cbs == s.cbs && t.run == s.run && t.role == s.role
    requires t.slots == Slots(s.slots.taken, s.slots.holders - {G(g)} + {G(w)})
    ensures CoreOk(k, t)
  {
    SlotsHandOver(k, s, g, w, m);
    RoleHandOver(s, g, w, m);
  }

  lemma {:induction false} CoreEnd(k: Config, s: State, g: nat, t: State)
    requires CoreOk(k, s) && g in s.gs && (s.gs[g].Receiving? || s.gs[g].Acquiring?)
    requires t.gs == s.gs[g := Stopping] && t.cbs == s.cbs && t.run == s.run && t.slots == s.slots && t.role == Over(g)
    ensures CoreOk(k, t)
  {
  }

  lemma {:induction false} CoreEndBlocked(k: Config, s: State, g: nat, m: nat)
    requires CoreOk(k, s) && Is(s.gs, g, Blocked(m))
    ensures s.slots.taken > 0 && CoreOk(k, EndBlocked(s, g, m))
  {
    assert G(g) in s.slots.holders;
  }

  lemma {:induction false} CoreStoreStart(k: Config, s: State, g: nat, m: nat, now: nat)
    requires CoreOk(k, s) && Is(s.gs, g, StoringStart(m, now))
    ensures CoreOk(k, StoreStart(s, g, m, now))
  {
  }

  lemma {:induction false} CoreStoreWord(k: Config, s: State, g: nat, m: nat)
    requires CoreOk(k, s) && Is(s.gs, g, StoringWord(m))
    ensures CoreOk(k, StoreWord(s, g, m))
  {
  }

  lemma {:induction false} CoreKeep(k: Config, s: State, g: nat, m: nat, e: nat)
    requires CoreOk(k, s) && Is(s.gs, g, Handling(m, e)) && s.run.word == Word(e, Running)
    ensures CoreOk(k, Keep(s, g, m, e))
  {
  }

  // Steps of a callback.

  lemma {:induction false} CoreTurn(k: Config, s: State, c: nat, next: Watch, t: State)
    requires CoreOk(k, s) && !next.Spawning? && LookOk(k, next, s.run.word, s.run.starts, s.run.clock)
    requires if c in s.cbs then !s.cbs[c].Spawning? && (LookHoldsSlot(s.cbs[c]) <==> LookHoldsSlot(next)) else !LookHoldsSlot(next)
    requires t.gs == s.gs && t.cbs == s.cbs[c := next] && t.run == s.run && t.slots == s.slots && t.role == s.role
    ensures CoreOk(k, t)
  {
  }

  /** While the run it saw goes on, escalate finds every slot free: the retry branch of
      watch is dead code. */
  lemma {:induction false} EscalateFindsSlot(k: Config, s: State, c: nat, st: Word)
    requires CoreOk(k, s) && ArmOk(s.gs, s.cbs, s.watch) && c in s.cbs && s.cbs[c] == TakingSlot(st) && s.run.word == st
    ensures s.slots.taken == 0
  {
    assert s.slots.holders == {};
  }

  lemma {:induction false} CoreBorrow(k: Config, s: State, c: nat, st: Word)
    requires CoreOk(k, s) && c in s.cbs && s.cbs[c] == TakingSlot(st) && s.slots.taken < k.max
    ensures CoreOk(k, BorrowSlot(s, c, st))
  {
  }

  lemma {:induction false} CoreReturn(k: Config, s: State, c: nat, st: Word)
    requires CoreOk(k, s) && c in s.cbs && s.cbs[c] == Undoing(st)
    ensures s.slots.taken > 0 && CoreOk(k, ReturnSlot(s, c, st))
  {
    assert C(c) in s.slots.holders;
  }

  lemma {:induction false} SlotsEscalate(k: Config, s: State, c: nat, st: Word)
    requires SlotsOk(s.gs, s.cbs, s.run.word, s.slots, k.max) && RoleOk(s.gs, s.cbs, s.run.word, s.role)
    requires c in s.cbs && s.cbs[c] == Swapping(st) && s.run.word == st && st.phase == Running
    ensures var t := Escalate(s, c, st); SlotsOk(t.gs, t.cbs, t.run.word, t.slots, k.max)
  {
    assert C(c) in s.slots.holders && G(s.role.g) !in s.slots.holders;
  }

  lemma {:induction false} LooksEscalate(k: Config, s: State, c: nat, st: Word)
    requires LooksOk(k, s.cbs, s.run.word, s.run.starts, s.run.clock) && c in s.cbs && s.run.word == st && st.phase == Running
    ensures LooksOk(k, s.cbs[c := Spawning], Word(st.epoch, Escalated), s.run.starts, s.run.clock)
  {
  }

  lemma {:induction false} RoleEscalate(s: State, c: nat, st: Word)
    requires RoleOk(s.gs, s.cbs, s.run.word, s.role) && EpochOk(s.gs, s.run.word, s.run.epoch, s.role)
    requires c in s.cbs && s.run.word == st && st.phase == Running
    ensures RoleOk(s.gs, s.cbs[c := Spawning], Word(st.epoch, Escalated), Handing(c))
    ensures EpochOk(s.gs, Word(st.epoch, Escalated), s.run.epoch, Handing(c))
  {
  }

  lemma {:induction false} CoreEscalate(k: Config, s: State, c: nat, st: Word)
    requires CoreOk(k, s) && c in s.cbs && s.cbs[c] == Swapping(st) && s.run.word == st
    ensures CoreOk(k, Escalate(s, c, st))
  {
    SlotsEscalate(k, s, c, st);
    RoleEscalate(s, c, st);
    LooksEscalate(k, s, c, st);
  }

  lemma {:induction false} CoreSpawn(k: Config, s: State, c: nat, id: nat)
    requires CoreOk(k, s) && c in s.cbs && s.cbs[c] == Spawning && id !in s.gs
    ensures CoreOk(k, SpawnReceiver(s, c, id))
  {
  }

  lemma {:induction false} CoreLeave(k: Config, s: State, c: nat)
    requires CoreOk(k, s) && c in s.cbs && s.cbs[c] == Leaving
    ensures CoreOk(k, Leave(s, c))
  {
  }

  lemma {:induction false} CoreTick(k: Config, s: State, t: State)
    requires CoreOk(k, s) && t == s.(run := s.run.(clock := s.run.clock + 1))
    ensures CoreOk(k, t)
  {
  }

  // ------------------------------------------------ watchdog and end of receiving

  ghost predicate DogSame(s: State, t: State) {
    t.cbs == s.cbs && t.watch == s.watch && t.life == s.life
  }

  /** A step of g that the watchdog and the end of receiving do not notice. */
  predicate SameForDog(pc: Pc, next: Pc) {
    (pc.Scheduling? <==> next.Scheduling?) && !IsEnding(next) && !next.Joining? && !next.Returned? && !pc.Exited?
  }

  lemma {:induction false} DogMove(s: State, g: nat, next: Pc, t: State)
    requires DogOk(s) && g in s.gs && SameForDog(s.gs[g], next) && (next.Handling? ==> s.watch.armed)
    requires next.AwaitingResult? ==> g == 0
    requires t.gs == s.gs[g := next] && t.run.word == s.run.word && t.role == s.role && DogSame(s, t)
    ensures DogOk(t)
  {
  }

  lemma {:induction false} DogHandOver(s: State, g: nat, w: nat, m: nat, t: State)
    requires DogOk(s) && (Is(s.gs, g, Offering(m)) || Is(s.gs, g, Blocked(m))) && s.role == By(g) && (w in s.gs ==> s.gs[w] == Idle)
    requires t.gs == s.gs[g := Receiving][w := Working(m)] && t.run == s.run && t.role == s.role && DogSame(s, t)
    ensures DogOk(t)
  {
  }

  lemma {:induction false} DogStoreWord(s: State, g: nat, m: nat)
    requires DogOk(s) && Is(s.gs, g, StoringWord(m)) && s.role == By(g)
    ensures DogOk(StoreWord(s, g, m))
  {
  }

  lemma {:induction false} DogKeep(s: State, g: nat, m: nat, e: nat)
    requires DogOk(s) && Is(s.gs, g, Handling(m, e))
    ensures DogOk(Keep(s, g, m, e))
  {
  }

  lemma {:induction false} DogSetArmed(s: State, g: nat, m: nat, e: nat)
    requires DogOk(s) && Is(s.gs, g, Arming(m, e)) && !s.watch.armed
    ensures DogOk(SetArmed(s, g, m, e))
  {
  }

  lemma {:induction false} DogSchedule(s: State, g: nat, m: nat, e: nat, limit: nat)
    requires DogOk(s) && Is(s.gs, g, Scheduling(m, e))
    ensures DogOk(Schedule(s, g, m, e, limit))
  {
  }

  lemma {:induction false} DogEnd(s: State, g: nat, t: State)
    requires DogOk(s) && g in s.gs && (s.gs[g].Receiving? || s.gs[g].Acquiring? || s.gs[g].Blocked?) && s.role == By(g)
    requires t.gs == s.gs[g := Stopping] && t.run == s.run && t.role == Over(g) && DogSame(s, t)
    ensures DogOk(t)
  {
  }

  /** The finishing goroutine goes on. */
  lemma {:induction false} DogFinish(s: State, g: nat, t: State)
    requires DogOk(s) && g in s.gs && IsEnding(s.gs[g])
    requires (s.gs[g].Stopping? && t == SetStopped(s, g)) ||
             (s.gs[g].CheckingArmed? && t == Move(s, g, StoppingTimer)) ||
             (s.gs[g].StoppingTimer? && t == Move(s, g, CheckingArmed)) ||
             (s.gs[g].SendingResult? && t == SendResult(s, g)) ||
             (s.gs[g].Closing? && t == CloseWork(s, g))
    ensures DogOk(t)
  {
  }

  lemma {:induction false} DogStopped(s: State, g: nat, t: State)
    requires DogOk(s) && g in s.gs
    requires (s.gs[g].CheckingArmed? && !s.watch.armed && t == FoundDisarmed(s, g)) ||
             (s.gs[g].StoppingTimer? && s.watch.timer.Some? && t == StopTimer(s, g))
    ensures DogOk(t)
  {
  }

  lemma {:induction false} DogReturn(s: State, t: State)
    requires DogOk(s)
    requires (Is(s.gs, 0, AwaitingResult) && s.life.results > 0 && t == TakeResult(s, 0)) ||
             (Is(s.gs, 0, Joining) && OthersExited(s) && t == Move(s, 0, Returned))
    ensures DogOk(t)
  {
  }

  lemma {:induction false} DogTurn(s: State, c: nat, next: Watch, t: State)
    requires DogOk(s) && c in s.cbs && (InCharge(s.cbs[c]) <==> InCharge(next))
    requires (s.life.quiet && InCharge(next) ==> next.Top? || next.Clearing?) && (next.Clearing? ==> s.life.stopped)
    requires AboutToRecheck(s.cbs[c]) && !AboutToRecheck(next) ==> s.life.stopped || s.run.word.phase != Running || s.watch.armed
    requires t.gs == s.gs && t.cbs == s.cbs[c := next] && t.run == s.run && t.role == s.role && t.watch == s.watch && t.life == s.life
    ensures DogOk(t)
  {
    if Watched(s.cbs, s.watch.charge) && !(s.watch.charge != NoOne && s.watch.charge != Retired) {
      var d :| d in s.cbs && AboutToRecheck(s.cbs[d]);
      assert d in t.cbs && (d != c ==> t.cbs[d] == s.cbs[d]);
    }
  }

  lemma {:induction false} DogDisarm(s: State, c: nat, next: Watch)
    requires DogOk(s) && c in s.cbs
    requires (s.cbs[c].Clearing? && next.Leaving?) || (s.cbs[c].Disarming? && next.LoadingStopped?)
    ensures DogOk(Disarm(s, c, next))
  {
    var t := Disarm(s, c, next);
    assert next.LoadingStopped? ==> c in t.cbs && AboutToRecheck(t.cbs[c]);
  }

  lemma {:induction false} DogReschedule(s: State, c: nat, wait: int)
    requires DogOk(s) && c in s.cbs && s.cbs[c] == Rescheduling(wait)
    ensures DogOk(Reschedule(s, c, wait))
  {
  }

  lemma {:induction false} DogEscalate(s: State, c: nat, st: Word)
    requires DogOk(s) && c in s.cbs && s.cbs[c] == Swapping(st) && s.role.By?
    ensures DogOk(Escalate(s, c, st))
  {
  }

  lemma {:induction false} DogSpawn(s: State, c: nat, id: nat)
    requires DogOk(s) && c in s.cbs && s.cbs[c] == Spawning && id !in s.gs && s.role.Handing?
    ensures DogOk(SpawnReceiver(s, c, id))
  {
  }

  lemma {:induction false} DogRearm(s: State, c: nat)
    requires DogOk(s) && c in s.cbs && s.cbs[c] == Rearming && !s.watch.armed
    ensures DogOk(Rearm(s, c))
  {
  }

  lemma {:induction false} DogLeave(s: State, c: nat)
    requires DogOk(s) && c in s.cbs && s.cbs[c] == Leaving
    ensures DogOk(Leave(s, c))
  {
    if Watched(s.cbs, s.watch.charge) && !(s.watch.charge != NoOne && s.watch.charge != Retired) {
      var d :| d in s.cbs && AboutToRecheck(s.cbs[d]);
      assert d in Leave(s, c).cbs;
    }
  }

  lemma {:induction false} DogFire(s: State, c: nat)
    requires DogOk(s) && s.watch.timer.Some? && c !in s.cbs
    ensures DogOk(FireTimer(s, c))
  {
  }

  // ------------------------------------------------------- requests and workers

  lemma {:induction false} WorkMove(k: Config, s: State, g: nat, next: Pc, t: State)
    requires WorkOk(k, s) && g in s.gs && Carried(s.gs[g]) == Carried(next)
    requires (IsWorker(s.gs[g]) <==> IsWorker(next)) || (s.life.closed && s.gs[g].Idle? && next.Exited?)
    requires t.gs == s.gs[g := next] && t.owner == s.owner && t.pool == s.pool && (s.life.closed ==> t.life.closed)
    requires s.gs[g] != Exited && (next.Blocked? ==> s.pool.started >= k.max)
    ensures WorkOk(k, t)
  {
  }

  lemma {:induction false} WorkAccept(k: Config, s: State, g: nat, m: nat)
    requires WorkOk(k, s) && Is(s.gs, g, Receiving) && m !in s.owner
    ensures WorkOk(k, Accept(s, g, m))
  {
  }

  lemma {:induction false} WorkFinish(k: Config, s: State, g: nat, m: nat, next: Pc, t: State)
    requires WorkOk(k, s) && g in s.gs && Carried(s.gs[g]) == Some(m) && Carried(next) == None
    requires IsWorker(s.gs[g]) <==> IsWorker(next)
    requires t.gs == s.gs[g := next] && t.owner == s.owner[m := None] && t.pool == s.pool && t.life == s.life
    ensures WorkOk(k, t)
  {
  }

  lemma {:induction false} OwnHandOver(gs: map<nat, Pc>, owner: map<nat, Option<nat>>, g: nat, w: nat, m: nat)
    requires OwnOk(gs, owner) && (Is(gs, g, Offering(m)) || Is(gs, g, Blocked(m))) && (w in gs ==> gs[w] == Idle)
    ensures OwnOk(gs[g := Receiving][w := Working(m)], owner[m := Some(w)])
  {
    assert Owns(owner, g, m);
  }

  lemma {:induction false} WorkersHandOver(k: Config, s: State, g: nat, w: nat, m: nat)
    requires WorkersOk(s.gs, s.pool.workers, s.pool.started, k.max, s.life.closed)
    requires (Is(s.gs, g, Offering(m)) || Is(s.gs, g, Blocked(m))) && Is(s.gs, w, Idle)
    ensures WorkersOk(s.gs[g := Receiving][w := Working(m)], s.pool.workers, s.pool.started, k.max, s.life.closed)
  {
  }

  lemma {:induction false} WorkersSpawn(k: Config, s: State, g: nat, w: nat, m: nat)
    requires WorkersOk(s.gs, s.pool.workers, s.pool.started, k.max, s.life.closed)
    requires (Is(s.gs, g, Offering(m)) || Is(s.gs, g, Blocked(m))) && w !in s.gs && 0 in s.gs && s.pool.started < k.max
    ensures WorkersOk(s.gs[g := Receiving][w := Working(m)], s.pool.workers + {w}, s.pool.started + 1, k.max, s.life.closed)
  {
  }

  lemma {:induction false} WorkHandOver(k: Config, s: State, g: nat, w: nat, m: nat, t: State)
    requires WorkOk(k, s) && (Is(s.gs, g, Offering(m)) || Is(s.gs, g, Blocked(m)))
    requires t.gs == s.gs[g := Receiving][w := Working(m)] && t.owner == s.owner[m := Some(w)] && t.life == s.life
    requires (Is(s.gs, w, Idle) && t.pool == s.pool) ||
             (w !in s.gs && 0 in s.gs && s.pool.started < k.max && t.pool == Pool(s.pool.workers + {w}, s.pool.started + 1))
    ensures WorkOk(k, t)
  {
    OwnHandOver(s.gs, s.owner, g, w, m);
    if w in s.gs {
      WorkersHandOver(k, s, g, w, m);
    } else {
      WorkersSpawn(k, s, g, w, m);
    }
  }

  lemma {:induction false} WorkSpawn(k: Config, s: State, c: nat, id: nat)
    requires WorkOk(k, s) && id !in s.gs
    ensures WorkOk(k, SpawnReceiver(s, c, id))
  {
  }
}
