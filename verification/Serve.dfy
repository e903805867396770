/** The Serve loop (rpc.go) as interleaved atomic steps: the receiver role, the slots of
    handlers in flight, the worker pool, inline handlers and the watchdog that moves the
    receiver role to a new goroutine when an inline handler runs too long. */
module Serve {
  import opened Wire

  /** What the receiver and the watchdog agree on: the number of an inline run and its phase. */
  datatype Phase = NoPhase | Running | Escalated | Done
  datatype Word = Word(epoch: nat, phase: Phase)

  /** Where a goroutine of the Serve call is. m is the request it carries, e the epoch of
      the inline run it is in. */
  datatype Pc =
    // the receiver role
    | Receiving
    | Received(m: nat)              // about to look at the number of slots taken
    | Acquiring(m: nat)             // dispatch: waits for a slot
    | Offering(m: nat)              // has a slot: offers m to an idle worker
    | Blocked(m: nat)               // every worker is started: waits for one
    | ReadingClock(m: nat)
    | StoringStart(m: nat, t: nat)
    | StoringWord(m: nat)
    // an inline run; the role may have moved on
    | LoadingArmed(m: nat, e: nat)
    | Arming(m: nat, e: nat)        // about to compare-and-swap armed
    | Scheduling(m: nat, e: nat)    // won: about to reset the timer
    | Handling(m: nat, e: nat)      // runs the handler, then tries to keep the role
    | Replying(m: nat)              // kept the role
    | Displaced(m: nat)             // lost it: about to release the slot
    | LateReply(m: nat)
    // a worker
    | Working(m: nat)
    | WorkerReply(m: nat)
    | Idle
    // the end of receiving
    | Stopping                      // about to set stopped
    | CheckingArmed                 // stopWatch loads armed
    | StoppingTimer                 // stopWatch stops the timer
    | SendingResult
    | Closing                       // about to close the work channel
    // Serve's own goroutine
    | AwaitingResult
    | Joining
    | Returned
    | Exited

  /** Where a callback of the watchdog timer is. */
  datatype Watch =
    | Top                           // about to load stopped
    | Clearing                      // saw stopped: about to clear armed
    | LoadingWord
    | ReadingNow(st: Word)
    | ReadingStart(st: Word, now: nat)
    | Rescheduling(wait: int)
    | TakingSlot(st: Word)          // escalate
    | Swapping(st: Word)            // has a slot: about to compare-and-swap the word
    | Undoing(st: Word)             // lost: about to give the slot back
    | Rechecking(st: Word)          // escalate failed: is st still current?
    | Spawning                      // won: about to start the new receiver
    | Disarming
    | LoadingStopped                // cleared armed: looks again
    | LoadingAgain
    | Rearming
    | Leaving

  datatype Role = By(g: nat) | Handing(c: nat) | Over(ender: nat)
  datatype Arm = NoOne | ByGo(g: nat) | ByTimer | ByCallback(c: nat) | Retired
  datatype Holder = G(g: nat) | C(c: nat)

  /** max is BufferCount, at least one; limit is the inline limit. */
  datatype Config = Config(max: nat, limit: nat)

  // Parts of the state. starts, won, holders, charge, role and owner are history: the start
  // of each inline run, the runs that are over, whose slots are taken, who keeps armed set,
  // who has the receiver role, and who carries each request received (None: it was answered
  // or released). quiet: stopWatch has returned. gs[0] is Serve's own goroutine.

  datatype Run = Run(word: Word, epoch: nat, startNs: nat, clock: nat, starts: map<nat, nat>, won: set<nat>)
  datatype Slots = Slots(taken: nat, holders: set<Holder>)
  datatype Watchdog = Watchdog(armed: bool, timer: Option<nat>, charge: Arm)
  datatype Pool = Pool(workers: set<nat>, started: nat)
  datatype Life = Life(stopped: bool, quiet: bool, closed: bool, results: nat)

  datatype State = State(
    gs: map<nat, Pc>, cbs: map<nat, Watch>, run: Run, slots: Slots, watch: Watchdog, pool: Pool, life: Life,
    role: Role, owner: map<nat, Option<nat>>)

  const Init := State(
    map[0 := Receiving], map[], Run(Word(0, NoPhase), 0, 0, 0, map[], {}), Slots(0, {}), Watchdog(false, None, NoOne),
    Pool({}, 0), Life(false, false, false, 0), By(0), map[])

  /** Resolves what a goroutine cannot decide alone. */
  datatype Choice =
    | Next
    | Get(m: nat)        // receiveQueued returns a request
    | Fail               // receiveQueued returns an error, or the context ends
    | Hand(w: nat)       // the worker w takes the request
    | Spawn(w: nat)      // no worker is idle: start w

  datatype Action =
    | Go(g: nat, choice: Choice)
    | Look(c: nat, id: nat)      // a step of the callback c; id names a new receiver
    | Fire(c: nat)               // the timer starts the callback c
    | Tick

  predicate Is(gs: map<nat, Pc>, g: nat, pc: Pc) {
    g in gs && gs[g] == pc
  }

  predicate NoneIdle(s: State) {
    forall w :: w in s.gs ==> s.gs[w] != Idle
  }

  predicate OthersExited(s: State) {
    forall g :: g in s.gs && g != 0 ==> s.gs[g] == Exited
  }

  // Steps of a goroutine. Finish: the request m leaves the server, answered or released.

  function Move(s: State, g: nat, pc: Pc): State {
    s.(gs := s.gs[g := pc])
  }

  function Accept(s: State, g: nat, m: nat): State {
    s.(gs := s.gs[g := Received(m)], owner := s.owner[m := Some(g)])
  }

  function Finish(s: State, g: nat, m: nat, pc: Pc): State {
    s.(gs := s.gs[g := pc], owner := s.owner[m := None])
  }

  function BeginInline(s: State, g: nat, m: nat): State {
    s.(gs := s.gs[g := ReadingClock(m)], run := s.run.(epoch := s.run.epoch + 1))
  }

  function TakeSlot(s: State, g: nat, pc: Pc): State {
    s.(gs := s.gs[g := pc], slots := s.slots.(taken := s.slots.taken + 1, holders := s.slots.holders + {G(g)}))
  }

  function FreeSlot(s: State, g: nat, pc: Pc): State
    requires s.slots.taken > 0
  {
    s.(gs := s.gs[g := pc], slots := s.slots.(taken := s.slots.taken - 1, holders := s.slots.holders - {G(g)}))
  }

  function HandOver(s: State, g: nat, w: nat, m: nat): State {
    s.(gs := s.gs[g := Receiving][w := Working(m)], owner := s.owner[m := Some(w)],
       slots := s.slots.(holders := s.slots.holders - {G(g)} + {G(w)}))
  }

  function SpawnWorker(s: State, g: nat, w: nat, m: nat): State {
    s.(gs := s.gs[g := Receiving][w := Working(m)], owner := s.owner[m := Some(w)],
       slots := s.slots.(holders := s.slots.holders - {G(g)} + {G(w)}),
       pool := s.pool.(workers := s.pool.workers + {w}, started := s.pool.started + 1))
  }

  /** run returns with an error: receiving ends. */
  function End(s: State, g: nat): State {
    s.(gs := s.gs[g := Stopping], role := Over(g))
  }

  /** The same while waiting for a slot: the request is released. */
  function EndAcquiring(s: State, g: nat, m: nat): State {
    s.(gs := s.gs[g := Stopping], role := Over(g), owner := s.owner[m := None])
  }

  /** The same while waiting for a worker: the slot is freed, too. */
  function EndBlocked(s: State, g: nat, m: nat): State
    requires s.slots.taken > 0
  {
    s.(gs := s.gs[g := Stopping], role := Over(g), owner := s.owner[m := None],
       slots := s.slots.(taken := s.slots.taken - 1, holders := s.slots.holders - {G(g)}))
  }

  function StoreStart(s: State, g: nat, m: nat, t: nat): State {
    s.(gs := s.gs[g := StoringWord(m)], run := s.run.(startNs := t, starts := s.run.starts[s.run.epoch := t]))
  }

  function StoreWord(s: State, g: nat, m: nat): State {
    s.(gs := s.gs[g := LoadingArmed(m, s.run.epoch)], run := s.run.(word := Word(s.run.epoch, Running)))
  }

  function SetArmed(s: State, g: nat, m: nat, e: nat): State {
    s.(gs := s.gs[g := Scheduling(m, e)], watch := s.watch.(armed := true, charge := ByGo(g)))
  }

  function Schedule(s: State, g: nat, m: nat, e: nat, limit: nat): State {
    s.(gs := s.gs[g := Handling(m, e)], watch := s.watch.(timer := Some(s.run.clock + limit), charge := ByTimer))
  }

  /** The handler returned in time: the receiver keeps the role. */
  function Keep(s: State, g: nat, m: nat, e: nat): State {
    s.(gs := s.gs[g := Replying(m)], run := s.run.(word := Word(e, Done), won := s.run.won + {e}))
  }

  function SetStopped(s: State, g: nat): State {
    s.(gs := s.gs[g := CheckingArmed], life := s.life.(stopped := true))
  }

  function AfterStop(g: nat): Pc {
    if g == 0 then Closing else SendingResult
  }

  function FoundDisarmed(s: State, g: nat): State {
    s.(gs := s.gs[g := AfterStop(g)], life := s.life.(quiet := true))
  }

  function StopTimer(s: State, g: nat): State {
    s.(gs := s.gs[g := AfterStop(g)], life := s.life.(quiet := true), watch := s.watch.(timer := None, charge := Retired))
  }

  function SendResult(s: State, g: nat): State {
    s.(gs := s.gs[g := Closing], life := s.life.(results := s.life.results + 1))
  }

  function CloseWork(s: State, g: nat): State {
    s.(gs := s.gs[g := if g == 0 then Joining else Exited], life := s.life.(closed := true))
  }

  function TakeResult(s: State, g: nat): State
    requires s.life.results > 0
  {
    s.(gs := s.gs[g := Joining], life := s.life.(results := s.life.results - 1))
  }

  /** Receiving and dispatch. */
  ghost predicate ReceiverStep(k: Config, s: State, g: nat, ch: Choice, t: State)
    requires g in s.gs
  {
    match s.gs[g]
    case Receiving => (ch.Get? && ch.m !in s.owner && t == Accept(s, g, ch.m)) || (ch == Fail && t == End(s, g))
    case Received(m) => if s.slots.taken != 0 then t == Move(s, g, Acquiring(m)) else t == BeginInline(s, g, m)
    case Acquiring(m) =>
      (ch == Next && s.slots.taken < k.max && t == TakeSlot(s, g, Offering(m))) || (ch == Fail && t == EndAcquiring(s, g, m))
    case Offering(m) =>
      (ch.Hand? && Is(s.gs, ch.w, Idle) && t == HandOver(s, g, ch.w, m)) ||
      (ch.Spawn? && NoneIdle(s) && s.pool.started < k.max && ch.w !in s.gs && t == SpawnWorker(s, g, ch.w, m)) ||
      (ch == Next && NoneIdle(s) && s.pool.started >= k.max && t == Move(s, g, Blocked(m)))
    case Blocked(m) =>
      (ch.Hand? && Is(s.gs, ch.w, Idle) && t == HandOver(s, g, ch.w, m)) ||
      (ch == Fail && s.slots.taken > 0 && t == EndBlocked(s, g, m))
    case _ => false
  }

  /** The start of an inline run, up to the handler. */
  ghost predicate StartStep(k: Config, s: State, g: nat, ch: Choice, t: State)
    requires g in s.gs
  {
    match s.gs[g]
    case ReadingClock(m) => t == Move(s, g, StoringStart(m, s.run.clock))
    case StoringStart(m, now) => t == StoreStart(s, g, m, now)
    case StoringWord(m) => t == StoreWord(s, g, m)
    case LoadingArmed(m, e) => t == Move(s, g, if s.watch.armed then Handling(m, e) else Arming(m, e))
    case Arming(m, e) => if s.watch.armed then t == Move(s, g, Handling(m, e)) else t == SetArmed(s, g, m, e)
    case Scheduling(m, e) => t == Schedule(s, g, m, e, k.limit)
    case _ => false
  }

  /** The end of an inline run. */
  ghost predicate ReplyStep(k: Config, s: State, g: nat, ch: Choice, t: State)
    requires g in s.gs
  {
    match s.gs[g]
    case Handling(m, e) => if s.run.word == Word(e, Running) then t == Keep(s, g, m, e) else t == Move(s, g, Displaced(m))
    case Replying(m) => t == Finish(s, g, m, Receiving)
    case Displaced(m) => s.slots.taken > 0 && t == FreeSlot(s, g, LateReply(m))
    case LateReply(m) => t == Finish(s, g, m, if g == 0 then AwaitingResult else Exited)
    case _ => false
  }

  /** A worker. */
  ghost predicate WorkerStep(k: Config, s: State, g: nat, ch: Choice, t: State)
    requires g in s.gs
  {
    match s.gs[g]
    case Working(m) => s.slots.taken > 0 && t == FreeSlot(s, g, WorkerReply(m))
    case WorkerReply(m) => t == Finish(s, g, m, Idle)
    case Idle => s.life.closed && t == Move(s, g, Exited)
    case _ => false
  }

  /** The end of receiving. */
  ghost predicate StopStep(k: Config, s: State, g: nat, ch: Choice, t: State)
    requires g in s.gs
  {
    match s.gs[g]
    case Stopping => t == SetStopped(s, g)
    case CheckingArmed => if s.watch.armed then t == Move(s, g, StoppingTimer) else t == FoundDisarmed(s, g)
    case StoppingTimer => if s.watch.timer.Some? then t == StopTimer(s, g) else t == Move(s, g, CheckingArmed)
    case _ => false
  }

  /** The result of Serve and its return. */
  ghost predicate ReturnStep(k: Config, s: State, g: nat, ch: Choice, t: State)
    requires g in s.gs
  {
    match s.gs[g]
    case SendingResult => s.life.results < 1 && t == SendResult(s, g)
    case Closing => t == CloseWork(s, g)
    case AwaitingResult => s.life.results > 0 && t == TakeResult(s, g)
    case Joining => OthersExited(s) && t == Move(s, g, Returned)
    case _ => false
  }

  /** One atomic step of goroutine g from s to t. */
  ghost predicate GoStep(k: Config, s: State, g: nat, ch: Choice, t: State) {
    g in s.gs &&
    (ReceiverStep(k, s, g, ch, t) || StartStep(k, s, g, ch, t) || ReplyStep(k, s, g, ch, t) ||
     WorkerStep(k, s, g, ch, t) || StopStep(k, s, g, ch, t) || ReturnStep(k, s, g, ch, t))
  }

  // Steps of a callback.

  function Turn(s: State, c: nat, pc: Watch): State {
    s.(cbs := s.cbs[c := pc])
  }

  /** armed is cleared: at the end, or before the last look at the state word. */
  function Disarm(s: State, c: nat, pc: Watch): State {
    s.(cbs := s.cbs[c := pc], watch := s.watch.(armed := false, charge := NoOne))
  }

  function Reschedule(s: State, c: nat, wait: int): State {
    s.(cbs := s.cbs[c := Leaving],
       watch := s.watch.(timer := Some(if wait > 0 then s.run.clock + wait else s.run.clock), charge := ByTimer))
  }

  function BorrowSlot(s: State, c: nat, st: Word): State {
    s.(cbs := s.cbs[c := Swapping(st)], slots := s.slots.(taken := s.slots.taken + 1, holders := s.slots.holders + {C(c)}))
  }

  function ReturnSlot(s: State, c: nat, st: Word): State
    requires s.slots.taken > 0
  {
    s.(cbs := s.cbs[c := Rechecking(st)], slots := s.slots.(taken := s.slots.taken - 1, holders := s.slots.holders - {C(c)}))
  }

  /** The handler ran too long: its goroutine loses the role and gets the slot. */
  function Escalate(s: State, c: nat, st: Word): State {
    s.(cbs := s.cbs[c := Spawning], run := s.run.(word := Word(st.epoch, Escalated), won := s.run.won + {st.epoch}),
       role := Handing(c),
       slots := s.slots.(holders := s.slots.holders - {C(c)} + (if s.role.By? then {G(s.role.g)} else {})))
  }

  function SpawnReceiver(s: State, c: nat, id: nat): State {
    s.(cbs := s.cbs[c := Top], gs := s.gs[id := Receiving], role := By(id))
  }

  function Rearm(s: State, c: nat): State {
    s.(cbs := s.cbs[c := Top], watch := s.watch.(armed := true, charge := ByCallback(c)))
  }

  function Leave(s: State, c: nat): State {
    s.(cbs := s.cbs - {c})
  }

  /** A callback looks at the shared words and moves on. */
  ghost predicate ReadStep(k: Config, s: State, c: nat, t: State)
    requires c in s.cbs
  {
    match s.cbs[c]
    case Top => t == Turn(s, c, if s.life.stopped then Clearing else LoadingWord)
    case LoadingWord => t == Turn(s, c, if s.run.word.phase == Running then ReadingNow(s.run.word) else Disarming)
    case ReadingNow(st) => t == Turn(s, c, ReadingStart(st, s.run.clock))
    case ReadingStart(st, now) =>
      var wait := k.limit - (now - s.run.startNs);
      t == Turn(s, c, if wait > 0 then Rescheduling(wait) else TakingSlot(st))
    case Rechecking(st) => t == Turn(s, c, if s.run.word == st then Rescheduling(k.limit) else Top)
    case LoadingStopped => t == Turn(s, c, if s.life.stopped then Leaving else LoadingAgain)
    case LoadingAgain => t == Turn(s, c, if s.run.word.phase == Running then Rearming else Leaving)
    case _ => false
  }

  /** escalate. */
  ghost predicate EscalateStep(k: Config, s: State, c: nat, id: nat, t: State)
    requires c in s.cbs
  {
    match s.cbs[c]
    case TakingSlot(st) => if s.slots.taken < k.max then t == BorrowSlot(s, c, st) else t == Turn(s, c, Rechecking(st))
    case Swapping(st) => if s.run.word == st then t == Escalate(s, c, st) else t == Turn(s, c, Undoing(st))
    case Undoing(st) => s.slots.taken > 0 && t == ReturnSlot(s, c, st)
    case Spawning => id !in s.gs && t == SpawnReceiver(s, c, id)
    case _ => false
  }

  /** A callback sets or clears armed, reschedules the timer, or returns. */
  ghost predicate ArmStep(s: State, c: nat, t: State)
    requires c in s.cbs
  {
    match s.cbs[c]
    case Clearing => t == Disarm(s, c, Leaving)
    case Rescheduling(wait) => t == Reschedule(s, c, wait)
    case Disarming => t == Disarm(s, c, LoadingStopped)
    case Rearming => if s.watch.armed then t == Turn(s, c, Leaving) else t == Rearm(s, c)
    case Leaving => t == Leave(s, c)
    case _ => false
  }

  /** One atomic step of the callback c from s to t. */
  ghost predicate LookStep(k: Config, s: State, c: nat, id: nat, t: State) {
    c in s.cbs && (ReadStep(k, s, c, t) || EscalateStep(k, s, c, id, t) || ArmStep(s, c, t))
  }

  function FireTimer(s: State, c: nat): State {
    s.(watch := s.watch.(timer := None, charge := ByCallback(c)), cbs := s.cbs[c := Top])
  }

  ghost predicate Step(k: Config, s: State, a: Action, t: State) {
    match a
    case Go(g, ch) => GoStep(k, s, g, ch, t)
    case Look(c, id) => LookStep(k, s, c, id, t)
    case Fire(c) => s.watch.timer.Some? && s.watch.timer.value <= s.run.clock && c !in s.cbs && t == FireTimer(s, c)
    case Tick => t == s.(run := s.run.(clock := s.run.clock + 1))
  }
}
