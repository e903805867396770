/** Stream admission (advanced_stream.go, advanced_control.go): requests that arrive
    before ListenStreams are held, accepted streams pass a bounded control queue and a
    bounded accept queue, and one slot per stream reserves room in the latter. One
    action is one critical section of controlMu, one channel operation or one send. */
module AcceptSlots {
  import opened Wire

  /** A job of the control sender. */
  datatype Job = Accept(conn: nat) | Reply

  /** The control sender goroutine. */
  datatype Sender =
    | Idle
    | Sending(job: Job)
    | Sent(conn: nat)        // the accept is on the ring: about to queue the stream
    | Failed(conn: nat)      // the accept could not be sent
    | Forgotten(conn: nat)   // ... and the stream was removed: about to free the slot

  /** The receive path inside handleConnCreate. */
  datatype Dispatcher =
    | Free
    | Registered(conn: nat)  // the stream is registered, a slot is wanted
    | HasSlot(conn: nat)     // about to queue the accept
    | Dropped(conn: nat)     // found no room for the accept
    | Unregistered           // ... and the stream was removed: about to free the slot

  datatype Config = Config(queueSize: nat, controlSize: nat, primary: bool, hold: bool)

  datatype State = State(
    listening: bool,
    held: seq<nat>,
    streams: set<nat>,
    slots: nat,              // tokens in acceptSlots
    control: seq<Job>,       // ctrlQueue
    sender: Sender,
    acceptCh: seq<nat>,
    acceptors: nat,          // AcceptStream calls that took a stream and not yet freed its slot
    dispatcher: Dispatcher,
    overflows: nat,          // held requests admitCreateLocked refused for want of a slot
    admitted: seq<nat>,      // history: streams whose accept was queued and did not fail
    taken: seq<nat>)         // history: streams AcceptStream returned

  const Init := State(false, [], {}, 0, [], Idle, [], 0, Free, 0, [], [])

  datatype Action =
    | Create(conn: nat)      // handleConnCreate up to the end of its critical section
    | TakeSlot
    | NoSlot                 // no room (drop, fail) or the context ended (block)
    | QueueAccept
    | Unregister
    | FreeDropped
    | Listen                 // ListenStreams: listening is set and the held are admitted
    | StopListening
    | Expire(i: nat)         // the grace period of a held request ends
    | ReleaseHeld(refuse: bool)  // Shutdown and link failure refuse, Close discards
    | Refuse                 // a refusal of the drop policy or of a request, at any time
    | SenderTake
    | SenderSend(ok: bool)
    | SenderQueue            // acceptCh <- stream
    | SenderForget
    | SenderFree
    | AcceptTake             // AcceptStream receives a stream
    | AcceptFree             // ... and frees its slot
    | CloseStream(conn: nat)

  // ------------------------------------------------------------ connection IDs

  /** nextConnectionID for generator value n: None means "take the next value". */
  function ConnectionId(primary: bool, n: nat): Option<nat>
    requires n < TWO_64
  {
    if primary then
      var id := (2 * n) % TWO_64;
      if id != 0 then Some(id) else None
    else
      Some((2 * n - 1) % TWO_64)
  }

  function PeerOwns(primary: bool, conn: nat): bool {
    conn != 0 && ((conn % 2 == 1) == primary)
  }

  /** Both sides can open streams at the same time: an endpoint recognizes every ID the
      peer allocates and none of its own, whatever the generator values. */
  lemma {:induction false} ConnectionIdsDoNotCollide(primary: bool, m: nat, n: nat)
    requires m < TWO_64 && n < TWO_64
    ensures
      var mine, theirs := ConnectionId(primary, m), ConnectionId(!primary, n);
      (mine.Some? ==> mine.value != 0 && !PeerOwns(primary, mine.value)) &&
      (theirs.Some? ==> PeerOwns(primary, theirs.value)) &&
      (mine.Some? && theirs.Some? ==> mine.value != theirs.value)
  {
    Parity(m);
    Parity(n);
  }

  lemma {:induction false} Parity(n: nat)
    requires n < TWO_64
    ensures ((2 * n) % TWO_64) % 2 == 0 && ((2 * n - 1) % TWO_64) % 2 == 1
  {
    if n == 0 {
      assert (2 * n - 1) % TWO_64 == TWO_64 - 1;
    } else if 2 * n >= TWO_64 {
      assert (2 * n) % TWO_64 == 2 * n - TWO_64;
      if 2 * n > TWO_64 {
        assert (2 * n - 1) % TWO_64 == 2 * n - 1 - TWO_64;
      }
    }
  }

  // ------------------------------------------------------------------- actions

  function QueueJob(g: Config, s: State, j: Job): State {
    s.(control := if |s.control| < g.controlSize then s.control + [j] else s.control)
  }

  /** The control queue after up to n refusals, as far as there is room. */
  function WithReplies(g: Config, control: seq<Job>, n: nat): seq<Job>
    decreases n
  {
    if n == 0 || |control| >= g.controlSize then control else WithReplies(g, control + [Reply], n - 1)
  }

  /** admitCreateLocked. */
  function Admit(g: Config, s: State, conn: nat): State {
    if conn in s.streams || !PeerOwns(g.primary, conn) then
      QueueJob(g, s, Reply)
    else if s.slots >= g.queueSize then
      QueueJob(g, s.(overflows := s.overflows + 1), Reply)
    else if |s.control| < g.controlSize then
      s.(slots := s.slots + 1, streams := s.streams + {conn}, control := s.control + [Accept(conn)],
         admitted := s.admitted + [conn])
    else
      s
  }

  /** admitHeldLocked, one request after the other. */
  function AdmitAll(g: Config, s: State, held: seq<nat>): State
    decreases |held|
  {
    if held == [] then s else AdmitAll(g, Admit(g, s, held[0]), held[1..])
  }

  predicate Enabled(g: Config, s: State, a: Action) {
    match a
    case Create(_) => s.dispatcher.Free?
    case TakeSlot => s.dispatcher.Registered? && s.slots < g.queueSize
    case NoSlot => s.dispatcher.Registered?
    case QueueAccept => s.dispatcher.HasSlot?
    case Unregister => s.dispatcher.Dropped?
    case FreeDropped => s.dispatcher.Unregistered?
    case Listen => !s.listening
    case StopListening => true
    case Expire(i) => i < |s.held|
    case ReleaseHeld(_) => true
    case Refuse => true
    case SenderTake => s.sender.Idle? && s.control != []
    case SenderSend(_) => s.sender.Sending?
    case SenderQueue => s.sender.Sent? && |s.acceptCh| < g.queueSize
    case SenderForget => s.sender.Failed?
    case SenderFree => s.sender.Forgotten?
    case AcceptTake => s.acceptCh != []
    case AcceptFree => s.acceptors > 0
    case CloseStream(_) => true
  }

  /** releaseAcceptSlot: never waits, also if there is no token. */
  function FreeSlot(s: State): State {
    s.(slots := if s.slots > 0 then s.slots - 1 else 0)
  }

  function Without(conns: seq<nat>, i: nat): seq<nat> {
    if i < |conns| then conns[..i] + conns[i + 1..] else conns
  }

  function Apply(g: Config, s: State, a: Action): State
    requires Enabled(g, s, a)
  {
    match a
    case Create(conn) =>
      if !s.listening then
        if g.hold && |s.held| + s.slots < g.queueSize then s.(held := s.held + [conn]) else QueueJob(g, s, Reply)
      else if conn in s.streams || !PeerOwns(g.primary, conn) then
        QueueJob(g, s, Reply)
      else
        s.(streams := s.streams + {conn}, dispatcher := Registered(conn))
    case TakeSlot => s.(slots := s.slots + 1, dispatcher := HasSlot(s.dispatcher.conn))
    case NoSlot => s.(streams := s.streams - {s.dispatcher.conn}, dispatcher := Free)
    case QueueAccept =>
      var conn := s.dispatcher.conn;
      if |s.control| < g.controlSize then
        s.(control := s.control + [Accept(conn)], admitted := s.admitted + [conn], dispatcher := Free)
      else
        s.(dispatcher := Dropped(conn))
    case Unregister => s.(streams := s.streams - {s.dispatcher.conn}, dispatcher := Unregistered)
    case FreeDropped => FreeSlot(s).(dispatcher := Free)
    case Listen => AdmitAll(g, s.(listening := true, held := []), s.held)
    case StopListening => s.(listening := false)
    case Expire(i) => QueueJob(g, s.(held := s.held[..i] + s.held[i + 1..]), Reply)
    case ReleaseHeld(refuse) => s.(held := [], control := if refuse then WithReplies(g, s.control, |s.held|) else s.control)
    case Refuse => QueueJob(g, s, Reply)
    case SenderTake => s.(sender := Sending(s.control[0]), control := s.control[1..])
    case SenderSend(ok) =>
      (match s.sender.job
       case Reply => s.(sender := Idle)
       case Accept(conn) => s.(sender := if ok then Sent(conn) else Failed(conn)))
    case SenderQueue =>
      s.(acceptCh := s.acceptCh + [s.sender.conn], sender := Idle)
    case SenderForget => s.(streams := s.streams - {s.sender.conn}, sender := Forgotten(s.sender.conn))
    case SenderFree =>
      FreeSlot(s).(sender := Idle, admitted := Without(s.admitted, |s.taken| + |s.acceptCh|))
    case AcceptTake =>
      s.(acceptCh := s.acceptCh[1..], acceptors := s.acceptors + 1, taken := s.taken + [s.acceptCh[0]])
    case AcceptFree => FreeSlot(s).(acceptors := s.acceptors - 1)
    case CloseStream(conn) => s.(streams := s.streams - {conn})
  }

  // ----------------------------------------------------------------- invariant

  /** The streams whose accept waits in the control queue, in order. */
  function Accepts(jobs: seq<Job>): seq<nat> {
    if jobs == [] then [] else (if jobs[0].Accept? then [jobs[0].conn] else []) + Accepts(jobs[1..])
  }

  /** The stream the control sender works on. */
  function InSender(p: Sender): seq<nat> {
    match p
    case Idle => []
    case Sending(job) => if job.Accept? then [job.conn] else []
    case Sent(conn) => [conn]
    case Failed(conn) => [conn]
    case Forgotten(conn) => [conn]
  }

  function InDispatcher(d: Dispatcher): nat {
    if d.HasSlot? || d.Dropped? || d.Unregistered? then 1 else 0
  }

  ghost predicate Counted(g: Config, s: State) {
    // every slot is accounted for
    s.slots == |Accepts(s.control)| + |InSender(s.sender)| + |s.acceptCh| + s.acceptors + InDispatcher(s.dispatcher) &&
    s.slots <= g.queueSize &&
    // held requests leave room for themselves
    (s.held != [] ==> |s.held| + s.slots <= g.queueSize && !s.listening && s.dispatcher.Free?) &&
    // a held request never fails for want of a slot
    s.overflows == 0
  }

  /** Streams reach AcceptStream in the order in which they were admitted. */
  ghost predicate InOrder(s: State) {
    s.admitted == s.taken + s.acceptCh + InSender(s.sender) + Accepts(s.control)
  }

  ghost predicate Invariant(g: Config, s: State) {
    Counted(g, s) && InOrder(s)
  }

  lemma {:induction false} AcceptsAppend(jobs: seq<Job>, j: Job)
    ensures Accepts(jobs + [j]) == Accepts(jobs) + if j.Accept? then [j.conn] else []
  {
    if jobs == [] {
      assert jobs + [j] == [j];
      assert [j][1..] == [];
    } else {
      AcceptsAppend(jobs[1..], j);
      assert (jobs + [j])[1..] == jobs[1..] + [j];
    }
  }

  /** One held request, with room for it. */
  lemma {:induction false} AdmitKeeps(g: Config, s: State, conn: nat)
    requires Invariant(g, s) && s.held == [] && s.slots < g.queueSize
    ensures Invariant(g, Admit(g, s, conn))
    ensures
      var t := Admit(g, s, conn);
      t.slots <= s.slots + 1 && t.held == [] && t.listening == s.listening && t.dispatcher == s.dispatcher
  {
    AcceptsAppend(s.control, Reply);
    AcceptsAppend(s.control, Accept(conn));
  }

  lemma {:induction false} AdmitAllKeeps(g: Config, s: State, held: seq<nat>)
    requires Invariant(g, s) && s.held == [] && s.slots + |held| <= g.queueSize
    ensures Invariant(g, AdmitAll(g, s, held))
    decreases |held|
  {
    if held != [] {
      AdmitKeeps(g, s, held[0]);
      AdmitAllKeeps(g, Admit(g, s, held[0]), held[1..]);
    }
  }

  /** The receive path. */
  lemma {:induction false} DispatcherKeeps(g: Config, s: State, a: Action)
    requires Invariant(g, s) && Enabled(g, s, a)
    requires a.Create? || a.TakeSlot? || a.NoSlot? || a.QueueAccept? || a.Unregister? || a.FreeDropped?
    ensures Invariant(g, Apply(g, s, a))
  {
    AcceptsAppend(s.control, Reply);
    if a.QueueAccept? {
      AcceptsAppend(s.control, Accept(s.dispatcher.conn));
    }
  }

  /** The control sender. */
  lemma {:induction false} SenderKeeps(g: Config, s: State, a: Action)
    requires Invariant(g, s) && Enabled(g, s, a)
    requires a.SenderSend? || a.SenderForget?
    ensures Invariant(g, Apply(g, s, a))
  {
  }

  lemma {:induction false} SenderTakeKeeps(g: Config, s: State)
    requires Invariant(g, s) && Enabled(g, s, SenderTake)
    ensures Invariant(g, Apply(g, s, SenderTake))
  {
  }

  lemma {:induction false} SenderQueueKeeps(g: Config, s: State)
    requires Invariant(g, s) && Enabled(g, s, SenderQueue)
    ensures Invariant(g, Apply(g, s, SenderQueue))
  {
  }

  lemma {:induction false} SenderFreeKeeps(g: Config, s: State)
    requires Invariant(g, s) && Enabled(g, s, SenderFree)
    ensures Invariant(g, Apply(g, s, SenderFree))
  {
    FreeKeepsOrder(s, FreeSlot(s).(sender := Idle));
  }

  lemma {:induction false} FreeKeepsOrder(s: State, t: State)
    requires InOrder(s) && s.sender.Forgotten? && t.sender.Idle?
    requires t.taken == s.taken && t.acceptCh == s.acceptCh && t.control == s.control
    ensures InOrder(t.(admitted := Without(s.admitted, |s.taken| + |s.acceptCh|)))
  {
    LeaveOut(s.taken + s.acceptCh, s.sender.conn, Accepts(s.control), s.admitted);
  }

  lemma {:induction false} LeaveOut(a: seq<nat>, x: nat, b: seq<nat>, all: seq<nat>)
    requires all == a + [x] + b
    ensures Without(all, |a|) == a + [] + b
  {
  }

  /** AcceptStream. */
  lemma {:induction false} AcceptKeeps(g: Config, s: State, a: Action)
    requires Invariant(g, s) && Enabled(g, s, a) && (a.AcceptTake? || a.AcceptFree?)
    ensures Invariant(g, Apply(g, s, a))
  {
    if a.AcceptTake? {
      assert s.taken + [s.acceptCh[0]] + s.acceptCh[1..] == s.taken + s.acceptCh;
    }
  }

  lemma {:induction false} ListenKeeps(g: Config, s: State)
    requires Invariant(g, s) && Enabled(g, s, Listen)
    ensures Invariant(g, Apply(g, s, Listen))
  {
    AdmitAllKeeps(g, s.(listening := true, held := []), s.held);
  }

  lemma {:induction false} RepliesAcceptNothing(g: Config, control: seq<Job>, n: nat)
    ensures Accepts(WithReplies(g, control, n)) == Accepts(control)
    decreases n
  {
    if n > 0 && |control| < g.controlSize {
      AcceptsAppend(control, Reply);
      RepliesAcceptNothing(g, control + [Reply], n - 1);
    }
  }

  /** Everything else. */
  lemma {:induction false} OthersKeep(g: Config, s: State, a: Action)
    requires Invariant(g, s) && Enabled(g, s, a)
    requires a.StopListening? || a.Expire? || a.ReleaseHeld? || a.Refuse? || a.CloseStream?
    ensures Invariant(g, Apply(g, s, a))
  {
    AcceptsAppend(s.control, Reply);
    RepliesAcceptNothing(g, s.control, |s.held|);
  }

  lemma {:induction false} StepKeepsInvariant(g: Config, s: State, a: Action)
    requires Invariant(g, s) && Enabled(g, s, a)
    ensures Invariant(g, Apply(g, s, a))
  {
    if a.Create? || a.TakeSlot? || a.NoSlot? || a.QueueAccept? || a.Unregister? || a.FreeDropped? {
      DispatcherKeeps(g, s, a);
    } else if a.SenderSend? || a.SenderForget? {
      SenderKeeps(g, s, a);
    } else if a.SenderTake? {
      SenderTakeKeeps(g, s);
    } else if a.SenderQueue? {
      SenderQueueKeeps(g, s);
    } else if a.SenderFree? {
      SenderFreeKeeps(g, s);
    } else if a.AcceptTake? || a.AcceptFree? {
      AcceptKeeps(g, s, a);
    } else if a.Listen? {
      ListenKeeps(g, s);
    } else {
      OthersKeep(g, s, a);
    }
  }

  // -------------------------------------------------------------------- runs

  ghost predicate IsRun(g: Config, states: seq<State>, actions: seq<Action>) {
    |states| == |actions| + 1 && states[0] == Init && forall i: nat :: i < |actions| ==> StepAt(g, states, actions, i)
  }

  ghost predicate StepAt(g: Config, states: seq<State>, actions: seq<Action>, i: nat)
    requires i < |actions| && |states| == |actions| + 1
  {
    Enabled(g, states[i], actions[i]) && states[i + 1] == Apply(g, states[i], actions[i])
  }

  /** What the slots are for. */
  ghost predicate Safe(g: Config, s: State) {
    // the control sender never waits for AcceptStream
    (s.sender.Sent? ==> Enabled(g, s, SenderQueue)) &&
    // whoever frees a slot finds its token
    (s.acceptors > 0 || s.sender.Forgotten? || s.dispatcher.Unregistered? ==> s.slots > 0) &&
    // every held request finds a slot when ListenStreams admits it
    |s.held| + s.slots <= g.queueSize && s.overflows == 0 &&
    // AcceptStream returns the streams in the order in which they were admitted
    s.taken <= s.admitted
  }

  lemma {:induction false} EveryRunIsSafe(g: Config, states: seq<State>, actions: seq<Action>, n: nat)
    requires IsRun(g, states, actions) && n < |states|
    ensures Invariant(g, states[n]) && Safe(g, states[n])
  {
    if n > 0 {
      EveryRunIsSafe(g, states, actions, n - 1);
      assert StepAt(g, states, actions, n - 1);
      StepKeepsInvariant(g, states[n - 1], actions[n - 1]);
    }
  }

  // ------------------------------------------------------------ held requests

  /** What becomes of held requests while the control queue has room: the first request of
      the peer for a new stream is accepted, every other request is refused. */
  function HeldJobs(g: Config, streams: set<nat>, conns: seq<nat>): seq<Job>
    decreases |conns|
  {
    if conns == [] then []
    else if conns[0] in streams || !PeerOwns(g.primary, conns[0]) then [Reply] + HeldJobs(g, streams, conns[1..])
    else [Accept(conns[0])] + HeldJobs(g, streams + {conns[0]}, conns[1..])
  }

  function Room(g: Config, s: State): nat {
    if |s.control| < g.controlSize then g.controlSize - |s.control| else 0
  }

  /** The state after jobs were put on the control queue. */
  function WithJobs(s: State, jobs: seq<Job>): State {
    var conns := Accepts(jobs);
    s.(slots := s.slots + |conns|, streams := s.streams + (set c | c in conns), control := s.control + jobs,
       admitted := s.admitted + conns)
  }

  lemma {:induction false} NoJobs(s: State)
    ensures WithJobs(s, []) == s
  {
    assert s.streams + (set c | c in Accepts([])) == s.streams;
  }

  /** With a full control queue nothing is admitted. */
  lemma {:induction false} FullQueueAdmitsNothing(g: Config, s: State, held: seq<nat>)
    requires s.slots + |held| <= g.queueSize && (held == [] || Room(g, s) == 0)
    ensures AdmitAll(g, s, held) == s
    decreases |held|
  {
    if held != [] {
      FullQueueAdmitsNothing(g, s, held[1..]);
    }
  }

  lemma {:induction false} AcceptsJoin(j: Job, jobs: seq<Job>)
    ensures Accepts([j] + jobs) == Accepts([j]) + Accepts(jobs)
  {
    AcceptsFirst(j, jobs);
    AcceptsFirst(j, []);
    assert [j] + [] == [j];
  }

  lemma {:induction false} StreamsJoin(streams: set<nat>, one: seq<nat>, more: seq<nat>)
    ensures streams + (set c | c in one) + (set c | c in more) == streams + (set c | c in one + more)
  {
  }

  lemma {:induction false} OneMoreJob(s: State, j: Job, jobs: seq<Job>)
    ensures WithJobs(WithJobs(s, [j]), jobs) == WithJobs(s, [j] + jobs)
  {
    AcceptsJoin(j, jobs);
    StreamsJoin(s.streams, Accepts([j]), Accepts(jobs));
    assert s.control + [j] + jobs == s.control + ([j] + jobs);
    assert s.admitted + Accepts([j]) + Accepts(jobs) == s.admitted + (Accepts([j]) + Accepts(jobs));
  }

  /** One held request that finds a slot and room in the control queue. */
  lemma {:induction false} AdmitTakes(g: Config, s: State, conn: nat)
    requires s.slots < g.queueSize && Room(g, s) > 0
    ensures Admit(g, s, conn) == WithJobs(s, HeldJobs(g, s.streams, [conn]))
  {
    assert HeldJobs(g, s.streams, [conn][1..]) == [];
    if conn in s.streams || !PeerOwns(g.primary, conn) {
      assert [Reply][1..] == [] && Accepts([Reply]) == [];
      assert s.streams + (set c | c in Accepts([Reply])) == s.streams && s.admitted + [] == s.admitted;
    } else {
      assert [Accept(conn)][1..] == [] && Accepts([Accept(conn)]) == [conn];
      assert (set c | c in [conn]) == {conn};
    }
  }

  /** ListenStreams goes through the held requests from the oldest on until the control queue is
      full: it accepts those of the peer for new streams and refuses the others. */
  lemma {:induction false} HeldRequestsAreAdmittedInOrder(g: Config, s: State, held: seq<nat>)
    requires s.slots + |held| <= g.queueSize
    ensures AdmitAll(g, s, held) == WithJobs(s, HeldJobs(g, s.streams, held[..Min(|held|, Room(g, s))]))
    decreases |held|
  {
    if held == [] || Room(g, s) == 0 {
      FullQueueAdmitsNothing(g, s, held);
      NoJobs(s);
    } else {
      var t, rest := Admit(g, s, held[0]), held[1..];
      AdmitTakes(g, s, held[0]);
      var jobs := HeldJobs(g, t.streams, rest[..Min(|rest|, Room(g, t))]);
      HeldRequestsAreAdmittedInOrder(g, t, rest);
      var first := held[..Min(|held|, Room(g, s))];
      assert first[1..] == rest[..Min(|rest|, Room(g, t))];
      OneMoreJob(s, HeldJobs(g, s.streams, [held[0]])[0], jobs);
    }
  }

  predicate Subsequence(a: seq<nat>, b: seq<nat>)
    decreases |b|
  {
    a == [] || (b != [] && ((a[0] == b[0] && Subsequence(a[1..], b[1..])) || Subsequence(a, b[1..])))
  }

  predicate NoRepeats(a: seq<nat>) {
    a == [] || (a[0] !in a[1..] && NoRepeats(a[1..]))
  }

  /** The streams that are accepted are the new ones of the peer, once each and in arrival order. */
  lemma {:induction false} AcceptedAreNew(g: Config, streams: set<nat>, conns: seq<nat>)
    ensures
      var accepted := Accepts(HeldJobs(g, streams, conns));
      Subsequence(accepted, conns) && NoRepeats(accepted) &&
      forall c :: c in accepted <==> c in conns && PeerOwns(g.primary, c) && c !in streams
    decreases |conns|
  {
    if conns != [] {
      var c, rest := conns[0], conns[1..];
      assert conns == [c] + rest;
      if c in streams || !PeerOwns(g.primary, c) {
        AcceptedAreNew(g, streams, rest);
        AcceptsFirst(Reply, HeldJobs(g, streams, rest));
      } else {
        AcceptedAreNew(g, streams + {c}, rest);
        AcceptsFirst(Accept(c), HeldJobs(g, streams + {c}, rest));
      }
    }
  }

  lemma {:induction false} AcceptsFirst(j: Job, jobs: seq<Job>)
    ensures
      if j.Accept? then
        var all := Accepts([j] + jobs);
        all == [j.conn] + Accepts(jobs) && all[1..] == Accepts(jobs)
      else
        Accepts([j] + jobs) == Accepts(jobs)
  {
    assert ([j] + jobs)[1..] == jobs;
    assert [] + Accepts(jobs) == Accepts(jobs);
  }

  /** In every run: what ListenStreams does with the requests that are held by then. */
  lemma {:induction false} ListenAdmitsHeld(g: Config, states: seq<State>, actions: seq<Action>, n: nat)
    requires IsRun(g, states, actions) && n < |actions| && actions[n] == Listen
    ensures
      var s := states[n];
      states[n + 1] ==
      WithJobs(s.(listening := true, held := []), HeldJobs(g, s.streams, s.held[..Min(|s.held|, Room(g, s))]))
  {
    EveryRunIsSafe(g, states, actions, n);
    assert StepAt(g, states, actions, n);
    HeldRequestsAreAdmittedInOrder(g, states[n].(listening := true, held := []), states[n].held);
  }

  // -------------------------------------------------------------- stream requests

  /** The refusal of a request is queued if the control queue has room; nothing else changes. */
  predicate Refuses(g: Config, s: State, t: State) {
    t == s.(control := t.control) && t.control == if Room(g, s) > 0 then s.control + [Reply] else s.control
  }

  /** A request that arrives while nobody listens is held behind the others if they and the slots
      taken leave room for it and holding is not disabled; otherwise it is refused. */
  lemma {:induction false} RequestBeforeListen(g: Config, states: seq<State>, actions: seq<Action>, n: nat, conn: nat)
    requires IsRun(g, states, actions) && n < |actions| && actions[n] == Create(conn) && !states[n].listening
    ensures
      var s, t := states[n], states[n + 1];
      if g.hold && |s.held| + s.slots < g.queueSize then t == s.(held := s.held + [conn]) else Refuses(g, s, t)
  {
    assert StepAt(g, states, actions, n);
  }

  /** A listening endpoint refuses an ID that is in use or that the peer may not allocate; for any
      other it registers the stream and looks for a slot. */
  lemma {:induction false} RequestWhileListening(g: Config, states: seq<State>, actions: seq<Action>, n: nat, conn: nat)
    requires IsRun(g, states, actions) && n < |actions| && actions[n] == Create(conn) && states[n].listening
    ensures
      var s, t := states[n], states[n + 1];
      if conn in s.streams || !PeerOwns(g.primary, conn) then Refuses(g, s, t)
      else t == s.(streams := s.streams + {conn}, dispatcher := Registered(conn))
  {
    assert StepAt(g, states, actions, n);
  }

  /** Once held, a request leaves only when it is admitted, expires or is released. */
  lemma {:induction false} HeldStays(g: Config, states: seq<State>, actions: seq<Action>, n: nat)
    requires IsRun(g, states, actions) && n < |actions|
    requires !actions[n].Listen? && !actions[n].Expire? && !actions[n].ReleaseHeld?
    ensures states[n].held <= states[n + 1].held
  {
    assert StepAt(g, states, actions, n);
  }

  /** A registered stream is admitted in turn: it takes a slot, then its accept is queued behind the
      others, or, if the control queue is full, it is removed again and its slot freed. */
  lemma {:induction false} RegisteredIsAdmitted(g: Config, states: seq<State>, actions: seq<Action>, n: nat)
    requires IsRun(g, states, actions) && n < |actions| && actions[n].QueueAccept?
    ensures
      var s, t := states[n], states[n + 1];
      s.dispatcher.HasSlot? &&
      var conn := s.dispatcher.conn;
      if Room(g, s) > 0 then
        t == s.(control := s.control + [Accept(conn)], admitted := s.admitted + [conn], dispatcher := Free)
      else
        t == s.(dispatcher := Dropped(conn)) && InDispatcher(t.dispatcher) == 1
  {
    assert StepAt(g, states, actions, n);
  }
}
