/** The life of a stream in every run of AcceptSlots: who is registered and why, what becomes of
    held requests, and which streams AcceptStream may return. */
module AcceptStreams {
  import opened Wire
  import opened AcceptSlots

  // ------------------------------------------------------------------- identifiers

  /** The generator values an endpoint uses before the identifiers of its side are used up. */
  predicate IsGenerated(primary: bool, n: nat) {
    0 < n <= if primary then TWO_64 / 2 - 1 else TWO_64 / 2
  }

  /** Each side allocates upwards, and every identifier of its side exactly once. */
  lemma {:induction false} IdentifiersAreFresh(primary: bool, m: nat, n: nat)
    requires IsGenerated(primary, m) && IsGenerated(primary, n)
    ensures
      var i, j := ConnectionId(primary, m), ConnectionId(primary, n);
      i.Some? && j.Some? && (m < n <==> i.value < j.value)
  {
    IdOf(primary, m);
    IdOf(primary, n);
  }

  lemma {:induction false} IdentifiersAreAllUsed(primary: bool, conn: nat) returns (n: nat)
    requires 0 < conn < TWO_64 && !PeerOwns(primary, conn)
    ensures IsGenerated(primary, n) && ConnectionId(primary, n) == Some(conn)
  {
    n := if primary then conn / 2 else (conn + 1) / 2;
    IdOf(primary, n);
  }

  lemma {:induction false} IdOf(primary: bool, n: nat)
    requires IsGenerated(primary, n)
    ensures ConnectionId(primary, n) == Some(if primary then 2 * n else 2 * n - 1)
  {
  }

  // ------------------------------------------------------------- registered streams

  /** The stream the receive path is about to accept. */
  function InHand(d: Dispatcher): set<nat> {
    if d.Registered? || d.HasSlot? || d.Dropped? then {d.conn} else {}
  }

  /** The streams on the way to AcceptStream. */
  function Underway(s: State): set<nat> {
    (set c | c in Accepts(s.control)) + (set c | c in s.acceptCh) +
    (if s.sender.Forgotten? then {} else set c | c in InSender(s.sender))
  }

  /** A registered stream is being accepted, on its way to AcceptStream, or was returned by it. */
  ghost predicate Accounted(s: State) {
    s.streams <= InHand(s.dispatcher) + Underway(s) + (set c | c in s.taken)
  }

  lemma {:induction false} AccountedSmall(g: Config, s: State, a: Action)
    requires Accounted(s) && Enabled(g, s, a)
    requires a.TakeSlot? || a.NoSlot? || a.Unregister? || a.FreeDropped? || a.StopListening? || a.CloseStream? || a.AcceptFree?
    ensures Accounted(Apply(g, s, a))
  {
  }

  lemma {:induction false} SetAppend(a: seq<nat>, x: nat)
    ensures (set c | c in a + [x]) == (set c | c in a) + {x}
  {
  }

  lemma {:induction false} AccountedRequest(g: Config, s: State, a: Action)
    requires Accounted(s) && Enabled(g, s, a) && (a.Create? || a.Expire? || a.Refuse?)
    ensures Accounted(Apply(g, s, a))
  {
    AcceptsAppend(s.control, Reply);
  }

  lemma {:induction false} AccountedAccept(g: Config, s: State)
    requires Accounted(s) && Enabled(g, s, QueueAccept)
    ensures Accounted(Apply(g, s, QueueAccept))
  {
    AcceptsAppend(s.control, Accept(s.dispatcher.conn));
  }

  lemma {:induction false} AccountedRelease(g: Config, s: State, refuse: bool)
    requires Accounted(s)
    ensures Accounted(Apply(g, s, ReleaseHeld(refuse)))
  {
    RepliesAcceptNothing(g, s.control, |s.held|);
  }

  lemma {:induction false} AccountedAdmit(g: Config, s: State, conn: nat)
    requires Accounted(s)
    ensures Accounted(Admit(g, s, conn))
  {
    AdmitAdds(g, s, conn);
    var t := Admit(g, s, conn);
    if t.streams != s.streams {
      SetAppend(Accepts(s.control), conn);
    }
  }

  /** Whatever Admit does, only streams with an accept in the queue are new. */
  lemma {:induction false} AdmitAdds(g: Config, s: State, conn: nat)
    ensures
      var t := Admit(g, s, conn);
      t == s.(slots := t.slots, streams := t.streams, control := t.control, overflows := t.overflows, admitted := t.admitted) &&
      ((t.streams == s.streams && Accepts(t.control) == Accepts(s.control)) ||
       (t.streams == s.streams + {conn} && Accepts(t.control) == Accepts(s.control) + [conn]))
  {
    AcceptsAppend(s.control, Accept(conn));
    AcceptsAppend(s.control, Reply);
  }

  lemma {:induction false} AccountedAll(g: Config, s: State, held: seq<nat>)
    requires Accounted(s)
    ensures Accounted(AdmitAll(g, s, held))
    decreases |held|
  {
    if held != [] {
      AccountedAdmit(g, s, held[0]);
      AccountedAll(g, Admit(g, s, held[0]), held[1..]);
    }
  }

  lemma {:induction false} AccountedSender(g: Config, s: State, a: Action)
    requires Accounted(s) && Enabled(g, s, a)
    requires a.SenderTake? || a.SenderSend? || a.SenderQueue? || a.SenderForget? || a.SenderFree?
    ensures Accounted(Apply(g, s, a))
  {
    if a.SenderTake? {
      assert Accepts(s.control) == (if s.control[0].Accept? then [s.control[0].conn] else []) + Accepts(s.control[1..]);
    }
  }

  lemma {:induction false} AccountedTake(g: Config, s: State)
    requires Accounted(s) && Enabled(g, s, AcceptTake)
    ensures Accounted(Apply(g, s, AcceptTake))
  {
    SetAppend(s.taken, s.acceptCh[0]);
    assert s.acceptCh == [s.acceptCh[0]] + s.acceptCh[1..];
  }

  lemma {:induction false} AccountedStep(g: Config, s: State, a: Action)
    requires Accounted(s) && Enabled(g, s, a)
    ensures Accounted(Apply(g, s, a))
  {
    if a.Create? || a.Expire? || a.Refuse? {
      AccountedRequest(g, s, a);
    } else if a.QueueAccept? {
      AccountedAccept(g, s);
    } else if a.ReleaseHeld? {
      AccountedRelease(g, s, a.refuse);
    } else if a.Listen? {
      AccountedAll(g, s.(listening := true, held := []), s.held);
    } else if a.SenderTake? || a.SenderSend? || a.SenderQueue? || a.SenderForget? || a.SenderFree? {
      AccountedSender(g, s, a);
    } else if a.AcceptTake? {
      AccountedTake(g, s);
    } else {
      AccountedSmall(g, s, a);
    }
  }

  /** No stream leaks: in every run the registered streams are those being accepted, those on their
      way to AcceptStream and those it has returned, except the ones that were closed. */
  lemma {:induction false} NoStreamLeaks(g: Config, states: seq<State>, actions: seq<Action>, n: nat)
    requires IsRun(g, states, actions) && n < |states|
    ensures Accounted(states[n])
  {
    if n > 0 {
      NoStreamLeaks(g, states, actions, n - 1);
      assert StepAt(g, states, actions, n - 1);
      AccountedStep(g, states[n - 1], actions[n - 1]);
    }
  }

  /** The streams a step removes: the one it closes, or the one that could not be accepted. */
  function Removes(s: State, a: Action): set<nat> {
    if a.CloseStream? then {a.conn}
    else if (a.NoSlot? || a.Unregister?) && InHand(s.dispatcher) != {} then {s.dispatcher.conn}
    else if a.SenderForget? && s.sender.Failed? then {s.sender.conn}
    else {}
  }

  lemma {:induction false} AdmitAllRegisters(g: Config, s: State, held: seq<nat>)
    ensures s.streams <= AdmitAll(g, s, held).streams
    decreases |held|
  {
    if held != [] {
      AdmitAllRegisters(g, Admit(g, s, held[0]), held[1..]);
    }
  }

  /** In every run a stream is removed exactly when it is closed, when it finds no slot or no room in
      the control queue, or when its accept could not be sent. */
  lemma {:induction false} StreamsLeave(g: Config, states: seq<State>, actions: seq<Action>, n: nat, conn: nat)
    requires IsRun(g, states, actions) && n < |actions| && conn in states[n].streams
    ensures conn !in states[n + 1].streams <==> conn in Removes(states[n], actions[n])
  {
    assert StepAt(g, states, actions, n);
    if actions[n].Listen? {
      AdmitAllRegisters(g, states[n].(listening := true, held := []), states[n].held);
    }
  }

  // ------------------------------------------------------------------ sent accepts

  /** The accept of conn was sent at step i. */
  ghost predicate SentAt(states: seq<State>, actions: seq<Action>, i: nat, conn: nat)
    requires |states| == |actions| + 1
  {
    i < |actions| && actions[i] == SenderSend(true) && states[i].sender == Sending(Accept(conn))
  }

  lemma {:induction false} AcceptChStep(g: Config, s: State, a: Action, conn: nat)
    requires Enabled(g, s, a)
    ensures
      var t := Apply(g, s, a);
      conn in t.taken || conn in t.acceptCh ==>
        conn in s.taken || conn in s.acceptCh || (a.SenderQueue? && s.sender == Sent(conn))
  {
    if a.Listen? {
      AdmitAllQueuesNothing(g, s.(listening := true, held := []), s.held);
    }
  }

  lemma {:induction false} AdmitAllQueuesNothing(g: Config, s: State, held: seq<nat>)
    ensures var t := AdmitAll(g, s, held); t.taken == s.taken && t.acceptCh == s.acceptCh && t.sender == s.sender
    decreases |held|
  {
    if held != [] {
      AdmitAllQueuesNothing(g, Admit(g, s, held[0]), held[1..]);
    }
  }

  lemma {:induction false} SentStep(g: Config, s: State, a: Action, conn: nat)
    requires Enabled(g, s, a) && Apply(g, s, a).sender == Sent(conn)
    ensures s.sender == Sent(conn) || (a == SenderSend(true) && s.sender == Sending(Accept(conn)))
  {
    if a.Listen? {
      AdmitAllQueuesNothing(g, s.(listening := true, held := []), s.held);
    }
  }

  lemma {:induction false} SentWasSent(g: Config, states: seq<State>, actions: seq<Action>, n: nat, conn: nat) returns (i: nat)
    requires IsRun(g, states, actions) && n < |states| && states[n].sender == Sent(conn)
    ensures i < n && SentAt(states, actions, i, conn)
  {
    assert n > 0 && StepAt(g, states, actions, n - 1);
    SentStep(g, states[n - 1], actions[n - 1], conn);
    if states[n - 1].sender == Sent(conn) {
      i := SentWasSent(g, states, actions, n - 1, conn);
    } else {
      i := n - 1;
    }
  }

  /** AcceptStream returns only streams whose accept went out to the peer before. */
  lemma {:induction false} AcceptedWasAnswered(g: Config, states: seq<State>, actions: seq<Action>, n: nat, conn: nat)
    returns (i: nat)
    requires IsRun(g, states, actions) && n < |states| && (conn in states[n].taken || conn in states[n].acceptCh)
    ensures i < n && SentAt(states, actions, i, conn)
  {
    assert n > 0 && StepAt(g, states, actions, n - 1);
    AcceptChStep(g, states[n - 1], actions[n - 1], conn);
    if conn in states[n - 1].taken || conn in states[n - 1].acceptCh {
      i := AcceptedWasAnswered(g, states, actions, n - 1, conn);
    } else {
      i := SentWasSent(g, states, actions, n - 1, conn);
    }
  }

  // -------------------------------------------------------------------- listening

  lemma {:induction false} ListeningStep(g: Config, s: State, a: Action)
    requires Enabled(g, s, a)
    ensures Apply(g, s, a).listening <==> a.Listen? || (s.listening && !a.StopListening?)
  {
    if a.Listen? {
      AdmitAllListens(g, s.(listening := true, held := []), s.held);
    }
  }

  lemma {:induction false} AdmitAllListens(g: Config, s: State, held: seq<nat>)
    ensures AdmitAll(g, s, held).listening == s.listening
    decreases |held|
  {
    if held != [] {
      AdmitAllListens(g, Admit(g, s, held[0]), held[1..]);
    }
  }

  ghost predicate NotStoppedSince(actions: seq<Action>, i: nat, n: nat)
    requires n <= |actions|
  {
    i < n && actions[i].Listen? && forall j: nat :: i < j < n ==> !actions[j].StopListening?
  }

  /** A link listens exactly if ListenStreams was called and it has not stopped since. */
  lemma {:induction false} ListensSinceListen(g: Config, states: seq<State>, actions: seq<Action>, n: nat)
    requires IsRun(g, states, actions) && n < |states|
    ensures states[n].listening <==> exists i: nat :: NotStoppedSince(actions, i, n)
  {
    if n > 0 {
      ListensSinceListen(g, states, actions, n - 1);
      assert StepAt(g, states, actions, n - 1);
      ListeningStep(g, states[n - 1], actions[n - 1]);
      if actions[n - 1].Listen? {
        assert NotStoppedSince(actions, n - 1, n);
      } else if states[n].listening {
        var i: nat :| NotStoppedSince(actions, i, n - 1);
        assert NotStoppedSince(actions, i, n);
      } else if !actions[n - 1].StopListening? {
        assert forall i: nat :: NotStoppedSince(actions, i, n) ==> NotStoppedSince(actions, i, n - 1);
      }
    }
  }

  // ------------------------------------------------------------- the end of holding

  lemma {:induction false} RepliesUpToRoom(g: Config, control: seq<Job>, n: nat)
    ensures
      var room := if |control| < g.controlSize then g.controlSize - |control| else 0;
      WithReplies(g, control, n) == control + seq(Min(n, room), _ => Reply)
    decreases n
  {
    if n > 0 && |control| < g.controlSize {
      RepliesUpToRoom(g, control + [Reply], n - 1);
    }
  }

  /** The end of holding: a request whose grace period is over leaves alone and is refused; a link that
      shuts down or fails refuses all of them as far as the control queue has room, a closed one none. */
  lemma {:induction false} HeldIsRefused(g: Config, states: seq<State>, actions: seq<Action>, n: nat)
    requires IsRun(g, states, actions) && n < |actions|
    ensures
      var s, t, a := states[n], states[n + 1], actions[n];
      (a.Expire? ==>
         a.i < |s.held| && |t.held| == |s.held| - 1 && Refuses(g, s.(held := t.held), t) &&
         t.held[..a.i] == s.held[..a.i] && t.held[a.i..] == s.held[a.i + 1..]) &&
      (a.ReleaseHeld? ==>
         t == s.(held := [], control := s.control + seq(if a.refuse then Min(|s.held|, Room(g, s)) else 0, _ => Reply)))
  {
    assert StepAt(g, states, actions, n);
    RepliesUpToRoom(g, states[n].control, |states[n].held|);
  }

  // ------------------------------------------------------------------- who may wait

  /** Nobody waits except a stream for a slot, and then every slot is taken; and a slot is taken only
      for streams AcceptStream has not returned. */
  lemma {:induction false} OnlySlotsAreWaitedFor(g: Config, states: seq<State>, actions: seq<Action>, n: nat)
    requires IsRun(g, states, actions) && n < |states|
    ensures
      var s := states[n];
      (s.sender.Idle? && s.control == []) || Enabled(g, s, SenderTake) || Enabled(g, s, SenderSend(true)) ||
      Enabled(g, s, SenderQueue) || Enabled(g, s, SenderForget) || Enabled(g, s, SenderFree)
    ensures
      var s := states[n];
      s.dispatcher.Free? || Enabled(g, s, TakeSlot) || Enabled(g, s, QueueAccept) || Enabled(g, s, Unregister) ||
      Enabled(g, s, FreeDropped) ||
      (s.dispatcher.Registered? &&
       g.queueSize == |Accepts(s.control)| + |InSender(s.sender)| + |s.acceptCh| + s.acceptors)
  {
    EveryRunIsSafe(g, states, actions, n);
  }
}
