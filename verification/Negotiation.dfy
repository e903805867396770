/** Protocol negotiation (advanced.go): both endpoints may ask, or one asks and the other
    waits, over two FIFO queues. One action is one send, one receive or one state store. */
module Negotiation {
  import opened Wire

  /** A 64-bit feature word as the set of its bits. */
  type Features = set<nat>

  const MESSAGES: nat := 0
  const REQUEST_RESPONSE: nat := 1
  const CANCEL: nat := 2
  const METADATA: nat := 3
  const SUPPORTED: Features := {MESSAGES, REQUEST_RESPONSE, CANCEL, METADATA}
  const SINCE_1_1: Features := {CANCEL, METADATA}

  const MAJOR: nat := 1
  const MINOR: nat := 1

  datatype Version = Version(major: nat, minor: nat) {
    predicate Valid() {
      major < 256 && minor < 256
    }

    function Encode(): nat {
      major * 256 + minor
    }
  }

  function DecodeVersion(v: nat): Version {
    Version((v / 256) % 256, v % 256)
  }

  lemma {:induction false} VersionRoundTrip(v: Version)
    requires v.Valid()
    ensures DecodeVersion(v.Encode()) == v
  {
  }

  datatype Packet =
    | Negotiate(version: nat, features: Features)
    | Ack(version: nat, features: Features)
    | Error
    | Tombstone
    | Data

  datatype Role = Primary | Secondary

  function Other(r: Role): Role {
    if r == Primary then Secondary else Primary
  }

  /** NegotiateProtocol(version, features) or waitForNegotiation(allowed). */
  datatype Mode = Asks(version: Version, features: Features) | Waits(allowed: Features) {
    function Offered(): Features {
      if Asks? then features else allowed
    }

    predicate Valid() {
      Asks? ==> version.Valid()
    }
  }

  datatype Cause = EndedEarly | Rejected | Unexpected

  datatype Status =
    | NotStarted
    | Begun                                          // Negotiating, request not sent yet
    | Reading                                        // Negotiating, waiting for a packet
    | Answered(version: Version, features: Features) // sent the ack, about to store the result
    | Negotiated(version: Version, features: Features)
    | Failed(cause: Cause)

  /** An endpoint. asked, answer, read and log are history: whether its request is on the
      queue, what it answered, how many packets (without tombstones) it consumed, and what
      it sent (without tombstones). */
  datatype Endpoint = Endpoint(
    status: Status, mode: Option<Mode>, asked: bool, answer: Option<Packet>, read: nat, log: seq<Packet>)

  const Fresh := Endpoint(NotStarted, None, false, None, 0, [])

  datatype State = State(primary: Endpoint, secondary: Endpoint, toPrimary: seq<Packet>, toSecondary: seq<Packet>) {
    function Ep(r: Role): Endpoint {
      if r == Primary then primary else secondary
    }

    function Inbox(r: Role): seq<Packet> {
      if r == Primary then toPrimary else toSecondary
    }

    /** r's record becomes e, its inbox mine, and the peer's inbox theirs. */
    function Put(r: Role, e: Endpoint, mine: seq<Packet>, theirs: seq<Packet>): State {
      if r == Primary then State(e, secondary, mine, theirs) else State(primary, e, theirs, mine)
    }
  }

  const Init := State(Fresh, Fresh, [], [])

  /** The acknowledgment of a request, or None if its major version is not ours. */
  function Answer(requested: Version, asked: Features, allowed: Features): Option<(Version, Features)> {
    if requested.major != MAJOR then
      None
    else
      var version := Version(requested.major, Min(requested.minor, MINOR));
      var common := asked * SUPPORTED * allowed;
      Some((version, if version.minor < 1 then common - SINCE_1_1 else common))
  }

  /** The check of a received acknowledgment. */
  predicate AckValid(version: Version, ack: Features, asked: Features) {
    version.major == MAJOR && version.minor <= MINOR && ack <= asked * SUPPORTED
  }

  datatype Action =
    | Start(who: Role, mode: Mode)
    | SendRequest(who: Role, ok: bool)
    | Receive(who: Role, ok: bool)   // ok: the answer, if there is one, could be sent
    | Store(who: Role)               // setNegotiated after the ack was sent
    | GiveUp(who: Role)              // the context ends, the link is closed
    | SendData(who: Role)
    | SendTombstone(who: Role)

  predicate Enabled(s: State, a: Action) {
    var me := s.Ep(a.who);
    match a
    case Start(_, mode) => me.status == NotStarted && mode.Valid()
    case SendRequest(_, _) => me.status == Begun && me.mode.Some? && me.mode.value.Asks?
    case Receive(_, _) => me.status == Reading && me.mode.Some? && s.Inbox(a.who) != []
    case Store(_) => me.status.Answered?
    case GiveUp(_) => me.status == Begun || me.status == Reading
    case SendData(_) => me.status.Negotiated?
    case SendTombstone(_) => true
  }

  /** What the endpoint who does with packet p: its new record and what it sends. */
  function Handle(who: Role, me: Endpoint, p: Packet, ok: bool): (Endpoint, seq<Packet>)
    requires me.mode.Some?
  {
    var next := if p.Tombstone? then me else me.(read := me.read + 1);
    var mode := me.mode.value;
    match p
    case Tombstone => (next, [])
    case Ack(v, f) =>
      if mode.Waits? then
        (next.(status := Failed(Unexpected)), [])
      else if AckValid(DecodeVersion(v), f, mode.features) then
        (next.(status := Negotiated(DecodeVersion(v), f)), [])
      else
        (next.(status := Failed(Rejected)), [])
    case Negotiate(v, f) =>
      if mode.Asks? && who == Primary then
        (next, [])
      else
        var ans := Answer(DecodeVersion(v), f, mode.Offered());
        if ans.None? then
          var reply := if ok then [Error] else [];
          (next.(status := Failed(Rejected), answer := if ok then Some(Error) else me.answer, log := me.log + reply), reply)
        else if ok then
          var ack := Ack(ans.value.0.Encode(), ans.value.1);
          (next.(status := Answered(ans.value.0, ans.value.1), answer := Some(ack), log := me.log + [ack]), [ack])
        else
          (next.(status := Failed(EndedEarly)), [])
    case Error => (next.(status := Failed(Rejected)), [])
    case Data => (next.(status := Failed(Unexpected)), [])
  }

  function Apply(s: State, a: Action): State
    requires Enabled(s, a)
  {
    var me, mine, theirs := s.Ep(a.who), s.Inbox(a.who), s.Inbox(Other(a.who));
    match a
    case Start(who, mode) =>
      s.Put(who, me.(mode := Some(mode), status := if mode.Asks? then Begun else Reading), mine, theirs)
    case SendRequest(who, ok) =>
      if !ok then
        s.Put(who, me.(status := Failed(EndedEarly)), mine, theirs)
      else
        var p := Negotiate(me.mode.value.version.Encode(), me.mode.value.features);
        s.Put(who, me.(status := Reading, asked := true, log := me.log + [p]), mine, theirs + [p])
    case Receive(who, ok) =>
      var (next, sent) := Handle(who, me, mine[0], ok);
      s.Put(who, next, mine[1..], theirs + sent)
    case Store(who) =>
      s.Put(who, me.(status := Negotiated(me.status.version, me.status.features)), mine, theirs)
    case GiveUp(who) =>
      s.Put(who, me.(status := Failed(EndedEarly)), mine, theirs)
    case SendData(who) =>
      s.Put(who, me.(log := me.log + [Data]), mine, theirs + [Data])
    case SendTombstone(who) =>
      s.Put(who, me, mine, theirs + [Tombstone])
  }

  // ----------------------------------------------------------------- invariant

  function Strip(q: seq<Packet>): seq<Packet> {
    if q == [] then [] else if q[0].Tombstone? then Strip(q[1..]) else [q[0]] + Strip(q[1..])
  }

  lemma {:induction false} StripCons(p: Packet, q: seq<Packet>)
    ensures Strip([p] + q) == (if p.Tombstone? then [] else [p]) + Strip(q)
  {
    assert ([p] + q)[1..] == q;
  }

  lemma {:induction false} StripAppend(a: seq<Packet>, b: seq<Packet>)
    ensures Strip(a + b) == Strip(a) + Strip(b)
  {
    if a == [] {
      assert a + b == b;
    } else {
      var t := a[1..];
      StripAppend(t, b);
      StripCons(a[0], t);
      StripCons(a[0], t + b);
      assert [a[0]] + t == a && [a[0]] + (t + b) == a + b;
    }
  }

  /** The negotiation packets an endpoint has sent, in order. */
  function Sent(e: Endpoint): seq<Packet>
  {
    (if e.asked && e.mode.Some? && e.mode.value.Asks? then
       [Negotiate(e.mode.value.version.Encode(), e.mode.value.features)] else []) +
    (if e.answer.Some? then [e.answer.value] else [])
  }

  /** The endpoint's own bookkeeping. */
  ghost predicate SelfOk(who: Role, e: Endpoint) {
    (e.status == NotStarted ==> e == Fresh) &&
    (e.status != NotStarted ==> e.mode.Some? && e.mode.value.Valid()) &&
    (e.asked ==> e.mode.Some? && e.mode.value.Asks?) &&
    (e.status == Begun ==> e.mode.value.Asks? && !e.asked && e.answer.None? && e.read == 0) &&
    (e.status == Reading ==> e.answer.None? && (e.mode.value.Asks? ==> e.asked)) &&
    |Sent(e)| <= |e.log| && e.log[..|Sent(e)|] == Sent(e) &&
    (forall i :: |Sent(e)| <= i < |e.log| ==> e.log[i] == Data) &&
    (|e.log| > |Sent(e)| ==> e.status.Negotiated?) &&
    (who == Primary && e.answer.Some? ==> e.mode.value.Waits?)
  }

  /** e answered the request of its peer f. */
  ghost predicate AnswerOk(e: Endpoint, f: Endpoint) {
    e.answer.Some? ==>
      e.mode.Some? && f.asked && f.mode.Some? && f.mode.value.Asks? && e.read == 1 &&
      var ans := Answer(f.mode.value.version, f.mode.value.features, e.mode.value.Offered());
      e.answer.value == if ans.Some? then Ack(ans.value.0.Encode(), ans.value.1) else Error
  }

  /** e got its result by answering, or by reading everything f sent, its ack last. */
  ghost predicate ResultOk(e: Endpoint, f: Endpoint) {
    (e.status.Answered? ==> e.answer == Some(Ack(e.status.version.Encode(), e.status.features))) &&
    (e.status.Answered? || e.status.Negotiated? ==> e.status.version.Valid()) &&
    (e.status.Negotiated? ==>
       e.answer == Some(Ack(e.status.version.Encode(), e.status.features)) ||
       (f.answer == Some(Ack(e.status.version.Encode(), e.status.features)) && e.read >= |Sent(f)|))
  }

  ghost predicate ReadOk(who: Role, e: Endpoint, f: Endpoint, inbox: seq<Packet>) {
    e.read <= |f.log| && Strip(inbox) == f.log[e.read..] &&
    (e.status == Reading ==>
       if who == Primary && e.mode.Some? && e.mode.value.Asks? then e.read <= 1 && (e.read == 1 ==> f.asked) else e.read == 0) &&
    (e.status == NotStarted ==> e.read == 0)
  }

  /** Failures have a reason outside the protocol: the caller ended the attempt, or one of
      the requests has another major version. */
  ghost predicate FailureOk(e: Endpoint, f: Endpoint) {
    (e.status.Failed? ==> e.status.cause != Unexpected) &&
    (e.status == Failed(Rejected) ==>
       (e.mode.Some? && e.mode.value.Asks? && e.mode.value.version.major != MAJOR) ||
       (f.mode.Some? && f.mode.value.Asks? && f.mode.value.version.major != MAJOR))
  }

  /** Everything about the endpoint e in relation to its peer f. */
  ghost predicate SideOk(who: Role, e: Endpoint, f: Endpoint, inbox: seq<Packet>) {
    SelfOk(who, e) && AnswerOk(e, f) && ResultOk(e, f) && ReadOk(who, e, f, inbox) && FailureOk(e, f) &&
    // at most one side answers
    !(e.answer.Some? && f.answer.Some?)
  }

  ghost predicate PairOk(who: Role, e: Endpoint, f: Endpoint, mine: seq<Packet>, theirs: seq<Packet>) {
    SideOk(who, e, f, mine) && SideOk(Other(who), f, e, theirs)
  }

  ghost predicate Invariant(s: State) {
    PairOk(Primary, s.primary, s.secondary, s.toPrimary, s.toSecondary)
  }

  // --------------------------------------------------------------------- steps

  lemma {:induction false} AppendToLog(f: Endpoint, log: seq<Packet>, inbox: seq<Packet>, read: nat, p: Packet)
    requires read <= |log| && Strip(inbox) == log[read..] && !p.Tombstone?
    ensures Strip(inbox + [p]) == (log + [p])[read..]
  {
    StripAppend(inbox, [p]);
    assert Strip([p]) == [p] by { assert [p][1..] == []; }
  }

  lemma {:induction false} StartKeeps(who: Role, e: Endpoint, f: Endpoint, mine: seq<Packet>, theirs: seq<Packet>, mode: Mode)
    requires PairOk(who, e, f, mine, theirs) && e.status == NotStarted && mode.Valid()
    ensures PairOk(who, e.(mode := Some(mode), status := if mode.Asks? then Begun else Reading), f, mine, theirs)
  {
  }

  lemma {:induction false} SendRequestKeeps(who: Role, e: Endpoint, f: Endpoint, mine: seq<Packet>, theirs: seq<Packet>)
    requires PairOk(who, e, f, mine, theirs) && e.status == Begun
    ensures
      var p := Negotiate(e.mode.value.version.Encode(), e.mode.value.features);
      PairOk(who, e.(status := Reading, asked := true, log := e.log + [p]), f, mine, theirs + [p])
  {
    var p := Negotiate(e.mode.value.version.Encode(), e.mode.value.features);
    AppendToLog(f, e.log, theirs, f.read, p);
  }

  lemma {:induction false} StoreKeeps(who: Role, e: Endpoint, f: Endpoint, mine: seq<Packet>, theirs: seq<Packet>)
    requires PairOk(who, e, f, mine, theirs) && e.status.Answered?
    ensures PairOk(who, e.(status := Negotiated(e.status.version, e.status.features)), f, mine, theirs)
  {
  }

  lemma {:induction false} GiveUpKeeps(who: Role, e: Endpoint, f: Endpoint, mine: seq<Packet>, theirs: seq<Packet>)
    requires PairOk(who, e, f, mine, theirs) && (e.status == Begun || e.status == Reading)
    ensures PairOk(who, e.(status := Failed(EndedEarly)), f, mine, theirs)
  {
  }

  lemma {:induction false} LogGrows(who: Role, e: Endpoint)
    requires SelfOk(who, e) && e.status.Negotiated?
    ensures SelfOk(who, e.(log := e.log + [Data])) && Sent(e.(log := e.log + [Data])) == Sent(e)
  {
    var g := e.(log := e.log + [Data]);
    assert g.log[..|Sent(g)|] == e.log[..|Sent(e)|];
  }

  lemma {:induction false} SendDataKeeps(who: Role, e: Endpoint, f: Endpoint, mine: seq<Packet>, theirs: seq<Packet>)
    requires PairOk(who, e, f, mine, theirs) && e.status.Negotiated?
    ensures PairOk(who, e.(log := e.log + [Data]), f, mine, theirs + [Data])
  {
    AppendToLog(f, e.log, theirs, f.read, Data);
    LogGrows(who, e);
  }

  lemma {:induction false} SendTombstoneKeeps(who: Role, e: Endpoint, f: Endpoint, mine: seq<Packet>, theirs: seq<Packet>)
    requires PairOk(who, e, f, mine, theirs)
    ensures PairOk(who, e, f, mine, theirs + [Tombstone])
  {
    StripAppend(theirs, [Tombstone]);
    assert Strip([Tombstone]) == [] by { assert [Tombstone][1..] == []; }
  }

  lemma {:induction false} StripHead(q: seq<Packet>)
    requires q != []
    ensures q[0].Tombstone? ==> Strip(q) == Strip(q[1..])
    ensures !q[0].Tombstone? ==> Strip(q) != [] && Strip(q)[0] == q[0] && Strip(q)[1..] == Strip(q[1..])
  {
  }

  /** What a negotiating endpoint can find on its queue: the peer's request, as the first
      packet, or the peer's answer to its own request, as the last. */
  lemma {:induction false} WhatArrives(who: Role, e: Endpoint, f: Endpoint, mine: seq<Packet>, theirs: seq<Packet>)
    requires PairOk(who, e, f, mine, theirs) && e.status == Reading && mine != [] && !mine[0].Tombstone?
    ensures e.read < |f.log| && mine[0] == f.log[e.read] && Strip(mine[1..]) == f.log[e.read + 1..]
    ensures e.read < |Sent(f)| && mine[0] == Sent(f)[e.read]
    ensures mine[0].Negotiate? ==>
      e.read == 0 && f.asked && f.mode.value.Asks? && f.mode.value.version.Valid() &&
      mine[0] == Negotiate(f.mode.value.version.Encode(), f.mode.value.features)
    ensures mine[0].Ack? || mine[0].Error? ==>
      f.answer == Some(mine[0]) && e.asked && e.mode.value.Asks? && e.read + 1 == |Sent(f)|
    ensures mine[0].Negotiate? || mine[0].Ack? || mine[0].Error?
  {
    StripHead(mine);
    assert f.log[e.read..][1..] == f.log[e.read + 1..];
    assert mine[0] == f.log[e.read];
    if e.read < |Sent(f)| {
      assert Sent(f)[e.read] == f.log[..|Sent(f)|][e.read];
    }
  }

  /** Passing over the peer's request, or failing after a packet. */
  lemma {:induction false} SkipKeeps(who: Role, e: Endpoint, f: Endpoint, mine: seq<Packet>, theirs: seq<Packet>)
    requires PairOk(who, e, f, mine, theirs) && e.status == Reading && mine != [] && mine[0].Negotiate?
    requires who == Primary && e.mode.value.Asks?
    ensures PairOk(who, e.(read := e.read + 1), f, mine[1..], theirs)
  {
    WhatArrives(who, e, f, mine, theirs);
  }

  lemma {:induction false} FailKeeps(who: Role, e: Endpoint, f: Endpoint, mine: seq<Packet>, theirs: seq<Packet>, cause: Cause)
    requires PairOk(who, e, f, mine, theirs) && e.status == Reading && mine != [] && !mine[0].Tombstone?
    requires var g := e.(read := e.read + 1, status := Failed(cause)); FailureOk(g, f)
    ensures PairOk(who, e.(read := e.read + 1, status := Failed(cause)), f, mine[1..], theirs)
  {
    WhatArrives(who, e, f, mine, theirs);
  }

  /** Answering the peer's request with p. */
  function Answering(e: Endpoint, p: Packet, status: Status): Endpoint {
    e.(read := e.read + 1, status := status, answer := Some(p), log := e.log + [p])
  }

  lemma {:induction false} AnsweringSelf(who: Role, e: Endpoint, p: Packet, status: Status)
    requires SelfOk(who, e) && e.status == Reading && (status.Answered? || status.Failed?)
    requires who == Primary ==> e.mode.value.Waits?
    ensures SelfOk(who, Answering(e, p, status)) && Sent(Answering(e, p, status)) == Sent(e) + [p] && e.log == Sent(e)
  {
    assert e.log[..|e.log|] == e.log;
  }

  lemma {:induction false} AnsweringKeeps(who: Role, e: Endpoint, f: Endpoint, mine: seq<Packet>, theirs: seq<Packet>,
                                          p: Packet, status: Status)
    requires PairOk(who, e, f, mine, theirs) && e.status == Reading && mine != [] && mine[0].Negotiate?
    requires who == Primary ==> e.mode.value.Waits?
    requires var g := Answering(e, p, status);
      (status.Answered? || status.Failed?) && AnswerOk(g, f) && ResultOk(g, f) && FailureOk(g, f) && !p.Tombstone?
    ensures PairOk(who, Answering(e, p, status), f, mine[1..], theirs + [p])
  {
    WhatArrives(who, e, f, mine, theirs);
    AnsweringSelf(who, e, p, status);
    AppendToLog(f, e.log, theirs, f.read, p);
  }

  lemma {:induction false} ReadNegotiate(who: Role, e: Endpoint, f: Endpoint, mine: seq<Packet>, theirs: seq<Packet>, ok: bool)
    requires PairOk(who, e, f, mine, theirs) && e.status == Reading && mine != [] && mine[0].Negotiate?
    ensures
      var (next, sent) := Handle(who, e, mine[0], ok);
      PairOk(who, next, f, mine[1..], theirs + sent)
  {
    WhatArrives(who, e, f, mine, theirs);
    VersionRoundTrip(f.mode.value.version);
    assert theirs + [] == theirs && e.log + [] == e.log;
    var ans := Answer(f.mode.value.version, f.mode.value.features, e.mode.value.Offered());
    if who == Primary && e.mode.value.Asks? {
      SkipKeeps(who, e, f, mine, theirs);
    } else if !ok {
      FailKeeps(who, e, f, mine, theirs, if ans.None? then Rejected else EndedEarly);
    } else if ans.None? {
      AnsweringKeeps(who, e, f, mine, theirs, Error, Failed(Rejected));
    } else {
      AnsweringKeeps(who, e, f, mine, theirs, Ack(ans.value.0.Encode(), ans.value.1), Answered(ans.value.0, ans.value.1));
    }
  }

  lemma {:induction false} AcceptKeeps(who: Role, e: Endpoint, f: Endpoint, mine: seq<Packet>, theirs: seq<Packet>,
                                       v: Version, g: Features)
    requires PairOk(who, e, f, mine, theirs) && e.status == Reading && mine != [] && v.Valid()
    requires mine[0] == Ack(v.Encode(), g)
    ensures PairOk(who, e.(read := e.read + 1, status := Negotiated(v, g)), f, mine[1..], theirs)
  {
    WhatArrives(who, e, f, mine, theirs);
  }

  /** The answer to an endpoint's own request passes its checks. */
  lemma {:induction false} AnswerIsValid(requested: Version, asked: Features, allowed: Features)
    requires requested.Valid()
    ensures Answer(requested, asked, allowed).Some? ==>
      var a := Answer(requested, asked, allowed).value;
      a.0.Valid() && DecodeVersion(a.0.Encode()) == a.0 && AckValid(a.0, a.1, asked)
  {
    if requested.major == MAJOR {
      VersionRoundTrip(Answer(requested, asked, allowed).value.0);
    }
  }

  lemma {:induction false} AnswerArrives(who: Role, e: Endpoint, f: Endpoint, mine: seq<Packet>, theirs: seq<Packet>)
    requires PairOk(who, e, f, mine, theirs) && e.status == Reading && mine != [] && (mine[0].Ack? || mine[0].Error?)
    ensures e.mode.value.Asks? && e.mode.value.version.Valid() && f.mode.Some?
    ensures
      var ans := Answer(e.mode.value.version, e.mode.value.features, f.mode.value.Offered());
      mine[0] == if ans.Some? then Ack(ans.value.0.Encode(), ans.value.1) else Error
  {
    WhatArrives(who, e, f, mine, theirs);
  }

  lemma {:induction false} ReadAnswer(who: Role, e: Endpoint, f: Endpoint, mine: seq<Packet>, theirs: seq<Packet>, ok: bool)
    requires PairOk(who, e, f, mine, theirs) && e.status == Reading && mine != [] && (mine[0].Ack? || mine[0].Error?)
    ensures
      var (next, sent) := Handle(who, e, mine[0], ok);
      PairOk(who, next, f, mine[1..], theirs + sent)
  {
    AnswerArrives(who, e, f, mine, theirs);
    assert theirs + [] == theirs;
    AnswerIsValid(e.mode.value.version, e.mode.value.features, f.mode.value.Offered());
    var (next, sent) := Handle(who, e, mine[0], ok);
    if mine[0].Ack? {
      var v := DecodeVersion(mine[0].version);
      assert next == e.(read := e.read + 1, status := Negotiated(v, mine[0].features)) && sent == [];
      AcceptKeeps(who, e, f, mine, theirs, v, mine[0].features);
    } else {
      assert next == e.(read := e.read + 1, status := Failed(Rejected)) && sent == [];
      FailKeeps(who, e, f, mine, theirs, Rejected);
    }
  }

  lemma {:induction false} ReadTombstone(who: Role, e: Endpoint, f: Endpoint, mine: seq<Packet>, theirs: seq<Packet>)
    requires PairOk(who, e, f, mine, theirs) && mine != [] && mine[0].Tombstone?
    ensures PairOk(who, e, f, mine[1..], theirs + [])
  {
    StripHead(mine);
    assert theirs + [] == theirs;
  }

  lemma {:induction false} PairSymmetric(s: State, who: Role)
    ensures Invariant(s) <==> PairOk(who, s.Ep(who), s.Ep(Other(who)), s.Inbox(who), s.Inbox(Other(who)))
  {
  }

  lemma {:induction false} PutKeeps(s: State, who: Role, e: Endpoint, mine: seq<Packet>, theirs: seq<Packet>)
    requires PairOk(who, e, s.Ep(Other(who)), mine, theirs)
    ensures Invariant(s.Put(who, e, mine, theirs))
  {
    PairSymmetric(s.Put(who, e, mine, theirs), who);
  }

  lemma {:induction false} ReceiveKeeps(who: Role, e: Endpoint, f: Endpoint, mine: seq<Packet>, theirs: seq<Packet>, ok: bool)
    requires PairOk(who, e, f, mine, theirs) && e.status == Reading && mine != []
    ensures
      var (next, sent) := Handle(who, e, mine[0], ok);
      PairOk(who, next, f, mine[1..], theirs + sent)
  {
    if mine[0].Tombstone? {
      ReadTombstone(who, e, f, mine, theirs);
    } else {
      WhatArrives(who, e, f, mine, theirs);
      if mine[0].Negotiate? {
        ReadNegotiate(who, e, f, mine, theirs, ok);
      } else {
        ReadAnswer(who, e, f, mine, theirs, ok);
      }
    }
  }

  lemma {:induction false} StepKeepsInvariant(s: State, a: Action)
    requires Invariant(s) && Enabled(s, a)
    ensures Invariant(Apply(s, a))
  {
    var e, f, mine, theirs := s.Ep(a.who), s.Ep(Other(a.who)), s.Inbox(a.who), s.Inbox(Other(a.who));
    PairSymmetric(s, a.who);
    match a {
      case Start(who, mode) =>
        StartKeeps(who, e, f, mine, theirs, mode);
        PutKeeps(s, who, e.(mode := Some(mode), status := if mode.Asks? then Begun else Reading), mine, theirs);
      case SendRequest(who, ok) =>
        if ok {
          SendRequestKeeps(who, e, f, mine, theirs);
          var p := Negotiate(e.mode.value.version.Encode(), e.mode.value.features);
          PutKeeps(s, who, e.(status := Reading, asked := true, log := e.log + [p]), mine, theirs + [p]);
        } else {
          GiveUpKeeps(who, e, f, mine, theirs);
          PutKeeps(s, who, e.(status := Failed(EndedEarly)), mine, theirs);
        }
      case Receive(who, ok) =>
        ReceiveKeeps(who, e, f, mine, theirs, ok);
        var (next, sent) := Handle(who, e, mine[0], ok);
        PutKeeps(s, who, next, mine[1..], theirs + sent);
      case Store(who) =>
        StoreKeeps(who, e, f, mine, theirs);
        PutKeeps(s, who, e.(status := Negotiated(e.status.version, e.status.features)), mine, theirs);
      case GiveUp(who) =>
        GiveUpKeeps(who, e, f, mine, theirs);
        PutKeeps(s, who, e.(status := Failed(EndedEarly)), mine, theirs);
      case SendData(who) =>
        SendDataKeeps(who, e, f, mine, theirs);
        PutKeeps(s, who, e.(log := e.log + [Data]), mine, theirs + [Data]);
      case SendTombstone(who) =>
        SendTombstoneKeeps(who, e, f, mine, theirs);
        PutKeeps(s, who, e, mine, theirs + [Tombstone]);
    }
  }

  // -------------------------------------------------------------------- results

  ghost predicate IsRun(states: seq<State>, actions: seq<Action>) {
    |states| == |actions| + 1 && states[0] == Init && forall i: nat :: i < |actions| ==> StepAt(states, actions, i)
  }

  ghost predicate StepAt(states: seq<State>, actions: seq<Action>, i: nat)
    requires i < |actions| && |states| == |actions| + 1
  {
    Enabled(states[i], actions[i]) && states[i + 1] == Apply(states[i], actions[i])
  }

  lemma {:induction false} RunKeepsInvariant(states: seq<State>, actions: seq<Action>, n: nat)
    requires IsRun(states, actions) && n < |states|
    ensures Invariant(states[n])
  {
    if n > 0 {
      RunKeepsInvariant(states, actions, n - 1);
      assert StepAt(states, actions, n - 1);
      StepKeepsInvariant(states[n - 1], actions[n - 1]);
    }
  }

  /** A packet that belongs to negotiation. */
  predicate IsNegotiation(p: Packet) {
    p.Negotiate? || p.Ack? || p.Error?
  }

  lemma {:induction false} StripMember(q: seq<Packet>, i: nat)
    requires i < |q| && !q[i].Tombstone?
    ensures q[i] in Strip(q)
  {
    if i > 0 {
      StripMember(q[1..], i - 1);
    }
  }

  lemma {:induction false} NothingLeft(who: Role, e: Endpoint, f: Endpoint, inbox: seq<Packet>, i: nat)
    requires SelfOk(Other(who), f) && ReadOk(who, e, f, inbox) && e.read >= |Sent(f)| && i < |inbox|
    ensures !IsNegotiation(inbox[i])
  {
    if !inbox[i].Tombstone? {
      StripMember(inbox, i);
      var j :| 0 <= j < |f.log[e.read..]| && f.log[e.read..][j] == inbox[i];
      assert f.log[e.read + j] == Data;
    }
  }

  /** What both sides end up with, given the request that counts and what the two offered: the
      lower minor version, and every feature that both offered, that this implementation has and
      that the version knows. */
  ghost predicate Agreed(v: Version, g: Features, request: Version, mine: Features, theirs: Features) {
    v.major == MAJOR && request.major == MAJOR && v.minor <= request.minor && v.minor <= MINOR &&
    (v.minor == request.minor || v.minor == MINOR) &&
    forall x: nat :: x in g <==> x in mine && x in theirs && x in SUPPORTED && (x in SINCE_1_1 ==> v.minor >= 1)
  }

  /** The request that counts: the Primary's if it asks, else the Secondary's. */
  function Winner(p: Mode, s: Mode): Mode {
    if p.Asks? then p else s
  }

  /** Agreement: whenever both endpoints are Negotiated, also after simultaneous requests,
      they hold the same version and features, and exactly those that the winning request and
      the two offers determine; and no negotiation packet is left on either queue to confuse the
      receive path. */
  lemma {:induction false} NegotiationAgrees(states: seq<State>, actions: seq<Action>, n: nat)
    requires IsRun(states, actions) && n < |states|
    requires states[n].primary.status.Negotiated? && states[n].secondary.status.Negotiated?
    ensures
      var p, s := states[n].primary, states[n].secondary;
      p.status == s.status && p.mode.Some? && s.mode.Some? &&
      var w := Winner(p.mode.value, s.mode.value);
      w.Asks? && Agreed(p.status.version, p.status.features, w.version, p.mode.value.Offered(), s.mode.value.Offered())
    ensures forall i :: 0 <= i < |states[n].toPrimary| ==> !IsNegotiation(states[n].toPrimary[i])
    ensures forall i :: 0 <= i < |states[n].toSecondary| ==> !IsNegotiation(states[n].toSecondary[i])
  {
    RunKeepsInvariant(states, actions, n);
    var p, s := states[n].primary, states[n].secondary;
    VersionRoundTrip(p.status.version);
    VersionRoundTrip(s.status.version);
    AnswerExact(p, s);
    AnswerExact(s, p);
    forall i | 0 <= i < |states[n].toPrimary| ensures !IsNegotiation(states[n].toPrimary[i]) {
      NothingLeft(Primary, p, s, states[n].toPrimary, i);
    }
    forall i | 0 <= i < |states[n].toSecondary| ensures !IsNegotiation(states[n].toSecondary[i]) {
      NothingLeft(Secondary, s, p, states[n].toSecondary, i);
    }
  }

  /** An acknowledgment is what the request and the two offers determine. */
  lemma {:induction false} AnswerExact(e: Endpoint, f: Endpoint)
    requires AnswerOk(e, f) && (f.asked ==> f.mode.Some? && f.mode.value.Valid())
    ensures e.answer.Some? && e.answer.value.Ack? ==>
      f.mode.value.Asks? &&
      Agreed(DecodeVersion(e.answer.value.version), e.answer.value.features, f.mode.value.version,
             e.mode.value.Offered(), f.mode.value.Offered())
  {
    if e.answer.Some? {
      var ans := Answer(f.mode.value.version, f.mode.value.features, e.mode.value.Offered());
      if ans.Some? {
        VersionRoundTrip(ans.value.0);
      }
    }
  }

  /** Failed is terminal, and an attempt fails only because its caller ended it or because
      a request has another major version: negotiation packets alone never fail it. */
  lemma {:induction false} FailuresComeFromOutside(states: seq<State>, actions: seq<Action>, n: nat, who: Role)
    requires IsRun(states, actions) && n < |states| && states[n].Ep(who).status.Failed?
    ensures states[n].Ep(who).status.cause != Unexpected
    ensures states[n].Ep(who).status.cause == Rejected ==>
      exists r :: AsksOtherMajor(states[n].Ep(r))
    ensures n + 1 < |states| ==> states[n + 1].Ep(who).status == states[n].Ep(who).status
  {
    RunKeepsInvariant(states, actions, n);
    PairSymmetric(states[n], who);
    if states[n].Ep(who).status.cause == Rejected {
      assert AsksOtherMajor(states[n].Ep(who)) || AsksOtherMajor(states[n].Ep(Other(who)));
    }
    if n + 1 < |states| {
      assert StepAt(states, actions, n);
    }
  }

  predicate AsksOtherMajor(e: Endpoint) {
    e.mode.Some? && e.mode.value.Asks? && e.mode.value.version.major != MAJOR
  }

  /** An endpoint can take a step of its own: send its request, store its result, or read. */
  predicate CanAdvance(s: State, who: Role) {
    s.Ep(who).status == Begun || s.Ep(who).status.Answered? || (s.Ep(who).status == Reading && s.Inbox(who) != [])
  }

  lemma {:induction false} PeerAnswerIsQueued(who: Role, e: Endpoint, f: Endpoint, mine: seq<Packet>, theirs: seq<Packet>)
    requires PairOk(who, e, f, mine, theirs) && e.status == Reading && f.status.Negotiated?
    ensures mine != []
  {
    assert e.read < |Sent(f)| <= |f.log|;
  }

  lemma {:induction false} RequestIsQueued(who: Role, e: Endpoint, f: Endpoint, mine: seq<Packet>, theirs: seq<Packet>)
    requires PairOk(who, e, f, mine, theirs) && e.status == Reading && f.status == Reading
    requires f.mode.value.Asks? && (who == Primary ==> e.mode.value.Waits?)
    ensures mine != []
  {
    assert e.read < |Sent(f)| <= |f.log|;
  }

  /** No crossing of requests deadlocks: while both endpoints are negotiating or done, not
      both are done and at least one of them asked, one of them can take a step. */
  lemma {:induction false} NegotiationNeverSticks(states: seq<State>, actions: seq<Action>, n: nat)
    requires IsRun(states, actions) && n < |states|
    requires forall r :: !states[n].Ep(r).status.NotStarted? && !states[n].Ep(r).status.Failed?
    requires exists r :: !states[n].Ep(r).status.Negotiated?
    requires exists r :: states[n].Ep(r).mode.Some? && states[n].Ep(r).mode.value.Asks?
    ensures CanAdvance(states[n], Primary) || CanAdvance(states[n], Secondary)
  {
    RunKeepsInvariant(states, actions, n);
    var s := states[n];
    var p, q := s.primary, s.secondary;
    assert s.Ep(Primary) == p && s.Ep(Secondary) == q;
    if p.status == Reading && q.status.Negotiated? {
      PeerAnswerIsQueued(Primary, p, q, s.toPrimary, s.toSecondary);
    } else if q.status == Reading && p.status.Negotiated? {
      PeerAnswerIsQueued(Secondary, q, p, s.toSecondary, s.toPrimary);
    } else if p.status == Reading && q.status == Reading {
      if p.mode.value.Asks? {
        RequestIsQueued(Secondary, q, p, s.toSecondary, s.toPrimary);
      } else {
        RequestIsQueued(Primary, p, q, s.toPrimary, s.toSecondary);
      }
    }
  }
}
