/** The claim protocol of a shared segment (superblock.go, standard.go): any number of
    endpoints over the words of the superblock page. One step is one atomic access. */
module Segment {
  import opened Wire

  // Word numbers in the superblock page (byte offset / 8).
  const MAGIC: nat := 0
  const STATE: nat := 1
  const MAJOR: nat := 2
  const MINOR: nat := 3
  const GEOMETRY: nat := 4        // page size, buffer count, buffer size, layout size
  const EPOCH: nat := 8
  const INIT_TOKEN: nat := 9
  const INIT_BEAT: nat := 10
  const REQUIRED: nat := 11
  const CREATOR: nat := 12
  const PRIMARY: nat := 16        // endpoint record: token, pid, heartbeat, interval
  const SECONDARY: nat := 32
  const END: nat := 48

  const EMPTY: nat := 0
  const INITIALIZING: nat := 1
  const READY: nat := 2
  const MAGIC_VALUE: nat := 0x4851515f53544c33
  const MAJOR_VALUE: nat := 3
  const MINOR_VALUE: nat := 0
  const DETACHED: nat := 1

  /** The first page, one number per 64-bit word; a page has at least 512 words. */
  type Memory = m: seq<nat> | |m| >= 512 witness seq(512, _ => 0)

  datatype AttachRole = RoleAny | RoleCreator | RoleOpener

  datatype Slot = PrimarySlot | SecondarySlot {
    function Record(): nat {
      if PrimarySlot? then PRIMARY else SECONDARY
    }
  }

  /** Where an endpoint is. */
  datatype Pc =
    // claimSuperblock
    | Poll
    | Scan(i: nat)                               // firstPageZero
    | RecheckEmpty
    | ClaimEmpty
    | SeeToken
    | SeeBeat(tok: nat)
    | CheckRequired(ready: bool, tok: nat, hb: nat)    // checkLayoutCompat
    | CheckMagic(ready: bool, tok: nat, hb: nat)
    | CheckMajor(ready: bool, tok: nat, hb: nat)
    | CheckToken(tok: nat, hb: nat)
    | Judge(tok: nat, hb: nat)                   // has the initializer stalled?
    | JudgeAlive                                 // endpointAliveAtOpen, both records
    | ClaimDead
    | CompareGeometry(i: nat)
    | LoadSecondary
    | Join
    // beginInit
    | LoadOld                                    // won the state word: loads initToken
    | Stamp(i: nat, expected: nat, takeover: bool)
    | Swap(expected: nat, takeover: bool)
    | StoreCreator
    | StoreBeat
    // formatting, publishSuperblock, commitInit
    | Format
    | FormatBeat
    | Check(i: nat)
    | Publish(i: nat)
    | Commit
    | Bump
    | MarkReady(epoch: nat)
    // attached
    | Fill(i: nat)
    | LoadEpoch
    | Linked(slot: Slot, epoch: nat)
    | Beat(slot: Slot, epoch: nat)
    // not running
    | Closed
    | Failed
    | Crashed

  /** watch: token and heartbeat seen at the last look at a segment being initialized. */
  datatype Endpoint = Endpoint(role: AttachRole, geo: seq<nat>, pc: Pc, watch: Option<(nat, nat)>)

  datatype Op =
    | Load(i: nat)
    | Store(i: nat, v: nat)
    | Cas(i: nat, was: nat, put: nat)
    | Inc(i: nat)
    | Local

  predicate OpOk(m: Memory, op: Op) {
    op.Local? || op.i < |m|
  }

  /** The memory after the access. */
  function Exec(m: Memory, op: Op): (r: Memory)
    requires OpOk(m, op)
  {
    match op
    case Load(_) => m
    case Store(i, v) => m[i := v]
    case Cas(i, was, put) => if m[i] == was then m[i := put] else m
    case Inc(i) => m[i := m[i] + 1]
    case Local => m
  }

  /** What the access returns: the word loaded, whether the swap happened, the new count. */
  function Returned(m: Memory, op: Op): nat
    requires OpOk(m, op)
  {
    match op
    case Load(i) => m[i]
    case Store(_, _) => 0
    case Cas(i, was, _) => if m[i] == was then 1 else 0
    case Inc(i) => m[i] + 1
    case Local => 0
  }

  /** The i-th store of publishSuperblock; v stands for process id, interval or time. */
  function PublishStore(i: nat, token: nat, geo: seq<nat>, v: nat): Op
    requires |geo| == 4
  {
    if i == 0 then Store(MAJOR, MAJOR_VALUE)
    else if i == 1 then Store(MINOR, MINOR_VALUE)
    else if i == 2 then Store(REQUIRED, 0)
    else if i < 7 then Store(GEOMETRY + (i - 3), geo[i - 3])
    else if i < 11 then Store(SECONDARY + (i - 7), 0)
    else if i == 11 then Store(PRIMARY, token)
    else if i < 15 then Store(PRIMARY + (i - 11), v)
    else Store(MAGIC, MAGIC_VALUE)
  }

  /** The stores come in five groups; ownership is checked before each. */
  function AfterPublish(i: nat): Pc {
    if i + 1 >= 16 then Commit else if i + 1 in {3, 7, 11, 15} then Check(i + 1) else Publish(i + 1)
  }

  function StampStore(i: nat): Op {
    if i == 0 then Store(MAJOR, MAJOR_VALUE) else if i == 1 then Store(MINOR, MINOR_VALUE) else Store(REQUIRED, 0)
  }

  /** What the endpoint with token e accesses next. b chooses between heartbeat and close. */
  function Access(e: nat, ep: Endpoint, b: bool, v: nat): Op
    requires |ep.geo| == 4
  {
    match ep.pc
    case Poll => Load(STATE)
    case Scan(i) => Load(i)
    case RecheckEmpty => Load(STATE)
    case ClaimEmpty => Cas(STATE, EMPTY, INITIALIZING)
    case SeeToken => Load(INIT_TOKEN)
    case SeeBeat(_) => Load(INIT_BEAT)
    case CheckRequired(_, _, _) => Load(REQUIRED)
    case CheckMagic(_, _, _) => Load(MAGIC)
    case CheckMajor(_, _, _) => Load(MAJOR)
    case CheckToken(_, _) => Load(INIT_TOKEN)
    case ClaimDead => Cas(STATE, READY, INITIALIZING)
    case CompareGeometry(i) => Load(GEOMETRY + i)
    case LoadSecondary => Load(SECONDARY)
    case Join => Cas(SECONDARY, 0, e)
    case LoadOld => Load(INIT_TOKEN)
    case Stamp(i, _, _) => StampStore(i)
    case Swap(expected, _) => Cas(INIT_TOKEN, expected, e)
    case StoreCreator => Store(CREATOR, v)
    case StoreBeat => Store(INIT_BEAT, v)
    case Format => Load(INIT_TOKEN)
    case FormatBeat => Store(INIT_BEAT, v)
    case Check(_) => Load(INIT_TOKEN)
    case Publish(i) => PublishStore(i, e, ep.geo, v)
    case Commit => Cas(INIT_TOKEN, e, 0)
    case Bump => Inc(EPOCH)
    case MarkReady(_) => Store(STATE, READY)
    case Fill(i) => Store(SECONDARY + (if i == 0 then 1 else if i == 1 then 3 else 2), v)
    case LoadEpoch => Load(EPOCH)
    case Linked(slot, _) => if b then Load(slot.Record()) else Cas(slot.Record(), e, DETACHED)
    case Beat(slot, _) => Store(slot.Record() + 2, v)
    case _ => Local
  }

  /** After the segment is found Initializing: remember, wait, or take over (b: the window
      passed without progress). */
  function AfterJudge(ep: Endpoint, tok: nat, hb: nat, b: bool): Endpoint {
    if ep.role == RoleOpener then ep.(pc := Poll)
    else if ep.watch != Some((tok, hb)) then ep.(pc := Poll, watch := Some((tok, hb)))
    else if b then ep.(pc := Stamp(0, tok, true))
    else ep.(pc := Poll)
  }

  /** After both liveness verdicts: pa and sa say that primary and secondary are alive. */
  function AfterAlive(ep: Endpoint, pa: bool, sa: bool): Pc {
    if !pa && !sa then (if ep.role == RoleOpener then Failed else ClaimDead)
    else if ep.role == RoleCreator || !pa then Failed
    else CompareGeometry(0)
  }

  /** Where the endpoint goes after its access returned x, in the claim. b and c resolve
      timeouts, the end of the context and liveness verdicts. */
  function AfterClaim(ep: Endpoint, words: nat, b: bool, c: bool, x: nat): Endpoint {
    match ep.pc
    case Poll =>
      if b then ep.(pc := Failed)
      else if x == EMPTY then ep.(pc := Scan(0), watch := None)
      else if x == INITIALIZING then ep.(pc := SeeToken)
      else if x == READY then ep.(pc := CheckRequired(true, 0, 0), watch := None)
      else ep.(pc := Failed)
    case Scan(i) =>
      if x != 0 then ep.(pc := RecheckEmpty)
      else if i + 1 < words then ep.(pc := Scan(i + 1))
      else ep.(pc := if ep.role == RoleOpener then Poll else ClaimEmpty)
    case RecheckEmpty => ep.(pc := if x != EMPTY then Poll else Failed)
    case ClaimEmpty => ep.(pc := if x == 1 then LoadOld else Poll)
    case SeeToken => ep.(pc := SeeBeat(x))
    case SeeBeat(tok) => ep.(pc := CheckRequired(false, tok, x))
    case CheckRequired(ready, tok, hb) => ep.(pc := if x != 0 then Failed else CheckMagic(ready, tok, hb))
    case CheckMagic(ready, tok, hb) =>
      ep.(pc := if x != MAGIC_VALUE && (ready || x != 0) then Failed else CheckMajor(ready, tok, hb))
    case CheckMajor(ready, tok, hb) =>
      ep.(pc := if x == MAJOR_VALUE then (if ready then JudgeAlive else Judge(tok, hb))
                else if ready || x != 0 then Failed
                else CheckToken(tok, hb))
    case CheckToken(tok, hb) => ep.(pc := if x != 0 then Failed else Judge(tok, hb))
    case Judge(tok, hb) => AfterJudge(ep, tok, hb, b)
    case JudgeAlive => ep.(pc := AfterAlive(ep, b, c))
    case ClaimDead => ep.(pc := if x == 1 then LoadOld else Poll)
    case CompareGeometry(i) =>
      ep.(pc := if i >= |ep.geo| || x != ep.geo[i] then Failed
                else if i < 3 then CompareGeometry(i + 1)
                else LoadSecondary)
    case LoadSecondary => ep.(pc := if x == 0 then Join else Failed)
    case Join => ep.(pc := if x == 1 then Fill(0) else Poll)
    case _ => ep
  }

  /** The same once the endpoint is past the claim. */
  function AfterWork(e: nat, ep: Endpoint, b: bool, c: bool, x: nat): Endpoint {
    match ep.pc
    case LoadOld => ep.(pc := Stamp(0, x, false))
    case Stamp(i, expected, takeover) => ep.(pc := if i < 2 then Stamp(i + 1, expected, takeover) else Swap(expected, takeover))
    case Swap(_, takeover) =>
      if x == 1 then ep.(pc := StoreCreator)
      else if takeover then ep.(pc := Poll, watch := None)
      else ep.(pc := Failed)
    case StoreCreator => ep.(pc := StoreBeat)
    case StoreBeat => ep.(pc := Format)
    case Format => ep.(pc := if x != e || (b && c) then Failed else if b then FormatBeat else if c then Check(0) else Format)
    case FormatBeat => ep.(pc := Format)
    case Check(i) => ep.(pc := if x != e || b then Failed else Publish(i))
    case Publish(i) => ep.(pc := AfterPublish(i))
    case Commit => ep.(pc := if x == 1 then Bump else Failed)
    case Bump => ep.(pc := MarkReady(x))
    case MarkReady(epoch) => ep.(pc := Linked(PrimarySlot, epoch))
    case Fill(i) => ep.(pc := if i < 2 then Fill(i + 1) else LoadEpoch)
    case LoadEpoch => ep.(pc := Linked(SecondarySlot, x))
    case Linked(slot, epoch) => ep.(pc := if !b then Closed else if x == e then Beat(slot, epoch) else ep.pc)
    case Beat(slot, epoch) => ep.(pc := Linked(slot, epoch))
    case _ => ep
  }

  predicate Claiming(pc: Pc) {
    pc.Poll? || pc.Scan? || pc.RecheckEmpty? || pc.ClaimEmpty? || pc.SeeToken? || pc.SeeBeat? || pc.CheckRequired? ||
    pc.CheckMagic? || pc.CheckMajor? || pc.CheckToken? || pc.Judge? || pc.JudgeAlive? || pc.ClaimDead? ||
    pc.CompareGeometry? || pc.LoadSecondary? || pc.Join?
  }

  predicate Halted(pc: Pc) {
    pc.Closed? || pc.Failed? || pc.Crashed?
  }

  function After(e: nat, ep: Endpoint, words: nat, b: bool, c: bool, x: nat): Endpoint {
    if Claiming(ep.pc) then AfterClaim(ep, words, b, c, x) else AfterWork(e, ep, b, c, x)
  }

  datatype State = State(mem: Memory, eps: map<nat, Endpoint>)

  datatype Action =
    | Arrive(e: nat, role: AttachRole, geo: seq<nat>)
    | Act(e: nat, b: bool, c: bool, v: nat)
    | Crash(e: nat)

  /** The access that action a makes in s. */
  function OpOf(s: State, a: Action): Op {
    if a.Act? && a.e in s.eps && |s.eps[a.e].geo| == 4 then Access(a.e, s.eps[a.e], a.b, a.v) else Local
  }

  predicate Enabled(s: State, a: Action) {
    match a
    case Arrive(e, _, geo) => e > DETACHED && e !in s.eps && |geo| == 4
    case Act(e, _, _, _) => e in s.eps && !Halted(s.eps[e].pc) && |s.eps[e].geo| == 4 && OpOk(s.mem, OpOf(s, a))
    case Crash(e) => e in s.eps && !Halted(s.eps[e].pc)
  }

  function NextEndpoint(s: State, a: Action): Endpoint
    requires Enabled(s, a)
  {
    match a
    case Arrive(_, role, geo) => Endpoint(role, geo, Poll, None)
    case Act(e, b, c, _) => After(e, s.eps[e], |s.mem|, b, c, Returned(s.mem, OpOf(s, a)))
    case Crash(e) => s.eps[e].(pc := Crashed)
  }

  function Apply(s: State, a: Action): State
    requires Enabled(s, a)
  {
    State(if a.Act? then Exec(s.mem, OpOf(s, a)) else s.mem, s.eps[a.e := NextEndpoint(s, a)])
  }

  ghost predicate StepAt(states: seq<State>, actions: seq<Action>, i: nat)
    requires i < |actions| && |states| == |actions| + 1
  {
    Enabled(states[i], actions[i]) && states[i + 1] == Apply(states[i], actions[i])
  }

  ghost predicate IsRun(states: seq<State>, actions: seq<Action>) {
    |states| == |actions| + 1 && states[0].eps == map[] && forall i: nat :: i < |actions| ==> StepAt(states, actions, i)
  }

  /** Every access of a running endpoint stays inside the page: the scan of the first page
      and the geometry comparison are in range, so no endpoint is ever stuck. */
  lemma {:induction false} EndpointsNeverBlock(states: seq<State>, actions: seq<Action>, n: nat, a: Action)
    requires IsRun(states, actions) && n < |states|
    requires a.Act? && a.e in states[n].eps && !Halted(states[n].eps[a.e].pc)
    ensures Enabled(states[n], a)
  {
    RunInRange(states, actions, n, a.e);
  }

  predicate InRange(ep: Endpoint, words: nat) {
    |ep.geo| == 4 && (ep.pc.Scan? ==> ep.pc.i < words) && (ep.pc.CompareGeometry? ==> ep.pc.i < 4)
  }

  lemma {:induction false} StepInRange(e: nat, ep: Endpoint, words: nat, b: bool, c: bool, x: nat)
    requires InRange(ep, words) && words > 0
    ensures InRange(After(e, ep, words, b, c, x), words)
  {
  }

  lemma {:induction false} RunInRange(states: seq<State>, actions: seq<Action>, n: nat, e: nat)
    requires IsRun(states, actions) && n < |states| && e in states[n].eps
    ensures InRange(states[n].eps[e], |states[n].mem|)
  {
    if n > 0 {
      assert StepAt(states, actions, n - 1);
    }
    if n > 0 && e in states[n - 1].eps {
      RunInRange(states, actions, n - 1, e);
      var s, a := states[n - 1], actions[n - 1];
      if a.Act? && a.e == e {
        StepInRange(e, s.eps[e], |s.mem|, a.b, a.c, Returned(s.mem, OpOf(s, a)));
      }
    }
  }

  // ------------------------------------------------------- openers and foreign data

  /** Where an opener can be: it never gets past the claim except as the Secondary. */
  predicate OpenerPc(pc: Pc) {
    (Claiming(pc) && !pc.ClaimEmpty? && !pc.ClaimDead?) || pc.Fill? || pc.LoadEpoch? ||
    ((pc.Linked? || pc.Beat?) && pc.slot == SecondarySlot) || Halted(pc)
  }

  ghost predicate OpenersOk(s: State) {
    forall e :: e in s.eps && s.eps[e].role == RoleOpener ==> OpenerPc(s.eps[e].pc)
  }

  lemma {:induction false} OpenerClaims(ep: Endpoint, words: nat, b: bool, c: bool, x: nat)
    requires ep.role == RoleOpener && OpenerPc(ep.pc) && Claiming(ep.pc)
    ensures OpenerPc(AfterClaim(ep, words, b, c, x).pc)
  {
  }

  lemma {:induction false} OpenerWorks(e: nat, ep: Endpoint, b: bool, c: bool, x: nat)
    requires OpenerPc(ep.pc) && !Claiming(ep.pc)
    ensures OpenerPc(AfterWork(e, ep, b, c, x).pc)
  {
  }

  /** An endpoint keeps its role and geometry. */
  lemma {:induction false} SameEndpoint(e: nat, ep: Endpoint, words: nat, b: bool, c: bool, x: nat)
    ensures var next := After(e, ep, words, b, c, x); next.role == ep.role && next.geo == ep.geo
  {
  }

  lemma {:induction false} OpenersKeep(s: State, a: Action)
    requires OpenersOk(s) && Enabled(s, a)
    ensures OpenersOk(Apply(s, a))
  {
    if a.Act? {
      var ep, x := s.eps[a.e], Returned(s.mem, OpOf(s, a));
      SameEndpoint(a.e, ep, |s.mem|, a.b, a.c, x);
      if ep.role == RoleOpener {
        if Claiming(ep.pc) {
          OpenerClaims(ep, |s.mem|, a.b, a.c, x);
        } else {
          OpenerWorks(a.e, ep, a.b, a.c, x);
        }
      }
    }
  }

  lemma {:induction false} RunKeepsOpeners(states: seq<State>, actions: seq<Action>, n: nat)
    requires IsRun(states, actions) && n < |states|
    ensures OpenersOk(states[n])
  {
    if n > 0 {
      RunKeepsOpeners(states, actions, n - 1);
      assert StepAt(states, actions, n - 1);
      OpenersKeep(states[n - 1], actions[n - 1]);
    }
  }

  /** In every run, on any segment, an opener writes nothing but the secondary record. */
  lemma {:induction false} OpenersWriteOnlySecondary(states: seq<State>, actions: seq<Action>, n: nat, i: nat)
    requires IsRun(states, actions) && n < |actions| && actions[n].Act?
    requires actions[n].e in states[n].eps && states[n].eps[actions[n].e].role == RoleOpener
    requires i < |states[n].mem| && !(SECONDARY <= i < END)
    ensures |states[n + 1].mem| == |states[n].mem| && states[n + 1].mem[i] == states[n].mem[i]
  {
    RunKeepsOpeners(states, actions, n);
    assert StepAt(states, actions, n);
    var s, a := states[n], actions[n];
    OpenerAccess(s.mem, a.e, s.eps[a.e], a.b, a.v, i);
  }

  lemma {:induction false} OpenerAccess(m: Memory, e: nat, ep: Endpoint, b: bool, v: nat, i: nat)
    requires OpenerPc(ep.pc) && |ep.geo| == 4 && OpOk(m, Access(e, ep, b, v)) && i < |m| && !(SECONDARY <= i < END)
    ensures Exec(m, Access(e, ep, b, v))[i] == m[i]
  {
  }

  /** checkLayoutCompat fails. */
  predicate Conflicting(m: Memory, ready: bool) {
    m[REQUIRED] != 0 || BadMagic(m, ready) || BadMajor(m, ready)
  }

  predicate BadMagic(m: Memory, ready: bool) {
    m[MAGIC] != MAGIC_VALUE && (ready || m[MAGIC] != 0)
  }

  predicate BadMajor(m: Memory, ready: bool) {
    m[MAJOR] != MAJOR_VALUE && (ready || m[MAJOR] != 0 || m[INIT_TOKEN] != 0)
  }

  /** Data of somebody else, or of another layout version. */
  ghost predicate Foreign(m: Memory) {
    (m[STATE] == EMPTY && exists w :: 0 <= w < |m| && m[w] != 0) ||
    m[STATE] > READY ||
    (m[STATE] == INITIALIZING && Conflicting(m, false)) ||
    (m[STATE] == READY && Conflicting(m, true))
  }

  /** How far an endpoint gets with foreign data. */
  ghost predicate KeepsOut(m: Memory, pc: Pc) {
    pc == Poll || pc == Failed || pc == Crashed ||
    (m[STATE] == EMPTY && (pc == RecheckEmpty || (pc.Scan? && pc.i < |m| && forall j :: 0 <= j < pc.i ==> m[j] == 0))) ||
    (m[STATE] == INITIALIZING && (pc.SeeToken? || pc.SeeBeat?)) ||
    ((m[STATE] == INITIALIZING || m[STATE] == READY) &&
     var ready := m[STATE] == READY;
     (pc.CheckRequired? && pc.ready == ready) ||
     (pc.CheckMagic? && pc.ready == ready && m[REQUIRED] == 0) ||
     (pc.CheckMajor? && pc.ready == ready && m[REQUIRED] == 0 && !BadMagic(m, ready)) ||
     (pc.CheckToken? && !ready && m[REQUIRED] == 0 && !BadMagic(m, ready) && m[MAJOR] == 0))
  }

  lemma {:induction false} ForeignStep(m: Memory, e: nat, ep: Endpoint, b: bool, c: bool, v: nat)
    requires Foreign(m) && KeepsOut(m, ep.pc) && |ep.geo| == 4 && !Halted(ep.pc)
    ensures
      var op := Access(e, ep, b, v);
      OpOk(m, op) && Exec(m, op) == m && KeepsOut(m, AfterClaim(ep, |m|, b, c, Returned(m, op)).pc)
  {
  }

  /** A segment with foreign data stays as it is, whoever comes in whatever role, and nobody
      gets past the claim. */
  lemma {:induction false} ForeignSegmentsStayUntouched(states: seq<State>, actions: seq<Action>, n: nat)
    requires IsRun(states, actions) && n < |states| && Foreign(states[0].mem)
    ensures states[n].mem == states[0].mem
    ensures forall e :: e in states[n].eps ==> KeepsOut(states[0].mem, states[n].eps[e].pc)
  {
    if n > 0 {
      ForeignSegmentsStayUntouched(states, actions, n - 1);
      assert StepAt(states, actions, n - 1);
      var s, a := states[n - 1], actions[n - 1];
      if a.Act? {
        ForeignStep(s.mem, a.e, s.eps[a.e], a.b, a.c, a.v);
      }
    }
  }
}
