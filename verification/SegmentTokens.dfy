/** Who may commit an initialization, for every interleaving of atomic steps. */
module SegmentTokens {
  import opened Segment

  /** Action a of s is a beginInit that takes the initialization. */
  predicate Begins(s: State, a: Action) {
    a.Act? && a.e in s.eps && s.eps[a.e].pc.Swap? && s.mem[INIT_TOKEN] == s.eps[a.e].pc.expected
  }

  /** Action a of s is a commitInit that succeeds. */
  predicate Commits(s: State, a: Action) {
    a.Act? && a.e in s.eps && s.eps[a.e].pc.Commit? && s.mem[INIT_TOKEN] == a.e
  }

  predicate TokenChanges(s: State, a: Action) {
    Begins(s, a) || Commits(s, a)
  }

  /** Only a begin and a commit change initToken. */
  lemma {:induction false} TokenStep(s: State, a: Action)
    requires Enabled(s, a)
    ensures Apply(s, a).mem[INIT_TOKEN] ==
      if Begins(s, a) then a.e else if Commits(s, a) then 0 else s.mem[INIT_TOKEN]
  {
  }

  /** e owns the initialization: it began at step i and nothing happened to initToken since. */
  ghost predicate BeganAt(states: seq<State>, actions: seq<Action>, i: nat, n: nat, e: nat)
    requires IsRun(states, actions) && n < |states|
  {
    i < n && Begins(states[i], actions[i]) && actions[i].e == e &&
    forall k :: i < k < n ==> !TokenChanges(states[k], actions[k])
  }

  lemma {:induction false} TokenOrigin(states: seq<State>, actions: seq<Action>, n: nat, e: nat) returns (i: nat)
    requires IsRun(states, actions) && n < |states| && e != 0
    requires states[n].mem[INIT_TOKEN] == e && states[0].mem[INIT_TOKEN] != e
    ensures BeganAt(states, actions, i, n, e)
  {
    assert StepAt(states, actions, n - 1);
    TokenStep(states[n - 1], actions[n - 1]);
    if Begins(states[n - 1], actions[n - 1]) {
      i := n - 1;
    } else {
      i := TokenOrigin(states, actions, n - 1, e);
    }
  }

  /** A commit is preceded by a begin of the same endpoint with no change of initToken in
      between: nobody replaced it. Tokens are not what the segment held at the start. */
  lemma {:induction false} CommitNeedsOwnBegin(states: seq<State>, actions: seq<Action>, n: nat) returns (i: nat)
    requires IsRun(states, actions) && n < |actions| && Commits(states[n], actions[n])
    requires states[0].mem[INIT_TOKEN] != actions[n].e
    ensures BeganAt(states, actions, i, n, actions[n].e)
  {
    TokensAreReal(states, actions, n, actions[n].e);
    i := TokenOrigin(states, actions, n, actions[n].e);
  }

  lemma {:induction false} TokensAreReal(states: seq<State>, actions: seq<Action>, n: nat, e: nat)
    requires IsRun(states, actions) && n < |states| && e in states[n].eps
    ensures e > DETACHED
  {
    if n > 0 {
      assert StepAt(states, actions, n - 1);
    }
    if n > 0 && e in states[n - 1].eps {
      TokensAreReal(states, actions, n - 1, e);
    }
  }

  /** A begin that replaces a token, such as the takeover of a stalled initializer, replaces
      that of an endpoint that began and has not committed. Only a begin over an initToken of
      zero can go wrong: it cannot tell an initializer that has not begun from one that is done. */
  lemma {:induction false} TakeoverReplacesInitializer(states: seq<State>, actions: seq<Action>, n: nat) returns (i: nat)
    requires IsRun(states, actions) && n < |actions| && Begins(states[n], actions[n])
    requires
      var expected := states[n].eps[actions[n].e].pc.expected;
      expected != 0 && states[0].mem[INIT_TOKEN] != expected
    ensures BeganAt(states, actions, i, n, states[n].eps[actions[n].e].pc.expected)
  {
    i := TokenOrigin(states, actions, n, states[n].eps[actions[n].e].pc.expected);
  }

  /** Before its own begin. */
  predicate BeforeBegin(pc: Pc) {
    Claiming(pc) || pc.LoadOld? || pc.Stamp? || pc.Swap?
  }

  lemma {:induction false} NoWayBack(e: nat, ep: Endpoint, words: nat, b: bool, c: bool, x: nat)
    requires !BeforeBegin(ep.pc)
    ensures !BeforeBegin(After(e, ep, words, b, c, x).pc)
  {
  }

  lemma {:induction false} BegunStep(s: State, a: Action, e: nat)
    requires Enabled(s, a) && (if Begins(s, a) then e == a.e else e in s.eps && !BeforeBegin(s.eps[e].pc))
    ensures e in Apply(s, a).eps && !BeforeBegin(Apply(s, a).eps[e].pc)
  {
    if a.Act? && a.e == e && !Begins(s, a) {
      NoWayBack(e, s.eps[e], |s.mem|, a.b, a.c, Returned(s.mem, OpOf(s, a)));
    }
  }

  lemma {:induction false} BegunStays(states: seq<State>, actions: seq<Action>, i: nat, n: nat)
    requires IsRun(states, actions) && i < n < |states| && Begins(states[i], actions[i])
    ensures actions[i].e in states[n].eps && !BeforeBegin(states[n].eps[actions[i].e].pc)
  {
    assert StepAt(states, actions, n - 1);
    if i + 1 == n {
      BegunStep(states[i], actions[i], actions[i].e);
    } else {
      BegunStays(states, actions, i, n - 1);
      if !Begins(states[n - 1], actions[n - 1]) {
        BegunStep(states[n - 1], actions[n - 1], actions[i].e);
      }
    }
  }

  /** An endpoint begins at most once. */
  lemma {:induction false} BeginsOnce(states: seq<State>, actions: seq<Action>, i: nat, j: nat)
    requires IsRun(states, actions) && i < j < |actions| && Begins(states[i], actions[i]) && Begins(states[j], actions[j])
    ensures actions[i].e != actions[j].e
  {
    BegunStays(states, actions, i, j);
  }

  /** Displaced initializers never commit: once initToken changed after its begin, an
      endpoint cannot pass commitInit any more. */
  lemma {:induction false} DisplacedNeverCommits(states: seq<State>, actions: seq<Action>, i: nat, k: nat, n: nat)
    requires IsRun(states, actions) && i < k < n < |actions|
    requires Begins(states[i], actions[i]) && TokenChanges(states[k], actions[k])
    requires actions[n].e == actions[i].e && states[0].mem[INIT_TOKEN] != actions[n].e
    ensures !Commits(states[n], actions[n])
  {
    if Commits(states[n], actions[n]) {
      var j := CommitNeedsOwnBegin(states, actions, n);
      if i < j {
        BeginsOnce(states, actions, i, j);
      }
    }
  }

  /** Between two commits there is a new begin. */
  lemma {:induction false} CommitsAreSeparated(states: seq<State>, actions: seq<Action>, i: nat, j: nat) returns (k: nat)
    requires IsRun(states, actions) && i < j < |actions| && Commits(states[i], actions[i]) && Commits(states[j], actions[j])
    requires states[0].mem[INIT_TOKEN] != actions[j].e
    ensures i < k < j && Begins(states[k], actions[k]) && actions[k].e == actions[j].e
  {
    k := CommitNeedsOwnBegin(states, actions, j);
  }

  // -------------------------------------------------------------------- the epoch

  function CommitCount(states: seq<State>, actions: seq<Action>, n: nat): nat
    requires n <= |actions| < |states|
  {
    if n == 0 then 0 else CommitCount(states, actions, n - 1) + if Commits(states[n - 1], actions[n - 1]) then 1 else 0
  }

  /** Endpoints that committed and have not counted the epoch up yet. */
  function Bumping(s: State): set<nat> {
    set e | e in s.eps && s.eps[e].pc == Bump
  }

  lemma {:induction false} BumpingMoves(s: State, t: State, e: nat, ep: Endpoint)
    requires t.eps == s.eps[e := ep]
    ensures Bumping(t) == if ep.pc == Bump then Bumping(s) + {e} else Bumping(s) - {e}
  {
  }

  lemma {:induction false} EpochStep(s: State, a: Action)
    requires Enabled(s, a)
    ensures var t := Apply(s, a);
      t.mem[EPOCH] + |Bumping(t)| <= s.mem[EPOCH] + |Bumping(s)| + if Commits(s, a) then 1 else 0
  {
    EpochWord(s, a);
    BumpOnlyByCommit(s, a);
    BumpingMoves(s, Apply(s, a), a.e, NextEndpoint(s, a));
  }

  lemma {:induction false} EpochWord(s: State, a: Action)
    requires Enabled(s, a)
    ensures Apply(s, a).mem[EPOCH] == s.mem[EPOCH] + if a.Act? && s.eps[a.e].pc == Bump then 1 else 0
  {
  }

  lemma {:induction false} BumpOnlyByCommit(s: State, a: Action)
    requires Enabled(s, a)
    ensures NextEndpoint(s, a).pc == Bump <==> Commits(s, a)
  {
    if a.Act? {
      BumpFromCommit(a.e, s.eps[a.e], |s.mem|, a.b, a.c, Returned(s.mem, OpOf(s, a)));
    }
  }

  lemma {:induction false} BumpFromCommit(e: nat, ep: Endpoint, words: nat, b: bool, c: bool, x: nat)
    requires !Halted(ep.pc)
    ensures After(e, ep, words, b, c, x).pc == Bump <==> ep.pc == Commit && x == 1
  {
  }

  /** The epoch never exceeds the number of commits. */
  lemma {:induction false} EpochCountsCommits(states: seq<State>, actions: seq<Action>, n: nat)
    requires IsRun(states, actions) && n <= |actions|
    ensures states[n].mem[EPOCH] + |Bumping(states[n])| <= states[0].mem[EPOCH] + CommitCount(states, actions, n)
  {
    if n > 0 {
      EpochCountsCommits(states, actions, n - 1);
      assert StepAt(states, actions, n - 1);
      EpochStep(states[n - 1], actions[n - 1]);
    }
  }
}
