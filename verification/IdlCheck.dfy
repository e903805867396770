/** Containment of declared types and ownership of handles (bindgen/idl/check.go). */
module IdlCheck {
  import opened Wire

  // ----------------------------------------------------------- struct containment

  /** A struct or union declaration, by number. */
  datatype Node = Struct(i: nat) | Union(i: nat)

  datatype Type =
    | Scalar
    | Handle
    | StructType(i: nat)
    | UnionType(i: nat)
    | FixedArray(elem: Type, len: nat)
    | Array(elem: Type)

  /** The member types of each declaration; None where the type did not resolve. */
  datatype Spec = Spec(structs: seq<seq<Option<Type>>>, unions: seq<seq<Option<Type>>>) {
    predicate Has(n: Node) {
      if n.Struct? then n.i < |structs| else n.i < |unions|
    }

    function Members(n: Node): seq<Option<Type>>
      requires Has(n)
    {
      if n.Struct? then structs[n.i] else unions[n.i]
    }

    /** Resolved types name declarations that exist. */
    ghost predicate Closed() {
      forall n, k: nat {:trigger Edge(this, n, k)} ::
        Has(n) && k < |Members(n)| && Edge(this, n, k).Some? ==> Has(Edge(this, n, k).value)
    }
  }

  /** The struct or union whose value is part of every value of t. */
  function Dep(t: Type): Option<Node> {
    match t
    case FixedArray(e, _) => Dep(e)
    case Array(e) => Dep(e)
    case StructType(i) => Some(Struct(i))
    case UnionType(i) => Some(Union(i))
    case _ => None
  }

  /** The declaration that member k of n contains. */
  function Edge(g: Spec, n: Node, k: nat): Option<Node> {
    if g.Has(n) && k < |g.Members(n)| && g.Members(n)[k].Some? then Dep(g.Members(n)[k].value) else None
  }

  /** typeDeps. */
  method TypeDeps(t: Type) returns (d: Option<Node>)
    ensures d == Dep(t)
  {
    var u := t;
    while u.FixedArray? || u.Array?
      invariant Dep(u) == Dep(t)
      decreases u
    {
      u := u.elem;
    }
    match u
    case StructType(i) => d := Some(Struct(i));
    case UnionType(i) => d := Some(Union(i));
    case _ => d := None;
  }

  /** A member of a declaration. */
  type Member = (Node, nat)

  /** a contains b as a member that is not in cut. */
  ghost predicate Contains(g: Spec, cut: seq<Member>, a: Node, b: Node) {
    exists k: nat :: Edge(g, a, k) == Some(b) && (a, k) !in cut
  }

  /** Each declaration on the path contains the next, through members that are not in cut. */
  ghost predicate Path(g: Spec, cut: seq<Member>, p: seq<Node>) {
    |p| <= 1 || (Path(g, cut, p[..|p| - 1]) && Contains(g, cut, p[|p| - 2], p[|p| - 1]))
  }

  /** A path from a declaration back to itself through at least one member. */
  ghost predicate IsCycle(g: Spec, cut: seq<Member>, p: seq<Node>) {
    |p| >= 2 && g.Has(p[0]) && p[0] == p[|p| - 1] && Path(g, cut, p)
  }

  /** Some declaration contains itself, even without the members in cut. */
  ghost predicate HasCycle(g: Spec, cut: seq<Member>) {
    exists p :: IsCycle(g, cut, p)
  }

  /** A rank that falls along every containment but those in cut: without these, sizes can be
      computed by recursion. */
  ghost predicate WellRanked(g: Spec, cut: seq<Member>, rank: map<Node, nat>) {
    (forall n :: g.Has(n) ==> n in rank) && Falls(g, cut, rank)
  }

  /** What a ranked declaration contains is ranked lower. */
  ghost predicate Falls(g: Spec, cut: seq<Member>, rank: map<Node, nat>) {
    forall n, k: nat :: FallsAt(g, cut, rank, n, k)
  }

  ghost predicate FallsAt(g: Spec, cut: seq<Member>, rank: map<Node, nat>, n: Node, k: nat) {
    var d := Edge(g, n, k);
    n in rank && d.Some? && (n, k) !in cut ==> d.value in rank && rank[d.value] < rank[n]
  }

  lemma {:induction false} FallsOneMore(g: Spec, cut: seq<Member>, rank: map<Node, nat>, node: Node, r: nat)
    requires Falls(g, cut, rank) && node !in rank && forall n :: n in rank ==> rank[n] < r
    requires forall j: nat {:trigger Edge(g, node, j)} :: Edge(g, node, j).Some? && (node, j) !in cut ==>
      Edge(g, node, j).value in rank
    ensures Falls(g, cut, rank[node := r])
  {
    var more := rank[node := r];
    forall n, k: nat ensures FallsAt(g, cut, more, n, k) {
      assert FallsAt(g, cut, rank, n, k);
    }
  }

  lemma {:induction false} FallsWithout(g: Spec, cut: seq<Member>, rank: map<Node, nat>, m: Member)
    requires Falls(g, cut, rank)
    ensures Falls(g, cut + [m], rank)
  {
    var more := cut + [m];
    forall n, k: nat ensures FallsAt(g, more, rank, n, k) {
      assert FallsAt(g, cut, rank, n, k);
    }
  }

  lemma {:induction false} RanksFallAlongPaths(g: Spec, cut: seq<Member>, rank: map<Node, nat>, p: seq<Node>)
    requires WellRanked(g, cut, rank) && Path(g, cut, p) && |p| >= 2 && p[0] in rank
    ensures p[|p| - 1] in rank && rank[p[|p| - 1]] < rank[p[0]]
  {
    var k: nat :| Edge(g, p[|p| - 2], k) == Some(p[|p| - 1]) && (p[|p| - 2], k) !in cut;
    assert FallsAt(g, cut, rank, p[|p| - 2], k);
    if |p| > 2 {
      RanksFallAlongPaths(g, cut, rank, p[..|p| - 1]);
    }
  }

  /** Ranked declarations do not contain themselves. */
  lemma {:induction false} RankedMeansClean(g: Spec, cut: seq<Member>, rank: map<Node, nat>)
    requires WellRanked(g, cut, rank)
    ensures !HasCycle(g, cut)
  {
    if p :| IsCycle(g, cut, p) {
      RanksFallAlongPaths(g, cut, rank, p);
    }
  }

  /** The member d of a declaration closes the cycle c. */
  ghost predicate Closes(g: Spec, d: Member, c: seq<Node>) {
    IsCycle(g, [], c) && c[|c| - 2] == d.0 && Edge(g, d.0, d.1) == Some(c[0])
  }

  datatype Color = Grey | Black

  /** The state of checkCycles: the colours (white: not in the map) and the diagnostics. */
  class CycleCheck {
    const g: Spec
    var state: map<Node, Color>
    var diags: seq<Member>           // the member whose type contains itself
    ghost var rank: map<Node, nat>   // order in which declarations turned black
    ghost var turns: nat
    ghost var cycles: seq<seq<Node>> // the cycle behind each diagnostic

    constructor (g: Spec)
      ensures this.g == g && state == map[] && diags == [] && rank == map[] && cycles == []
    {
      this.g, state, diags, rank, cycles, turns := g, map[], [], map[], [], 0;
    }

    ghost predicate ColorsOk()
      reads this
    {
      g.Closed() && (forall n :: n in state ==> g.Has(n)) &&
      (forall n :: n in state && state[n] == Black <==> n in rank) &&
      (forall n :: n in rank ==> rank[n] < turns)
    }

    /** Through members that were not reported, black declarations contain black ones of lower rank. */
    ghost predicate RanksOk()
      reads this
    {
      Falls(g, diags, rank)
    }

    /** Whatever was reported is a containment cycle. */
    ghost predicate DiagsOk()
      reads this
    {
      |cycles| == |diags| && forall i :: 0 <= i < |diags| ==> Closes(g, diags[i], cycles[i])
    }

    ghost predicate Valid()
      reads this
    {
      ColorsOk() && RanksOk() && DiagsOk()
    }

    /** The grey declarations are those being visited, outermost first. */
    ghost predicate StackIs(stack: seq<Node>)
      reads this
    {
      Path(g, [], stack) && forall n :: n in stack <==> n in state && state[n] == Grey
    }

    ghost function White(): set<Node>
      reads this
    {
      AllNodes(g) - state.Keys
    }

    /** Each of the first k members of node was reported or leads to a black declaration. */
    ghost predicate Done(node: Node, k: nat)
      reads this
    {
      forall j: nat {:trigger Edge(g, node, j)} :: j < k && Edge(g, node, j).Some? ==>
        (node, j) in diags || Edge(g, node, j).value in rank
    }

    method Enter(node: Node, ghost stack: seq<Node>)
      requires Valid() && g.Has(node) && node !in state && StackIs(stack)
      requires stack != [] ==> Contains(g, [], stack[|stack| - 1], node)
      modifies this`state
      ensures Valid() && StackIs(stack + [node])
      ensures forall n :: n in state <==> n in old(state) || n == node
    {
      PathGrows(g, [], stack, node);
      state := state[node := Grey];
    }

    method Leave(node: Node, ghost stack: seq<Node>)
      requires Valid() && StackIs(stack + [node]) && node !in stack && Path(g, [], stack)
      requires Done(node, |g.Members(node)|)
      modifies this`state, this`rank, this`turns
      ensures Valid() && StackIs(stack)
      ensures forall n :: n in rank <==> n in old(rank) || n == node
      ensures forall n :: n in state <==> n in old(state)
    {
      assert node in stack + [node];
      assert node in state && state[node] == Grey && node !in rank;
      assert forall n :: n in stack + [node] <==> n in stack || n == node;
      FallsOneMore(g, diags, rank, node, turns);
      state := state[node := Black];
      rank, turns := rank[node := turns], turns + 1;
    }

    /** The visit of one declaration. stack is the path of visits that led here. */
    method Visit(node: Node, ghost stack: seq<Node>)
      requires Valid() && g.Has(node) && node !in state && StackIs(stack)
      requires stack != [] ==> Contains(g, [], stack[|stack| - 1], node)
      modifies this
      ensures Valid() && node in rank && StackIs(stack)
      ensures (forall d :: d in old(state) ==> d in state) && (forall d :: d in old(rank) ==> d in rank) && old(diags) <= diags
      decreases White(), 0
    {
      Enter(node, stack);
      assert node in AllNodes(g);
      VisitMembers(node, stack + [node]);
      Leave(node, stack);
    }

    method VisitMembers(node: Node, ghost path: seq<Node>)
      requires Valid() && g.Has(node) && StackIs(path) && path != [] && path[|path| - 1] == node
      modifies this
      ensures Valid() && StackIs(path)
      ensures (forall d :: d in old(state) ==> d in state) && (forall d :: d in old(rank) ==> d in rank) && old(diags) <= diags
      ensures Done(node, |g.Members(node)|)
      decreases White(), 2
    {
      for k := 0 to |g.Members(node)|
        invariant Valid() && StackIs(path)
        invariant (forall d :: d in old(state) ==> d in state) && (forall d :: d in old(rank) ==> d in rank) && old(diags) <= diags
        invariant Done(node, k)
      {
        VisitMember(node, k, path);
      }
    }

    /** The visit of member k of node. */
    method VisitMember(node: Node, k: nat, ghost path: seq<Node>)
      requires Valid() && g.Has(node) && k < |g.Members(node)| && StackIs(path) && path != [] && path[|path| - 1] == node
      modifies this
      ensures Valid() && StackIs(path)
      ensures (forall d :: d in old(state) ==> d in state) && (forall d :: d in old(rank) ==> d in rank) && old(diags) <= diags
      ensures Edge(g, node, k).Some? ==> (node, k) in diags || Edge(g, node, k).value in rank
      decreases White(), 1
    {
      var t := g.Members(node)[k];
      if t.Some? {
        var dep := TypeDeps(t.value);
        assert Edge(g, node, k) == dep;
        if dep.Some? {
          if dep.value in state && state[dep.value] == Grey {
            ghost var c := ClosesCycle(g, path, dep.value);
            FallsWithout(g, diags, rank, (node, k));
            diags, cycles := diags + [(node, k)], cycles + [c];
          } else if dep.value !in state {
            Visit(dep.value, path);
          }
        }
      }
    }

    /** checkCycles: every declaration is visited. It reports something exactly if some
        declaration contains itself. Every reported member closes a cycle and every cycle goes through
        a reported member; without these, containment is well-founded. */
    method Check()
      requires g.Closed() && state == map[] && diags == [] && rank == map[] && cycles == []
      modifies this
      ensures diags != [] <==> HasCycle(g, [])
      ensures forall d :: d in diags ==> exists c :: Closes(g, d, c)
      ensures !HasCycle(g, diags) && WellRanked(g, diags, rank)
    {
      ghost var structs := VisitStructs();
      ghost var all := VisitUnions(structs);
      assert WellRanked(g, diags, rank);
      RankedMeansClean(g, diags, rank);
      if diags != [] {
        assert IsCycle(g, [], cycles[0]) by {
          assert Closes(g, diags[0], cycles[0]);
        }
      }
    }

    /** A visit unless the declaration was visited before: then it is black. */
    method VisitRoot(n: Node, ghost done: set<Node>)
      requires Valid() && StackIs([]) && g.Has(n) && done <= rank.Keys
      modifies this
      ensures Valid() && StackIs([]) && done + {n} <= rank.Keys
    {
      if n !in state {
        Visit(n, []);
      }
    }

    method VisitStructs() returns (ghost done: set<Node>)
      requires Valid() && StackIs([])
      modifies this
      ensures Valid() && StackIs([]) && done <= rank.Keys && forall j :: 0 <= j < |g.structs| ==> Struct(j) in done
    {
      done := {};
      for i := 0 to |g.structs|
        invariant Valid() && StackIs([]) && done <= rank.Keys && forall j :: 0 <= j < i ==> Struct(j) in done
      {
        VisitRoot(Struct(i), done);
        done := done + {Struct(i)};
      }
    }

    method VisitUnions(ghost before: set<Node>) returns (ghost done: set<Node>)
      requires Valid() && StackIs([]) && before <= rank.Keys
      modifies this
      ensures Valid() && StackIs([]) && before <= done <= rank.Keys && forall j :: 0 <= j < |g.unions| ==> Union(j) in done
    {
      done := before;
      for i := 0 to |g.unions|
        invariant Valid() && StackIs([]) && before <= done <= rank.Keys && forall j :: 0 <= j < i ==> Union(j) in done
      {
        VisitRoot(Union(i), done);
        done := done + {Union(i)};
      }
    }
  }

  ghost function AllNodes(g: Spec): set<Node> {
    (set i | 0 <= i < |g.structs| :: Struct(i)) + (set i | 0 <= i < |g.unions| :: Union(i))
  }

  lemma {:induction false} PathGrows(g: Spec, cut: seq<Member>, p: seq<Node>, n: Node)
    requires Path(g, cut, p) && (p != [] ==> Contains(g, cut, p[|p| - 1], n))
    ensures Path(g, cut, p + [n])
  {
    assert (p + [n])[..|p|] == p;
  }

  /** An edge from the end of a path back to a declaration on it closes a cycle. */
  lemma {:induction false} ClosesCycle(g: Spec, p: seq<Node>, d: Node) returns (c: seq<Node>)
    requires Path(g, [], p) && d in p && g.Has(d) && Contains(g, [], p[|p| - 1], d)
    ensures IsCycle(g, [], c) && c[|c| - 2] == p[|p| - 1] && c[0] == d
  {
    var i :| 0 <= i < |p| && p[i] == d;
    PathEnd(g, p, i);
    PathGrows(g, [], p[i..], d);
    c := p[i..] + [d];
  }

  lemma {:induction false} PathEnd(g: Spec, p: seq<Node>, i: nat)
    requires Path(g, [], p) && i < |p|
    ensures Path(g, [], p[i..])
  {
    if i + 1 < |p| {
      var n := |p| - 1;
      PathEnd(g, p[..n], i);
      assert p[i..][..n - i] == p[..n][i..];
    }
  }

  // ------------------------------------------------------------- handle ownership

  /** What owned_by of a handle names. */
  datatype OwnedBy = NoOwner | NotAHandle | Owner(h: nat)

  datatype HandleDiag = BadName(h: nat) | OwnsItself(h: nat) | Cyclic(h: nat)

  /** The parent of each handle, by number. */
  ghost predicate ParentsOk(parent: seq<Option<nat>>) {
    forall h :: 0 <= h < |parent| && parent[h].Some? ==> parent[h].value < |parent|
  }

  /** The k-th ancestor of h; h itself is the 0-th. */
  ghost function Ancestor(parent: seq<Option<nat>>, h: nat, k: nat): (a: Option<nat>)
    requires ParentsOk(parent) && h < |parent|
    ensures a.Some? ==> a.value < |parent|
  {
    if k == 0 then Some(h)
    else
      var a := Ancestor(parent, h, k - 1);
      if a.None? then None else parent[a.value]
  }

  /** The chain of owners of h ends. */
  ghost predicate Ends(parent: seq<Option<nat>>, h: nat)
    requires ParentsOk(parent) && h < |parent|
  {
    exists k: nat :: Ancestor(parent, h, k).None?
  }

  lemma {:induction false} NoneStays(parent: seq<Option<nat>>, h: nat, k: nat, j: nat)
    requires ParentsOk(parent) && h < |parent| && k <= j && Ancestor(parent, h, k).None?
    ensures Ancestor(parent, h, j).None?
  {
    if k < j {
      NoneStays(parent, h, k, j - 1);
    }
  }

  /** Ancestors of an ancestor. */
  lemma {:induction false} AncestorsCompose(parent: seq<Option<nat>>, h: nat, i: nat, k: nat)
    requires ParentsOk(parent) && h < |parent| && Ancestor(parent, h, i).Some?
    ensures Ancestor(parent, h, i + k) == Ancestor(parent, Ancestor(parent, h, i).value, k)
  {
    if k > 0 {
      AncestorsCompose(parent, h, i, k - 1);
    }
  }

  /** A chain that ends visits no handle twice, so it ends within as many steps as there are
      handles. */
  lemma {:induction false} DistinctBeforeEnd(parent: seq<Option<nat>>, h: nat, i: nat, j: nat, d: nat)
    requires ParentsOk(parent) && h < |parent| && i < j < d
    requires Ancestor(parent, h, d - 1).Some? && Ancestor(parent, h, d).None?
    ensures Ancestor(parent, h, j).Some? && Ancestor(parent, h, i) != Ancestor(parent, h, j)
  {
    if Ancestor(parent, h, j).None? {
      NoneStays(parent, h, j, d - 1);
    } else if Ancestor(parent, h, i) == Ancestor(parent, h, j) {
      AncestorsCompose(parent, h, i, d - j);
      AncestorsCompose(parent, h, j, d - j);
      NoneStays(parent, h, i + (d - j), d - 1);
    }
  }

  ghost function Visited(parent: seq<Option<nat>>, h: nat, d: nat): set<nat>
    requires ParentsOk(parent) && h < |parent|
  {
    set i | 0 <= i < d && Ancestor(parent, h, i).Some? :: Ancestor(parent, h, i).value
  }

  lemma {:induction false} OneMoreVisited(parent: seq<Option<nat>>, h: nat, n: nat, d: nat)
    requires ParentsOk(parent) && h < |parent| && n < d
    requires Ancestor(parent, h, d - 1).Some? && Ancestor(parent, h, d).None?
    ensures Ancestor(parent, h, n).Some? && Ancestor(parent, h, n).value !in Visited(parent, h, n)
    ensures Visited(parent, h, n + 1) == Visited(parent, h, n) + {Ancestor(parent, h, n).value}
  {
    if Ancestor(parent, h, n).None? {
      NoneStays(parent, h, n, d - 1);
    } else if Ancestor(parent, h, n).value in Visited(parent, h, n) {
      var i :| 0 <= i < n && Ancestor(parent, h, i).Some? && Ancestor(parent, h, i) == Ancestor(parent, h, n);
      DistinctBeforeEnd(parent, h, i, n, d);
    }
  }

  lemma {:induction false} ManyVisited(parent: seq<Option<nat>>, h: nat, n: nat, d: nat)
    requires ParentsOk(parent) && h < |parent| && n <= d && d > 0
    requires Ancestor(parent, h, d - 1).Some? && Ancestor(parent, h, d).None?
    ensures |Visited(parent, h, n)| == n
  {
    if n == 0 {
      assert Visited(parent, h, 0) == {};
    } else {
      ManyVisited(parent, h, n - 1, d);
      OneMoreVisited(parent, h, n - 1, d);
    }
  }

  lemma {:induction false} FirstNone(parent: seq<Option<nat>>, h: nat, k: nat) returns (d: nat)
    requires ParentsOk(parent) && h < |parent| && Ancestor(parent, h, k).None?
    ensures 0 < d <= k && Ancestor(parent, h, d - 1).Some? && Ancestor(parent, h, d).None?
  {
    if Ancestor(parent, h, k - 1).None? {
      d := FirstNone(parent, h, k - 1);
    } else {
      d := k;
    }
  }

  ghost function Below(n: nat): (s: set<nat>)
    ensures |s| == n && forall i: nat :: i in s <==> i < n
  {
    if n == 0 then {} else Below(n - 1) + {n - 1}
  }

  lemma {:induction false} EndsSoon(parent: seq<Option<nat>>, h: nat)
    requires ParentsOk(parent) && h < |parent| && Ends(parent, h)
    ensures Ancestor(parent, h, |parent|).None?
  {
    var k: nat :| Ancestor(parent, h, k).None?;
    var d := FirstNone(parent, h, k);
    ManyVisited(parent, h, d, d);
    SubsetSize(Visited(parent, h, d), Below(|parent|));
    NoneStays(parent, h, d, |parent|);
  }

  /** A handle that is its own ancestor has no end to its chain. */
  lemma {:induction false} LoopNeverEnds(parent: seq<Option<nat>>, h: nat, k: nat)
    requires ParentsOk(parent) && h < |parent| && k > 0 && Ancestor(parent, h, k) == Some(h)
    ensures !Ends(parent, h)
  {
    if Ends(parent, h) {
      var n: nat :| Ancestor(parent, h, n).None?;
      var d := FirstNone(parent, h, n);
      if d <= k {
        NoneStays(parent, h, d, k);
      } else {
        DistinctBeforeEnd(parent, h, 0, k, d);
      }
    }
  }

  /** Cutting the chain of one handle leaves every chain that ended ending. */
  lemma {:induction false} CutKeepsEnds(parent: seq<Option<nat>>, c: nat, h: nat)
    requires ParentsOk(parent) && h < |parent| && c < |parent| && Ends(parent, h)
    ensures ParentsOk(parent[c := None]) && Ends(parent[c := None], h)
  {
    var k: nat :| Ancestor(parent, h, k).None?;
    CutFollows(parent, c, h, k);
  }

  /** After the cut a chain is the same as before, or ended. */
  lemma {:induction false} CutFollows(parent: seq<Option<nat>>, c: nat, h: nat, k: nat)
    requires ParentsOk(parent) && h < |parent| && c < |parent|
    ensures ParentsOk(parent[c := None])
    ensures Ancestor(parent[c := None], h, k).None? || Ancestor(parent[c := None], h, k) == Ancestor(parent, h, k)
  {
    if k > 0 {
      CutFollows(parent, c, h, k - 1);
    }
  }

  /** The walk along the owners of h: does it come back to h or take more steps than there
      are handles? */
  method IsCyclic(parent: seq<Option<nat>>, h: nat) returns (cyclic: bool)
    requires ParentsOk(parent) && h < |parent|
    ensures cyclic <==> !Ends(parent, h)
  {
    var p, steps := parent[h], 0;
    while p.Some?
      invariant p == Ancestor(parent, h, steps + 1) && steps <= |parent| + 1
      decreases |parent| + 2 - steps
    {
      if p.value == h || steps > |parent| {
        if p.value == h {
          LoopNeverEnds(parent, h, steps + 1);
        } else if Ends(parent, h) {
          EndsSoon(parent, h);
          NoneStays(parent, h, |parent|, steps + 1);
        }
        return true;
      }
      p, steps := parent[p.value], steps + 1;
    }
    return false;
  }

  /** The first loop of resolveHandleParents: the parent that handle h gets. */
  function ResolvedParent(owned: seq<OwnedBy>, h: nat): Option<nat>
    requires h < |owned|
  {
    if owned[h].Owner? && owned[h].h < |owned| && owned[h].h != h then Some(owned[h].h) else None
  }

  /** All parents after the first loop. */
  function Resolved(owned: seq<OwnedBy>): (r: seq<Option<nat>>)
    ensures |r| == |owned| && ParentsOk(r) && forall h :: 0 <= h < |owned| ==> r[h] == ResolvedParent(owned, h)
  {
    seq(|owned|, h requires 0 <= h < |owned| => ResolvedParent(owned, h))
  }

  /** What the first loop reports for handle h. */
  function NameDiag(owned: seq<OwnedBy>, h: nat): seq<HandleDiag>
    requires h < |owned|
  {
    if owned[h].NoOwner? || ResolvedParent(owned, h).Some? then []
    else if owned[h].Owner? && owned[h].h == h then [OwnsItself(h)]
    else [BadName(h)]
  }

  function NameDiags(owned: seq<OwnedBy>, n: nat): seq<HandleDiag>
    requires n <= |owned|
  {
    if n == 0 then [] else NameDiags(owned, n - 1) + NameDiag(owned, n - 1)
  }

  ghost predicate AllEnd(parent: seq<Option<nat>>)
    requires ParentsOk(parent)
  {
    forall h :: 0 <= h < |parent| ==> Ends(parent, h)
  }

  /** The chain of h comes to a handle in cut. */
  ghost predicate Meets(parent: seq<Option<nat>>, h: nat, cut: set<nat>)
    requires ParentsOk(parent) && h < |parent|
  {
    exists k: nat :: Ancestor(parent, h, k).Some? && Ancestor(parent, h, k).value in cut
  }

  /** The parents once the handles in cut have none. */
  ghost predicate IsCut(parent: seq<Option<nat>>, cut: set<nat>, after: seq<Option<nat>>) {
    |after| == |parent| && forall i :: 0 <= i < |parent| ==> after[i] == if i in cut then None else parent[i]
  }

  lemma {:induction false} CutsFollow(parent: seq<Option<nat>>, cut: set<nat>, after: seq<Option<nat>>, h: nat, k: nat)
    requires ParentsOk(parent) && IsCut(parent, cut, after) && ParentsOk(after) && h < |parent|
    ensures Ancestor(after, h, k).None? || Ancestor(after, h, k) == Ancestor(parent, h, k)
    ensures Ancestor(after, h, k) == Ancestor(parent, h, k) || Meets(parent, h, cut)
  {
    if k > 0 {
      CutsFollow(parent, cut, after, h, k - 1);
    }
  }

  /** Cutting ends exactly the chains that come to a handle without parent now. */
  lemma {:induction false} EndsAfterCuts(parent: seq<Option<nat>>, cut: set<nat>, after: seq<Option<nat>>, h: nat)
    requires ParentsOk(parent) && IsCut(parent, cut, after) && ParentsOk(after) && h < |parent|
    ensures Ends(after, h) <==> Ends(parent, h) || Meets(parent, h, cut)
  {
    if Ends(parent, h) {
      var k: nat :| Ancestor(parent, h, k).None?;
      CutsFollow(parent, cut, after, h, k);
    }
    if Meets(parent, h, cut) {
      var k: nat :| Ancestor(parent, h, k).Some? && Ancestor(parent, h, k).value in cut;
      CutsFollow(parent, cut, after, h, k);
      assert Ancestor(after, h, k).None? || Ancestor(after, h, k + 1).None?;
    }
    if Ends(after, h) {
      var k: nat :| Ancestor(after, h, k).None?;
      CutsFollow(parent, cut, after, h, k);
    }
  }

  /** The handles below h that are reported. */
  ghost function ReportedBelow(diags: seq<HandleDiag>, h: nat): set<nat> {
    set i | 0 <= i < h && Cyclic(i) in diags
  }

  /** Handle h is reported exactly if its chain does not end and comes to no reported handle before h. */
  ghost predicate RightlyCut(parent: seq<Option<nat>>, diags: seq<HandleDiag>, h: nat)
    requires ParentsOk(parent) && h < |parent|
  {
    Cyclic(h) in diags <==> !Ends(parent, h) && !Meets(parent, h, ReportedBelow(diags, h))
  }

  lemma {:induction false} StillRight(parent: seq<Option<nat>>, diags: seq<HandleDiag>, h: nat, i: nat)
    requires ParentsOk(parent) && i < h && i < |parent| && RightlyCut(parent, diags, i)
    ensures RightlyCut(parent, diags + [Cyclic(h)], i)
  {
    assert ReportedBelow(diags + [Cyclic(h)], i) == ReportedBelow(diags, i);
  }

  predicate Ascending(diags: seq<HandleDiag>) {
    forall i, j :: 0 <= i < j < |diags| ==> diags[i].h < diags[j].h
  }

  /** The second loop: cuts the chains that do not end, in place. Afterwards every chain ends;
      a handle is reported exactly if its chain did not and no handle reported before it is on it,
      once and in order, and the reported handles are those that lost their parent. */
  method CutCycles(parent: array<Option<nat>>) returns (diags: seq<HandleDiag>)
    requires ParentsOk(parent[..])
    modifies parent
    ensures ParentsOk(parent[..]) && AllEnd(parent[..])
    ensures diags == [] <==> AllEnd(old(parent[..]))
    ensures Ascending(diags) && forall d :: d in diags ==> d.Cyclic? && d.h < parent.Length
    ensures forall h :: 0 <= h < parent.Length ==> RightlyCut(old(parent[..]), diags, h)
    ensures forall h :: 0 <= h < parent.Length ==>
      parent[h] == if Cyclic(h) in diags then None else old(parent[h])
  {
    diags := [];
    ghost var was := parent[..];
    for h := 0 to parent.Length
      invariant ParentsOk(parent[..]) && IsCut(was, ReportedBelow(diags, h), parent[..])
      invariant forall i :: 0 <= i < h ==> Ends(parent[..], i) && RightlyCut(was, diags, i)
      invariant Ascending(diags) && forall d :: d in diags ==> d.Cyclic? && d.h < h
    {
      ghost var before := parent[..];
      assert forall i :: 0 <= i < h ==> Ends(before, i);
      EndsAfterCuts(was, ReportedBelow(diags, h), before, h);
      var cyclic := IsCyclic(parent[..], h);
      if cyclic {
        parent[h] := None;
        assert parent[..] == before[h := None];
        CutAt(before, h);
        forall i | 0 <= i < h ensures Ends(parent[..], i) && RightlyCut(was, diags + [Cyclic(h)], i) {
          CutKeepsEnds(before, h, i);
          StillRight(was, diags, h, i);
        }
        assert ReportedBelow(diags + [Cyclic(h)], h) == ReportedBelow(diags, h);
        assert ReportedBelow(diags + [Cyclic(h)], h + 1) == ReportedBelow(diags, h) + {h};
        diags := diags + [Cyclic(h)];
      } else {
        assert ReportedBelow(diags, h + 1) == ReportedBelow(diags, h);
      }
    }
    CutMeansCyclic(was, diags);
  }

  /** Something is reported exactly if some chain does not end. */
  lemma {:induction false} CutMeansCyclic(parent: seq<Option<nat>>, diags: seq<HandleDiag>)
    requires ParentsOk(parent) && (forall h :: 0 <= h < |parent| ==> RightlyCut(parent, diags, h))
    requires forall d :: d in diags ==> d.Cyclic? && d.h < |parent|
    ensures diags == [] <==> AllEnd(parent)
  {
    if diags != [] {
      assert diags[0] == Cyclic(diags[0].h) && RightlyCut(parent, diags, diags[0].h);
    } else {
      forall h | 0 <= h < |parent| ensures Ends(parent, h) {
        assert RightlyCut(parent, diags, h) && ReportedBelow(diags, h) == {};
      }
    }
  }

  lemma {:induction false} CutAt(parent: seq<Option<nat>>, h: nat)
    requires ParentsOk(parent) && h < |parent|
    ensures ParentsOk(parent[h := None]) && Ends(parent[h := None], h)
  {
    assert Ancestor(parent[h := None], h, 0) == Some(h);
    assert Ancestor(parent[h := None], h, 1).None?;
  }

  /** The owner of handle h, and what is to be reported about its name. */
  method ResolveName(owned: seq<OwnedBy>, h: nat) returns (parent: Option<nat>, diags: seq<HandleDiag>)
    requires h < |owned|
    ensures parent == ResolvedParent(owned, h) && NameDiags(owned, h + 1) == NameDiags(owned, h) + diags
  {
    var o := owned[h];
    if o.NotAHandle? || (o.Owner? && o.h >= |owned|) {
      return None, [BadName(h)];
    } else if o.Owner? && o.h == h {
      return None, [OwnsItself(h)];
    } else if o.Owner? {
      return Some(o.h), [];
    }
    return None, [];
  }

  /** The first loop. */
  method ResolveNames(owned: seq<OwnedBy>) returns (parent: array<Option<nat>>, diags: seq<HandleDiag>)
    ensures fresh(parent) && parent.Length == |owned| && diags == NameDiags(owned, |owned|)
    ensures forall i :: 0 <= i < |owned| ==> parent[i] == ResolvedParent(owned, i)
  {
    parent := new Option<nat>[|owned|](_ => None);
    diags := [];
    for h := 0 to |owned|
      invariant parent.Length == |owned| && fresh(parent) && diags == NameDiags(owned, h)
      invariant forall i :: 0 <= i < h ==> parent[i] == ResolvedParent(owned, i)
      invariant forall i :: h <= i < |owned| ==> parent[i] == None
    {
      var p, d := ResolveName(owned, h);
      if p.Some? {
        parent[h] := p;
      }
      diags := diags + d;
    }
  }

  lemma {:induction false} NamesAreNotCyclic(owned: seq<OwnedBy>, n: nat, h: nat)
    requires n <= |owned|
    ensures Cyclic(h) !in NameDiags(owned, n)
  {
    if n > 0 {
      NamesAreNotCyclic(owned, n - 1, h);
    }
  }

  /** resolveHandleParents. A name that is no handle and a handle owned by itself are reported
      and give no parent. Of the others, a handle is reported and loses its parent exactly if its chain
      does not end and comes to no handle reported before it; afterwards every chain ends. */
  method ResolveHandleParents(owned: seq<OwnedBy>) returns (parent: array<Option<nat>>, diags: seq<HandleDiag>)
    ensures fresh(parent) && parent.Length == |owned| && ParentsOk(parent[..]) && AllEnd(parent[..])
    ensures forall h :: 0 <= h < |owned| ==>
      parent[h] == if Cyclic(h) in diags then None else ResolvedParent(owned, h)
    ensures NameDiags(owned, |owned|) <= diags
    ensures diags == NameDiags(owned, |owned|) <==> AllEnd(Resolved(owned))
    ensures Ascending(diags[|NameDiags(owned, |owned|)|..])
    ensures forall h :: 0 <= h < |owned| ==> RightlyCut(Resolved(owned), diags[|NameDiags(owned, |owned|)|..], h)
  {
    parent, diags := ResolveNames(owned);
    assert parent[..] == Resolved(owned);
    var more := CutCycles(parent);
    forall h: nat ensures Cyclic(h) !in diags {
      NamesAreNotCyclic(owned, |owned|, h);
    }
    ghost var names := diags;
    diags := diags + more;
    assert diags[|names|..] == more;
  }
}
