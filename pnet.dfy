/** The path network over an interaction net, for `N` agent labels: one binary
    trie of branches per label, and a global table of paths that correlate one
    wire's positions in all the tries.

    As for the net, the first half describes the structures as values
    (`Trie`, `PState`) with the operations as functions and the lemmas about
    them; the second half holds the mutable objects (`AgentPNet`, `PNet`) and
    the imperative operations, each proved to compute what the corresponding
    function describes. `N` is the length of the trie sequence. */
module Pnet {
  import opened Inet

  // ---------------------------------------------------------------------------
  // Data model
  // ---------------------------------------------------------------------------

  datatype Option<T> = None | Some(value: T)

  /** A trie node: its two children, once created, and the agent paths that
      end at it. */
  datatype Branch = Branch(left: Option<nat>, right: Option<nat>, paths: seq<nat>)

  /** `Branch::default`. */
  const NoBranch: Branch := Branch(None, None, [])

  /** An edge between two branches of one trie, with the global paths that use
      it. */
  datatype AgentPath = AgentPath(b1: nat, b2: nat, paths: seq<nat>)

  /** A snapshot of one label's `AgentPNet`: the branch arena (the root is
      branch 0) and the agent paths. */
  datatype Trie = Trie(branches: seq<Branch>, paths: seq<AgentPath>)

  /** The id of the root branch of every trie. */
  const Root: nat := 0

  /** `AgentPNet::default`: the root branch alone, no agent paths. */
  const EmptyTrie: Trie := Trie([NoBranch], [])

  /** A global path: one agent path id per label. */
  datatype Path = Path(agents: seq<nat>)

  /** A snapshot of a `PNet`: one trie per label and the global paths. */
  datatype PState = PState(agents: seq<Trie>, paths: seq<Path>)

  /** `PNet::default`: `count` empty tries and no global paths. */
  function Initial(count: nat): (s: PState)
    ensures |s.agents| == count && s.paths == []
    ensures forall i | 0 <= i < count :: s.agents[i] == EmptyTrie
  {
    PState(seq(count, _ => EmptyTrie), [])
  }

  /** `[BranchId(0); N]`: the root of every trie. */
  function Roots(count: nat): (v: seq<nat>)
    ensures |v| == count && forall i | 0 <= i < count :: v[i] == Root
  {
    seq(count, _ => Root)
  }

  // ---------------------------------------------------------------------------
  // Invariants
  // ---------------------------------------------------------------------------

  /** Every child id names a branch of the trie and every agent path id named
      by a branch names an agent path of the trie. */
  predicate BranchOk(t: Trie, b: Branch) {
    && (b.left.Some? ==> b.left.value < |t.branches|)
    && (b.right.Some? ==> b.right.value < |t.branches|)
    && forall p | p in b.paths :: p < |t.paths|
  }

  /** A trie whose ids can all be followed: the accessors never index out of
      range. */
  predicate TrieOk(t: Trie) {
    && |t.branches| > 0
    && (forall b | 0 <= b < |t.branches| :: BranchOk(t, t.branches[b]))
    && (forall k | 0 <= k < |t.paths| :: t.paths[k].b1 < |t.branches| && t.paths[k].b2 < |t.branches|)
  }

  predicate StateOk(s: PState) {
    forall i | 0 <= i < |s.agents| :: TrieOk(s.agents[i])
  }

  /** The global and the per-label path tables refer to each other
      consistently: a global path names one agent path of every trie, and an
      agent path's back-references name global paths. */
  predicate LinksOk(s: PState) {
    && (forall p | 0 <= p < |s.paths| ::
          |s.paths[p].agents| == |s.agents| &&
          forall i | 0 <= i < |s.agents| :: s.paths[p].agents[i] < |s.agents[i].paths|)
    && (forall i, k | 0 <= i < |s.agents| && 0 <= k < |s.agents[i].paths| ::
          forall q | q in s.agents[i].paths[k].paths :: q < |s.paths|)
  }

  /** A position vector: one existing branch per label. */
  predicate Positions(s: PState, v: seq<nat>) {
    |v| == |s.agents| && forall i | 0 <= i < |v| :: v[i] < |s.agents[i].branches|
  }

  /** The table of half-visited wires: each entry is a position vector. */
  type Pending = map<AuxPort, seq<nat>>

  predicate PendingOk(s: PState, pending: Pending) {
    forall a | a in pending :: Positions(s, pending[a])
  }

  /** `m` extends `s`: the same labels, no fewer branches, agent paths or
      global paths. */
  predicate GrowsP(s: PState, m: PState) {
    && |m.agents| == |s.agents|
    && |s.paths| <= |m.paths|
    && forall i | 0 <= i < |s.agents| ::
         |s.agents[i].branches| <= |m.agents[i].branches| && |s.agents[i].paths| <= |m.agents[i].paths|
  }

  lemma PositionsGrow(s: PState, m: PState, v: seq<nat>)
    requires GrowsP(s, m) && Positions(s, v)
    ensures Positions(m, v)
  {
  }

  lemma PendingGrow(s: PState, m: PState, pending: Pending)
    requires GrowsP(s, m) && PendingOk(s, pending)
    ensures PendingOk(m, pending)
  {
    forall a | a in pending
      ensures Positions(m, pending[a])
    {
      PositionsGrow(s, m, pending[a]);
    }
  }

  lemma GrowsPTransitive(a: PState, b: PState, c: PState)
    requires GrowsP(a, b) && GrowsP(b, c)
    ensures GrowsP(a, c)
  {
  }

  /** Every agent's label selects one of the tries. */
  predicate LabelsBelow(n: Net, count: nat) {
    forall i | 0 <= i < |n.nodes| && n.nodes[i].Agent? :: n.nodes[i].lab as int < count
  }

  // ---------------------------------------------------------------------------
  // One trie (`AgentPNet`)
  // ---------------------------------------------------------------------------

  /** `add_left`: the left child of `parent`, created if absent. As written, a
      new child's id is the branch count before the push minus one, i.e. the
      id of the last existing branch, not of the pushed one. */
  function LeftChild(t: Trie, parent: nat): (r: (Trie, nat))
    requires parent < |t.branches|
    ensures t.branches[parent].left.Some? ==> r == (t, t.branches[parent].left.value)
    ensures t.branches[parent].left.None? ==>
      && r.1 == |t.branches| - 1
      && r.0.paths == t.paths
      && r.0.branches == t.branches[parent := t.branches[parent].(left := Some(r.1))] + [NoBranch]
    ensures TrieOk(t) ==> TrieOk(r.0) && r.1 < |r.0.branches|
  {
    match t.branches[parent].left
    case Some(id) => (t, id)
    case None =>
      var id := |t.branches| - 1;
      (t.(branches := t.branches[parent := t.branches[parent].(left := Some(id))] + [NoBranch]), id)
  }

  /** `add_right`, as written: it tests the LEFT child; only when there is
      none does it create a right child (with the same off-by-one id as
      `LeftChild`). */
  function RightChild(t: Trie, parent: nat): (r: (Trie, nat))
    requires parent < |t.branches|
    ensures t.branches[parent].left.Some? ==> r == (t, t.branches[parent].left.value)
    ensures t.branches[parent].left.None? ==>
      && r.1 == |t.branches| - 1
      && r.0.paths == t.paths
      && r.0.branches == t.branches[parent := t.branches[parent].(right := Some(r.1))] + [NoBranch]
    ensures TrieOk(t) ==> TrieOk(r.0) && r.1 < |r.0.branches|
  {
    match t.branches[parent].left
    case Some(id) => (t, id)
    case None =>
      var id := |t.branches| - 1;
      (t.(branches := t.branches[parent := t.branches[parent].(right := Some(id))] + [NoBranch]), id)
  }

  /** `add_paths` asks for the left child first, so the right child it gets
      is always the left one, and the second call changes nothing. */
  lemma RightAfterLeft(t: Trie, parent: nat)
    requires parent < |t.branches|
    ensures var (t1, left) := LeftChild(t, parent);
      RightChild(t1, parent) == (t1, left)
  {
  }

  /** On a fresh trie the first left child is the root itself: the trie gets a
      cycle and is no longer `Acyclic`. */
  lemma FirstChildIsRoot()
    ensures var (t, id) := LeftChild(EmptyTrie, Root);
      && id == Root
      && t.branches[Root].left == Some(Root)
      && |t.branches| == 2
      && !Acyclic(t.branches)
  {
  }

  /** `get_path`'s search: the first id of `xs`, in order, that also occurs in
      `ys`. */
  function FirstShared(xs: seq<nat>, ys: seq<nat>): (r: Option<nat>)
    ensures r.Some? ==> r.value in xs && r.value in ys
    ensures r.None? <==> forall x | x in xs :: x !in ys
  {
    if xs == [] then None
    else if xs[0] in ys then Some(xs[0])
    else FirstShared(xs[1..], ys)
  }

  /** `FirstShared` finds the first shared id: no earlier element of `xs` is
      shared. */
  lemma {:induction false} FirstSharedIsFirst(xs: seq<nat>, ys: seq<nat>)
    requires FirstShared(xs, ys).Some?
    ensures exists i | 0 <= i < |xs| :: xs[i] == FirstShared(xs, ys).value && forall j | 0 <= j < i :: xs[j] !in ys
  {
    if xs[0] !in ys {
      FirstSharedIsFirst(xs[1..], ys);
      var i :| 0 <= i < |xs[1..]| && xs[1..][i] == FirstShared(xs, ys).value && forall j | 0 <= j < i :: xs[1..][j] !in ys;
      assert xs[i + 1] == FirstShared(xs, ys).value;
      assert forall j | 0 <= j < i + 1 :: xs[j] !in ys by {
        forall j | 0 <= j < i + 1 ensures xs[j] !in ys {
          if j > 0 {
            assert xs[j] == xs[1..][j - 1];
          }
        }
      }
    } else {
      assert xs[0] == FirstShared(xs, ys).value;
    }
  }

  /** `AgentPNet::add_path`: the agent path between `b1` and `b2`. An id found
      by `get_path` is returned unchanged. Otherwise a new agent path is pushed
      and, as written, its id is appended to `b1`'s list twice and never to
      `b2`'s. */
  function WithAgentPath(t: Trie, b1: nat, b2: nat): (r: (Trie, nat))
    requires b1 < |t.branches| && b2 < |t.branches|
    ensures FirstShared(t.branches[b1].paths, t.branches[b2].paths).Some? ==>
      r == (t, FirstShared(t.branches[b1].paths, t.branches[b2].paths).value)
    ensures FirstShared(t.branches[b1].paths, t.branches[b2].paths).None? ==>
      && r.1 == |t.paths|
      && r.0.paths == t.paths + [AgentPath(b1, b2, [])]
      && r.0.branches == t.branches[b1 := t.branches[b1].(paths := t.branches[b1].paths + [r.1, r.1])]
    ensures |r.0.branches| == |t.branches| && r.1 in r.0.branches[b1].paths
    ensures TrieOk(t) ==> TrieOk(r.0) && r.1 < |r.0.paths|
  {
    match FirstShared(t.branches[b1].paths, t.branches[b2].paths)
    case Some(p) => (t, p)
    case None =>
      var id := |t.paths|;
      var t1 := t.(paths := t.paths + [AgentPath(b1, b2, [])]);
      var t2 := t1.(branches := t1.branches[b1 := t1.branches[b1].(paths := t1.branches[b1].paths + [id])]);
      var t3 := t2.(branches := t2.branches[b1 := t2.branches[b1].(paths := t2.branches[b1].paths + [id])]);
      assert t3.branches[b1].paths == t.branches[b1].paths + [id, id];
      (t3, id)
  }

  /** Registering a pair of one branch with itself again returns the same id
      and changes nothing. */
  lemma WithAgentPathSameBranchTwice(t: Trie, b: nat)
    requires b < |t.branches|
    ensures var (t1, id) := WithAgentPath(t, b, b);
      WithAgentPath(t1, b, b) == (t1, id)
  {
    var (t1, id) := WithAgentPath(t, b, b);
    FirstSharedSelf(t.branches[b].paths);
    if FirstShared(t.branches[b].paths, t.branches[b].paths).None? {
      assert t1.branches[b].paths == [id, id];
      FirstSharedSelf(t1.branches[b].paths);
    }
  }

  /** A non-empty list shares its first element with itself. */
  lemma FirstSharedSelf(xs: seq<nat>)
    ensures xs != [] ==> FirstShared(xs, xs) == Some(xs[0])
  {
    if xs != [] {
      assert xs[0] in xs;
    }
  }

  /** As written, registering a pair of two distinct branches that share no
      agent path creates a new agent path every time: the first id lands only
      in `b1`'s list, so the second search finds nothing shared and pushes a
      second, different agent path. */
  lemma WithAgentPathNoDedup(t: Trie, b1: nat, b2: nat)
    requires TrieOk(t) && b1 < |t.branches| && b2 < |t.branches| && b1 != b2
    requires FirstShared(t.branches[b1].paths, t.branches[b2].paths).None?
    ensures var (t1, id1) := WithAgentPath(t, b1, b2);
      var (t2, id2) := WithAgentPath(t1, b1, b2);
      id1 != id2 && |t2.paths| == |t.paths| + 2
  {
    var (t1, id1) := WithAgentPath(t, b1, b2);
    assert t1.branches[b2] == t.branches[b2];
    assert BranchOk(t, t.branches[b2]);
    forall x | x in t1.branches[b1].paths
      ensures x !in t1.branches[b2].paths
    {
      if x !in t.branches[b1].paths {
        assert x == id1 == |t.paths|;
      }
    }
  }

  /** `path_mut(id).paths.push(pid)`: record that global path `pid` uses agent
      path `id`. */
  function UsePath(t: Trie, id: nat, pid: nat): (r: Trie)
    requires id < |t.paths|
    ensures r.branches == t.branches && |r.paths| == |t.paths|
    ensures r.paths[id].paths == t.paths[id].paths + [pid]
    ensures forall k | 0 <= k < |t.paths| && k != id :: r.paths[k] == t.paths[k]
  {
    t.(paths := t.paths[id := t.paths[id].(paths := t.paths[id].paths + [pid])])
  }

  // ---------------------------------------------------------------------------
  // Pruning (`remove_empty_branches`)
  // ---------------------------------------------------------------------------

  /** A child id exceeds its parent's id. */
  predicate ChildAfter(bs: seq<Branch>, b: nat, c: Option<nat>) {
    c.Some? ==> b < c.value < |bs|
  }

  /** Every child id exceeds its parent's id, so the recursive pruning
      terminates. */
  predicate Acyclic(bs: seq<Branch>) {
    forall b | 0 <= b < |bs| :: ChildAfter(bs, b, bs[b].left) && ChildAfter(bs, b, bs[b].right)
  }

  /** `r` is `bs` with some child links cleared and nothing else changed. */
  predicate Cleared(bs: seq<Branch>, r: seq<Branch>) {
    && |r| == |bs|
    && forall b | 0 <= b < |bs| ::
         && r[b].paths == bs[b].paths
         && (r[b].left == bs[b].left || r[b].left.None?)
         && (r[b].right == bs[b].right || r[b].right.None?)
  }

  lemma ClearedTransitive(a: seq<Branch>, b: seq<Branch>, c: seq<Branch>)
    requires Cleared(a, b) && Cleared(b, c)
    ensures Cleared(a, c)
  {
  }

  /** Clearing links cannot create a cycle. */
  lemma ClearedAcyclic(bs: seq<Branch>, r: seq<Branch>)
    requires Acyclic(bs) && Cleared(bs, r)
    ensures Acyclic(r)
  {
  }

  /** Clear the left and the right link of branch `id` unless they are kept. */
  function Detached(bs: seq<Branch>, id: nat, keepLeft: bool, keepRight: bool): (r: seq<Branch>)
    requires id < |bs|
    ensures Cleared(bs, r)
    ensures forall b | 0 <= b < |bs| && b != id :: r[b] == bs[b]
    ensures r[id].left == (if keepLeft then bs[id].left else None)
    ensures r[id].right == (if keepRight then bs[id].right else None)
  {
    var bs3 := if !keepLeft then bs[id := bs[id].(left := None)] else bs;
    if !keepRight then bs3[id := bs3[id].(right := None)] else bs3
  }

  /** `remove_empty_branches` from branch `id`: prune both children (left
      first, each on the branches the previous step left), clear the link to
      every child that is absent or not alive, and report whether `id` is
      alive: both children alive and at least one agent path. */
  function Pruned(bs: seq<Branch>, id: nat): (r: (seq<Branch>, bool))
    requires Acyclic(bs) && id < |bs|
    ensures Cleared(bs, r.0) && Acyclic(r.0)
    ensures forall b | 0 <= b < id :: r.0[b] == bs[b]
    // no branch is ever alive: a branch without children is not, and a branch
    // needs both children alive to be
    ensures !r.1
    ensures r.0[id].left.None? && r.0[id].right.None?
    decreases |bs| - id
  {
    var b := bs[id];
    var hasPaths := |b.paths| > 0;
    var (bs1, isLeft) := if b.left.Some? then Pruned(bs, b.left.value) else (bs, false);
    var (bs2, isRight) := if b.right.Some? then Pruned(bs1, b.right.value) else (bs1, false);
    ClearedTransitive(bs, bs1, bs2);
    var bs4 := Detached(bs2, id, isLeft, isRight);
    ClearedTransitive(bs, bs2, bs4);
    ClearedAcyclic(bs, bs4);
    (bs4, isLeft && isRight && hasPaths)
  }

  /** Branch `b` is `a` or lies below it. */
  ghost predicate Reaches(bs: seq<Branch>, a: nat, b: nat)
    requires Acyclic(bs) && a < |bs|
    decreases |bs| - a
  {
    || a == b
    || (bs[a].left.Some? && Reaches(bs, bs[a].left.value, b))
    || (bs[a].right.Some? && Reaches(bs, bs[a].right.value, b))
  }

  lemma {:induction false} ReachesTransitive(bs: seq<Branch>, a: nat, b: nat, c: nat)
    requires Acyclic(bs) && a < |bs| && b < |bs|
    requires Reaches(bs, a, b) && Reaches(bs, b, c)
    ensures Reaches(bs, a, c)
    decreases |bs| - a
  {
    if a != b {
      if bs[a].left.Some? && Reaches(bs, bs[a].left.value, b) {
        ReachesTransitive(bs, bs[a].left.value, b, c);
      } else {
        ReachesTransitive(bs, bs[a].right.value, b, c);
      }
    }
  }

  /** Clearing links only removes reachable branches. */
  lemma {:induction false} ClearedReaches(bs: seq<Branch>, r: seq<Branch>, a: nat, b: nat)
    requires Acyclic(bs) && Cleared(bs, r) && a < |bs|
    requires Acyclic(r) && Reaches(r, a, b)
    ensures Reaches(bs, a, b)
    decreases |bs| - a
  {
    if a != b {
      if r[a].left.Some? && Reaches(r, r[a].left.value, b) {
        ClearedReaches(bs, r, r[a].left.value, b);
      } else {
        ClearedReaches(bs, r, r[a].right.value, b);
      }
    }
  }

  /** After pruning below `l`, a branch that `c` reaches is still reached
      from `c`, or lies below `l`. */
  lemma {:induction false} ReachesAround(bs: seq<Branch>, bs1: seq<Branch>, l: nat, c: nat, x: nat)
    requires Acyclic(bs) && Cleared(bs, bs1) && Acyclic(bs1) && l < |bs| && c < |bs|
    requires forall y | 0 <= y < |bs| && !Reaches(bs, l, y) :: bs1[y] == bs[y]
    requires Reaches(bs, c, x)
    ensures Reaches(bs1, c, x) || Reaches(bs, l, x)
    decreases |bs| - c
  {
    if c != x {
      if Reaches(bs, l, c) {
        ReachesTransitive(bs, l, c, x);
      } else if bs[c].left.Some? && Reaches(bs, bs[c].left.value, x) {
        ReachesAround(bs, bs1, l, bs[c].left.value, x);
      } else {
        ReachesAround(bs, bs1, l, bs[c].right.value, x);
      }
    }
  }

  /** `remove_empty_branches` from `id` leaves every branch below `id`
      without children and every other branch as it was. */
  lemma {:induction false} PrunedReach(bs: seq<Branch>, id: nat)
    requires Acyclic(bs) && id < |bs|
    ensures forall x | 0 <= x < |bs| && Reaches(bs, id, x) :: Pruned(bs, id).0[x].left.None? && Pruned(bs, id).0[x].right.None?
    ensures forall x | 0 <= x < |bs| && !Reaches(bs, id, x) :: Pruned(bs, id).0[x] == bs[x]
    decreases |bs| - id
  {
    var b := bs[id];
    var bs1 := if b.left.Some? then Pruned(bs, b.left.value).0 else bs;
    var bs2 := if b.right.Some? then Pruned(bs1, b.right.value).0 else bs1;
    var bs4 := Detached(bs2, id, false, false);
    assert Pruned(bs, id).0 == bs4;
    if b.left.Some? {
      PrunedReach(bs, b.left.value);
    }
    ClearedAcyclic(bs, bs1);
    if b.right.Some? {
      PrunedReach(bs1, b.right.value);
    }
    forall x | 0 <= x < |bs| && Reaches(bs, id, x)
      ensures bs4[x].left.None? && bs4[x].right.None?
    {
      if x != id {
        if b.left.Some? && Reaches(bs, b.left.value, x) {
          assert bs1[x].left.None? && bs1[x].right.None?;
        } else if b.left.Some? {
          ReachesAround(bs, bs1, b.left.value, b.right.value, x);
        }
      }
    }
    forall x | 0 <= x < |bs| && !Reaches(bs, id, x)
      ensures bs4[x] == bs[x]
    {
      if b.right.Some? && Reaches(bs1, b.right.value, x) {
        ClearedReaches(bs, bs1, b.right.value, x);
      }
    }
  }

  // ---------------------------------------------------------------------------
  // The traversal (`add_paths`, `from_inet`)
  // ---------------------------------------------------------------------------

  /** The step of `add_paths` at an agent of label `lab`: ask trie `lab` for
      the left and then the right child of the current branch, and move the
      two position vectors there. Only trie `lab` and only position `lab`
      change, and, since the right child asked for second is the left one,
      both children's vectors are equal. */
  function Descend(s: PState, lab: nat, parents: seq<nat>): (r: (PState, seq<nat>, seq<nat>))
    requires StateOk(s) && Positions(s, parents) && lab < |s.agents|
    ensures StateOk(r.0) && GrowsP(s, r.0) && Positions(r.0, r.1) && Positions(r.0, r.2)
    ensures r.0.paths == s.paths
    ensures forall i | 0 <= i < |s.agents| && i != lab :: r.0.agents[i] == s.agents[i]
    ensures r.0.agents[lab] == LeftChild(s.agents[lab], parents[lab]).0
    ensures forall i | 0 <= i < |parents| && i != lab :: r.1[i] == parents[i] && r.2[i] == parents[i]
    ensures r.1[lab] == LeftChild(s.agents[lab], parents[lab]).1
    ensures r.1 == r.2
  {
    var (t1, left) := LeftChild(s.agents[lab], parents[lab]);
    RightAfterLeft(s.agents[lab], parents[lab]);
    var (t2, right) := RightChild(t1, parents[lab]);
    (s.(agents := s.agents[lab := t2]), parents[lab := left], parents[lab := right])
  }

  /** The second visit of a wire, reached from positions `mine` after it was
      first seen from positions `other`: in every trie the agent path between
      the two branches is found or created, one global path made of those
      agent path ids is appended, and each of those agent paths records it. */
  function Linked(s: PState, mine: seq<nat>, other: seq<nat>): (r: PState)
    requires StateOk(s) && Positions(s, mine) && Positions(s, other)
    ensures StateOk(r) && GrowsP(s, r)
    ensures |r.paths| == |s.paths| + 1 && r.paths[..|s.paths|] == s.paths
    ensures |r.paths[|s.paths|].agents| == |s.agents|
    ensures forall i | 0 <= i < |s.agents| ::
      var id := r.paths[|s.paths|].agents[i];
      && |r.agents[i].branches| == |s.agents[i].branches|
      && id < |r.agents[i].paths|
      && id in r.agents[i].branches[mine[i]].paths
      && |r.agents[i].paths[id].paths| > 0
      && r.agents[i].paths[id].paths[|r.agents[i].paths[id].paths| - 1] == |s.paths|
  {
    var ids := seq(|s.agents|, i requires 0 <= i < |s.agents| => Joined(s.agents[i], mine[i], other[i], |s.paths|).1);
    var tries := seq(|s.agents|, i requires 0 <= i < |s.agents| => Joined(s.agents[i], mine[i], other[i], |s.paths|).0);
    PState(tries, s.paths + [Path(ids)])
  }

  /** One trie's part in closing a wire between branches `b1` and `b2`: find
      or create their agent path, and record global path `pid` in it. */
  function Joined(t: Trie, b1: nat, b2: nat, pid: nat): (r: (Trie, nat))
    requires TrieOk(t) && b1 < |t.branches| && b2 < |t.branches|
    ensures TrieOk(r.0) && |r.0.branches| == |t.branches| && |t.paths| <= |r.0.paths|
    ensures r.1 < |r.0.paths| && r.1 in r.0.branches[b1].paths
    ensures |r.0.paths[r.1].paths| > 0 && r.0.paths[r.1].paths[|r.0.paths[r.1].paths| - 1] == pid
  {
    var (t1, id) := WithAgentPath(t, b1, b2);
    (UsePath(t1, id, pid), id)
  }

  /** `add_paths`: walk the net from `port` with the position vector
      `parents`, growing the tries and the global paths of `s` and the table
      `pending` of half-visited wires. An eraser changes nothing; an agent
      descends in its label's trie and walks its left and then its right
      slot; a slot seen before closes its wire into a global path; a slot
      not seen before records the positions under both ends of its wire. */
  function Traversed(n: Net, port: Port, parents: seq<nat>, s: PState, pending: Pending): (r: Result<(PState, Pending)>)
    requires WellFormed(n) && PortOk(n, port, -1) && LabelsBelow(n, |s.agents|)
    requires StateOk(s) && Positions(s, parents) && PendingOk(s, pending)
    ensures r.Ok? ==> StateOk(r.value.0) && GrowsP(s, r.value.0) && PendingOk(r.value.0, r.value.1)
    ensures r.Ok? ==> pending.Keys <= r.value.1.Keys
    ensures r.Err? ==> r.error == NoAuxPorts || r.error == UnexpectedPrincipal
    decreases Measure(n, port)
  {
    match port
    case Principal(i) =>
      (match n.nodes[i]
       case Era(_) => Ok((s, pending))
       case Agent(lab, _, l, rt) =>
         var (s1, pl, pr) := Descend(s, lab as nat, parents);
         PendingGrow(s, s1, pending);
         match Traversed(n, l, pl, s1, pending)
         case Err(e) => Err(e)
         case Ok(r1) =>
           PositionsGrow(s1, r1.0, pr);
           match Traversed(n, rt, pr, r1.0, r1.1)
           case Err(e) => Err(e)
           case Ok(r2) => Ok(r2))
    case Aux(a) =>
      if a in pending then
        var s1 := Linked(s, parents, pending[a]);
        PendingGrow(s, s1, pending);
        Ok((s1, pending))
      else
        match ReadAux(n, a)
        case Err(e) => Err(e)
        case Ok(Principal(_)) => Err(UnexpectedPrincipal)
        case Ok(Aux(b)) => Ok((s, pending[a := parents][b := parents]))
  }

  /** `from_inet` from free port `k` on: each free port is walked from the
      roots of all tries, with one pending table shared by all ports; the
      first error stops the walk. */
  function TraversedFrom(n: Net, k: nat, s: PState, pending: Pending): (r: Result<PState>)
    requires WellFormed(n) && k <= |n.free| && LabelsBelow(n, |s.agents|)
    requires StateOk(s) && PendingOk(s, pending)
    ensures r.Ok? ==> StateOk(r.value) && GrowsP(s, r.value)
    ensures r.Err? ==> r.error == NoAuxPorts || r.error == UnexpectedPrincipal
    decreases |n.free| - k
  {
    if k == |n.free| then Ok(s)
    else
      match Traversed(n, n.free[k], Roots(|s.agents|), s, pending)
      case Err(e) => Err(e)
      case Ok(r1) => TraversedFrom(n, k + 1, r1.0, r1.1)
  }

  /** `from_inet`: the path network of `n` over `count` labels. */
  function PNetOf(n: Net, count: nat): (r: Result<PState>)
    requires WellFormed(n) && LabelsBelow(n, count)
    ensures r.Ok? ==> StateOk(r.value) && |r.value.agents| == count
  {
    TraversedFrom(n, 0, Initial(count), map[])
  }

  /** The cases of `add_paths`: an eraser changes nothing; a slot seen before
      closes its wire; a slot seen for the first time records the same
      positions under both ends of its wire and leaves the tries and paths
      alone, unless its counterpart is a principal port, which is an error. */
  lemma TraversedCases(n: Net, port: Port, parents: seq<nat>, s: PState, pending: Pending)
    requires WellFormed(n) && PortOk(n, port, -1) && LabelsBelow(n, |s.agents|)
    requires StateOk(s) && Positions(s, parents) && PendingOk(s, pending)
    ensures var r := Traversed(n, port, parents, s, pending);
      && (port.Principal? && n.nodes[port.id].Era? ==> r == Ok((s, pending)))
      && (port.Aux? && port.aux in pending ==> r == Ok((Linked(s, parents, pending[port.aux]), pending)))
      && (port.Aux? && port.aux !in pending && ReadAux(n, port.aux).Ok? && ReadAux(n, port.aux).value.Principal? ==>
            r == Err(UnexpectedPrincipal))
      && (port.Aux? && port.aux !in pending && ReadAux(n, port.aux).Ok? && ReadAux(n, port.aux).value.Aux? ==>
            r == Ok((s, pending[port.aux := parents][ReadAux(n, port.aux).value.aux := parents])))
  {
  }

  /** Descending keeps the path tables consistent. */
  lemma DescendLinksOk(s: PState, lab: nat, parents: seq<nat>)
    requires StateOk(s) && Positions(s, parents) && lab < |s.agents| && LinksOk(s)
    ensures LinksOk(Descend(s, lab, parents).0)
  {
    var s1 := Descend(s, lab, parents).0;
    assert s1.agents[lab].paths == s.agents[lab].paths;
    forall i | 0 <= i < |s.agents|
      ensures s1.agents[i].paths == s.agents[i].paths
    {
    }
  }

  /** Closing a wire keeps the path tables consistent: the new global path
      names the agent paths it was built from, and the only new
      back-reference is the new global path. */
  lemma LinkedLinksOk(s: PState, mine: seq<nat>, other: seq<nat>)
    requires StateOk(s) && Positions(s, mine) && Positions(s, other) && LinksOk(s)
    ensures LinksOk(Linked(s, mine, other))
  {
    var r := Linked(s, mine, other);
    forall i, k | 0 <= i < |s.agents| && 0 <= k < |r.agents[i].paths|
      ensures forall q | q in r.agents[i].paths[k].paths :: q < |r.paths|
    {
      var (t1, id) := WithAgentPath(s.agents[i], mine[i], other[i]);
      assert r.agents[i] == UsePath(t1, id, |s.paths|);
      if k < |s.agents[i].paths| {
        assert t1.paths[k] == s.agents[i].paths[k];
      } else {
        assert t1.paths[k].paths == [];
      }
    }
  }

  /** `add_paths` keeps the path tables consistent. */
  lemma {:induction false} TraversedLinksOk(n: Net, port: Port, parents: seq<nat>, s: PState, pending: Pending)
    requires WellFormed(n) && PortOk(n, port, -1) && LabelsBelow(n, |s.agents|)
    requires StateOk(s) && Positions(s, parents) && PendingOk(s, pending) && LinksOk(s)
    requires Traversed(n, port, parents, s, pending).Ok?
    ensures LinksOk(Traversed(n, port, parents, s, pending).value.0)
    decreases Measure(n, port)
  {
    match port
    case Principal(i) =>
      match n.nodes[i] {
        case Era(_) =>
        case Agent(lab, _, l, rt) =>
          var (s1, pl, pr) := Descend(s, lab as nat, parents);
          DescendLinksOk(s, lab as nat, parents);
          PendingGrow(s, s1, pending);
          var r1 := Traversed(n, l, pl, s1, pending).value;
          TraversedLinksOk(n, l, pl, s1, pending);
          PositionsGrow(s1, r1.0, pr);
          TraversedLinksOk(n, rt, pr, r1.0, r1.1);
      }
    case Aux(a) =>
      if a in pending {
        LinkedLinksOk(s, parents, pending[a]);
      }
  }

  lemma {:induction false} TraversedFromLinksOk(n: Net, k: nat, s: PState, pending: Pending)
    requires WellFormed(n) && k <= |n.free| && LabelsBelow(n, |s.agents|)
    requires StateOk(s) && PendingOk(s, pending) && LinksOk(s)
    requires TraversedFrom(n, k, s, pending).Ok?
    ensures LinksOk(TraversedFrom(n, k, s, pending).value)
    decreases |n.free| - k
  {
    if k < |n.free| {
      TraversedLinksOk(n, n.free[k], Roots(|s.agents|), s, pending);
      var r1 := Traversed(n, n.free[k], Roots(|s.agents|), s, pending).value;
      TraversedFromLinksOk(n, k + 1, r1.0, r1.1);
    }
  }

  /** The path network of a well-formed net has consistent path tables. */
  lemma PNetOfLinksOk(n: Net, count: nat)
    requires WellFormed(n) && LabelsBelow(n, count) && PNetOf(n, count).Ok?
    ensures LinksOk(PNetOf(n, count).value)
  {
    TraversedFromLinksOk(n, 0, Initial(count), map[]);
  }

  /** `PNet::remove_empty_branches` on a snapshot: every trie pruned from its
      root. The branch counts, the agent paths, the branches' path lists and
      the global paths stay; every root ends up without children. */
  function PrunedAll(s: PState): (r: PState)
    requires forall i | 0 <= i < |s.agents| :: Acyclic(s.agents[i].branches) && |s.agents[i].branches| > 0
    ensures |r.agents| == |s.agents| && r.paths == s.paths
    ensures forall i | 0 <= i < |s.agents| ::
      && |r.agents[i].branches| == |s.agents[i].branches|
      && r.agents[i].paths == s.agents[i].paths
      && Acyclic(r.agents[i].branches)
      && r.agents[i].branches[Root].left.None? && r.agents[i].branches[Root].right.None?
    ensures forall i, b | 0 <= i < |s.agents| && 0 <= b < |s.agents[i].branches| ::
      r.agents[i].branches[b].paths == s.agents[i].branches[b].paths
  {
    PState(seq(|s.agents|, i requires 0 <= i < |s.agents| && Acyclic(s.agents[i].branches) && |s.agents[i].branches| > 0 =>
      s.agents[i].(branches := Pruned(s.agents[i].branches, Root).0)), s.paths)
  }

  // ---------------------------------------------------------------------------
  // The mutable objects and the imperative operations
  // ---------------------------------------------------------------------------

  /** The trie of one label: a branch arena, with the root at `root`, and the
      agent paths between its branches. */
  class AgentPNet {
    var branches: seq<Branch>
    var paths: seq<AgentPath>
    const root: nat := Root

    /** The current contents, as a value. */
    function View(): Trie
      reads this
    {
      Trie(branches, paths)
    }

    /** `AgentPNet::default`. */
    constructor ()
      ensures View() == EmptyTrie
    {
      branches := [NoBranch];
      paths := [];
    }

    /** `add_left`. */
    method AddLeft(parentId: nat) returns (id: nat)
      requires parentId < |branches|
      modifies this
      ensures (View(), id) == LeftChild(old(View()), parentId)
    {
      var parent := branches[parentId];
      if parent.left.Some? {
        return parent.left.value;
      }
      id := |branches| - 1;
      branches := branches[parentId := parent.(left := Some(id))];
      branches := branches + [NoBranch];
    }

    /** `add_right`, testing the left child as the source does. */
    method AddRight(parentId: nat) returns (id: nat)
      requires parentId < |branches|
      modifies this
      ensures (View(), id) == RightChild(old(View()), parentId)
    {
      var parent := branches[parentId];
      if parent.left.Some? {
        return parent.left.value;
      }
      id := |branches| - 1;
      branches := branches[parentId := parent.(right := Some(id))];
      branches := branches + [NoBranch];
    }

    /** `get_path`: compare every id of `b1`'s list, in order, with every id
        of `b2`'s list and return the first match. */
    method GetPath(b1Id: nat, b2Id: nat) returns (r: Option<nat>)
      requires b1Id < |branches| && b2Id < |branches|
      ensures r == FirstShared(branches[b1Id].paths, branches[b2Id].paths)
    {
      var xs := branches[b1Id].paths;
      var ys := branches[b2Id].paths;
      for i := 0 to |xs|
        invariant FirstShared(xs[i..], ys) == FirstShared(xs, ys)
      {
        for j := 0 to |ys|
          invariant xs[i] !in ys[..j]
        {
          if xs[i] == ys[j] {
            assert xs[i..][0] == xs[i];
            return Some(xs[i]);
          }
        }
        assert ys[..|ys|] == ys;
        assert xs[i..][1..] == xs[i + 1..];
      }
      assert xs[|xs|..] == [];
      return None;
    }

    /** `add_path`: reuse a shared agent path, or create one and append its
        id to `b1`'s list twice, as the source does. */
    method AddPath(b1Id: nat, b2Id: nat) returns (id: nat)
      requires b1Id < |branches| && b2Id < |branches|
      modifies this
      ensures (View(), id) == WithAgentPath(old(View()), b1Id, b2Id)
    {
      var found := GetPath(b1Id, b2Id);
      if found.Some? {
        return found.value;
      }
      paths := paths + [AgentPath(b1Id, b2Id, [])];
      id := |paths| - 1;
      branches := branches[b1Id := branches[b1Id].(paths := branches[b1Id].paths + [id])];
      branches := branches[b1Id := branches[b1Id].(paths := branches[b1Id].paths + [id])];
    }

    /** `path_mut(id).paths.push(pid)`. */
    method PushUse(id: nat, pid: nat)
      requires id < |paths|
      modifies this
      ensures View() == UsePath(old(View()), id, pid)
    {
      paths := paths[id := paths[id].(paths := paths[id].paths + [pid])];
    }

    /** `AgentPNet::remove_empty_branches`: prune from the root. */
    method RemoveEmptyBranches()
      requires Acyclic(branches) && |branches| > 0
      modifies this
      ensures branches == Pruned(old(branches), Root).0 && paths == old(paths)
    {
      var _ := RemoveEmptyBranchesAt(this, root);
    }
  }

  /** `remove_empty_branches`: prune the subtrie below `branchId` in place and
      report whether that branch is alive. */
  method RemoveEmptyBranchesAt(agent: AgentPNet, branchId: nat) returns (alive: bool)
    requires Acyclic(agent.branches) && branchId < |agent.branches|
    modifies agent
    ensures (agent.branches, alive) == Pruned(old(agent.branches), branchId)
    ensures agent.paths == old(agent.paths)
    decreases |agent.branches| - branchId
  {
    var branch := agent.branches[branchId];
    var hasPaths := |branch.paths| > 0;
    var isLeft := false;
    if branch.left.Some? {
      isLeft := RemoveEmptyBranchesAt(agent, branch.left.value);
    }
    var isRight := false;
    if branch.right.Some? {
      isRight := RemoveEmptyBranchesAt(agent, branch.right.value);
    }
    if !isLeft {
      agent.branches := agent.branches[branchId := agent.branches[branchId].(left := None)];
    }
    if !isRight {
      agent.branches := agent.branches[branchId := agent.branches[branchId].(right := None)];
    }
    alive := isLeft && isRight && hasPaths;
  }

  /** The path network: one trie object per label, and the global paths. */
  class PNet {
    const agents: seq<AgentPNet>
    var paths: seq<Path>

    /** The tries are distinct objects, so updating one leaves the others. */
    ghost predicate Valid()
      reads this
    {
      forall i, j | 0 <= i < j < |agents| :: agents[i] != agents[j]
    }

    /** The current contents, as a value. */
    function View(): PState
      reads this, agents
    {
      PState(seq(|agents|, i reads agents requires 0 <= i < |agents| => agents[i].View()), paths)
    }

    /** `PNet::default`: `count` fresh empty tries and no global paths. */
    constructor (count: nat)
      ensures Valid() && View() == Initial(count)
      ensures forall i | 0 <= i < |agents| :: fresh(agents[i])
    {
      var tries: seq<AgentPNet> := [];
      for i := 0 to count
        invariant |tries| == i
        invariant forall k | 0 <= k < i :: fresh(tries[k]) && tries[k].View() == EmptyTrie
        invariant forall k, l | 0 <= k < l < i :: tries[k] != tries[l]
      {
        var t := new AgentPNet();
        tries := tries + [t];
      }
      agents := tries;
      paths := [];
      new;
      assert View().agents == Initial(count).agents;
    }

    /** `PNet::add_path`: append a global path and return its index. */
    method AddPath(agentPaths: seq<nat>) returns (pid: nat)
      modifies this
      ensures paths == old(paths) + [Path(agentPaths)] && pid == |old(paths)|
      ensures pid < |paths| && paths[pid] == Path(agentPaths)
    {
      paths := paths + [Path(agentPaths)];
      pid := |paths| - 1;
    }

    /** `PNet::remove_empty_branches`: prune every trie from its root. */
    method RemoveEmptyBranches()
      requires Valid()
      requires forall i | 0 <= i < |agents| :: Acyclic(agents[i].branches) && |agents[i].branches| > 0
      modifies agents
      ensures View() == PrunedAll(old(View()))
    {
      ghost var s := View();
      assert |s.agents| == |agents|;
      assert forall k | 0 <= k < |agents| ::
        s.agents[k] == Trie(agents[k].branches, agents[k].paths) && Acyclic(s.agents[k].branches) && |s.agents[k].branches| > 0;
      for i := 0 to |agents|
        invariant forall k | 0 <= k < i ::
          agents[k].branches == Pruned(s.agents[k].branches, Root).0 && agents[k].paths == s.agents[k].paths
        invariant forall k | i <= k < |agents| :: agents[k].branches == s.agents[k].branches && agents[k].paths == s.agents[k].paths
        invariant paths == s.paths
      {
        assert forall k | 0 <= k < |agents| && k != i :: agents[k] != agents[i];
        agents[i].RemoveEmptyBranches();
      }
      PrunedAllIs(s, View());
    }

    /** `from_inet`: build the path network of `inet` over `count` labels by
        walking every free port from the roots, with one pending table. */
    static method FromInet(inet: INet, count: nat) returns (r: Result<PNet>)
      requires WellFormed(inet.View()) && LabelsBelow(inet.View(), count)
      ensures var e := PNetOf(inet.View(), count);
        && (e.Ok? ==> r.Ok? && fresh(r.value) && r.value.Valid() && r.value.View() == e.value)
        && (e.Err? ==> r == Err(e.error))
    {
      ghost var n := inet.View();
      var res := new PNet(count);
      var pending: Pending := map[];
      for i := 0 to |inet.freePorts|
        invariant fresh(res) && res.Valid() && |res.agents| == count
        invariant forall k | 0 <= k < count :: fresh(res.agents[k])
        invariant StateOk(res.View()) && PendingOk(res.View(), pending)
        invariant TraversedFrom(n, i, res.View(), pending) == PNetOf(n, count)
      {
        ghost var before := res.View();
        TraversedFromStep(n, i, before, pending);
        var e;
        e, pending := AddPaths(inet.freePorts[i], inet, Roots(count), res, pending);
        if e.Err? {
          return Err(e.error);
        }
      }
      TraversedFromEnd(n, res.View(), pending);
      return Ok(res);
    }
  }

  /** One free port of `from_inet`: its walk's error ends the whole walk,
      its result is where the walk of the next port starts. */
  lemma TraversedFromStep(n: Net, k: nat, s: PState, pending: Pending)
    requires WellFormed(n) && k < |n.free| && LabelsBelow(n, |s.agents|)
    requires StateOk(s) && PendingOk(s, pending)
    ensures var e := Traversed(n, n.free[k], Roots(|s.agents|), s, pending);
      && (e.Err? ==> TraversedFrom(n, k, s, pending) == Err(e.error))
      && (e.Ok? ==> TraversedFrom(n, k, s, pending) == TraversedFrom(n, k + 1, e.value.0, e.value.1))
  {
  }

  lemma TraversedFromEnd(n: Net, s: PState, pending: Pending)
    requires WellFormed(n) && LabelsBelow(n, |s.agents|) && StateOk(s) && PendingOk(s, pending)
    ensures TraversedFrom(n, |n.free|, s, pending) == Ok(s)
  {
  }

  /** `PrunedAll` is what pruning every trie in turn produces. */
  lemma PrunedAllIs(s: PState, r: PState)
    requires forall i | 0 <= i < |s.agents| :: Acyclic(s.agents[i].branches) && |s.agents[i].branches| > 0
    requires |r.agents| == |s.agents| && r.paths == s.paths
    requires forall k | 0 <= k < |s.agents| :: r.agents[k] == s.agents[k].(branches := Pruned(s.agents[k].branches, Root).0)
    ensures r == PrunedAll(s)
  {
    assert r.agents == PrunedAll(s).agents;
  }

  /** `add_paths`: the walk `Traversed` describes, on the objects. */
  method AddPaths(port: Port, inet: INet, parents: seq<nat>, pnet: PNet, pending: Pending)
    returns (r: Result<()>, pending': Pending)
    requires pnet.Valid()
    requires WellFormed(inet.View()) && PortOk(inet.View(), port, -1) && LabelsBelow(inet.View(), |pnet.agents|)
    requires StateOk(pnet.View()) && Positions(pnet.View(), parents) && PendingOk(pnet.View(), pending)
    modifies pnet, pnet.agents
    ensures var e := Traversed(inet.View(), port, parents, old(pnet.View()), pending);
      && (e.Ok? ==> r.Ok? && pnet.View() == e.value.0 && pending' == e.value.1)
      && (e.Err? ==> r == Err(e.error))
    decreases Measure(inet.View(), port)
  {
    ghost var s := pnet.View();
    match port
    case Principal(nodeId) =>
      var node := inet.NodeAt(nodeId);
      match node {
        case Era(_) =>
          return Ok(()), pending;
        case Agent(lab, _, l, rt) =>
          TraversedAgent(inet.View(), nodeId, parents, s, pending);
          var left, right := DescendIn(pnet, lab as nat, parents);
          var parentsLeft := parents[lab as nat := left];
          var parentsRight := parents[lab as nat := right];
          var r1;
          r1, pending' := AddPaths(l, inet, parentsLeft, pnet, pending);
          if r1.Err? {
            return r1, pending';
          }
          r, pending' := AddPaths(rt, inet, parentsRight, pnet, pending');
      }
    case Aux(auxPort) =>
      r, pending' := VisitSlot(auxPort, inet, parents, pnet, pending);
  }

  /** `add_paths` at an agent: descend, walk the left slot, and walk the
      right slot from where the left walk ended, unless it failed. */
  lemma TraversedAgent(n: Net, i: nat, parents: seq<nat>, s: PState, pending: Pending)
    requires WellFormed(n) && i < |n.nodes| && n.nodes[i].Agent? && LabelsBelow(n, |s.agents|)
    requires StateOk(s) && Positions(s, parents) && PendingOk(s, pending)
    ensures var (s1, pl, pr) := Descend(s, n.nodes[i].lab as nat, parents);
      && PortOk(n, n.nodes[i].left, -1) && PortOk(n, n.nodes[i].right, -1)
      && StateOk(s1) && Positions(s1, pl) && PendingOk(s1, pending)
      && Measure(n, n.nodes[i].left) < Measure(n, Principal(i))
      && Measure(n, n.nodes[i].right) < Measure(n, Principal(i))
      && var e1 := Traversed(n, n.nodes[i].left, pl, s1, pending);
      && (e1.Err? ==> Traversed(n, Principal(i), parents, s, pending) == Err(e1.error))
      && (e1.Ok? ==> Positions(e1.value.0, pr))
      && (e1.Ok? ==>
            Traversed(n, Principal(i), parents, s, pending) == Traversed(n, n.nodes[i].right, pr, e1.value.0, e1.value.1))
  {
    var (s1, pl, pr) := Descend(s, n.nodes[i].lab as nat, parents);
    PendingGrow(s, s1, pending);
    var e1 := Traversed(n, n.nodes[i].left, pl, s1, pending);
    if e1.Ok? {
      PositionsGrow(s1, e1.value.0, pr);
    }
  }

  /** `add_paths` at an auxiliary port: close its wire if it was seen
      before, and otherwise record the positions under both of its ends. */
  method VisitSlot(auxPort: AuxPort, inet: INet, parents: seq<nat>, pnet: PNet, pending: Pending)
    returns (r: Result<()>, pending': Pending)
    requires pnet.Valid()
    requires WellFormed(inet.View()) && InRange(inet.View(), auxPort) && LabelsBelow(inet.View(), |pnet.agents|)
    requires StateOk(pnet.View()) && Positions(pnet.View(), parents) && PendingOk(pnet.View(), pending)
    modifies pnet, pnet.agents
    ensures var e := Traversed(inet.View(), Aux(auxPort), parents, old(pnet.View()), pending);
      && (e.Ok? ==> r.Ok? && pnet.View() == e.value.0 && pending' == e.value.1)
      && (e.Err? ==> r == Err(e.error))
  {
    if auxPort in pending {
      ClosePath(pnet, parents, pending[auxPort]);
      return Ok(()), pending;
    }
    var other := inet.AuxPortOf(auxPort);
    if other.Err? {
      return Err(other.error), pending;
    }
    match other.value
    case Principal(_) =>
      return Err(UnexpectedPrincipal), pending;
    case Aux(otherAux) =>
      pending' := pending[auxPort := parents];
      pending' := pending'[otherAux := parents];
      return Ok(()), pending';
  }

  /** The step of `add_paths` at an agent: `add_left` and then `add_right`
      on the trie of its label, from that label's current branch. */
  method DescendIn(pnet: PNet, lab: nat, parents: seq<nat>) returns (left: nat, right: nat)
    requires pnet.Valid() && StateOk(pnet.View()) && Positions(pnet.View(), parents) && lab < |pnet.agents|
    modifies pnet.agents[lab]
    ensures var d := Descend(old(pnet.View()), lab, parents);
      pnet.View() == d.0 && parents[lab := left] == d.1 && parents[lab := right] == d.2
  {
    ghost var s := pnet.View();
    var parent := parents[lab];
    var subnet := pnet.agents[lab];
    left := subnet.AddLeft(parent);
    right := subnet.AddRight(parent);
    assert pnet.View().agents == Descend(s, lab, parents).0.agents;
  }

  /** The second visit of a wire in `add_paths`: in every trie, find or
      create the agent path between the two positions, append the global path
      made of those ids, and record it in each of those agent paths. */
  method ClosePath(pnet: PNet, parents: seq<nat>, otherParents: seq<nat>)
    requires pnet.Valid()
    requires StateOk(pnet.View()) && Positions(pnet.View(), parents) && Positions(pnet.View(), otherParents)
    modifies pnet, pnet.agents
    ensures pnet.View() == Linked(old(pnet.View()), parents, otherParents)
  {
    ghost var s := pnet.View();
    var agentPaths := AgentPathsFor(pnet, parents, otherParents);
    ghost var mid := seq(|pnet.agents|, k reads pnet.agents requires 0 <= k < |pnet.agents| => pnet.agents[k].View());
    var path := pnet.AddPath(agentPaths);
    RecordPath(pnet, agentPaths, path);
    LinkedIs(s, parents, otherParents, agentPaths, mid, pnet.View());
  }

  /** `Linked` is what updating each trie in turn and then recording the new
      global path in each produces. */
  lemma LinkedIs(s: PState, mine: seq<nat>, other: seq<nat>, ids: seq<nat>, mid: seq<Trie>, r: PState)
    requires StateOk(s) && Positions(s, mine) && Positions(s, other)
    requires |ids| == |s.agents| && |mid| == |s.agents| && |r.agents| == |s.agents|
    requires forall k | 0 <= k < |s.agents| :: (mid[k], ids[k]) == WithAgentPath(s.agents[k], mine[k], other[k])
    requires forall k | 0 <= k < |s.agents| :: ids[k] < |mid[k].paths| && r.agents[k] == UsePath(mid[k], ids[k], |s.paths|)
    requires r.paths == s.paths + [Path(ids)]
    ensures r == Linked(s, mine, other)
  {
    var ids' := seq(|s.agents|, i requires 0 <= i < |s.agents| => Joined(s.agents[i], mine[i], other[i], |s.paths|).1);
    assert ids == ids';
    var tries := seq(|s.agents|, i requires 0 <= i < |s.agents| => Joined(s.agents[i], mine[i], other[i], |s.paths|).0);
    assert r.agents == tries;
  }

  /** The first half of `ClosePath`: `add_path` in every trie, in label
      order. */
  method AgentPathsFor(pnet: PNet, parents: seq<nat>, otherParents: seq<nat>) returns (agentPaths: seq<nat>)
    requires pnet.Valid()
    requires StateOk(pnet.View()) && Positions(pnet.View(), parents) && Positions(pnet.View(), otherParents)
    modifies pnet.agents
    ensures |agentPaths| == |pnet.agents|
    ensures forall k | 0 <= k < |pnet.agents| ::
      (pnet.agents[k].View(), agentPaths[k]) == WithAgentPath(old(pnet.agents[k].View()), parents[k], otherParents[k])
  {
    ghost var s := pnet.View();
    agentPaths := [];
    for i := 0 to |pnet.agents|
      invariant |agentPaths| == i
      invariant forall k | 0 <= k < i ::
        (pnet.agents[k].View(), agentPaths[k]) == WithAgentPath(s.agents[k], parents[k], otherParents[k])
      invariant forall k | i <= k < |pnet.agents| :: pnet.agents[k].View() == s.agents[k]
    {
      var id := pnet.agents[i].AddPath(parents[i], otherParents[i]);
      agentPaths := agentPaths + [id];
    }
  }

  /** The second half of `ClosePath`: push the global path id onto every
      agent path it is made of. */
  method RecordPath(pnet: PNet, agentPaths: seq<nat>, path: nat)
    requires pnet.Valid() && |agentPaths| == |pnet.agents|
    requires forall k | 0 <= k < |pnet.agents| :: agentPaths[k] < |pnet.agents[k].paths|
    modifies pnet.agents
    ensures forall k | 0 <= k < |pnet.agents| ::
      pnet.agents[k].View() == UsePath(old(pnet.agents[k].View()), agentPaths[k], path)
  {
    ghost var s := pnet.View();
    for i := 0 to |agentPaths|
      invariant forall k | 0 <= k < i :: pnet.agents[k].View() == UsePath(s.agents[k], agentPaths[k], path)
      invariant forall k | i <= k < |pnet.agents| :: pnet.agents[k].View() == s.agents[k]
    {
      pnet.agents[i].PushUse(agentPaths[i], path);
    }
  }
}
