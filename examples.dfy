/** Concrete runs of the model on small nets. */
module Examples {
  import Ast
  import I = Inet
  import P = Pnet

  const A: Ast.Tree := Ast.Var("a")
  const B: Ast.Tree := Ast.Var("b")

  /** The line `(a b)`: one constructor of label 0 over two variables. */
  const AB: Ast.Line := Ast.Parsed(Ast.Ctr(0, A, B))

  const L0: I.AuxPort := I.Slot(0, I.Left)
  const R0: I.AuxPort := I.Slot(0, I.Right)
  const L1: I.AuxPort := I.Slot(1, I.Left)
  const R1: I.AuxPort := I.Slot(1, I.Right)
  const Unset: I.Port := I.Aux(I.Placeholder)

  /** An agent of label 0 as `add_tree` first pushes it. */
  const Fresh: I.Node := I.Agent(0, I.Placeholder, Unset, Unset)

  /** The net of the text `(a b)\n(a b)`: two agents whose left slots are
      wired to each other, and their right slots too. */
  const TwoAgents: I.Net := I.Net(
    [ I.Agent(0, I.Placeholder, I.Aux(L1), I.Aux(R1)),
      I.Agent(0, I.Placeholder, I.Aux(L0), I.Aux(R0)) ],
    [I.Principal(0), I.Principal(1)])

  /** The net after the first line. */
  const OneAgent: I.Net := I.Net([Fresh], [I.Principal(0)])

  /** The variable table after the first line: both variables seen once. */
  const SeenOnce: I.Wires := map["a" := (L0, I.Placeholder), "b" := (R0, I.Placeholder)]

  /** The first line records both variables and leaves their slots unset. */
  lemma FirstLine()
    ensures I.Grafted(I.Net([], [Unset]), Ast.Ctr(0, A, B), I.Free(0), map[]) == I.Ok((OneAgent, SeenOnce))
  {
    var n1 := I.Net([Fresh], [Unset]);
    assert I.Net([], [Unset]).(nodes := [] + [Fresh]) == n1;
    var w1 := map["a" := (L0, I.Placeholder)];
    assert I.Grafted(n1, A, L0, map[]) == I.Ok((n1, w1));
    assert I.Grafted(n1, B, R0, w1) == I.Ok((n1, SeenOnce));
    assert [Unset][0 := I.Principal(0)] == [I.Principal(0)];
    assert I.WriteAux(n1, I.Free(0), I.Principal(0)) == I.Ok((OneAgent, Unset));
  }

  /** The second line wires each variable's second end to its first. */
  lemma SecondLine()
    ensures var w := SeenOnce["a" := (L0, L1)]["b" := (R0, R1)];
      I.Grafted(I.Net([Fresh], [I.Principal(0), Unset]), Ast.Ctr(0, A, B), I.Free(1), SeenOnce) == I.Ok((TwoAgents, w))
  {
    var n3 := I.Net([Fresh, Fresh], [I.Principal(0), Unset]);
    assert I.Net([Fresh], [I.Principal(0), Unset]).(nodes := [Fresh] + [Fresh]) == n3;
    var w3 := SeenOnce["a" := (L0, L1)];
    var n4 := I.Net([I.Agent(0, I.Placeholder, I.Aux(L1), Unset), I.Agent(0, I.Placeholder, I.Aux(L0), Unset)],
                    [I.Principal(0), Unset]);
    assert "a" in SeenOnce && SeenOnce["a"] == (L0, I.Placeholder);
    var n3a := I.Net([Fresh, I.Agent(0, I.Placeholder, I.Aux(L0), Unset)], [I.Principal(0), Unset]);
    assert n3.nodes[1 := n3a.nodes[1]] == n3a.nodes;
    assert I.WriteAux(n3, L1, I.Aux(L0)) == I.Ok((n3a, Unset));
    assert n3a.nodes[0 := n4.nodes[0]] == n4.nodes;
    assert I.WriteAux(n3a, L0, I.Aux(L1)) == I.Ok((n4, Unset));
    assert I.Grafted(n3, A, L1, SeenOnce) == I.Ok((n4, w3));
    var n5 := I.Net(TwoAgents.nodes, [I.Principal(0), Unset]);
    assert "b" in w3 && w3["b"] == (R0, I.Placeholder);
    var n4a := I.Net([n4.nodes[0], TwoAgents.nodes[1]], [I.Principal(0), Unset]);
    assert n4.nodes[1 := n4a.nodes[1]] == n4a.nodes;
    assert I.WriteAux(n4, R1, I.Aux(R0)) == I.Ok((n4a, Unset));
    assert n4a.nodes[0 := n5.nodes[0]] == n5.nodes;
    assert I.WriteAux(n4a, R0, I.Aux(R1)) == I.Ok((n5, Unset));
    assert I.Grafted(n4, B, R1, w3) == I.Ok((n5, w3["b" := (R0, R1)]));
    assert n5.free[1 := I.Principal(1)] == TwoAgents.free;
  }

  /** The two lines of `(a b)\n(a b)`; neither is empty. */
  lemma TwoLines()
    ensures Ast.BlanksTrailing([AB, AB])
    ensures Ast.NonBlank([AB, AB][..0]) == 0 && Ast.NonBlank([AB, AB][..1]) == 1 && Ast.NonBlank([AB, AB]) == 2
  {
    assert [AB, AB][..0] == [];
    assert [AB, AB][..1] == [AB];
    assert [AB][..0] == [];
    assert [AB, AB][..1] == [AB];
  }

  /** The first line of `(a b)\n(a b)` builds `OneAgent`. */
  lemma BuildFirstLine()
    ensures Ast.BlanksTrailing([AB, AB]) && Ast.NonBlank([AB, AB][..1]) == 1 && I.WiresOk(OneAgent, SeenOnce)
    ensures I.Built([AB, AB]) == I.BuiltFrom([AB, AB], 1, OneAgent, SeenOnce)
  {
    TwoLines();
    FirstLine();
    assert I.Net([], []).(free := [] + [Unset]) == I.Net([], [Unset]);
  }

  /** The second line of `(a b)\n(a b)` turns `OneAgent` into `TwoAgents`. */
  lemma BuildSecondLine()
    ensures Ast.BlanksTrailing([AB, AB]) && Ast.NonBlank([AB, AB][..1]) == 1 && I.WiresOk(OneAgent, SeenOnce)
    ensures I.BuiltFrom([AB, AB], 1, OneAgent, SeenOnce) == I.Ok(TwoAgents)
  {
    var lines := [AB, AB];
    TwoLines();
    FirstLine();
    SecondLine();
    var w := SeenOnce["a" := (L0, L1)]["b" := (R0, R1)];
    assert I.BuiltFrom(lines, 2, TwoAgents, w) == I.Ok(TwoAgents);
    assert OneAgent.(free := OneAgent.free + [Unset]) == I.Net([Fresh], [I.Principal(0), Unset]);
  }

  /** `from_str("(a b)\n(a b)")`. */
  lemma BuildTwoAgents()
    ensures I.Built([AB, AB]) == I.Ok(TwoAgents)
  {
    BuildFirstLine();
    BuildSecondLine();
  }

  /** `(a b)`: the tree each line of the example renders as. */
  const TreeAB: Ast.Tree := Ast.Ctr(0, A, B)

  lemma TwoAgentsWellFormed()
    ensures I.WellFormed(TwoAgents)
  {
    TwoLines();
    BuildTwoAgents();
    I.BuiltProperties([AB, AB]);
  }

  /** The first free port names its two wires "a" and "b"; the second finds
      both of its slots already named. */
  lemma RenderTwoAgents()
    ensures I.WellFormed(TwoAgents) && I.RenderedAll(TwoAgents) == I.Ok([TreeAB, TreeAB])
  {
    TwoAgentsWellFormed();
    var n := TwoAgents;
    assert I.Name(0) == "a" && I.Name(1) == "b";
    var names1 := map[L1 := "a", L0 := "a"];
    assert I.Rendered(n, I.Aux(L1), map[], 0) == I.Ok((A, names1, 1));
    var names2 := names1[R1 := "b"][R0 := "b"];
    assert I.Rendered(n, I.Aux(R1), names1, 1) == I.Ok((B, names2, 2));
    assert I.Rendered(n, I.Principal(0), map[], 0) == I.Ok((TreeAB, names2, 2));
    assert I.Rendered(n, I.Aux(L0), names2, 0) == I.Ok((A, names2, 0));
    assert I.Rendered(n, I.Aux(R0), names2, 0) == I.Ok((B, names2, 0));
    assert I.Rendered(n, I.Principal(1), names2, 0) == I.Ok((TreeAB, names2, 0));
    assert I.RenderedFrom(n, 2, names2) == I.Ok([]);
    assert n.free[1] == I.Principal(1) && n.free[0] == I.Principal(0);
    assert [TreeAB] + [] == [TreeAB];
    assert I.RenderedFrom(n, 1, names2) == I.Ok([TreeAB]);
    assert [TreeAB] + [TreeAB] == [TreeAB, TreeAB];
    assert I.RenderedFrom(n, 0, map[]) == I.Ok([TreeAB, TreeAB]);
  }

  /** The trie of label 0 after the first agent: the root's left child is
      the root itself. */
  const Looped: P.Trie := P.Trie([P.Branch(P.Some(0), P.None, []), P.NoBranch], [])

  /** The trie after the first wire closes: one agent path from the root to
      itself, listed twice by the root. */
  const OnePath: P.Trie := P.Trie([P.Branch(P.Some(0), P.None, [0, 0]), P.NoBranch], [P.AgentPath(0, 0, [0])])

  /** The trie after the second wire closes: the same agent path, now used by
      both global paths. */
  const SharedPath: P.Trie := P.Trie([P.Branch(P.Some(0), P.None, [0, 0]), P.NoBranch], [P.AgentPath(0, 0, [0, 1])])

  /** Updating the first of two elements. */
  lemma UpdateFirst<T>(x: T, y: T, v: T)
    ensures [x, y][0 := v] == [v, y]
  {
    assert [x, y][0 := v][1] == y;
  }

  /** The agent path trie `Looped` gains when its first wire closes, before
      the global path is recorded in it. */
  const Registered: P.Trie := P.Trie([P.Branch(P.Some(0), P.None, [0, 0]), P.NoBranch], [P.AgentPath(0, 0, [])])

  /** With one label, closing a wire adds the agent path of the single trie
      and a global path made of it alone. */
  lemma LinkedSingle(t: P.Trie, ps: seq<P.Path>)
    requires P.TrieOk(t) && 0 < |t.branches|
    ensures var (t1, id) := P.WithAgentPath(t, 0, 0);
      P.Linked(P.PState([t], ps), [0], [0]) == P.PState([P.UsePath(t1, id, |ps|)], ps + [P.Path([id])])
  {
    var s := P.PState([t], ps);
    var (t1, id) := P.WithAgentPath(t, 0, 0);
    var r := P.Linked(s, [0], [0]);
    assert r.paths[|ps|].agents[0] == id;
    assert r.paths[|ps|].agents == [id];
    assert r.paths == ps + [P.Path([id])];
    assert r.agents[0] == P.UsePath(t1, id, |ps|);
    assert r.agents == [P.UsePath(t1, id, |ps|)];
  }

  lemma FirstAgentPath()
    ensures P.WithAgentPath(Looped, 0, 0) == (Registered, 0)
  {
    assert P.FirstShared([], []) == P.None;
    assert [] + [0, 0] == [0, 0];
    UpdateFirst(Looped.branches[0], P.NoBranch, Registered.branches[0]);
    assert Looped.branches[0 := Registered.branches[0]] == Registered.branches;
    var r := P.WithAgentPath(Looped, 0, 0);
    assert [] + [P.AgentPath(0, 0, [])] == Registered.paths;
    assert r.0 == Registered;
  }

  /** Closing the first wire creates agent path 0 and global path 0. */
  lemma FirstWire()
    ensures P.Linked(P.PState([Looped], []), [0], [0]) == P.PState([OnePath], [P.Path([0])])
  {
    FirstAgentPath();
    assert [] + [0] == [0];
    assert Registered.paths[0].(paths := Registered.paths[0].paths + [0]) == OnePath.paths[0];
    assert [Registered.paths[0]][0 := OnePath.paths[0]] == [OnePath.paths[0]];
    assert P.UsePath(Registered, 0, 0) == OnePath;
    LinkedSingle(Looped, []);
    assert [] + [P.Path([0])] == [P.Path([0])];
  }

  /** Closing the second wire finds agent path 0 again and creates global
      path 1. */
  lemma SecondWire()
    ensures P.Linked(P.PState([OnePath], [P.Path([0])]), [0], [0]) == P.PState([SharedPath], [P.Path([0]), P.Path([0])])
  {
    P.FirstSharedSelf([0, 0]);
    assert P.WithAgentPath(OnePath, 0, 0) == (OnePath, 0);
    assert [OnePath.paths[0]][0 := SharedPath.paths[0]] == [SharedPath.paths[0]];
    assert OnePath.paths[0].paths + [1] == [0, 1];
    assert P.UsePath(OnePath, 0, 1) == SharedPath;
    LinkedSingle(OnePath, [P.Path([0])]);
    assert [P.Path([0])] + [P.Path([0])] == [P.Path([0]), P.Path([0])];
  }

  /** Both wires half-visited from the root, after the first free port. */
  const HalfVisited: P.Pending := map[L1 := [0], L0 := [0], R1 := [0], R0 := [0]]

  lemma ExampleStates()
    ensures I.WellFormed(TwoAgents) && P.LabelsBelow(TwoAgents, 1)
    ensures P.StateOk(P.PState([Looped], [])) && P.PendingOk(P.PState([Looped], []), HalfVisited)
    ensures P.Positions(P.PState([Looped], []), [0])
  {
    TwoAgentsWellFormed();
  }

  /** The first agent asks the empty trie for a child of the root and gets
      the root itself. */
  lemma FirstDescend()
    ensures P.StateOk(P.Initial(1)) && P.Positions(P.Initial(1), [0])
    ensures P.Descend(P.Initial(1), 0, [0]) == (P.PState([Looped], []), [0], [0])
  {
    var s0 := P.Initial(1);
    assert s0 == P.PState([P.EmptyTrie], []);
    assert [P.NoBranch][0 := Looped.branches[0]] == [Looped.branches[0]];
    assert [Looped.branches[0]] + [P.NoBranch] == Looped.branches;
    assert [P.EmptyTrie][0 := Looped] == [Looped];
    assert P.LeftChild(P.EmptyTrie, 0) == (Looped, 0);
    assert P.RightChild(Looped, 0) == (Looped, 0);
    assert [0][0 := 0] == [0];
  }

  /** The first agent's slots record the root under both ends of each wire. */
  lemma FirstSlots()
    ensures I.WellFormed(TwoAgents) && P.LabelsBelow(TwoAgents, 1)
    ensures P.StateOk(P.PState([Looped], [])) && P.Positions(P.PState([Looped], []), [0])
    ensures P.Traversed(TwoAgents, I.Aux(L1), [0], P.PState([Looped], []), map[])
      == I.Ok((P.PState([Looped], []), map[L1 := [0], L0 := [0]]))
    ensures P.PendingOk(P.PState([Looped], []), map[L1 := [0], L0 := [0]])
    ensures P.Traversed(TwoAgents, I.Aux(R1), [0], P.PState([Looped], []), map[L1 := [0], L0 := [0]])
      == I.Ok((P.PState([Looped], []), HalfVisited))
  {
    ExampleStates();
    var n := TwoAgents;
    var s1 := P.PState([Looped], []);
    assert I.ReadAux(n, L1) == I.Ok(I.Aux(L0));
    assert I.ReadAux(n, R1) == I.Ok(I.Aux(R0));
    P.TraversedCases(n, I.Aux(L1), [0], s1, map[]);
    P.TraversedCases(n, I.Aux(R1), [0], s1, map[L1 := [0], L0 := [0]]);
  }

  /** The first free port: the agent makes the root its own left child, and
      its two slots record the root under both ends of both wires. */
  lemma FirstPort()
    ensures I.WellFormed(TwoAgents) && P.LabelsBelow(TwoAgents, 1)
    ensures P.Traversed(TwoAgents, I.Principal(0), [0], P.Initial(1), map[]) == I.Ok((P.PState([Looped], []), HalfVisited))
  {
    ExampleStates();
    FirstDescend();
    FirstSlots();
    P.TraversedAgent(TwoAgents, 0, [0], P.Initial(1), map[]);
  }

  /** The second agent finds the root's left child, the root itself. */
  lemma SecondDescend()
    ensures P.StateOk(P.PState([Looped], [])) && P.Positions(P.PState([Looped], []), [0])
    ensures P.Descend(P.PState([Looped], []), 0, [0]) == (P.PState([Looped], []), [0], [0])
  {
    assert [0][0 := 0] == [0];
    assert P.LeftChild(Looped, 0) == (Looped, 0);
    assert P.RightChild(Looped, 0) == (Looped, 0);
    assert [Looped][0 := Looped] == [Looped];
  }

  /** The second agent's slots close the two wires in turn. */
  lemma SecondSlots()
    ensures I.WellFormed(TwoAgents) && P.LabelsBelow(TwoAgents, 1)
    ensures P.StateOk(P.PState([Looped], [])) && P.PendingOk(P.PState([Looped], []), HalfVisited)
    ensures P.Traversed(TwoAgents, I.Aux(L0), [0], P.PState([Looped], []), HalfVisited)
      == I.Ok((P.PState([OnePath], [P.Path([0])]), HalfVisited))
    ensures P.StateOk(P.PState([OnePath], [P.Path([0])])) && P.PendingOk(P.PState([OnePath], [P.Path([0])]), HalfVisited)
    ensures P.Traversed(TwoAgents, I.Aux(R0), [0], P.PState([OnePath], [P.Path([0])]), HalfVisited)
      == I.Ok((P.PState([SharedPath], [P.Path([0]), P.Path([0])]), HalfVisited))
  {
    ExampleStates();
    FirstWire();
    SecondWire();
  }

  /** The second free port: the agent finds the root's left child, and its
      two slots close the two wires. */
  lemma SecondPort()
    ensures I.WellFormed(TwoAgents) && P.LabelsBelow(TwoAgents, 1)
    ensures P.StateOk(P.PState([Looped], [])) && P.PendingOk(P.PState([Looped], []), HalfVisited)
    ensures P.Traversed(TwoAgents, I.Principal(1), [0], P.PState([Looped], []), HalfVisited)
      == I.Ok((P.PState([SharedPath], [P.Path([0]), P.Path([0])]), HalfVisited))
  {
    SecondDescend();
    SecondSlots();
  }

  /** `PNet::<1>::from_inet` on the net of `(a b)\n(a b)`: both wires run
      between the root of the single trie and itself, so they share one agent
      path and become two global paths. */
  lemma PathsOfTwoAgents()
    ensures I.WellFormed(TwoAgents) && P.LabelsBelow(TwoAgents, 1)
    ensures P.PNetOf(TwoAgents, 1) == I.Ok(P.PState([SharedPath], [P.Path([0]), P.Path([0])]))
  {
    FirstPort();
    SecondPort();
    var n := TwoAgents;
    var s3 := P.PState([SharedPath], [P.Path([0]), P.Path([0])]);
    assert P.Roots(1) == [0];
    assert n.free[0] == I.Principal(0) && n.free[1] == I.Principal(1);
    assert P.TraversedFrom(n, 2, s3, HalfVisited) == I.Ok(s3);
    assert P.TraversedFrom(n, 1, P.PState([Looped], []), HalfVisited) == I.Ok(s3);
  }

  // ---------------------------------------------------------------------------
  // Names restart on every line: `(a a)\n(b b)`
  // ---------------------------------------------------------------------------

  const TreeAA: Ast.Tree := Ast.Ctr(0, A, A)
  const TreeBB: Ast.Tree := Ast.Ctr(0, B, B)

  /** Two agents, each with its two side slots wired to each other. */
  const SelfLoops: I.Net := I.Net(
    [ I.Agent(0, I.Placeholder, I.Aux(R0), I.Aux(L0)),
      I.Agent(0, I.Placeholder, I.Aux(R1), I.Aux(L1)) ],
    [I.Principal(0), I.Principal(1)])

  /** The net after the line `(a a)`. */
  const OneLoop: I.Net := I.Net([SelfLoops.nodes[0]], [I.Principal(0)])

  /** A variable used twice on one line wires the constructor's two slots. */
  lemma LoopLine(v: string, k: nat, n: I.Net, w: I.Wires)
    requires v !in w && |n.free| == k + 1 && n.free[k] == Unset && I.WiresOk(n, w)
    ensures var m := n.(nodes := n.nodes + [I.Agent(0, I.Placeholder, I.Aux(I.Slot(|n.nodes|, I.Right)), I.Aux(I.Slot(|n.nodes|, I.Left)))],
                        free := n.free[k := I.Principal(|n.nodes|)]);
      I.Grafted(n, Ast.Ctr(0, Ast.Var(v), Ast.Var(v)), I.Free(k), w)
        == I.Ok((m, w[v := (I.Slot(|n.nodes|, I.Left), I.Slot(|n.nodes|, I.Right))]))
  {
    var id := |n.nodes|;
    var l := I.Slot(id, I.Left);
    var r := I.Slot(id, I.Right);
    var n1 := n.(nodes := n.nodes + [Fresh]);
    var w1 := w[v := (l, I.Placeholder)];
    assert I.Grafted(n1, Ast.Var(v), l, w) == I.Ok((n1, w1));
    var n2 := n.(nodes := n.nodes + [I.Agent(0, I.Placeholder, Unset, I.Aux(l))]);
    assert n1.nodes[id := n2.nodes[id]] == n2.nodes;
    assert I.WriteAux(n1, r, I.Aux(l)) == I.Ok((n2, Unset));
    var n3 := n.(nodes := n.nodes + [I.Agent(0, I.Placeholder, I.Aux(r), I.Aux(l))]);
    assert n2.nodes[id := n3.nodes[id]] == n3.nodes;
    assert I.WriteAux(n2, l, I.Aux(r)) == I.Ok((n3, Unset));
    assert w1[v := (l, r)] == w[v := (l, r)];
    assert I.Grafted(n1, Ast.Var(v), r, w1) == I.Ok((n3, w[v := (l, r)]));
  }

  /** The variable table after `(a a)`: both ends of `a` seen. */
  const SeenA: I.Wires := map["a" := (L0, R0)]

  lemma LoopLineA()
    ensures I.Grafted(I.Net([], [Unset]), TreeAA, I.Free(0), map[]) == I.Ok((OneLoop, SeenA))
  {
    var m0 := I.Net([], [Unset]);
    LoopLine("a", 0, m0, map[]);
    assert m0.free[0 := I.Principal(0)] == [I.Principal(0)];
    assert [] + [SelfLoops.nodes[0]] == OneLoop.nodes;
    assert m0.(nodes := OneLoop.nodes, free := [I.Principal(0)]) == OneLoop;
  }

  lemma LoopLineB()
    ensures I.Grafted(I.Net(OneLoop.nodes, [I.Principal(0), Unset]), TreeBB, I.Free(1), SeenA)
      == I.Ok((SelfLoops, SeenA["b" := (L1, R1)]))
  {
    var m1 := I.Net(OneLoop.nodes, [I.Principal(0), Unset]);
    LoopLine("b", 1, m1, SeenA);
    assert m1.free[1 := I.Principal(1)] == SelfLoops.free;
    assert OneLoop.nodes + [SelfLoops.nodes[1]] == SelfLoops.nodes;
  }

  /** The two lines `(a a)` and `(b b)`; neither is empty. */
  lemma LoopLines()
    ensures var lines := [Ast.Parsed(TreeAA), Ast.Parsed(TreeBB)];
      Ast.BlanksTrailing(lines) && Ast.NonBlank(lines[..0]) == 0 && Ast.NonBlank(lines[..1]) == 1
      && Ast.NonBlank(lines) == 2
  {
    var lines := [Ast.Parsed(TreeAA), Ast.Parsed(TreeBB)];
    assert lines[..0] == [] && lines[..1] == [lines[0]] && [lines[0]][..0] == [];
  }

  /** `from_str("(a a)\n(b b)")`. */
  lemma BuildSelfLoops()
    ensures Ast.BlanksTrailing([Ast.Parsed(TreeAA), Ast.Parsed(TreeBB)])
    ensures I.Built([Ast.Parsed(TreeAA), Ast.Parsed(TreeBB)]) == I.Ok(SelfLoops)
  {
    var lines := [Ast.Parsed(TreeAA), Ast.Parsed(TreeBB)];
    LoopLines();
    LoopLineA();
    LoopLineB();
    var w2 := SeenA["b" := (L1, R1)];
    assert I.BuiltFrom(lines, 2, SelfLoops, w2) == I.Ok(SelfLoops);
    assert OneLoop.(free := OneLoop.free + [Unset]) == I.Net(OneLoop.nodes, [I.Principal(0), Unset]);
    assert I.BuiltFrom(lines, 1, OneLoop, SeenA) == I.Ok(SelfLoops);
    assert I.Net([], []).(free := [] + [Unset]) == I.Net([], [Unset]);
  }

  lemma SelfLoopsWellFormed()
    ensures I.WellFormed(SelfLoops)
  {
    BuildSelfLoops();
    I.BuiltProperties([Ast.Parsed(TreeAA), Ast.Parsed(TreeBB)]);
  }

  /** `to_string` names the first wire of each line "a", because the name
      generator starts again for every free port: both lines print as
      `(a a)`. */
  lemma RenderSelfLoops()
    ensures I.WellFormed(SelfLoops) && I.RenderedAll(SelfLoops) == I.Ok([TreeAA, TreeAA])
  {
    SelfLoopsWellFormed();
    var n := SelfLoops;
    assert I.Name(0) == "a";
    var names1 := map[R0 := "a", L0 := "a"];
    assert I.Rendered(n, I.Aux(R0), map[], 0) == I.Ok((A, names1, 1));
    assert I.Rendered(n, I.Aux(L0), names1, 1) == I.Ok((A, names1, 1));
    assert I.Rendered(n, I.Principal(0), map[], 0) == I.Ok((TreeAA, names1, 1));
    var names2 := names1[R1 := "a"][L1 := "a"];
    assert I.Rendered(n, I.Aux(R1), names1, 0) == I.Ok((A, names2, 1));
    assert I.Rendered(n, I.Aux(L1), names2, 1) == I.Ok((A, names2, 1));
    assert I.Rendered(n, I.Principal(1), names1, 0) == I.Ok((TreeAA, names2, 1));
    assert n.free[1] == I.Principal(1) && n.free[0] == I.Principal(0);
    assert I.RenderedFrom(n, 2, names2) == I.Ok([]);
    assert [TreeAA] + [] == [TreeAA];
    assert I.RenderedFrom(n, 1, names1) == I.Ok([TreeAA]);
    assert [TreeAA] + [TreeAA] == [TreeAA, TreeAA];
  }

  /** Reading the printed text back fails: the second line's `a` is a third
      occurrence of the first line's variable. */
  lemma RebuildSelfLoops()
    ensures Ast.BlanksTrailing([Ast.Parsed(TreeAA), Ast.Parsed(TreeAA)])
    ensures I.Built([Ast.Parsed(TreeAA), Ast.Parsed(TreeAA)]) == I.Err(I.UsedMoreThanTwice("a"))
  {
    var lines := [Ast.Parsed(TreeAA), Ast.Parsed(TreeAA)];
    assert lines[..0] == [] && lines[..1] == [lines[0]] && [lines[0]][..0] == [];
    LoopLineA();
    var m1 := I.Net(OneLoop.nodes, [I.Principal(0), Unset]);
    var n1 := m1.(nodes := m1.nodes + [Fresh]);
    I.GraftedVar(n1, "a", L1, SeenA);
    assert I.Grafted(m1, TreeAA, I.Free(1), SeenA) == I.Err(I.UsedMoreThanTwice("a"));
    assert OneLoop.(free := OneLoop.free + [Unset]) == m1;
    assert I.BuiltFrom(lines, 1, OneLoop, SeenA) == I.Err(I.UsedMoreThanTwice("a"));
    assert I.Net([], []).(free := [] + [Unset]) == I.Net([], [Unset]);
  }

  /** So the text form of a net does not round-trip: the net of
      `(a a)\n(b b)` prints as `(a a)\n(a a)`, which is rejected. */
  lemma NoTextRoundTrip()
    ensures I.Built([Ast.Parsed(TreeAA), Ast.Parsed(TreeBB)]) == I.Ok(SelfLoops)
    ensures I.WellFormed(SelfLoops) && I.RenderedAll(SelfLoops) == I.Ok([TreeAA, TreeAA])
    ensures I.Built([Ast.Parsed(TreeAA), Ast.Parsed(TreeAA)]).Err?
  {
    BuildSelfLoops();
    RenderSelfLoops();
    RebuildSelfLoops();
  }

  /** In `(a b)\n(a b)` each name occurs twice, so its net is reciprocal. */
  lemma TwoAgentsReciprocal()
    ensures I.Reciprocal(TwoAgents)
  {
    TwoLines();
    BuildTwoAgents();
    forall v
      ensures Ast.OccIn([AB, AB], v) == 0 || Ast.OccIn([AB, AB], v) == 2
    {
      assert [AB, AB][..1] == [AB];
      assert [AB][..0] == [];
      assert Ast.OccIn([AB], v) == Ast.Occ(TreeAB, v);
      assert Ast.OccIn([AB, AB], v) == 2 * Ast.Occ(TreeAB, v);
      assert Ast.Occ(TreeAB, v) == Ast.Occ(A, v) + Ast.Occ(B, v);
      assert Ast.Occ(A, v) == 0 || Ast.Occ(B, v) == 0;
    }
    I.BuiltReciprocal([AB, AB]);
  }

  /** The line `(a *)`: a constructor over a variable used once and an eraser. */
  const HalfUsed: Ast.Line := Ast.Parsed(Ast.Ctr(0, A, Ast.Era))

  /** Its net: the agent's left slot keeps the placeholder, which is free
      slot 0, while free slot 0 holds the agent's principal port. */
  const HalfWired: I.Net := I.Net([I.Agent(0, I.Placeholder, Unset, I.Principal(1)), I.Era(R0)], [I.Principal(0)])

  lemma BuildHalfUsed()
    ensures Ast.BlanksTrailing([HalfUsed]) && I.Built([HalfUsed]) == I.Ok(HalfWired)
  {
    var n0 := I.Net([], [Unset]);
    assert I.Net([], []).(free := [] + [Unset]) == n0;
    var n1 := I.Net([Fresh], [Unset]);
    assert n0.(nodes := [] + [Fresh]) == n1;
    var w1 := map["a" := (L0, I.Placeholder)];
    assert I.Grafted(n1, A, L0, map[]) == I.Ok((n1, w1));
    var n2 := I.Net([Fresh, I.Era(R0)], [Unset]);
    assert n1.(nodes := [Fresh] + [I.Era(R0)]) == n2;
    var n3 := I.Net([HalfWired.nodes[0], I.Era(R0)], [Unset]);
    assert n2.nodes[0 := HalfWired.nodes[0]] == n3.nodes;
    assert I.WriteAux(n2, R0, I.Principal(1)) == I.Ok((n3, Unset));
    assert I.Grafted(n1, Ast.Era, R0, w1) == I.Ok((n3, w1));
    assert [Unset][0 := I.Principal(0)] == [I.Principal(0)];
    assert I.WriteAux(n3, I.Free(0), I.Principal(0)) == I.Ok((HalfWired, Unset));
    assert I.Grafted(n0, Ast.Ctr(0, A, Ast.Era), I.Free(0), map[]) == I.Ok((HalfWired, w1));
    assert [HalfUsed][..0] == [];
    assert I.BuiltFrom([HalfUsed], 1, HalfWired, w1) == I.Ok(HalfWired);
  }

  /** A name used once leaves its slot at the placeholder, so the net is not
      reciprocal: the agent's left slot holds free slot 0, which holds the
      agent's principal port. */
  lemma SingleUseNotReciprocal()
    ensures Ast.BlanksTrailing([HalfUsed]) && I.Built([HalfUsed]) == I.Ok(HalfWired)
    ensures I.ReadAux(HalfWired, L0) == I.Ok(I.Aux(I.Free(0)))
    ensures I.ReadAux(HalfWired, I.Free(0)) == I.Ok(I.Principal(0))
    ensures !Ast.Paired([HalfUsed]) && !I.Reciprocal(HalfWired)
  {
    BuildHalfUsed();
    assert [HalfUsed][..0] == [];
    assert Ast.OccIn([HalfUsed], "a") == 1;
  }

  /** The line `a`: a bare variable. */
  const AVar: Ast.Line := Ast.Parsed(A)

  /** The net of `a\na\na`: the third use relinks free slot 0 to free slot 2,
      and free slot 1 still holds free slot 0. */
  const Relinked: I.Net := I.Net([], [I.Aux(I.Free(2)), I.Aux(I.Free(0)), I.Aux(I.Free(0))])

  lemma ThreeLines()
    ensures Ast.BlanksTrailing([AVar, AVar, AVar])
    ensures Ast.NonBlank([AVar, AVar, AVar][..0]) == 0
    ensures Ast.NonBlank([AVar, AVar, AVar][..1]) == 1 && Ast.NonBlank([AVar, AVar, AVar][..2]) == 2
    ensures Ast.NonBlank([AVar, AVar, AVar][..3]) == 3
  {
    assert [AVar, AVar, AVar][..0] == [];
    assert [AVar, AVar, AVar][..3] == [AVar, AVar, AVar];
    assert [AVar, AVar, AVar][..1] == [AVar];
    assert [AVar, AVar, AVar][..2] == [AVar, AVar];
    assert [AVar, AVar][..1] == [AVar];
    assert [AVar][..0] == [];
  }

  /** The second `a` links free slots 0 and 1 to each other. */
  lemma RelinkSecond()
    ensures I.Grafted(I.Net([], [Unset, Unset]), A, I.Free(1), map["a" := (I.Free(0), I.Placeholder)])
            == I.Ok((I.Net([], [I.Aux(I.Free(1)), Unset]), map["a" := (I.Free(0), I.Free(1))]))
  {
    var f0, f1 := I.Free(0), I.Free(1);
    var n1 := I.Net([], [Unset, Unset]);
    var m1 := I.Net([], [I.Aux(f1), Unset]);
    assert n1.free[1 := I.Aux(f0)] == n1.free && n1.free[0 := I.Aux(f1)] == m1.free;
    assert I.WriteAux(n1, f1, I.Aux(f0)) == I.Ok((n1, Unset));
    assert I.WriteAux(n1, f0, I.Aux(f1)) == I.Ok((m1, Unset));
    assert map["a" := (f0, I.Placeholder)]["a" := (f0, f1)] == map["a" := (f0, f1)];
  }

  /** The third `a` is let through, since its recorded second end is a free
      slot, and relinks free slot 0 to free slot 2. */
  lemma RelinkThird()
    ensures I.Grafted(I.Net([], [I.Aux(I.Free(1)), Unset, Unset]), A, I.Free(2), map["a" := (I.Free(0), I.Free(1))])
            == I.Ok((Relinked, map["a" := (I.Free(0), I.Free(2))]))
  {
    var f0, f2 := I.Free(0), I.Free(2);
    var n2 := I.Net([], [I.Aux(I.Free(1)), Unset, Unset]);
    assert n2.free[2 := I.Aux(f0)] == n2.free && n2.free[0 := I.Aux(f2)] == Relinked.free;
    assert I.WriteAux(n2, f2, I.Aux(f0)) == I.Ok((n2, Unset));
    assert I.WriteAux(n2, f0, I.Aux(f2)) == I.Ok((Relinked, I.Aux(I.Free(1))));
    assert map["a" := (f0, I.Free(1))]["a" := (f0, f2)] == map["a" := (f0, f2)];
  }

  lemma BuildRelinked()
    ensures Ast.BlanksTrailing([AVar, AVar, AVar]) && I.Built([AVar, AVar, AVar]) == I.Ok(Relinked)
  {
    var lines := [AVar, AVar, AVar];
    ThreeLines();
    RelinkSecond();
    RelinkThird();
    var f0 := I.Free(0);
    var w0 := map["a" := (f0, I.Placeholder)];
    var w1 := map["a" := (f0, I.Free(1))];
    var w2 := map["a" := (f0, I.Free(2))];
    var n0 := I.Net([], [Unset]);
    var m1 := I.Net([], [I.Aux(I.Free(1)), Unset]);
    assert I.BuiltFrom(lines, 3, Relinked, w2) == I.Ok(Relinked);
    assert m1.(free := m1.free + [Unset]) == I.Net([], [I.Aux(I.Free(1)), Unset, Unset]);
    assert I.BuiltFrom(lines, 2, m1, w1) == I.Ok(Relinked);
    assert n0.(free := n0.free + [Unset]) == I.Net([], [Unset, Unset]);
    assert I.BuiltFrom(lines, 1, n0, w0) == I.Ok(Relinked);
    assert I.Net([], []).(free := [] + [Unset]) == n0;
    assert I.Grafted(n0, A, f0, map[]) == I.Ok((n0, w0));
  }

  /** A third use through a recorded free slot relinks only one end: free
      slot 1 holds free slot 0, which now holds free slot 2. */
  lemma ThirdUseNotReciprocal()
    ensures Ast.BlanksTrailing([AVar, AVar, AVar]) && I.Built([AVar, AVar, AVar]) == I.Ok(Relinked)
    ensures I.ReadAux(Relinked, I.Free(1)) == I.Ok(I.Aux(I.Free(0)))
    ensures I.ReadAux(Relinked, I.Free(0)) == I.Ok(I.Aux(I.Free(2)))
    ensures !I.Reciprocal(Relinked)
  {
    BuildRelinked();
  }
}
