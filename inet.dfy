/** The interaction-net graph: an arena of nodes and an array of free ports,
    built from parsed trees and rendered back to trees.

    The first half of the module describes a net as a value (`Net`) and gives
    every operation as a function on that value; the lemmas about the
    operations are stated there. The second half holds the mutable objects
    (`NameGen`, `INet`) and the imperative operations, each proved to compute
    what the corresponding function describes. */
module Inet {
  import Ast

  // ---------------------------------------------------------------------------
  // Data model
  // ---------------------------------------------------------------------------

  datatype Dir = Left | Right

  /** A non-principal connection point: a free slot of the net, or the left or
      right slot of the agent with the given node id. */
  datatype AuxPort = Free(index: nat) | Slot(node: nat, dir: Dir)

  /** What a connection point is wired to. */
  datatype Port = Principal(id: nat) | Aux(aux: AuxPort)

  /** A node of the arena. An eraser records the counterpart of its principal
      port; a binary agent its label, the counterpart of its principal port and
      what its two auxiliary slots hold. */
  datatype Node =
    | Era(endpoint: AuxPort)
    | Agent(lab: Ast.u16, principal: AuxPort, left: Port, right: Port)

  /** The failures of the two components. The source reports each as a
      message: "Err does not have aux ports", "var .. used more than twice",
      "Unsupported node", "aux port points to a principal port" and
      "Unexpected principal port"; a parse error carries the parser's message. */
  datatype Error =
    | ParseError(message: string)
    | NoAuxPorts
    | UsedMoreThanTwice(name: string)
    | Unsupported
    | AuxResolvesToPrincipal
    | UnexpectedPrincipal

  datatype Result<T> = Ok(value: T) | Err(error: Error)

  /** A snapshot of an INet: its node arena and its free ports. */
  datatype Net = Net(nodes: seq<Node>, free: seq<Port>)

  /** The placeholder stored in a slot before its real content is known. */
  const Placeholder: AuxPort := Free(0)

  // ---------------------------------------------------------------------------
  // Port access
  // ---------------------------------------------------------------------------

  /** The slot exists: reading or writing it does not index out of range. */
  predicate InRange(n: Net, a: AuxPort) {
    match a
    case Free(i) => i < |n.free|
    case Slot(k, _) => k < |n.nodes|
  }

  /** `aux_port`: the content of a free slot or of an agent's side slot. An
      eraser has no auxiliary slots. */
  function ReadAux(n: Net, a: AuxPort): (r: Result<Port>)
    requires InRange(n, a)
    ensures r.Err? <==> a.Slot? && n.nodes[a.node].Era?
    ensures r.Err? ==> r.error == NoAuxPorts
  {
    match a
    case Free(i) => Ok(n.free[i])
    case Slot(k, d) =>
      match n.nodes[k]
      case Era(_) => Err(NoAuxPorts)
      case Agent(_, _, l, rt) => Ok(if d == Left then l else rt)
  }

  /** `port`: what a port is wired to. A principal port resolves to the
      counterpart its node records (an eraser's endpoint, an agent's principal
      counterpart), which is always an auxiliary port; an
      auxiliary port resolves as `ReadAux` does. */
  function Resolve(n: Net, p: Port): (r: Result<Port>)
    requires p.Principal? ==> p.id < |n.nodes|
    requires p.Aux? ==> InRange(n, p.aux)
    ensures p.Principal? ==> r.Ok? && r.value.Aux?
    ensures p.Principal? && n.nodes[p.id].Agent? ==> r == Ok(Aux(n.nodes[p.id].principal))
    ensures p.Principal? && n.nodes[p.id].Era? ==> r == Ok(Aux(n.nodes[p.id].endpoint))
    ensures p.Aux? ==> r == ReadAux(n, p.aux)
  {
    match p
    case Principal(k) =>
      (match n.nodes[k]
       case Era(e) => Ok(Aux(e))
       case Agent(_, q, _, _) => Ok(Aux(q)))
    case Aux(a) => ReadAux(n, a)
  }

  /** Two nodes of the same kind that agree on everything except what their
      auxiliary slots hold. */
  predicate SameShape(x: Node, y: Node) {
    match x
    case Era(e) => y == Era(e)
    case Agent(lab, q, _, _) => y.Agent? && y.lab == lab && y.principal == q
  }

  /** `set_port`: overwrite one slot and return what it held. On an eraser's
      slot the write fails and nothing changes. */
  function WriteAux(n: Net, a: AuxPort, v: Port): (r: Result<(Net, Port)>)
    requires InRange(n, a)
    ensures r.Err? <==> ReadAux(n, a).Err?
    ensures r.Err? ==> r.error == NoAuxPorts
    ensures r.Ok? ==> ReadAux(n, a) == Ok(r.value.1)
    ensures r.Ok? ==> |r.value.0.nodes| == |n.nodes| && |r.value.0.free| == |n.free|
    ensures r.Ok? ==> ReadAux(r.value.0, a) == Ok(v)
    ensures r.Ok? ==> forall b | InRange(n, b) && b != a :: ReadAux(r.value.0, b) == ReadAux(n, b)
    ensures r.Ok? ==> forall k | 0 <= k < |n.nodes| :: SameShape(n.nodes[k], r.value.0.nodes[k])
    ensures r.Ok? && a.Free? ==> r.value.0.nodes == n.nodes
    ensures r.Ok? && a.Slot? ==>
      r.value.0.free == n.free && forall k | 0 <= k < |n.nodes| && k != a.node :: r.value.0.nodes[k] == n.nodes[k]
  {
    match a
    case Free(i) => Ok((n.(free := n.free[i := v]), n.free[i]))
    case Slot(k, d) =>
      match n.nodes[k]
      case Era(_) => Err(NoAuxPorts)
      case Agent(lab, q, l, rt) =>
        if d == Left then Ok((n.(nodes := n.nodes[k := Agent(lab, q, v, rt)]), l))
        else Ok((n.(nodes := n.nodes[k := Agent(lab, q, l, v)]), rt))
  }

  // ---------------------------------------------------------------------------
  // Well-formedness
  // ---------------------------------------------------------------------------

  /** A stored port that can be followed without indexing out of range; a
      principal port must moreover name a node after `above`. */
  predicate PortOk(n: Net, p: Port, above: int) {
    match p
    case Principal(j) => above < j < |n.nodes|
    case Aux(a) => InRange(n, a)
  }

  /** Every stored port can be followed, and every principal port stored in an
      agent's slot names a node created after that agent. The second half is
      what makes the recursive traversals of a net terminate. */
  predicate WellFormed(n: Net) {
    && (forall k | 0 <= k < |n.free| :: PortOk(n, n.free[k], -1))
    && (forall i | 0 <= i < |n.nodes| && n.nodes[i].Agent? ::
          PortOk(n, n.nodes[i].left, i) && PortOk(n, n.nodes[i].right, i))
  }

  /** Every agent's principal counterpart is still the placeholder. */
  predicate PrincipalsUnset(n: Net) {
    forall i | 0 <= i < |n.nodes| && n.nodes[i].Agent? :: n.nodes[i].principal == Placeholder
  }

  /** `m` extends `n`: the same free slots, at least the same nodes, each of
      the same kind, label and principal counterpart. */
  predicate Grows(n: Net, m: Net) {
    && |m.free| == |n.free|
    && |n.nodes| <= |m.nodes|
    && forall k | 0 <= k < |n.nodes| :: SameShape(n.nodes[k], m.nodes[k])
  }

  lemma GrowsTransitive(a: Net, b: Net, c: Net)
    requires Grows(a, b) && Grows(b, c)
    ensures Grows(a, c)
  {
  }

  /** A principal port that only ever decreases along an agent's slots: the
      termination measure for every traversal of the net. */
  function Measure(n: Net, p: Port): nat {
    match p
    case Principal(i) => if i < |n.nodes| then |n.nodes| - i else 0
    case Aux(_) => 0
  }

  // ---------------------------------------------------------------------------
  // Building a net from trees (`add_tree`, `from_str`)
  // ---------------------------------------------------------------------------

  /** The variable table: for each name, the slot of its first occurrence and,
      once seen, the slot of its second (the placeholder until then). */
  type Wires = map<string, (AuxPort, AuxPort)>

  predicate WiresOk(n: Net, w: Wires) {
    forall v | v in w :: InRange(n, w[v].0)
  }

  /** Pushing a node extends the net and keeps the variable table's slots in
      range. */
  lemma PushGrows(n: Net, node: Node, w: Wires)
    ensures Grows(n, n.(nodes := n.nodes + [node]))
    ensures WiresOk(n, w) ==> WiresOk(n.(nodes := n.nodes + [node]), w)
  {
  }

  /** A successful write extends the net (in the sense of `Grows`) and keeps
      the variable table's slots in range. */
  lemma WriteGrows(n: Net, a: AuxPort, v: Port, w: Wires)
    requires InRange(n, a)
    ensures WriteAux(n, a, v).Ok? ==> Grows(n, WriteAux(n, a, v).value.0)
    ensures WriteAux(n, a, v).Ok? && WiresOk(n, w) ==> WiresOk(WriteAux(n, a, v).value.0, w)
  {
  }

  /** `add_tree`: attach the graph of tree `t` to the slot `parent`. */
  function Grafted(n: Net, t: Ast.Tree, parent: AuxPort, w: Wires): (r: Result<(Net, Wires)>)
    requires InRange(n, parent) && WiresOk(n, w)
    ensures r.Ok? ==> Grows(n, r.value.0) && WiresOk(r.value.0, r.value.1)
    ensures r.Err? ==> !r.error.ParseError?
    decreases t
  {
    match t
    case Era =>
      var n1 := n.(nodes := n.nodes + [Era(parent)]);
      PushGrows(n, Era(parent), w);
      WriteGrows(n1, parent, Principal(|n1.nodes| - 1), w);
      (match WriteAux(n1, parent, Principal(|n1.nodes| - 1))
       case Err(e) => Err(e)
       case Ok(res) => Ok((res.0, w)))
    case Ctr(lab, p1, p2) =>
      var id := |n.nodes|;
      var n1 := n.(nodes := n.nodes + [Agent(lab, Placeholder, Aux(Placeholder), Aux(Placeholder))]);
      PushGrows(n, Agent(lab, Placeholder, Aux(Placeholder), Aux(Placeholder)), w);
      (match Grafted(n1, p1, Slot(id, Left), w)
       case Err(e) => Err(e)
       case Ok(r1) =>
         match Grafted(r1.0, p2, Slot(id, Right), r1.1)
         case Err(e) => Err(e)
         case Ok(r2) =>
           GrowsTransitive(n, n1, r1.0);
           GrowsTransitive(n, r1.0, r2.0);
           WriteGrows(r2.0, parent, Principal(id), r2.1);
           match WriteAux(r2.0, parent, Principal(id))
           case Err(e) => Err(e)
           case Ok(r3) => Ok((r3.0, r2.1)))
    case Var(name) =>
      if name in w then
        var port1 := w[name].0;
        if w[name].1.Free? then
          var w1 := w[name := (port1, parent)];
          WriteGrows(n, parent, Aux(port1), w1);
          match WriteAux(n, parent, Aux(port1))
          case Err(e) => Err(e)
          case Ok(r1) =>
            WriteGrows(r1.0, port1, Aux(parent), w1);
            match WriteAux(r1.0, port1, Aux(parent))
            case Err(e) => Err(e)
            case Ok(r2) => Ok((r2.0, w1))
        else Err(UsedMoreThanTwice(name))
      else Ok((n, w[name := (parent, Placeholder)]))
    case Other => Err(Unsupported)
  }

  /** An eraser: one new node `Era(parent)`, whose id the parent slot now
      holds. */
  lemma GraftedEra(n: Net, parent: AuxPort, w: Wires)
    requires InRange(n, parent) && WiresOk(n, w)
    requires Grafted(n, Ast.Era, parent, w).Ok?
    ensures var m := Grafted(n, Ast.Era, parent, w).value.0;
      && |m.nodes| == |n.nodes| + 1
      && m.nodes[|n.nodes|] == Era(parent)
      && ReadAux(m, parent) == Ok(Principal(|n.nodes|))
  {
  }

  /** A constructor: a new agent with the tree's label at the next id, whose
      id the parent slot finally holds. */
  lemma GraftedCtr(n: Net, lab: Ast.u16, p1: Ast.Tree, p2: Ast.Tree, parent: AuxPort, w: Wires)
    requires InRange(n, parent) && WiresOk(n, w)
    requires Grafted(n, Ast.Ctr(lab, p1, p2), parent, w).Ok?
    ensures var m := Grafted(n, Ast.Ctr(lab, p1, p2), parent, w).value.0;
      && |m.nodes| > |n.nodes|
      && m.nodes[|n.nodes|].Agent?
      && m.nodes[|n.nodes|].lab == lab
      && ReadAux(m, parent) == Ok(Principal(|n.nodes|))
  {
  }

  /** A variable. The first occurrence only records its slot. The second,
      while the recorded second end is still a free slot, makes both ends hold
      each other. A further one whose recorded second end is an agent slot is
      rejected; as written, a recorded second end that is a free slot lets a
      further occurrence through, which rewires the first end to it. */
  lemma GraftedVar(n: Net, name: string, parent: AuxPort, w: Wires)
    requires InRange(n, parent) && WiresOk(n, w)
    ensures name !in w ==> Grafted(n, Ast.Var(name), parent, w) == Ok((n, w[name := (parent, Placeholder)]))
    ensures name in w && w[name].1.Slot? ==> Grafted(n, Ast.Var(name), parent, w) == Err(UsedMoreThanTwice(name))
    ensures name in w && w[name].1.Free? && Grafted(n, Ast.Var(name), parent, w).Ok? ==>
      var (m, w') := Grafted(n, Ast.Var(name), parent, w).value;
      && w' == w[name := (w[name].0, parent)]
      && ReadAux(m, w[name].0) == Ok(Aux(parent))
      && (parent != w[name].0 ==> ReadAux(m, parent) == Ok(Aux(w[name].0)))
  {
  }

  /** Any other form of tree is rejected. */
  lemma GraftedOther(n: Net, parent: AuxPort, w: Wires)
    requires InRange(n, parent) && WiresOk(n, w)
    ensures Grafted(n, Ast.Other, parent, w) == Err(Unsupported)
  {
  }

  /** Attaching a tree adds exactly one node per eraser and constructor in it. */
  lemma {:induction false} GraftedNodeCount(n: Net, t: Ast.Tree, parent: AuxPort, w: Wires)
    requires InRange(n, parent) && WiresOk(n, w)
    requires Grafted(n, t, parent, w).Ok?
    ensures |Grafted(n, t, parent, w).value.0.nodes| == |n.nodes| + Ast.NodeCount(t)
    decreases t
  {
    match t
    case Ctr(lab, p1, p2) =>
      var id := |n.nodes|;
      var n1 := n.(nodes := n.nodes + [Agent(lab, Placeholder, Aux(Placeholder), Aux(Placeholder))]);
      GraftedNodeCount(n1, p1, Slot(id, Left), w);
      var r1 := Grafted(n1, p1, Slot(id, Left), w).value;
      GraftedNodeCount(r1.0, p2, Slot(id, Right), r1.1);
    case _ =>
  }

  /** A tree containing an unsupported form is always rejected. */
  lemma {:induction false} GraftedRejectsOther(n: Net, t: Ast.Tree, parent: AuxPort, w: Wires)
    requires InRange(n, parent) && WiresOk(n, w)
    requires Ast.HasOther(t)
    ensures Grafted(n, t, parent, w).Err?
    decreases t
  {
    match t
    case Ctr(lab, p1, p2) =>
      var id := |n.nodes|;
      var n1 := n.(nodes := n.nodes + [Agent(lab, Placeholder, Aux(Placeholder), Aux(Placeholder))]);
      if Ast.HasOther(p1) {
        GraftedRejectsOther(n1, p1, Slot(id, Left), w);
      } else if Grafted(n1, p1, Slot(id, Left), w).Ok? {
        var r1 := Grafted(n1, p1, Slot(id, Left), w).value;
        GraftedRejectsOther(r1.0, p2, Slot(id, Right), r1.1);
      }
    case Other =>
  }

  /** Writing a port that can be followed, into a slot whose owner (if an agent)
      was created before the node the port names, keeps the net well-formed. */
  lemma WriteKeepsWellFormed(n: Net, a: AuxPort, v: Port)
    requires WellFormed(n) && InRange(n, a) && WriteAux(n, a, v).Ok?
    requires PortOk(n, v, if a.Slot? then a.node else -1)
    ensures WellFormed(WriteAux(n, a, v).value.0)
    ensures PrincipalsUnset(n) ==> PrincipalsUnset(WriteAux(n, a, v).value.0)
  {
  }

  /** Attaching a tree to the slot of an existing owner keeps the net
      well-formed: every principal port an agent's slot receives names a node
      created after that agent (children are pushed after their parent), and
      agents keep the placeholder as principal counterpart. */
  lemma {:induction false} GraftedWellFormed(n: Net, t: Ast.Tree, parent: AuxPort, w: Wires)
    requires InRange(n, parent) && WiresOk(n, w)
    requires WellFormed(n) && PrincipalsUnset(n) && |n.free| > 0
    requires Grafted(n, t, parent, w).Ok?
    ensures WellFormed(Grafted(n, t, parent, w).value.0)
    ensures PrincipalsUnset(Grafted(n, t, parent, w).value.0)
    decreases t, 1
  {
    match t
    case Era =>
      var n1 := n.(nodes := n.nodes + [Era(parent)]);
      PushKeepsWellFormed(n, Era(parent));
      WriteKeepsWellFormed(n1, parent, Principal(|n1.nodes| - 1));
    case Ctr(lab, p1, p2) =>
      GraftedCtrWellFormed(n, lab, p1, p2, parent, w);
    case Var(name) =>
      if name in w && w[name].1.Free? {
        var port1 := w[name].0;
        var r1 := WriteAux(n, parent, Aux(port1)).value;
        WriteKeepsWellFormed(n, parent, Aux(port1));
        WriteKeepsWellFormed(r1.0, port1, Aux(parent));
      }
    case Other =>
  }

  /** A pushed eraser, or a pushed agent whose slots hold the placeholder,
      keeps the net well-formed. */
  lemma PushKeepsWellFormed(n: Net, node: Node)
    requires WellFormed(n) && PrincipalsUnset(n) && |n.free| > 0
    requires node.Era? ==> InRange(n, node.endpoint)
    requires node.Agent? ==> node == Agent(node.lab, Placeholder, Aux(Placeholder), Aux(Placeholder))
    ensures WellFormed(n.(nodes := n.nodes + [node])) && PrincipalsUnset(n.(nodes := n.nodes + [node]))
  {
    var n1 := n.(nodes := n.nodes + [node]);
    forall k | 0 <= k < |n.free|
      ensures PortOk(n1, n1.free[k], -1)
    {
      assert PortOk(n, n.free[k], -1);
    }
    forall i | 0 <= i < |n1.nodes| && n1.nodes[i].Agent?
      ensures PortOk(n1, n1.nodes[i].left, i) && PortOk(n1, n1.nodes[i].right, i)
    {
      if i < |n.nodes| {
        assert n1.nodes[i] == n.nodes[i];
      }
    }
  }

  /** The constructor case of `GraftedWellFormed`. */
  lemma {:induction false} GraftedCtrWellFormed(n: Net, lab: Ast.u16, p1: Ast.Tree, p2: Ast.Tree, parent: AuxPort, w: Wires)
    requires InRange(n, parent) && WiresOk(n, w)
    requires WellFormed(n) && PrincipalsUnset(n) && |n.free| > 0
    requires Grafted(n, Ast.Ctr(lab, p1, p2), parent, w).Ok?
    ensures WellFormed(Grafted(n, Ast.Ctr(lab, p1, p2), parent, w).value.0)
    ensures PrincipalsUnset(Grafted(n, Ast.Ctr(lab, p1, p2), parent, w).value.0)
    decreases Ast.Ctr(lab, p1, p2), 0
  {
    var id := |n.nodes|;
    var n1 := n.(nodes := n.nodes + [Agent(lab, Placeholder, Aux(Placeholder), Aux(Placeholder))]);
    PushKeepsWellFormed(n, Agent(lab, Placeholder, Aux(Placeholder), Aux(Placeholder)));
    GraftedWellFormed(n1, p1, Slot(id, Left), w);
    var r1 := Grafted(n1, p1, Slot(id, Left), w).value;
    GraftedWellFormed(r1.0, p2, Slot(id, Right), r1.1);
    var r2 := Grafted(r1.0, p2, Slot(id, Right), r1.1).value;
    WriteKeepsWellFormed(r2.0, parent, Principal(id));
  }

  /** `from_str` from line `i` on: each non-empty line gets a fresh free slot
      (holding the placeholder) and its tree is attached to `Free(i)`, where
      `i` is the index of the line among all lines. */
  function BuiltFrom(lines: seq<Ast.Line>, i: nat, n: Net, w: Wires): (r: Result<Net>)
    requires Ast.BlanksTrailing(lines) && i <= |lines|
    requires |n.free| == Ast.NonBlank(lines[..i]) && WiresOk(n, w)
    ensures r.Ok? ==> |r.value.free| == Ast.NonBlank(lines)
    ensures r.Err? && r.error.ParseError? ==> exists j | i <= j < |lines| :: lines[j] == Ast.Unparsable(r.error.message)
    decreases |lines| - i
  {
    if i == |lines| then
      assert lines[..i] == lines;
      Ok(n)
    else
      Ast.NonBlankPrefix(lines, i);
      match lines[i]
      case Blank => BuiltFrom(lines, i + 1, n, w)
      case Unparsable(m) => Err(ParseError(m))
      case Parsed(t) =>
        var n1 := n.(free := n.free + [Aux(Placeholder)]);
        Ast.NonBlankBeforeNonBlank(lines, i);
        match Grafted(n1, t, Free(i), w)
        case Err(e) => Err(e)
        case Ok(r1) => BuiltFrom(lines, i + 1, r1.0, r1.1)
  }

  /** `from_str`, over the already parsed lines of the text. */
  function Built(lines: seq<Ast.Line>): Result<Net>
    requires Ast.BlanksTrailing(lines)
  {
    BuiltFrom(lines, 0, Net([], []), map[])
  }

  /** The built net is well-formed and its agents keep the placeholder as
      principal counterpart. */
  lemma {:induction false} BuiltFromWellFormed(lines: seq<Ast.Line>, i: nat, n: Net, w: Wires)
    requires Ast.BlanksTrailing(lines) && i <= |lines|
    requires |n.free| == Ast.NonBlank(lines[..i]) && WiresOk(n, w)
    requires WellFormed(n) && PrincipalsUnset(n)
    requires BuiltFrom(lines, i, n, w).Ok?
    ensures WellFormed(BuiltFrom(lines, i, n, w).value) && PrincipalsUnset(BuiltFrom(lines, i, n, w).value)
    decreases |lines| - i
  {
    if i < |lines| {
      Ast.NonBlankPrefix(lines, i);
      match lines[i]
      case Blank => BuiltFromWellFormed(lines, i + 1, n, w);
      case Parsed(t) =>
        var n1 := n.(free := n.free + [Aux(Placeholder)]);
        Ast.NonBlankBeforeNonBlank(lines, i);
        GraftedWellFormed(n1, t, Free(i), w);
        var r1 := Grafted(n1, t, Free(i), w).value;
        BuiltFromWellFormed(lines, i + 1, r1.0, r1.1);
    }
  }

  /** A line the parser rejected, or a tree with an unsupported form, makes
      the whole construction fail. */
  lemma {:induction false} BuiltFromRejects(lines: seq<Ast.Line>, i: nat, n: Net, w: Wires, j: nat)
    requires Ast.BlanksTrailing(lines) && i <= j < |lines|
    requires |n.free| == Ast.NonBlank(lines[..i]) && WiresOk(n, w)
    requires lines[j].Unparsable? || (lines[j].Parsed? && Ast.HasOther(lines[j].tree))
    ensures BuiltFrom(lines, i, n, w).Err?
    decreases |lines| - i
  {
    Ast.NonBlankPrefix(lines, i);
    match lines[i]
    case Blank => assert false;
    case Unparsable(_) =>
    case Parsed(t) =>
      var n1 := n.(free := n.free + [Aux(Placeholder)]);
      Ast.NonBlankBeforeNonBlank(lines, i);
      if i == j {
        GraftedRejectsOther(n1, t, Free(i), w);
      } else if Grafted(n1, t, Free(i), w).Ok? {
        var r1 := Grafted(n1, t, Free(i), w).value;
        BuiltFromRejects(lines, i + 1, r1.0, r1.1, j);
      }
  }

  /** What `from_str` promises of a successful build: one free slot per
      non-empty line, a well-formed arena, placeholder principal counterparts;
      and that every parse error or unsupported tree aborts it. */
  lemma BuiltProperties(lines: seq<Ast.Line>)
    requires Ast.BlanksTrailing(lines)
    ensures Built(lines).Ok? ==> |Built(lines).value.free| == Ast.NonBlank(lines)
    ensures Built(lines).Ok? ==> WellFormed(Built(lines).value) && PrincipalsUnset(Built(lines).value)
    ensures (exists j | 0 <= j < |lines| :: lines[j].Unparsable? || (lines[j].Parsed? && Ast.HasOther(lines[j].tree)))
            ==> Built(lines).Err?
    ensures Built(lines).Err? && Built(lines).error.ParseError? ==>
            exists j | 0 <= j < |lines| :: lines[j] == Ast.Unparsable(Built(lines).error.message)
  {
    assert lines[..0] == [];
    if Built(lines).Ok? {
      BuiltFromWellFormed(lines, 0, Net([], []), map[]);
    }
    if j :| 0 <= j < |lines| && (lines[j].Unparsable? || (lines[j].Parsed? && Ast.HasOther(lines[j].tree))) {
      BuiltFromRejects(lines, 0, Net([], []), map[], j);
    }
  }

  // ---------------------------------------------------------------------------
  // Reciprocal wiring of a text in which every name occurs twice
  // ---------------------------------------------------------------------------

  /** Every slot holding an auxiliary port is held back by that port. */
  ghost predicate Reciprocal(n: Net) {
    forall a | InRange(n, a) && ReadAux(n, a).Ok? && ReadAux(n, a).value.Aux? ::
      InRange(n, ReadAux(n, a).value.aux) && ReadAux(n, ReadAux(n, a).value.aux) == Ok(Aux(a))
  }

  /** How many further occurrences of `v` keep it to two in all: two for a
      name not yet in the table, one for a name seen once (in `once`), none for
      a name seen twice. */
  function Allowed(w: Wires, once: set<string>, v: string): nat {
    if v in once then 1 else if v in w then 0 else 2
  }

  /** The slots waiting for their subtree hold the placeholder and are no
      name's end. */
  ghost predicate PendingHeld(n: Net, pending: set<AuxPort>, ends: map<AuxPort, string>) {
    forall a | a in pending :: InRange(n, a) && a !in ends && ReadAux(n, a) == Ok(Aux(Placeholder))
  }

  /** The end of each name seen once holds the placeholder and is the first
      slot the table records for that name. */
  ghost predicate EndsHeld(n: Net, w: Wires, ends: map<AuxPort, string>, once: set<string>) {
    forall e | e in ends ::
      InRange(n, e) && ReadAux(n, e) == Ok(Aux(Placeholder)) && ends[e] in once && ends[e] in w && w[ends[e]].0 == e
  }

  /** Each name seen once has its first slot among the ends, and a free slot
      (the placeholder) as its recorded second end. */
  ghost predicate OnceHeld(w: Wires, ends: map<AuxPort, string>, once: set<string>) {
    forall v | v in once :: v in w && w[v].1.Free? && w[v].0 in ends && ends[w[v].0] == v
  }

  /** Every slot that is neither pending nor an end and holds an auxiliary
      port is held back by it. */
  ghost predicate LinksHeld(n: Net, pending: set<AuxPort>, ends: map<AuxPort, string>) {
    forall a | InRange(n, a) && a !in pending && a !in ends && ReadAux(n, a).Ok? && ReadAux(n, a).value.Aux? ::
      var b := ReadAux(n, a).value.aux;
      InRange(n, b) && b !in pending && b !in ends && ReadAux(n, b) == Ok(Aux(a))
  }

  /** The state of a build in progress. The `pending` slots wait for their
      subtree; `ends` maps the slot of each name seen once to that name. Both
      kinds still hold the placeholder, and every other slot holding an
      auxiliary port is held back by it. */
  ghost predicate WiredSoFar(n: Net, w: Wires, pending: set<AuxPort>, ends: map<AuxPort, string>, once: set<string>) {
    PendingHeld(n, pending, ends) && EndsHeld(n, w, ends, once) && OnceHeld(w, ends, once) && LinksHeld(n, pending, ends)
  }

  /** The names seen once after attaching `t`: those seen once before that do
      not occur in `t`, and the new ones that occur in it once. */
  ghost predicate OnceAfter(once: set<string>, w: Wires, t: Ast.Tree, once': set<string>) {
    forall v :: v in once' <==> (v in once && Ast.Occ(t, v) == 0) || (v !in w && Ast.Occ(t, v) == 1)
  }

  /** Attaching a tree adds to the variable table exactly the names in it. */
  lemma {:induction false} GraftedKeys(n: Net, t: Ast.Tree, parent: AuxPort, w: Wires)
    requires InRange(n, parent) && WiresOk(n, w)
    requires Grafted(n, t, parent, w).Ok?
    ensures forall v :: v in Grafted(n, t, parent, w).value.1 <==> v in w || Ast.Occ(t, v) > 0
    decreases t
  {
    match t
    case Ctr(lab, p1, p2) =>
      var id := |n.nodes|;
      var n1 := n.(nodes := n.nodes + [Agent(lab, Placeholder, Aux(Placeholder), Aux(Placeholder))]);
      GraftedKeys(n1, p1, Slot(id, Left), w);
      var r1 := Grafted(n1, p1, Slot(id, Left), w).value;
      GraftedKeys(r1.0, p2, Slot(id, Right), r1.1);
    case _ =>
  }

  lemma PushKeepsReads(n: Net, node: Node)
    ensures forall a | InRange(n, a) ::
      InRange(n.(nodes := n.nodes + [node]), a) && ReadAux(n.(nodes := n.nodes + [node]), a) == ReadAux(n, a)
  {
  }

  /** A pushed agent adds its two slots to the pending ones. */
  lemma WiredPushAgent(n: Net, lab: Ast.u16, w: Wires, pending: set<AuxPort>, ends: map<AuxPort, string>, once: set<string>)
    requires WiredSoFar(n, w, pending, ends, once)
    ensures Slot(|n.nodes|, Left) !in pending && Slot(|n.nodes|, Right) !in pending
    ensures WiredSoFar(n.(nodes := n.nodes + [Agent(lab, Placeholder, Aux(Placeholder), Aux(Placeholder))]), w,
                       pending + {Slot(|n.nodes|, Left), Slot(|n.nodes|, Right)}, ends, once)
  {
    PushKeepsReads(n, Agent(lab, Placeholder, Aux(Placeholder), Aux(Placeholder)));
  }

  lemma WiredPushEra(n: Net, e: AuxPort, w: Wires, pending: set<AuxPort>, ends: map<AuxPort, string>, once: set<string>)
    requires WiredSoFar(n, w, pending, ends, once)
    ensures WiredSoFar(n.(nodes := n.nodes + [Era(e)]), w, pending, ends, once)
  {
    PushKeepsReads(n, Era(e));
  }

  /** A new free slot for the next line is pending. */
  lemma WiredPushFree(n: Net, w: Wires, pending: set<AuxPort>, ends: map<AuxPort, string>, once: set<string>)
    requires WiredSoFar(n, w, pending, ends, once)
    ensures Free(|n.free|) !in pending
    ensures WiredSoFar(n.(free := n.free + [Aux(Placeholder)]), w, pending + {Free(|n.free|)}, ends, once)
  {
    var n1 := n.(free := n.free + [Aux(Placeholder)]);
    assert forall a | InRange(n, a) :: InRange(n1, a) && ReadAux(n1, a) == ReadAux(n, a);
  }

  /** A pending slot that receives a principal port is done. */
  lemma WiredSetPrincipal(n: Net, a: AuxPort, j: nat, w: Wires, pending: set<AuxPort>, ends: map<AuxPort, string>, once: set<string>)
    requires WiredSoFar(n, w, pending, ends, once) && a in pending
    requires WriteAux(n, a, Principal(j)).Ok?
    ensures WiredSoFar(WriteAux(n, a, Principal(j)).value.0, w, pending - {a}, ends, once)
  {
  }

  /** A first occurrence turns its pending slot into a name's end. */
  lemma WiredFirstUse(n: Net, v: string, parent: AuxPort, w: Wires, pending: set<AuxPort>, ends: map<AuxPort, string>, once: set<string>)
    requires WiredSoFar(n, w, pending, ends, once) && parent in pending && v !in w
    ensures WiredSoFar(n, w[v := (parent, Placeholder)], pending - {parent}, ends[parent := v], once + {v})
  {
  }

  /** `m` is `n` with slots `x` and `y` holding each other. */
  ghost predicate PairWritten(n: Net, m: Net, x: AuxPort, y: AuxPort) {
    && |m.nodes| == |n.nodes| && |m.free| == |n.free| && InRange(n, x) && InRange(n, y)
    && ReadAux(m, x) == Ok(Aux(y)) && ReadAux(m, y) == Ok(Aux(x))
    && forall b | InRange(n, b) && b != x && b != y :: ReadAux(m, b) == ReadAux(n, b)
  }

  lemma PairPending(n: Net, m: Net, x: AuxPort, y: AuxPort, pending: set<AuxPort>, ends: map<AuxPort, string>)
    requires PairWritten(n, m, x, y) && PendingHeld(n, pending, ends) && x in pending && y in ends
    ensures PendingHeld(m, pending - {x}, ends - {y})
  {
  }

  lemma PairEnds(n: Net, m: Net, x: AuxPort, y: AuxPort, w: Wires, ends: map<AuxPort, string>, once: set<string>, v: string)
    requires PairWritten(n, m, x, y) && EndsHeld(n, w, ends, once) && x !in ends
    requires v in once && v in w && w[v].0 == y
    ensures EndsHeld(m, w[v := (y, x)], ends - {y}, once - {v})
  {
  }

  lemma PairOnce(w: Wires, ends: map<AuxPort, string>, once: set<string>, v: string, x: AuxPort, y: AuxPort)
    requires OnceHeld(w, ends, once) && v in once && w[v].0 == y
    ensures OnceHeld(w[v := (y, x)], ends - {y}, once - {v})
  {
  }

  lemma PairLinks(n: Net, m: Net, x: AuxPort, y: AuxPort, pending: set<AuxPort>, ends: map<AuxPort, string>)
    requires PairWritten(n, m, x, y) && LinksHeld(n, pending, ends)
    requires x in pending && x !in ends && y in ends && y !in pending
    ensures LinksHeld(m, pending - {x}, ends - {y})
  {
    forall a | InRange(m, a) && a !in pending - {x} && a !in ends - {y} && ReadAux(m, a).Ok? && ReadAux(m, a).value.Aux?
      ensures var b := ReadAux(m, a).value.aux;
        InRange(m, b) && b !in pending - {x} && b !in ends - {y} && ReadAux(m, b) == Ok(Aux(a))
    {
      if a != x && a != y {
        assert ReadAux(m, a) == ReadAux(n, a);
      }
    }
  }

  /** A second occurrence links its pending slot and the name's end to each
      other. */
  lemma WiredSecondUse(n: Net, v: string, parent: AuxPort, w: Wires, pending: set<AuxPort>, ends: map<AuxPort, string>, once: set<string>)
    requires InRange(n, parent) && WiresOk(n, w)
    requires WiredSoFar(n, w, pending, ends, once) && parent in pending && v in once
    requires Grafted(n, Ast.Var(v), parent, w).Ok?
    ensures WiredSoFar(Grafted(n, Ast.Var(v), parent, w).value.0, Grafted(n, Ast.Var(v), parent, w).value.1,
                       pending - {parent}, ends - {w[v].0}, once - {v})
  {
    var p1 := w[v].0;
    var m1 := WriteAux(n, parent, Aux(p1)).value.0;
    var m := WriteAux(m1, p1, Aux(parent)).value.0;
    assert Grafted(n, Ast.Var(v), parent, w) == Ok((m, w[v := (p1, parent)]));
    assert PairWritten(n, m, parent, p1);
    PairPending(n, m, parent, p1, pending, ends);
    PairEnds(n, m, parent, p1, w, ends, once, v);
    PairOnce(w, ends, once, v, parent, p1);
    PairLinks(n, m, parent, p1, pending, ends);
  }

  /** Attaching a tree whose names stay within two occurrences keeps the
      build reciprocal; its pending slot is done, and the names seen once
      change as `OnceAfter` says. */
  lemma {:induction false} GraftedWired(n: Net, t: Ast.Tree, parent: AuxPort, w: Wires, pending: set<AuxPort>, ends: map<AuxPort, string>, once: set<string>)
    requires InRange(n, parent) && WiresOk(n, w)
    requires WiredSoFar(n, w, pending, ends, once) && parent in pending
    requires forall v :: Ast.Occ(t, v) <= Allowed(w, once, v)
    requires Grafted(n, t, parent, w).Ok?
    ensures exists ends': map<AuxPort, string>, once': set<string> ::
      && WiredSoFar(Grafted(n, t, parent, w).value.0, Grafted(n, t, parent, w).value.1, pending - {parent}, ends', once')
      && OnceAfter(once, w, t, once')
    decreases t, 2
  {
    match t
    case Era =>
      var n1 := n.(nodes := n.nodes + [Era(parent)]);
      WiredPushEra(n, parent, w, pending, ends, once);
      WiredSetPrincipal(n1, parent, |n1.nodes| - 1, w, pending, ends, once);
      assert OnceAfter(once, w, t, once);
    case Ctr(lab, p1, p2) =>
      GraftedCtrWired(n, lab, p1, p2, parent, w, pending, ends, once);
    case Var(x) =>
      assert Ast.Occ(t, x) <= Allowed(w, once, x);
      if x in w {
        WiredSecondUse(n, x, parent, w, pending, ends, once);
        assert OnceAfter(once, w, t, once - {x});
      } else {
        WiredFirstUse(n, x, parent, w, pending, ends, once);
        assert OnceAfter(once, w, t, once + {x});
      }
    case Other =>
  }

  /** The occurrence bound of a constructor holds for its left subtree. */
  lemma CtrAllowedLeft(lab: Ast.u16, p1: Ast.Tree, p2: Ast.Tree, w: Wires, once: set<string>)
    requires forall v :: Ast.Occ(Ast.Ctr(lab, p1, p2), v) <= Allowed(w, once, v)
    ensures forall v :: Ast.Occ(p1, v) <= Allowed(w, once, v)
  {
    forall v
      ensures Ast.Occ(p1, v) <= Allowed(w, once, v)
    {
      assert Ast.Occ(Ast.Ctr(lab, p1, p2), v) <= Allowed(w, once, v);
    }
  }

  /** The right subtree is bounded by the table after the left one. */
  lemma CtrAllowedRight(lab: Ast.u16, p1: Ast.Tree, p2: Ast.Tree, w: Wires, once: set<string>, w1: Wires, once1: set<string>)
    requires forall v :: Ast.Occ(Ast.Ctr(lab, p1, p2), v) <= Allowed(w, once, v)
    requires forall v | v in once :: v in w
    requires OnceAfter(once, w, p1, once1)
    requires forall v :: v in w1 <==> v in w || Ast.Occ(p1, v) > 0
    ensures forall v :: Ast.Occ(p2, v) <= Allowed(w1, once1, v)
  {
    forall v
      ensures Ast.Occ(p2, v) <= Allowed(w1, once1, v)
    {
      assert Ast.Occ(Ast.Ctr(lab, p1, p2), v) <= Allowed(w, once, v);
    }
  }

  /** The names seen once after a constructor, from those after each subtree. */
  lemma CtrOnceAfter(lab: Ast.u16, p1: Ast.Tree, p2: Ast.Tree, w: Wires, once: set<string>, w1: Wires, once1: set<string>, once2: set<string>)
    requires forall v :: Ast.Occ(Ast.Ctr(lab, p1, p2), v) <= Allowed(w, once, v)
    requires forall v | v in once :: v in w
    requires OnceAfter(once, w, p1, once1) && OnceAfter(once1, w1, p2, once2)
    requires forall v :: v in w1 <==> v in w || Ast.Occ(p1, v) > 0
    ensures OnceAfter(once, w, Ast.Ctr(lab, p1, p2), once2)
  {
    forall v
      ensures v in once2 <==> (v in once && Ast.Occ(Ast.Ctr(lab, p1, p2), v) == 0) || (v !in w && Ast.Occ(Ast.Ctr(lab, p1, p2), v) == 1)
    {
      assert Ast.Occ(Ast.Ctr(lab, p1, p2), v) <= Allowed(w, once, v);
    }
  }

  /** The left subtree of a constructor: push the agent and attach `p1` to
      its left slot, leaving the right slot pending. */
  lemma {:induction false} CtrLeftWired(n: Net, lab: Ast.u16, p1: Ast.Tree, p2: Ast.Tree, w: Wires,
                                       pending: set<AuxPort>, ends: map<AuxPort, string>, once: set<string>)
    requires WiresOk(n, w) && WiredSoFar(n, w, pending, ends, once)
    requires forall v :: Ast.Occ(Ast.Ctr(lab, p1, p2), v) <= Allowed(w, once, v)
    requires var n1 := n.(nodes := n.nodes + [Agent(lab, Placeholder, Aux(Placeholder), Aux(Placeholder))]);
      InRange(n1, Slot(|n.nodes|, Left)) && WiresOk(n1, w) && Grafted(n1, p1, Slot(|n.nodes|, Left), w).Ok?
    ensures Slot(|n.nodes|, Right) !in pending
    ensures var n1 := n.(nodes := n.nodes + [Agent(lab, Placeholder, Aux(Placeholder), Aux(Placeholder))]);
      var r1 := Grafted(n1, p1, Slot(|n.nodes|, Left), w).value;
      exists ends1: map<AuxPort, string>, once1: set<string> ::
        WiredSoFar(r1.0, r1.1, pending + {Slot(|n.nodes|, Right)}, ends1, once1) && OnceAfter(once, w, p1, once1)
    decreases Ast.Ctr(lab, p1, p2), 0
  {
    var id := |n.nodes|;
    var n1 := n.(nodes := n.nodes + [Agent(lab, Placeholder, Aux(Placeholder), Aux(Placeholder))]);
    var left, right := Slot(id, Left), Slot(id, Right);
    WiredPushAgent(n, lab, w, pending, ends, once);
    CtrAllowedLeft(lab, p1, p2, w, once);
    GraftedWired(n1, p1, left, w, pending + {left, right}, ends, once);
    OneDone(pending, left, right);
  }

  lemma OneDone(pending: set<AuxPort>, l: AuxPort, r: AuxPort)
    requires l !in pending && r !in pending && l != r
    ensures pending + {l, r} - {l} == pending + {r}
    ensures pending + {r} - {r} == pending
  {
  }

  /** The constructor case of `GraftedWired`. */
  lemma {:induction false} GraftedCtrWired(n: Net, lab: Ast.u16, p1: Ast.Tree, p2: Ast.Tree, parent: AuxPort, w: Wires,
                                          pending: set<AuxPort>, ends: map<AuxPort, string>, once: set<string>)
    requires InRange(n, parent) && WiresOk(n, w)
    requires WiredSoFar(n, w, pending, ends, once) && parent in pending
    requires forall v :: Ast.Occ(Ast.Ctr(lab, p1, p2), v) <= Allowed(w, once, v)
    requires Grafted(n, Ast.Ctr(lab, p1, p2), parent, w).Ok?
    ensures exists ends': map<AuxPort, string>, once': set<string> ::
      && WiredSoFar(Grafted(n, Ast.Ctr(lab, p1, p2), parent, w).value.0, Grafted(n, Ast.Ctr(lab, p1, p2), parent, w).value.1,
                    pending - {parent}, ends', once')
      && OnceAfter(once, w, Ast.Ctr(lab, p1, p2), once')
    decreases Ast.Ctr(lab, p1, p2), 1
  {
    var id := |n.nodes|;
    var n1 := n.(nodes := n.nodes + [Agent(lab, Placeholder, Aux(Placeholder), Aux(Placeholder))]);
    var right := Slot(id, Right);
    GraftedCtrSteps(n, lab, p1, p2, parent, w);
    CtrLeftWired(n, lab, p1, p2, w, pending, ends, once);
    var r1 := Grafted(n1, p1, Slot(id, Left), w).value;
    var ends1, once1 :| WiredSoFar(r1.0, r1.1, pending + {right}, ends1, once1) && OnceAfter(once, w, p1, once1);
    GraftedKeys(n1, p1, Slot(id, Left), w);
    CtrAllowedRight(lab, p1, p2, w, once, r1.1, once1);
    GraftedWired(r1.0, p2, right, r1.1, pending + {right}, ends1, once1);
    var r2 := Grafted(r1.0, p2, right, r1.1).value;
    var ends2, once2 :| WiredSoFar(r2.0, r2.1, pending + {right} - {right}, ends2, once2) && OnceAfter(once1, r1.1, p2, once2);
    OneDone(pending, Slot(id, Left), right);
    WiredSetPrincipal(r2.0, parent, id, r2.1, pending, ends2, once2);
    CtrOnceAfter(lab, p1, p2, w, once, r1.1, once1, once2);
  }

  /** A finished build leaves no slot pending and no name seen once. */
  lemma WiredComplete(n: Net, w: Wires, ends: map<AuxPort, string>)
    requires WiredSoFar(n, w, {}, ends, {})
    ensures Reciprocal(n)
  {
    forall a | InRange(n, a) && ReadAux(n, a).Ok? && ReadAux(n, a).value.Aux?
      ensures InRange(n, ReadAux(n, a).value.aux) && ReadAux(n, ReadAux(n, a).value.aux) == Ok(Aux(a))
    {
      assert a !in ends;
    }
  }

  /** The table holds exactly the names of the lines before `i`, and `once`
      those that occur there once. */
  ghost predicate SeenSoFar(lines: seq<Ast.Line>, i: nat, w: Wires, once: set<string>)
    requires i <= |lines|
  {
    forall v :: (v in w <==> Ast.OccIn(lines[..i], v) > 0) && (v in once <==> Ast.OccIn(lines[..i], v) == 1)
  }

  /** In a text whose names occur twice, no line takes a name past two. */
  lemma LineAllowed(lines: seq<Ast.Line>, i: nat, w: Wires, once: set<string>)
    requires Ast.Paired(lines) && i < |lines| && lines[i].Parsed? && SeenSoFar(lines, i, w, once)
    ensures forall v :: Ast.Occ(lines[i].tree, v) <= Allowed(w, once, v)
  {
    forall v
      ensures Ast.Occ(lines[i].tree, v) <= Allowed(w, once, v)
    {
      Ast.OccInPrefix(lines, i, v);
      Ast.OccInBelow(lines, i + 1, v);
    }
  }

  lemma LineSeen(lines: seq<Ast.Line>, i: nat, w: Wires, once: set<string>, w1: Wires, once1: set<string>)
    requires i < |lines| && lines[i].Parsed? && SeenSoFar(lines, i, w, once)
    requires OnceAfter(once, w, lines[i].tree, once1)
    requires forall v :: v in w1 <==> v in w || Ast.Occ(lines[i].tree, v) > 0
    ensures SeenSoFar(lines, i + 1, w1, once1)
  {
    forall v
      ensures (v in w1 <==> Ast.OccIn(lines[..i + 1], v) > 0) && (v in once1 <==> Ast.OccIn(lines[..i + 1], v) == 1)
    {
      Ast.OccInPrefix(lines, i, v);
    }
  }

  lemma BlankSeen(lines: seq<Ast.Line>, i: nat, w: Wires, once: set<string>)
    requires i < |lines| && lines[i].Blank? && SeenSoFar(lines, i, w, once)
    ensures SeenSoFar(lines, i + 1, w, once)
  {
    forall v
      ensures Ast.OccIn(lines[..i + 1], v) == Ast.OccIn(lines[..i], v)
    {
      Ast.OccInPrefix(lines, i, v);
    }
  }

  /** After the whole text no name is seen only once. */
  lemma SeenComplete(lines: seq<Ast.Line>, w: Wires, once: set<string>)
    requires Ast.Paired(lines) && SeenSoFar(lines, |lines|, w, once)
    ensures once == {}
  {
    assert lines[..|lines|] == lines;
  }

  /** One non-empty line: a new pending free slot, and the line's tree
      attached to it. */
  lemma LineWired(lines: seq<Ast.Line>, i: nat, n: Net, w: Wires, ends: map<AuxPort, string>, once: set<string>)
    requires i < |lines| && lines[i].Parsed? && |n.free| == i && WiresOk(n, w)
    requires Ast.Paired(lines) && WiredSoFar(n, w, {}, ends, once) && SeenSoFar(lines, i, w, once)
    requires Grafted(n.(free := n.free + [Aux(Placeholder)]), lines[i].tree, Free(i), w).Ok?
    ensures var r1 := Grafted(n.(free := n.free + [Aux(Placeholder)]), lines[i].tree, Free(i), w).value;
      exists ends1: map<AuxPort, string>, once1: set<string> ::
        WiredSoFar(r1.0, r1.1, {}, ends1, once1) && SeenSoFar(lines, i + 1, r1.1, once1)
  {
    var t := lines[i].tree;
    var n1 := n.(free := n.free + [Aux(Placeholder)]);
    WiredPushFree(n, w, {}, ends, once);
    assert {} + {Free(i)} == {Free(i)};
    LineAllowed(lines, i, w, once);
    GraftedWired(n1, t, Free(i), w, {Free(i)}, ends, once);
    var r1 := Grafted(n1, t, Free(i), w).value;
    var ends1, once1 :| WiredSoFar(r1.0, r1.1, {Free(i)} - {Free(i)}, ends1, once1) && OnceAfter(once, w, t, once1);
    assert {Free(i)} - {Free(i)} == {};
    GraftedKeys(n1, t, Free(i), w);
    LineSeen(lines, i, w, once, r1.1, once1);
  }

  /** `from_str` from line `i` on, where the table holds exactly the names
      seen so far and `once` those seen once. */
  lemma {:induction false} BuiltFromWired(lines: seq<Ast.Line>, i: nat, n: Net, w: Wires, ends: map<AuxPort, string>, once: set<string>)
    requires Ast.BlanksTrailing(lines) && i <= |lines|
    requires |n.free| == Ast.NonBlank(lines[..i]) && WiresOk(n, w)
    requires Ast.Paired(lines) && WiredSoFar(n, w, {}, ends, once) && SeenSoFar(lines, i, w, once)
    requires BuiltFrom(lines, i, n, w).Ok?
    ensures Reciprocal(BuiltFrom(lines, i, n, w).value)
    decreases |lines| - i
  {
    if i == |lines| {
      SeenComplete(lines, w, once);
      WiredComplete(n, w, ends);
    } else {
      Ast.NonBlankPrefix(lines, i);
      match lines[i]
      case Blank =>
        BlankSeen(lines, i, w, once);
        BuiltFromWired(lines, i + 1, n, w, ends, once);
      case Unparsable(_) =>
      case Parsed(t) =>
        Ast.NonBlankBeforeNonBlank(lines, i);
        LineWired(lines, i, n, w, ends, once);
        var r1 := Grafted(n.(free := n.free + [Aux(Placeholder)]), t, Free(i), w).value;
        var ends1, once1 :| WiredSoFar(r1.0, r1.1, {}, ends1, once1) && SeenSoFar(lines, i + 1, r1.1, once1);
        BuiltFromWired(lines, i + 1, r1.0, r1.1, ends1, once1);
    }
  }

  /** When every name of the text occurs exactly twice, the built net is
      reciprocal: each of the two slots of a name holds the other. */
  lemma BuiltReciprocal(lines: seq<Ast.Line>)
    requires Ast.BlanksTrailing(lines) && Ast.Paired(lines)
    requires Built(lines).Ok?
    ensures Reciprocal(Built(lines).value)
  {
    assert lines[..0] == [];
    BuiltFromWired(lines, 0, Net([], []), map[], map[], {});
  }

  // ---------------------------------------------------------------------------
  // Rendering a net as trees (`NameGen`, `to_tree`, `to_string`)
  // ---------------------------------------------------------------------------

  /** The letter for digit `d` in 0..25. */
  function Letter(d: nat): (c: char)
    requires d < 26
    ensures 'a' <= c <= 'z'
  {
    ('a' as int + d) as char
  }

  /** The name `NameGen::next` produces for counter value `id`: base-26 digits,
      least significant first, taken while the rest exceeds 26. */
  function Name(id: nat): (s: string)
    ensures |s| > 0
    ensures forall k | 0 <= k < |s| :: 'a' <= s[k] <= 'z'
  {
    if id > 26 then [Letter(id % 26)] + Name(id / 26) else [Letter(id % 26)]
  }

  /** Because the loop stops at 26 instead of 25, the counter values 0 and 26
      both produce "a". */
  lemma NameCollision()
    ensures Name(0) == Name(26) == "a"
  {
  }

  /** The names of auxiliary slots chosen so far. */
  type Names = map<AuxPort, string>

  /** The names the generator hands out while its counter runs from `lo` to
      `hi`. */
  function NamesIn(lo: nat, hi: nat): set<string> {
    set k | lo <= k < hi :: Name(k)
  }

  /** `to_tree`: render the port `p` as a tree. `gen` is the counter of the
      name generator; the result carries the new name table and counter. */
  function Rendered(n: Net, p: Port, names: Names, gen: nat): (r: Result<(Ast.Tree, Names, nat)>)
    requires WellFormed(n) && PortOk(n, p, -1)
    ensures r.Ok? ==> names.Keys <= r.value.1.Keys && gen <= r.value.2
    ensures r.Ok? ==> !Ast.HasOther(r.value.0)
    ensures r.Ok? ==> forall a | a in r.value.1 ::
      (a in names && r.value.1[a] == names[a]) || r.value.1[a] in NamesIn(gen, r.value.2)
    decreases Measure(n, p)
  {
    match p
    case Principal(i) =>
      (match n.nodes[i]
       case Era(_) => Ok((Ast.Era, names, gen))
       case Agent(lab, _, l, rt) =>
         match Rendered(n, l, names, gen)
         case Err(e) => Err(e)
         case Ok(r1) =>
           match Rendered(n, rt, r1.1, r1.2)
           case Err(e) => Err(e)
           case Ok(r2) => Ok((Ast.Ctr(lab, r1.0, r2.0), r2.1, r2.2)))
    case Aux(a) =>
      if a in names then Ok((Ast.Var(names[a]), names, gen))
      else
        match ReadAux(n, a)
        case Err(e) => Err(e)
        case Ok(Principal(_)) => Err(AuxResolvesToPrincipal)
        case Ok(Aux(b)) =>
          var name := Name(gen);
          Ok((Ast.Var(name), names[a := name][b := name], gen + 1))
  }

  /** The cases of `to_tree`: a principal port renders as its node's shape; a
      slot already named renders as that name; an unnamed slot is an error if
      its counterpart is a principal port, and otherwise gets one fresh name,
      recorded under both ends of the wire. */
  lemma RenderedCases(n: Net, p: Port, names: Names, gen: nat)
    requires WellFormed(n) && PortOk(n, p, -1)
    ensures var r := Rendered(n, p, names, gen);
      && (p.Principal? && n.nodes[p.id].Era? ==> r == Ok((Ast.Era, names, gen)))
      && (p.Principal? && n.nodes[p.id].Agent? && r.Ok? ==>
            r.value.0.Ctr? && r.value.0.lab == n.nodes[p.id].lab)
      && (p.Aux? && p.aux in names ==> r == Ok((Ast.Var(names[p.aux]), names, gen)))
      && (p.Aux? && p.aux !in names && ReadAux(n, p.aux).Ok? && ReadAux(n, p.aux).value.Principal? ==>
            r == Err(AuxResolvesToPrincipal))
      && (p.Aux? && p.aux !in names && ReadAux(n, p.aux).Ok? && ReadAux(n, p.aux).value.Aux? ==>
            r == Ok((Ast.Var(Name(gen)), names[p.aux := Name(gen)][ReadAux(n, p.aux).value.aux := Name(gen)], gen + 1)))
  {
  }

  /** `to_string` from free port `k` on: one tree per free port, each rendered
      with a name generator that starts again at 0, while the name table is
      shared by all ports. Each tree is one line of the output text. */
  function RenderedFrom(n: Net, k: nat, names: Names): (r: Result<seq<Ast.Tree>>)
    requires WellFormed(n) && k <= |n.free|
    ensures r.Ok? ==> |r.value| == |n.free| - k
    ensures r.Ok? ==> forall j | 0 <= j < |r.value| :: !Ast.HasOther(r.value[j])
    decreases |n.free| - k
  {
    if k == |n.free| then Ok([])
    else
      match Rendered(n, n.free[k], names, 0)
      case Err(e) => Err(e)
      case Ok(r1) =>
        match RenderedFrom(n, k + 1, r1.1)
        case Err(e) => Err(e)
        case Ok(ts) => Ok([r1.0] + ts)
  }

  /** `to_string`: the trees of all free ports, in order. */
  function RenderedAll(n: Net): Result<seq<Ast.Tree>>
    requires WellFormed(n)
  {
    RenderedFrom(n, 0, map[])
  }

  // ---------------------------------------------------------------------------
  // The mutable objects and the imperative operations
  // ---------------------------------------------------------------------------

  /** The generator of fresh variable names used while rendering. */
  class NameGen {
    var id: nat

    /** `NameGen::new`: the counter starts at 0. */
    constructor ()
      ensures id == 0
    {
      id := 0;
    }

    /** `NameGen::next`: the name for the current counter value; the counter
        moves on by one. */
    method Next() returns (res: string)
      modifies this
      ensures res == Name(old(id)) && id == old(id) + 1
    {
      res := "";
      var k := id;
      while k > 26
        invariant res + Name(k) == Name(id)
      {
        assert Name(k) == [Letter(k % 26)] + Name(k / 26);
        res := res + [Letter(k % 26)];
        k := k / 26;
      }
      res := res + [Letter(k % 26)];
      id := id + 1;
    }
  }

  /** The interaction net: the node arena and the free ports, both updated in
      place while a net is built. */
  class INet {
    var nodes: seq<Node>
    var freePorts: seq<Port>

    /** The current contents, as a value. */
    function View(): Net
      reads this
    {
      Net(nodes, freePorts)
    }

    /** `INet::default`: no nodes and no free ports. */
    constructor ()
      ensures View() == Net([], [])
    {
      nodes := [];
      freePorts := [];
    }

    /** `port`. */
    function PortOf(p: Port): Result<Port>
      reads this
      requires p.Principal? ==> p.id < |nodes|
      requires p.Aux? ==> InRange(View(), p.aux)
    {
      Resolve(View(), p)
    }

    /** `aux_port`. */
    function AuxPortOf(a: AuxPort): Result<Port>
      reads this
      requires InRange(View(), a)
    {
      ReadAux(View(), a)
    }

    /** `node`. */
    function NodeAt(id: nat): Node
      reads this
      requires id < |nodes|
    {
      nodes[id]
    }

    /** `set_port`: overwrite the slot `key` with `value` and return what it
        held; on an eraser's slot, fail and leave the net as it was. */
    method SetPort(key: AuxPort, value: Port) returns (r: Result<Port>)
      requires InRange(View(), key)
      modifies this
      ensures var w := WriteAux(old(View()), key, value);
        if w.Ok? then View() == w.value.0 && r == Ok(w.value.1)
        else View() == old(View()) && r == Err(w.error)
    {
      match key
      case Free(i) =>
        var previous := freePorts[i];
        freePorts := freePorts[i := value];
        r := Ok(previous);
      case Slot(k, d) =>
        var node := nodes[k];
        match node
        case Era(_) =>
          r := Err(NoAuxPorts);
        case Agent(lab, q, l, rt) =>
          if d == Left {
            nodes := nodes[k := Agent(lab, q, value, rt)];
            r := Ok(l);
          } else {
            nodes := nodes[k := Agent(lab, q, l, value)];
            r := Ok(rt);
          }
    }

    /** `from_str`, over the parsed lines of the text: one free slot per
        non-empty line, each line's tree attached to `Free(i)` for the line's
        index `i`; the first parse error or build error aborts. */
    static method FromStr(lines: seq<Ast.Line>) returns (r: Result<INet>)
      requires Ast.BlanksTrailing(lines)
      ensures Built(lines).Ok? ==> r.Ok? && fresh(r.value) && r.value.View() == Built(lines).value
      ensures Built(lines).Err? ==> r == Err(Built(lines).error)
    {
      var net := new INet();
      var wires: Wires := map[];
      assert lines[..0] == [];
      for i := 0 to |lines|
        invariant |net.freePorts| == Ast.NonBlank(lines[..i]) && WiresOk(net.View(), wires)
        invariant BuiltFrom(lines, i, net.View(), wires) == Built(lines)
      {
        Ast.NonBlankPrefix(lines, i);
        match lines[i]
        case Blank =>
        case Unparsable(m) =>
          return Err(ParseError(m));
        case Parsed(tree) =>
          Ast.NonBlankBeforeNonBlank(lines, i);
          net.freePorts := net.freePorts + [Aux(Placeholder)];
          var res;
          res, wires := AddTree(net, tree, Free(i), wires);
          if res.Err? {
            return Err(res.error);
          }
      }
      return Ok(net);
    }

    /** `to_string`: one rendered tree per free port, in order (each is one
        line of the text); the name table is shared by all ports, the name
        generator is created afresh for each. */
    method ToString() returns (r: Result<seq<Ast.Tree>>)
      requires WellFormed(View())
      ensures r == RenderedAll(View())
    {
      ghost var n := View();
      var res: seq<Ast.Tree> := [];
      var wires: Names := map[];
      PrefixedEmpty(RenderedAll(n));
      for k := 0 to |freePorts|
        invariant View() == n
        invariant Prefixed(res, RenderedFrom(n, k, wires)) == RenderedAll(n)
      {
        var gen := new NameGen();
        assert PortOk(n, n.free[k], -1);
        var tree, wires1 := ToTree(freePorts[k], this, wires, gen);
        if tree.Err? {
          return Err(tree.error);
        }
        PrefixedStep(n, k, wires, res, tree.value, wires1);
        res, wires := res + [tree.value], wires1;
      }
      assert res + [] == res;
      return Ok(res);
    }
  }

  lemma PrefixedEmpty(r: Result<seq<Ast.Tree>>)
    ensures Prefixed([], r) == r
  {
    if r.Ok? {
      assert [] + r.value == r.value;
    }
  }

  lemma PrefixedStep(n: Net, k: nat, names: Names, ts: seq<Ast.Tree>, t: Ast.Tree, names1: Names)
    requires WellFormed(n) && k < |n.free|
    requires var e := Rendered(n, n.free[k], names, 0); e.Ok? && e.value.0 == t && e.value.1 == names1
    ensures Prefixed(ts, RenderedFrom(n, k, names)) == Prefixed(ts + [t], RenderedFrom(n, k + 1, names1))
  {
    var rest := RenderedFrom(n, k + 1, names1);
    if rest.Ok? {
      assert ts + ([t] + rest.value) == (ts + [t]) + rest.value;
    }
  }

  /** The trees `ts` rendered before the result `r` of the remaining ports. */
  function Prefixed(ts: seq<Ast.Tree>, r: Result<seq<Ast.Tree>>): Result<seq<Ast.Tree>> {
    if r.Ok? then Ok(ts + r.value) else r
  }

  /** `add_tree`: attach the graph of `tree` to the slot `parent`, updating the
      net in place and the variable table. On success the net and table are
      what `Grafted` describes; on failure the error is the one it names (the
      partly built net is then discarded by the caller). */
  method AddTree(net: INet, tree: Ast.Tree, parent: AuxPort, wires: Wires) returns (r: Result<()>, wires': Wires)
    requires InRange(net.View(), parent) && WiresOk(net.View(), wires)
    modifies net
    ensures var g := Grafted(old(net.View()), tree, parent, wires);
      && (g.Ok? ==> r == Ok(()) && net.View() == g.value.0 && wires' == g.value.1)
      && (g.Err? ==> r == Err(g.error))
    decreases tree
  {
    match tree
    case Era =>
      net.nodes := net.nodes + [Era(parent)];
      var res := net.SetPort(parent, Principal(|net.nodes| - 1));
      if res.Err? {
        return Err(res.error), wires;
      }
      return Ok(()), wires;
    case Ctr(lab, p1, p2) =>
      GraftedCtrSteps(net.View(), lab, p1, p2, parent, wires);
      net.nodes := net.nodes + [Agent(lab, Placeholder, Aux(Placeholder), Aux(Placeholder))];
      var nodeId := |net.nodes| - 1;
      r, wires' := AddTree(net, p1, Slot(nodeId, Left), wires);
      if r.Err? {
        return;
      }
      r, wires' := AddTree(net, p2, Slot(nodeId, Right), wires');
      if r.Err? {
        return;
      }
      var res := net.SetPort(parent, Principal(nodeId));
      if res.Err? {
        return Err(res.error), wires';
      }
      r := Ok(());
    case Var(name) =>
      r, wires' := AddVar(net, name, parent, wires);
    case Other =>
      r, wires' := Err(Unsupported), wires;
  }

  /** The steps of `add_tree` at a constructor: push the agent, attach the
      left subtree, then the right one, then write the agent's id into the
      parent slot; the first failure is the result. */
  lemma GraftedCtrSteps(n: Net, lab: Ast.u16, p1: Ast.Tree, p2: Ast.Tree, parent: AuxPort, w: Wires)
    requires InRange(n, parent) && WiresOk(n, w)
    ensures var id := |n.nodes|;
      var n1 := n.(nodes := n.nodes + [Agent(lab, Placeholder, Aux(Placeholder), Aux(Placeholder))]);
      var g := Grafted(n, Ast.Ctr(lab, p1, p2), parent, w);
      && InRange(n1, Slot(id, Left)) && WiresOk(n1, w)
      && var g1 := Grafted(n1, p1, Slot(id, Left), w);
      && (g1.Err? ==> g == Err(g1.error))
      && (g1.Ok? ==> InRange(g1.value.0, Slot(id, Right)))
      && (g1.Ok? ==>
            var g2 := Grafted(g1.value.0, p2, Slot(id, Right), g1.value.1);
            && (g2.Err? ==> g == Err(g2.error))
            && (g2.Ok? ==> InRange(g2.value.0, parent))
            && (g2.Ok? && WriteAux(g2.value.0, parent, Principal(id)).Err? ==>
                  g == Err(WriteAux(g2.value.0, parent, Principal(id)).error))
            && (g2.Ok? && WriteAux(g2.value.0, parent, Principal(id)).Ok? ==>
                  g == Ok((WriteAux(g2.value.0, parent, Principal(id)).value.0, g2.value.1))))
  {
  }

  /** `add_tree` at a variable: record its first end, or wire its second end
      to the first one. */
  method AddVar(net: INet, name: string, parent: AuxPort, wires: Wires) returns (r: Result<()>, wires': Wires)
    requires InRange(net.View(), parent) && WiresOk(net.View(), wires)
    modifies net
    ensures var g := Grafted(old(net.View()), Ast.Var(name), parent, wires);
      && (g.Ok? ==> r == Ok(()) && net.View() == g.value.0 && wires' == g.value.1)
      && (g.Err? ==> r == Err(g.error))
  {
    if name in wires {
      var port1 := wires[name].0;
      if wires[name].1.Free? {
        wires' := wires[name := (port1, parent)];
        var res := net.SetPort(parent, Aux(port1));
        if res.Err? {
          return Err(res.error), wires';
        }
        res := net.SetPort(port1, Aux(parent));
        if res.Err? {
          return Err(res.error), wires';
        }
        r := Ok(());
      } else {
        r, wires' := Err(UsedMoreThanTwice(name)), wires;
      }
    } else {
      r, wires' := Ok(()), wires[name := (parent, Placeholder)];
    }
  }

  /** `to_tree`: render the port as a tree, naming unnamed wires with `gen`.
      The result, the new name table and the generator's counter are what
      `Rendered` describes. */
  method ToTree(port: Port, net: INet, wires: Names, gen: NameGen) returns (r: Result<Ast.Tree>, wires': Names)
    requires WellFormed(net.View()) && PortOk(net.View(), port, -1)
    modifies gen
    ensures var e := Rendered(net.View(), port, wires, old(gen.id));
      && (e.Ok? ==> r == Ok(e.value.0) && wires' == e.value.1 && gen.id == e.value.2)
      && (e.Err? ==> r == Err(e.error))
    decreases Measure(net.View(), port)
  {
    match port
    case Principal(nodeId) =>
      var node := net.NodeAt(nodeId);
      match node {
        case Era(_) =>
          return Ok(Ast.Era), wires;
        case Agent(lab, _, l, rt) =>
          var t1, t2;
          t1, wires' := ToTree(l, net, wires, gen);
          if t1.Err? {
            return Err(t1.error), wires';
          }
          t2, wires' := ToTree(rt, net, wires', gen);
          if t2.Err? {
            return Err(t2.error), wires';
          }
          return Ok(Ast.Ctr(lab, t1.value, t2.value)), wires';
      }
    case Aux(aux1) =>
      if aux1 in wires {
        return Ok(Ast.Var(wires[aux1])), wires;
      }
      var counterpart := net.AuxPortOf(aux1);
      if counterpart.Err? {
        return Err(counterpart.error), wires;
      }
      match counterpart.value
      case Principal(_) =>
        return Err(AuxResolvesToPrincipal), wires;
      case Aux(aux2) =>
        var name := gen.Next();
        wires' := wires[aux1 := name][aux2 := name];
        return Ok(Ast.Var(name)), wires';
  }
}
