/** The tree syntax of one line of net text. Parsing and printing belong to an
    external library; the net builder only sees the parsed value. */
module Ast {

  /** Agent labels are 16-bit unsigned integers. */
  newtype u16 = x: int | 0 <= x < 0x1_0000

  /** A parsed tree. `Other` stands for every form the library can produce that
      the net builder does not accept (an active pair, a reference, ...). */
  datatype Tree =
    | Era
    | Ctr(lab: u16, p1: Tree, p2: Tree)
    | Var(name: string)
    | Other

  /** One line of the input text after the external parser saw it: the empty
      line, a tree, or the parser's error message. */
  datatype Line = Blank | Parsed(tree: Tree) | Unparsable(message: string)

  /** Does an unsupported form occur anywhere in the tree? */
  predicate HasOther(t: Tree) {
    match t
    case Other => true
    case Ctr(_, p1, p2) => HasOther(p1) || HasOther(p2)
    case _ => false
  }

  /** The number of graph nodes the tree describes: one per eraser and per
      constructor. */
  function NodeCount(t: Tree): nat {
    match t
    case Era => 1
    case Ctr(_, p1, p2) => 1 + NodeCount(p1) + NodeCount(p2)
    case _ => 0
  }

  /** The number of lines that are not empty. */
  function NonBlank(lines: seq<Line>): nat {
    if lines == [] then 0
    else NonBlank(lines[..|lines| - 1]) + (if lines[|lines| - 1].Blank? then 0 else 1)
  }

  /** The empty lines all come after the last non-empty one, as for text that
      ends in a newline. */
  predicate BlanksTrailing(lines: seq<Line>) {
    forall i, j | 0 <= i < j < |lines| :: lines[i].Blank? ==> lines[j].Blank?
  }

  lemma {:induction false} NonBlankPrefix(lines: seq<Line>, i: nat)
    requires i < |lines|
    ensures NonBlank(lines[..i + 1]) == NonBlank(lines[..i]) + (if lines[i].Blank? then 0 else 1)
  {
    assert lines[..i + 1][..i] == lines[..i];
  }

  /** Before a non-empty line every line is non-empty, so the number of slots
      allocated so far equals the line's index. */
  lemma {:induction false} NonBlankBeforeNonBlank(lines: seq<Line>, i: nat)
    requires BlanksTrailing(lines) && i < |lines| && !lines[i].Blank?
    ensures NonBlank(lines[..i]) == i
  {
    if i > 0 {
      NonBlankBeforeNonBlank(lines, i - 1);
      NonBlankPrefix(lines, i - 1);
    }
  }

  /** How often the variable `v` occurs in the tree. */
  function Occ(t: Tree, v: string): nat {
    match t
    case Var(x) => if x == v then 1 else 0
    case Ctr(_, p1, p2) => Occ(p1, v) + Occ(p2, v)
    case _ => 0
  }

  /** How often the variable `v` occurs in the lines. */
  function OccIn(lines: seq<Line>, v: string): nat {
    if lines == [] then 0
    else OccIn(lines[..|lines| - 1], v) + (if lines[|lines| - 1].Parsed? then Occ(lines[|lines| - 1].tree, v) else 0)
  }

  /** Every variable of the text occurs exactly twice. */
  ghost predicate Paired(lines: seq<Line>) {
    forall v :: OccIn(lines, v) == 0 || OccIn(lines, v) == 2
  }

  lemma {:induction false} OccInPrefix(lines: seq<Line>, i: nat, v: string)
    requires i < |lines|
    ensures OccIn(lines[..i + 1], v) == OccIn(lines[..i], v) + (if lines[i].Parsed? then Occ(lines[i].tree, v) else 0)
  {
    assert lines[..i + 1][..i] == lines[..i];
  }

  /** A prefix holds no more occurrences than the whole text. */
  lemma {:induction false} OccInBelow(lines: seq<Line>, i: nat, v: string)
    requires i <= |lines|
    ensures OccIn(lines[..i], v) <= OccIn(lines, v)
    decreases |lines| - i
  {
    if i == |lines| {
      assert lines[..i] == lines;
    } else {
      OccInPrefix(lines, i, v);
      OccInBelow(lines, i + 1, v);
    }
  }
}
