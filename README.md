# Interaction nets and their path network

A model of the two components of `sic-path-net`, plus the proofs about them:

- **`INet`** is an interaction net stored as an arena of nodes and a vector of free ports. A node is an eraser or a binary agent (label, principal counterpart, left and right slot). The component builds a net from one parsed tree per line of text (`from_str`, `add_tree`). It renders a net back to trees (`to_string`, `to_tree`), inventing variable names with `NameGen`. It reads and writes ports in place (`port`, `aux_port`, `set_port`, `node`).
- **`PNet<N>`** is the path network of a net over `N` agent labels:
  - one binary trie of branches per label (`AgentPNet`);
  - a global table of paths, each naming one agent path per label.

  `from_inet` walks the net from every free port (`add_paths`) with a vector of `N` branch positions. At an agent it descends in its label's trie (`add_left`, `add_right`). When a wire is reached through its second end, `add_path` finds or creates the agent path between the two ends' positions in every trie and records a new global path. `remove_empty_branches` prunes the tries.

The model has four modules:

- `Ast` (`ast.dfy`): the parsed tree of one line, the stand-in for the external tree library, and the parsed lines of a text.
- `Inet` (`inet.dfy`): `src/inet.rs`.
- `Pnet` (`pnet.dfy`): `src/pnet.rs`.
- `Examples` (`examples.dfy`): the run of `src/main.rs` on `(a b)\n(a b)`, and three more small texts computed on the model: the self-loops of `(a a)\n(b b)`, and the half-wired nets of `(a *)` and `a\na\na`.

`Inet` and `Pnet` each have two layers:

- **Values and functions.** A net, a trie and a path network are datatypes (`Net`, `Trie`, `PState`). Every operation is a function over them, and the lemmas about the operations are stated on these functions.
- **Objects and methods.** The mutable objects are classes: `NameGen`, `INet`, `AgentPNet`, `PNet`. Their fields are updated in place by methods, and each method is proved to leave the object in the state the function describes. The loops of `NameGen::next`, `from_str`, `to_string`, `get_path` and `from_inet` are loops with invariants. The recursions of `add_tree`, `to_tree`, `add_paths` and `remove_empty_branches` are recursive methods over the objects.

Several behaviours are stated as the code has them, not as the names suggest, and each has a lemma:

- A new child branch gets the id `branches.len() - 1` taken before the push. So on a fresh trie the root becomes its own left child, and the trie is no longer acyclic (`Pnet.FirstChildIsRoot`).
- `add_right` tests the left child, so right after `add_left` it returns the left child (`Pnet.RightAfterLeft`).
- A new agent path id is pushed twice onto `b1`'s list and never onto `b2`'s (`Pnet.WithAgentPath`). Distinct branches therefore never share it, and the same pair registered again creates another agent path (`Pnet.WithAgentPathNoDedup`).
- Pruning never reports a branch as alive (`Pnet.Pruned`).
- `NameGen` stops taking digits at 26, not at 25, so the counter values 0 and 26 both give "a" (`Inet.NameCollision`).
- Names restart at every free port. So the text `(a a)\n(b b)` renders as `(a a)\n(a a)`, and that text is rejected when built again (`Examples.NoTextRoundTrip`).
- A variable whose recorded second end is still a free slot is accepted again, and rewires its first end (`Inet.GraftedVar`).
- Only the second occurrence of a name writes its two slots. A name used once leaves its slot at the placeholder, which is free slot 0. A third use through a free slot relinks only one end. So the built net is reciprocal only when every name occurs exactly twice: then each slot holding another slot is held back by it (`Inet.BuiltReciprocal`). The two failures are `Examples.SingleUseNotReciprocal` and `Examples.ThirdUseNotReciprocal`.

Rust panics on an index out of range are preconditions. The external parser's failures are the `Unparsable` line. Every error message of the source is one constructor of `Inet.Error`.

## Model

| member | source | states |
|---|---|---|
| Inet.ReadAux | src/inet.rs:151-167 | reading a slot fails exactly on an eraser's side slot, with the "no aux ports" error |
| Inet.Resolve | src/inet.rs:101-112 | a principal port always resolves to an auxiliary port, an eraser's to its endpoint and an agent's to its recorded principal counterpart; an auxiliary port resolves as `aux_port` |
| Inet.WriteAux | src/inet.rs:113-150 | `set_port` fails exactly where `aux_port` does; otherwise it returns the previous content, the slot then reads the new value, every other slot reads as before, every node keeps its kind, label and principal counterpart, and only the written node or free vector changes |
| Inet.INet.SetPort | src/inet.rs:113-150 | the in-place write leaves the net that `WriteAux` describes and returns the previous content; on an eraser it fails and the net is unchanged |
| Inet.WriteGrows | src/inet.rs:113-150 | a successful write extends the net and keeps the variable table's slots in range |
| Inet.WriteKeepsWellFormed | src/inet.rs:113-150 | writing a followable port, whose node comes after the slot's owner, keeps the net well-formed and the principal counterparts unset |
| Inet.Grafted | src/inet.rs:173-215 | `add_tree` only extends the net (node kinds, labels and counterparts kept) and never fails with a parse error |
| Inet.PushGrows | src/inet.rs:176 | pushing a node extends the net and keeps the variable table's slots in range |
| Inet.GraftedEra | src/inet.rs:175-179 | an eraser appends exactly one node `Era(parent)` and the parent slot then holds its id |
| Inet.GraftedCtr | src/inet.rs:180-193 | a constructor appends an agent with the tree's label at the next id and the parent slot finally holds that id |
| Inet.GraftedCtrSteps | src/inet.rs:180-193 | the constructor case runs push, left subtree, right subtree and parent write in order, and the first failure is the result |
| Inet.GraftedVar | src/inet.rs:194-210 | the first occurrence records its slot; the second makes both ends hold each other; with an agent slot as recorded second end a further one fails with "used more than twice" |
| Inet.GraftedOther | src/inet.rs:211-213 | an unsupported form fails with "Unsupported node" |
| Inet.GraftedNodeCount | src/inet.rs:173-215 | a successful `add_tree` adds exactly one node per eraser and constructor of the tree |
| Inet.GraftedRejectsOther | src/inet.rs:173-215 | a tree containing an unsupported form always fails |
| Inet.PushKeepsWellFormed | src/inet.rs:181-187 | pushing an eraser or a placeholder-filled agent keeps the net well-formed |
| Inet.GraftedWellFormed | src/inet.rs:187-191 | after `add_tree` every principal port in an agent's slot names a later node, and every agent's principal counterpart is still the placeholder |
| Inet.GraftedCtrWellFormed | src/inet.rs:180-193 | the constructor case of the previous row: children are pushed after their parent |
| Inet.AddTree | src/inet.rs:173-215 | the recursive in-place builder leaves exactly the net and variable table `Grafted` describes, or fails with its error |
| Inet.AddVar | src/inet.rs:194-210 | the variable case on the object, as `Grafted` describes it |
| Inet.BuiltFrom | src/inet.rs:79-90 | a successful build has one free slot per non-empty line; a parse error is the message of some rejected line |
| Inet.BuiltFromWellFormed | src/inet.rs:79-90 | the built net is well-formed and its principal counterparts stay the placeholder |
| Inet.BuiltFromRejects | src/inet.rs:82-89 | an unparsable line or a tree with an unsupported form makes the build fail |
| Inet.BuiltProperties | src/inet.rs:79-90 | `from_str`: one free slot per non-empty line, a well-formed net, every parse or "Unsupported node" error propagated, and parse errors only from rejected lines |
| Inet.GraftedKeys | src/inet.rs:194-210 | after `add_tree` the variable table holds exactly the names it held before and the names occurring in the tree |
| Inet.WiredFirstUse | src/inet.rs:206-208 | a first occurrence turns its waiting slot into the recorded end of a name seen once, and writes nothing |
| Inet.WiredSecondUse | src/inet.rs:196-201 | a second occurrence makes its slot and the name's first slot hold each other, and neither waits any more |
| Inet.WiredSetPrincipal | src/inet.rs:175-192 | a waiting slot that receives an eraser's or an agent's principal port is done, and everything else about the build state holds as before |
| Inet.WiredPushAgent | src/inet.rs:181-187 | a pushed agent's two slots wait for their subtrees |
| Inet.WiredPushFree | src/inet.rs:85 | the new free slot of a line waits for the line's tree |
| Inet.GraftedWired | src/inet.rs:173-215 | attaching a tree that takes no name past two occurrences keeps the net reciprocal outside the waiting slots and the ends of names seen once; its parent slot is done, and the names seen once change by the tree's occurrences |
| Inet.GraftedCtrWired | src/inet.rs:180-193 | the constructor case of the previous row |
| Inet.LineWired | src/inet.rs:83-87 | one non-empty line keeps the build reciprocal and the table equal to the names seen so far |
| Inet.BuiltFromWired | src/inet.rs:79-90 | from any line on, a text whose names occur twice builds a reciprocal net |
| Inet.BuiltReciprocal | src/inet.rs:79-90 | `from_str` of a text in which every name occurs exactly twice gives a net in which each slot holding another slot is held back by it |
| Inet.INet.FromStr | src/inet.rs:79-90 | the loop over the lines yields exactly the net `Built` describes, or its error |
| Inet.INet.constructor | src/inet.rs:66-73 | a new net has no nodes and no free ports |
| Inet.Letter | src/inet.rs:52-53 | each digit becomes a letter in 'a'..'z' |
| Inet.Name | src/inet.rs:48-63 | the name for a counter value is non-empty and made of letters 'a'..'z' |
| Inet.NameCollision | src/inet.rs:51 | the counter values 0 and 26 both give "a" |
| Inet.NameGen.constructor | src/inet.rs:43-47 | the counter starts at 0 |
| Inet.NameGen.Next | src/inet.rs:48-63 | the returned name is `Name` of the old counter, and the counter grows by exactly one |
| Inet.Rendered | src/inet.rs:217-247 | `to_tree` never loses a slot already named; every old name stays or is replaced by one the generator handed out meanwhile, every new name is one of those, and no unsupported form is produced |
| Inet.RenderedCases | src/inet.rs:217-247 | an eraser renders as `Era`, an agent as `Ctr` with its label, a named slot as its name; an unnamed slot wired to a principal port is an error, otherwise it gets one fresh name under both ends |
| Inet.ToTree | src/inet.rs:217-247 | the recursive method returns the tree, name table and counter `Rendered` describes |
| Inet.RenderedFrom | src/inet.rs:91-100 | one tree per remaining free port, none with an unsupported form |
| Inet.PrefixedStep | src/inet.rs:94-98 | rendering one more free port moves its tree from the pending rest to the finished lines |
| Inet.INet.ToString | src/inet.rs:91-100 | the loop yields exactly the lines `RenderedAll` describes, with a fresh generator per port and one shared name table |
| Pnet.Initial | src/pnet.rs:39-46 | the initial network has `count` empty tries and no global paths |
| Pnet.Roots | src/pnet.rs:142 | every walk starts at the root of every trie |
| Pnet.PNet.constructor | src/pnet.rs:39-46 | the new network is `Initial(count)`, with distinct fresh trie objects |
| Pnet.AgentPNet.constructor | src/pnet.rs:48-56 | a new trie holds the root branch alone and no agent paths |
| Pnet.LeftChild | src/pnet.rs:188-199 | an existing left child is returned and nothing changes; otherwise one default branch is appended, the parent's left is set to the returned id, and that id is the old branch count minus one |
| Pnet.AgentPNet.AddLeft | src/pnet.rs:188-199 | the in-place update is `LeftChild` |
| Pnet.FirstChildIsRoot | src/pnet.rs:193 | on a fresh trie the first left child is the root itself, so the trie has a cycle |
| Pnet.RightChild | src/pnet.rs:200-211 | an existing LEFT child is returned and nothing changes; otherwise a right child is created with the same id rule |
| Pnet.AgentPNet.AddRight | src/pnet.rs:200-211 | the in-place update is `RightChild` |
| Pnet.RightAfterLeft | src/pnet.rs:200-203 | after `add_left`, `add_right` on the same parent returns the same id and changes nothing |
| Pnet.FirstShared | src/pnet.rs:212-223 | a found id occurs in both lists; nothing is found exactly when the lists share no id |
| Pnet.FirstSharedIsFirst | src/pnet.rs:212-223 | the found id is the first shared one in `b1` order |
| Pnet.AgentPNet.GetPath | src/pnet.rs:212-223 | the nested search loops return `FirstShared` of the two branches' lists |
| Pnet.WithAgentPath | src/pnet.rs:224-241 | a found id is returned and nothing changes; otherwise `AgentPath(b1, b2, [])` is appended, its id is the old count, and it is pushed twice onto `b1`'s list |
| Pnet.AgentPNet.AddPath | src/pnet.rs:224-241 | the in-place update is `WithAgentPath` |
| Pnet.WithAgentPathSameBranchTwice | src/pnet.rs:224-241 | registering a branch with itself a second time returns the same id and changes nothing |
| Pnet.FirstSharedSelf | src/pnet.rs:212-223 | a non-empty list shares its first element with itself |
| Pnet.WithAgentPathNoDedup | src/pnet.rs:235-238 | two distinct branches that share no agent path get a new, different agent path every time |
| Pnet.UsePath | src/pnet.rs:98-102 | recording a global path appends it to one agent path's list and changes nothing else |
| Pnet.AgentPNet.PushUse | src/pnet.rs:98-102 | the in-place update is `UsePath` |
| Pnet.PNet.AddPath | src/pnet.rs:120-125 | one global path is appended and its index, the old length, is returned |
| Pnet.Descend | src/pnet.rs:74-82 | an agent of label L changes only trie L and the global paths not at all; both child vectors differ from the parents only at L, and they are equal |
| Pnet.DescendIn | src/pnet.rs:75-82 | the in-place descent is `Descend` |
| Pnet.Joined | src/pnet.rs:93-101 | in one trie, the agent path of the two positions exists afterwards, lies in the current branch's list, and records the new global path last |
| Pnet.Linked | src/pnet.rs:90-103 | closing a wire appends exactly one global path at the old length, naming one agent path per trie; each of those lies in the current branch's list and records the new path last; branch counts stay |
| Pnet.LinkedIs | src/pnet.rs:90-103 | updating every trie in label order and then recording the path in each gives `Linked` |
| Pnet.AgentPathsFor | src/pnet.rs:91-96 | the per-label loop performs `add_path` in every trie |
| Pnet.RecordPath | src/pnet.rs:98-102 | the per-label loop records the global path in every agent path it names |
| Pnet.ClosePath | src/pnet.rs:90-103 | closing a wire on the objects gives `Linked` |
| Pnet.Traversed | src/pnet.rs:68-117 | a successful walk keeps the tries followable, only grows the network, keeps every pending vector valid and never forgets a pending wire; its only errors are "no aux ports" and "Unexpected principal port" |
| Pnet.TraversedCases | src/pnet.rs:69-115 | an eraser changes nothing; a wire seen before is closed; a first visit stores the same vector under both ends and leaves the network alone, unless the counterpart is principal, which is an error |
| Pnet.TraversedAgent | src/pnet.rs:74-86 | at an agent the walk descends and then walks the left and the right slot, stopping at the first error |
| Pnet.VisitSlot | src/pnet.rs:89-114 | the in-place step at an auxiliary port is the `Aux` case of `Traversed` |
| Pnet.AddPaths | src/pnet.rs:68-117 | the recursive in-place walk leaves exactly the network and pending table `Traversed` describes, or fails with its error |
| Pnet.DescendLinksOk | src/pnet.rs:74-82 | descending keeps the global and per-label path tables consistent |
| Pnet.LinkedLinksOk | src/pnet.rs:90-103 | closing a wire keeps the global and per-label path tables consistent |
| Pnet.TraversedLinksOk | src/pnet.rs:68-117 | every walk keeps the path tables consistent |
| Pnet.TraversedFrom | src/pnet.rs:141-143 | walking the remaining free ports only grows the network; its only errors are the walk's |
| Pnet.TraversedFromStep | src/pnet.rs:141-143 | one free port's walk either ends the whole walk with its error or hands its result to the next port |
| Pnet.TraversedFromEnd | src/pnet.rs:144 | after the last free port the network is the result |
| Pnet.TraversedFromLinksOk | src/pnet.rs:141-143 | walking the free ports keeps the path tables consistent |
| Pnet.PNetOf | src/pnet.rs:138-145 | the result of `from_inet` has `count` followable tries |
| Pnet.PNetOfLinksOk | src/pnet.rs:138-145 | the result of `from_inet` has consistent global and per-label path tables |
| Pnet.PNet.FromInet | src/pnet.rs:138-145 | the loop over the free ports yields a fresh network equal to `PNetOf`, or its error |
| Pnet.ClearedAcyclic | src/pnet.rs:170-177 | clearing child links keeps a trie acyclic |
| Pnet.ClearedTransitive | src/pnet.rs:153-179 | successive clearings are one clearing |
| Pnet.Detached | src/pnet.rs:170-177 | exactly the links of `id` that are not kept become absent, and nothing else changes |
| Pnet.Pruned | src/pnet.rs:153-179 | pruning keeps the branch count and every branch's path list and only clears links; branches with ids below `id` are untouched; `id` ends without children and is never reported alive |
| Pnet.ReachesTransitive | src/pnet.rs:153-179 | a branch below a branch below `a` is below `a` |
| Pnet.ClearedReaches | src/pnet.rs:170-177 | clearing links never makes a branch reachable that was not |
| Pnet.PrunedReach | src/pnet.rs:153-179 | pruning from `id` leaves every branch reachable from `id` without children and every other branch exactly as it was |
| Pnet.RemoveEmptyBranchesAt | src/pnet.rs:153-179 | the recursive in-place pruning is `Pruned` and leaves the agent paths alone |
| Pnet.AgentPNet.RemoveEmptyBranches | src/pnet.rs:249-251 | the trie is pruned from its root |
| Pnet.PrunedAll | src/pnet.rs:146-150 | every trie keeps its branch count, agent paths and branch path lists, stays acyclic and ends with a childless root; the global paths stay |
| Pnet.PrunedAllIs | src/pnet.rs:146-150 | pruning every trie in turn is `PrunedAll` |
| Pnet.PNet.RemoveEmptyBranches | src/pnet.rs:146-150 | the loop over the tries leaves the network `PrunedAll` describes |
| Examples.BuildTwoAgents | src/main.rs:4 | `from_str("(a b)\n(a b)")` is the net of two agents of label 0 whose left slots are wired to each other, and their right slots too |
| Examples.FirstLine | src/main.rs:4 | the first line records both variables and wires the agent to the first free slot |
| Examples.SecondLine | src/main.rs:4 | the second line wires each variable's second end to its first |
| Examples.TwoAgentsWellFormed | src/main.rs:4 | that net is well-formed |
| Examples.RenderTwoAgents | src/main.rs:8 | `to_string` of that net gives `(a b)` twice |
| Examples.FirstDescend | src/main.rs:10 | the first agent makes the root of the single trie its own left child |
| Examples.FirstSlots | src/main.rs:10 | the first agent's slots record the root under both ends of both wires |
| Examples.FirstPort | src/main.rs:10 | the walk from the first free port |
| Examples.SecondDescend | src/main.rs:10 | the second agent finds the root again |
| Examples.FirstWire | src/main.rs:10 | closing the first wire creates agent path 0 and global path 0 |
| Examples.SecondWire | src/main.rs:10 | closing the second wire finds agent path 0 again and creates global path 1 |
| Examples.SecondPort | src/main.rs:10 | the walk from the second free port closes both wires |
| Examples.PathsOfTwoAgents | src/main.rs:10 | `PNet::<1>::from_inet` gives one trie whose root is its own left child, one agent path holding the root twice, and two global paths both naming it |
| Examples.TwoAgentsReciprocal | src/main.rs:4 | each name of `(a b)\n(a b)` occurs twice, so its net is reciprocal |
| Examples.SingleUseNotReciprocal | src/inet.rs:206-208 | `from_str("(a *)")` leaves the agent's left slot holding free slot 0, which holds the agent's principal port, so the net is not reciprocal |
| Examples.ThirdUseNotReciprocal | src/inet.rs:196-201 | `from_str("a\na\na")` lets the third use through; free slot 1 holds free slot 0, which holds free slot 2 |
| Examples.BuildSelfLoops | src/inet.rs:82-86 | `(a a)\n(b b)` builds two agents whose two slots are wired to each other |
| Examples.RenderSelfLoops | src/inet.rs:94-96 | that net renders as `(a a)` twice, since names restart per free port |
| Examples.RebuildSelfLoops | src/inet.rs:196-204 | that output, built again, fails with `UsedMoreThanTwice("a")`, the message `var "a" used more than twice` |
| Examples.NoTextRoundTrip | src/inet.rs:91-100 | building, rendering and building again does not give back the net |

## Left out

- The external tree library (`hvm64_ast::Tree::from_str` and `Tree::to_string`) is not part of this model. A text is given as its sequence of parsed lines (`Ast.Line`). A rendered text is the sequence of its trees, one per line, each followed by a newline in the source.
- Splitting the text at `'\n'` and the test for an empty line come with the parsed lines. An empty line is `Blank`.
- `Debug` output, `String` concatenation and `HashMap` hashing are left out. The tables are Dafny maps.
- `src/main.rs` prints its results. Only the values it computes are modelled, in `Examples`.
- Inet.BuiltFrom: requires every blank line to come after the last non-empty one. The source attaches line `i` to free slot `i` while it pushes one slot per non-empty line, so after an interior blank line the write to the line's free slot is out of range, a panic. Some such lines end before that write and would not panic, but the model still excludes them:
  - an unparsable line, which returns the parse message;
  - a tree containing an unsupported form, which returns "Unsupported node";
  - a third use of a name through an agent slot, which returns "used more than twice";
  - a first variable occurrence, which writes no slot at all.
- Inet.BuiltReciprocal: reciprocity is proved only for texts in which every name occurs exactly twice. A name used once, or a third use let through by a free second end, leaves the net not reciprocal (`Examples.SingleUseNotReciprocal`, `Examples.ThirdUseNotReciprocal`).
- Nets built by hand outside `WellFormed` are excluded. `INet`'s fields are public, so a caller could store a principal port in an agent slot that names an earlier node. Rendering (`Inet.Rendered`, `Inet.RenderedFrom`) and the walk (`Pnet.Traversed`, `Pnet.PNetOf`) require that every such port names a later node, which is what makes their recursions terminate. Nets are created only by `from_str`, and `Inet.BuiltProperties` proves every net it returns is `WellFormed`.
- Pnet.LabelsBelow: every agent label must be below the number of tries, because `parents[label]` panics otherwise.
- Pnet.Pruned: requires every child id to exceed its parent's id. Without that the source recursion need not terminate. The source's own `add_left` breaks it on the first call (`Pnet.FirstChildIsRoot`), so pruning the result of `from_inet` is outside the model.
- On an error the source stops and discards the partly built net or network. The methods promise only the error value, not the partial state.
- Pnet.AddPaths: the source converts each label index with `i as u16`, which wraps for more than 65536 labels. The model treats indices as unbounded.
- A full text round trip is not a property of the code (`Examples.NoTextRoundTrip`). The model proves its parts instead: `Inet.BuiltProperties` and `Inet.RenderedCases`.
- `INet::new` and `INet::default` are the constructor. The accessors `branch`, `branch_mut`, `path`, `path_mut`, `agent` and `agent_mut` are sequence indexing.
- Inet.INet.PortOf, Inet.INet.AuxPortOf and Inet.INet.NodeAt only delegate to `Resolve`, `ReadAux` and the node sequence. Their contracts are those of the functions they call.
