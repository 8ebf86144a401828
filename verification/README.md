# The optimizer middle of the SysYF compiler, verified

This project models the part of the compiler that turns statements into a
control-flow graph of basic blocks, computes dominators and post-dominators
on it, and promotes scalar locals to static single assignment form, and it
proves what each of these steps is for. `dafny verify dfyconfig.toml` checks
it.

The three parts feed each other, and the proofs follow that:

- **Lowering** (`Statements`, `Conditions`, `BlockBuilder`,
  `BuilderInvariants`, `Lowering*`, `LoweredFunction`, `LocalsInEntry`,
  `IRBuilder`). `if`,
  `while`, `break`, `continue`, `return`, blocks, declarations and
  short-circuit conditions become basic blocks. The class `IRBuilder` has the
  builder's fields and changes them as the visitor does; each visit is proved
  to change the whole state as a function of `BlockBuilder` says, and the
  theorems are about those functions. Expressions are opaque: each is an atom
  appended to a trace, and what a condition decides may depend on the whole
  trace, so any expression with any effect is an instance. The main result is
  `LoweringKeepsMeaning`: blocks and source compute the same atoms in the same
  order, and one ends if and only if the other does.
- **Dominators** (`FlowGraph`, `DominatorTheory`, `DominatorSolver`,
  `DominateTree`, `RDominateTree`). One solver class holds `doms`, `bb2int`
  and `reversePostOrder`; the reverse pass uses it on the graph turned round.
  The theory keeps two invariants of the partly built tree: a falling path
  from each parent to its child, and every true dominator of a block on its
  chain. At the fixpoint the chain is exactly the set of dominators. The sweep
  order gives termination on every graph.
- **Promotion** (`Ir` to `Mem2Reg`, `PhiOperands`, `PhiPresence`,
  `Promotion`). `Ir.Function` is the object
  the passes edit: instruction lists, operand vectors and use lists.
  `Semantics` runs a function block by block, with parallel phis, opaque
  effects answered by an oracle over all effects so far, and scalar locals in a
  memory of their own. The class `Mem2Reg` has the loops, work lists, stacks
  and recursion of the source; its `Execute` is proved to preserve the block
  path, the effects with their arguments and the value returned, for all
  inputs, to leave use lists that name exactly the slots that hold a value, and
  to give a local one phi, in just the blocks where the function before the pass
  calls for one, with one operand for each edge that brings a value.
  Renaming walks the flow graph, not the dominator tree; that this gives the
  same names is `UniqueReachingDefinition` and `NameIsNearest`.
- **Source to promoted form** (`DefiniteAssignment`, `BlocksFit`,
  `LoweredCode`, `LoweredCodeRuns`, `Compilation`). Each expression stands for a
  list of instructions: loads and stores of locals, of globals and of elements of
  arrays, addresses of elements, and effects. Given any such lists and any
  numbering of the instructions, the lowered blocks are a function the promotion
  takes, if the source assigns each local before it loads it, gives conditions
  and returned expressions a value, and declares what it names before it names
  it. The three conditions are read off the statements. What arguments, the value
  returned and the default zero do to a call is stated on its own, not by the
  instructions made for them. Then one theorem spans all of it:
  `CompileFunction` leaves a function that returns, with the same value and the
  same effects, exactly when its source does.
- **Naming** (`Naming`) numbers arguments, blocks and instructions.

Sets and maps the source keys by pointers are iterated in an order the model
leaves open, so every result holds for any order.

What the passes ask of a function is a `requires`: flow graph with mirrored
edges, every block reachable, nothing branching to the entry (`CfgReady`; the
lowering is proved to deliver it, `LoweredIsReady`); loads and stores that go to
globals, to elements of arrays and to scalar locals only (`LocalsAreScalars`); a
store before each load of a local on every path (`StoreBeforeLoad`); no phis
before the pass. `LoweredIsPromotable` derives all of it from the source. Where a
demand of the walk over frontiers is not met, it is shown exactly when the result
is still right: `FrontierExactIff`. Lowered conditions evaluate as the language
says exactly for the shapes of `ShapeIsExact`, which cover all the grammar builds.

## Model

| member | source | states |
|---|---|---|
| `DominatorSolvers.DominatorSolver.GetPostOrder` | src/Optimize/DominateTree.cpp:20-31 | the search visits only reachable blocks, leaves no successor of a new block unvisited, numbers the new blocks after all earlier ones with its own block last, and gives every other new block a predecessor with a higher number |
| `DominatorSolvers.DominatorSolver.GetReversePostOrder` | src/Optimize/DominateTree.cpp:33-41 | all reachable blocks and no others are numbered, each other than the entry has a predecessor with a higher number, and the entry has the highest |
| `DominatorSolvers.DominatorSolver.Intersect` | src/Optimize/DominateTree.cpp:101-113 | on every partly built tree the walk ends at the nearest common ancestor: what is on its chain is what is on both chains; its number is no smaller than either argument's |
| `DominatorSolvers.DominatorSolver.NewIdom` | src/Optimize/DominateTree.cpp:62-74 | the chain of the new parent is the intersection of the chains of all predecessors that have a parent |
| `DominatorSolvers.DominatorSolver.StartTable` | src/Optimize/DominateTree.cpp:44-53 | before the first sweep only the entry has a parent, itself; it is numbered highest, and the invariants of the sweep hold |
| `DominatorSolvers.DominatorSolver.Visit` | src/Optimize/DominateTree.cpp:58-79 | a visit keeps the invariants of the sweep; if it changes something the potential of the table falls, if not the block agrees with its predecessors |
| `DominatorSolvers.DominatorSolver.Sweep` | src/Optimize/DominateTree.cpp:57-79 | a sweep that changes nothing leaves a fixpoint; one that changes something lowers the potential |
| `DominatorSolvers.DominatorSolver.Solve` | src/Optimize/DominateTree.cpp:44-80 | the loop ends on every graph, reducible or not, and then the chain of each reachable block is exactly the set of its dominators |
| `DominatorSolvers.SweepStep` | src/Optimize/DominateTree.cpp:58-79 | visiting the next block keeps all invariants, and unless the table is unchanged that block moved to a proper ancestor, closer to the root |
| `DominatorSolvers.SomePredParented` | src/Optimize/DominateTree.cpp:62-69 | in reverse post-order there always is a predecessor that has a parent, so the new parent is never null |
| `DominatorTheory.SoundSet` | src/Optimize/DominateTree.cpp:70-78 | re-parenting a block to the meet of its predecessors keeps the falling path from parent to child and every dominator on its chain |
| `DominatorTheory.MoveUp` | src/Optimize/DominateTree.cpp:75-78 | after its first parent a block only ever moves up its own chain |
| `DominatorTheory.LaterParent` | src/Optimize/DominateTree.cpp:70-78 | a later visit keeps soundness, and lower blocks stay fresh: what left a chain lies above the block visited |
| `DominatorTheory.FixpointIsExact` | src/Optimize/DominateTree.cpp:55-80 | a sound table that no visit changes is exact: on the chain if and only if a dominator |
| `DominatorTheory.RunnersFindFrontier` | src/Optimize/DominateTree.cpp:86-99 | a runner of a block other than the entry passes exactly the blocks in whose dominance frontier the block is, fewer than two predecessors included |
| `DominatorTheory.FrontiersFoundIff` | src/Optimize/DominateTree.cpp:86-99 | over all blocks, the runners pass exactly the frontiers if and only if no edge leads to the entry |
| `DominateTrees.ExactHoldsIdoms` | src/Optimize/DominateTree.cpp:82-84 | the parent in an exact table is the immediate dominator of every reachable block but the entry |
| `FlowGraphs.ImmediateDominatorUnique` | src/Optimize/DominateTree.cpp:82-84 | a reachable block has one immediate dominator at most, so the pass has no choice |
| `DominateTrees.FrontierExactIff` | src/Optimize/DominateTree.cpp:86-99 | the runners find every frontier if and only if no edge leads to the entry |
| `DominateTrees.DominateTree.GetBbIdom` | src/Optimize/DominateTree.cpp:44-84 | every reachable block gets its immediate dominator; others keep what they had |
| `DominateTrees.DominateTree.GetBbDomFront` | src/Optimize/DominateTree.cpp:86-99 | ends, and adds to each frontier exactly the blocks the runners find, keeping what was there |
| `DominateTrees.DominateTree.Execute` | src/Optimize/DominateTree.cpp:10-18 | both together, for one function |
| `RDominateTrees.ReverseDominates` | src/Optimize/RDominateTree.cpp:55-93 | dominance in the graph turned round is post-dominance |
| `RDominateTrees.ReverseReady` | src/Optimize/RDominateTree.cpp:34-53 | if every block reaches the exit, the graph turned round is what the solver asks for |
| `RDominateTrees.RDominateTree.FindExit` | src/Optimize/RDominateTree.cpp:38-44 | the first block in list order that returns; if there is none, an earlier answer stays and the caller is told |
| `RDominateTrees.RDominateTree.RdomsOf` | src/Optimize/RDominateTree.cpp:96-105 | the walk up from a block collects exactly its post-dominators, itself included and the exit excluded |
| `RDominateTrees.RDominateTree.GetBbRdoms` | src/Optimize/RDominateTree.cpp:95-106 | every block gets exactly that set, the exit the empty one |
| `RDominateTrees.RDominateTree.Execute` | src/Optimize/RDominateTree.cpp:6-19 | if some block returns, post-dominators and post-dominance frontiers are exact; if none does, the program ends exactly when no exit block was seen before, and otherwise the block of an earlier function is left in the field |
| `Ir.Function.SetOperand` | src/SysYFIR/User.cpp:26-34 | the slot changes, the new value's list gets the entry, the old value's list is left as it was |
| `Ir.Function.AddOperand` | src/SysYFIR/User.cpp:36-41 | the operand goes to the end, and use lists stay exact |
| `Ir.Function.AddPhiPair` | include/SysYFIR/Instruction.h:421-425 | value and block go to the end of the phi, and use lists stay exact |
| `Ir.Function.ReplaceAllUseWith` | src/SysYFIR/Value.cpp:28-37 | exactly the live slots that held the value hold the new one; all lists but the value's own stay exact, and no slot holds it any more |
| `Ir.Function.RemoveUse` | src/SysYFIR/Value.cpp:39-43 | all entries of that user go from that list, and no others |
| `Ir.Function.DeleteInstr` | src/SysYFIR/BasicBlock.cpp:55-59 | the instruction is out of its list and out of the use lists of its operands; use lists stay exact |
| `Ir.Function.AddPhi` | src/SysYFIR/BasicBlock.cpp:45-48 | a new instruction without operands stands at the front of the block; use lists stay exact |
| `Ir.DefUseReplaced` | src/SysYFIR/Value.cpp:28-37 | rewriting every slot listed for a value keeps all lists exact but that value's, which goes stale |
| `Ir.DefUseDeleted` | src/SysYFIR/User.cpp:48-53 | dropping a deleted user from its operands' lists restores exactness for what is left |
| `Mem2RegPass.LocalOp` | include/Optimize/Mem2Reg.h:37-54 | where loads and stores go to globals, elements and scalar locals, the test picks out exactly those of scalar locals, by what memory they touch |
| `Semantics.LocalOpCases` | include/Optimize/Mem2Reg.h:37-54 | in any function, whatever its addresses are, the test is true of a load or a store just when its address is neither a global nor the result of a `getelementptr`, and false of everything else |
| `Mem2RegPass.Mem2Reg.ScanBlock` | src/Optimize/Mem2Reg.cpp:29-59 | the loads to replace and the stores to delete are those of the scan function, in one pass over the block |
| `ForwardingRuns.LoadReplacedBy` | src/Optimize/Mem2Reg.cpp:53-58 | a load with an earlier store to its local in the block is replaced, and by the value stored last |
| `ForwardingApply.ForwardTable` | src/Optimize/Mem2Reg.cpp:32-37 | no forwarded value is itself a forwarded load, and each is an instruction that stays |
| `Forwarding.ForwardedAreReady` | src/Optimize/Mem2Reg.cpp:53-58 | what replaces a load is defined wherever the load could be used |
| `Mem2RegPass.Mem2Reg.ApplyForwards` | src/Optimize/Mem2Reg.cpp:61-69 | in any order of the table, all slots that held a replaced load hold its value and the loads are gone |
| `Mem2RegPass.Mem2Reg.ApplyDeletes` | src/Optimize/Mem2Reg.cpp:70-72 | in any order, exactly the overwritten stores go, and nothing else moves |
| `ForwardingRuns.InsideEnds` | src/Optimize/Mem2Reg.cpp:38-45 | the last store to each local stays, so both runs leave the block with the same memory |
| `ForwardingRuns.ForwardingSameBehaviour` | src/Optimize/Mem2Reg.cpp:23-74 | forwarding in a block changes neither path, effects nor result, for all inputs |
| `ForwardingResult.ScanCatches` | src/Optimize/Mem2Reg.cpp:38-58 | a store with a later store to the same local is deleted, a load after a store is replaced |
| `ForwardingResult.ForwardedBlock` | src/Optimize/Mem2Reg.cpp:23-74 | afterwards each local has at most one store in the block and no load after it; the other blocks keep what they had, and the function can still be promoted |
| `PhiPresence.ForwardedSameExposed` | src/Optimize/Mem2Reg.cpp:23-74 | forwarding in a block removes no load that is not answered by a store of its block, and uncovers none |
| `Mem2RegPass.Mem2Reg.InsideBlockForwarding` | src/Optimize/Mem2Reg.cpp:23-74 | the same for the whole function: every block clean, behaviour unchanged, use lists exact |
| `Mem2RegPass.Mem2Reg.CollectVars` | src/Optimize/Mem2Reg.cpp:77-96 | the loaded locals, and for each of them all blocks that store to it |
| `PhiPlacement.LoadedIsStored` | src/Optimize/Mem2Reg.cpp:101 | a loaded local has a store somewhere, so the look-up finds something |
| `PhiPlacement.IteratedFrontierUnique` | src/Optimize/Mem2Reg.cpp:100-128 | the least set closed under the frontier of the definitions and of itself is one set |
| `PhiPresence.ChainsAreFrontier` | src/Optimize/Mem2Reg.cpp:100-128 | that set is what chains of frontiers starting at a store lead to |
| `Mem2RegPass.Mem2Reg.PlaceFrontier` | src/Optimize/Mem2Reg.cpp:106-126 | a round of the work list adds what the frontier of its block forces in and nothing more; a block joins the queue only with its phi |
| `Mem2RegPass.Mem2Reg.PlacePhis` | src/Optimize/Mem2Reg.cpp:100-128 | the work list ends, and the blocks with a phi are the iterated dominance frontier of the stores |
| `Mem2RegPass.Mem2Reg.GenPhi` | src/Optimize/Mem2Reg.cpp:76-129 | so for every loaded local, none for others; one phi for a block and local, all ahead of the block's instructions, which stay as they were |
| `PhiResult.HasPhiIff` | src/Optimize/Mem2Reg.cpp:105-126 | a block has a phi for a local exactly when the pass noted one |
| `PhiResult.PlacedInBlocks` | src/Optimize/Mem2Reg.cpp:106-124 | no phi goes to the entry |
| `PhiResult.InsertedIsReady` | src/Optimize/Mem2Reg.cpp:76-129 | inserting the phis changes no behaviour and gives the renaming all it relies on |
| `PhiPresence.InsertedAsNeeded` | src/Optimize/Mem2Reg.cpp:76-129 | with every block forwarded before, a block gets a phi for a local, and one only, just when it is on the iterated frontier of the stores of the function as it was and some load there is not answered by a store of its own block |
| `Mem2RegPass.Mem2Reg.ValueDefineCounting` | src/Optimize/Mem2Reg.cpp:131-147 | for each block the locals it gives a value, in order, once for each phi and store |
| `ReachingDefinitions.NoDefBetween` | src/Optimize/Mem2Reg.cpp:105-127 | no block between a predecessor and the immediate dominator of a block without a phi for a local defines that local |
| `ReachingDefinitions.LastDefIsNearest` | src/Optimize/Mem2Reg.cpp:152-214 | on every path the last definition is the nearest dominator that defines the local |
| `ReachingDefinitions.UniqueReachingDefinition` | src/Optimize/Mem2Reg.cpp:152-214 | all paths to a block without a phi for a loaded local bring the same last definition |
| `Renaming.EdgeKeepsValue` | src/Optimize/Mem2Reg.cpp:211-214 | the stack top with which the search enters a block without a phi is the one at the end of each of its predecessors |
| `Renaming.CurIsReady` | src/Optimize/Mem2Reg.cpp:167-186 | what is on top of a stack at an instruction is defined there |
| `Renaming.RenamingReady` | src/Optimize/Mem2Reg.cpp:170-174 | what replaces a load is defined where the load stands |
| `RenamingRuns.PhiGetsOut` | src/Optimize/Mem2Reg.cpp:188-209 | over an edge a phi takes the value its local has at the end of the edge's source |
| `RenamingRuns.RenamingSameBehaviour` | src/Optimize/Mem2Reg.cpp:152-228 | the renamed function, its phis in parallel, takes the same path with the same effects and result as the one with loads and stores |
| `RenamingResult.NameIsNearest` | src/Optimize/Mem2Reg.cpp:152-214 | the stack top at the end of a block is what the nearest dominator that defines the local gave it |
| `PhiOperands.NamedIffFed` | src/Optimize/Mem2Reg.cpp:188-206 | at the end of a block a local has a value on its stack if and only if some path from the entry to there stores to it |
| `RenamingResult.AllVisited` | src/Optimize/Mem2Reg.cpp:211-214 | the walk from the entry visits every block |
| `RenamingResult.WalkEnds` | src/Optimize/Mem2Reg.cpp:152-228 | after the walk all blocks are renamed, the stacks are as before it, and replaced loads are gone |
| `PhiOperands.RenamedFed` | src/Optimize/Mem2Reg.cpp:188-209 | after the walk each phi has exactly one pair for each edge to which a store of its local leads, the same value on all edges from one block, and no other pair |
| `Mem2RegPass.Mem2Reg.PushPhis` | src/Optimize/Mem2Reg.cpp:155-165 | all phis at the front of the block and no other instruction are pushed, each on the stack of its local |
| `Mem2RegPass.Mem2Reg.ReplaceLoad` | src/Optimize/Mem2Reg.cpp:170-174 | every use of the load becomes the value on top of its local's stack |
| `Mem2RegPass.Mem2Reg.PushStore` | src/Optimize/Mem2Reg.cpp:175-184 | the stored value, loads in it already replaced, goes on the stack |
| `Mem2RegPass.Mem2Reg.SendAllPairs` | src/Optimize/Mem2Reg.cpp:188-209 | each phi of a successor gets one pair for each edge from this block if its local has a value, none otherwise |
| `Mem2RegPass.Mem2Reg.PopDefs` | src/Optimize/Mem2Reg.cpp:217-222 | as many values are popped as the block pushed: the stacks are as on entry |
| `Mem2RegPass.Mem2Reg.ValueForwarding` | src/Optimize/Mem2Reg.cpp:152-228 | the recursion ends, visits each block once, and returns with the stacks of the call |
| `Mem2RegPass.Mem2Reg.RenameLocals` | src/Optimize/Mem2Reg.cpp:18 | from the entry: all blocks visited, all stacks empty, the function renamed |
| `Mem2RegPass.Mem2Reg.RemoveAlloc` | src/Optimize/Mem2Reg.cpp:230-243 | exactly the `alloca`s of scalars go from each block, and use lists stay exact |
| `AllocaRemoval.RemovalSameBehaviour` | src/Optimize/Mem2Reg.cpp:230-243 | that changes no behaviour |
| `AllocaRemoval.RemovalPromotes` | src/Optimize/Mem2Reg.cpp:230-243 | the result is well formed, without loads, stores or `alloca`s of locals, phi operands are defined on their edges, and no slot refers to a deleted instruction |
| `Mem2RegPass.Mem2Reg.Execute` | src/Optimize/Mem2Reg.cpp:8-21 | the pass on one function preserves path, effects and result for all inputs and leaves it promoted; in terms of the function as it was, a local has a phi in a block, one only, just when some load of it is not answered by a store of its own block and the block is on the iterated frontier of its stores, and each phi has one pair for each edge to which a store leads and no others; the use list of whatever a slot holds names exactly the slots that hold it, once |
| `Promotion.FrontiersAreTable` | src/Optimize/DominateTree.cpp:86-99 | started from empty sets, the dominator pass leaves the frontiers the promotion needs |
| `Promotion.PromoteFunction` | src/Optimize/Mem2Reg.cpp:8-21 | dominator pass and promotion in turn: what the one leaves is what the other asks for, and the result keeps all of the above |
| `BuilderInvariants.BrSane` | src/SysYFIR/Instruction.cpp:354-360 | a branch from an open block keeps edges mirrored, as many on one side as on the other, one terminator at the end of each block and the edges it calls for, every block reached unless pending, and every block on the way to an open one |
| `BuilderInvariants.CondBrSane` | src/SysYFIR/Instruction.cpp:343-352 | the same for a conditional branch |
| `BuilderInvariants.EraseSane` | src/SysYFIR/Function.cpp:51-62 | erasing a block without edges keeps the same for the rest |
| `LoweringShape.LowerCondDone` | src/SysYFIRBuilder/IRBuilder.cpp:583-625 | lowering any condition keeps the graph in shape, writes into no old block but the one it starts in, branches to no old block but its two targets, and leaves the stacks as they were |
| `LoweringRuns.LowerCondRuns` | src/SysYFIRBuilder/IRBuilder.cpp:583-625 | for a condition of any shape, running its blocks computes the operands the block evaluation of `Conditions` names, in the same order, and ends with the last operand deciding or at the target that evaluation leaves for |
| `LoweringRuns.AnyTestRuns` | src/SysYFIRBuilder/IRBuilder.cpp:862-884 | with the branch at its end, the run of any condition comes to the target that evaluation gives |
| `Conditions.ShapeIsExact` | src/SysYFIRBuilder/IRBuilder.cpp:583-625 | the block evaluation is short-circuit evaluation, whatever the operands decide, if and only if no disjunction stands on the left of a conjunction |
| `LoweringRuns.LowerTestRuns` | src/SysYFIRBuilder/IRBuilder.cpp:862-884 | with the branch at its end, the run comes to the true target if the condition evaluates to true, otherwise to the false target |
| `LoweringStmts.HoistIs` | src/SysYFIRBuilder/IRBuilder.cpp:347-358 | when the insertion block is the top of the list, the `alloca` made there and popped again ends in the entry before its terminator, and nothing else changes |
| `LoweringStmts.LowerStmtDone` | src/SysYFIRBuilder/IRBuilder.cpp:851-973 | lowering any well-nested statement keeps the graph in shape, fills no reserved block, leaves old blocks but for added `alloca`s, and keeps the insertion block on top of the list |
| `LoweringStmts.LowerListDone` | src/SysYFIRBuilder/IRBuilder.cpp:549-564 | the same for the statements of a block |
| `LoweringControl.LoopRuns` | src/SysYFIRBuilder/IRBuilder.cpp:927-973 | from the test of a loop the blocks follow the loop's rounds to where its outcome leads, `break` to the block behind and `continue` to the test, and run on for as long as the loop does |
| `LoweringControl.LowerStmtRuns` | src/SysYFIRBuilder/IRBuilder.cpp:851-981 | the run of a statement's blocks computes what the statement does and goes where its outcome leads |
| `LoweringControl.LowerListRuns` | src/SysYFIRBuilder/IRBuilder.cpp:549-564 | the same for a block; statements dropped behind a terminator were never run |
| `LoweredFunction.LoweredIsComplete` | src/SysYFIRBuilder/IRBuilder.cpp:108-205 | after every well-nested function each block ends in its one terminator, edges mirror each other, one for one, and the terminators, blocks are listed in the order of their creation with the entry first, nothing leads to the entry, every block is reached from the entry and reaches the one block that returns |
| `LoweredFunction.LoweredIsReady` | src/SysYFIRBuilder/IRBuilder.cpp:108-205 | which is what both dominator passes and the promotion ask of a graph |
| `LoweredFunction.LoweringKeepsMeaning` | src/SysYFIRBuilder/IRBuilder.cpp:108-205 | for every well-nested function and every way its computations decide, source and blocks compute the same in the same order, and one ends if and only if the other does; the blocks never get stuck |
| `LocalsInEntry.LocalsHoisted` | src/SysYFIRBuilder/IRBuilder.cpp:347-369 | a statement puts exactly the locals it declares, in order, into the entry and none anywhere else; it ends its block exactly when its form says so |
| `LocalsInEntry.LocalsAreInEntry` | src/SysYFIRBuilder/IRBuilder.cpp:347-369 | after the function the entry has the value returned, the parameters and every local declared in what is not dropped, in order, and no other block has an `alloca` of a scalar local |
| `DefiniteAssignment.StmtFlow` | src/SysYFIRBuilder/IRBuilder.cpp:851-981 | if a statement assigns before it loads, its blocks have a table of assigned locals that holds along every edge, `break`, `continue` and `return` included, and ends with what the statement assigns |
| `DefiniteAssignment.LoweredFlow` | src/SysYFIRBuilder/IRBuilder.cpp:108-205 | the blocks of a function that assigns before it loads have such a table, with nothing assigned at the entry |
| `DefiniteAssignment.AssignedOnPaths` | src/Optimize/Mem2Reg.cpp:170-174 | so on every path from the entry a load comes after a store to its local |
| `BlocksFit.LoweredFits` | src/SysYFIRBuilder/IRBuilder.cpp:851-956 | each branch, store of the value returned and return finds a result computed earlier in its own block; the locals an atom names have their `alloca` in the entry, there before the atom |
| `LoweredCode.CodeWellFormed` | src/SysYFIRBuilder/IRBuilder.cpp:108-205 | with instructions for the atoms, each in one place, terminators last along their edges, addresses of locals their `alloca`s, and every result defined before it is used |
| `LoweredCode.AllocasComeFirst` | src/SysYFIRBuilder/IRBuilder.cpp:347-369 | whatever is loaded from or stored to, but for globals and elements of arrays, is an `alloca` of the entry that stands before the access |
| `LoweredCode.LoweredIsPromotable` | src/Optimize/Mem2Reg.cpp:8-21 | whatever instructions the expressions become, accesses to globals and arrays among them, the lowered function of a source that keeps the rules is one the promotion takes |
| `LoweredCodeRuns.MicrosDoAtom` | src/SysYFIRBuilder/IRBuilder.cpp:155-205 | the instructions made for them store argument `i` in the local of parameter `i`, store the last result or zero as the value returned, and load it, and do nothing else |
| `LoweredCodeRuns.RunsAsAtoms` | src/SysYFIRBuilder/IRBuilder.cpp:108-205 | from any block on, the instructions run block by block as the atoms do: same effects, same locals, same branches |
| `LoweredCodeRuns.InstructionsKeepMeaning` | src/SysYFIRBuilder/IRBuilder.cpp:108-205 | source and instructions return the same value after the same effects, one exactly when the other does, for all inputs; the instructions never get stuck |
| `Compilation.SameAsSource` | src/main.cpp:99-100 | a function that behaves like the lowered one returns what the source returns, when it does, and never gets stuck |
| `Compilation.CompileFunction` | src/main.cpp:99-100 | dominators, frontiers and promotion of a lowered function leave one that means what its source means, promoted, its phis complete |
| `IRBuilders.IRBuilder.CreateBr` | src/SysYFIR/Instruction.cpp:354-360 | edge on both sides, then the instruction, and nothing else |
| `IRBuilders.IRBuilder.CreateCondBr` | src/SysYFIR/Instruction.cpp:343-352 | both edges on both sides, the false one first, then the instruction |
| `IRBuilders.IRBuilder.EraseFromParent` | src/SysYFIR/Function.cpp:51-62 | the block goes from the list of blocks and from every neighbour's lists |
| `IRBuilders.IRBuilder.VisitCond` | src/SysYFIRBuilder/IRBuilder.cpp:583-625 | the visit changes the state as the function of the condition says |
| `IRBuilders.IRBuilder.VisitVarDef` | src/SysYFIRBuilder/IRBuilder.cpp:347-369 | the same for a declaration |
| `IRBuilders.IRBuilder.VisitReturnStmt` | src/SysYFIRBuilder/IRBuilder.cpp:534-547 | the same for `return` |
| `IRBuilders.IRBuilder.VisitBlockStmt` | src/SysYFIRBuilder/IRBuilder.cpp:549-564 | the loop stops at the first statement that ends the block |
| `IRBuilders.IRBuilder.VisitIf` | src/SysYFIRBuilder/IRBuilder.cpp:851-925 | the visit of an `if` without `else` changes the state as the function of the statement says |
| `IRBuilders.IRBuilder.VisitIfElse` | src/SysYFIRBuilder/IRBuilder.cpp:851-925 | the same with `else` |
| `IRBuilders.IRBuilder.VisitWhile` | src/SysYFIRBuilder/IRBuilder.cpp:927-973 | the same for `while` |
| `IRBuilders.IRBuilder.VisitFuncDef` | src/SysYFIRBuilder/IRBuilder.cpp:108-205 | the finished function is complete, its locals are in the entry, and the stacks end empty for the next one |
| `Naming.ToStringIsDecimal` | src/SysYFIR/Function.cpp:85-86 | the digits of a number stand for it in decimal, without a leading zero |
| `Naming.NameSaysNumber` | src/SysYFIR/Function.cpp:85-86 | equal generated names mean equal numbers and the same kind of value, decimal digits and all |
| `Naming.NamesDiffer` | src/SysYFIR/Function.cpp:78-115 | a generated name differs from every other name, those blocks were created with included |
| `Naming.RunNames` | src/SysYFIR/Function.cpp:78-115 | over any interleaving of insertions, deletions and namings, no two values share a generated number or name, and a name once given stays |
| `Naming.AllNamed` | src/SysYFIR/Function.cpp:78-115 | a naming gives a name to every argument, block and value-producing instruction of a block that had none, and to nothing else; the numbers are those from the counter on, each used once, arguments before blocks, each block before its instructions and these before the next block, all in list order |
| `Naming.NamedFunction.SetInstrName` | src/SysYFIR/Function.cpp:78-115 | the three loops with their table of this naming do just that, and move the counter on by as many as were named |

## Left out

- The parser, the syntax checker, printing of the tree and of the IR, types, the driver, and the passes whose bodies are empty.
- Expressions, conversions, floating point, constant folding and array initialisers: opaque atoms in the lowering, opaque effects in the promotion. Contents of arrays and globals are in the oracle's answers, which promoted locals never reach.
- How the visitor turns an expression into instructions: the lists are arbitrary, as long as an expression uses results of its own only. Which results the source keeps in `tmp_val` between expressions is modelled for conditions and returned values.
- The `alloca` of a local array: lowered functions reach arrays through globals and through parameters.
- LoweredCode.LoweredIsPromotable: asks that a local be assigned before it is loaded, since the source reads past the end of an empty stack otherwise (src/Optimize/Mem2Reg.cpp:172). Stores made inside a condition do not count as assignments there, and both ways out of a condition are taken to be possible.
- LoweredCodeRuns.InstructionsKeepMeaning: compares the effects of runs that return; of runs that do not, it says that neither side returns.
- `IF_While_And_Cond_Stack` is pushed and popped but never read, and is not a field of the model.
- The name scopes that a block or branch enters and leaves: declarations carry the identity of their local.
- BlockBuilder.Top: gives a pair of zeros for an empty stack, where the source reads past the end; the theorems are about statements whose `break` and `continue` are inside a `while`.
- DominatorSolvers.DominatorSolver.Solve: asks that predecessors of reachable blocks be reachable, because the source reads number 0 for a block without one.
- RDominateTrees.RDominateTree.Execute: stops with `StaleExit` where a function has no block that returns and the field still holds the exit block of an earlier function; the source goes on with that block.
- Block fields for dominators and frontiers are maps of the pass object, and the two parent vectors of the dominator passes are one solver class, so vectors appear with the same bounds but without weak pointers.
- Mem2RegPass.Mem2Reg.Execute: is about one function with its own stacks and visited set; the source's are global, but their keys belong to one function. The dominator tree is an argument for the proofs only. Re-numbering names between the two steps is `Naming` and not repeated there.
- Naming.NamedFunction.SetInstrName: counts without bound, where the source's `unsigned` wraps around.
- `User::remove_operands`, which no pass calls.
