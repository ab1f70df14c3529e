# Verified model of the `sbc` compiler, the worker pool and the JSON records

This project models four parts of the repository in Dafny and proves what they are for.

**The `sbc` compiler**, from tokens to machine registers and one stack in memory. The source
language, the basic blocks (MIR) and the labelled lines over virtual registers (LIR) each have an
executable semantics. All three share values, 64-bit arithmetic and calls (`values.dfy`): a callee
is any function from arguments and world to a reply, and the world is the list of calls made to
external functions. What they share is fixed by laws of its own (`arithmetic.dfy`) and by programs whose
answers are known for all inputs (`programs.dfy`). Programs are then closed by call depth (`whole.dfy`). The stages and the
simulations between them:

| stage | specification | the compiler's own loops and fields | proofs |
|---|---|---|---|
| expression parser | `parser.dfy` | `parser_class.dfy` | `parser.dfy` |
| resolver | `resolver.dfy` | `resolver_class.dfy` | `resolver.dfy`, `named.dfy`, `accepts.dfy` |
| AST to MIR | `mir_gen.dfy` | `mir_gen_class.dfy` | `mir_gen_shape`, `_proof`, `_stmts`, `_theorem`, `_balance` |
| MIR simplification | `mir_optimize.dfy` | `mir_optimize_class.dfy` | `mir_optimize.dfy`, `mir_optimize_proof.dfy` |
| MIR to LIR | `lir_gen.dfy` | `lir_gen_class.dfy` | `lir_gen.dfy`, `lir_gen_proof.dfy`, `lir_gen_live.dfy` |
| peephole passes | `lir_optimize.dfy` | `lir_optimize_class.dfy` | `lir_live`, `lir_rewrite`, `lir_program`, `lir_optimize`, `lir_labels`, `lir_normal`, `lir_entries` |
| register selection | `asm_select.dfy` | `asm_gen_class.dfy` | `asm_select`, `asm_share`, `asm_crowded`, `asm_fine`, `asm_reach`, `asm_collision` |
| frame and calls | `asm_frame.dfy`, `asm_calls.dfy`, `asm_memory.dfy` | `asm_frame.dfy`, `asm_calls.dfy` | the same files, `asm_layout.dfy` |
| end to end | `whole.dfy`, `source.dfy`, `asm_whole.dfy`, `asm_program.dfy` | | the same files, `programs.dfy` |

Each stage is written twice: as functions, about which the theorems are proved, and as the classes
and loops the compiler runs, proved to compute those functions.

**The worker pool** (`queue.dfy`, `workers.dfy`): the ring buffer refines a bounded queue; the
listener, the workers, the mutex and the condition variable are a machine over their steps.

**JSON records** (`json.dfy`, `json_trees.dfy`, `json_class.dfy`, `models.dfy`, `carts.dfy`): the lexer
and parser, the trees they read, the printers and readers, and exactly when these undo each other.

## Conventions of the model

- Fuel counts loop iterations in the source, block transfers in MIR and jumps in LIR; the theorems
  say "for some fuel", or relate the amounts.
- `Reply`: a value, a fault (`Trapped`), no answer (`Hung`), or malformed code (`Stuck`). A zero
  divisor and a quotient that does not fit fault; so does calling a word or the wrong number of
  arguments, which the type checker refuses.
- A callee may overwrite its parameter slots, which are the words its caller pushed; a reply carries
  what is left in them.
- A slot that was never stored to holds `Undef`, and branching on it faults.
- Functions are named by their position in the program, blocks by their id, strings by their text.
- Block sizes: `optimizeMirFn` sorts lengths as text and takes the last; the model takes the length
  of any block.

## What was found

Where the code does not do what it is for, the model keeps the code, and the exact condition is
proved.

- Registers are selected by how many are live. That keeps live registers apart on generated lines
  (`GenFnApart`). On optimised lines it does exactly when no register is defined while as many are
  live as when one that still is was defined (`ApartIff`); for a function, exactly when none of the
  blocks that are left of it has an operation that keeps an operand in the second machine register
  while the other is fetched (`FunctionRoomy`). In the source: only if there is no such expression
  among those the body can get to, and if there is none at all, which is the same where nothing is cut
  off (`BodyRoomy`). Such programs run as they should (`FineMachine`), down to the stack that all calls
  share (`MemoryByNames`). `1 + 2 * 4 - 5` is such an expression: over machine registers it is 0, not 4
  (`SelectionCollides`, `FourIsZero`).
- When the request queue is full the listener returns with the mutex held, and no queued request is
  ever served (`DoomedForever`, `QueuedCanBePopped`), and the connection it carries is lost (`EveryRun`). Every pool
  can get there (`DoomReached`). Until
  it does, everything queued is popped in bounded time (`AllServed`, `FairServes`).
- The stack is misaligned at a C call with an odd number of arguments above six (`CFunctionAbi`),
  and an exported function with more than six parameters reads the wrong words (`ExporterAbi`).
- A local slot wider than a word would overlap the saved `rbp` or its neighbour (`FrameSoundIff`); no
  compiled program gets there, since the line generator asks for words only.
- JSON strings are printed without escapes and negative numbers do not lex (`ObjectRoundTrip`); the
  keyword comparisons in `backend/src/json/json.c:368-373` are the wrong way round, so `null` is read
  as `false` and every other word as `null` (`KeywordsInverted`, `NeverTrue`). Empty arrays and objects
  are refused (`NothingInside`), and a number may hold two points (`ReadableIff`).
- The comment at `sbc/asm_gen.ts:410` puts the last parameter at `[rbp+8]`; the code, and the model,
  put it at `[rbp+16]`.

## Model

| member | source | states |
|---|---|---|
| `ParserSpec.ParserExact` | sbc/front.ts:813-916 | The language of the parser, exactly: it reads n tokens as a tree if and only if they say that tree by a grammar without levels (trailing comma in arguments included), it groups by tiers (a left operand is no operation of a looser tier, a right operand only one of a strictly tighter tier, prefix operands and callees are none), ids are numbered children first, and no operator or argument list follows. The tiers are listed as sets of operators. |
| `ParserSpec.TiersDecide` | sbc/front.ts:819-834 | For all leaf tokens a, b, c and all operators o, q: `a o b q c` is read with b going to q exactly when q is in a strictly tighter tier than o, of: or / xor / and / `< > <= >=` / `== !=` / `+ -` / `* / %`. |
| `ParserSpec.PrefixTightest` | sbc/front.ts:854-864 | `not` and unary minus take the first operand only, whatever binary operator follows. |
| `ParserSpec.ParseInvertsPrint` | sbc/front.ts:813-916 | For every such tree, parsing its printed tokens, followed by anything that cannot extend an expression, gives back that tree with ids numbered children first, and consumes exactly its tokens. So binary operators associate to the left. |
| `ParserSpec.ParsedIsPrintable` | sbc/front.ts:813-916 | Conversely, whatever the parser accepts is such a tree with ids in that order: printing and parsing it again gives the same tree and the same next id. |
| `ParserSpec.BinaryGood` | sbc/front.ts:813-852 | After an expression of some level, no operator of that level or a tighter one is next, and the result binds no looser than the level. |
| `ParserSpec.WholeRead` | sbc/front.ts:813-852 | At any position and any level: tokens that say a tree, which nothing there can extend, are read whole, by that level's loop over the operator table. |
| `ParserClass.Parser.ParseBinaryExpr` | sbc/front.ts:813-852 | The moving position and id counter end where the specification says and the tree is the specified one; an exception exactly where it says so. |
| `ParserClass.Parser.EatOperator` | sbc/front.ts:838-849 | The scan of the operator table eats the next token exactly when it is an operator allowed at this level. |
| `ParserClass.Parser.ParsePrefixExpr` | sbc/front.ts:854-864 | `not` and unary minus nest; anything else is a postfix expression; as specified, fields included. |
| `ParserClass.Parser.ParsePostfixExpr` | sbc/front.ts:866-894 | Calls chain to the left; as specified, fields included. |
| `ParserClass.Parser.ParseCallArgs` | sbc/front.ts:869-889 | Comma-separated arguments with an optional trailing comma, up to the closing parenthesis; an exception otherwise. |
| `ParserClass.Parser.ParseOperandExpr` | sbc/front.ts:896-916 | An identifier, integer or string token becomes a leaf with the next id; anything else is an exception. |
| `ResolverSpec.ResolverSound` | sbc/front.ts:421-512 | If the resolver accepts a body, its tables lead every name to the innermost binding in scope at that point and every `break` to the innermost enclosing loop. Needs only that no id is used twice. |
| `ResolverSpec.StmtScoped` | sbc/mir_gen.ts:78-256 | Once names are resolved, each lookup that lowering makes in its local and loop tables is defined where it is made, statement by statement. |
| `ResolverSpec.ResolveFnScoped` | sbc/front.ts:389-419 | For a top-level function: acceptance by the resolver is enough for every such lookup during lowering to be defined. |
| `ResolverClass.Resolver.ResolveExpr` | sbc/front.ts:479-512 | The chain of symbol tables finds what the scope says; the expression table ends as specified; false exactly on an undefined name, `not` or unary minus. |
| `ResolverClass.Resolver.ResolveStmt` | sbc/front.ts:428-477 | The tables, the symbols and the loop stack after a statement are as specified: a `let` is in scope from its own initialiser on. |
| `ResolverClass.Resolver.ResolveBlock` | sbc/front.ts:421-426 | The symbols pushed for a block are gone when it ends, and the tables are as specified. |
| `ResolverClass.Resolver.ResolveFn` | sbc/front.ts:389-419 | All functions, then the parameters, are in scope of a body; later definitions of a name win. |
| `Accepts.BlockAccepted` | sbc/front.ts:421-512 | The resolver accepts a block, for every scope, loop stack and table, if and only if every name that occurs in it is visible where it stands (a `let` from its own initialiser to the end of its block), every `break` is inside a loop, and no `not` and no unary minus occurs. Stated over the occurrences in the block. |
| `Accepts.BlockLowers` | sbc/mir_gen.ts:72-340 | Lowering has code for a resolved block if and only if none of its operators is `or`, `xor` or `and`, there is no prefix operator, and every assignment is to a name bound to a parameter or a `let` where it stands. |
| `Accepts.FnAccepted` | sbc/front.ts:389-419 | For a function of a program, whose names are its parameters and the functions they do not hide. |
| `Accepts.CompilesIff` | sbc/main.ts:20-48 | So which programs the compiler takes, exactly: those whose ids are used once and in whose functions everything that occurs meets both conditions. |
| `Named.SlotsMeanNames` | sbc/front.ts:312-365 | Static resolution agrees with dynamic block-scoped environments: for all arguments, worlds, callees and iteration bounds, a resolved body does by slots what it does by names in a stack of bindings with shadowing, where `break` leaves the loop that is running. |
| `Named.StmtSame` | sbc/front.ts:428-477 | Statement by statement: related environment and store stay related, and both runs end alike. |
| `Named.OwnNameDiffers` | sbc/front.ts:439-442 | The condition that an initialiser does not mention its own variable is needed: `let x = x` inside the block of another `x` reads 7 by names and an unset slot by resolution. |
| `Source.NamesToLines` | sbc/main.ts:20-48 | Resolver, lowering, both optimisers and line generation together: a compiled function answers a value and a world exactly when its source does by the names it uses, for all arguments, worlds and callees. |
| `Source.ProgramByNames` | sbc/main.ts:20-48 | The compiler from end to end, for whole programs: what a program does by the names it uses, with block-scoped shadowing, calls between its functions and calls to external ones, is what its optimised lines do, faults and hanging included; at every call depth, for all arguments, worlds and external behaviours. |
| `Source.NamedIsAst` | sbc/front.ts:312-512 | For whole programs, running by names and running by resolved slots answer alike at every call depth. |
| `Source.ParsedApart` | sbc/front.ts:813-948 | Whatever expression the parser accepts uses no id twice, and exactly the ids from the first one it was to give. |
| `Arithmetic.YesOrNo` | sbc/asm_gen.ts:258-281 | A comparison of words answers one or zero. |
| `Arithmetic.LessIsOrder` | sbc/asm_gen.ts:258-261 | `<` is irreflexive, asymmetric and transitive, and every word is below its successor. |
| `Arithmetic.LessIsLess` | sbc/asm_gen.ts:258-261 | From the laws of a strict order in which every word is below its successor: `<` answers one exactly for smaller words. |
| `Arithmetic.ComparisonsAgree` | sbc/asm_gen.ts:258-281 | Of `<`, `==` and `>` exactly one holds, `<=` is `<` or `==`, `>` and `>=` are the converses, `!=` the negation. |
| `Arithmetic.RingOperations` | sbc/asm_gen.ts:282-290 | Sum, difference and product are the integers' where these fit a word, and otherwise the word that differs from them by a multiple of 2^64. |
| `Arithmetic.Division` | sbc/asm_gen.ts:35-46 | `/` and `%` fault exactly on a zero divisor and on the least word divided by -1; otherwise l = r * q + m with |m| < |r| and m zero or signed like l. |
| `Arithmetic.Literals` | sbc/asm_gen.ts:204-206 | A literal is itself where it fits a word, and otherwise the word that differs from it by a multiple of 2^64. |
| `Arithmetic.OnlyWords` | sbc/asm_gen.ts:258-302 | Nothing but words is compared or calculated with, and between words only `/` and `%` can fault. |
| `Arithmetic.Branching` | sbc/asm_gen.ts:250-253 | A branch is not taken exactly on the word zero, and undecided exactly on a slot never set. |
| `Programs.Counts` | sbc/mir_gen.ts:110-139 | For every word n that is not negative, `let i = 0; while i < n { i = i + 1; } return i;` is compiled and answers n: by names, over its optimised lines, and called in memory on any stack; for every depth but 0, world and external behaviour. |
| `Programs.Leaves` | sbc/mir_gen.ts:95-169 | The same for a `loop` left by `break` from an `if`, with a `let` in an inner block that shadows the counter. |
| `Programs.Sums` | sbc/mir_gen.ts:279-292 | A function that calls itself answers 1 + 2 + ... + n wrapped to a word at every depth above n, and at no other depth comes back. |
| `Programs.Orders` | sbc/mir_gen.ts:279-292 | `return g(x) - h(y, g(y))` with external g and h: the calls made are g(x), g(y) and h(y, that answer), in that order, each with its arguments in order; the answer is the difference, a fault if they are no words. |
| `MirGenTheorem.LowerFnCorrect` | sbc/mir_gen.ts:39-340 | Lowering preserves meaning: for all arguments, worlds and callees, the generated blocks halt with a reply exactly when the body does, through nested if, while, loop, break and return; so neither runs forever alone. |
| `MirGenTheorem.FnSound` | sbc/mir_gen.ts:39-70 | With a bound: from a body run the number of block transfers that gives the same outcome is computed, and a body that is still running has not halted in as many transfers. |
| `MirGenStmts.StmtSound` | sbc/mir_gen.ts:78-219 | A statement that ends normally, breaks out of loop L or returns takes the blocks from the end of the current block to the end of the last one, the start of L's exit block or the return block, with the same store and world. |
| `MirGenStmts.BlockSound` | sbc/mir_gen.ts:72-76 | The same for a sequence of statements, each starting where the one before it ended. |
| `MirGenProof.CodeCorrect` | sbc/mir_gen.ts:221-340 | The straight code of an expression pushes exactly the expression's value, or stops with its failure, and leaves locals alone. |
| `MirGenShape.LowerGrows` | sbc/mir_gen.ts:78-219 | Lowering changes no block but the current one, never reopens a closed block, gives every block its own id, and keeps locals of different variables different. |
| `MirGenBalance.LowerFnWellFormed` | sbc/mir_gen.ts:39-70 | Every block of a lowered function has a terminator, every target exists, no block pops below its entry depth, and its net stack effect is 0, or 1 exactly when it ends in a branch; nothing jumps to the entry. |
| `MirGenBalance.LowerBlockCloses` | sbc/mir_gen.ts:72-219 | Lowering leaves exactly the current block and the return block without a terminator, however branches, loops, breaks and returns nest. |
| `MirShape.NeverUnderflows` | sbc/mir_gen.ts:221-340 | Static balance is what running needs: a block's statements never underflow the stack and leave the depth predicted. |
| `MirShape.RunNeverStuck` | sbc/mir_gen.ts:39-70 | No run of a well-formed function, from any of its blocks, underflows or goes to a missing block. |
| `MirGenClass.FnMirGen.LowerExpr` | sbc/mir_gen.ts:221-340 | Walking an expression appends its code to the current block; false exactly for the operators that throw. |
| `MirGenClass.FnMirGen.LowerStmt` | sbc/mir_gen.ts:78-219 | All generator fields after a statement are those of the specification, false exactly when lowering throws. |
| `MirGenClass.FnMirGen.LowerWhile` | sbc/mir_gen.ts:110-139 | Condition block, body block and exit block are created, filled and closed in the source's order. |
| `MirGenClass.FnMirGen.LowerLoop` | sbc/mir_gen.ts:95-109 | Loop and exit block are created, the exit is recorded before the body is lowered, and the body's end jumps back. |
| `MirGenClass.FnMirGen.LowerIf` | sbc/mir_gen.ts:140-169 | Branch blocks and the block they join are created and closed in the source's order, with and without an else. |
| `MirGenClass.FnMirGen.Generate` | sbc/mir_gen.ts:39-70 | A function for exactly the bodies that lowering accepts, and then the specified one. |
| `MirOptimizeProof.OptimizeSound` | sbc/mir_optimize.ts:4-32 | Simplifying the control flow graph keeps every run from the entry for every state and callee, keeps the function well formed (no dangling target, entry first and still there), and leaves nothing to do: every block but the entry is jumped to, and no block goes on to one that nothing else jumps to. |
| `MirOptimizeProof.RoundSound` | sbc/mir_optimize.ts:18-28 | One round of both rewrites keeps all runs and well-formedness. |
| `MirOptimizeProof.JoinFromSound` | sbc/mir_optimize.ts:55-78 | Joining blocks while going through a list that still holds absorbed ones: every prefix of the loop keeps all runs from the entry. |
| `MirOptimize.AbsorbSame` | sbc/mir_optimize.ts:68-73 | Putting a block's only successor, which has no other predecessor, into it keeps every run from every other block. |
| `MirOptimize.WithoutSame` | sbc/mir_optimize.ts:39-53 | Removing blocks that nothing left jumps to keeps every run. |
| `MirOptimizeProof.RoundFixpoint` | sbc/mir_optimize.ts:18-28 | A round that removes no block changes nothing. |
| `MirOptimizeClass.RoundSize` | sbc/mir_optimize.ts:34-37 | Whatever the cost per block, at least 1: a round never raises the size, and leaves it the same only if it removes no block. |
| `MirOptimizeClass.MirFn.RemoveUnreachable` | sbc/mir_optimize.ts:39-53 | Removes exactly the blocks other than the entry that no block of the list jumps to. |
| `MirOptimizeClass.MirFn.JoinSequentialBlocks` | sbc/mir_optimize.ts:55-78 | The in-place loop computes the specified joining, and moves the exit with its block. |
| `MirOptimizeClass.MirFn.FnSize` | sbc/mir_optimize.ts:34-37 | The fold over the blocks is their total size. |
| `MirOptimizeClass.MirFn.Optimize` | sbc/mir_optimize.ts:4-32 | The loop over a history of sizes computes the fixpoint, whichever block's length the sort puts last, within one more round than there are blocks. |
| `LirGenProof.GenFnCorrect` | sbc/lir_gen.ts:95-271 | Line generation is a simulation: with the same fuel, the lines of a well-formed function end as its blocks do, for all arguments, worlds and callees. |
| `LirGenProof.LabelRun` | sbc/lir_gen.ts:123-129 | From a block's label the lines lead to the same next block, exit or stop, with the same locals and evaluation stack. |
| `LirGen.StmtRun` | sbc/lir_gen.ts:134-234 | The lines of a statement do to frame and stack what the statement does to locals and stack. |
| `LirGen.CallRun` | sbc/lir_gen.ts:192-208 | The call sequence moves the result under its arguments' pops: arguments gone, result on top, whatever the callee left in its argument words. |
| `LirGen.BinaryRun` | sbc/lir_gen.ts:209-231 | The two operands are popped in the right order and the result pushed; a fault stops. |
| `LirGenLive.GenFnOk` | sbc/lir_gen.ts:134-271 | Generated lines obey the register discipline: one live interval per register, inside one block, nothing live at a label, and at a call no register but the callee's. |
| `LirGenClass.FnGen.LowerStmt` | sbc/lir_gen.ts:134-234 | The lines appended, the registers taken and the pending labels used are those of the specification. |
| `LirGenClass.FnGen.LowerCall` | sbc/lir_gen.ts:192-208 | The loop over the arguments takes a register for each, after the callee's and the result's. |
| `LirGenClass.FnGen.LowerTer` | sbc/lir_gen.ts:236-271 | Jump targets are the labels of the target blocks; a branch pops its condition into a register of its own. |
| `LirGenClass.FnGen.AllocateSlots` | sbc/lir_gen.ts:101-118 | Parameters get the first slots in order, then the result, then the other locals; every local has exactly one. |
| `LirGenClass.FnGen.NameBlocks` | sbc/lir_gen.ts:96-99 | Block k of the list gets label k. |
| `LirGenClass.FnGen.Generate` | sbc/lir_gen.ts:95-132 | The lines are the specified ones and no label is left pending, so no trailing `nop` is pushed. |
| `LirLabels.GenFnLabels` | sbc/lir_gen.ts:95-132 | The labels of all lines, read in order, are 0, 1, 2 and so on, one per block: each label is on one line, and every jump aims at one of them. |
| `LirOptimize.OptimizeAllSound` | sbc/lir_optimize.ts:11-39 | Optimising a program keeps every function's behaviour from every label (frame, remaining stack, calls, control flow), keeps the register discipline, and leaves no pass a candidate. |
| `LirOptimize.AllSaved` | sbc/lir_optimize.ts:41-195 | So in the optimised lines no three lines in a row push, kill and pop, call a function just loaded, or store a constant just loaded; and between any push and any pop there is a label or an instruction that uses the stack. Said of the lines, not through the passes. |
| `LirOptimize.PassSound` | sbc/lir_optimize.ts:41-195 | Each pass as a whole, all candidates from last to first: behaviour and discipline kept, three or two lines saved per candidate, nothing changed exactly when there is none. |
| `LirOptimize.ApplySound` | sbc/lir_optimize.ts:41-195 | Each rewrite of one candidate, with the function-wide renaming, keeps behaviour and discipline. |
| `LirOptimize.PairSound` | sbc/lir_optimize.ts:178-194 | Deleting a push and a pop with quiet lines between them, dropping the first kill of the pushed register and renaming over the whole function, keeps behaviour. |
| `LirOptimize.CandidatesChained` | sbc/lir_optimize.ts:44-57 | The candidates a pass collects never overlap, so rewriting from the back leaves the others as they were. |
| `LirOptimize.RenameIsLocal` | sbc/lir_optimize.ts:197-261 | Replacing a register over the whole function touches nothing before its definition. |
| `LirProgram.PairInFunction` | sbc/lir_optimize.ts:154-194 | A push and its pop can go from the middle of a function: every label still leads to lines that do the same. |
| `LirProgram.ThreeInFunction` | sbc/lir_optimize.ts:79-149 | One line that does what three do can take their place in the middle of a function. |
| `LirProgram.SameRun` | sbc/lir_optimize.ts:11-39 | Functions that do the same from every label run the same from every label, with the same fuel. |
| `LirLive.OkRenamed` | sbc/lir_optimize.ts:197-261 | A register whose interval is over can take the place of a live one: the discipline is kept by the renaming. |
| `LirLabels.OptimizeLabels` | sbc/lir_optimize.ts:11-195 | The optimiser loses, moves and duplicates no label and changes no jump target: labels and targets read off in order are the same before and after. |
| `LirOptimizeClass.LirFn.ReplaceReg` | sbc/lir_optimize.ts:197-261 | The in-place loop renames every occurrence and nothing else. |
| `LirOptimizeClass.LirFn.EliminatePushPop` | sbc/lir_optimize.ts:41-77 | Candidate list, splices and renamings in place compute the specified pass and never throw; the branch that would move labels past the end is never taken. |
| `LirOptimizeClass.LirFn.EliminateMovFnCall` | sbc/lir_optimize.ts:79-113 | In place: the specified pass, without the exception. |
| `LirOptimizeClass.LirFn.EliminateMovIntStoreReg` | sbc/lir_optimize.ts:115-149 | In place: the specified pass, without the exception. |
| `LirOptimizeClass.LirFn.FindPop` | sbc/lir_optimize.ts:159-173 | The inner scan finds the pop that takes what the push left, across lines that leave the stack alone and up to the first label. |
| `LirOptimizeClass.LirFn.EliminatePushPopShadowed` | sbc/lir_optimize.ts:151-195 | In place: the specified pass; the recorded pop positions stay right while later candidates are rewritten. |
| `LirOptimizeClass.Program.OptimizeLir` | sbc/lir_optimize.ts:11-39 | The loop over a history of sizes stops, at the first round that changes nothing; every function then behaves as before and has none of the patterns. |
| `Whole.CompileCorrect` | sbc/main.ts:20-48 | The whole compiler preserves meaning: every call of every function, at every call depth, in every world and for every behaviour of external functions, ends the same way in the source program and in the generated one. |
| `Whole.CompiledReplies` | sbc/main.ts:20-48 | The same without depths: both programs come back with the same replies, and with at most one. |
| `Whole.CompiledSafe` | sbc/lir_gen.ts:32-76 | No run of a generated program pops an empty stack, reads a register nobody set, meets a line that cannot run, or leaves its function's lines. |
| `Whole.CompileFn` | sbc/lir_gen.ts:32-76 | One function through lowering, both optimisers and line generation, for arbitrary callees. |
| `AsmSelect.GenFnApart` | sbc/asm_gen.ts:310-354 | On generated lines at most two virtual registers are live at once and never share a machine register: two are enough, so selection never runs out. |
| `AsmSelect.GenFnSelected` | sbc/asm_gen.ts:191-308 | So a generated function runs over machine registers as it does over virtual ones. |
| `LirNormal.OptimizeIsNormal` | sbc/lir_optimize.ts:11-195 | However many rounds the program needs, and in whatever order candidates fall: what the four passes leave of each function is one normal form, which a single walk that pairs pops with untouched pushes, followed by one fusing of known calls and stored constants, computes. |
| `LirNormal.PairCommutes` | sbc/lir_optimize.ts:151-195 | Deleting a push and its pop anywhere in a function, with the rename, does not change where the walk ends; so deletions commute. |
| `LirNormal.ThreeCommutes` | sbc/lir_optimize.ts:79-149 | Nor does replacing three lines by a known call or the store of a constant, up to that fusing. |
| `LirEntries.FnWalk` | sbc/lir_optimize.ts:11-195 | The optimised lines of a generated function, statement by statement: each value on the evaluation stack has its own lines, and a binary operation finds its left operand still in a register exactly when the right one was a single load. |
| `AsmShare.ApartIff` | sbc/asm_gen.ts:330-354 | For lines that obey the register discipline: selection keeps live registers apart if and only if no register is defined while as many are live as at the definition of one that still is, and machine registers suffice. Read off definitions and kills alone. |
| `AsmShare.SelectionSound` | sbc/asm_gen.ts:310-354 | Where that is so, running over machine registers is running over virtual ones, from every label and with the same fuel. |
| `AsmShare.SharingLoses` | sbc/asm_gen.ts:330-354 | Where it is not: behind the line at which two come to share, the machine registers hold what the virtual ones do if and only if the two values happen to be equal. |
| `AsmCrowded.NormalApart` | sbc/asm_gen.ts:330-354 | For every well-formed function: its optimised lines keep live registers apart if and only if, in none of its blocks, an operation keeps an operand in the second machine register while the other is fetched. |
| `AsmCrowded.FnNumbers` | sbc/asm_gen.ts:330-349 | For every well-formed function: before known calls and constants are fused, its lines go through selection with live registers apart if and only if all its blocks are clear. |
| `AsmCrowded.RunNumbers` | sbc/asm_gen.ts:330-349 | The reason, value by value along the statements of a block: each value on the evaluation stack is in the first or the second machine register according to how it was computed, and its lines collide exactly when an operation in it finds both operands in the same one. |
| `AsmFine.CodeClear` | sbc/mir_gen.ts:221-340 | The stack code of an expression is free of such operations if and only if the expression is: an operand that waits in a register is no operation whose own right operand is more than a name or a constant. |
| `AsmFine.LowerFnClear` | sbc/mir_gen.ts:39-219 | All blocks that lowering makes of a body are free of them if and only if all its expressions are. |
| `AsmFine.OptimizeClear` | sbc/mir_optimize.ts:4-78 | Removing and joining blocks makes none. |
| `AsmWhole.FunctionRoomy` | sbc/main.ts:20-48 | For every function of every compiled program: selection keeps its live registers apart if and only if the blocks that are left of it are free of such operations. |
| `AsmReach.OptimizeReached` | sbc/mir_optimize.ts:4-78 | Nor does it lose any: where the simplified blocks are clear, so was every block that a run could reach. |
| `AsmReach.FnReached` | sbc/mir_gen.ts:39-219 | So where a function keeps its live registers apart, every expression that its body can get to is fine: past `return` and `break`, and past a loop that nothing leaves, it cannot. |
| `AsmReach.UncutBlockFine` | sbc/mir_gen.ts:39-219 | In a body in which nothing stands after such a statement, those are all the expressions. |
| `AsmWhole.BodyRoomy` | sbc/main.ts:20-48 | What that is in the source: it is needed that every expression the body can get to is fine, and enough that all are; where nothing is cut off the function keeps live registers apart if and only if all its expressions are fine. |
| `AsmWhole.CutLoopRoomy` | sbc/mir_optimize.ts:4-78 | Where something is cut off, that does not decide: of `return 0; while 1 { e; }` the body gets to two constants only, and keeps live registers apart if and only if `e` is fine. |
| `AsmWhole.MachineByNames` | sbc/main.ts:20-48 | From names to machine registers, for whole programs: where no register comes to share, the program over machine registers does what the source does, at every call depth, for all arguments, worlds and external behaviours. |
| `AsmWhole.FineMachine` | sbc/main.ts:20-48 | In particular every program whose expressions are all fine. |
| `AsmCollision.SelectionCollides` | sbc/asm_gen.ts:330-354 | Others need not. For all constants, a program that returns `a + b * c - d` resolves, lowers and compiles; its source answers that number, and its code over machine registers answers 0, because the subtraction takes a register from itself. |
| `AsmCollision.CompiledLines` | sbc/main.ts:20-48 | The whole of what the compiler makes of that program, optimised lines included. |
| `AsmCollision.IsParsed` | sbc/front.ts:813-916 | Its expression is what the parser reads. |
| `AsmCollision.IsNotFine` | sbc/asm_gen.ts:330-354 | And is not fine: the sum was computed beside a product and waits in the second machine register. |
| `AsmGenClass.AsmGen.AllocReg` | sbc/asm_gen.ts:330-349 | The set of live registers and the selection stay in step; false exactly when the machine registers have run out. |
| `AsmGenClass.AsmGen.GenerateLines` | sbc/asm_gen.ts:174-184 | Line after line: the selected lines, or nothing when the registers run out. |
| `AsmGenClass.AsmGen.LayOut` | sbc/asm_gen.ts:152-164 | The leading allocations get their slots, parameters and locals apart, and the body starts at the first other line. |
| `AsmFrame.StackAllocator.Finalize` | sbc/asm_gen.ts:407-434 | Two loops over one running offset give every parameter and local its offset, and the frame its size. |
| `AsmFrame.FrameSoundIff` | sbc/asm_gen.ts:423-433 | For slots of any positive sizes, locals lie inside the frame without overlap exactly when none is wider than a word. |
| `AsmFrame.WordOffsets` | sbc/asm_gen.ts:407-434 | For words, parameter k of n is at 8 + 8 * (n - k) and local i at -8 * (i + 1). |
| `AsmCalls.GeneratedLayout` | sbc/asm_gen.ts:152-164 | Whatever layout the allocator makes of a generated function's lines, every slot has that offset and the frame holds the locals. |
| `AsmCalls.SlotsApart` | sbc/asm_gen.ts:407-434 | Slots of a generated function are word-aligned and at least a word apart; locals are inside the frame, parameters above the return address. |
| `AsmLayout.OptimisedLayout` | sbc/asm_gen.ts:152-164 | After optimising the program as well, whatever layout the allocator makes, every slot of a generated function is at the offset it had before, parameters above the return address and locals inside the frame. |
| `AsmLayout.OptimizeAllocs` | sbc/lir_optimize.ts:11-39 | However many rounds of the four passes run, a function keeps its allocations, in order and in front of every other line. |
| `AsmLayout.RewriteAllocs` | sbc/lir_optimize.ts:41-195 | Each splice and each rename of registers happens behind the allocations and leaves them alone. |
| `AsmCalls.PushedPassed` | sbc/asm_gen.ts:240-247 | A caller that pushes its arguments first to last and calls leaves them above the return address, the last one lowest. |
| `AsmCalls.CalleeFindsArguments` | sbc/asm_gen.ts:167-175 | From there, after the callee's prologue, argument k is in the slot of parameter k. |
| `AsmCalls.FrameRestored` | sbc/asm_gen.ts:185-188 | Leaving through the epilogue gives the caller its `rbp` and `rsp` back, whatever the body did below its frame pointer. |
| `AsmCalls.ArgumentNames` | sbc/asm_gen.ts:120-143 | The registers the arguments are numbered by are `rdi`, `rsi`, `rdx`, `rcx`, `r8` and `r9`, in that order, of the nine the selection lists after and with `rax`. |
| `AsmCalls.CFunctionAbi` | sbc/asm_gen.ts:104-129 | At the C call the first six arguments are in the argument registers in order and the others on the stack; `rsp` is a multiple of 16 exactly when there are at most six or an even number of arguments. |
| `AsmCalls.CFunctionReturns` | sbc/asm_gen.ts:126-129 | After the C function the caller has its frame back, the result in `rax`, and its argument words and all above them unchanged. |
| `AsmCalls.ExporterAbi` | sbc/asm_gen.ts:131-150 | An exported function finds C's register arguments in its parameter slots exactly when it has at most six parameters. |
| `AsmMemory.StepSame` | sbc/asm_gen.ts:191-308 | One line over machine registers and memory: slots are words at their offsets from `rbp`, pushed values words below `rsp`, and what the line does to registers, frame and stack it does to those. |
| `AsmMemory.CallSame` | sbc/asm_gen.ts:240-247 | A call on the shared stack: the callee finds its arguments as the top words; when it is back the caller's slots and the rest of its stack are as before, the argument words as the callee left them, and the result is pushed from `rax`. No register is needed across it. |
| `AsmMemory.EnterHolds` | sbc/asm_gen.ts:165-175 | After `call` and the prologue a new frame is in place: parameters are the caller's words, locals are unset, the caller's `rbp` is saved. |
| `AsmMemory.LeaveAnswers` | sbc/asm_gen.ts:184-188 | After the epilogue and `ret` the result is in `rax`, and `rsp`, `rbp` and the stack above the arguments are the caller's again. |
| `AsmMemory.CallsSame` | sbc/asm_gen.ts:152-308 | Whole programs, every function calling any other to any depth: over one memory with one register file they end as they do over a frame, a stack and registers for each call; calls of C go through the wrapper's own instructions. |
| `AsmMemory.ExporterAnswers` | sbc/asm_gen.ts:131-150 | Called from C through the exporter's instructions, a function of at most six parameters answers the same, and C has its stack back. |
| `AsmProgram.MemoryByNames` | sbc/main.ts:20-48 | From names to one memory: where no registers come to share, calling a compiled function with its arguments pushed on any stack ends as the source does by names; the answer is in `rax`, `rsp` and `rbp` are back, and nothing above the arguments has changed. |
| `AsmProgram.ExportedByNames` | sbc/main.ts:20-48 | The same for C calling an exported function of at most six parameters. |
| `AsmProgram.InstalledLayout` | sbc/asm_gen.ts:152-164 | The frame sizes and offsets used there are those of whatever layout the allocator makes of the compiled lines. |
| `AsmCalls.GenerateCFunctionHead` | sbc/asm_gen.ts:108-122 | The loops emit the copies of all arguments and the pops of the first six. |
| `AsmCalls.GenerateCExporterHead` | sbc/asm_gen.ts:135-143 | The loop emits the pushes of the register arguments. |
| `Queue.StaticQueue.Push` | backend/src/collections/static_queue.h:49-61 | Appends to a bounded queue of one less than the capacity, wrap-around included; the error return exactly when it is full, and then nothing changes. |
| `Queue.StaticQueue.Pop` | backend/src/collections/static_queue.h:72-85 | Takes the oldest element, wrap-around included; the error return exactly when there is none. |
| `Queue.StaticQueue.Size` | backend/src/collections/static_queue.h:64-70 | The size is the number of elements held. |
| `Queue.RingPush` | backend/src/collections/static_queue.h:49-61 | On the array: full means one slot short of the capacity; otherwise writing at the front appends. |
| `Queue.RingPop` | backend/src/collections/static_queue.h:72-85 | On the array: what is read at the back is first, and moving on leaves the rest. |
| `Workers.EveryRun` | backend/src/http/server.c:87-111 | In every interleaving of the listener and any number of workers, from the start: the connections accepted, in order, are those popped, then those queued, then the one the listener carries if it carries one; every popped connection has been handled or is in one worker's hands, once; the mutex has one owner; and no wakeup is lost. |
| `Workers.AcceptedPushed` | backend/src/http/server.c:95-110 | From any state: what is accepted is pushed, in order, but for the one connection the listener carries: waiting for the mutex, about to push, or refused because the queue was full. |
| `Workers.WorkerWaits` | backend/src/http/worker.c:47-72 | A worker can always take a step of its own, except that it may have to wait for the mutex; asleep, it may wake for no reason. |
| `Workers.ListenerWaits` | backend/src/http/server.c:91-111 | So can the listener, unless `accept` failed or the queue was full. |
| `Workers.NoLostWakeupKept` | backend/src/http/server.c:91-111 | If something is queued and every worker sleeps, the listener is between its push and its signal, spurious wakeups allowed. |
| `Workers.OnceKept` | backend/src/http/worker.c:57-66 | Each step keeps every popped connection with one worker until it is handled. |
| `Workers.DoomedForever` | backend/src/http/server.c:102-108 | Once the listener finds the queue full it returns with the mutex held: from then on nothing is ever pushed or popped again. |
| `Workers.DoomReached` | backend/src/http/server.c:91-111 | That happens for every capacity and every number of workers: a run is given, from the start, that ends with the listener gone, the mutex held and the queue full. |
| `Workers.RingRefines` | backend/src/http/worker.c:47-72 | The pool over the ring buffer in memory, where threads look at indices only, takes exactly the runs of the pool over a queue, and stands for the same states. |
| `Workers.RingInOrder` | backend/src/collections/static_queue.h:49-85 | In every interleaving over the ring: what was accepted is what was popped, then what the ring holds, across every wrap, then what the listener carries; each popped connection is handled once or in one worker's hands. |
| `Workers.QueuedCanBePopped` | backend/src/http/worker.c:47-72 | A queued connection can be popped without any new one coming in exactly when the listener is not on that path: otherwise no reachable state is stuck. |
| `Workers.NextIsPopped` | backend/src/http/worker.c:47-72 | Off that path no run, of whichever threads, is longer than a bound read off the state without popping the oldest connection. |
| `Workers.AllServed` | backend/src/http/worker.c:47-72 | So after so many steps, under every schedule, all that was queued has been popped, in order. |
| `Workers.FairServes` | backend/src/http/server.c:91-111 | In every endless run from the start in which a thread that can always go on does: everything queued at any time is popped later, in order, unless the listener finds the queue full. |
| `JsonSpec.ObjectRoundTrip` | backend/src/json/json.c:168-301 | Printing an object of integer and string fields and parsing it finds every field again exactly when all integers are non-negative and all strings free of quotes and backslashes; otherwise there is no value or some string differs. |
| `JsonSpec.UncleanDiffers` | backend/src/json/json.c:388-429 | A string with a quote or a backslash is never read back as it was: it gets shorter, or loses its closing quote. |
| `JsonSpec.LexNumber` | backend/src/json/json.c:330-356 | The digits printed for a non-negative integer are lexed as one number token. |
| `JsonSpec.KeywordsInverted` | backend/src/json/json.c:359-384 | Any word, whatever follows it, is read as false if and only if it is `null`, and as null otherwise; none is refused. |
| `JsonSpec.NeverTrue` | backend/src/json/json.c:168-301 | No text is read as true, nor as a value with a true anywhere inside. |
| `JsonSpec.DecimalDigits` | backend/src/models/models.c:123-146 | Printed numbers are decimal: ten times a number plus a digit is its digits and that digit. |
| `JsonTrees.TreeRoundTrip` | backend/src/json/json.c:168-301 | For every tree of non-empty arrays and objects at any nesting, over numbers, C strings, null and false: its text, with any white space before every token, strings escaped or, where they need no escapes, not, and any text after it that does not join the last token, parses to that tree, with all items and fields in order. |
| `JsonTrees.ReadableIff` | backend/src/json/json.c:168-435 | And the parser produces no other trees: some text parses to a tree if and only if the tree has no true, no empty array or object, C strings only, and numbers that are `0` or digits with at most two points not starting with `0`. |
| `JsonTrees.NothingInside` | backend/src/json/json.c:202-286 | `[]`, `{}` and a comma before the closing mark are refused. |
| `JsonTrees.NoValue` | backend/src/json/json.c:388-435 | Empty text, a mark that starts no value, a character that starts no token and a string that does not end are refused. |
| `JsonTrees.EscapedChars` | backend/src/json/json.c:388-429 | Every string written with `\n`, `\r`, `\t` and escaped quotes and backslashes is read back as it was. |
| `JsonTrees.AnyEscape` | backend/src/json/json.c:399-415 | What each character after a backslash stands for. |
| `JsonClass.JsonParser.Lex` | backend/src/json/json.c:310-435 | Index, current character, token and value after lexing are those of the specification on the text that is left. |
| `JsonClass.JsonParser.LexString` | backend/src/json/json.c:388-429 | Escapes, a missing closing quote and a NUL from an escape are treated as specified. |
| `JsonClass.JsonParser.Parse` | backend/src/json/json.c:168-301 | The value and the place reached are the specified ones; the null result exactly where it says so. |
| `JsonClass.JsonParser.ParseObject` | backend/src/json/json.c:243-295 | The loop over the fields keeps them in order. |
| `JsonClass.JsonParse` | backend/src/json/json.c:112-119 | Constructing the parser and parsing is the specified function of the text. |
| `Models.RecordRoundTrip` | backend/src/models/models.c:433-457 | For any record of distinct plain keys: it conforms and every field is read as printed exactly on that domain. |
| `Models.IntReadBack` | backend/src/json/json.c:37-40 | The digits of a non-negative 64-bit integer are read as that integer. |
| `Models.UserRoundTrip` | backend/src/models/models.c:123-146 | Printing a User, parsing the text and reading the record (lines 459-480) gives the same record exactly when its integers are non-negative and its strings free of quotes and backslashes. |
| `Models.UserObject` | backend/src/models/models.c:123-146 | On that domain its text is the object with exactly the keys of the format string in order, each with its own field, said without the reader. |
| `Models.CoordRoundTrip` | backend/src/models/models.c:148-167 | Printing a Coord, parsing the text and reading the record (lines 482-499) gives the same record exactly when its integers are non-negative and its strings free of quotes and backslashes. |
| `Models.CoordObject` | backend/src/models/models.c:148-167 | On that domain its text is the object with exactly the keys of the format string in order, each with its own field, said without the reader. |
| `Models.ProductRoundTrip` | backend/src/models/models.c:169-194 | Printing a Product, parsing the text and reading the record (lines 501-524) gives the same record exactly when its integers are non-negative and its strings free of quotes and backslashes. |
| `Models.ProductObject` | backend/src/models/models.c:169-194 | On that domain its text is the object with exactly the keys of the format string in order, each with its own field, said without the reader. |
| `Models.ProductPriceRoundTrip` | backend/src/models/models.c:196-215 | Printing a ProductPrice, parsing the text and reading the record (lines 526-543) gives the same record exactly when its integers are non-negative and its strings free of quotes and backslashes. |
| `Models.ProductPriceObject` | backend/src/models/models.c:196-215 | On that domain its text is the object with exactly the keys of the format string in order, each with its own field, said without the reader. |
| `Models.UsersRegisterReqRoundTrip` | backend/src/models/models.c:279-298 | Printing a UsersRegisterReq, parsing the text and reading the record (lines 558-575) gives the same record exactly when its integers are non-negative and its strings free of quotes and backslashes. |
| `Models.UsersRegisterReqObject` | backend/src/models/models.c:279-298 | On that domain its text is the object with exactly the keys of the format string in order, each with its own field, said without the reader. |
| `Models.SessionsLoginReqRoundTrip` | backend/src/models/models.c:300-317 | Printing a SessionsLoginReq, parsing the text and reading the record (lines 577-592) gives the same record exactly when its integers are non-negative and its strings free of quotes and backslashes. |
| `Models.SessionsLoginReqObject` | backend/src/models/models.c:300-317 | On that domain its text is the object with exactly the keys of the format string in order, each with its own field, said without the reader. |
| `Models.ProductsCreateReqRoundTrip` | backend/src/models/models.c:382-405 | Printing a ProductsCreateReq, parsing the text and reading the record (lines 648-669) gives the same record exactly when its integers are non-negative and its strings free of quotes and backslashes. |
| `Models.ProductsCreateReqObject` | backend/src/models/models.c:382-405 | On that domain its text is the object with exactly the keys of the format string in order, each with its own field, said without the reader. |
| `Models.ProductsCoordsSetReqRoundTrip` | backend/src/models/models.c:407-426 | Printing a ProductsCoordsSetReq, parsing the text and reading the record (lines 670-689) gives the same record exactly when its integers are non-negative and its strings free of quotes and backslashes. |
| `Models.ProductsCoordsSetReqObject` | backend/src/models/models.c:407-426 | On that domain its text is the object with exactly the keys of the format string in order, each with its own field, said without the reader. |
| `Models.RecordObject` | backend/src/models/models.c:123-146 | The text of any record of good fields parses to the object with those keys and values, in order. |
| `Carts.PurchaseRead` | backend/src/models/models.c:594-631 | A cart purchase of any positive number of items, laid out in any way, is read with every item in order, each product with its amount. |
| `Carts.CartsPurchaseReqFromJson` | backend/src/models/models.c:594-631 | The loop over the items: succeeds exactly if there is an array `items` and all its items conform, and then gives the two numbers of each, in order. |

## Left out

- The type checker: what it refuses appears as `Plain` (every `let` has an initialiser that does not
  mention its own variable) and as faults (wrong arity, calling a word, arithmetic on addresses).
- Statement and declaration parsing, attributes, lexing by regular expressions, line numbers and error
  messages; an error is an exception, modelled as no result.
- Nested functions, and `not`, unary minus, `and`, `or`, `xor` in lowering: the compiler throws on them.
- Instruction text below LIR: the semantics keeps division, remainder and comparisons atomic, whereas
  the emitted `div` and `mod` leave their pushed operands behind and `setcc` writes one byte; a store
  of a constant wider than 32 bits has no encoding.
- `AsmProgram.MemoryByNames`: what a fresh frame holds counts as unset, as it does in LIR, and there
  is always room for one more frame. Of a program that divides or compares it says what the lines do,
  not what the text of those instructions does.
- `AsmWhole.BodyRoomy`: exact for the blocks that are left (`FunctionRoomy`), and in the source where
  nothing is cut off. Of statements that are, it depends on whether simplification drops their blocks:
  it does not where they go round in a loop with a branch in it (`CutLoopRoomy`). That some run then
  differs is shown for a family of programs, not for each: two values in one register may happen to be
  equal, or not be looked at again.
- The attributes: a function is external if it has `c_function`. The line generator looks at the first
  attribute only and the assembly generator at all, so that they differ where it is not the first.
- `AsmCalls.CFunctionReturns`: C functions are assumed to keep `rbp` and the words from it up.
- String interning: a string constant is its text.
- Slots of sizes other than 8 in generated functions: the line generator only asks for 8.
- `Workers.EveryRun`: sockets, thread cancellation and shutdown are left out, and mutex and condition
  variable are taken to do what POSIX says.
- `JsonTrees.TreeRoundTrip`: null is written `true` and false `null`, the words the parser reads as these.
  Memory ownership and allocation failure are left out, and buffers are read as C strings.
- `Models.RecordRoundTrip`: receipts are left out, since nothing reads them back.
- `json_float`, and numbers with points: lexed as the code does, never read.
- HTTP parsing, handlers, the database, sessions, hashing, the cart handler, receipts, `kv_map`, vectors: not part
  of this model.
- The `slige` compiler, the app, deployment: not part of this model.
