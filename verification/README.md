# A model of the LPJWS toy compiler's evaluation engine

The compiler turns a program in a small imperative language into LLVM IR.
Its parser reduces each grammar production to an AST node. A single `eval`
pass over the AST then does three things at once:

- builds a diagnostic parse tree;
- keeps a shared `ParserState`: variables, registered functions, and the two
  loop stacks `while_body` / `while_end`;
- lowers the program through an IR builder.

The Dafny project models that pass and the parser's reduction actions. It
proves the rules the code follows: errors on declaration and reassignment,
float-or-integer instruction selection decided by the left operand,
left-to-right sequencing, the LIFO loop stacks that `break`/`continue` use,
and the shape of the diagnostic tree.

The modules:

- `Ir` (`ir.dfy`) covers the IR.
  - Values carry only a type tag: `I8`, `F32`, `I1`, or `I8Ptr` for the
    pointer the format string is cast to.
  - The llvmlite builder becomes the class `IRBuilder`. It holds an
    append-only instruction log and a block counter.
  - It also defines the table of the two intrinsic routines.
- `Ast` (`ast.dfy`) covers the AST nodes, the operator and declaration
  tables, and the errors with their Python exception classes.
- `Diagnostics` (`diagnostics.dfy`) covers the diagnostic tree. It also
  holds the nested `program`/`block` chain that Program and Block build.
- `CompilerState` (`state.dfy`) covers the compiler state.
  - `ParserState` is a class whose methods update its two maps and two
    stacks in place.
  - `NotOperands` is the one field of the tree that evaluation writes and
    a later evaluation reads: `Not.eval` overwrites its node's operand with
    the operand's value. A
    `Not` node therefore carries an identity, and the state maps each
    evaluated `Not` node to the value now in its operand field.
  - `Ctx` is the value snapshot of the parser state together with the
    builder and the replaced `Not` operands.
- `Semantics` (`semantics.dfy`) specifies what each `eval` does, as pure
  functions on a `Ctx`. Each function returns the children the node
  appends, an outcome (a result, or an error raised), and the new state.
- `Lowering` (`lowering.dfy`) holds one imperative method per `eval`.
  - Each method updates a `ParserState`, an `IRBuilder` and the `Not`
    operands in place.
  - Each is proved to produce exactly what its `Semantics` function
    specifies.
  - Program/Block keep their statement loop.
- `Invariants` (`invariants.dfy`) proves two facts that every node
  preserves:
  - the slot invariant: each variable's `ptr` is the alloca of its declared
    type;
  - growth: the log only grows, and bindings keep their slot and type. A
    node that completes also puts its result value in the log and restores
    the loop stacks.
- `NodeProperties` (`properties.dfy`), `Sequencing` (`sequencing.dfy`) and
  `ControlFlow` (`controlflow.dfy`) hold the per-node rules, the
  left-to-right order of statements, and the conditional and loop scaffolds.
- `Reductions` (`parser.dfy`) holds the reduction actions of `parser.py`:
  - lowering mode (the AST node each production builds) and syntax mode
    (the labelled node list);
  - the operator tables;
  - the conversion of INTEGER literals;
  - the parse-error handler.
- `InputClassifier` (`input.dfy`) models the pattern `Input.eval` applies
  to what the console returns.

Behaviours of the code that are reproduced as written:

- A comparison evaluates its left operand twice, so its IR and its
  diagnostic children appear twice.
- `While` evaluates its condition twice into the same diagnostic node.
- `Not` overwrites its own operand with the operand's value. Evaluating the
  same `Not` node again raises AttributeError: so does a loop whose
  condition is a `not`, a comparison whose left operand is a `not`, and a
  second call of a function whose body contains a `not`.
- `Continue` appends the caption `BREAK`.
- A declaration appends `LET`.
- A function is registered when its node is reduced; the last declaration
  under a name wins.
- A call inlines the callee's block into the caller's state. An unknown
  name is a KeyError.
- A declaration whose value has the wrong type fails with a KeyError. The
  code means to raise LogicError, but building the message indexes the
  type table with a Python class, so the KeyError comes first.
- A value tagged `I1` fails the declaration check's table lookup.
- And/Or never short-circuit.
- A reassignment keeps the constructor's default `type_='INT'` and is
  never type-checked.

## Model

| member | source | states |
|---|---|---|
| Ast.DeclaredTypeOf | compiler/AbstractSyntaxTree.py:350-357 | the declaration check's table maps the i8 tag to INT and the float tag to FLT and has no entry for any other tag; a declared type maps back to its tag |
| Ir.Intrinsics | compiler/AbstractSyntaxTree.py:625-644 | exactly the keys 'sum' and 'sumf' are registered; 'sum' is the routine "sum", returning i8 with an integer add, and 'sumf' is the routine "fsum", returning float with a float add |
| Ir.IRBuilder.constructor | compiler/AbstractSyntaxTree.py:609-614 | a fresh builder has an empty log and no blocks |
| Ir.IRBuilder.Emit | compiler/AbstractSyntaxTree.py:360-362 | an instruction is appended at the end of the log, and its position is returned; the block count is unchanged |
| Ir.IRBuilder.AppendBlock | compiler/AbstractSyntaxTree.py:127-130 | a new block gets the next number, and the log is unchanged |
| CompilerState.ParserState.constructor | compiler/parser.py:7-12 | a fresh state has empty variables and functions and empty while_body/while_end stacks |
| CompilerState.ParserState.Bind | compiler/AbstractSyntaxTree.py:361 | a declaration records the binding under the name; functions and stacks are unchanged |
| CompilerState.ParserState.SetValue | compiler/AbstractSyntaxTree.py:376 | a reassignment overwrites only the value of the existing binding and keeps its type and slot |
| CompilerState.ParserState.RegisterFunction | compiler/AbstractSyntaxTree.py:198-203 | a declared function is entered under its name; a later declaration under the same name replaces it |
| CompilerState.ParserState.PushBody | compiler/AbstractSyntaxTree.py:127-128 | the loop's body block is pushed on while_body; nothing else changes |
| CompilerState.ParserState.PushEnd | compiler/AbstractSyntaxTree.py:129-130 | the loop's end block is pushed on while_end; nothing else changes |
| CompilerState.ParserState.PopBody | compiler/AbstractSyntaxTree.py:140 | the top of while_body is removed; nothing else changes |
| CompilerState.ParserState.PopEnd | compiler/AbstractSyntaxTree.py:141 | the top of while_end is removed; nothing else changes |
| Diagnostics.NestRoundTrip | compiler/AbstractSyntaxTree.py:26-37 | the chain Program/Block build from n statement parts gives back the same parts in order, with n-1 nested program/block nodes |
| Lowering.Eval | compiler/AbstractSyntaxTree.py:11-680 | evaluating any node in place yields the children, outcome, parser state and builder state that Semantics.Eval specifies |
| Lowering.EvalStructure | compiler/AbstractSyntaxTree.py:646-680 | Main, the wrappers and the control-flow nodes in place agree with their specification; each wrapper appends its captions and passes its child's outcome through |
| Lowering.EvalValue | compiler/AbstractSyntaxTree.py:288-298 | names, calls, intrinsics, constants and assignments in place agree with their specification; a constant appends const/INTEGER or const/FLOAT and returns an i8 or float constant |
| Lowering.EvalOperator | compiler/AbstractSyntaxTree.py:387-585 | operators and print in place agree with their specification |
| Lowering.EvalSeq | compiler/AbstractSyntaxTree.py:26-37 | the statement loop of Program/Block runs statements in list order from the state the previous one left, stops at the first error and returns the last result, as specified |
| Lowering.EvalIf | compiler/AbstractSyntaxTree.py:81-93 | the conditional in place takes three blocks and emits the if_else scaffold after the condition, as specified |
| Lowering.EvalOtherwise | compiler/AbstractSyntaxTree.py:91-108 | the else part in place runs the else branch, if any, closes the scaffold and returns None, as specified |
| Lowering.EvalWhile | compiler/AbstractSyntaxTree.py:119-135 | the loop in place appends and pushes the body and end blocks, branches on the condition and runs the body, as specified |
| Lowering.EvalLoopExit | compiler/AbstractSyntaxTree.py:136-147 | after the body, the loop re-evaluates the condition, branches, moves to the end block and pops both stacks, as specified |
| Lowering.EvalJump | compiler/AbstractSyntaxTree.py:156-169 | break/continue in place branch to the top of while_end/while_body, as specified |
| Lowering.EvalVariable | compiler/AbstractSyntaxTree.py:183-192 | a variable read in place loads from the binding's slot, or raises, as specified |
| Lowering.EvalCall | compiler/AbstractSyntaxTree.py:220-223 | a call in place evaluates the registered block in the caller's state, as specified |
| Lowering.EvalIntrinsic | compiler/AbstractSyntaxTree.py:251-279 | sumi/sumf in place evaluate both arguments and emit a call to the registered routine, as specified |
| Lowering.EvalAssignment | compiler/AbstractSyntaxTree.py:347-384 | a declaration or reassignment in place binds, stores or raises exactly as specified |
| Lowering.EvalArith | compiler/AbstractSyntaxTree.py:387-440 | arithmetic in place evaluates left then right and emits one instruction of the family the left tag selects, as specified |
| Lowering.EvalCompare | compiler/AbstractSyntaxTree.py:443-524 | a comparison in place evaluates left, right, then left again and emits one compare, as specified |
| Lowering.EvalLogical | compiler/AbstractSyntaxTree.py:527-546 | and/or in place evaluate both operands and emit one bitwise instruction, as specified |
| Lowering.EvalNot | compiler/AbstractSyntaxTree.py:556-561 | not in place evaluates its operand, overwrites the node's operand with the value and emits one bitwise not; a later evaluation of the same node raises, as specified |
| Lowering.EvalPrint | compiler/AbstractSyntaxTree.py:572-585 | print in place casts the format global and calls printf with the value; print() emits nothing, as specified |
| Invariants.Unwrap | compiler/AbstractSyntaxTree.py:646-680 | the child a wrapper node evaluates is structurally smaller than the wrapper |
| Invariants.InitialWf | compiler/parser.py:7-12 | the empty starting state satisfies the slot invariant |
| Invariants.ExtendsTrans | compiler/AbstractSyntaxTree.py:26-37 | "a later state" is transitive, so successive statements compose |
| Invariants.WfGrow | compiler/AbstractSyntaxTree.py:360-362 | appending to the log without rebinding keeps every slot valid |
| Invariants.EvalWf | compiler/AbstractSyntaxTree.py:11-680 | every node, whether it completes or raises, leaves each variable's ptr pointing at an alloca of its declared type under its name |
| Invariants.StructureWf | compiler/AbstractSyntaxTree.py:646-680 | Main, the wrappers and the control-flow nodes keep the slot invariant |
| Invariants.OperationWf | compiler/AbstractSyntaxTree.py:387-585 | operators and print keep the slot invariant |
| Invariants.ValueWf | compiler/AbstractSyntaxTree.py:183-298 | names, calls, intrinsics and constants keep the slot invariant |
| Invariants.SeqWf | compiler/AbstractSyntaxTree.py:26-37 | Program/Block keep the slot invariant across all their statements |
| Invariants.IfWf | compiler/AbstractSyntaxTree.py:81-108 | the conditional keeps the slot invariant |
| Invariants.OtherwiseWf | compiler/AbstractSyntaxTree.py:88-95 | the else part keeps the slot invariant |
| Invariants.WhileWf | compiler/AbstractSyntaxTree.py:119-135 | the loop keeps the slot invariant |
| Invariants.LoopExitWf | compiler/AbstractSyntaxTree.py:136-141 | the loop exit keeps the slot invariant |
| Invariants.CallWf | compiler/AbstractSyntaxTree.py:220-223 | an inlined call keeps the slot invariant |
| Invariants.IntrinsicWf | compiler/AbstractSyntaxTree.py:251-279 | sumi/sumf keep the slot invariant |
| Invariants.AssignmentWf | compiler/AbstractSyntaxTree.py:347-384 | a declaration or reassignment keeps the slot invariant |
| Invariants.DeclareWf | compiler/AbstractSyntaxTree.py:360-362 | a declaration whose slot is the alloca it appends, followed by a store, keeps the slot invariant |
| Invariants.ReassignWf | compiler/AbstractSyntaxTree.py:376-378 | overwriting a binding's value and storing to its slot keeps the slot invariant |
| Invariants.OperatorWf | compiler/AbstractSyntaxTree.py:387-546 | arithmetic and and/or keep the slot invariant |
| Invariants.CompareWf | compiler/AbstractSyntaxTree.py:443-524 | comparisons keep the slot invariant |
| Invariants.NotWf | compiler/AbstractSyntaxTree.py:556-561 | not keeps the slot invariant |
| Invariants.PrintWf | compiler/AbstractSyntaxTree.py:572-585 | print keeps the slot invariant |
| Invariants.EvalGrows | compiler/AbstractSyntaxTree.py:11-680 | every node only appends to the log and blocks, keeps the function table and every existing binding's slot and type; one that completes returns a value already in the log and leaves both loop stacks as they were |
| Invariants.StructureGrows | compiler/AbstractSyntaxTree.py:646-680 | Main, the wrappers and the control-flow nodes only grow the state |
| Invariants.OperationGrows | compiler/AbstractSyntaxTree.py:387-585 | operators and print only grow the state |
| Invariants.ValueGrows | compiler/AbstractSyntaxTree.py:183-298 | names, calls, intrinsics and constants only grow the state |
| Invariants.SeqGrows | compiler/AbstractSyntaxTree.py:26-37 | Program/Block only grow the state |
| Invariants.IfGrows | compiler/AbstractSyntaxTree.py:81-108 | the conditional only grows the state and, when it completes, leaves the loop stacks as they were |
| Invariants.OtherwiseGrows | compiler/AbstractSyntaxTree.py:88-95 | the else part only grows the state |
| Invariants.WhileGrows | compiler/AbstractSyntaxTree.py:119-147 | a completed loop pops exactly what it pushed, so both loop stacks are restored |
| Invariants.LoopExitGrows | compiler/AbstractSyntaxTree.py:136-141 | the loop exit only grows the state and, when it completes, has popped one entry off each stack |
| Invariants.IntrinsicGrows | compiler/AbstractSyntaxTree.py:251-279 | sumi/sumf only grow the state, and their call's result is in the log |
| Invariants.AssignmentGrows | compiler/AbstractSyntaxTree.py:347-384 | a declaration adds a binding and a reassignment keeps slot and type, so existing bindings are kept |
| Invariants.OperatorGrows | compiler/AbstractSyntaxTree.py:387-546 | arithmetic and and/or only grow the state |
| Invariants.CompareGrows | compiler/AbstractSyntaxTree.py:443-524 | comparisons only grow the state |
| NodeProperties.OpcodeFamilies | compiler/AbstractSyntaxTree.py:393-439 | for each operator, the float instruction belongs to the float family and the integer one does not |
| NodeProperties.DeclareUnbound | compiler/AbstractSyntaxTree.py:351-363 | declaring an unbound name appends LET, IDENTIFIER, =, expression and then evaluates the right side. The value gets an alloca, a binding and a store exactly when its tag matches the declared type. A mismatch raises KeyError, and an i1 or pointer value fails the lookup. A failure leaves the state as the right side left it |
| NodeProperties.DeclareFreshSlot | compiler/AbstractSyntaxTree.py:360-361 | the slot a declaration allocates lies after every existing variable's slot |
| NodeProperties.DeclareBound | compiler/AbstractSyntaxTree.py:352-365 | declaring a bound name raises ImmutableError with no children, no evaluation of the right side and no change of state |
| NodeProperties.ReassignBound | compiler/AbstractSyntaxTree.py:366-378 | reassigning a bound name appends IDENTIFIER, =, expression, overwrites only the value, keeps type and slot, stores to that slot and checks no type; it fails only when the right side does |
| NodeProperties.AssignmentRejected | compiler/AbstractSyntaxTree.py:379-384 | reassigning an unbound name, or assigning to a target that is not a variable, raises LogicError with no children and no change of state |
| NodeProperties.ReadVariable | compiler/AbstractSyntaxTree.py:183-192 | a bound name loads from its recorded slot, and the load has the tag of that slot's alloca; an unbound name appends the error caption and raises LogicError with no change of state |
| NodeProperties.ArithSelection | compiler/AbstractSyntaxTree.py:387-440 | the left operand completes before the right one starts; the float instruction is emitted exactly when the left value is a float; the result carries the left value's tag; a non-IR left operand raises AttributeError once both operands complete |
| NodeProperties.CompareSelection | compiler/AbstractSyntaxTree.py:443-524 | left, right, then left again are evaluated into the same left node; fcmp_ordered is emitted exactly when the re-evaluated left is a float, otherwise icmp_signed, with the diagnostic operator as predicate |
| NodeProperties.CompareLoadsLeftTwice | compiler/AbstractSyntaxTree.py:447-450 | a comparison whose left operand is a bound variable loads it first and, whatever the right operand, loads it again from the same slot right after the right operand's code when that completes; the comparison completes exactly when the right operand does |
| NodeProperties.LogicalNoShortCircuit | compiler/AbstractSyntaxTree.py:527-546 | and/or evaluate the right operand whenever the left completes and emit one bitwise and/or of both values |
| NodeProperties.NotLowering | compiler/AbstractSyntaxTree.py:556-561 | the first evaluation of a not node appends Not and expression, overwrites the node's operand with the operand's value and emits one bitwise not of it; any later evaluation of the same node raises AttributeError and changes nothing |
| NodeProperties.NotOnLeftRaises | compiler/AbstractSyntaxTree.py:443-454 | a comparison whose left operand is a not never completes: the second evaluation of the left operand raises AttributeError when nothing raised before it |
| NodeProperties.CallInlines | compiler/AbstractSyntaxTree.py:220-223 | a call of a registered name evaluates that block in the caller's state under a "name ( )" node; an unknown name raises KeyError without any change |
| NodeProperties.IntrinsicCalls | compiler/AbstractSyntaxTree.py:251-279 | sumi calls the routine 'sum' and sumf calls 'fsum', with the two argument values in order |
| NodeProperties.PrintLowering | compiler/AbstractSyntaxTree.py:572-585 | print(e) bitcasts the format global to i8* and calls printf with the cast, then the value; print() appends PRINT ( ) and no IR |
| NodeProperties.ConstantTags | compiler/AbstractSyntaxTree.py:288-298 | a literal emits nothing, appends const over an INTEGER or FLOAT node holding the literal's value, and returns a constant whose tag passes the declaration check for INT (integer) or FLT (float) |
| NodeProperties.DeclarationEval | compiler/AbstractSyntaxTree.py:205-208 | evaluating a function declaration appends FUNCTION, its name, {, block, } and returns the declaration without touching the state |
| NodeProperties.JumpTargets | compiler/AbstractSyntaxTree.py:156-169 | break branches to the top of while_end and continue to the top of while_body; both append BREAK and leave the stacks alone, and an empty stack raises IndexError |
| Sequencing.RunStatements | compiler/AbstractSyntaxTree.py:26-37 | a head-first run of a statement list has at most one part per statement, and exactly one per statement when all complete |
| Sequencing.EvalSeqRuns | compiler/AbstractSyntaxTree.py:26-37 | the Program/Block loop equals the head-first run of the remaining statements, each in the state the previous one left |
| Sequencing.RunSnoc | compiler/AbstractSyntaxTree.py:26-37 | running one more statement is running the list and then, if nothing raised, that statement in the state the list left |
| Sequencing.BlockRuns | compiler/AbstractSyntaxTree.py:57-69 | a block ends in the state and with the outcome of the head-first run of its statements |
| Sequencing.RunAppend | compiler/AbstractSyntaxTree.py:26-37 | running two lists one after the other is running the first and then, if nothing raised, the second from the state the first left |
| Sequencing.RunGrows | compiler/AbstractSyntaxTree.py:26-37 | a run of statements only grows the state, and a completed run leaves both loop stacks as it found them |
| Sequencing.SequenceShape | compiler/AbstractSyntaxTree.py:26-69 | a program or block whose statements all complete returns what the run returns. Its chain holds each statement's children under its own statement_full node, in order, with n-1 nested program/block nodes |
| Sequencing.LastResult | compiler/AbstractSyntaxTree.py:27-37 | a completed program or block returns its last statement's result |
| ControlFlow.OtherwiseShape | compiler/AbstractSyntaxTree.py:88-102 | a completed else part returns None and leaves the loop stacks alone; it closes the scaffold last, at the end block, and adds else { block } exactly when there is an else branch |
| ControlFlow.ThenShape | compiler/AbstractSyntaxTree.py:86-108 | after the condition, a completed then branch moves to the else block and the else part follows; a completed conditional returns None, closes the scaffold last and keeps the stacks |
| ControlFlow.IfShape | compiler/AbstractSyntaxTree.py:81-108 | a failing condition stops the node after IF ( expression ). Otherwise three fresh blocks are taken and the if_else scaffold follows the condition's code. A completed conditional returns None, ends with the scaffold's close, keeps the stacks and has 7 or 11 children |
| ControlFlow.LoopExit | compiler/AbstractSyntaxTree.py:136-141 | with both stacks non-empty, the loop exit completes exactly when the repeated condition does. It then emits cbranch(cond, body, end) and positions at the end block, and pops one entry off each stack |
| ControlFlow.WhileLoop | compiler/AbstractSyntaxTree.py:119-147 | the body runs with the loop's blocks on top of both stacks, after cbranch and position; the loop completes exactly when the second condition does, returns None and restores both stacks |
| ControlFlow.WhileConditionRaised | compiler/AbstractSyntaxTree.py:119-122 | a loop whose condition raises stops after WHILE ( expression ) in the state the condition left |
| ControlFlow.NotConditionRaises | compiler/AbstractSyntaxTree.py:119-136 | a loop whose condition is a not never completes: after a completed body the condition's second evaluation raises AttributeError |
| ControlFlow.JumpStatement | compiler/AbstractSyntaxTree.py:156-169 | a break/continue statement inside a loop completes after a single branch to the innermost end/body block |
| ControlFlow.JumpFirst | compiler/AbstractSyntaxTree.py:156-169 | in statements starting with a break/continue, its branch to the innermost end/body block comes first, whatever follows |
| ControlFlow.BodyJump | compiler/AbstractSyntaxTree.py:57-69 | a block whose statements before a break/continue complete has that jump's branch right where their code ends |
| ControlFlow.InnermostTarget | compiler/AbstractSyntaxTree.py:119-169 | a break/continue at the top level of a loop's body, after statements that complete, branches to that loop's own end/body block right where their code ends. That block is fresh, so it is not on either stack of the enclosing loops |
| Reductions.ArithTable | compiler/parser.py:158-180 | SUM, SUB, MUL and DIV select Sum, Sub, Mul and Div, one to one; every other token selects nothing |
| Reductions.RelTable | compiler/parser.py:182-224 | ==, !=, >=, <=, >, <, AND and OR select their node, one to one; every other token selects nothing |
| Reductions.DigitsText | compiler/parser.py:274-278 | the decimal spelling of a natural number is a non-empty digit string |
| Reductions.DigitsRoundTrip | compiler/AbstractSyntaxTree.py:308 | reading back the digits of a natural number gives the number |
| Reductions.UnsignedValue | compiler/AbstractSyntaxTree.py:308 | int() of a digit string is its decimal value |
| Reductions.NegatedValue | compiler/AbstractSyntaxTree.py:308 | int() of a minus sign and digits is the negated value |
| Reductions.DecimalRoundTrip | compiler/AbstractSyntaxTree.py:308 | int(str(n)) == n for every integer n |
| Reductions.Prepend | compiler/AbstractSyntaxTree.py:12-49 | a Program/Block constructor puts the new statement first, followed by an existing node's list, or makes a one-element list |
| Reductions.LowerFails | compiler/parser.py:158-278 | a lowering-mode action fails exactly on an operator token outside its table, with LogicError('Unknown operator'), or on INTEGER text int() rejects, with ValueError |
| Reductions.AssignmentReductions | compiler/parser.py:129-144 | INT/FLT IDENTIFIER = e yields a new-variable Assignment with the keyword's type; IDENTIFIER = e yields a reassignment with the default type INT; both target the identifier's Variable |
| Reductions.OperatorReductions | compiler/parser.py:158-224 | each arithmetic, comparison and logical token yields the node it names, with the operands in order |
| Reductions.ReduceListInOrder | compiler/parser.py:55-96 | however many statements, the right-recursive reductions build a Program/Block whose list is the statements in source order |
| Reductions.SyntaxFails | compiler/parser.py:158-224 | syntax mode fails exactly where lowering mode rejects an operator token, with the same error |
| Reductions.SyntaxShape | compiler/parser.py:49-278 | every accepted syntax-mode action returns one node per right-hand-side symbol, except that SUMI/SUMF return only IDENTIFIER ( ). IF ... ELSE ends ELSE { block } |
| Reductions.Reduce | compiler/parser.py:146-150 | running an action returns its lowering-mode node; only the FUNCTION action changes the state, by registering the block under the identifier |
| Reductions.OnParseError | compiler/parser.py:280-282 | a token the parser cannot shift raises ValueError carrying that token |
| InputClassifier.Classify | compiler/AbstractSyntaxTree.py:602-606 | the classifier returns the console text itself, as a number or as text |
| InputClassifier.SkipDigits | compiler/AbstractSyntaxTree.py:603 | digits keep the scanner in the whole or fraction part |
| InputClassifier.FractionParts | compiler/AbstractSyntaxTree.py:603 | what the scanner accepts after the dot is digits and at most one final newline |
| InputClassifier.WholeParts | compiler/AbstractSyntaxTree.py:603 | what the scanner accepts in the whole part is digits, an optional fraction and at most one final newline |
| InputClassifier.WholeFrom | compiler/AbstractSyntaxTree.py:603 | a digit followed by an accepted whole part splits into the pattern's digits, fraction and end |
| InputClassifier.ScanSound | compiler/AbstractSyntaxTree.py:603 | every text the scanner accepts has the pattern's form |
| InputClassifier.FractionAccepted | compiler/AbstractSyntaxTree.py:603 | an optional fraction and end are accepted after the whole part |
| InputClassifier.ScanComplete | compiler/AbstractSyntaxTree.py:603 | every text of the pattern's form is accepted |
| InputClassifier.ClassifyMatches | compiler/AbstractSyntaxTree.py:602-606 | the input becomes a number exactly when it matches ^-?\d+(\.\d+)?$, with $ also matching before a final newline |

## Left out

- The llvmlite builder is an instruction log and a block counter. Real IR
  types, the textual IR and the builder's own checks are not modelled.
  The one exception is the `.type` the nodes themselves read: a non-IR
  left operand of an arithmetic or logical operator, a non-IR re-evaluated
  left operand of a comparison and a non-IR operand of Not raise
  AttributeError. The builder's own checks are left out, so these cases
  complete in the model:
  - a non-IR right operand;
  - a non-IR argument of sumi/sumf;
  - operand types that differ;
  - a second terminator in one block. For example, a loop whose body
    ends in a top-level break/continue gets the loop's second `cbranch`
    in an already-terminated block. llvmlite is not part of this model,
    so whether its terminator assertion rejects that is not captured.
- `Ir.IntConst`: integer constants keep the unbounded value. The 8-bit
  wrap-around of `ir.Constant(ir.IntType(8), ...)` is not modelled, because
  no property depends on the constant's bits.
- Floats are a tag plus their literal text. No float arithmetic or
  conversion is modelled.
- The `if_else` context manager's mechanics are reduced to three markers:
  `IfElse(cond, then, else, end)`, `Otherwise(else)` and `EndIf(end)`.
- Host I/O is left out:
  - Print with no argument calls Python's `print()`;
  - `Input` reads the console with `input()` and converts matches with
    `float()`.
  
  Only the classification pattern is modelled. `Input` has no grammar
  production and no AST case here.
- `InputClassifier.IsDigit`: only ASCII digits count. Python's `\d` also
  accepts other Unicode decimal digits.
- `Reductions.DecimalValue` accepts an optional sign and ASCII digits.
  Python's `int()` also accepts surrounding whitespace and underscores,
  which the lexer's INTEGER tokens do not contain.
- `Reductions.Lower`: object identity is not allocated by the model. The
  identity of the node a NOT action builds is part of that reduction.
- The rply parser generator, the precedence table and LR parsing are a
  foreign library. Each reduction action is modelled on the values of its
  right-hand side.
- The lexer, the JSON serialisation of the diagnostic tree and `main.py` are
  I/O drivers and are not part of this model.
- The contents of the printf format string and the module globals
  `global_fmt`/`fnctns` are left out. The model keeps only that 'sum' and
  'sumf' are registered and called.
- The `to_string` methods are not used by `eval` and are not modelled.
- `String` cannot be constructed, because its constructor passes too few
  arguments to `Constant.__init__`. It is therefore not an AST case.
- Python's recursion limit on inlined calls becomes a `fuel` bound. A call
  with no fuel left raises `RecursionLimit`.
- Program and Block build their statement list with `insert(0, ...)` on a
  list shared with the inner node. The model prepends to a value, so it
  does not capture the aliasing.
- Evaluation also writes `Variable.value` and `Sumi`/`Sumf`'s
  `value`/`value2`. Only `to_string` reads those fields, so they are not
  modelled.
- `ControlFlow.InnermostTarget`: that the loop stacks hold only existing
  blocks is taken as a precondition (`StacksBelow`), not kept as an
  invariant of every node.
- `ControlFlow.InnermostTarget`: covers a break/continue at the top level
  of the loop's body. One nested inside an `If` branch or after an inner
  loop in that body is not covered by a lemma here.
