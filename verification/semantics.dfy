/**
 * What one `eval(node)` call does, as a function of the node and the state
 * before it: the children it appends to `node`, the value it returns or the
 * exception it raises, and the state (tables, loop stacks, IR log, blocks)
 * after it. The source appends each production's structure before it
 * evaluates the sub-nodes, so a run stopped by an exception leaves that
 * structure with the sub-nodes partly filled; the functions below build
 * exactly that partial tree.
 *
 * `fuel` bounds the depth of nested inline calls (CallFunction), standing in
 * for the host's recursion limit.
 */
module Semantics {
  import opened Ir
  import opened Ast
  import opened Diagnostics
  import opened CompilerState

  datatype Step = Step(kids: seq<Tree>, outcome: Outcome, ctx: Ctx)

  function SeqLabel(e: Ast): string
    requires e.Program? || e.Block?
  {
    if e.Program? then "program" else "block"
  }

  /** Node kinds whose eval reads or writes a value: variables, calls,
      constants and assignments. */
  predicate IsValueNode(e: Ast)
  {
    e.Variable? || e.CallFunction? || e.Sumi? || e.Sumf? || e.Integer? || e.Float? || e.Assignment?
  }

  /** Node kinds whose eval lowers an operator or a print. */
  predicate IsOperatorNode(e: Ast)
  {
    e.Arith? || e.Compare? || e.And? || e.Or? || e.Not? || e.Print?
  }

  function Eval(e: Ast, s: Ctx, fuel: nat): Step
    decreases fuel, e, 2, 0
  {
    if IsValueNode(e) then EvalValue(e, s, fuel)
    else if IsOperatorNode(e) then EvalOperator(e, s, fuel)
    else EvalStructure(e, s, fuel)
  }

  /** Programs, blocks, control flow, declarations and the wrapper nodes. */
  function EvalStructure(e: Ast, s: Ctx, fuel: nat): Step
    requires !IsValueNode(e) && !IsOperatorNode(e)
    decreases fuel, e, 1, 0
  {
    match e
    case MainProgram(p) =>
      var r := Eval(p, s, fuel);
      Step([Labelled("program", r.kids)], r.outcome, r.ctx)
    case Program(_) => EvalSeq(e, 0, s, fuel, [], NoneResult)
    case Block(_) => EvalSeq(e, 0, s, fuel, [], NoneResult)
    case If(_, _, _) => EvalIf(e, s, fuel)
    case While(_, _) => EvalWhile(e, s, fuel)
    case Break => EvalJump(e, s)
    case Continue => EvalJump(e, s)
    case FunctionDeclaration(name, _) =>
      Step([Leaf("FUNCTION"), Leaf(name), Leaf("{"), Leaf("block"), Leaf("}")], Done(FunctionObject(name)), s)
    case ExpressParenthesis(x) =>
      var r := Eval(x, s, fuel);
      Step([Leaf("("), Expr(r.kids), Leaf(")")], r.outcome, r.ctx)
    case StatementFull(x) =>
      var r := Eval(x, s, fuel);
      Step([Labelled("statement", r.kids), Leaf(";")], r.outcome, r.ctx)
    case Statement(x) =>
      var r := Eval(x, s, fuel);
      Step([Expr(r.kids)], r.outcome, r.ctx)
  }

  function EvalValue(e: Ast, s: Ctx, fuel: nat): Step
    requires IsValueNode(e)
    decreases fuel, e, 1, 0
  {
    match e
    case Variable(_) => EvalVariable(e, s)
    case CallFunction(_) => EvalCall(e, s, fuel)
    case Sumi(_, _) => EvalIntrinsic(e, s, fuel)
    case Sumf(_, _) => EvalIntrinsic(e, s, fuel)
    case Integer(n) =>
      Step([Labelled("const", [Labelled("INTEGER", [Node(IntValue(n), [])])])], Done(IrValue(IntConst(n))), s)
    case Float(t) =>
      Step([Labelled("const", [Labelled("FLOAT", [Node(FloatValue(t), [])])])], Done(IrValue(FloatConst(t))), s)
    case Assignment(_, _, _, _) => EvalAssignment(e, s, fuel)
  }

  function EvalOperator(e: Ast, s: Ctx, fuel: nat): Step
    requires IsOperatorNode(e)
    decreases fuel, e, 1, 0
  {
    match e
    case Arith(_, _, _) => EvalArith(e, s, fuel)
    case Compare(_, _, _) => EvalCompare(e, s, fuel)
    case And(_, _) => EvalLogical(e, s, fuel)
    case Or(_, _) => EvalLogical(e, s, fuel)
    case Not(_, _) => EvalNot(e, s, fuel)
    case Print(_) => EvalPrint(e, s, fuel)
  }

  /** Program/Block: statements i.. of `e`, with the children of the earlier
      ones in `parts` and the last result in `last`. */
  function EvalSeq(e: Ast, i: nat, s: Ctx, fuel: nat, parts: seq<seq<Tree>>, last: EvalResult): Step
    requires e.Program? || e.Block?
    requires i <= |e.stmts|
    decreases fuel, e, 0, |e.stmts| - i
  {
    if i == |e.stmts| then Step(Nest(SeqLabel(e), parts, |e.stmts|), Done(last), s)
    else
      var r := Eval(e.stmts[i], s, fuel);
      var ps := parts + [r.kids];
      if r.outcome.Raised? then Step(Nest(SeqLabel(e), ps, |e.stmts|), r.outcome, r.ctx)
      else EvalSeq(e, i + 1, r.ctx, fuel, ps, r.outcome.result)
  }

  function EvalIf(e: Ast, s: Ctx, fuel: nat): Step
    requires e.If?
    decreases fuel, e, 0, 1
  {
    var c := Eval(e.cond, s, fuel);
    var head := [Leaf("IF"), Leaf("("), Expr(c.kids), Leaf(")")];
    if c.outcome.Raised? then Step(head, c.outcome, c.ctx)
    else
      var n := c.ctx.blocks;
      var c1 := Emit(c.ctx.(blocks := n + 3), IfElse(c.outcome.result, n, n + 1, n + 2));
      var t := Eval(e.body, c1, fuel);
      var thenPart := head + [Leaf("{"), Labelled("block", t.kids), Leaf("}")];
      if t.outcome.Raised? then Step(thenPart, t.outcome, t.ctx)
      else EvalOtherwise(e, thenPart, Emit(t.ctx, Otherwise(n + 1)), n + 2, fuel)
  }

  /** The rest of an If once the then-branch has completed and the cursor has
      moved to the else block: the else branch, if any, then the end block. */
  function EvalOtherwise(e: Ast, kids: seq<Tree>, s: Ctx, endBlock: BlockId, fuel: nat): Step
    requires e.If?
    decreases fuel, e, 0, 0
  {
    match e.elseBody
    case None => Step(kids, Done(NoneResult), Emit(s, EndIf(endBlock)))
    case Some(eb) =>
      var o := Eval(eb, s, fuel);
      if o.outcome.Raised? then Step(kids, o.outcome, o.ctx)
      else Step(kids + [Leaf("else"), Leaf("{"), Labelled("block", o.kids), Leaf("}")],
                Done(NoneResult), Emit(o.ctx, EndIf(endBlock)))
  }

  function EvalWhile(e: Ast, s: Ctx, fuel: nat): Step
    requires e.While?
    decreases fuel, e, 0, 1
  {
    var c := Eval(e.cond, s, fuel);
    if c.outcome.Raised? then Step([Leaf("WHILE"), Leaf("("), Expr(c.kids), Leaf(")")], c.outcome, c.ctx)
    else
      var n := c.ctx.blocks;
      var c1 := c.ctx.(blocks := n + 2, whileBody := c.ctx.whileBody + [n], whileEnd := c.ctx.whileEnd + [n + 1],
                       log := c.ctx.log + [CBranch(c.outcome.result, n, n + 1), PositionAt(n)]);
      var b := Eval(e.body, c1, fuel);
      if b.outcome.Raised? then
        Step([Leaf("WHILE"), Leaf("("), Expr(c.kids), Leaf(")"), Leaf("{"), Labelled("block", b.kids), Leaf("}")],
             b.outcome, b.ctx)
      else EvalLoopExit(e, c.kids, b.kids, b.ctx, n, n + 1, fuel)
  }

  /** The rest of a While once its body has completed: the condition again,
      its branch, the cursor at the end block and both loop stacks popped. */
  function EvalLoopExit(e: Ast, condKids: seq<Tree>, bodyKids: seq<Tree>, s: Ctx,
                        bodyBlock: BlockId, endBlock: BlockId, fuel: nat): Step
    requires e.While?
    decreases fuel, e, 0, 0
  {
    var c2 := Eval(e.cond, s, fuel);
    // the condition is evaluated a second time into the same node
    var kids := [Leaf("WHILE"), Leaf("("), Expr(condKids + c2.kids), Leaf(")"),
                 Leaf("{"), Labelled("block", bodyKids), Leaf("}")];
    if c2.outcome.Raised? then Step(kids, c2.outcome, c2.ctx)
    else
      var c3 := c2.ctx.(log := c2.ctx.log + [CBranch(c2.outcome.result, bodyBlock, endBlock), PositionAt(endBlock)]);
      if |c3.whileBody| == 0 then Step(kids, Raised(EmptyLoopStack), c3)
      else
        var c4 := c3.(whileBody := c3.whileBody[..|c3.whileBody| - 1]);
        if |c4.whileEnd| == 0 then Step(kids, Raised(EmptyLoopStack), c4)
        else Step(kids, Done(NoneResult), c4.(whileEnd := c4.whileEnd[..|c4.whileEnd| - 1]))
  }

  /** Break branches to the innermost loop's end block, Continue to its body
      block; both append the caption "BREAK". */
  function EvalJump(e: Ast, s: Ctx): Step
    requires e.Break? || e.Continue?
  {
    var stack := if e.Break? then s.whileEnd else s.whileBody;
    if |stack| == 0 then Step([Leaf("BREAK")], Raised(EmptyLoopStack), s)
    else Step([Leaf("BREAK")], Done(NoneResult), Emit(s, Branch(stack[|stack| - 1])))
  }

  function EvalVariable(e: Ast, s: Ctx): Step
    requires e.Variable?
  {
    if e.name in s.variables then
      var b := s.variables[e.name];
      Step([Labelled("IDENTIFIER", [Node(Text(e.name), [Node(ValueOf(b.value), [])])])],
           Done(IrValue(Instruction(SlotTag(b.declType), |s.log|))),
           Emit(s, Load(b.ptr, e.name)))
    else
      Step([Labelled("IDENTIFIER", [Leaf("Unknown name: <" + e.name + "> is not defined")])],
           Raised(UnknownName(e.name)), s)
  }

  /** A call expands the callee's block in place: same state, same cursor. */
  function EvalCall(e: Ast, s: Ctx, fuel: nat): Step
    requires e.CallFunction?
    decreases fuel, e, 0, 0
  {
    var caption := e.name + " ( )";
    if e.name !in s.functions then Step([Labelled(caption, [])], Raised(UnknownFunction(e.name)), s)
    else if fuel == 0 then Step([Labelled(caption, [])], Raised(RecursionLimit), s)
    else
      var r := Eval(s.functions[e.name], s, fuel - 1);
      Step([Labelled(caption, r.kids)], r.outcome, r.ctx)
  }

  /** sumi/sumf: a genuine call of the routine registered at start-up. */
  function EvalIntrinsic(e: Ast, s: Ctx, fuel: nat): Step
    requires e.Sumi? || e.Sumf?
    decreases fuel, e, 0, 0
  {
    var f := if e.Sumi? then Intrinsics()["sum"] else Intrinsics()["sumf"];
    var a := Eval(e.left, s, fuel);
    if a.outcome.Raised? then
      Step([Leaf(if e.Sumi? then "CALLSUMI" else "CALLSUMF"), Leaf("("), Expr(a.kids), Leaf(","), Expr([]), Leaf(")")],
           a.outcome, a.ctx)
    else
      var b := Eval(e.right, a.ctx, fuel);
      var kids := [Leaf(if e.Sumi? then "CALLSUMI" else "CALLSUMF"), Leaf("("), Expr(a.kids), Leaf(","), Expr(b.kids), Leaf(")")];
      if b.outcome.Raised? then Step(kids, b.outcome, b.ctx)
      else Step(kids, Done(IrValue(Instruction(f.resultTag, |b.ctx.log|))),
                Emit(b.ctx, Call(f.irName, [a.outcome.result, b.outcome.result])))
  }

  function EvalAssignment(e: Ast, s: Ctx, fuel: nat): Step
    requires e.Assignment?
    decreases fuel, e, 0, 0
  {
    if !e.target.Variable? then Step([], Raised(NotAssignable), s)
    else
      var x := e.target.name;
      if e.isNew then
        if x in s.variables then Step([], Raised(Immutable(x)), s)
        else
          var r := Eval(e.rhs, s, fuel);
          var kids := [Leaf("LET"), Labelled("IDENTIFIER", [Leaf(x)]), Leaf("="), Expr(r.kids)];
          if r.outcome.Raised? then Step(kids, r.outcome, r.ctx)
          else match r.outcome.result
            case IrValue(v) =>
              (match DeclaredTypeOf(TagOf(v))
               case None => Step(kids, Raised(UnknownTypeTag), r.ctx)
               case Some(t) =>
                 if t != e.declType then Step(kids, Raised(MismatchMessage), r.ctx)
                 else
                   var p := |r.ctx.log|;
                   var c := r.ctx.(variables := r.ctx.variables[x := Binding(IrValue(v), e.declType, p)],
                                   log := r.ctx.log + [Alloca(TagOf(v), x), Store(IrValue(v), p)]);
                   Step(kids, Done(VariablesDict), c))
            case _ => Step(kids, Raised(NoTypeAttribute), r.ctx)
      else
        if x !in s.variables then Step([], Raised(UndefinedVariable(x)), s)
        else
          var r := Eval(e.rhs, s, fuel);
          var kids := [Labelled("IDENTIFIER", [Leaf(x)]), Leaf("="), Expr(r.kids)];
          if r.outcome.Raised? then Step(kids, r.outcome, r.ctx)
          else if x !in r.ctx.variables then Step(kids, Raised(MissingVariableKey(x)), r.ctx)
          else
            var b := r.ctx.variables[x];
            var c := r.ctx.(variables := r.ctx.variables[x := b.(value := r.outcome.result)],
                            log := r.ctx.log + [Store(r.outcome.result, b.ptr)]);
            Step(kids, Done(VariablesDict), c)
  }

  /** Sum/Sub/Mul/Div: the left operand's tag picks the instruction family. */
  function EvalArith(e: Ast, s: Ctx, fuel: nat): Step
    requires e.Arith?
    decreases fuel, e, 0, 0
  {
    var l := Eval(e.left, s, fuel);
    if l.outcome.Raised? then Step([Expr(l.kids), Leaf(ArithSymbol(e.op)), Expr([])], l.outcome, l.ctx)
    else
      var r := Eval(e.right, l.ctx, fuel);
      var kids := [Expr(l.kids), Leaf(ArithSymbol(e.op)), Expr(r.kids)];
      if r.outcome.Raised? then Step(kids, r.outcome, r.ctx)
      else match l.outcome.result
        case IrValue(v) =>
          var code := if TagOf(v) == F32 then FloatOpcode(e.op) else IntOpcode(e.op);
          Step(kids, Done(IrValue(Instruction(TagOf(v), |r.ctx.log|))),
               Emit(r.ctx, BinOp(code, l.outcome.result, r.outcome.result)))
        case _ => Step(kids, Raised(NoTypeAttribute), r.ctx)
  }

  /** The six comparisons: left, right, then left once more to read its tag. */
  function EvalCompare(e: Ast, s: Ctx, fuel: nat): Step
    requires e.Compare?
    decreases fuel, e, 0, 0
  {
    var sym := CmpSymbol(e.cmp);
    var l := Eval(e.left, s, fuel);
    if l.outcome.Raised? then Step([Expr(l.kids), Leaf(sym), Expr([])], l.outcome, l.ctx)
    else
      var r := Eval(e.right, l.ctx, fuel);
      if r.outcome.Raised? then Step([Expr(l.kids), Leaf(sym), Expr(r.kids)], r.outcome, r.ctx)
      else
        var l2 := Eval(e.left, r.ctx, fuel);
        var kids := [Expr(l.kids + l2.kids), Leaf(sym), Expr(r.kids)];
        if l2.outcome.Raised? then Step(kids, l2.outcome, l2.ctx)
        else match l2.outcome.result
          case IrValue(v) =>
            var i := if TagOf(v) == F32 then FCmp(sym, l.outcome.result, r.outcome.result)
                     else ICmp(sym, l.outcome.result, r.outcome.result);
            Step(kids, Done(IrValue(Instruction(I1, |l2.ctx.log|))), Emit(l2.ctx, i))
          case _ => Step(kids, Raised(NoTypeAttribute), l2.ctx)
  }

  /** And/Or: both operands always evaluated, then a bitwise instruction. */
  function EvalLogical(e: Ast, s: Ctx, fuel: nat): Step
    requires e.And? || e.Or?
    decreases fuel, e, 0, 0
  {
    var sym := if e.And? then "and" else "or";
    var l := Eval(e.left, s, fuel);
    if l.outcome.Raised? then Step([Expr(l.kids), Leaf(sym), Expr([])], l.outcome, l.ctx)
    else
      var r := Eval(e.right, l.ctx, fuel);
      var kids := [Expr(l.kids), Leaf(sym), Expr(r.kids)];
      if r.outcome.Raised? then Step(kids, r.outcome, r.ctx)
      else match l.outcome.result
        case IrValue(v) =>
          var i := if e.And? then BitAnd(l.outcome.result, r.outcome.result)
                   else BitOr(l.outcome.result, r.outcome.result);
          Step(kids, Done(IrValue(Instruction(TagOf(v), |r.ctx.log|))), Emit(r.ctx, i))
        case _ => Step(kids, Raised(NoTypeAttribute), r.ctx)
  }

  /** The first evaluation of a Not node evaluates its operand and then
      overwrites the node's operand with the value, before `not_` reads that
      value's type. A later evaluation of the same node calls `eval` on that
      value: a declaration object reports itself and `not_` then fails on it,
      and every other value has no `eval` at all. */
  function EvalNot(e: Ast, s: Ctx, fuel: nat): Step
    requires e.Not?
    decreases fuel, e, 0, 0
  {
    if e.id in s.replaced then
      match s.replaced[e.id]
      case FunctionObject(name) =>
        Step([Leaf("Not"), Expr([Leaf("FUNCTION"), Leaf(name), Leaf("{"), Leaf("block"), Leaf("}")])], Raised(NoTypeAttribute), s)
      case _ => Step([Leaf("Not"), Expr([])], Raised(NoEvalAttribute), s)
    else
      var r := Eval(e.inner, s, fuel);
      var kids := [Leaf("Not"), Expr(r.kids)];
      if r.outcome.Raised? then Step(kids, r.outcome, r.ctx)
      else
        var t := r.ctx.(replaced := r.ctx.replaced[e.id := r.outcome.result]);
        match r.outcome.result
        case IrValue(v) =>
          Step(kids, Done(IrValue(Instruction(TagOf(v), |t.log|))), Emit(t, BitNot(r.outcome.result)))
        case _ => Step(kids, Raised(NoTypeAttribute), t)
  }

  /** Print with an argument casts the format global and calls printf;
      without one it only prints a host newline (not modelled). */
  function EvalPrint(e: Ast, s: Ctx, fuel: nat): Step
    requires e.Print?
    decreases fuel, e, 0, 0
  {
    match e.arg
    case None => Step([Leaf("PRINT"), Leaf("("), Leaf(")")], Done(NoneResult), s)
    case Some(x) =>
      var r := Eval(x, s, fuel);
      if r.outcome.Raised? then Step([Leaf("PRINT"), Leaf("("), Expr(r.kids)], r.outcome, r.ctx)
      else
        var fmt := IrValue(Instruction(I8Ptr, |r.ctx.log|));
        Step([Leaf("PRINT"), Leaf("("), Expr(r.kids), Leaf(")")], Done(NoneResult),
             r.ctx.(log := r.ctx.log + [Bitcast(FormatGlobal), Call(Printf, [fmt, r.outcome.result])]))
  }
}
