/**
 * The evaluation pass as the source runs it: methods that mutate one
 * ParserState and append to one IRBuilder, node by node. Each method is
 * proved to do exactly what the corresponding function of Semantics says:
 * the children it returns, its outcome, and the new combined state.
 */
module Lowering {
  import opened Ir
  import opened Ast
  import opened Diagnostics
  import opened CompilerState
  import Sem = Semantics

  method Eval(e: Ast, st: ParserState, b: IRBuilder, h: NotOperands, fuel: nat) returns (kids: seq<Tree>, out: Outcome)
    modifies st, b, h
    decreases fuel, e, 2, 0
    ensures Sem.Step(kids, out, Snapshot(st, b, h)) == Sem.Eval(e, old(Snapshot(st, b, h)), fuel)
  {
    if Sem.IsValueNode(e) {
      kids, out := EvalValue(e, st, b, h, fuel);
    } else if Sem.IsOperatorNode(e) {
      kids, out := EvalOperator(e, st, b, h, fuel);
    } else {
      kids, out := EvalStructure(e, st, b, h, fuel);
    }
  }

  /** Sequencing, control flow, declarations of functions and the wrappers. */
  method EvalStructure(e: Ast, st: ParserState, b: IRBuilder, h: NotOperands, fuel: nat) returns (kids: seq<Tree>, out: Outcome)
    requires !Sem.IsValueNode(e) && !Sem.IsOperatorNode(e)
    modifies st, b, h
    decreases fuel, e, 1, 0
    ensures Sem.Step(kids, out, Snapshot(st, b, h)) == Sem.EvalStructure(e, old(Snapshot(st, b, h)), fuel)
  {
    match e
    case MainProgram(p) =>
      var k;
      k, out := Eval(p, st, b, h, fuel);
      kids := [Labelled("program", k)];
    case Program(_) =>
      kids, out := EvalSeq(e, st, b, h, fuel);
    case Block(_) =>
      kids, out := EvalSeq(e, st, b, h, fuel);
    case If(_, _, _) =>
      kids, out := EvalIf(e, st, b, h, fuel);
    case While(_, _) =>
      kids, out := EvalWhile(e, st, b, h, fuel);
    case Break =>
      kids, out := EvalJump(e, st, b, h);
    case Continue =>
      kids, out := EvalJump(e, st, b, h);
    case FunctionDeclaration(name, _) =>
      // registration happened when the node was built; eval only reports it
      kids := [Leaf("FUNCTION"), Leaf(name), Leaf("{"), Leaf("block"), Leaf("}")];
      out := Done(FunctionObject(name));
    case ExpressParenthesis(x) =>
      var k;
      k, out := Eval(x, st, b, h, fuel);
      kids := [Leaf("("), Expr(k), Leaf(")")];
    case StatementFull(x) =>
      var k;
      k, out := Eval(x, st, b, h, fuel);
      kids := [Labelled("statement", k), Leaf(";")];
    case Statement(x) =>
      var k;
      k, out := Eval(x, st, b, h, fuel);
      kids := [Expr(k)];
  }

  /** Names, calls, constants and assignment. */
  method EvalValue(e: Ast, st: ParserState, b: IRBuilder, h: NotOperands, fuel: nat) returns (kids: seq<Tree>, out: Outcome)
    requires Sem.IsValueNode(e)
    modifies st, b, h
    decreases fuel, e, 1, 0
    ensures Sem.Step(kids, out, Snapshot(st, b, h)) == Sem.EvalValue(e, old(Snapshot(st, b, h)), fuel)
  {
    match e
    case Variable(_) =>
      kids, out := EvalVariable(e, st, b, h);
    case CallFunction(_) =>
      kids, out := EvalCall(e, st, b, h, fuel);
    case Sumi(_, _) =>
      kids, out := EvalIntrinsic(e, st, b, h, fuel);
    case Sumf(_, _) =>
      kids, out := EvalIntrinsic(e, st, b, h, fuel);
    case Integer(n) =>
      kids := [Labelled("const", [Labelled("INTEGER", [Node(IntValue(n), [])])])];
      out := Done(IrValue(IntConst(n)));
    case Float(t) =>
      kids := [Labelled("const", [Labelled("FLOAT", [Node(FloatValue(t), [])])])];
      out := Done(IrValue(FloatConst(t)));
    case Assignment(_, _, _, _) =>
      kids, out := EvalAssignment(e, st, b, h, fuel);
  }

  /** Arithmetic, comparisons, logical operators and print. */
  method EvalOperator(e: Ast, st: ParserState, b: IRBuilder, h: NotOperands, fuel: nat) returns (kids: seq<Tree>, out: Outcome)
    requires Sem.IsOperatorNode(e)
    modifies st, b, h
    decreases fuel, e, 1, 0
    ensures Sem.Step(kids, out, Snapshot(st, b, h)) == Sem.EvalOperator(e, old(Snapshot(st, b, h)), fuel)
  {
    if e.Arith? {
      kids, out := EvalArith(e, st, b, h, fuel);
    } else if e.Compare? {
      kids, out := EvalCompare(e, st, b, h, fuel);
    } else if e.And? || e.Or? {
      kids, out := EvalLogical(e, st, b, h, fuel);
    } else if e.Not? {
      kids, out := EvalNot(e, st, b, h, fuel);
    } else {
      kids, out := EvalPrint(e, st, b, h, fuel);
    }
  }

  /** Program.eval / Block.eval: the statements in list order, the result of
      the last one kept. */
  method EvalSeq(e: Ast, st: ParserState, b: IRBuilder, h: NotOperands, fuel: nat) returns (kids: seq<Tree>, out: Outcome)
    requires e.Program? || e.Block?
    modifies st, b, h
    decreases fuel, e, 0, 0
    ensures Sem.Step(kids, out, Snapshot(st, b, h)) == Sem.EvalSeq(e, 0, old(Snapshot(st, b, h)), fuel, [], NoneResult)
  {
    var parts: seq<seq<Tree>> := [];
    var result := NoneResult;
    var i := 0;
    while i < |e.stmts|
      invariant i <= |e.stmts|
      invariant Sem.EvalSeq(e, i, Snapshot(st, b, h), fuel, parts, result)
             == Sem.EvalSeq(e, 0, old(Snapshot(st, b, h)), fuel, [], NoneResult)
    {
      ghost var before := Snapshot(st, b, h);
      var k, o := Eval(e.stmts[i], st, b, h, fuel);
      parts := parts + [k];
      if o.Raised? {
        kids := Nest(Sem.SeqLabel(e), parts, |e.stmts|);
        out := o;
        return;
      }
      result := o.result;
      i := i + 1;
    }
    kids := Nest(Sem.SeqLabel(e), parts, |e.stmts|);
    out := Done(result);
  }

  method EvalIf(e: Ast, st: ParserState, b: IRBuilder, h: NotOperands, fuel: nat) returns (kids: seq<Tree>, out: Outcome)
    requires e.If?
    modifies st, b, h
    decreases fuel, e, 0, 1
    ensures Sem.Step(kids, out, Snapshot(st, b, h)) == Sem.EvalIf(e, old(Snapshot(st, b, h)), fuel)
  {
    var ck, co := Eval(e.cond, st, b, h, fuel);
    kids := [Leaf("IF"), Leaf("("), Expr(ck), Leaf(")")];
    if co.Raised? {
      out := co;
      return;
    }
    ghost var c := Snapshot(st, b, h);
    var thenBlock := b.AppendBlock();
    var elseBlock := b.AppendBlock();
    var endBlock := b.AppendBlock();
    var _ := b.Emit(IfElse(co.result, thenBlock, elseBlock, endBlock));
    assert Snapshot(st, b, h) == Emit(c.(blocks := c.blocks + 3), IfElse(co.result, c.blocks, c.blocks + 1, c.blocks + 2));
    var tk, to := Eval(e.body, st, b, h, fuel);
    kids := kids + [Leaf("{"), Labelled("block", tk), Leaf("}")];
    if to.Raised? {
      out := to;
      return;
    }
    var _ := b.Emit(Otherwise(elseBlock));
    kids, out := EvalOtherwise(e, kids, st, b, h, endBlock, fuel);
  }

  method EvalOtherwise(e: Ast, thenPart: seq<Tree>, st: ParserState, b: IRBuilder, h: NotOperands, endBlock: BlockId, fuel: nat)
    returns (kids: seq<Tree>, out: Outcome)
    requires e.If?
    modifies st, b, h
    decreases fuel, e, 0, 0
    ensures Sem.Step(kids, out, Snapshot(st, b, h)) == Sem.EvalOtherwise(e, thenPart, old(Snapshot(st, b, h)), endBlock, fuel)
  {
    kids := thenPart;
    match e.elseBody
    case None =>
      var _ := b.Emit(EndIf(endBlock));
      out := Done(NoneResult);
    case Some(eb) =>
      var ek, eo := Eval(eb, st, b, h, fuel);
      if eo.Raised? {
        out := eo;
        return;
      }
      kids := kids + [Leaf("else"), Leaf("{"), Labelled("block", ek), Leaf("}")];
      var _ := b.Emit(EndIf(endBlock));
      out := Done(NoneResult);
  }

  method EvalWhile(e: Ast, st: ParserState, b: IRBuilder, h: NotOperands, fuel: nat) returns (kids: seq<Tree>, out: Outcome)
    requires e.While?
    modifies st, b, h
    decreases fuel, e, 0, 1
    ensures Sem.Step(kids, out, Snapshot(st, b, h)) == Sem.EvalWhile(e, old(Snapshot(st, b, h)), fuel)
  {
    var ck, co := Eval(e.cond, st, b, h, fuel);
    if co.Raised? {
      kids := [Leaf("WHILE"), Leaf("("), Expr(ck), Leaf(")")];
      out := co;
      return;
    }
    ghost var c := Snapshot(st, b, h);
    var bodyBlock := b.AppendBlock();
    st.PushBody(bodyBlock);
    var endBlock := b.AppendBlock();
    st.PushEnd(endBlock);
    var _ := b.Emit(CBranch(co.result, bodyBlock, endBlock));
    var _ := b.Emit(PositionAt(bodyBlock));
    assert b.log == c.log + [CBranch(co.result, bodyBlock, endBlock), PositionAt(bodyBlock)];
    assert Snapshot(st, b, h) == c.(blocks := c.blocks + 2, whileBody := c.whileBody + [c.blocks],
                                 whileEnd := c.whileEnd + [c.blocks + 1], log := b.log);
    var bk, bo := Eval(e.body, st, b, h, fuel);
    if bo.Raised? {
      kids := [Leaf("WHILE"), Leaf("("), Expr(ck), Leaf(")"), Leaf("{"), Labelled("block", bk), Leaf("}")];
      out := bo;
      return;
    }
    kids, out := EvalLoopExit(e, ck, bk, st, b, h, bodyBlock, endBlock, fuel);
  }

  method EvalLoopExit(e: Ast, condKids: seq<Tree>, bodyKids: seq<Tree>, st: ParserState, b: IRBuilder, h: NotOperands,
                      bodyBlock: BlockId, endBlock: BlockId, fuel: nat) returns (kids: seq<Tree>, out: Outcome)
    requires e.While?
    modifies st, b, h
    decreases fuel, e, 0, 0
    ensures Sem.Step(kids, out, Snapshot(st, b, h))
            == Sem.EvalLoopExit(e, condKids, bodyKids, old(Snapshot(st, b, h)), bodyBlock, endBlock, fuel)
  {
    var ck2, co2 := Eval(e.cond, st, b, h, fuel);
    kids := [Leaf("WHILE"), Leaf("("), Expr(condKids + ck2), Leaf(")"), Leaf("{"), Labelled("block", bodyKids), Leaf("}")];
    if co2.Raised? {
      out := co2;
      return;
    }
    ghost var c2 := Snapshot(st, b, h);
    var _ := b.Emit(CBranch(co2.result, bodyBlock, endBlock));
    var _ := b.Emit(PositionAt(endBlock));
    assert b.log == c2.log + [CBranch(co2.result, bodyBlock, endBlock), PositionAt(endBlock)];
    if |st.whileBody| == 0 {
      out := Raised(EmptyLoopStack);
      return;
    }
    st.PopBody();
    if |st.whileEnd| == 0 {
      out := Raised(EmptyLoopStack);
      return;
    }
    st.PopEnd();
    out := Done(NoneResult);
  }


  method EvalJump(e: Ast, st: ParserState, b: IRBuilder, h: NotOperands) returns (kids: seq<Tree>, out: Outcome)
    requires e.Break? || e.Continue?
    modifies b
    ensures Sem.Step(kids, out, Snapshot(st, b, h)) == Sem.EvalJump(e, old(Snapshot(st, b, h)))
  {
    kids := [Leaf("BREAK")];
    var stack := if e.Break? then st.whileEnd else st.whileBody;
    if |stack| == 0 {
      out := Raised(EmptyLoopStack);
    } else {
      var _ := b.Emit(Branch(stack[|stack| - 1]));
      out := Done(NoneResult);
    }
  }

  method EvalVariable(e: Ast, st: ParserState, b: IRBuilder, h: NotOperands) returns (kids: seq<Tree>, out: Outcome)
    requires e.Variable?
    modifies b
    ensures Sem.Step(kids, out, Snapshot(st, b, h)) == Sem.EvalVariable(e, old(Snapshot(st, b, h)))
  {
    if e.name in st.variables {
      var entry := st.variables[e.name];
      kids := [Labelled("IDENTIFIER", [Node(Text(e.name), [Node(ValueOf(entry.value), [])])])];
      var at := b.Emit(Load(entry.ptr, e.name));
      out := Done(IrValue(Instruction(SlotTag(entry.declType), at)));
    } else {
      kids := [Labelled("IDENTIFIER", [Leaf("Unknown name: <" + e.name + "> is not defined")])];
      out := Raised(UnknownName(e.name));
    }
  }

  method EvalCall(e: Ast, st: ParserState, b: IRBuilder, h: NotOperands, fuel: nat) returns (kids: seq<Tree>, out: Outcome)
    requires e.CallFunction?
    modifies st, b, h
    decreases fuel, e, 0, 0
    ensures Sem.Step(kids, out, Snapshot(st, b, h)) == Sem.EvalCall(e, old(Snapshot(st, b, h)), fuel)
  {
    var caption := e.name + " ( )";
    if e.name !in st.functions {
      kids := [Labelled(caption, [])];
      out := Raised(UnknownFunction(e.name));
    } else if fuel == 0 {
      kids := [Labelled(caption, [])];
      out := Raised(RecursionLimit);
    } else {
      var k;
      k, out := Eval(st.functions[e.name], st, b, h, fuel - 1);
      kids := [Labelled(caption, k)];
    }
  }

  method EvalIntrinsic(e: Ast, st: ParserState, b: IRBuilder, h: NotOperands, fuel: nat) returns (kids: seq<Tree>, out: Outcome)
    requires e.Sumi? || e.Sumf?
    modifies st, b, h
    decreases fuel, e, 0, 0
    ensures Sem.Step(kids, out, Snapshot(st, b, h)) == Sem.EvalIntrinsic(e, old(Snapshot(st, b, h)), fuel)
  {
    var f := if e.Sumi? then Intrinsics()["sum"] else Intrinsics()["sumf"];
    var heading := if e.Sumi? then "CALLSUMI" else "CALLSUMF";
    var ak, ao := Eval(e.left, st, b, h, fuel);
    if ao.Raised? {
      kids := [Leaf(heading), Leaf("("), Expr(ak), Leaf(","), Expr([]), Leaf(")")];
      out := ao;
      return;
    }
    var bk, bo := Eval(e.right, st, b, h, fuel);
    kids := [Leaf(heading), Leaf("("), Expr(ak), Leaf(","), Expr(bk), Leaf(")")];
    if bo.Raised? {
      out := bo;
      return;
    }
    var at := b.Emit(Call(f.irName, [ao.result, bo.result]));
    out := Done(IrValue(Instruction(f.resultTag, at)));
  }

  method EvalAssignment(e: Ast, st: ParserState, b: IRBuilder, h: NotOperands, fuel: nat) returns (kids: seq<Tree>, out: Outcome)
    requires e.Assignment?
    modifies st, b, h
    decreases fuel, e, 0, 0
    ensures Sem.Step(kids, out, Snapshot(st, b, h)) == Sem.EvalAssignment(e, old(Snapshot(st, b, h)), fuel)
  {
    kids := [];
    if !e.target.Variable? {
      out := Raised(NotAssignable);
      return;
    }
    var x := e.target.name;
    if e.isNew {
      if x in st.variables {
        out := Raised(Immutable(x));
        return;
      }
      var rk, ro := Eval(e.rhs, st, b, h, fuel);
      kids := [Leaf("LET"), Labelled("IDENTIFIER", [Leaf(x)]), Leaf("="), Expr(rk)];
      if ro.Raised? {
        out := ro;
        return;
      }
      match ro.result {
        case IrValue(v) =>
          match DeclaredTypeOf(TagOf(v)) {
            case None =>
              out := Raised(UnknownTypeTag);
            case Some(t) =>
              if t != e.declType {
                out := Raised(MismatchMessage);
              } else {
                ghost var c := Snapshot(st, b, h);
                var p := b.Emit(Alloca(TagOf(v), x));
                st.Bind(x, Binding(IrValue(v), e.declType, p));
                var _ := b.Emit(Store(IrValue(v), p));
                assert b.log == c.log + [Alloca(TagOf(v), x), Store(IrValue(v), p)];
                out := Done(VariablesDict);
              }
          }
        case _ =>
          out := Raised(NoTypeAttribute);
      }
    } else {
      if x !in st.variables {
        out := Raised(UndefinedVariable(x));
        return;
      }
      var rk, ro := Eval(e.rhs, st, b, h, fuel);
      kids := [Labelled("IDENTIFIER", [Leaf(x)]), Leaf("="), Expr(rk)];
      if ro.Raised? {
        out := ro;
        return;
      }
      if x !in st.variables {
        out := Raised(MissingVariableKey(x));
        return;
      }
      st.SetValue(x, ro.result);
      var _ := b.Emit(Store(ro.result, st.variables[x].ptr));
      out := Done(VariablesDict);
    }
  }

  method EvalArith(e: Ast, st: ParserState, b: IRBuilder, h: NotOperands, fuel: nat) returns (kids: seq<Tree>, out: Outcome)
    requires e.Arith?
    modifies st, b, h
    decreases fuel, e, 0, 0
    ensures Sem.Step(kids, out, Snapshot(st, b, h)) == Sem.EvalArith(e, old(Snapshot(st, b, h)), fuel)
  {
    var lk, lo := Eval(e.left, st, b, h, fuel);
    if lo.Raised? {
      kids := [Expr(lk), Leaf(ArithSymbol(e.op)), Expr([])];
      out := lo;
      return;
    }
    var rk, ro := Eval(e.right, st, b, h, fuel);
    kids := [Expr(lk), Leaf(ArithSymbol(e.op)), Expr(rk)];
    if ro.Raised? {
      out := ro;
      return;
    }
    match lo.result
    case IrValue(v) =>
      var code := if TagOf(v) == F32 then FloatOpcode(e.op) else IntOpcode(e.op);
      var at := b.Emit(BinOp(code, lo.result, ro.result));
      out := Done(IrValue(Instruction(TagOf(v), at)));
    case _ =>
      out := Raised(NoTypeAttribute);
  }

  method EvalCompare(e: Ast, st: ParserState, b: IRBuilder, h: NotOperands, fuel: nat) returns (kids: seq<Tree>, out: Outcome)
    requires e.Compare?
    modifies st, b, h
    decreases fuel, e, 0, 0
    ensures Sem.Step(kids, out, Snapshot(st, b, h)) == Sem.EvalCompare(e, old(Snapshot(st, b, h)), fuel)
  {
    var sym := CmpSymbol(e.cmp);
    var lk, lo := Eval(e.left, st, b, h, fuel);
    if lo.Raised? {
      kids := [Expr(lk), Leaf(sym), Expr([])];
      out := lo;
      return;
    }
    var rk, ro := Eval(e.right, st, b, h, fuel);
    if ro.Raised? {
      kids := [Expr(lk), Leaf(sym), Expr(rk)];
      out := ro;
      return;
    }
    // the left operand once more, into the same node, only to read its type
    var lk2, lo2 := Eval(e.left, st, b, h, fuel);
    kids := [Expr(lk + lk2), Leaf(sym), Expr(rk)];
    if lo2.Raised? {
      out := lo2;
      return;
    }
    match lo2.result
    case IrValue(v) =>
      var i := if TagOf(v) == F32 then FCmp(sym, lo.result, ro.result) else ICmp(sym, lo.result, ro.result);
      var at := b.Emit(i);
      out := Done(IrValue(Instruction(I1, at)));
    case _ =>
      out := Raised(NoTypeAttribute);
  }

  method EvalLogical(e: Ast, st: ParserState, b: IRBuilder, h: NotOperands, fuel: nat) returns (kids: seq<Tree>, out: Outcome)
    requires e.And? || e.Or?
    modifies st, b, h
    decreases fuel, e, 0, 0
    ensures Sem.Step(kids, out, Snapshot(st, b, h)) == Sem.EvalLogical(e, old(Snapshot(st, b, h)), fuel)
  {
    var sym := if e.And? then "and" else "or";
    var lk, lo := Eval(e.left, st, b, h, fuel);
    if lo.Raised? {
      kids := [Expr(lk), Leaf(sym), Expr([])];
      out := lo;
      return;
    }
    var rk, ro := Eval(e.right, st, b, h, fuel);
    kids := [Expr(lk), Leaf(sym), Expr(rk)];
    if ro.Raised? {
      out := ro;
      return;
    }
    match lo.result
    case IrValue(v) =>
      var i := if e.And? then BitAnd(lo.result, ro.result) else BitOr(lo.result, ro.result);
      var at := b.Emit(i);
      out := Done(IrValue(Instruction(TagOf(v), at)));
    case _ =>
      out := Raised(NoTypeAttribute);
  }

  method EvalNot(e: Ast, st: ParserState, b: IRBuilder, h: NotOperands, fuel: nat) returns (kids: seq<Tree>, out: Outcome)
    requires e.Not?
    modifies st, b, h
    decreases fuel, e, 0, 0
    ensures Sem.Step(kids, out, Snapshot(st, b, h)) == Sem.EvalNot(e, old(Snapshot(st, b, h)), fuel)
  {
    if e.id in h.replaced {
      // the operand is now a value: only a declaration object has an eval
      var v := h.replaced[e.id];
      if v.FunctionObject? {
        kids := [Leaf("Not"), Expr([Leaf("FUNCTION"), Leaf(v.name), Leaf("{"), Leaf("block"), Leaf("}")])];
        out := Raised(NoTypeAttribute);
      } else {
        kids := [Leaf("Not"), Expr([])];
        out := Raised(NoEvalAttribute);
      }
      return;
    }
    var k, o := Eval(e.inner, st, b, h, fuel);
    kids := [Leaf("Not"), Expr(k)];
    if o.Raised? {
      out := o;
      return;
    }
    h.Replace(e.id, o.result);
    match o.result
    case IrValue(v) =>
      var at := b.Emit(BitNot(o.result));
      out := Done(IrValue(Instruction(TagOf(v), at)));
    case _ =>
      out := Raised(NoTypeAttribute);
  }

  method EvalPrint(e: Ast, st: ParserState, b: IRBuilder, h: NotOperands, fuel: nat) returns (kids: seq<Tree>, out: Outcome)
    requires e.Print?
    modifies st, b, h
    decreases fuel, e, 0, 0
    ensures Sem.Step(kids, out, Snapshot(st, b, h)) == Sem.EvalPrint(e, old(Snapshot(st, b, h)), fuel)
  {
    match e.arg
    case None =>
      kids := [Leaf("PRINT"), Leaf("("), Leaf(")")];
      out := Done(NoneResult);
    case Some(x) =>
      var k, o := Eval(x, st, b, h, fuel);
      if o.Raised? {
        kids := [Leaf("PRINT"), Leaf("("), Expr(k)];
        out := o;
        return;
      }
      var fmt := b.Emit(Bitcast(FormatGlobal));
      var _ := b.Emit(Call(Printf, [IrValue(Instruction(I8Ptr, fmt)), o.result]));
      kids := [Leaf("PRINT"), Leaf("("), Expr(k), Leaf(")")];
      out := Done(NoneResult);
  }
}
