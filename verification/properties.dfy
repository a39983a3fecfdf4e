/**
 * Properties of single node kinds: the declaration and reassignment rules,
 * variable reads, instruction selection for the operators, the overwrite
 * of Not's operand, calls and the intrinsic calls, print, constants,
 * function declarations and the two jumps.
 */
module NodeProperties {
  import opened Ir
  import opened Ast
  import opened Diagnostics
  import opened CompilerState
  import opened Semantics
  import opened Invariants

  /** The float and integer families never overlap. */
  lemma OpcodeFamilies(op: ArithOp)
    ensures IsFloatOpcode(FloatOpcode(op)) && !IsFloatOpcode(IntOpcode(op))
  {
  }

  // ---------------------------------------------------------------- assignment

  /** Declaring an unbound name: LET, IDENTIFIER, =, expression are appended,
      the right-hand side runs, and only a value whose tag has the declared
      type gets a slot, a binding and a store; every failure leaves the state
      exactly as the right-hand side left it. */
  lemma DeclareUnbound(x: string, rhs: Ast, d: DeclType, s: Ctx, fuel: nat)
    requires x !in s.variables
    ensures var r := Eval(Assignment(Variable(x), rhs, true, d), s, fuel);
            var v := Eval(rhs, s, fuel);
            && r.kids == [Leaf("LET"), Labelled("IDENTIFIER", [Leaf(x)]), Leaf("="), Expr(v.kids)]
            && (r.outcome.Done? <==>
                  v.outcome.Done? && v.outcome.result.IrValue? && TagOf(v.outcome.result.v) == SlotTag(d))
            && (r.outcome.Raised? ==> r.ctx == v.ctx)
            && (r.outcome.Done? ==>
                  && r.outcome.result == VariablesDict
                  && r.ctx.variables == v.ctx.variables[x := Binding(v.outcome.result, d, |v.ctx.log|)]
                  && r.ctx.log == v.ctx.log + [Alloca(SlotTag(d), x), Store(v.outcome.result, |v.ctx.log|)])
    ensures var r := Eval(Assignment(Variable(x), rhs, true, d), s, fuel);
            var v := Eval(rhs, s, fuel);
            v.outcome.Done? && r.outcome.Raised? ==>
              ClassOf(r.outcome.error) == (if v.outcome.result.IrValue? then KeyError else AttributeError)
  {
    assert Eval(Assignment(Variable(x), rhs, true, d), s, fuel) == EvalAssignment(Assignment(Variable(x), rhs, true, d), s, fuel);
    var v := Eval(rhs, s, fuel);
    if v.outcome.Done? && v.outcome.result.IrValue? {
      var t := TagOf(v.outcome.result.v);
      match DeclaredTypeOf(t)
      case None =>
        assert t != SlotTag(d);
      case Some(dt) =>
        assert SlotTag(dt) == t;
        assert dt == d <==> t == SlotTag(d);
    }
  }

  /** The slot a declaration allocates is new: with the slot invariant in
      force, every other variable's slot lies before it in the log. */
  lemma {:induction false} DeclareFreshSlot(x: string, rhs: Ast, d: DeclType, s: Ctx, fuel: nat)
    requires x !in s.variables && Wf(s)
    ensures var r := Eval(Assignment(Variable(x), rhs, true, d), s, fuel);
            r.outcome.Done? ==>
              && Wf(r.ctx)
              && x in r.ctx.variables
              && r.ctx.log[r.ctx.variables[x].ptr] == Alloca(SlotTag(d), x)
              && forall y :: y in r.ctx.variables && y != x ==> r.ctx.variables[y].ptr < r.ctx.variables[x].ptr
  {
    var e := Assignment(Variable(x), rhs, true, d);
    EvalWf(e, s, fuel);
    EvalWf(rhs, s, fuel);
    DeclareUnbound(x, rhs, d, s, fuel);
  }

  /** Declaring a name that is already bound raises ImmutableError before
      anything is appended or evaluated: no children, same state. */
  lemma DeclareBound(x: string, rhs: Ast, d: DeclType, s: Ctx, fuel: nat)
    requires x in s.variables
    ensures Eval(Assignment(Variable(x), rhs, true, d), s, fuel) == Step([], Raised(Immutable(x)), s)
    ensures ClassOf(Immutable(x)) == ImmutableError
  {
    assert Eval(Assignment(Variable(x), rhs, true, d), s, fuel) == EvalAssignment(Assignment(Variable(x), rhs, true, d), s, fuel);
  }

  /** Reassigning a bound name overwrites only its value, keeps its declared
      type and slot, stores to that slot and checks no type; it fails only
      when the right-hand side does. */
  lemma {:induction false} ReassignBound(x: string, rhs: Ast, d: DeclType, s: Ctx, fuel: nat)
    requires x in s.variables
    ensures var r := Eval(Assignment(Variable(x), rhs, false, d), s, fuel);
            var v := Eval(rhs, s, fuel);
            var slot := s.variables[x];
            && r.kids == [Labelled("IDENTIFIER", [Leaf(x)]), Leaf("="), Expr(v.kids)]
            && (r.outcome.Done? <==> v.outcome.Done?)
            && (r.outcome.Raised? ==> r.ctx == v.ctx && r.outcome == v.outcome)
            && (r.outcome.Done? ==>
                  && r.outcome.result == VariablesDict
                  && r.ctx.variables == v.ctx.variables[x := Binding(v.outcome.result, slot.declType, slot.ptr)]
                  && r.ctx.log == v.ctx.log + [Store(v.outcome.result, slot.ptr)])
  {
    assert Eval(Assignment(Variable(x), rhs, false, d), s, fuel) == EvalAssignment(Assignment(Variable(x), rhs, false, d), s, fuel);
    EvalGrows(rhs, s, fuel);
  }

  /** The other assignment failures raise LogicError and change nothing. */
  lemma AssignmentRejected(target: Ast, rhs: Ast, isNew: bool, d: DeclType, s: Ctx, fuel: nat)
    requires !target.Variable? || (!isNew && target.name !in s.variables)
    ensures var r := Eval(Assignment(target, rhs, isNew, d), s, fuel);
            && r.kids == [] && r.ctx == s && r.outcome.Raised?
            && ClassOf(r.outcome.error) == LogicError
            && r.outcome.error == (if target.Variable? then UndefinedVariable(target.name) else NotAssignable)
  {
    assert Eval(Assignment(target, rhs, isNew, d), s, fuel) == EvalAssignment(Assignment(target, rhs, isNew, d), s, fuel);
  }

  // ---------------------------------------------------------------- variables

  /** Reading a bound name loads from its recorded slot, whose alloca carries
      the tag of the value the load returns; an unbound name appends the
      error caption and raises LogicError without changing the state. */
  lemma ReadVariable(x: string, s: Ctx, fuel: nat)
    requires Wf(s)
    ensures var r := Eval(Variable(x), s, fuel);
            if x in s.variables then
              && r.outcome.Done? && r.outcome.result.IrValue?
              && r.ctx.log == s.log + [Load(s.variables[x].ptr, x)]
              && s.log[s.variables[x].ptr] == Alloca(TagOf(r.outcome.result.v), x)
              && r.ctx.variables == s.variables
            else
              && r == Step([Labelled("IDENTIFIER", [Leaf("Unknown name: <" + x + "> is not defined")])],
                           Raised(UnknownName(x)), s)
              && ClassOf(r.outcome.error) == LogicError
  {
    assert Eval(Variable(x), s, fuel) == EvalVariable(Variable(x), s);
  }

  // ---------------------------------------------------------------- operators

  /** Sum/Sub/Mul/Div: the left operand completes before the right one
      starts; the float instruction is chosen exactly when the left value
      is a float, and the result has the left value's tag. A left value that
      is no IR value has no `.type`, so the node raises AttributeError once
      both operands completed. */
  lemma ArithSelection(op: ArithOp, a: Ast, b: Ast, s: Ctx, fuel: nat)
    ensures var r := Eval(Arith(op, a, b), s, fuel);
            var l := Eval(a, s, fuel);
            && (l.outcome.Raised? ==> r.outcome == l.outcome && r.ctx == l.ctx)
            && (l.outcome.Done? ==>
                  var rr := Eval(b, l.ctx, fuel);
                  && r.kids == [Expr(l.kids), Leaf(ArithSymbol(op)), Expr(rr.kids)]
                  && (r.outcome.Done? <==> rr.outcome.Done? && l.outcome.result.IrValue?)
                  && (rr.outcome.Done? && !l.outcome.result.IrValue? ==> ClassOf(r.outcome.error) == AttributeError)
                  && (r.outcome.Done? ==>
                        exists code ::
                          && r.ctx.log == rr.ctx.log + [BinOp(code, l.outcome.result, rr.outcome.result)]
                          && (code == IntOpcode(op) || code == FloatOpcode(op))
                          && (IsFloatOpcode(code) <==> TagOf(l.outcome.result.v) == F32)
                          && r.outcome.result == IrValue(Instruction(TagOf(l.outcome.result.v), |rr.ctx.log|))))
  {
    assert Eval(Arith(op, a, b), s, fuel) == EvalArith(Arith(op, a, b), s, fuel);
    OpcodeFamilies(op);
    var l := Eval(a, s, fuel);
    if l.outcome.Done? {
      var rr := Eval(b, l.ctx, fuel);
      if rr.outcome.Done? && l.outcome.result.IrValue? {
        var code := if TagOf(l.outcome.result.v) == F32 then FloatOpcode(op) else IntOpcode(op);
        assert Eval(Arith(op, a, b), s, fuel).ctx.log == rr.ctx.log + [BinOp(code, l.outcome.result, rr.outcome.result)];
      }
    }
  }

  /** The six comparisons evaluate left, right, then left again into the same
      expression node; the predicate is the diagnostic operator, compared as
      float exactly when the re-evaluated left value is a float. */
  lemma CompareSelection(cmp: CmpOp, a: Ast, b: Ast, s: Ctx, fuel: nat)
    ensures var r := Eval(Compare(cmp, a, b), s, fuel);
            var l := Eval(a, s, fuel);
            l.outcome.Done? ==>
              var rr := Eval(b, l.ctx, fuel);
              rr.outcome.Done? ==>
                var l2 := Eval(a, rr.ctx, fuel);
                && r.kids == [Expr(l.kids + l2.kids), Leaf(CmpSymbol(cmp)), Expr(rr.kids)]
                && (r.outcome.Done? <==> l2.outcome.Done? && l2.outcome.result.IrValue?)
                && (r.outcome.Done? ==>
                      && r.outcome.result == IrValue(Instruction(I1, |l2.ctx.log|))
                      && r.ctx.log == l2.ctx.log + [
                           if TagOf(l2.outcome.result.v) == F32
                           then FCmp(CmpSymbol(cmp), l.outcome.result, rr.outcome.result)
                           else ICmp(CmpSymbol(cmp), l.outcome.result, rr.outcome.result)])
  {
    assert Eval(Compare(cmp, a, b), s, fuel) == EvalCompare(Compare(cmp, a, b), s, fuel);
  }

  /** A comparison whose left operand is a bound variable loads it first,
      then runs the right operand, and, when that completes, loads the
      variable again from the same slot right after the right operand's
      code; the comparison then completes with one compare instruction. */
  lemma CompareLoadsLeftTwice(cmp: CmpOp, x: string, b: Ast, s: Ctx, fuel: nat)
    requires x in s.variables
    ensures var p := s.variables[x].ptr;
            var r := Eval(Compare(cmp, Variable(x), b), s, fuel);
            var rr := Eval(b, Emit(s, Load(p, x)), fuel);
            && |s.log| < |r.ctx.log| && r.ctx.log[|s.log|] == Load(p, x)
            && (r.outcome.Done? <==> rr.outcome.Done?)
            && (rr.outcome.Done? ==>
                  && |r.ctx.log| == |rr.ctx.log| + 2
                  && r.ctx.log[|rr.ctx.log|] == Load(p, x))
  {
    var e := Compare(cmp, Variable(x), b);
    assert Eval(e, s, fuel) == EvalCompare(e, s, fuel);
    var p := s.variables[x].ptr;
    var l := Eval(Variable(x), s, fuel);
    assert l == EvalValue(Variable(x), s, fuel) == EvalVariable(Variable(x), s);
    assert l.ctx == Emit(s, Load(p, x));
    EvalGrows(b, l.ctx, fuel);
    var rr := Eval(b, l.ctx, fuel);
    if rr.outcome.Done? {
      var l2 := Eval(Variable(x), rr.ctx, fuel);
      assert l2 == EvalValue(Variable(x), rr.ctx, fuel) == EvalVariable(Variable(x), rr.ctx);
      assert l2.ctx.log == rr.ctx.log + [Load(p, x)];
    }
  }

  /** And/Or never short-circuit: the right operand runs whenever the left
      completes, and the bitwise instruction takes both values. */
  lemma LogicalNoShortCircuit(isAnd: bool, a: Ast, b: Ast, s: Ctx, fuel: nat)
    ensures var e := if isAnd then And(a, b) else Or(a, b);
            var r := Eval(e, s, fuel);
            var l := Eval(a, s, fuel);
            l.outcome.Done? ==>
              var rr := Eval(b, l.ctx, fuel);
              && r.kids == [Expr(l.kids), Leaf(if isAnd then "and" else "or"), Expr(rr.kids)]
              && (r.outcome.Done? <==> rr.outcome.Done? && l.outcome.result.IrValue?)
              && (r.outcome.Done? ==>
                    r.ctx.log == rr.ctx.log + [if isAnd then BitAnd(l.outcome.result, rr.outcome.result)
                                               else BitOr(l.outcome.result, rr.outcome.result)])
  {
    assert Eval(if isAnd then And(a, b) else Or(a, b), s, fuel) == EvalLogical(if isAnd then And(a, b) else Or(a, b), s, fuel);
  }

  /** Not's first evaluation runs its operand, overwrites the node's operand
      with the value and emits one bitwise not of it; any later evaluation
      of the same node raises AttributeError and changes nothing. */
  lemma NotLowering(id: nat, a: Ast, s: Ctx, fuel: nat)
    ensures var r := Eval(Not(id, a), s, fuel);
            && (id !in s.replaced ==>
                  var v := Eval(a, s, fuel);
                  && r.kids == [Leaf("Not"), Expr(v.kids)]
                  && (v.outcome.Done? ==> r.ctx.replaced == v.ctx.replaced[id := v.outcome.result])
                  && (r.outcome.Done? <==> v.outcome.Done? && v.outcome.result.IrValue?)
                  && (r.outcome.Done? ==> r.ctx.log == v.ctx.log + [BitNot(v.outcome.result)]
                                          && r.outcome.result.IrValue?
                                          && TagOf(r.outcome.result.v) == TagOf(v.outcome.result.v)))
            && (id in s.replaced ==>
                  && r.outcome.Raised? && ClassOf(r.outcome.error) == AttributeError && r.ctx == s
                  && (!s.replaced[id].FunctionObject? ==> r.kids == [Leaf("Not"), Expr([])]))
  {
    assert Eval(Not(id, a), s, fuel) == EvalNot(Not(id, a), s, fuel);
  }

  /** A comparison evaluates its left operand twice, so one whose left
      operand is a Not node never completes: either an operand raises, or
      the second evaluation of the Not finds its operand replaced and raises
      AttributeError. */
  lemma NotOnLeftRaises(cmp: CmpOp, id: nat, a: Ast, b: Ast, s: Ctx, fuel: nat)
    ensures var r := Eval(Compare(cmp, Not(id, a), b), s, fuel);
            var l := Eval(Not(id, a), s, fuel);
            && r.outcome.Raised?
            && (l.outcome.Done? && Eval(b, l.ctx, fuel).outcome.Done? ==> ClassOf(r.outcome.error) == AttributeError)
  {
    var e := Compare(cmp, Not(id, a), b);
    assert Eval(e, s, fuel) == EvalCompare(e, s, fuel);
    NotLowering(id, a, s, fuel);
    var l := Eval(Not(id, a), s, fuel);
    if l.outcome.Done? {
      EvalGrows(b, l.ctx, fuel);
      var rr := Eval(b, l.ctx, fuel);
      if rr.outcome.Done? {
        NotLowering(id, a, rr.ctx, fuel);
      }
    }
  }

  // ---------------------------------------------------------------- calls

  /** A call of a registered name expands that block in the caller's state
      under a "<name> ( )" node; an unknown name raises a KeyError, and an
      exhausted call depth the recursion error, both without any change. */
  lemma CallInlines(f: string, s: Ctx, fuel: nat)
    ensures var r := Eval(CallFunction(f), s, fuel);
            if f !in s.functions then
              r == Step([Labelled(f + " ( )", [])], Raised(UnknownFunction(f)), s)
              && ClassOf(r.outcome.error) == KeyError
            else if fuel == 0 then
              r == Step([Labelled(f + " ( )", [])], Raised(RecursionLimit), s)
              && ClassOf(r.outcome.error) == RecursionError
            else
              var b := Eval(s.functions[f], s, fuel - 1);
              r == Step([Labelled(f + " ( )", b.kids)], b.outcome, b.ctx)
  {
    assert Eval(CallFunction(f), s, fuel) == EvalCall(CallFunction(f), s, fuel);
  }

  /** sumi calls the 8-bit routine "sum" and sumf the float routine "fsum",
      with the two operand values in order. */
  lemma IntrinsicCalls(isInt: bool, a: Ast, b: Ast, s: Ctx, fuel: nat)
    ensures var e := if isInt then Sumi(a, b) else Sumf(a, b);
            var r := Eval(e, s, fuel);
            r.outcome.Done? ==>
              var x := Eval(a, s, fuel);
              var y := Eval(b, x.ctx, fuel);
              && x.outcome.Done? && y.outcome.Done?
              && r.ctx.log == y.ctx.log + [Call(if isInt then "sum" else "fsum", [x.outcome.result, y.outcome.result])]
              && r.outcome.result == IrValue(Instruction(if isInt then I8 else F32, |y.ctx.log|))
  {
    assert Eval(if isInt then Sumi(a, b) else Sumf(a, b), s, fuel) == EvalIntrinsic(if isInt then Sumi(a, b) else Sumf(a, b), s, fuel);
  }

  // ---------------------------------------------------------------- print

  /** print(e) casts the format global and passes the cast as printf's first
      argument, the value second; print() appends no IR. */
  lemma PrintLowering(arg: Option<Ast>, s: Ctx, fuel: nat)
    ensures var r := Eval(Print(arg), s, fuel);
            match arg
            case None => r == Step([Leaf("PRINT"), Leaf("("), Leaf(")")], Done(NoneResult), s)
            case Some(x) =>
              var v := Eval(x, s, fuel);
              v.outcome.Done? ==>
                var fmt := |v.ctx.log|;
                && r.outcome == Done(NoneResult)
                && r.ctx.log == v.ctx.log + [Bitcast(FormatGlobal), Call(Printf, [IrValue(Instruction(I8Ptr, fmt)), v.outcome.result])]
                && r.ctx.log[fmt] == Bitcast(FormatGlobal)
  {
    assert Eval(Print(arg), s, fuel) == EvalPrint(Print(arg), s, fuel);
  }

  // ---------------------------------------------------------------- constants and declarations

  /** A literal appends `const` over its INTEGER or FLOAT node, emits
      nothing and returns a constant whose tag passes the declaration check
      for exactly the matching keyword: INT for an integer, FLT for a float. */
  lemma ConstantTags(e: Ast, s: Ctx, fuel: nat)
    requires e.Integer? || e.Float?
    ensures var r := Eval(e, s, fuel);
            && r.ctx == s && r.outcome.Done? && r.outcome.result.IrValue?
            && r.kids == [Labelled("const", [Labelled(if e.Integer? then "INTEGER" else "FLOAT",
                                                      [Node(if e.Integer? then IntValue(e.n) else FloatValue(e.text), [])])])]
            && DeclaredTypeOf(TagOf(r.outcome.result.v)) == Some(if e.Integer? then INT else FLT)
  {
    assert Eval(e, s, fuel) == EvalValue(e, s, fuel);
  }

  /** Evaluating a function declaration only appends its five captions and
      returns the declaration object; registration happened when the node
      was built, so the state is left alone. */
  lemma DeclarationEval(name: string, body: Ast, s: Ctx, fuel: nat)
    ensures var r := Eval(FunctionDeclaration(name, body), s, fuel);
            && r.ctx == s && r.outcome == Done(FunctionObject(name))
            && r.kids == [Leaf("FUNCTION"), Leaf(name), Leaf("{"), Leaf("block"), Leaf("}")]
  {
    assert Eval(FunctionDeclaration(name, body), s, fuel) == EvalStructure(FunctionDeclaration(name, body), s, fuel);
  }

  // ---------------------------------------------------------------- jumps

  /** Break branches to the top of the end stack and Continue to the top of
      the body stack, both appending the caption "BREAK" and leaving the
      stacks alone; an empty stack raises IndexError. */
  lemma JumpTargets(isBreak: bool, s: Ctx, fuel: nat)
    ensures var stack := if isBreak then s.whileEnd else s.whileBody;
            var r := Eval(if isBreak then Break else Continue, s, fuel);
            && r.kids == [Leaf("BREAK")]
            && r.ctx.whileBody == s.whileBody && r.ctx.whileEnd == s.whileEnd
            && (|stack| > 0 ==> r.outcome == Done(NoneResult) && r.ctx == Emit(s, Branch(stack[|stack| - 1])))
            && (|stack| == 0 ==> r.outcome == Raised(EmptyLoopStack) && r.ctx == s
                                 && ClassOf(r.outcome.error) == IndexError)
  {
    assert Eval(if isBreak then Break else Continue, s, fuel) == EvalJump(if isBreak then Break else Continue, s);
  }
}
