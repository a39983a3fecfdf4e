/**
 * What every evaluation keeps true of the compiler state: each variable's
 * slot is the alloca its declaration emitted, the log only grows, bindings
 * keep their slot and declared type, the function table is untouched, and a
 * node that completes leaves both loop stacks as it found them.
 */
module Invariants {
  import opened Ir
  import opened Ast
  import opened Diagnostics
  import opened CompilerState
  import opened Semantics

  /** Every variable's `ptr` is the log position of an alloca of its
      declared type, made under the variable's own name. */
  predicate Wf(s: Ctx)
  {
    forall x :: x in s.variables ==>
      s.variables[x].ptr < |s.log| && s.log[s.variables[x].ptr] == Alloca(SlotTag(s.variables[x].declType), x)
  }

  /** `t` is a later state than `s`: the log has grown, blocks were only
      appended, functions are the same, a Not node whose operand was
      replaced stays replaced, and old bindings keep slot and type. */
  predicate Extends(s: Ctx, t: Ctx)
  {
    s.log <= t.log && s.blocks <= t.blocks && t.functions == s.functions
    && s.replaced.Keys <= t.replaced.Keys
    && forall x :: x in s.variables ==>
         x in t.variables && t.variables[x].ptr == s.variables[x].ptr
         && t.variables[x].declType == s.variables[x].declType
  }

  /** A returned instruction value names an instruction already in the log. */
  predicate Logged(r: EvalResult, s: Ctx)
  {
    r.IrValue? && r.v.Instruction? ==> r.v.at < |s.log|
  }

  /** What one step does to the state apart from the slot invariant: it
      extends it, and when it completes its value is in the log and the loop
      stacks are back where they were. */
  predicate Grows(s: Ctx, r: Step)
  {
    Extends(s, r.ctx)
    && (r.outcome.Done? ==> Logged(r.outcome.result, r.ctx)
                            && r.ctx.whileBody == s.whileBody && r.ctx.whileEnd == s.whileEnd)
  }

  /** The one child of a node that only wraps another. */
  function Unwrap(e: Ast): (r: Ast)
    requires e.MainProgram? || e.ExpressParenthesis? || e.StatementFull? || e.Statement?
    ensures r < e
  {
    match e
    case MainProgram(p) => p
    case ExpressParenthesis(x) => x
    case StatementFull(x) => x
    case Statement(x) => x
  }

  /** The empty state a run starts from satisfies the slot invariant. */
  lemma InitialWf()
    ensures Wf(Ctx(map[], map[], [], [], [], 0, map[]))
  {
  }

  lemma ExtendsTrans(a: Ctx, b: Ctx, c: Ctx)
    requires Extends(a, b) && Extends(b, c)
    ensures Extends(a, c)
  {
  }

  /** Appending to the log keeps every slot where it was. */
  lemma WfGrow(s: Ctx, t: Ctx)
    requires Wf(s) && s.log <= t.log && t.variables == s.variables
    ensures Wf(t)
  {
    forall x | x in t.variables
      ensures t.variables[x].ptr < |t.log| && t.log[t.variables[x].ptr] == Alloca(SlotTag(t.variables[x].declType), x)
    {
      assert t.log[t.variables[x].ptr] == s.log[s.variables[x].ptr];
    }
  }

  /** Every node keeps the slot invariant. */
  lemma {:induction false} EvalWf(e: Ast, s: Ctx, fuel: nat)
    requires Wf(s)
    decreases fuel, e, 2, 0
    ensures Wf(Eval(e, s, fuel).ctx)
  {
    if IsValueNode(e) {
      ValueWf(e, s, fuel);
    } else if IsOperatorNode(e) {
      OperationWf(e, s, fuel);
    } else {
      StructureWf(e, s, fuel);
    }
  }

  lemma {:induction false} StructureWf(e: Ast, s: Ctx, fuel: nat)
    requires Wf(s)
    requires !IsValueNode(e) && !IsOperatorNode(e)
    decreases fuel, e, 1, 0
    ensures Wf(EvalStructure(e, s, fuel).ctx)
  {
    if e.MainProgram? || e.ExpressParenthesis? || e.StatementFull? || e.Statement? {
      EvalWf(Unwrap(e), s, fuel);
    } else if e.Program? || e.Block? {
      SeqWf(e, 0, s, fuel, [], NoneResult);
    } else if e.If? {
      IfWf(e, s, fuel);
    } else if e.While? {
      WhileWf(e, s, fuel);
    } else if e.Break? || e.Continue? {
      var stack := if e.Break? then s.whileEnd else s.whileBody;
      if |stack| > 0 { WfGrow(s, Emit(s, Branch(stack[|stack| - 1]))); }
    }
  }

  lemma {:induction false} OperationWf(e: Ast, s: Ctx, fuel: nat)
    requires Wf(s)
    requires IsOperatorNode(e)
    decreases fuel, e, 1, 0
    ensures Wf(EvalOperator(e, s, fuel).ctx)
  {
    match e
    case Arith(_, _, _) => OperatorWf(e, s, fuel);
    case And(_, _) => OperatorWf(e, s, fuel);
    case Or(_, _) => OperatorWf(e, s, fuel);
    case Compare(_, _, _) => CompareWf(e, s, fuel);
    case Not(_, _) => NotWf(e, s, fuel);
    case Print(_) => PrintWf(e, s, fuel);
  }

  lemma {:induction false} ValueWf(e: Ast, s: Ctx, fuel: nat)
    requires Wf(s)
    requires IsValueNode(e)
    decreases fuel, e, 1, 0
    ensures Wf(EvalValue(e, s, fuel).ctx)
  {
    match e
    case Variable(x) =>
      if x in s.variables { WfGrow(s, Emit(s, Load(s.variables[x].ptr, x))); }
    case CallFunction(_) => CallWf(e, s, fuel);
    case Sumi(_, _) => IntrinsicWf(e, s, fuel);
    case Sumf(_, _) => IntrinsicWf(e, s, fuel);
    case Integer(_) =>
    case Float(_) =>
    case Assignment(_, _, _, _) => AssignmentWf(e, s, fuel);
  }

  lemma {:induction false} SeqWf(e: Ast, i: nat, s: Ctx, fuel: nat, parts: seq<seq<Tree>>, last: EvalResult)
    requires Wf(s)
    requires e.Program? || e.Block?
    requires i <= |e.stmts|
    decreases fuel, e, 0, |e.stmts| - i
    ensures Wf(EvalSeq(e, i, s, fuel, parts, last).ctx)
  {
    if i < |e.stmts| {
      EvalWf(e.stmts[i], s, fuel);
      var r := Eval(e.stmts[i], s, fuel);
      if r.outcome.Done? {
        SeqWf(e, i + 1, r.ctx, fuel, parts + [r.kids], r.outcome.result);
      }
    }
  }

  lemma {:induction false} IfWf(e: Ast, s: Ctx, fuel: nat)
    requires Wf(s)
    requires e.If?
    decreases fuel, e, 0, 1
    ensures Wf(EvalIf(e, s, fuel).ctx)
  {
    EvalWf(e.cond, s, fuel);
    var c := Eval(e.cond, s, fuel);
    if c.outcome.Done? {
      var n := c.ctx.blocks;
      var c1 := Emit(c.ctx.(blocks := n + 3), IfElse(c.outcome.result, n, n + 1, n + 2));
      WfGrow(c.ctx, c1);
      EvalWf(e.body, c1, fuel);
      var t := Eval(e.body, c1, fuel);
      if t.outcome.Done? {
        var c2 := Emit(t.ctx, Otherwise(n + 1));
        WfGrow(t.ctx, c2);
        var thenPart := [Leaf("IF"), Leaf("("), Expr(c.kids), Leaf(")"), Leaf("{"), Labelled("block", t.kids), Leaf("}")];
        OtherwiseWf(e, thenPart, c2, n + 2, fuel);
      }
    }
  }

  lemma {:induction false} OtherwiseWf(e: Ast, kids: seq<Tree>, s: Ctx, endBlock: BlockId, fuel: nat)
    requires Wf(s)
    requires e.If?
    decreases fuel, e, 0, 0
    ensures Wf(EvalOtherwise(e, kids, s, endBlock, fuel).ctx)
  {
    match e.elseBody
    case None =>
      WfGrow(s, Emit(s, EndIf(endBlock)));
    case Some(eb) =>
      EvalWf(eb, s, fuel);
      var o := Eval(eb, s, fuel);
      if o.outcome.Done? { WfGrow(o.ctx, Emit(o.ctx, EndIf(endBlock))); }
  }

  lemma {:induction false} WhileWf(e: Ast, s: Ctx, fuel: nat)
    requires Wf(s)
    requires e.While?
    decreases fuel, e, 0, 1
    ensures Wf(EvalWhile(e, s, fuel).ctx)
  {
    EvalWf(e.cond, s, fuel);
    var c := Eval(e.cond, s, fuel);
    if c.outcome.Done? {
      var n := c.ctx.blocks;
      var c1 := c.ctx.(blocks := n + 2, whileBody := c.ctx.whileBody + [n], whileEnd := c.ctx.whileEnd + [n + 1],
                       log := c.ctx.log + [CBranch(c.outcome.result, n, n + 1), PositionAt(n)]);
      WfGrow(c.ctx, c1);
      EvalWf(e.body, c1, fuel);
      var b := Eval(e.body, c1, fuel);
      if b.outcome.Done? {
        LoopExitWf(e, c.kids, b.kids, b.ctx, n, n + 1, fuel);
      }
    }
  }

  lemma {:induction false} LoopExitWf(e: Ast, condKids: seq<Tree>, bodyKids: seq<Tree>, s: Ctx,
                                      bodyBlock: BlockId, endBlock: BlockId, fuel: nat)
    requires Wf(s)
    requires e.While?
    decreases fuel, e, 0, 0
    ensures Wf(EvalLoopExit(e, condKids, bodyKids, s, bodyBlock, endBlock, fuel).ctx)
  {
    EvalWf(e.cond, s, fuel);
    var c2 := Eval(e.cond, s, fuel);
    if c2.outcome.Done? {
      WfGrow(c2.ctx, EvalLoopExit(e, condKids, bodyKids, s, bodyBlock, endBlock, fuel).ctx);
    }
  }

  lemma {:induction false} CallWf(e: Ast, s: Ctx, fuel: nat)
    requires Wf(s)
    requires e.CallFunction?
    decreases fuel, e, 0, 0
    ensures Wf(EvalCall(e, s, fuel).ctx)
  {
    if e.name in s.functions && fuel > 0 {
      EvalWf(s.functions[e.name], s, fuel - 1);
    }
  }

  lemma {:induction false} IntrinsicWf(e: Ast, s: Ctx, fuel: nat)
    requires Wf(s)
    requires e.Sumi? || e.Sumf?
    decreases fuel, e, 0, 0
    ensures Wf(EvalIntrinsic(e, s, fuel).ctx)
  {
    EvalWf(e.left, s, fuel);
    var a := Eval(e.left, s, fuel);
    if a.outcome.Done? {
      EvalWf(e.right, a.ctx, fuel);
      var b := Eval(e.right, a.ctx, fuel);
      if b.outcome.Done? {
        var f := if e.Sumi? then Intrinsics()["sum"] else Intrinsics()["sumf"];
        WfGrow(b.ctx, Emit(b.ctx, Call(f.irName, [a.outcome.result, b.outcome.result])));
      }
    }
  }

  lemma {:induction false} AssignmentWf(e: Ast, s: Ctx, fuel: nat)
    requires Wf(s)
    requires e.Assignment?
    decreases fuel, e, 0, 0
    ensures Wf(EvalAssignment(e, s, fuel).ctx)
  {
    if e.target.Variable? {
      var x := e.target.name;
      if e.isNew && x !in s.variables {
        EvalWf(e.rhs, s, fuel);
        var r := Eval(e.rhs, s, fuel);
        if r.outcome.Done? && r.outcome.result.IrValue? && DeclaredTypeOf(TagOf(r.outcome.result.v)) == Some(e.declType) {
          DeclareWf(x, r.outcome.result.v, e.declType, r.ctx);
        }
      } else if !e.isNew && x in s.variables {
        EvalWf(e.rhs, s, fuel);
        var r := Eval(e.rhs, s, fuel);
        if r.outcome.Done? && x in r.ctx.variables {
          ReassignWf(x, r.outcome.result, r.ctx);
        }
      }
    }
  }

  /** A declaration's new slot is the alloca it appends. */
  lemma DeclareWf(x: string, v: Val, d: DeclType, s: Ctx)
    requires Wf(s) && DeclaredTypeOf(TagOf(v)) == Some(d)
    ensures Wf(s.(variables := s.variables[x := Binding(IrValue(v), d, |s.log|)],
                  log := s.log + [Alloca(TagOf(v), x), Store(IrValue(v), |s.log|)]))
  {
    var p := |s.log|;
    var c := s.(variables := s.variables[x := Binding(IrValue(v), d, p)],
                log := s.log + [Alloca(TagOf(v), x), Store(IrValue(v), p)]);
    forall y | y in c.variables
      ensures c.variables[y].ptr < |c.log| && c.log[c.variables[y].ptr] == Alloca(SlotTag(c.variables[y].declType), y)
    {
      if y != x { assert c.log[c.variables[y].ptr] == s.log[s.variables[y].ptr]; }
    }
  }

  /** A reassignment changes the stored value, never the slot. */
  lemma ReassignWf(x: string, v: EvalResult, s: Ctx)
    requires Wf(s) && x in s.variables
    ensures Wf(s.(variables := s.variables[x := s.variables[x].(value := v)],
                  log := s.log + [Store(v, s.variables[x].ptr)]))
  {
    var c := s.(variables := s.variables[x := s.variables[x].(value := v)],
                log := s.log + [Store(v, s.variables[x].ptr)]);
    forall y | y in c.variables
      ensures c.variables[y].ptr < |c.log| && c.log[c.variables[y].ptr] == Alloca(SlotTag(c.variables[y].declType), y)
    {
      assert c.log[c.variables[y].ptr] == s.log[s.variables[y].ptr];
    }
  }

  lemma {:induction false} OperatorWf(e: Ast, s: Ctx, fuel: nat)
    requires Wf(s)
    requires e.Arith? || e.And? || e.Or?
    decreases fuel, e, 0, 0
    ensures e.Arith? ==> Wf(EvalArith(e, s, fuel).ctx)
    ensures !e.Arith? ==> Wf(EvalLogical(e, s, fuel).ctx)
  {
    EvalWf(e.left, s, fuel);
    var l := Eval(e.left, s, fuel);
    if l.outcome.Done? {
      EvalWf(e.right, l.ctx, fuel);
      var r := Eval(e.right, l.ctx, fuel);
      if r.outcome.Done? && l.outcome.result.IrValue? {
        var res := if e.Arith? then EvalArith(e, s, fuel) else EvalLogical(e, s, fuel);
        WfGrow(r.ctx, res.ctx);
      }
    }
  }

  lemma {:induction false} CompareWf(e: Ast, s: Ctx, fuel: nat)
    requires Wf(s)
    requires e.Compare?
    decreases fuel, e, 0, 0
    ensures Wf(EvalCompare(e, s, fuel).ctx)
  {
    EvalWf(e.left, s, fuel);
    var l := Eval(e.left, s, fuel);
    if l.outcome.Done? {
      EvalWf(e.right, l.ctx, fuel);
      var r := Eval(e.right, l.ctx, fuel);
      if r.outcome.Done? {
        EvalWf(e.left, r.ctx, fuel);
        var l2 := Eval(e.left, r.ctx, fuel);
        if l2.outcome.Done? && l2.outcome.result.IrValue? {
          WfGrow(l2.ctx, EvalCompare(e, s, fuel).ctx);
        }
      }
    }
  }

  lemma {:induction false} NotWf(e: Ast, s: Ctx, fuel: nat)
    requires Wf(s)
    requires e.Not?
    decreases fuel, e, 0, 0
    ensures Wf(EvalNot(e, s, fuel).ctx)
  {
    if e.id !in s.replaced {
      EvalWf(e.inner, s, fuel);
      var r := Eval(e.inner, s, fuel);
      if r.outcome.Done? && r.outcome.result.IrValue? {
        WfGrow(r.ctx, EvalNot(e, s, fuel).ctx);
      }
    }
  }

  lemma {:induction false} PrintWf(e: Ast, s: Ctx, fuel: nat)
    requires Wf(s)
    requires e.Print?
    decreases fuel, e, 0, 0
    ensures Wf(EvalPrint(e, s, fuel).ctx)
  {
    if e.arg.Some? {
      EvalWf(e.arg.value, s, fuel);
      var r := Eval(e.arg.value, s, fuel);
      if r.outcome.Done? {
        WfGrow(r.ctx, EvalPrint(e, s, fuel).ctx);
      }
    }
  }

  /** Every node extends the state, and one that completes returns a value
      already in the log and leaves the loop stacks as it found them. */
  lemma {:induction false} EvalGrows(e: Ast, s: Ctx, fuel: nat)
    decreases fuel, e, 2, 0
    ensures Grows(s, Eval(e, s, fuel))
  {
    if IsValueNode(e) {
      ValueGrows(e, s, fuel);
    } else if IsOperatorNode(e) {
      OperationGrows(e, s, fuel);
    } else {
      StructureGrows(e, s, fuel);
    }
  }

  lemma {:induction false} StructureGrows(e: Ast, s: Ctx, fuel: nat)
    requires !IsValueNode(e) && !IsOperatorNode(e)
    decreases fuel, e, 1, 0
    ensures Grows(s, EvalStructure(e, s, fuel))
  {
    if e.MainProgram? || e.ExpressParenthesis? || e.StatementFull? || e.Statement? {
      EvalGrows(Unwrap(e), s, fuel);
    } else if e.Program? || e.Block? {
      SeqGrows(e, 0, s, fuel, [], NoneResult);
    } else if e.If? {
      IfGrows(e, s, fuel);
    } else if e.While? {
      WhileGrows(e, s, fuel);
    }
  }

  lemma {:induction false} OperationGrows(e: Ast, s: Ctx, fuel: nat)
    requires IsOperatorNode(e)
    decreases fuel, e, 1, 0
    ensures Grows(s, EvalOperator(e, s, fuel))
  {
    match e
    case Arith(_, _, _) => OperatorGrows(e, s, fuel);
    case And(_, _) => OperatorGrows(e, s, fuel);
    case Or(_, _) => OperatorGrows(e, s, fuel);
    case Compare(_, _, _) => CompareGrows(e, s, fuel);
    case Not(_, x) => if e.id !in s.replaced { EvalGrows(x, s, fuel); }
    case Print(a) => if a.Some? { EvalGrows(a.value, s, fuel); }
  }

  lemma {:induction false} ValueGrows(e: Ast, s: Ctx, fuel: nat)
    requires IsValueNode(e)
    decreases fuel, e, 1, 0
    ensures Grows(s, EvalValue(e, s, fuel))
  {
    match e
    case Variable(_) =>
    case CallFunction(x) =>
      if x in s.functions && fuel > 0 { EvalGrows(s.functions[x], s, fuel - 1); }
    case Sumi(_, _) => IntrinsicGrows(e, s, fuel);
    case Sumf(_, _) => IntrinsicGrows(e, s, fuel);
    case Integer(_) =>
    case Float(_) =>
    case Assignment(_, _, _, _) => AssignmentGrows(e, s, fuel);
  }

  lemma {:induction false} SeqGrows(e: Ast, i: nat, s: Ctx, fuel: nat, parts: seq<seq<Tree>>, last: EvalResult)
    requires e.Program? || e.Block?
    requires i <= |e.stmts|
    requires Logged(last, s)
    decreases fuel, e, 0, |e.stmts| - i
    ensures Grows(s, EvalSeq(e, i, s, fuel, parts, last))
  {
    if i < |e.stmts| {
      EvalGrows(e.stmts[i], s, fuel);
      var r := Eval(e.stmts[i], s, fuel);
      if r.outcome.Done? {
        SeqGrows(e, i + 1, r.ctx, fuel, parts + [r.kids], r.outcome.result);
        ExtendsTrans(s, r.ctx, EvalSeq(e, i + 1, r.ctx, fuel, parts + [r.kids], r.outcome.result).ctx);
      }
    }
  }

  lemma {:induction false} IfGrows(e: Ast, s: Ctx, fuel: nat)
    requires e.If?
    decreases fuel, e, 0, 1
    ensures Grows(s, EvalIf(e, s, fuel))
  {
    EvalGrows(e.cond, s, fuel);
    var c := Eval(e.cond, s, fuel);
    if c.outcome.Done? {
      var n := c.ctx.blocks;
      var c1 := Emit(c.ctx.(blocks := n + 3), IfElse(c.outcome.result, n, n + 1, n + 2));
      EvalGrows(e.body, c1, fuel);
      var t := Eval(e.body, c1, fuel);
      ExtendsTrans(s, c.ctx, c1);
      ExtendsTrans(s, c1, t.ctx);
      if t.outcome.Done? {
        var c2 := Emit(t.ctx, Otherwise(n + 1));
        ExtendsTrans(s, t.ctx, c2);
        var thenPart := [Leaf("IF"), Leaf("("), Expr(c.kids), Leaf(")"), Leaf("{"), Labelled("block", t.kids), Leaf("}")];
        OtherwiseGrows(e, thenPart, c2, n + 2, fuel);
        ExtendsTrans(s, c2, EvalOtherwise(e, thenPart, c2, n + 2, fuel).ctx);
      }
    }
  }

  lemma {:induction false} OtherwiseGrows(e: Ast, kids: seq<Tree>, s: Ctx, endBlock: BlockId, fuel: nat)
    requires e.If?
    decreases fuel, e, 0, 0
    ensures Grows(s, EvalOtherwise(e, kids, s, endBlock, fuel))
  {
    match e.elseBody
    case None =>
    case Some(eb) =>
      EvalGrows(eb, s, fuel);
  }

  lemma {:induction false} WhileGrows(e: Ast, s: Ctx, fuel: nat)
    requires e.While?
    decreases fuel, e, 0, 1
    ensures Grows(s, EvalWhile(e, s, fuel))
  {
    EvalGrows(e.cond, s, fuel);
    var c := Eval(e.cond, s, fuel);
    if c.outcome.Done? {
      var n := c.ctx.blocks;
      var c1 := c.ctx.(blocks := n + 2, whileBody := c.ctx.whileBody + [n], whileEnd := c.ctx.whileEnd + [n + 1],
                       log := c.ctx.log + [CBranch(c.outcome.result, n, n + 1), PositionAt(n)]);
      EvalGrows(e.body, c1, fuel);
      var b := Eval(e.body, c1, fuel);
      ExtendsTrans(s, c.ctx, c1);
      ExtendsTrans(s, c1, b.ctx);
      if b.outcome.Done? {
        LoopExitGrows(e, c.kids, b.kids, b.ctx, n, n + 1, fuel);
        ExtendsTrans(s, b.ctx, EvalLoopExit(e, c.kids, b.kids, b.ctx, n, n + 1, fuel).ctx);
        assert (s.whileBody + [n])[..|s.whileBody|] == s.whileBody;
        assert (s.whileEnd + [n + 1])[..|s.whileEnd|] == s.whileEnd;
      }
    }
  }

  /** The loop exit extends the state and, when it completes, pops one entry
      off each loop stack. */
  lemma {:induction false} LoopExitGrows(e: Ast, condKids: seq<Tree>, bodyKids: seq<Tree>, s: Ctx,
                                         bodyBlock: BlockId, endBlock: BlockId, fuel: nat)
    requires e.While?
    decreases fuel, e, 0, 0
    ensures var r := EvalLoopExit(e, condKids, bodyKids, s, bodyBlock, endBlock, fuel);
            && Extends(s, r.ctx)
            && (r.outcome.Done? ==>
                  && r.outcome.result == NoneResult
                  && |s.whileBody| > 0 && |s.whileEnd| > 0
                  && r.ctx.whileBody == s.whileBody[..|s.whileBody| - 1]
                  && r.ctx.whileEnd == s.whileEnd[..|s.whileEnd| - 1])
  {
    EvalGrows(e.cond, s, fuel);
  }

  lemma {:induction false} IntrinsicGrows(e: Ast, s: Ctx, fuel: nat)
    requires e.Sumi? || e.Sumf?
    decreases fuel, e, 0, 0
    ensures Grows(s, EvalIntrinsic(e, s, fuel))
  {
    EvalGrows(e.left, s, fuel);
    var a := Eval(e.left, s, fuel);
    if a.outcome.Done? {
      EvalGrows(e.right, a.ctx, fuel);
      ExtendsTrans(s, a.ctx, Eval(e.right, a.ctx, fuel).ctx);
    }
  }

  lemma {:induction false} AssignmentGrows(e: Ast, s: Ctx, fuel: nat)
    requires e.Assignment?
    decreases fuel, e, 0, 0
    ensures Grows(s, EvalAssignment(e, s, fuel))
  {
    if e.target.Variable? && (e.isNew != (e.target.name in s.variables)) {
      EvalGrows(e.rhs, s, fuel);
    }
  }

  lemma {:induction false} OperatorGrows(e: Ast, s: Ctx, fuel: nat)
    requires e.Arith? || e.And? || e.Or?
    decreases fuel, e, 0, 0
    ensures e.Arith? ==> Grows(s, EvalArith(e, s, fuel))
    ensures !e.Arith? ==> Grows(s, EvalLogical(e, s, fuel))
  {
    EvalGrows(e.left, s, fuel);
    var l := Eval(e.left, s, fuel);
    if l.outcome.Done? {
      EvalGrows(e.right, l.ctx, fuel);
      ExtendsTrans(s, l.ctx, Eval(e.right, l.ctx, fuel).ctx);
    }
  }

  lemma {:induction false} CompareGrows(e: Ast, s: Ctx, fuel: nat)
    requires e.Compare?
    decreases fuel, e, 0, 0
    ensures Grows(s, EvalCompare(e, s, fuel))
  {
    EvalGrows(e.left, s, fuel);
    var l := Eval(e.left, s, fuel);
    if l.outcome.Done? {
      EvalGrows(e.right, l.ctx, fuel);
      var r := Eval(e.right, l.ctx, fuel);
      ExtendsTrans(s, l.ctx, r.ctx);
      if r.outcome.Done? {
        EvalGrows(e.left, r.ctx, fuel);
        ExtendsTrans(s, r.ctx, Eval(e.left, r.ctx, fuel).ctx);
      }
    }
  }
}
