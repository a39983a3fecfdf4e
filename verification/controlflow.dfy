/**
 * The conditional and the loop: the IR scaffold each emits, the loop
 * stacks the body sees, and the blocks that Break and Continue branch to.
 */
module ControlFlow {
  import opened Ir
  import opened Ast
  import opened Diagnostics
  import opened CompilerState
  import opened Semantics
  import opened Invariants
  import opened Sequencing
  import opened NodeProperties

  /** Every loop-stack entry names a block appended before `s`. */
  predicate StacksBelow(s: Ctx)
  {
    && (forall i :: 0 <= i < |s.whileBody| ==> s.whileBody[i] < s.blocks)
    && (forall i :: 0 <= i < |s.whileEnd| ==> s.whileEnd[i] < s.blocks)
  }

  /** The else part of a conditional whose then branch completed: it runs
      the else branch when there is one and closes the scaffold at the end
      block; the state only grows, and a completed else part returns None,
      keeps the loop stacks and adds the four `else { block }` children. */
  lemma OtherwiseShape(e: Ast, kids: seq<Tree>, s: Ctx, endBlock: BlockId, fuel: nat)
    requires e.If?
    ensures var r := EvalOtherwise(e, kids, s, endBlock, fuel);
            && Extends(s, r.ctx)
            && (r.outcome.Done? ==>
                  && r.outcome.result == NoneResult
                  && |s.log| < |r.ctx.log| && r.ctx.log[|r.ctx.log| - 1] == EndIf(endBlock)
                  && r.ctx.whileBody == s.whileBody && r.ctx.whileEnd == s.whileEnd
                  && |r.kids| == |kids| + (if e.elseBody.Some? then 4 else 0))
  {
    if e.elseBody.Some? {
      EvalGrows(e.elseBody.value, s, fuel);
    }
  }

  /** The conditional after its condition: the then branch runs from `c1`;
      when it completes, the cursor moves to the else block and the else
      part follows. A completed conditional has only grown the log from
      `c1`, returns None, closes the scaffold last, keeps `c1`'s loop stacks
      and adds three children for the then branch and four more for an
      else branch. */
  lemma ThenShape(e: Ast, head: seq<Tree>, c1: Ctx, n: BlockId, fuel: nat)
    requires e.If?
    ensures var t := Eval(e.body, c1, fuel);
            var thenPart := head + [Leaf("{"), Labelled("block", t.kids), Leaf("}")];
            && c1.log <= t.ctx.log && c1.blocks <= t.ctx.blocks
            && (t.outcome.Done? ==>
                  var r := EvalOtherwise(e, thenPart, Emit(t.ctx, Otherwise(n + 1)), n + 2, fuel);
                  && c1.log <= r.ctx.log && c1.blocks <= r.ctx.blocks
                  && (r.outcome.Done? ==>
                        && r.outcome.result == NoneResult
                        && r.ctx.log[|r.ctx.log| - 1] == EndIf(n + 2)
                        && r.ctx.whileBody == c1.whileBody && r.ctx.whileEnd == c1.whileEnd
                        && |r.kids| == |head| + (if e.elseBody.Some? then 7 else 3)))
  {
    EvalGrows(e.body, c1, fuel);
    var t := Eval(e.body, c1, fuel);
    if t.outcome.Done? {
      var thenPart := head + [Leaf("{"), Labelled("block", t.kids), Leaf("}")];
      OtherwiseShape(e, thenPart, Emit(t.ctx, Otherwise(n + 1)), n + 2, fuel);
    }
  }

  /** The conditional's steps as `EvalIf` takes them; see IfShape. */
  lemma IfSteps(e: Ast, s: Ctx, fuel: nat)
    requires e.If?
    ensures var r := EvalIf(e, s, fuel);
            var c := Eval(e.cond, s, fuel);
            && (c.outcome.Raised? ==> r == Step([Leaf("IF"), Leaf("("), Expr(c.kids), Leaf(")")], c.outcome, c.ctx))
            && (c.outcome.Done? ==>
                  var n := c.ctx.blocks;
                  && |c.ctx.log| < |r.ctx.log|
                  && r.ctx.log[|c.ctx.log|] == IfElse(c.outcome.result, n, n + 1, n + 2)
                  && n + 3 <= r.ctx.blocks
                  && (r.outcome.Done? ==>
                        && r.outcome.result == NoneResult
                        && r.ctx.log[|r.ctx.log| - 1] == EndIf(n + 2)
                        && r.ctx.whileBody == s.whileBody && r.ctx.whileEnd == s.whileEnd
                        && |r.kids| == (if e.elseBody.Some? then 11 else 7)))
  {
    EvalGrows(e.cond, s, fuel);
    var c := Eval(e.cond, s, fuel);
    if c.outcome.Done? {
      var n := c.ctx.blocks;
      var c1 := Emit(c.ctx.(blocks := n + 3), IfElse(c.outcome.result, n, n + 1, n + 2));
      var head := [Leaf("IF"), Leaf("("), Expr(c.kids), Leaf(")")];
      ThenShape(e, head, c1, n, fuel);
      var t := Eval(e.body, c1, fuel);
      var thenPart := head + [Leaf("{"), Labelled("block", t.kids), Leaf("}")];
      if t.outcome.Raised? {
        assert EvalIf(e, s, fuel) == Step(thenPart, t.outcome, t.ctx);
      } else {
        assert EvalIf(e, s, fuel) == EvalOtherwise(e, thenPart, Emit(t.ctx, Otherwise(n + 1)), n + 2, fuel);
      }
      assert c1.log[|c.ctx.log|] == IfElse(c.outcome.result, n, n + 1, n + 2);
    }
  }

  /** The conditional: the condition's failure stops it after `IF ( expr )`;
      otherwise three fresh blocks are taken and the if_else scaffold is
      emitted right after the condition's code. A completed conditional
      returns None, closes the scaffold last, leaves the loop stacks as they
      were and shows the `else` part exactly when it has one. */
  lemma IfShape(e: Ast, s: Ctx, fuel: nat)
    requires e.If?
    ensures var r := Eval(e, s, fuel);
            var c := Eval(e.cond, s, fuel);
            && (c.outcome.Raised? ==> r == Step([Leaf("IF"), Leaf("("), Expr(c.kids), Leaf(")")], c.outcome, c.ctx))
            && (c.outcome.Done? ==>
                  var n := c.ctx.blocks;
                  && |c.ctx.log| < |r.ctx.log|
                  && r.ctx.log[|c.ctx.log|] == IfElse(c.outcome.result, n, n + 1, n + 2)
                  && n + 3 <= r.ctx.blocks
                  && (r.outcome.Done? ==>
                        && r.outcome.result == NoneResult
                        && r.ctx.log[|r.ctx.log| - 1] == EndIf(n + 2)
                        && r.ctx.whileBody == s.whileBody && r.ctx.whileEnd == s.whileEnd
                        && |r.kids| == (if e.elseBody.Some? then 11 else 7)))
  {
    assert Eval(e, s, fuel) == EvalStructure(e, s, fuel) == EvalIf(e, s, fuel);
    IfSteps(e, s, fuel);
  }

  /** The loop's exit: with both loop stacks non-empty the pops cannot
      fail, so it completes exactly when the repeated condition does, and
      then it has branched on that condition and moved to the end block. */
  lemma LoopExit(e: Ast, condKids: seq<Tree>, bodyKids: seq<Tree>, s: Ctx, bodyBlock: BlockId, endBlock: BlockId, fuel: nat)
    requires e.While?
    requires |s.whileBody| > 0 && |s.whileEnd| > 0
    ensures var r := EvalLoopExit(e, condKids, bodyKids, s, bodyBlock, endBlock, fuel);
            var c2 := Eval(e.cond, s, fuel);
            && s.log <= r.ctx.log
            && (r.outcome.Done? <==> c2.outcome.Done?)
            && (c2.outcome.Raised? ==> r.outcome == c2.outcome)
            && (r.outcome.Done? ==>
                  && r.outcome.result == NoneResult
                  && r.ctx.whileBody == s.whileBody[..|s.whileBody| - 1]
                  && r.ctx.whileEnd == s.whileEnd[..|s.whileEnd| - 1]
                  && r.ctx.log == c2.ctx.log + [CBranch(c2.outcome.result, bodyBlock, endBlock), PositionAt(endBlock)])
  {
    EvalGrows(e.cond, s, fuel);
  }

  /** The loop: after its condition it takes blocks n (body) and n + 1
      (end), pushes them, branches on the condition and enters the body,
      which therefore sees both stacks one entry deeper. After a completed
      body the condition runs again, its branch is emitted and the cursor
      moves to the end block; the pops cannot fail, so the loop completes
      exactly when the second condition does, and then it returns None with
      both stacks as they were. */
  lemma WhileLoop(e: Ast, s: Ctx, fuel: nat)
    requires e.While?
    ensures var r := Eval(e, s, fuel);
            var c := Eval(e.cond, s, fuel);
            c.outcome.Done? ==>
              var n := c.ctx.blocks;
              var c1 := c.ctx.(blocks := n + 2, whileBody := s.whileBody + [n], whileEnd := s.whileEnd + [n + 1],
                               log := c.ctx.log + [CBranch(c.outcome.result, n, n + 1), PositionAt(n)]);
              var b := Eval(e.body, c1, fuel);
              && (b.outcome.Raised? ==> r.outcome == b.outcome && r.ctx == b.ctx)
              && (b.outcome.Done? ==>
                    var c2 := Eval(e.cond, b.ctx, fuel);
                    && b.ctx.log <= r.ctx.log
                    && (r.outcome.Done? <==> c2.outcome.Done?)
                    && (c2.outcome.Raised? ==> r.outcome == c2.outcome)
                    && (r.outcome.Done? ==>
                          && r.outcome.result == NoneResult
                          && r.ctx.whileBody == s.whileBody && r.ctx.whileEnd == s.whileEnd
                          && r.ctx.log == c2.ctx.log + [CBranch(c2.outcome.result, n, n + 1), PositionAt(n + 1)]))
  {
    assert Eval(e, s, fuel) == EvalStructure(e, s, fuel) == EvalWhile(e, s, fuel);
    EvalGrows(e.cond, s, fuel);
    var c := Eval(e.cond, s, fuel);
    if c.outcome.Done? {
      var n := c.ctx.blocks;
      var c1 := c.ctx.(blocks := n + 2, whileBody := c.ctx.whileBody + [n], whileEnd := c.ctx.whileEnd + [n + 1],
                       log := c.ctx.log + [CBranch(c.outcome.result, n, n + 1), PositionAt(n)]);
      EvalGrows(e.body, c1, fuel);
      var b := Eval(e.body, c1, fuel);
      if b.outcome.Done? {
        LoopExit(e, c.kids, b.kids, b.ctx, n, n + 1, fuel);
        assert (s.whileBody + [n])[..|s.whileBody|] == s.whileBody;
        assert (s.whileEnd + [n + 1])[..|s.whileEnd|] == s.whileEnd;
      }
    }
  }

  /** A loop whose condition raises stops right after `WHILE ( expr`. */
  lemma WhileConditionRaised(e: Ast, s: Ctx, fuel: nat)
    requires e.While?
    ensures var c := Eval(e.cond, s, fuel);
            c.outcome.Raised? ==> Eval(e, s, fuel) == Step([Leaf("WHILE"), Leaf("("), Expr(c.kids), Leaf(")")], c.outcome, c.ctx)
  {
    assert Eval(e, s, fuel) == EvalStructure(e, s, fuel) == EvalWhile(e, s, fuel);
  }

  /** The loop evaluates its condition again after a completed body, so a
      loop whose condition is a Not node never completes: the condition or
      the body raises, or the second evaluation of the Not finds its
      operand replaced and raises AttributeError. */
  lemma NotConditionRaises(id: nat, a: Ast, body: Ast, s: Ctx, fuel: nat)
    ensures var r := Eval(While(Not(id, a), body), s, fuel);
            var c := Eval(Not(id, a), s, fuel);
            && r.outcome.Raised?
            && (c.outcome.Done? ==>
                  var n := c.ctx.blocks;
                  var c1 := c.ctx.(blocks := n + 2, whileBody := s.whileBody + [n], whileEnd := s.whileEnd + [n + 1],
                                   log := c.ctx.log + [CBranch(c.outcome.result, n, n + 1), PositionAt(n)]);
                  Eval(body, c1, fuel).outcome.Done? ==> ClassOf(r.outcome.error) == AttributeError)
  {
    var e := While(Not(id, a), body);
    WhileLoop(e, s, fuel);
    WhileConditionRaised(e, s, fuel);
    NotLowering(id, a, s, fuel);
    var c := Eval(Not(id, a), s, fuel);
    if c.outcome.Done? {
      var n := c.ctx.blocks;
      var c1 := c.ctx.(blocks := n + 2, whileBody := s.whileBody + [n], whileEnd := s.whileEnd + [n + 1],
                       log := c.ctx.log + [CBranch(c.outcome.result, n, n + 1), PositionAt(n)]);
      EvalGrows(body, c1, fuel);
      var b := Eval(body, c1, fuel);
      if b.outcome.Done? {
        NotLowering(id, a, b.ctx, fuel);
      }
    }
  }

  /** A Break (Continue) statement run inside a loop completes after a
      single branch to the innermost end (body) block. */
  lemma JumpStatement(jump: Ast, t: Ctx, fuel: nat)
    requires jump.Break? || jump.Continue?
    requires |t.whileBody| > 0 && |t.whileEnd| > 0
    ensures var stack := if jump.Break? then t.whileEnd else t.whileBody;
            var j := Eval(StatementFull(jump), t, fuel);
            j.outcome.Done? && j.ctx == Emit(t, Branch(stack[|stack| - 1]))
  {
    assert Eval(jump, t, fuel) == EvalStructure(jump, t, fuel) == EvalJump(jump, t);
    assert Eval(StatementFull(jump), t, fuel) == EvalStructure(StatementFull(jump), t, fuel);
  }

  /** Statements starting with a Break (Continue) run inside a loop: the
      jump's branch to the innermost end (body) block comes first in the
      log after `t`, whatever follows it. */
  lemma JumpFirst(jump: Ast, post: seq<Ast>, t: Ctx, fuel: nat, last: EvalResult)
    requires jump.Break? || jump.Continue?
    requires |t.whileBody| > 0 && |t.whileEnd| > 0
    ensures var stack := if jump.Break? then t.whileEnd else t.whileBody;
            var y := RunStatements([StatementFull(jump)] + post, t, fuel, last);
            |t.log| < |y.ctx.log| && y.ctx.log[|t.log|] == Branch(stack[|stack| - 1])
  {
    JumpStatement(jump, t, fuel);
    var j := Eval(StatementFull(jump), t, fuel);
    var rest := [StatementFull(jump)] + post;
    assert rest[0] == StatementFull(jump) && rest[1..] == post;
    RunGrows(post, j.ctx, fuel, j.outcome.result);
  }

  /** A block whose statements before a Break (Continue) all complete has,
      in its log, that jump's branch to the innermost end (body) block right
      where those statements' code ends, whatever follows the jump. */
  lemma BodyJump(jump: Ast, pre: seq<Ast>, post: seq<Ast>, t: Ctx, fuel: nat)
    requires jump.Break? || jump.Continue?
    requires |t.whileBody| > 0 && |t.whileEnd| > 0
    ensures var stack := if jump.Break? then t.whileEnd else t.whileBody;
            var b := Eval(Block(pre + [StatementFull(jump)] + post), t, fuel);
            var p := RunStatements(pre, t, fuel, NoneResult);
            p.outcome.Done? ==>
              && |p.ctx.log| < |b.ctx.log|
              && b.ctx.log[|p.ctx.log|] == Branch(stack[|stack| - 1])
  {
    var rest := [StatementFull(jump)] + post;
    assert pre + [StatementFull(jump)] + post == pre + rest;
    BlockRuns(pre + rest, t, fuel);
    var p := RunStatements(pre, t, fuel, NoneResult);
    if p.outcome.Done? {
      RunGrows(pre, t, fuel, NoneResult);
      JumpFirst(jump, post, p.ctx, fuel, p.outcome.result);
      RunAppend(pre, rest, t, fuel, NoneResult);
    }
  }

  /** A Break (Continue) at the top level of a loop's body, after statements
      that all complete, branches to that loop's end (body) block right
      where those statements' code ends: the statements before it leave the
      stacks as the loop pushed them. That block is fresh: when every
      enclosing loop's blocks were appended before the loop started, the
      target is none of theirs. */
  lemma InnermostTarget(isBreak: bool, cond: Ast, pre: seq<Ast>, post: seq<Ast>, s: Ctx, fuel: nat)
    requires StacksBelow(s)
    ensures var jump := if isBreak then Break else Continue;
            var e := While(cond, Block(pre + [StatementFull(jump)] + post));
            var r := Eval(e, s, fuel);
            var c := Eval(cond, s, fuel);
            c.outcome.Done? ==>
              var n := c.ctx.blocks;
              var c1 := c.ctx.(blocks := n + 2, whileBody := s.whileBody + [n], whileEnd := s.whileEnd + [n + 1],
                               log := c.ctx.log + [CBranch(c.outcome.result, n, n + 1), PositionAt(n)]);
              var p := RunStatements(pre, c1, fuel, NoneResult);
              var target := if isBreak then n + 1 else n;
              p.outcome.Done? ==>
                && |p.ctx.log| < |r.ctx.log|
                && r.ctx.log[|p.ctx.log|] == Branch(target)
                && target !in s.whileBody && target !in s.whileEnd
  {
    var jump := if isBreak then Break else Continue;
    var e := While(cond, Block(pre + [StatementFull(jump)] + post));
    EvalGrows(cond, s, fuel);
    var c := Eval(cond, s, fuel);
    if c.outcome.Done? {
      var n := c.ctx.blocks;
      var c1 := c.ctx.(blocks := n + 2, whileBody := s.whileBody + [n], whileEnd := s.whileEnd + [n + 1],
                       log := c.ctx.log + [CBranch(c.outcome.result, n, n + 1), PositionAt(n)]);
      BodyJump(jump, pre, post, c1, fuel);
      WhileLoop(e, s, fuel);
      assert s.blocks <= n;
    }
  }
}
