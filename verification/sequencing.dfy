/**
 * Program and Block run their statements strictly left to right, each in
 * the state the previous one left, and return the last statement's result.
 * `RunStatements` says this head first, independently of the loop that
 * `EvalSeq` models; the lemmas below connect the two and read off the shape
 * of the diagnostic chain.
 */
module Sequencing {
  import opened Ir
  import opened Ast
  import opened Diagnostics
  import opened CompilerState
  import opened Semantics
  import opened Invariants

  /** The children of each statement that ran, the outcome and the state. */
  datatype Run = Run(parts: seq<seq<Tree>>, outcome: Outcome, ctx: Ctx)

  /** Runs `ss` from `s`: the first statement, then the rest from the state
      it left, stopping at the first one that raises. `last` is the result
      returned when no statement is left. */
  function RunStatements(ss: seq<Ast>, s: Ctx, fuel: nat, last: EvalResult): (r: Run)
    ensures |r.parts| <= |ss|
    ensures r.outcome.Done? ==> |r.parts| == |ss|
    ensures |ss| > 0 ==> |r.parts| > 0
    decreases |ss|
  {
    if |ss| == 0 then Run([], Done(last), s)
    else
      var h := Eval(ss[0], s, fuel);
      if h.outcome.Raised? then Run([h.kids], h.outcome, h.ctx)
      else
        var rest := RunStatements(ss[1..], h.ctx, fuel, h.outcome.result);
        Run([h.kids] + rest.parts, rest.outcome, rest.ctx)
  }

  /** The loop of Program.eval/Block.eval, from statement i on, is the head
      first run of the remaining statements, with the chain built from all
      parts so far. */
  lemma {:induction false} EvalSeqRuns(e: Ast, i: nat, s: Ctx, fuel: nat, parts: seq<seq<Tree>>, last: EvalResult)
    requires e.Program? || e.Block?
    requires i <= |e.stmts|
    ensures var r := RunStatements(e.stmts[i..], s, fuel, last);
            EvalSeq(e, i, s, fuel, parts, last) == Step(Nest(SeqLabel(e), parts + r.parts, |e.stmts|), r.outcome, r.ctx)
    decreases |e.stmts| - i
  {
    if i == |e.stmts| {
      assert parts + [] == parts;
    } else {
      assert e.stmts[i..][1..] == e.stmts[i + 1..];
      var h := Eval(e.stmts[i], s, fuel);
      if h.outcome.Done? {
        EvalSeqRuns(e, i + 1, h.ctx, fuel, parts + [h.kids], h.outcome.result);
        var rest := RunStatements(e.stmts[i + 1..], h.ctx, fuel, h.outcome.result);
        assert parts + [h.kids] + rest.parts == parts + ([h.kids] + rest.parts);
      }
    }
  }

  /** Running one more statement after `ss` is running `ss` and then, if
      nothing raised, that statement in the state `ss` left: statements run
      left to right and the result is the last statement's. */
  lemma {:induction false} RunSnoc(ss: seq<Ast>, x: Ast, s: Ctx, fuel: nat, last: EvalResult)
    ensures var a := RunStatements(ss, s, fuel, last);
            var r := RunStatements(ss + [x], s, fuel, last);
            if a.outcome.Raised? then r == a
            else
              var h := Eval(x, a.ctx, fuel);
              r == Run(a.parts + [h.kids], h.outcome, h.ctx)
    decreases |ss|
  {
    if |ss| == 0 {
      assert [] + [x] == [x];
      assert ([x])[1..] == [];
    } else {
      assert (ss + [x])[0] == ss[0];
      assert (ss + [x])[1..] == ss[1..] + [x];
      var h := Eval(ss[0], s, fuel);
      if h.outcome.Done? {
        RunSnoc(ss[1..], x, h.ctx, fuel, h.outcome.result);
        var b := RunStatements(ss[1..], h.ctx, fuel, h.outcome.result);
        if b.outcome.Done? {
          var k := Eval(x, b.ctx, fuel);
          assert [h.kids] + (b.parts + [k.kids]) == ([h.kids] + b.parts) + [k.kids];
        }
      }
    }
  }

  /** A block ends in the state and with the outcome of the head-first run
      of its statements. */
  lemma BlockRuns(ss: seq<Ast>, s: Ctx, fuel: nat)
    ensures var r := Eval(Block(ss), s, fuel);
            var run := RunStatements(ss, s, fuel, NoneResult);
            r.ctx == run.ctx && r.outcome == run.outcome
  {
    var body := Block(ss);
    assert Eval(body, s, fuel) == EvalStructure(body, s, fuel) == EvalSeq(body, 0, s, fuel, [], NoneResult);
    EvalSeqRuns(body, 0, s, fuel, [], NoneResult);
    assert ss[0..] == ss;
  }

  /** Running `a + b` is running `a` and then, if nothing raised, `b` from
      the state `a` left, with `a`'s last result. */
  lemma {:induction false} RunAppend(a: seq<Ast>, b: seq<Ast>, s: Ctx, fuel: nat, last: EvalResult)
    ensures var x := RunStatements(a, s, fuel, last);
            var r := RunStatements(a + b, s, fuel, last);
            x.outcome.Done? ==>
              var y := RunStatements(b, x.ctx, fuel, x.outcome.result);
              r == Run(x.parts + y.parts, y.outcome, y.ctx)
    decreases |a|
  {
    if |a| == 0 {
      assert [] + b == b;
    } else {
      assert (a + b)[0] == a[0];
      assert (a + b)[1..] == a[1..] + b;
      var h := Eval(a[0], s, fuel);
      if h.outcome.Done? {
        RunAppend(a[1..], b, h.ctx, fuel, h.outcome.result);
        var x := RunStatements(a[1..], h.ctx, fuel, h.outcome.result);
        if x.outcome.Done? {
          var y := RunStatements(b, x.ctx, fuel, x.outcome.result);
          assert [h.kids] + (x.parts + y.parts) == ([h.kids] + x.parts) + y.parts;
        }
      }
    }
  }

  /** A run only extends the state, and a run that completes leaves both
      loop stacks as it found them. */
  lemma {:induction false} RunGrows(ss: seq<Ast>, s: Ctx, fuel: nat, last: EvalResult)
    ensures var r := RunStatements(ss, s, fuel, last);
            && Extends(s, r.ctx)
            && (r.outcome.Done? ==> r.ctx.whileBody == s.whileBody && r.ctx.whileEnd == s.whileEnd)
    decreases |ss|
  {
    if |ss| > 0 {
      EvalGrows(ss[0], s, fuel);
      var h := Eval(ss[0], s, fuel);
      if h.outcome.Done? {
        RunGrows(ss[1..], h.ctx, fuel, h.outcome.result);
        ExtendsTrans(s, h.ctx, RunStatements(ss[1..], h.ctx, fuel, h.outcome.result).ctx);
      }
    }
  }

  /** A program or block whose statements all complete returns the result
      of its last statement, and its diagnostic chain holds each statement's
      children under its own `statement_full` node, in order, with one
      nested `program`/`block` node fewer than statements. */
  lemma SequenceShape(e: Ast, s: Ctx, fuel: nat)
    requires e.Program? || e.Block?
    requires |e.stmts| >= 1
    ensures var r := Eval(e, s, fuel);
            var run := RunStatements(e.stmts, s, fuel, NoneResult);
            r.outcome.Done? ==>
              && r.outcome == run.outcome
              && SpineParts(SeqLabel(e), r.kids) == run.parts
              && |run.parts| == |e.stmts|
              && NestDepth(SeqLabel(e), r.kids) == |e.stmts| - 1
  {
    assert Eval(e, s, fuel) == EvalStructure(e, s, fuel) == EvalSeq(e, 0, s, fuel, [], NoneResult);
    EvalSeqRuns(e, 0, s, fuel, [], NoneResult);
    assert e.stmts[0..] == e.stmts;
    var run := RunStatements(e.stmts, s, fuel, NoneResult);
    assert [] + run.parts == run.parts;
    if run.outcome.Done? {
      NestRoundTrip(SeqLabel(e), run.parts);
    }
  }

  /** The result of a completed run is the last statement's result. */
  lemma LastResult(ss: seq<Ast>, s: Ctx, fuel: nat)
    requires |ss| >= 1
    ensures var a := RunStatements(ss[..|ss| - 1], s, fuel, NoneResult);
            var r := RunStatements(ss, s, fuel, NoneResult);
            r.outcome.Done? ==> a.outcome.Done? && r.outcome == Eval(ss[|ss| - 1], a.ctx, fuel).outcome
  {
    assert ss == ss[..|ss| - 1] + [ss[|ss| - 1]];
    RunSnoc(ss[..|ss| - 1], ss[|ss| - 1], s, fuel, NoneResult);
  }
}
