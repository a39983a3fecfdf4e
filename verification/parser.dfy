/**
 * The reduction actions of the grammar: for each production, the node the
 * action returns. In lowering mode the action builds an AST node. In syntax
 * mode it builds the production's right-hand side as a list of labelled
 * nodes. The LR driver that calls these actions is not modelled: a
 * `Reduction` is one production together with the values of its
 * right-hand-side symbols.
 */
module Reductions {
  import opened Ir
  import opened Ast
  import opened CompilerState

  datatype Result<+T> = Ok(value: T) | Err(error: Error)

  /** What a syntax-mode node carries: nothing, the list an inner action
      returned, a token, or a token's text. */
  datatype Payload = Empty | Kids(nodes: seq<SynNode>) | Tok(token: Token) | Str(text: string)

  datatype SynNode = SynNode(caption: string, payload: Payload)

  function Bare(caption: string): SynNode
  {
    SynNode(caption, Empty)
  }

  /** One production with the values of its right-hand-side symbols; `V` is
      what the inner actions returned: an `Ast` in lowering mode, a node list
      in syntax mode. Tokens are kept where an action reads them. */
  datatype Reduction<V> =
    | MainRule(program: V)                                   // main : program
    | ProgramOne(stmt: V)                                    // program : statement_full
    | ProgramMore(stmt: V, rest: V)                          // program : statement_full program
    | Parenthesis(inner: V)                                  // expression : ( expression )
    | IfRule(cond: V, body: V)                               // statement_full : IF ( expression ) { block }
    | IfElseRule(cond: V, body: V, elseBody: V)              // ... ELSE { block }
    | BlockOne(stmt: V)                                      // block : statement_full
    | BlockMore(stmt: V, rest: V)                            // block : statement_full block
    | WhileRule(cond: V, body: V)                            // statement_full : WHILE ( expression ) { block }
    | FullStatement(stmt: V)                                 // statement_full : statement ;
    | ExprStatement(expr: V)                                 // statement : expression
    | BreakRule(tok: Token)                                  // statement : BREAK
    | ContinueRule(tok: Token)                               // statement : CONTINUE
    | Declare(keyword: DeclType, name: Token, expr: V)       // statement : INT|FLT IDENTIFIER = expression
    | Reassign(name: Token, expr: V)                         // statement : IDENTIFIER = expression
    | FunctionRule(name: Token, body: V)                     // statement_full : FUNCTION IDENTIFIER ( ) { block }
    | NotRule(node: nat, operand: V)                         // expression : NOT expression (`node`: the new object's identity)
    | Arithmetic(left: V, op: Token, right: V)               // expression : expression SUM|SUB|MUL|DIV expression
    | Relational(left: V, op: Token, right: V)               // expression : expression ==|!=|>=|<=|>|<|AND|OR expression
    | PrintEmpty                                             // statement : PRINT ( )
    | PrintArg(arg: V)                                       // statement : PRINT ( expression )
    | Identifier(name: Token)                                // expression : IDENTIFIER
    | CallRule(name: Token)                                  // expression : IDENTIFIER ( )
    | SumiRule(callee: Token, a: V, b: V)                    // expression : SUMI ( expression , expression )
    | SumfRule(callee: Token, a: V, b: V)                    // expression : SUMF ( expression , expression )
    | ConstRule(c: V)                                        // expression : const
    | FloatLiteral(tok: Token)                               // const : FLOAT
    | IntegerLiteral(tok: Token)                             // const : INTEGER

  // ---------------------------------------------------------------- operator tables

  /** The token type of each arithmetic operator. */
  function ArithToken(op: ArithOp): string
  {
    match op
    case Add => "SUM"
    case Sub => "SUB"
    case Mul => "MUL"
    case Div => "DIV"
  }

  /** The arithmetic action's dispatch on the operator token's type. */
  function ArithOf(kind: string): Option<ArithOp>
  {
    if kind == "SUM" then Some(Add)
    else if kind == "SUB" then Some(Sub)
    else if kind == "MUL" then Some(Mul)
    else if kind == "DIV" then Some(Div)
    else None
  }

  /** The node a comparison or logical token selects. */
  datatype RelOp = Cmp(cmp: CmpOp) | AndOp | OrOp

  /** The token type of each comparison or logical operator. */
  function RelToken(r: RelOp): string
  {
    match r
    case Cmp(c) => CmpSymbol(c)
    case AndOp => "AND"
    case OrOp => "OR"
  }

  /** The comparison action's dispatch on the operator token's type. */
  function RelOf(kind: string): Option<RelOp>
  {
    if kind == "==" then Some(Cmp(Eq))
    else if kind == "!=" then Some(Cmp(Ne))
    else if kind == ">=" then Some(Cmp(Ge))
    else if kind == "<=" then Some(Cmp(Le))
    else if kind == ">" then Some(Cmp(Gt))
    else if kind == "<" then Some(Cmp(Lt))
    else if kind == "AND" then Some(AndOp)
    else if kind == "OR" then Some(OrOp)
    else None
  }

  /** The arithmetic table is a bijection between the four operators and the
      tokens SUM, SUB, MUL, DIV: a token selects an operator exactly when it
      is that operator's token. */
  lemma ArithTable(kind: string, op: ArithOp)
    ensures ArithOf(kind) == Some(op) <==> kind == ArithToken(op)
    ensures ArithOf(kind).None? <==> kind !in {"SUM", "SUB", "MUL", "DIV"}
  {
  }

  /** The same for the six comparisons and AND/OR. */
  lemma RelTable(kind: string, r: RelOp)
    ensures RelOf(kind) == Some(r) <==> kind == RelToken(r)
    ensures RelOf(kind).None? <==> kind !in {"==", "!=", ">=", "<=", ">", "<", "AND", "OR"}
  {
  }

  // ---------------------------------------------------------------- integer literals

  function DigitValue(c: char): nat
    requires '0' <= c <= '9'
  {
    (c as int) - ('0' as int)
  }

  predicate AllDigits(t: string)
  {
    forall i :: 0 <= i < |t| ==> '0' <= t[i] <= '9'
  }

  /** The value of a string of decimal digits, most significant first. */
  function DigitsValue(t: string): nat
    requires AllDigits(t)
  {
    if |t| == 0 then 0 else DigitsValue(t[..|t| - 1]) * 10 + DigitValue(t[|t| - 1])
  }

  /** `int(text)` on an INTEGER token: an optional sign, then one or more
      ASCII digits; anything else is rejected. */
  function DecimalValue(t: string): Option<int>
  {
    if |t| > 0 && (t[0] == '-' || t[0] == '+') then
      if |t| > 1 && AllDigits(t[1..]) then
        var m: int := DigitsValue(t[1..]);
        Some(if t[0] == '-' then -m else m)
      else None
    else if |t| > 0 && AllDigits(t) then Some(DigitsValue(t))
    else None
  }

  function DigitChar(d: nat): char
    requires d < 10
  {
    ('0' as int + d) as char
  }

  /** The shortest decimal spelling of a natural number. */
  function DigitsText(n: nat): (t: string)
    ensures |t| > 0 && AllDigits(t)
  {
    if n < 10 then [DigitChar(n)] else DigitsText(n / 10) + [DigitChar(n % 10)]
  }

  /** `str(n)`: a minus sign for negative numbers, then the digits. */
  function DecimalText(n: int): string
  {
    if n < 0 then "-" + DigitsText(-n) else DigitsText(n)
  }

  lemma {:induction false} DigitsRoundTrip(n: nat)
    ensures DigitsValue(DigitsText(n)) == n
  {
    if n >= 10 {
      DigitsRoundTrip(n / 10);
      var t := DigitsText(n);
      assert t[..|t| - 1] == DigitsText(n / 10);
    }
  }

  lemma UnsignedValue(t: string)
    requires |t| > 0 && AllDigits(t)
    ensures DecimalValue(t) == Some(DigitsValue(t))
  {
    assert '0' <= t[0] <= '9';
  }

  lemma NegatedValue(t: string)
    requires |t| > 0 && AllDigits(t)
    ensures DecimalValue("-" + t) == Some(-(DigitsValue(t) as int))
  {
    assert ("-" + t)[1..] == t;
  }

  /** Reading back the decimal spelling of any integer gives the integer. */
  lemma DecimalRoundTrip(n: int)
    ensures DecimalValue(DecimalText(n)) == Some(n)
  {
    if n < 0 {
      DigitsRoundTrip(-n);
      NegatedValue(DigitsText(-n));
    } else {
      DigitsRoundTrip(n);
      UnsignedValue(DigitsText(n));
    }
  }

  // ---------------------------------------------------------------- lowering mode

  /** A `program`/`block` constructor: the new statement first, then the
      statements of the inner node when it is of the same class. */
  function Prepend(stmt: Ast, rest: Ast, isProgram: bool): (r: Ast)
    ensures isProgram ==> r.Program?
    ensures !isProgram ==> r.Block?
    ensures |r.stmts| >= 1 && r.stmts[0] == stmt
    ensures (if isProgram then rest.Program? else rest.Block?) ==> r.stmts[1..] == rest.stmts
    ensures !(if isProgram then rest.Program? else rest.Block?) ==> |r.stmts| == 1
  {
    var tail := if isProgram && rest.Program? then rest.stmts
                else if !isProgram && rest.Block? then rest.stmts
                else [];
    if isProgram then Program([stmt] + tail) else Block([stmt] + tail)
  }

  /** What each action returns in lowering mode. The operator actions reject
      a token outside their table with LogicError; an INTEGER token whose
      text is no decimal numeral fails in `int()`. */
  function Lower(r: Reduction<Ast>): Result<Ast>
  {
    match r
    case MainRule(p) => Ok(MainProgram(p))
    case ProgramOne(s) => Ok(Program([s]))
    case ProgramMore(s, rest) => Ok(Prepend(s, rest, true))
    case Parenthesis(x) => Ok(ExpressParenthesis(x))
    case IfRule(c, b) => Ok(If(c, b, None))
    case IfElseRule(c, b, eb) => Ok(If(c, b, Some(eb)))
    case BlockOne(s) => Ok(Block([s]))
    case BlockMore(s, rest) => Ok(Prepend(s, rest, false))
    case WhileRule(c, b) => Ok(While(c, b))
    case FullStatement(s) => Ok(StatementFull(s))
    case ExprStatement(x) => Ok(Statement(x))
    case BreakRule(_) => Ok(Break)
    case ContinueRule(_) => Ok(Continue)
    case Declare(d, name, x) => Ok(Assignment(Variable(name.text), x, true, d))
    // the constructor's default `type_='INT'` is kept on a reassignment
    case Reassign(name, x) => Ok(Assignment(Variable(name.text), x, false, INT))
    case FunctionRule(name, b) => Ok(FunctionDeclaration(name.text, b))
    case NotRule(n, x) => Ok(Not(n, x))
    case Arithmetic(a, op, b) =>
      (match ArithOf(op.kind)
       case Some(o) => Ok(Arith(o, a, b))
       case None => Err(UnknownOperator(op.kind)))
    case Relational(a, op, b) =>
      (match RelOf(op.kind)
       case Some(Cmp(c)) => Ok(Compare(c, a, b))
       case Some(AndOp) => Ok(And(a, b))
       case Some(OrOp) => Ok(Or(a, b))
       case None => Err(UnknownOperator(op.kind)))
    case PrintEmpty => Ok(Print(None))
    case PrintArg(x) => Ok(Print(Some(x)))
    case Identifier(name) => Ok(Variable(name.text))
    case CallRule(name) => Ok(CallFunction(name.text))
    case SumiRule(_, a, b) => Ok(Sumi(a, b))
    case SumfRule(_, a, b) => Ok(Sumf(a, b))
    case ConstRule(c) => Ok(c)
    case FloatLiteral(t) => Ok(Float(t.text))
    case IntegerLiteral(t) =>
      (match DecimalValue(t.text)
       case Some(n) => Ok(Integer(n))
       case None => Err(BadLiteral(t.text)))
  }

  /** The operator actions' own failure: a token outside their table. */
  predicate RejectsOperator<V>(r: Reduction<V>)
  {
    (r.Arithmetic? && ArithOf(r.op.kind).None?) || (r.Relational? && RelOf(r.op.kind).None?)
  }

  /** Lowering fails exactly on an operator token outside its table, with
      LogicError, or on an INTEGER token that is no numeral, with
      ValueError. */
  lemma LowerFails(r: Reduction<Ast>)
    ensures Lower(r).Err? <==> RejectsOperator(r) || (r.IntegerLiteral? && DecimalValue(r.tok.text).None?)
    ensures RejectsOperator(r) ==> Lower(r) == Err(UnknownOperator(r.op.kind)) && ClassOf(Lower(r).error) == LogicError
    ensures r.IntegerLiteral? && Lower(r).Err? ==> ClassOf(Lower(r).error) == ValueError
  {
  }

  /** A declaration yields a new-variable assignment whose declared type is
      the keyword's; a plain `IDENTIFIER = expression` yields a reassignment
      with the constructor's default type INT. */
  lemma AssignmentReductions(d: DeclType, name: Token, x: Ast)
    ensures var r := Lower(Declare(d, name, x)).value;
            r.Assignment? && r.isNew && r.target == Variable(name.text) && r.rhs == x
            && DeclKeyword(r.declType) == DeclKeyword(d)
    ensures var r := Lower(Reassign(name, x)).value;
            r.Assignment? && !r.isNew && r.target == Variable(name.text) && r.rhs == x && r.declType == INT
  {
  }

  /** The arithmetic and comparison actions build the node their token names,
      over the two operands in order. */
  lemma OperatorReductions(a: Ast, op: Token, b: Ast)
    ensures forall o: ArithOp :: op.kind == ArithToken(o) ==> Lower(Arithmetic(a, op, b)) == Ok(Arith(o, a, b))
    ensures forall c: CmpOp :: op.kind == CmpSymbol(c) ==> Lower(Relational(a, op, b)) == Ok(Compare(c, a, b))
    ensures op.kind == "AND" ==> Lower(Relational(a, op, b)) == Ok(And(a, b))
    ensures op.kind == "OR" ==> Lower(Relational(a, op, b)) == Ok(Or(a, b))
  {
    forall o: ArithOp | op.kind == ArithToken(o)
      ensures Lower(Arithmetic(a, op, b)) == Ok(Arith(o, a, b))
    {
      ArithTable(op.kind, o);
    }
    forall c: CmpOp | op.kind == CmpSymbol(c)
      ensures Lower(Relational(a, op, b)) == Ok(Compare(c, a, b))
    {
      RelTable(op.kind, Cmp(c));
    }
  }

  // ---------------------------------------------------------------- statement lists

  /** The result of reducing `program : statement_full program` right to
      left over `ss`, ending with `program : statement_full` (or the `block`
      productions when `isProgram` is false). */
  function ReduceList(ss: seq<Ast>, isProgram: bool): Result<Ast>
    requires |ss| >= 1
    decreases |ss|
  {
    if |ss| == 1 then Lower(if isProgram then ProgramOne(ss[0]) else BlockOne(ss[0]))
    else
      match ReduceList(ss[1..], isProgram)
      case Ok(rest) => Lower(if isProgram then ProgramMore(ss[0], rest) else BlockMore(ss[0], rest))
      case Err(e) => Err(e)
  }

  /** However many statements a program or block has, the chain of
      reductions yields one node holding all of them in source order. */
  lemma {:induction false} ReduceListInOrder(ss: seq<Ast>, isProgram: bool)
    requires |ss| >= 1
    ensures ReduceList(ss, isProgram) == Ok(if isProgram then Program(ss) else Block(ss))
    decreases |ss|
  {
    if |ss| > 1 {
      ReduceListInOrder(ss[1..], isProgram);
      assert [ss[0]] + ss[1..] == ss;
      if isProgram {
        assert Lower(ProgramMore(ss[0], Program(ss[1..]))) == Ok(Program(ss));
      } else {
        assert Lower(BlockMore(ss[0], Block(ss[1..]))) == Ok(Block(ss));
      }
    } else {
      assert [ss[0]] == ss;
    }
  }

  // ---------------------------------------------------------------- syntax mode

  /** What each action returns in syntax mode: the production's right-hand
      side as labelled nodes, in source order. SUMI and SUMF show only
      `IDENTIFIER ( )`. The operator actions reject the same tokens as in
      lowering mode. */
  function Syntax(r: Reduction<seq<SynNode>>): Result<seq<SynNode>>
  {
    match r
    case MainRule(p) => Ok([SynNode("program", Kids(p))])
    case ProgramOne(s) => Ok([SynNode("statement_full", Kids(s))])
    case ProgramMore(s, rest) => Ok([SynNode("statement_full", Kids(s)), SynNode("program", Kids(rest))])
    case Parenthesis(x) => Ok([Bare("("), SynNode("expression", Kids(x)), Bare(")")])
    case IfRule(c, b) =>
      Ok([Bare("IF"), Bare("("), SynNode("expression", Kids(c)), Bare(")"), Bare("{"), SynNode("block", Kids(b)), Bare("}")])
    case IfElseRule(c, b, eb) =>
      Ok([Bare("IF"), Bare("("), SynNode("expression", Kids(c)), Bare(")"), Bare("{"), SynNode("block", Kids(b)), Bare("}"),
          Bare("ELSE"), Bare("{"), SynNode("block", Kids(eb)), Bare("}")])
    case BlockOne(s) => Ok([SynNode("statement_full", Kids(s))])
    case BlockMore(s, rest) => Ok([SynNode("statement_full", Kids(s)), SynNode("block", Kids(rest))])
    case WhileRule(c, b) =>
      Ok([Bare("WHILE"), Bare("("), SynNode("expression", Kids(c)), Bare(")"), Bare("{"), SynNode("block", Kids(b)), Bare("}")])
    case FullStatement(s) => Ok([SynNode("statement", Kids(s)), Bare(";")])
    case ExprStatement(x) => Ok([SynNode("expression", Kids(x))])
    case BreakRule(t) => Ok([SynNode("BREAK", Tok(t))])
    case ContinueRule(t) => Ok([SynNode("CONTINUE", Tok(t))])
    case Declare(d, name, x) =>
      Ok([Bare(DeclKeyword(d)), SynNode("IDENTIFIER", Tok(name)), Bare("="), SynNode("expression", Kids(x))])
    case Reassign(name, x) => Ok([SynNode("IDENTIFIER", Tok(name)), Bare("="), SynNode("expression", Kids(x))])
    case FunctionRule(name, b) =>
      Ok([Bare("FUNCTION"), SynNode("IDENTIFIER", Tok(name)), Bare("("), Bare(")"), Bare("{"), SynNode("block", Kids(b)), Bare("}")])
    case NotRule(_, x) => Ok([Bare("NOT"), SynNode("expression", Kids(x))])
    case Arithmetic(a, op, b) =>
      (match ArithOf(op.kind)
       case Some(o) => Ok([SynNode("expression", Kids(a)), Bare(ArithSymbol(o)), SynNode("expression", Kids(b))])
       case None => Err(UnknownOperator(op.kind)))
    case Relational(a, op, b) =>
      (match RelOf(op.kind)
       case Some(_) => Ok([SynNode("expression", Kids(a)), Bare(op.kind), SynNode("expression", Kids(b))])
       case None => Err(UnknownOperator(op.kind)))
    case PrintEmpty => Ok([Bare("PRINT"), Bare("("), Bare(")")])
    case PrintArg(x) => Ok([Bare("PRINT"), Bare("("), SynNode("expression", Kids(x)), Bare(")")])
    case Identifier(name) => Ok([SynNode("IDENTIFIER", Str(name.text))])
    case CallRule(name) => Ok([SynNode("IDENTIFIER", Tok(name)), Bare("("), Bare(")")])
    case SumiRule(t, _, _) => Ok([SynNode("IDENTIFIER", Tok(t)), Bare("("), Bare(")")])
    case SumfRule(t, _, _) => Ok([SynNode("IDENTIFIER", Tok(t)), Bare("("), Bare(")")])
    case ConstRule(c) => Ok([SynNode("const", Kids(c))])
    case FloatLiteral(t) => Ok([SynNode("FLOAT", Tok(t))])
    case IntegerLiteral(t) => Ok([SynNode("INTEGER", Tok(t))])
  }

  /** Syntax mode fails exactly where lowering mode rejects an operator, and
      with the same error. */
  lemma SyntaxFails(r: Reduction<seq<SynNode>>)
    ensures Syntax(r).Err? <==> RejectsOperator(r)
    ensures RejectsOperator(r) ==> Syntax(r) == Err(UnknownOperator(r.op.kind))
  {
  }

  /** The number of nodes of each production's right-hand side; SUMI and
      SUMF, whose right-hand sides have six symbols, show three. */
  function Arity<V>(r: Reduction<V>): nat
  {
    match r
    case MainRule(_) => 1
    case ProgramOne(_) => 1
    case ProgramMore(_, _) => 2
    case Parenthesis(_) => 3
    case IfRule(_, _) => 7
    case IfElseRule(_, _, _) => 11
    case BlockOne(_) => 1
    case BlockMore(_, _) => 2
    case WhileRule(_, _) => 7
    case FullStatement(_) => 2
    case ExprStatement(_) => 1
    case BreakRule(_) => 1
    case ContinueRule(_) => 1
    case Declare(_, _, _) => 4
    case Reassign(_, _) => 3
    case FunctionRule(_, _) => 7
    case NotRule(_, _) => 2
    case Arithmetic(_, _, _) => 3
    case Relational(_, _, _) => 3
    case PrintEmpty => 3
    case PrintArg(_) => 4
    case Identifier(_) => 1
    case CallRule(_) => 3
    case SumiRule(_, _, _) => 3
    case SumfRule(_, _, _) => 3
    case ConstRule(_) => 1
    case FloatLiteral(_) => 1
    case IntegerLiteral(_) => 1
  }

  /** Every accepted syntax-mode reduction returns one node per right-hand
      side symbol; an IF ... ELSE ends with ELSE, {, block, }. */
  lemma SyntaxShape(r: Reduction<seq<SynNode>>)
    requires !RejectsOperator(r)
    ensures Syntax(r).Ok? && |Syntax(r).value| == Arity(r)
    ensures r.IfElseRule? ==>
              var ns := Syntax(r).value;
              ns[7..] == [Bare("ELSE"), Bare("{"), SynNode("block", Kids(r.elseBody)), Bare("}")]
  {
  }

  // ---------------------------------------------------------------- the actions with their side effect

  /** The lowering-mode action as the driver runs it: the FUNCTION action's
      constructor registers the declaration in the parser state, so a later
      declaration under the same name replaces an earlier one; no other
      action touches the state. */
  method Reduce(r: Reduction<Ast>, st: ParserState) returns (res: Result<Ast>)
    modifies st
    ensures res == Lower(r)
    ensures st.functions == (if r.FunctionRule? then old(st.functions)[r.name.text := r.body] else old(st.functions))
    ensures st.variables == old(st.variables) && st.whileBody == old(st.whileBody) && st.whileEnd == old(st.whileEnd)
  {
    res := Lower(r);
    if r.FunctionRule? {
      st.RegisterFunction(r.name.text, r.body);
    }
  }

  /** The grammar's error handler: any token it cannot shift raises
      ValueError carrying that token. */
  function OnParseError(t: Token): (r: Result<Ast>)
    ensures r.Err? && r.error.ParseError? && r.error.token == t && ClassOf(r.error) == ValueError
  {
    Err(ParseError(t))
  }
}
