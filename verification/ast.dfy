/**
 * The abstract syntax tree the reduction actions build, the errors that
 * evaluation raises and the outcome of one `eval` call.
 */
module Ast {
  import opened Ir

  datatype Option<+T> = None | Some(value: T)

  /** A token as the lexer hands it over: its type name and its text. */
  datatype Token = Token(kind: string, text: string)

  /** The declared type of a variable: the keyword INT or FLT. */
  datatype DeclType = INT | FLT

  /** The six comparison operators. */
  datatype CmpOp = Eq | Ne | Gt | Lt | Ge | Le

  /** One node per AST class (Sum/Sub/Mul/Div share `Arith`, the six
      comparisons share `Compare`). `MainProgram` is the root node. A `Not`
      carries the identity of its node object: evaluation overwrites that
      object's operand, so two occurrences with one identity (a function
      body reached by two calls, a condition evaluated twice) share that
      overwrite. */
  datatype Ast =
    | MainProgram(program: Ast)
    | Program(stmts: seq<Ast>)
    | Block(stmts: seq<Ast>)
    | If(cond: Ast, body: Ast, elseBody: Option<Ast>)
    | While(cond: Ast, body: Ast)
    | Break
    | Continue
    | Variable(name: string)
    | FunctionDeclaration(name: string, block: Ast)
    | CallFunction(name: string)
    | Sumi(left: Ast, right: Ast)
    | Sumf(left: Ast, right: Ast)
    | Integer(n: int)
    | Float(text: string)
    | Assignment(target: Ast, rhs: Ast, isNew: bool, declType: DeclType)
    | Arith(op: ArithOp, left: Ast, right: Ast)
    | Compare(cmp: CmpOp, left: Ast, right: Ast)
    | And(left: Ast, right: Ast)
    | Or(left: Ast, right: Ast)
    | Not(id: nat, inner: Ast)
    | Print(arg: Option<Ast>)
    | ExpressParenthesis(inner: Ast)
    | StatementFull(inner: Ast)
    | Statement(inner: Ast)

  /** The exception classes the core raises. */
  datatype ErrorClass =
    | LogicError | ImmutableError | KeyError | AttributeError
    | IndexError | RecursionError | ValueError

  /** Every way an evaluation or a reduction can fail. */
  datatype Error =
    | UnknownName(name: string)          // reading an unbound variable
    | UndefinedVariable(name: string)    // reassigning an unbound variable
    | NotAssignable                      // assignment target is not a Variable
    | UnknownOperator(kind: string)      // reduction saw an unexpected operator token
    | Immutable(name: string)            // redeclaring a bound variable
    | UnknownTypeTag                     // types_dict has no entry for the value's tag
    | MismatchMessage                    // the type-mismatch message indexes types_dict with a class
    | MissingVariableKey(name: string)   // the binding vanished before the reassignment's write
    | UnknownFunction(name: string)      // call of an undeclared function
    | NoTypeAttribute                    // `.type` read on something that is not an IR value
    | NoEvalAttribute                    // `.eval` called on a value a Not node's operand was replaced by
    | EmptyLoopStack                     // `[-1]` or `pop()` on an empty loop stack
    | RecursionLimit                     // inline expansion nested beyond the call-depth bound
    | ParseError(token: Token)           // the grammar driver rejected a token
    | BadLiteral(text: string)           // int() of an INTEGER token that is no numeral

  function ClassOf(e: Error): ErrorClass
  {
    match e
    case UnknownName(_) => LogicError
    case UndefinedVariable(_) => LogicError
    case NotAssignable => LogicError
    case UnknownOperator(_) => LogicError
    case Immutable(_) => ImmutableError
    case UnknownTypeTag => KeyError
    case MismatchMessage => KeyError
    case MissingVariableKey(_) => KeyError
    case UnknownFunction(_) => KeyError
    case NoTypeAttribute => AttributeError
    case NoEvalAttribute => AttributeError
    case EmptyLoopStack => IndexError
    case RecursionLimit => RecursionError
    case ParseError(_) => ValueError
    case BadLiteral(_) => ValueError
  }

  /** The outcome of one `eval`: a value, or the exception it raised. */
  datatype Outcome = Done(result: EvalResult) | Raised(error: Error)

  /** The diagnostic spelling of each operator. */
  function ArithSymbol(op: ArithOp): string
  {
    match op
    case Add => "+"
    case Sub => "-"
    case Mul => "*"
    case Div => "/"
  }

  function CmpSymbol(c: CmpOp): string
  {
    match c
    case Eq => "=="
    case Ne => "!="
    case Gt => ">"
    case Lt => "<"
    case Ge => ">="
    case Le => "<="
  }

  /** The keyword for a declared type, as the token type the parser reads it from. */
  function DeclKeyword(d: DeclType): string
  {
    match d
    case INT => "INT"
    case FLT => "FLT"
  }

  /** The tag of the slot allocated for a variable of declared type `d`. */
  function SlotTag(d: DeclType): Tag
  {
    match d
    case INT => I8
    case FLT => F32
  }

  /** The declaration check's table: an i8 value is 'INT', a float 'FLT';
      any other tag has no entry. */
  function DeclaredTypeOf(t: Tag): (r: Option<DeclType>)
    ensures r.Some? ==> SlotTag(r.value) == t
    ensures r.None? <==> (t == I1 || t == I8Ptr)
  {
    match t
    case I8 => Some(INT)
    case F32 => Some(FLT)
    case I1 => None
    case I8Ptr => None
  }
}
