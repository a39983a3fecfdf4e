/**
 * The IR that the lowering pass emits, abstracted as an append-only
 * instruction log plus a counter of basic blocks. Values carry only a type
 * tag; float constants are kept as their literal text.
 */
module Ir {

  /** Type tags: 8-bit integer, 32-bit float, 1-bit comparison result and the
      i8* that the format string is cast to before printing. */
  datatype Tag = I8 | F32 | I1 | I8Ptr

  /** An IR value: a constant, or the result of the instruction at log index `at`. */
  datatype Val =
    | IntConst(n: int)
    | FloatConst(text: string)
    | Instruction(tag: Tag, at: nat)

  function TagOf(v: Val): Tag
  {
    match v
    case IntConst(_) => I8
    case FloatConst(_) => F32
    case Instruction(t, _) => t
  }

  /** What an `eval` call returns: an IR value, Python's None, the variables
      dictionary (returned by Assignment) or a function-declaration object. */
  datatype EvalResult =
    | IrValue(v: Val)
    | NoneResult
    | VariablesDict
    | FunctionObject(name: string)

  /** The four arithmetic operators of the language. */
  datatype ArithOp = Add | Sub | Mul | Div

  /** The two instruction families: integer (add, sub, mul, sdiv) and
      floating point (fadd, fsub, fmul, fdiv). */
  datatype Opcode = IAdd | FAdd | ISub | FSub | IMul | FMul | SDiv | FDiv

  function IntOpcode(op: ArithOp): Opcode
  {
    match op
    case Add => IAdd
    case Sub => ISub
    case Mul => IMul
    case Div => SDiv
  }

  function FloatOpcode(op: ArithOp): Opcode
  {
    match op
    case Add => FAdd
    case Sub => FSub
    case Mul => FMul
    case Div => FDiv
  }

  predicate IsFloatOpcode(c: Opcode)
  {
    c == FAdd || c == FSub || c == FMul || c == FDiv
  }

  /** Blocks are named by the order in which they were appended. */
  type BlockId = nat

  datatype Instr =
    | Alloca(tag: Tag, name: string)
    | Store(value: EvalResult, ptr: nat)
    | Load(ptr: nat, name: string)
    | BinOp(code: Opcode, lhs: EvalResult, rhs: EvalResult)
    | ICmp(pred: string, lhs: EvalResult, rhs: EvalResult)
    | FCmp(pred: string, lhs: EvalResult, rhs: EvalResult)
    | BitAnd(lhs: EvalResult, rhs: EvalResult)
    | BitOr(lhs: EvalResult, rhs: EvalResult)
    | BitNot(operand: EvalResult)
    | Bitcast(global: string)
    | Call(callee: string, args: seq<EvalResult>)
    | Branch(target: BlockId)
    | CBranch(cond: EvalResult, ifTrue: BlockId, ifFalse: BlockId)
    | PositionAt(block: BlockId)
      // the scaffold of a structured if/else: branch on `cond` into
      // `thenBlock` or `elseBlock`, both of which fall through to `endBlock`
    | IfElse(cond: EvalResult, thenBlock: BlockId, elseBlock: BlockId, endBlock: BlockId)
    | Otherwise(block: BlockId)
    | EndIf(block: BlockId)

  /** A routine defined in the target module at start-up. */
  datatype Intrinsic = Intrinsic(irName: string, resultTag: Tag, body: Opcode)

  /** The table that start-up registers: key 'sum' is the routine "sum"
      (8-bit add), key 'sumf' is the routine "fsum" (float add). */
  function Intrinsics(): (t: map<string, Intrinsic>)
    ensures t.Keys == {"sum", "sumf"}
    ensures t["sum"].irName == "sum" && t["sum"].resultTag == I8 && t["sum"].body == IAdd && !IsFloatOpcode(t["sum"].body)
    ensures t["sumf"].irName == "fsum" && t["sumf"].resultTag == F32 && t["sumf"].body == FAdd && IsFloatOpcode(t["sumf"].body)
  {
    map["sum" := Intrinsic("sum", I8, IAdd), "sumf" := Intrinsic("fsum", F32, FAdd)]
  }

  /** The global holding the print format string, and the output routine. */
  const FormatGlobal: string := "fstr"
  const Printf: string := "printf"

  /** The builder: an append-only log and a block counter. */
  class IRBuilder {
    var log: seq<Instr>
    var blocks: nat

    constructor ()
      ensures log == [] && blocks == 0
    {
      log := [];
      blocks := 0;
    }

    /** Appends `i` at the cursor; `at` is its position in the log. */
    method Emit(i: Instr) returns (at: nat)
      modifies this
      ensures at == |old(log)|
      ensures log == old(log) + [i] && blocks == old(blocks)
    {
      at := |log|;
      log := log + [i];
    }

    /** Appends a fresh basic block and returns its id. */
    method AppendBlock() returns (id: BlockId)
      modifies this
      ensures id == old(blocks) && blocks == old(blocks) + 1 && log == old(log)
    {
      id := blocks;
      blocks := blocks + 1;
    }
  }
}
