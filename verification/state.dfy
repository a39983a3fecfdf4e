/**
 * The compiler state record shared by every AST node: the variables and
 * functions tables and the two parallel loop stacks.
 */
module CompilerState {
  import opened Ir
  import opened Ast

  /** A variable's entry: its current value, its declared type and the
      position in the log of the `alloca` that made its slot. */
  datatype Binding = Binding(value: EvalResult, declType: DeclType, ptr: nat)

  /** The parser state together with the builder's log and block counter
      and the replaced operands of Not nodes, as one value: the state the
      specification functions thread through. */
  datatype Ctx = Ctx(
    variables: map<string, Binding>,
    functions: map<string, Ast>,
    whileBody: seq<BlockId>,
    whileEnd: seq<BlockId>,
    log: seq<Instr>,
    blocks: nat,
    replaced: map<nat, EvalResult>)

  function Emit(s: Ctx, i: Instr): Ctx
  {
    s.(log := s.log + [i])
  }

  class ParserState {
    var variables: map<string, Binding>
    var functions: map<string, Ast>
    var whileBody: seq<BlockId>
    var whileEnd: seq<BlockId>

    /** A fresh state: no variables, no functions, both loop stacks empty. */
    constructor ()
      ensures variables == map[] && functions == map[]
      ensures whileBody == [] && whileEnd == []
    {
      variables := map[];
      functions := map[];
      whileBody := [];
      whileEnd := [];
    }

    /** Records (or overwrites) the entry for `name`. */
    method Bind(name: string, b: Binding)
      modifies this
      ensures variables == old(variables)[name := b]
      ensures functions == old(functions) && whileBody == old(whileBody) && whileEnd == old(whileEnd)
    {
      variables := variables[name := b];
    }

    /** Overwrites only the value of an existing entry; type and slot stay. */
    method SetValue(name: string, v: EvalResult)
      requires name in variables
      modifies this
      ensures variables == old(variables)[name := old(variables)[name].(value := v)]
      ensures functions == old(functions) && whileBody == old(whileBody) && whileEnd == old(whileEnd)
    {
      variables := variables[name := variables[name].(value := v)];
    }

    /** Registers a function declaration; a later one under the same name wins. */
    method RegisterFunction(name: string, block: Ast)
      modifies this
      ensures functions == old(functions)[name := block]
      ensures variables == old(variables) && whileBody == old(whileBody) && whileEnd == old(whileEnd)
    {
      functions := functions[name := block];
    }

    method PushBody(b: BlockId)
      modifies this
      ensures whileBody == old(whileBody) + [b]
      ensures variables == old(variables) && functions == old(functions) && whileEnd == old(whileEnd)
    {
      whileBody := whileBody + [b];
    }

    method PushEnd(b: BlockId)
      modifies this
      ensures whileEnd == old(whileEnd) + [b]
      ensures variables == old(variables) && functions == old(functions) && whileBody == old(whileBody)
    {
      whileEnd := whileEnd + [b];
    }

    method PopBody()
      requires |whileBody| > 0
      modifies this
      ensures whileBody == old(whileBody)[..|old(whileBody)| - 1]
      ensures variables == old(variables) && functions == old(functions) && whileEnd == old(whileEnd)
    {
      whileBody := whileBody[..|whileBody| - 1];
    }

    method PopEnd()
      requires |whileEnd| > 0
      modifies this
      ensures whileEnd == old(whileEnd)[..|old(whileEnd)| - 1]
      ensures variables == old(variables) && functions == old(functions) && whileBody == old(whileBody)
    {
      whileEnd := whileEnd[..|whileEnd| - 1];
    }
  }

  /** The one field of the syntax tree that evaluation writes: a Not node's
      operand, which its first evaluation replaces by the value the operand
      produced. `replaced` maps the identity of each Not node evaluated so
      far to that value; a node not in it still holds its operand. */
  class NotOperands {
    var replaced: map<nat, EvalResult>

    /** Before evaluation every Not node holds its operand. */
    constructor ()
      ensures replaced == map[]
    {
      replaced := map[];
    }

    /** Overwrites the operand of node `id` with the value `v`. */
    method Replace(id: nat, v: EvalResult)
      modifies this
      ensures replaced == old(replaced)[id := v]
    {
      replaced := replaced[id := v];
    }
  }

  /** The combined state of a parser state, a builder and the Not nodes. */
  function Snapshot(st: ParserState, b: IRBuilder, h: NotOperands): Ctx
    reads st, b, h
  {
    Ctx(st.variables, st.functions, st.whileBody, st.whileEnd, b.log, b.blocks, h.replaced)
  }
}
