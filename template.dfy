/** The subset of Go's text/template that the buildarg tags use: literal
    text, `{{pipeline}}`, `{{if}}…{{else}}…{{end}}`, `{{with}}…{{end}}`,
    the operands `.`, `.Field` and string literals, function calls and
    pipes `a | f`. Templates are given already parsed. */
module Template {
  import opened Wrappers
  import opened Values
  import Fmt

  /** A template function: its arguments (the piped value last) to a value
      or an execution error. */
  type Func = seq<Value> -> Result<Value, string>
  type FuncMap = map<string, Func>

  datatype Operand = Dot | FieldOf(name: string) | StrLit(s: string)

  datatype Command = Arg(operand: Operand) | Call(fn: string, args: seq<Operand>)

  type Pipeline = seq<Command>

  datatype Node =
    | Text(text: string)
    | Action(pipe: Pipeline)
    | If(cond: Pipeline, body: seq<Node>, orElse: seq<Node>)
    | With(pipe: Pipeline, body: seq<Node>, orElse: seq<Node>)

  /** The truth of a value for `if` and `with`: false, 0, nil and empty
      strings, slices, arrays and maps are false; structs and non-nil
      pointers are true. */
  predicate IsTrue(v: Value)
  {
    match v
    case Nil => false
    case Bool(b) => b
    case Int(i) => i != 0
    case Str(s) => s != ""
    case Slice(es) => es != []
    case Array(es) => es != []
    case Map(kvs) => kvs != []
    case Struct(_) => true
    case Ptr(_) => true
  }

  function FindField(fs: seq<Field>, name: string): (r: Option<Field>)
    ensures r.Some? ==> r.value in fs && r.value.name == name
  {
    if fs == [] then None
    else if fs[0].name == name then Some(fs[0])
    else FindField(fs[1..], name)
  }

  function FindKey(kvs: seq<Entry>, key: Value): Option<Value>
  {
    if kvs == [] then None
    else if kvs[0].key == key then Some(kvs[0].val)
    else FindKey(kvs[1..], key)
  }

  /** `.name` evaluated on `dot`: a struct's exported field, or a map's
      entry under the string key (a missing key gives the zero value). */
  function EvalField(dot: Value, name: string): Result<Value, string>
  {
    match IndirectAll(dot)
    case Struct(fs) =>
      match FindField(fs, name) {
        case None => Failure("can't evaluate field " + name)
        case Some(f) =>
          if f.exported then Success(f.value)
          else Failure(name + " is an unexported field of struct type")
      }
    case Map(kvs) =>
      match FindKey(kvs, Str(name)) {
        case None => Success(Nil)
        case Some(v) => Success(v)
      }
    case Nil => Failure("nil pointer evaluating ." + name)
    case _ => Failure("can't evaluate field " + name)
  }

  function EvalOperand(o: Operand, dot: Value): Result<Value, string>
  {
    match o
    case Dot => Success(dot)
    case FieldOf(name) => EvalField(dot, name)
    case StrLit(s) => Success(Str(s))
  }

  /** The operands `os[i..]`, evaluated left to right. */
  function EvalOperands(os: seq<Operand>, i: nat, dot: Value): (r: Result<seq<Value>, string>)
    requires i <= |os|
    ensures r.Success? ==> |r.value| == |os| - i
    decreases |os| - i
  {
    if i == |os| then Success([])
    else
      match EvalOperand(os[i], dot)
      case Failure(e) => Failure(e)
      case Success(v) =>
        match EvalOperands(os, i + 1, dot)
        case Failure(e) => Failure(e)
        case Success(vs) => Success([v] + vs)
  }

  /** One command of a pipeline; `final` is the value piped in from the
      previous command, which becomes a function's last argument. */
  function EvalCommand(c: Command, dot: Value, funcs: FuncMap, final: Option<Value>): Result<Value, string>
  {
    match c
    case Arg(o) =>
      if final.Some? then Failure("can't give argument to non-function")
      else EvalOperand(o, dot)
    case Call(fn, args) =>
      if fn !in funcs then Failure("function \"" + fn + "\" not defined")
      else
        match EvalOperands(args, 0, dot)
        case Failure(e) => Failure(e)
        case Success(vs) =>
          var all := if final.Some? then vs + [final.value] else vs;
          funcs[fn](all)
  }

  /** The commands `p[i..]` of a pipeline, each receiving the previous
      one's value as `final`. */
  function EvalPipeline(p: Pipeline, i: nat, dot: Value, funcs: FuncMap, final: Option<Value>): Result<Value, string>
    requires i <= |p|
    decreases |p| - i
  {
    if i == |p| then
      if final.Some? then Success(final.value) else Failure("missing value for command")
    else
      match EvalCommand(p[i], dot, funcs, final)
      case Failure(e) => Failure(e)
      case Success(v) => EvalPipeline(p, i + 1, dot, funcs, Some(v))
  }

  /** The text an action prints: pointers are followed, then the value is
      printed as fmt's %v prints it. */
  function PrintValue(v: Value): string
  {
    Fmt.Format('v', IndirectAll(v))
  }

  /** The nodes `ns[i..]`, executed in order, their texts concatenated. */
  function ExecNodes(ns: seq<Node>, i: nat, dot: Value, funcs: FuncMap): Result<string, string>
    requires i <= |ns|
    decreases ns, |ns| - i
  {
    if i == |ns| then Success("")
    else
      match ExecNode(ns[i], dot, funcs)
      case Failure(e) => Failure(e)
      case Success(t) =>
        match ExecNodes(ns, i + 1, dot, funcs)
        case Failure(e) => Failure(e)
        case Success(rest) => Success(t + rest)
  }

  function ExecNode(n: Node, dot: Value, funcs: FuncMap): Result<string, string>
    decreases n, 0
  {
    match n
    case Text(t) => Success(t)
    case Action(p) =>
      match EvalPipeline(p, 0, dot, funcs, None) {
        case Failure(e) => Failure(e)
        case Success(v) => Success(PrintValue(v))
      }
    case If(p, body, orElse) =>
      match EvalPipeline(p, 0, dot, funcs, None) {
        case Failure(e) => Failure(e)
        case Success(v) =>
          if IsTrue(v) then ExecNodes(body, 0, dot, funcs) else ExecNodes(orElse, 0, dot, funcs)
      }
    case With(p, body, orElse) =>
      match EvalPipeline(p, 0, dot, funcs, None)
      case Failure(e) => Failure(e)
      case Success(v) =>
        if IsTrue(v) then ExecNodes(body, 0, v, funcs) else ExecNodes(orElse, 0, dot, funcs)
  }

  /** Template.Execute for the template called `name`: the rendered text,
      or the execution error prefixed with the template's name. */
  function Execute(name: string, tmpl: seq<Node>, data: Value, funcs: FuncMap): Result<string, string>
  {
    match ExecNodes(tmpl, 0, data, funcs)
    case Failure(e) => Failure("template: " + name + ": " + e)
    case Success(t) => Success(t)
  }
}
