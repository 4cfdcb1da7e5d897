/**
 * The fragment of MongoDB's aggregation language that the state update is written in: pipelines
 * are plain JSON, read by the server as expressions, and evaluated against one document.
 */
module Aggregation {
  import opened Telemetry
  import Strings

  /** The pipeline as the client sends it. */
  datatype Json =
    | JNum(number: real)
    | JStr(text: string)
    | JArr(items: seq<Json>)
    | JObj(fields: seq<Field>)

  datatype Field = Field(name: string, value: Json)

  /** A stored or computed value; `Missing` is what a path to an absent field evaluates to. */
  datatype Value =
    | Missing
    | Num(number: real)
    | Str(text: string)
    | Bool(truth: bool)
    | Arr(items: seq<Value>)
    | Doc(fields: Document)

  type Document = map<string, Value>

  /** `$literal`: the JSON as data, nothing in it is an expression. A later field wins. */
  function Literal(json: Json): Value
    decreases json, 1
  {
    match json
    case JNum(n) => Num(n)
    case JStr(s) => Str(s)
    case JArr(items) => Arr(LiteralItems(items))
    case JObj(fields) => Doc(LiteralFields(fields))
  }

  function LiteralItems(items: seq<Json>): seq<Value>
    decreases items, 0
  {
    if items == [] then [] else [Literal(items[0])] + LiteralItems(items[1..])
  }

  function LiteralFields(fields: seq<Field>): Document
    decreases fields, 0
  {
    if fields == [] then
      map[]
    else
      var last := fields[|fields| - 1];
      LiteralFields(fields[..|fields| - 1])[last.name := Literal(last.value)]
  }

  /** `$path.to.field`, already split at its dots. */
  function Lookup(value: Value, path: seq<string>): Value {
    if path == [] then
      value
    else if value.Doc? && path[0] in value.fields then
      Lookup(value.fields[path[0]], path[1..])
    else
      Missing
  }

  predicate IsOperator(fields: seq<Field>) {
    |fields| == 1 && |fields[0].name| > 0 && fields[0].name[0] == '$'
  }

  /**
   * The value of an expression, `None` where the server would refuse the pipeline or where the
   * expression is outside this fragment.
   */
  function Eval(expr: Json, doc: Document): Option<Value>
    decreases expr, 1
  {
    match expr
    case JNum(n) => Some(Num(n))
    case JStr(s) => EvalString(s, doc)
    case JArr(_) => None
    case JObj(fields) =>
      if IsOperator(fields) then
        EvalOperator(fields[0].name, fields[0].value, doc)
      else
        var evaluated := EvalFields(fields, doc);
        if evaluated.Some? then Some(Doc(evaluated.value)) else None
  }

  /** A string that starts with one `$` is a field path; with two it names a variable. */
  function EvalString(s: string, doc: Document): Option<Value> {
    if s == [] || s[0] != '$' then
      Some(Str(s))
    else if |s| == 1 || s[1] == '$' then
      None
    else
      Some(Lookup(Doc(doc), Strings.Split(s[1..], '.')))
  }

  /** An object without an operator: every field is an expression, and a missing one is left out. */
  function EvalFields(fields: seq<Field>, doc: Document): Option<Document>
    decreases fields, 0
  {
    if fields == [] then
      Some(map[])
    else
      var last := fields[|fields| - 1];
      var rest := EvalFields(fields[..|fields| - 1], doc);
      var value := Eval(last.value, doc);
      if rest.None? || value.None? || (last.name != [] && last.name[0] == '$') then None
      else if value.value == Missing then rest
      else Some(rest.value[last.name := value.value])
  }

  /** The two special forms, and the operators that take the values of their arguments. */
  function EvalOperator(name: string, arg: Json, doc: Document): Option<Value>
    decreases arg, 3
  {
    if name == "$literal" then
      Some(Literal(arg))
    else if name == "$cond" then
      EvalCond(arg, doc)
    else
      var values := EvalArguments(arg, doc);
      if values.None? then None else ApplyOperator(name, values.value)
  }

  function ApplyOperator(name: string, values: seq<Value>): Option<Value> {
    if name == "$and" then Some(Bool(forall v <- values :: Truthy(v)))
    else if name == "$or" then Some(Bool(exists v <- values :: Truthy(v)))
    else if name == "$type" && |values| == 1 then Some(Str(TypeName(values[0])))
    else if name == "$eq" && |values| == 2 then Some(Bool(values[0] == values[1]))
    else if name == "$lt" && |values| == 2 then LessThan(values[0], values[1])
    else None
  }

  /** `{ if, then, else }`: only the chosen branch is evaluated. */
  function EvalCond(arg: Json, doc: Document): Option<Value>
    decreases arg, 0
  {
    if arg.JObj? && |arg.fields| == 3
       && arg.fields[0].name == "if" && arg.fields[1].name == "then" && arg.fields[2].name == "else"
    then
      var condition := Eval(arg.fields[0].value, doc);
      if condition.None? then None
      else if Truthy(condition.value) then Eval(arg.fields[1].value, doc)
      else Eval(arg.fields[2].value, doc)
    else
      None
  }

  /** An operator takes an array of arguments, or one argument that is not an array. */
  function EvalArguments(arg: Json, doc: Document): Option<seq<Value>>
    decreases arg, 2
  {
    if arg.JArr? then
      EvalAll(arg.items, doc)
    else
      var value := Eval(arg, doc);
      if value.None? then None else Some([value.value])
  }

  function EvalAll(items: seq<Json>, doc: Document): Option<seq<Value>>
    decreases items, 0
  {
    if items == [] then
      Some([])
    else
      var head := Eval(items[0], doc);
      var tail := EvalAll(items[1..], doc);
      if head.None? || tail.None? then None else Some([head.value] + tail.value)
  }

  predicate Truthy(v: Value) {
    match v
    case Missing => false
    case Bool(b) => b
    case Num(n) => n != 0.0
    case _ => true
  }

  function TypeName(v: Value): string {
    match v
    case Missing => "missing"
    case Num(_) => "double"
    case Str(_) => "string"
    case Bool(_) => "bool"
    case Arr(_) => "array"
    case Doc(_) => "object"
  }

  /** The rank of a type in the server's comparison order; a missing field sorts first. */
  function Rank(v: Value): nat {
    match v
    case Missing => 0
    case Num(_) => 1
    case Str(_) => 2
    case Doc(_) => 3
    case Arr(_) => 4
    case Bool(_) => 5
  }

  /** Values of different types compare by rank, numbers by value; the rest is not needed here. */
  function LessThan(a: Value, b: Value): Option<Value> {
    if Rank(a) != Rank(b) then Some(Bool(Rank(a) < Rank(b)))
    else if a.Missing? then Some(Bool(false))
    else if a.Num? && b.Num? then Some(Bool(a.number < b.number))
    else None
  }

  /** One `$set` stage: every expression sees the document as it was before the stage. */
  function ApplySet(spec: seq<Field>, before: Document): Option<Document> {
    if spec == [] then
      Some(before)
    else
      var last := spec[|spec| - 1];
      var rest := ApplySet(spec[..|spec| - 1], before);
      var value := Eval(last.value, before);
      if rest.None? || value.None? || !last.value.JObj? || !IsOperator(last.value.fields) then None
      else if value.value == Missing then Some(rest.value - {last.name})
      else Some(rest.value[last.name := value.value])
  }

  /** An update pipeline of `$set` stages, applied in order. */
  function ApplyPipeline(stages: seq<Json>, doc: Document): Option<Document> {
    if stages == [] then
      Some(doc)
    else
      var stage := stages[0];
      if stage.JObj? && |stage.fields| == 1 && stage.fields[0].name == "$set" && stage.fields[0].value.JObj? then
        var next := ApplySet(stage.fields[0].value.fields, doc);
        if next.None? then None else ApplyPipeline(stages[1..], next.value)
      else
        None
  }
}
