/**
 The values the calculator element computes with. The element keeps its
 operands in dynamically typed fields: text while the user types, a number
 once `compute` has stored a result. Parsing (`parseFloat`), number
 formatting (`toString`) and the four floating-point operations are kept
 abstract: they are the fields of an `Arith` record over an arbitrary value
 type `V`, and nothing below depends on what they compute.
 */
module Numerics {
  import opened Wrappers

  /** The four operators the `compute` switch recognises. */
  datatype Op = Add | Sub | Mul | Div

  /** The string the view passes to `chooseOperation` for each operator. */
  function Symbol(op: Op): string {
    match op
    case Add => "+"
    case Sub => "-"
    case Mul => "*"
    case Div => "÷"
  }

  /** The `switch` of `compute`: which operator a stored operation string
      selects, or `None` for the `default` branch (including `null`). */
  function OperatorOf(operation: Option<string>): (r: Option<Op>)
    ensures r.Some? ==> operation == Some(Symbol(r.value))
    ensures operation.Some? && operation.value in {"+", "-", "*", "÷"} ==> r.Some?
  {
    match operation
    case None => None
    case Some(sym) =>
      if sym == "+" then Some(Add)
      else if sym == "-" then Some(Sub)
      else if sym == "*" then Some(Mul)
      else if sym == "÷" then Some(Div)
      else None
  }

  /** Every operator symbol selects its own operator, so the switch and the
      view's symbols are inverse to each other. */
  lemma SymbolRoundTrip(op: Op)
    ensures OperatorOf(Some(Symbol(op))) == Some(op)
  {
  }

  /** The abstract numeric layer: `parse` is `parseFloat` on a non-empty
      string (`None` where it yields NaN), `format` is a number's `toString`,
      and `apply` is the JavaScript `+`, `-`, `*` or `/`. */
  datatype Arith<!V> = Arith(parse: string -> Option<V>, format: V -> string, apply: (Op, V, V) -> V)

  /** A field of the element: either the text typed so far or a computed number. */
  datatype Operand<V> = Text(s: string) | Num(v: V)

  /** `x.toString()`: text is itself, a number is its formatted form. */
  function TextOf<V>(a: Arith<V>, x: Operand<V>): string {
    match x
    case Text(s) => s
    case Num(v) => a.format(v)
  }

  /** `x === ""`: only the empty text is strictly equal to the empty string;
      a number never is. */
  predicate IsBlank<V>(x: Operand<V>) {
    x.Text? && x.s == ""
  }

  /** `parseFloat(x)`, with `None` for NaN. `parseFloat` stringifies its
      argument first, and the empty string always parses to NaN. */
  function Parse<V>(a: Arith<V>, x: Operand<V>): (r: Option<V>)
    ensures IsBlank(x) ==> r == None
    ensures TextOf(a, x) != "" ==> r == a.parse(TextOf(a, x))
  {
    var t := TextOf(a, x);
    if t == "" then None else a.parse(t)
  }
}
