/**
 The state machine of the `calc-element` component (lit-element.js:101-162):
 three fields and the five operations that change them, each written as a
 pure step from the old state to the new one.
 */
module Calculator {
  import opened Wrappers
  import opened Numerics

  /** A digit from 0 to 9, as the number buttons pass it. */
  type DigitValue = d: int | 0 <= d <= 9

  /** What a number button passes to `appendNumber`: a JavaScript number
      0-9, or the string ".". */
  datatype Token = Digit(d: DigitValue) | Point

  /** `number.toString()` for a token. */
  function TokenText(t: Token): (r: string)
    ensures |r| == 1
    ensures r[0] == '.' <==> t.Point?
    ensures t.Digit? ==> '0' <= r[0] <= '9' && r[0] as int - '0' as int == t.d
  {
    match t
    case Digit(d) => [('0' as int + d) as char]
    case Point => "."
  }

  /** The three reactive fields of the element. `operation` is `null`
      (`None`) or the string last passed to `chooseOperation`. */
  datatype State<V> = State(current: Operand<V>, previous: Operand<V>, operation: Option<string>)

  /** What `appendNumber` throws when the current operand is a number:
      a number has no `includes` method. */
  datatype Fault = TypeError

  /** The state the constructor builds. */
  function Init<V>(): (r: State<V>)
    ensures IsBlank(r.current) && IsBlank(r.previous) && r.operation == None
  {
    State(Text(""), Text(""), None)
  }

  /** The invariant every operation keeps: an operation is pending exactly
      when a previous operand is held, and a computed number only sits in
      the current operand when nothing is pending. */
  predicate Inv<V>(s: State<V>) {
    && (IsBlank(s.previous) <==> s.operation == None)
    && (s.current.Num? ==> IsBlank(s.previous))
  }

  /** The number of decimal points in a string. */
  function Dots(t: string): nat {
    multiset(t)['.']
  }

  /** The current operand, read as text, holds at most one decimal point. */
  predicate OneDot<V>(a: Arith<V>, s: State<V>) {
    Dots(TextOf(a, s.current)) <= 1
  }

  /** `appendNumber(t)`. A second decimal point in a text operand is
      ignored; a decimal point on a computed number throws, because the
      guard calls `includes` on a number; anything else is appended to the
      operand's text form. */
  function AppendNumber<V>(a: Arith<V>, s: State<V>, t: Token): (r: Result<State<V>, Fault>)
    ensures r.Failure? <==> t.Point? && s.current.Num?
    ensures r.Success? ==> r.value.previous == s.previous && r.value.operation == s.operation
    ensures t.Point? && s.current.Text? && '.' in s.current.s ==> r == Success(s)
    ensures t.Digit? || (s.current.Text? && '.' !in s.current.s) ==>
              r.Success? && r.value.current == Text(TextOf(a, s.current) + TokenText(t))
    ensures Inv(s) && r.Success? ==> Inv(r.value)
    ensures OneDot(a, s) && r.Success? ==> OneDot(a, r.value)
  {
    if t == Point then
      match s.current
      case Num(_) => Failure(TypeError)
      case Text(cur) =>
        if '.' in cur then Success(s)
        else Success(s.(current := Text(cur + TokenText(t))))
    else
      Success(s.(current := Text(TextOf(a, s.current) + TokenText(t))))
  }

  /** Whether `compute` gets past its guards: both operands parse and the
      stored operation is one of the four operator symbols. */
  predicate Computable<V>(a: Arith<V>, s: State<V>) {
    Parse(a, s.previous).Some? && Parse(a, s.current).Some? && OperatorOf(s.operation).Some?
  }

  /** `compute()`. If either operand fails to parse, or the operation is
      not one of the four symbols, nothing changes; otherwise the result of
      applying the operation to (previous, current) becomes the current
      operand, as a number, and nothing is pending any more. */
  function Compute<V>(a: Arith<V>, s: State<V>): (r: State<V>)
    ensures !Computable(a, s) ==> r == s
    ensures Computable(a, s) ==>
              && r.current == Num(a.apply(OperatorOf(s.operation).value,
                                          Parse(a, s.previous).value, Parse(a, s.current).value))
              && IsBlank(r.previous) && r.operation == None
    ensures Inv(s) ==> Inv(r)
  {
    match (Parse(a, s.previous), Parse(a, s.current))
    case (Some(prev), Some(curr)) =>
      (match OperatorOf(s.operation)
       case Some(op) => State(Num(a.apply(op, prev, curr)), Text(""), None)
       case None => s)
    case _ => s
  }

  /** `chooseOperation(op)`. With nothing typed it does nothing. Otherwise
      a pending operation is first folded in by `compute`, and then the
      (possibly computed) current operand moves to the previous one. */
  function ChooseOperation<V>(a: Arith<V>, s: State<V>, op: string): (r: State<V>)
    ensures IsBlank(s.current) ==> r == s
    ensures !IsBlank(s.current) ==> IsBlank(r.current) && r.operation == Some(op)
    ensures !IsBlank(s.current) && IsBlank(s.previous) ==> r.previous == s.current
    ensures !IsBlank(s.current) && !IsBlank(s.previous) ==> r.previous == Compute(a, s).current
    ensures Inv(s) ==> Inv(r)
    ensures OneDot(a, s) ==> OneDot(a, r)
  {
    if IsBlank(s.current) then s
    else
      var folded := if !IsBlank(s.previous) then Compute(a, s) else s;
      State(Text(""), folded.current, Some(op))
  }

  /** `slice(0, -1)`: everything but the last character, and the empty
      string for the empty string. */
  function DropLast(t: string): string {
    if |t| == 0 then t else t[..|t| - 1]
  }

  /** `delete()`: the current operand's text form loses its last character;
      a computed number becomes text again. */
  function Delete<V>(a: Arith<V>, s: State<V>): (r: State<V>)
    ensures r.previous == s.previous && r.operation == s.operation
    ensures r.current.Text?
    ensures TextOf(a, s.current) == "" ==> r.current.s == ""
    ensures TextOf(a, s.current) != "" ==>
              r.current.s + [TextOf(a, s.current)[|TextOf(a, s.current)| - 1]] == TextOf(a, s.current)
    ensures Inv(s) ==> Inv(r)
    ensures OneDot(a, s) ==> OneDot(a, r)
  {
    var t := TextOf(a, s.current);
    assert t != "" ==> t == t[..|t| - 1] + [t[|t| - 1]];
    s.(current := Text(DropLast(t)))
  }

  /** `clear()`: every field back to its initial value. */
  function Clear<V>(s: State<V>): (r: State<V>)
    ensures IsBlank(r.current) && IsBlank(r.previous) && r.operation == None
  {
    State(Text(""), Text(""), None)
  }

  /** The constructor's state satisfies the invariant. */
  lemma InitInv<V>()
    ensures Inv(Init<V>())
    ensures forall a: Arith<V> :: OneDot(a, Init<V>())
  {
  }

  /** `clear` brings back the constructor's state from any state, and
      clearing twice is clearing once. */
  lemma ClearResets<V>(s: State<V>)
    ensures Clear(s) == Init()
    ensures Clear(Clear(s)) == Clear(s)
    ensures Inv(Clear(s))
  {
  }

  /** `compute` leaves the state alone exactly when one of its guards
      fails; when it succeeds the state visibly changes. */
  lemma ComputeNoOpIff<V>(a: Arith<V>, s: State<V>)
    ensures Compute(a, s) == s <==> !Computable(a, s)
  {
    if Computable(a, s) {
      assert !IsBlank(s.previous);
      assert IsBlank(Compute(a, s).previous);
    }
  }

  /** Pressing `=` twice computes once: after a successful `compute` the
      previous operand is empty and cannot parse. */
  lemma ComputeIdempotent<V>(a: Arith<V>, s: State<V>)
    ensures Compute(a, Compute(a, s)) == Compute(a, s)
  {
  }

  /** `chooseOperation` with nothing typed leaves the state alone, for
      every operator string. */
  lemma ChooseOnBlankIsNoOp<V>(a: Arith<V>, s: State<V>)
    requires IsBlank(s.current)
    ensures forall op :: ChooseOperation(a, s, op) == s
  {
  }

  /** The left fold of chained entry: with an operation pending whose
      operands parse, choosing the next operator first collapses the
      pending operation into its result, which becomes the previous
      operand of the new operation. */
  lemma ChooseFoldsLeft<V>(a: Arith<V>, s: State<V>, op: string)
    requires !IsBlank(s.current) && Computable(a, s)
    ensures ChooseOperation(a, s, op)
            == State(Text(""),
                     Num(a.apply(OperatorOf(s.operation).value,
                                 Parse(a, s.previous).value, Parse(a, s.current).value)),
                     Some(op))
  {
  }

  /** When the folded `compute` fails, `chooseOperation` still completes:
      the old previous operand and operator are discarded and the current
      operand moves to the previous one unchanged. */
  lemma ChooseDiscardsFailedFold<V>(a: Arith<V>, s: State<V>, op: string)
    requires !IsBlank(s.current) && !Computable(a, s)
    ensures ChooseOperation(a, s, op) == State(Text(""), s.current, Some(op))
  {
  }

  /** `delete` undoes an accepted `appendNumber` on a text operand. */
  lemma DeleteUndoesAppend<V>(a: Arith<V>, s: State<V>, t: Token)
    requires s.current.Text?
    requires t.Digit? || '.' !in s.current.s
    ensures AppendNumber(a, s, t).Success?
    ensures Delete(a, AppendNumber(a, s, t).value) == s
  {
    var cur := s.current.s;
    assert (cur + TokenText(t))[..|cur|] == cur;
  }
}
