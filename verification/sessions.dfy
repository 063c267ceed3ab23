/**
 Sequences of calls into the calculator element, as the buttons issue them
 one click at a time. A call that throws leaves the fields as they were
 (the exception only aborts that click's handler), so a session carries on
 from the unchanged state.
 */
module Sessions {
  import opened Wrappers
  import opened Numerics
  import opened Calculator

  /** One call of one of the five operations. */
  datatype Action = Append(t: Token) | Choose(op: string) | Equals | Del | AllClear

  /** The outcome of one call. */
  function Step<V>(a: Arith<V>, s: State<V>, act: Action): (r: Result<State<V>, Fault>)
    ensures r.Failure? <==> act.Append? && act.t.Point? && s.current.Num?
    ensures Inv(s) && r.Success? ==> Inv(r.value)
  {
    match act
    case Append(t) => AppendNumber(a, s, t)
    case Choose(op) => Success(ChooseOperation(a, s, op))
    case Equals => Success(Compute(a, s))
    case Del => Success(Delete(a, s))
    case AllClear => Success(Clear(s))
  }

  /** The fields after one call, whether or not it threw: a throwing call
      aborts its click handler before any field is assigned. */
  function After<V>(a: Arith<V>, s: State<V>, act: Action): (r: State<V>)
    ensures Step(a, s, act).Failure? ==> r == s
    ensures Step(a, s, act).Success? ==> r == Step(a, s, act).value
    ensures Inv(s) ==> Inv(r)
  {
    match Step(a, s, act)
    case Success(s') => s'
    case Failure(_) => s
  }

  /** The fields after a whole sequence of calls. */
  function Run<V>(a: Arith<V>, s: State<V>, acts: seq<Action>): State<V>
    decreases |acts|
  {
    if |acts| == 0 then s else Run(a, After(a, s, acts[0]), acts[1..])
  }

  /** Running two sequences one after the other is running their concatenation. */
  lemma {:induction false} RunConcat<V>(a: Arith<V>, s: State<V>, xs: seq<Action>, ys: seq<Action>)
    ensures Run(a, s, xs + ys) == Run(a, Run(a, s, xs), ys)
    decreases |xs|
  {
    if |xs| > 0 {
      assert (xs + ys)[0] == xs[0];
      assert (xs + ys)[1..] == xs[1..] + ys;
      RunConcat(a, After(a, s, xs[0]), xs[1..], ys);
    } else {
      assert xs + ys == ys;
    }
  }

  /** Every sequence of calls keeps the invariant. */
  lemma {:induction false} RunKeepsInv<V>(a: Arith<V>, s: State<V>, acts: seq<Action>)
    requires Inv(s)
    ensures Inv(Run(a, s, acts))
    decreases |acts|
  {
    if |acts| > 0 {
      RunKeepsInv(a, After(a, s, acts[0]), acts[1..]);
    }
  }

  /** Every state reachable from the constructor's satisfies the invariant:
      a previous operand is held exactly while an operation is pending. */
  lemma ReachableInv<V>(a: Arith<V>, acts: seq<Action>)
    ensures Inv(Run(a, Init(), acts))
    ensures IsBlank(Run(a, Init(), acts).previous) <==> Run(a, Init(), acts).operation == None
  {
    InitInv<V>();
    RunKeepsInv(a, Init(), acts);
  }

  /** If number formatting never writes two decimal points, no sequence of
      calls puts two decimal points into the current operand. */
  lemma {:induction false} RunKeepsOneDot<V(!new)>(a: Arith<V>, s: State<V>, acts: seq<Action>)
    requires forall v :: Dots(a.format(v)) <= 1
    requires OneDot(a, s)
    ensures OneDot(a, Run(a, s, acts))
    decreases |acts|
  {
    if |acts| > 0 {
      var s' := After(a, s, acts[0]);
      assert OneDot(a, s') by {
        if acts[0].Equals? && Compute(a, s) != s {
          assert Compute(a, s).current.Num?;
        }
      }
      RunKeepsOneDot(a, s', acts[1..]);
    }
  }

  /** One `appendNumber` call per token. */
  function Appends(ts: seq<Token>): (r: seq<Action>)
    ensures |r| == |ts|
    ensures forall i :: 0 <= i < |ts| ==> r[i] == Append(ts[i])
  {
    if |ts| == 0 then [] else [Append(ts[0])] + Appends(ts[1..])
  }

  /** The text of a sequence of tokens, one character each. */
  function Spell(ts: seq<Token>): string {
    if |ts| == 0 then "" else TokenText(ts[0]) + Spell(ts[1..])
  }

  /** The number of decimal-point tokens. */
  function Points(ts: seq<Token>): nat {
    if |ts| == 0 then 0 else (if ts[0].Point? then 1 else 0) + Points(ts[1..])
  }

  /** The digit tokens, in order. */
  function DigitsOf(ts: seq<Token>): seq<Token> {
    if |ts| == 0 then []
    else if ts[0].Digit? then [ts[0]] + DigitsOf(ts[1..])
    else DigitsOf(ts[1..])
  }

  /** Reference definition of which tokens a typed operand keeps: every
      digit, and a decimal point only while none has been seen. */
  function Accepted(dotSeen: bool, ts: seq<Token>): seq<Token>
    decreases |ts|
  {
    if |ts| == 0 then []
    else if ts[0].Point? && dotSeen then Accepted(true, ts[1..])
    else [ts[0]] + Accepted(dotSeen || ts[0].Point?, ts[1..])
  }

  /** The accepted tokens are all the digits, in order, plus one decimal
      point exactly when none had been seen before and one was typed. */
  lemma {:induction false} AcceptedShape(dotSeen: bool, ts: seq<Token>)
    ensures DigitsOf(Accepted(dotSeen, ts)) == DigitsOf(ts)
    ensures Points(Accepted(dotSeen, ts)) == if !dotSeen && Point in ts then 1 else 0
    decreases |ts|
  {
    if |ts| > 0 {
      var rest := ts[1..];
      assert ts == [ts[0]] + rest;
      AcceptedShape(dotSeen || ts[0].Point?, rest);
      if !(ts[0].Point? && dotSeen) {
        var acc := [ts[0]] + Accepted(dotSeen || ts[0].Point?, rest);
        assert acc[1..] == Accepted(dotSeen || ts[0].Point?, rest);
      }
    }
  }

  /** The number of decimal points in spelled tokens is the number of
      decimal-point tokens. */
  lemma {:induction false} SpellDots(ts: seq<Token>)
    ensures Dots(Spell(ts)) == Points(ts)
    decreases |ts|
  {
    if |ts| > 0 {
      SpellDots(ts[1..]);
      var c := TokenText(ts[0]);
      assert c == [c[0]];
      assert multiset(c)['.'] == if ts[0].Point? then 1 else 0;
      assert multiset(c + Spell(ts[1..])) == multiset(c) + multiset(Spell(ts[1..]));
    }
  }

  /** Spelling distributes over a leading token. */
  lemma SpellCons(t: Token, ts: seq<Token>)
    ensures Spell([t] + ts) == TokenText(t) + Spell(ts)
  {
    assert ([t] + ts)[1..] == ts;
  }

  /** A decimal point occurs in a text followed by a token exactly when
      it occurs in the text or the token is the decimal point. */
  lemma DotAfterToken(cur: string, t: Token)
    ensures ('.' in cur + TokenText(t)) == ('.' in cur || t.Point?)
  {
    var c := TokenText(t);
    assert c == [c[0]];
    assert multiset(cur + c) == multiset(cur) + multiset(c);
  }

  /** One `appendNumber` call on a text operand, in terms of the accepted
      tokens. */
  lemma AppendOne<V>(a: Arith<V>, s: State<V>, t: Token)
    requires s.current.Text?
    ensures After(a, s, Append(t))
            == s.(current := Text(s.current.s + Spell(Accepted('.' in s.current.s, [t]))))
  {
    var seen := '.' in s.current.s;
    if !(t.Point? && seen) {
      assert Accepted(seen, [t]) == [t] + Accepted(seen || t.Point?, []);
      SpellCons(t, []);
    }
  }

  /** Accepting tokens from a text and then from more tokens is accepting
      them all at once. */
  lemma {:induction false} AcceptedCons(cur: string, t: Token, rest: seq<Token>)
    ensures cur + Spell(Accepted('.' in cur, [t] + rest))
            == (cur + Spell(Accepted('.' in cur, [t])))
               + Spell(Accepted('.' in cur + Spell(Accepted('.' in cur, [t])), rest))
  {
    var seen := '.' in cur;
    var ts := [t] + rest;
    assert ts[0] == t && ts[1..] == rest;
    assert [t][1..] == [];
    if t.Point? && seen {
      assert Accepted(seen, [t]) == [];
      assert cur + Spell([]) == cur;
    } else {
      var seen' := seen || t.Point?;
      assert Accepted(seen, [t]) == [t] + Accepted(seen', []);
      SpellCons(t, []);
      DotAfterToken(cur, t);
      SpellCons(t, Accepted(seen', rest));
      assert Spell(Accepted(seen, [t])) == TokenText(t) + "";
    }
  }

  /** From a text operand, a run of `appendNumber` calls leaves the operand followed by exactly the accepted tokens, touching
      nothing else. */
  lemma {:induction false} AppendRun<V>(a: Arith<V>, s: State<V>, ts: seq<Token>)
    requires s.current.Text?
    ensures Run(a, s, Appends(ts))
            == s.(current := Text(s.current.s + Spell(Accepted('.' in s.current.s, ts))))
    decreases |ts|
  {
    var cur := s.current.s;
    if |ts| == 0 {
      assert cur + "" == cur;
    } else {
      var t := ts[0];
      var rest := ts[1..];
      assert ts == [t] + rest;
      assert Appends(ts)[1..] == Appends(rest);
      var s1 := After(a, s, Append(t));
      assert Run(a, s, Appends(ts)) == Run(a, s1, Appends(rest));
      AppendOne(a, s, t);
      AppendRun(a, s1, rest);
      AcceptedCons(cur, t, rest);
    }
  }

  /** From a text operand, no call in a run of `appendNumber` calls
      throws: each one meets a text operand. */
  lemma AppendRunNeverThrows<V>(a: Arith<V>, s: State<V>, ts: seq<Token>)
    requires s.current.Text?
    ensures forall i :: 0 <= i < |ts| ==> Step(a, Run(a, s, Appends(ts[..i])), Append(ts[i])).Success?
  {
    forall i | 0 <= i < |ts|
      ensures Step(a, Run(a, s, Appends(ts[..i])), Append(ts[i])).Success?
    {
      AppendRun(a, s, ts[..i]);
    }
  }

  /** From a text operand with at most one decimal point, a run of
      `appendNumber` calls appends every digit typed, in order, and the
      operand still holds at most one decimal point. */
  lemma AppendRunOneDot<V>(a: Arith<V>, s: State<V>, ts: seq<Token>)
    requires s.current.Text? && Dots(s.current.s) <= 1
    ensures Run(a, s, Appends(ts)).current.Text?
    ensures Dots(Run(a, s, Appends(ts)).current.s) <= 1
    ensures DigitsOf(Accepted('.' in s.current.s, ts)) == DigitsOf(ts)
  {
    var seen := '.' in s.current.s;
    AppendRun(a, s, ts);
    AcceptedShape(seen, ts);
    SpellDots(Accepted(seen, ts));
    var typed := Spell(Accepted(seen, ts));
    assert multiset(s.current.s + typed) == multiset(s.current.s) + multiset(typed);
  }
}
