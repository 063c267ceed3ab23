/**
 Chained entry: numbers separated by operators are evaluated strictly left
 to right, each operator press collapsing the pending operation into its
 result before the next operand is typed. There is no precedence.
 */
module Chains {
  import opened Wrappers
  import opened Numerics
  import opened Calculator
  import opened Sessions

  /** An operator press followed by the digits of the next operand. */
  datatype Term = Term(sym: string, digits: seq<Token>)

  /** A term whose operator is one of the four symbols and whose operand is
      a non-empty run of digits that parses. */
  predicate GoodTerm<V>(a: Arith<V>, t: Term) {
    && OperatorOf(Some(t.sym)).Some?
    && |t.digits| > 0
    && (forall i :: 0 <= i < |t.digits| ==> t.digits[i].Digit?)
    && a.parse(Spell(t.digits)).Some?
  }

  /** The operator of a good term. */
  function OpOf<V>(a: Arith<V>, t: Term): Op
    requires GoodTerm(a, t)
  {
    OperatorOf(Some(t.sym)).value
  }

  /** The value of a good term's operand. */
  function ValueOf<V>(a: Arith<V>, t: Term): V
    requires GoodTerm(a, t)
  {
    a.parse(Spell(t.digits)).value
  }

  /** Reference evaluator: a left fold of the terms onto an accumulated value. */
  function FoldLeft<V>(a: Arith<V>, acc: V, terms: seq<Term>): V
    requires forall i :: 0 <= i < |terms| ==> GoodTerm(a, terms[i])
    decreases |terms|
  {
    if |terms| == 0 then acc
    else FoldLeft(a, a.apply(OpOf(a, terms[0]), acc, ValueOf(a, terms[0])), terms[1..])
  }

  /** Every intermediate result of the fold survives being formatted and
      parsed again, as `compute` does when it reads a computed previous
      operand. (A finite JavaScript number does; NaN does not.) */
  ghost predicate Replays<V>(a: Arith<V>, acc: V, terms: seq<Term>)
    requires forall i :: 0 <= i < |terms| ==> GoodTerm(a, terms[i])
    decreases |terms|
  {
    |terms| == 0 ||
    (Parse(a, Num(acc)) == Some(acc)
     && Replays(a, a.apply(OpOf(a, terms[0]), acc, ValueOf(a, terms[0])), terms[1..]))
  }

  /** The calls the buttons issue for a sequence of terms. */
  function Keys(terms: seq<Term>): seq<Action>
    decreases |terms|
  {
    if |terms| == 0 then [] else [Choose(terms[0].sym)] + Appends(terms[0].digits) + Keys(terms[1..])
  }

  /** Digits alone are all accepted, whatever was typed before. */
  lemma {:induction false} DigitsAllAccepted(seen: bool, ts: seq<Token>)
    requires forall i :: 0 <= i < |ts| ==> ts[i].Digit?
    ensures Accepted(seen, ts) == ts
    decreases |ts|
  {
    if |ts| > 0 {
      DigitsAllAccepted(seen, ts[1..]);
      assert ts == [ts[0]] + ts[1..];
    }
  }

  /** One term after a pending operation whose operands parse: the operator
      press folds the pending operation, and the digits become the new
      current operand. */
  lemma TermStep<V>(a: Arith<V>, s: State<V>, t: Term)
    requires !IsBlank(s.current) && Computable(a, s)
    requires GoodTerm(a, t)
    ensures Run(a, s, [Choose(t.sym)] + Appends(t.digits))
            == State(Text(Spell(t.digits)),
                     Num(a.apply(OperatorOf(s.operation).value,
                                 Parse(a, s.previous).value, Parse(a, s.current).value)),
                     Some(t.sym))
  {
    var s1 := ChooseOperation(a, s, t.sym);
    ChooseFoldsLeft(a, s, t.sym);
    assert Run(a, s, [Choose(t.sym)]) == s1;
    RunConcat(a, s, [Choose(t.sym)], Appends(t.digits));
    AppendRun(a, s1, t.digits);
    DigitsAllAccepted(false, t.digits);
    assert "" + Spell(t.digits) == Spell(t.digits);
  }

  /** With an operation pending whose operands parse, pressing the terms'
      operators and digits and then `=` leaves the left fold of all the
      operands in the current operand, with nothing pending. */
  lemma {:induction false} ChainFoldsLeft<V>(a: Arith<V>, s: State<V>, terms: seq<Term>)
    requires !IsBlank(s.current) && Computable(a, s)
    requires forall i :: 0 <= i < |terms| ==> GoodTerm(a, terms[i])
    requires Replays(a, a.apply(OperatorOf(s.operation).value,
                                Parse(a, s.previous).value, Parse(a, s.current).value), terms)
    ensures Run(a, s, Keys(terms) + [Equals])
            == State(Num(FoldLeft(a, a.apply(OperatorOf(s.operation).value,
                                             Parse(a, s.previous).value, Parse(a, s.current).value),
                                  terms)),
                     Text(""), None)
    decreases |terms|
  {
    var v := a.apply(OperatorOf(s.operation).value, Parse(a, s.previous).value, Parse(a, s.current).value);
    if |terms| == 0 {
      assert Keys(terms) + [Equals] == [Equals];
      assert Run(a, s, [Equals]) == Compute(a, s);
    } else {
      var t := terms[0];
      var rest := terms[1..];
      var head := [Choose(t.sym)] + Appends(t.digits);
      assert Keys(terms) + [Equals] == head + (Keys(rest) + [Equals]);
      RunConcat(a, s, head, Keys(rest) + [Equals]);
      TermStep(a, s, t);
      var s2 := State(Text(Spell(t.digits)), Num(v), Some(t.sym));
      assert Run(a, s, head) == s2;
      DigitsAllAccepted(false, t.digits);
      assert Spell(t.digits) != "" by {
        assert |Spell(t.digits)| > 0 by {
          assert Spell(t.digits) == TokenText(t.digits[0]) + Spell(t.digits[1..]);
        }
      }
      assert Computable(a, s2);
      ChainFoldsLeft(a, s2, rest);
    }
  }

  /** Typing a digit, an operator and a digit from the constructor's state
      leaves the operation pending on the two one-digit operands. */
  lemma EnterPair<V>(a: Arith<V>, x: DigitValue, sym: string, y: DigitValue)
    ensures Run(a, Init(), [Append(Digit(x)), Choose(sym), Append(Digit(y))])
            == State(Text(TokenText(Digit(y))), Text(TokenText(Digit(x))), Some(sym))
  {
    var acts := [Append(Digit(x)), Choose(sym), Append(Digit(y))];
    var s1 := After(a, Init(), Append(Digit(x)));
    assert s1 == State(Text(TokenText(Digit(x))), Text(""), None);
    var s2 := After(a, s1, Choose(sym));
    assert s2 == State(Text(""), Text(TokenText(Digit(x))), Some(sym));
    var s3 := After(a, s2, Append(Digit(y)));
    assert s3 == State(Text(TokenText(Digit(y))), Text(TokenText(Digit(x))), Some(sym));
    assert acts[1..] == [Choose(sym), Append(Digit(y))];
    assert acts[1..][1..] == [Append(Digit(y))];
    assert [Append(Digit(y))][1..] == [];
    assert Run(a, s2, [Append(Digit(y))]) == Run(a, s3, []) == s3;
    assert Run(a, s1, [Choose(sym), Append(Digit(y))]) == Run(a, s2, [Append(Digit(y))]);
    assert Run(a, Init(), acts) == Run(a, s1, acts[1..]);
  }

  /** Entering `5 + 3 =` leaves the sum, as a number, in the current
      operand with nothing pending. */
  lemma FivePlusThree<V>(a: Arith<V>, five: V, three: V)
    requires a.parse("5") == Some(five) && a.parse("3") == Some(three)
    ensures Run(a, Init(), [Append(Digit(5)), Choose("+"), Append(Digit(3)), Equals])
            == State(Num(a.apply(Add, five, three)), Text(""), None)
  {
    assert TokenText(Digit(5)) == "5" && TokenText(Digit(3)) == "3";
    var entry := [Append(Digit(5)), Choose("+"), Append(Digit(3))];
    EnterPair(a, 5, "+", 3);
    RunConcat(a, Init(), entry, [Equals]);
    assert entry + [Equals] == [Append(Digit(5)), Choose("+"), Append(Digit(3)), Equals];
    assert Run(a, Run(a, Init(), entry), [Equals]) == Compute(a, Run(a, Init(), entry));
  }

  /** Entering `2 + 3 * 4 =` computes `(2 + 3) * 4`, not `2 + (3 * 4)`. */
  lemma TwoPlusThreeTimesFour<V>(a: Arith<V>, two: V, three: V, four: V)
    requires a.parse("2") == Some(two) && a.parse("3") == Some(three) && a.parse("4") == Some(four)
    requires Parse(a, Num(a.apply(Add, two, three))) == Some(a.apply(Add, two, three))
    ensures Run(a, Init(), [Append(Digit(2)), Choose("+"), Append(Digit(3)),
                            Choose("*"), Append(Digit(4)), Equals])
            == State(Num(a.apply(Mul, a.apply(Add, two, three), four)), Text(""), None)
  {
    assert TokenText(Digit(2)) == "2" && TokenText(Digit(3)) == "3";
    var entry := [Append(Digit(2)), Choose("+"), Append(Digit(3))];
    EnterPair(a, 2, "+", 3);
    var s := Run(a, Init(), entry);
    assert s == State(Text("3"), Text("2"), Some("+"));
    var t := Term("*", [Digit(4)]);
    assert Spell([Digit(4)]) == "4" by { SpellCons(Digit(4), []); }
    assert GoodTerm(a, t);
    assert Keys([t]) == [Choose("*"), Append(Digit(4))] by {
      assert [t][1..] == [];
      assert Appends([Digit(4)]) == [Append(Digit(4))];
    }
    var tail := Keys([t]) + [Equals];
    assert entry + tail == [Append(Digit(2)), Choose("+"), Append(Digit(3)),
                            Choose("*"), Append(Digit(4)), Equals];
    RunConcat(a, Init(), entry, tail);
    assert Replays(a, a.apply(Add, two, three), [t]) by {
      assert [t][1..] == [];
    }
    ChainFoldsLeft(a, s, [t]);
    assert FoldLeft(a, a.apply(Add, two, three), [t]) == a.apply(Mul, a.apply(Add, two, three), four) by {
      assert [t][1..] == [];
    }
  }

  /** Two decimal points typed on an empty operand give a single ".". */
  lemma PointTwiceFromEmpty<V>(a: Arith<V>)
    ensures Run(a, Init(), Appends([Point, Point])).current == Text(".")
  {
    AppendRun(a, Init(), [Point, Point]);
    assert Accepted(false, [Point, Point]) == [Point] by {
      assert [Point, Point][1..] == [Point];
      assert Accepted(true, [Point]) == Accepted(true, []);
    }
    SpellCons(Point, []);
  }

  /** A decimal point typed on a computed result throws: the number in the
      current operand has no `includes` method. */
  lemma PointAfterResultThrows<V>(a: Arith<V>, five: V, three: V)
    requires a.parse("5") == Some(five) && a.parse("3") == Some(three)
    ensures Step(a, Run(a, Init(), [Append(Digit(5)), Choose("+"), Append(Digit(3)), Equals]),
                 Append(Point)) == Failure(TypeError)
  {
    FivePlusThree(a, five, three);
  }

  /** `delete` on "12" gives "1", and on "" gives "". */
  lemma DeleteExamples<V>(a: Arith<V>, s: State<V>)
    ensures Delete(a, s.(current := Text("12"))).current == Text("1")
    ensures Delete(a, s.(current := Text(""))).current == Text("")
  {
    assert "12"[..1] == "1";
  }
}
