/** Worked lines: what the calculator computes for a few token lists,
    derived from the general lemmas of the other modules. */
module Scenarios {
  import opened Values
  import opened Tokenizer
  import opened Postfix
  import opened Shunting
  import opened Calc

  lemma Digits()
    ensures AllDigits("1") && DecimalValue("1") == 1
    ensures AllDigits("2") && DecimalValue("2") == 2
    ensures AllDigits("3") && DecimalValue("3") == 3
    ensures AllDigits("4") && DecimalValue("4") == 4
    ensures AllDigits("10") && DecimalValue("10") == 10
  {
    assert "10"[..1] == "1";
  }

  /** A line of signs alone transforms to the empty postfix: the pending
      signs are dropped, and evaluating that empty postfix fails. */
  lemma LoneSign(vars: map<string, Value>)
    ensures Transform(["-"], vars) == Ok([])
    ensures EvaluateTokens(["-"], vars) == Err(EmptyStack)
  {
    assert [] + ["-"] == ["-"];
    TrailingSignsDropped([], ["-"], vars);
  }

  /** `2 ^ 3 ^ 2` is `(2 ^ 3) ^ 2 = 64`, not `2 ^ 9`. */
  lemma PowerGroupsLeft()
    ensures EvaluateTokens(["2", "^", "3", "^", "2"], map[]) == Ok(Int(64))
  {
    var p := [Num(Int(2)), Num(Int(3)), Op('^'), Num(Int(2)), Op('^')];
    PowerTransform();
    PowerEvaluate(p);
  }

  lemma PowerTransform()
    ensures Transform(["2", "^", "3", "^", "2"], map[]) == Ok([Num(Int(2)), Num(Int(3)), Op('^'), Num(Int(2)), Op('^')])
  {
    Digits();
    LeftAssociative("2", "^", "3", "^", "2", map[]);
  }

  lemma PowerEvaluate(p: seq<Item>)
    requires p == [Num(Int(2)), Num(Int(3)), Op('^'), Num(Int(2)), Op('^')]
    ensures Evaluate(p) == Ok(Int(64))
  {
    var e := Node('^', Node('^', Leaf(Int(2)), Leaf(Int(3))), Leaf(Int(2)));
    assert Postorder(e) == p;
    EvaluatePostorder(e);
  }

  /** `2 + 3 * 4 = 14`: the tighter operator is applied first. */
  lemma ProductFirst()
    ensures EvaluateTokens(["2", "+", "3", "*", "4"], map[]) == Ok(Int(14))
  {
    var p := [Num(Int(2)), Num(Int(3)), Num(Int(4)), Op('*'), Op('+')];
    ProductTransform();
    ProductEvaluate(p);
  }

  lemma ProductTransform()
    ensures Transform(["2", "+", "3", "*", "4"], map[]) == Ok([Num(Int(2)), Num(Int(3)), Num(Int(4)), Op('*'), Op('+')])
  {
    Digits();
    LeftAssociative("2", "+", "3", "*", "4", map[]);
  }

  lemma ProductEvaluate(p: seq<Item>)
    requires p == [Num(Int(2)), Num(Int(3)), Num(Int(4)), Op('*'), Op('+')]
    ensures Evaluate(p) == Ok(Int(14))
  {
    var e := Node('+', Leaf(Int(2)), Node('*', Leaf(Int(3)), Leaf(Int(4))));
    assert Postorder(e) == p;
    EvaluatePostorder(e);
  }

  /** `x o y` on two numbers is one application of the operator, the
      result turned into an `int` when integral. */
  lemma {:induction false} NumberOperation(x: string, o: string, y: string, vars: map<string, Value>)
    requires AllDigits(x) && x != "" && AllDigits(y) && y != "" && IsBinaryToken(o)
    ensures EvaluateTokens([x, o, y], vars) ==
      Finish(ApplyBinary(o[0], Int(DecimalValue(x)), Int(DecimalValue(y))))
  {
    var (a, b) := (Num(Int(DecimalValue(x))), Num(Int(DecimalValue(y))));
    FirstOperand(x, o, y, vars);
    assert Top([o[0]]) == o[0] != '(' && [o[0]][..0] == [];
    assert [a, b] + [Op(o[0])] == [a, b, Op(o[0])];
    assert PopToParen([a, b], [o[0]]) == ([a, b, Op(o[0])], []);
    var e := Node(o[0], Leaf(Int(DecimalValue(x))), Leaf(Int(DecimalValue(y))));
    assert Postorder(e) == [a, b, Op(o[0])];
    EvaluatePostorder(e);
  }

  /** `10 / 2` prints `5`: the `float` quotient is integral and becomes an
      `int`; `1 / 2` stays the `float` 0.5. */
  lemma Quotients()
    ensures EvaluateTokens(["10", "/", "2"], map[]) == Ok(Int(5))
    ensures EvaluateTokens(["1", "/", "2"], map[]) == Ok(Float(0.5))
  {
    Digits();
    NumberOperation("10", "/", "2", map[]);
    NumberOperation("1", "/", "2", map[]);
    assert ApplyBinary('/', Int(10), Int(2)) == Ok(Float(5.0));
    assert 5.0.Floor == 5;
    assert ApplyBinary('/', Int(1), Int(2)) == Ok(Float(0.5));
    assert 0.5.Floor == 0;
  }

  // ---------------------------------------------------------------------
  // The documented example, token by token
  // ---------------------------------------------------------------------

  /** The transformer's loop read from the front, from a given state. */
  function Trace(st: Shunt, tokens: seq<string>, vars: map<string, Value>): Result<Shunt>
    decreases |tokens|
  {
    if tokens == [] then Ok(st)
    else
      var st' :- Step(st, tokens[0], vars);
      Trace(st', tokens[1..], vars)
  }

  lemma {:induction false} RunThenTrace(a: seq<string>, b: seq<string>, vars: map<string, Value>)
    requires Run(a, vars).Ok?
    ensures Run(a + b, vars) == Trace(Run(a, vars).value, b, vars)
    decreases |b|
  {
    if b == [] {
      assert a + b == a;
    } else {
      var a' := a + [b[0]];
      assert a' [..|a|] == a;
      assert a + b == a' + b[1..];
      if Run(a', vars).Ok? {
        RunThenTrace(a', b[1..], vars);
      } else {
        RunErrSticks(a', b[1..], vars);
      }
    }
  }

  lemma {:induction false} TraceAppend(st: Shunt, a: seq<string>, b: seq<string>, vars: map<string, Value>)
    requires Trace(st, a, vars).Ok?
    ensures Trace(st, a + b, vars) == Trace(Trace(st, a, vars).value, b, vars)
    decreases |a|
  {
    if a == [] {
      assert a + b == b;
    } else {
      assert (a + b)[1..] == a[1..] + b;
      TraceAppend(Step(st, a[0], vars).value, a[1..], b, vars);
    }
  }

  /** Tokens 1 to 3 of the documented example, after any output. */
  lemma {:induction false} Segment1(out: seq<Item>)
    ensures Trace(Shunt(out, [], [], false), ["-", "-", "3"], map[]) ==
            Ok(Shunt(out + [Num(Int(3))], [], [], true))
  {
    assert [] + ['-'] == ['-'];
    assert Step(Shunt(out, [], [], false), "-", map[]) == Ok(Shunt(out, [], ['-'], false));
    assert ['-'] + ['-'] == ['-', '-'];
    assert Step(Shunt(out, [], ['-'], false), "-", map[]) == Ok(Shunt(out, [], ['-', '-'], false));
    assert FoldUnary(['-', '-'], Int(3)) == Int(3);
    assert Step(Shunt(out, [], ['-', '-'], false), "3", map[]) == Ok(Shunt(out + [Num(Int(3))], [], [], true));
    assert ["-", "-", "3"][1..] == ["-", "3"];
    assert ["-", "3"][1..] == ["3"];
    assert ["3"][1..] == [];
  }

  /** Tokens 4 to 6 of the documented example, after any output. */
  lemma {:induction false} Segment2(out: seq<Item>)
    ensures Trace(Shunt(out, [], [], true), ["-", "+", "-"], map[]) ==
            Ok(Shunt(out, ['-'], ['+', '-'], false))
  {
    assert PopNotLower(out, [], '-') == (out, []);
    assert [] + ['-'] == ['-'];
    assert Step(Shunt(out, [], [], true), "-", map[]) == Ok(Shunt(out, ['-'], [], false));
    assert [] + ['+'] == ['+'];
    assert Step(Shunt(out, ['-'], [], false), "+", map[]) == Ok(Shunt(out, ['-'], ['+'], false));
    assert ['+'] + ['-'] == ['+', '-'];
    assert Step(Shunt(out, ['-'], ['+'], false), "-", map[]) == Ok(Shunt(out, ['-'], ['+', '-'], false));
    assert ["-", "+", "-"][1..] == ["+", "-"];
    assert ["+", "-"][1..] == ["-"];
    assert ["-"][1..] == [];
  }

  /** Tokens 7 to 9 of the documented example, after any output. */
  lemma {:induction false} Segment3(out: seq<Item>)
    ensures Trace(Shunt(out, ['-'], ['+', '-'], false), ["8", "*", "("], map[]) ==
            Ok(Shunt(out + [Num(Int(-8))], ['-', '*', '('], [], false))
  {
    assert FoldUnary(['+', '-'], Int(8)) == Int(-8);
    assert Step(Shunt(out, ['-'], ['+', '-'], false), "8", map[]) == Ok(Shunt(out + [Num(Int(-8))], ['-'], [], true));
    assert Top(['-']) == '-';
    assert PopNotLower(out + [Num(Int(-8))], ['-'], '*') == (out + [Num(Int(-8))], ['-']);
    assert ['-'] + ['*'] == ['-', '*'];
    assert Step(Shunt(out + [Num(Int(-8))], ['-'], [], true), "*", map[]) == Ok(Shunt(out + [Num(Int(-8))], ['-', '*'], [], false));
    assert ['-', '*'] + ['('] == ['-', '*', '('];
    assert Step(Shunt(out + [Num(Int(-8))], ['-', '*'], [], false), "(", map[]) == Ok(Shunt(out + [Num(Int(-8))], ['-', '*', '('], [], false));
    assert ["8", "*", "("][1..] == ["*", "("];
    assert ["*", "("][1..] == ["("];
    assert ["("][1..] == [];
  }

  /** Tokens 10 to 12 of the documented example, after any output. */
  lemma {:induction false} Segment4(out: seq<Item>)
    ensures Trace(Shunt(out, ['-', '*', '('], [], false), ["(", "2", "^"], map[]) ==
            Ok(Shunt(out + [Num(Int(2))], ['-', '*', '(', '(', '^'], [], false))
  {
    assert ['-', '*', '('] + ['('] == ['-', '*', '(', '('];
    assert Step(Shunt(out, ['-', '*', '('], [], false), "(", map[]) == Ok(Shunt(out, ['-', '*', '(', '('], [], false));
    assert FoldUnary([], Int(2)) == Int(2);
    assert Step(Shunt(out, ['-', '*', '(', '('], [], false), "2", map[]) == Ok(Shunt(out + [Num(Int(2))], ['-', '*', '(', '('], [], true));
    assert Top(['-', '*', '(', '(']) == '(';
    assert PopNotLower(out + [Num(Int(2))], ['-', '*', '(', '('], '^') == (out + [Num(Int(2))], ['-', '*', '(', '(']);
    assert ['-', '*', '(', '('] + ['^'] == ['-', '*', '(', '(', '^'];
    assert Step(Shunt(out + [Num(Int(2))], ['-', '*', '(', '('], [], true), "^", map[]) == Ok(Shunt(out + [Num(Int(2))], ['-', '*', '(', '(', '^'], [], false));
    assert ["(", "2", "^"][1..] == ["2", "^"];
    assert ["2", "^"][1..] == ["^"];
    assert ["^"][1..] == [];
  }

  /** Tokens 13 to 15 of the documented example, after any output. */
  lemma {:induction false} Segment5(out: seq<Item>)
    ensures Trace(Shunt(out, ['-', '*', '(', '(', '^'], [], false), ["2", "+", "3"], map[]) ==
            Ok(Shunt(out + [Num(Int(2)), Op('^'), Num(Int(3))], ['-', '*', '(', '(', '+'], [], true))
  {
    assert FoldUnary([], Int(2)) == Int(2);
    assert Step(Shunt(out, ['-', '*', '(', '(', '^'], [], false), "2", map[]) == Ok(Shunt(out + [Num(Int(2))], ['-', '*', '(', '(', '^'], [], true));
    assert Top(['-', '*', '(', '(', '^']) == '^' && ['-', '*', '(', '(', '^'][..4] == ['-', '*', '(', '('];
    assert out + [Num(Int(2))] + [Op('^')] == out + [Num(Int(2)), Op('^')];
    assert PopNotLower(out + [Num(Int(2))], ['-', '*', '(', '(', '^'], '+') == PopNotLower(out + [Num(Int(2)), Op('^')], ['-', '*', '(', '('], '+');
    assert Top(['-', '*', '(', '(']) == '(';
    assert PopNotLower(out + [Num(Int(2)), Op('^')], ['-', '*', '(', '('], '+') == (out + [Num(Int(2)), Op('^')], ['-', '*', '(', '(']);
    assert ['-', '*', '(', '('] + ['+'] == ['-', '*', '(', '(', '+'];
    assert Step(Shunt(out + [Num(Int(2))], ['-', '*', '(', '(', '^'], [], true), "+", map[]) == Ok(Shunt(out + [Num(Int(2)), Op('^')], ['-', '*', '(', '(', '+'], [], false));
    assert FoldUnary([], Int(3)) == Int(3);
    assert out + [Num(Int(2)), Op('^')] + [Num(Int(3))] == out + [Num(Int(2)), Op('^'), Num(Int(3))];
    assert Step(Shunt(out + [Num(Int(2)), Op('^')], ['-', '*', '(', '(', '+'], [], false), "3", map[]) == Ok(Shunt(out + [Num(Int(2)), Op('^'), Num(Int(3))], ['-', '*', '(', '(', '+'], [], true));
    assert ["2", "+", "3"][1..] == ["+", "3"];
    assert ["+", "3"][1..] == ["3"];
    assert ["3"][1..] == [];
  }

  /** Tokens 16 to 18 of the documented example, after any output. */
  lemma {:induction false} Segment6(out: seq<Item>)
    ensures Trace(Shunt(out, ['-', '*', '(', '(', '+'], [], true), ["^", "1", ")"], map[]) ==
            Ok(Shunt(out + [Num(Int(1)), Op('^'), Op('+')], ['-', '*', '('], [], true))
  {
    assert Top(['-', '*', '(', '(', '+']) == '+';
    assert PopNotLower(out, ['-', '*', '(', '(', '+'], '^') == (out, ['-', '*', '(', '(', '+']);
    assert ['-', '*', '(', '(', '+'] + ['^'] == ['-', '*', '(', '(', '+', '^'];
    assert Step(Shunt(out, ['-', '*', '(', '(', '+'], [], true), "^", map[]) == Ok(Shunt(out, ['-', '*', '(', '(', '+', '^'], [], false));
    assert FoldUnary([], Int(1)) == Int(1);
    assert Step(Shunt(out, ['-', '*', '(', '(', '+', '^'], [], false), "1", map[]) == Ok(Shunt(out + [Num(Int(1))], ['-', '*', '(', '(', '+', '^'], [], true));
    assert Top(['-', '*', '(', '(', '+', '^']) == '^' && ['-', '*', '(', '(', '+', '^'][..5] == ['-', '*', '(', '(', '+'];
    assert out + [Num(Int(1))] + [Op('^')] == out + [Num(Int(1)), Op('^')];
    assert PopToParen(out + [Num(Int(1))], ['-', '*', '(', '(', '+', '^']) == PopToParen(out + [Num(Int(1)), Op('^')], ['-', '*', '(', '(', '+']);
    assert Top(['-', '*', '(', '(', '+']) == '+' && ['-', '*', '(', '(', '+'][..4] == ['-', '*', '(', '('];
    assert out + [Num(Int(1)), Op('^')] + [Op('+')] == out + [Num(Int(1)), Op('^'), Op('+')];
    assert PopToParen(out + [Num(Int(1)), Op('^')], ['-', '*', '(', '(', '+']) == PopToParen(out + [Num(Int(1)), Op('^'), Op('+')], ['-', '*', '(', '(']);
    assert Top(['-', '*', '(', '(']) == '(' && ['-', '*', '(', '('][..3] == ['-', '*', '('];
    assert PopToParen(out + [Num(Int(1)), Op('^'), Op('+')], ['-', '*', '(', '(']) == (out + [Num(Int(1)), Op('^'), Op('+')], ['-', '*', '(', '(']);
    assert Step(Shunt(out + [Num(Int(1))], ['-', '*', '(', '(', '+', '^'], [], true), ")", map[]) == Ok(Shunt(out + [Num(Int(1)), Op('^'), Op('+')], ['-', '*', '('], [], true));
    assert ["^", "1", ")"][1..] == ["1", ")"];
    assert ["1", ")"][1..] == [")"];
    assert [")"][1..] == [];
  }

  /** Tokens 19 to 21 of the documented example, after any output. */
  lemma {:induction false} Segment7(out: seq<Item>)
    ensures Trace(Shunt(out, ['-', '*', '('], [], true), ["*", "2", "+"], map[]) ==
            Ok(Shunt(out + [Num(Int(2)), Op('*')], ['-', '*', '(', '+'], [], false))
  {
    assert Top(['-', '*', '(']) == '(';
    assert PopNotLower(out, ['-', '*', '('], '*') == (out, ['-', '*', '(']);
    assert ['-', '*', '('] + ['*'] == ['-', '*', '(', '*'];
    assert Step(Shunt(out, ['-', '*', '('], [], true), "*", map[]) == Ok(Shunt(out, ['-', '*', '(', '*'], [], false));
    assert FoldUnary([], Int(2)) == Int(2);
    assert Step(Shunt(out, ['-', '*', '(', '*'], [], false), "2", map[]) == Ok(Shunt(out + [Num(Int(2))], ['-', '*', '(', '*'], [], true));
    assert Top(['-', '*', '(', '*']) == '*' && ['-', '*', '(', '*'][..3] == ['-', '*', '('];
    assert out + [Num(Int(2))] + [Op('*')] == out + [Num(Int(2)), Op('*')];
    assert PopNotLower(out + [Num(Int(2))], ['-', '*', '(', '*'], '+') == PopNotLower(out + [Num(Int(2)), Op('*')], ['-', '*', '('], '+');
    assert Top(['-', '*', '(']) == '(';
    assert PopNotLower(out + [Num(Int(2)), Op('*')], ['-', '*', '('], '+') == (out + [Num(Int(2)), Op('*')], ['-', '*', '(']);
    assert ['-', '*', '('] + ['+'] == ['-', '*', '(', '+'];
    assert Step(Shunt(out + [Num(Int(2))], ['-', '*', '(', '*'], [], true), "+", map[]) == Ok(Shunt(out + [Num(Int(2)), Op('*')], ['-', '*', '(', '+'], [], false));
    assert ["*", "2", "+"][1..] == ["2", "+"];
    assert ["2", "+"][1..] == ["+"];
    assert ["+"][1..] == [];
  }

  /** Tokens 22 to 24 of the documented example, after any output. */
  lemma {:induction false} Segment8(out: seq<Item>)
    ensures Trace(Shunt(out, ['-', '*', '(', '+'], [], false), ["1", ")", "+"], map[]) ==
            Ok(Shunt(out + [Num(Int(1)), Op('+'), Op('*'), Op('-')], ['+'], [], false))
  {
    assert FoldUnary([], Int(1)) == Int(1);
    assert Step(Shunt(out, ['-', '*', '(', '+'], [], false), "1", map[]) == Ok(Shunt(out + [Num(Int(1))], ['-', '*', '(', '+'], [], true));
    assert Top(['-', '*', '(', '+']) == '+' && ['-', '*', '(', '+'][..3] == ['-', '*', '('];
    assert out + [Num(Int(1))] + [Op('+')] == out + [Num(Int(1)), Op('+')];
    assert PopToParen(out + [Num(Int(1))], ['-', '*', '(', '+']) == PopToParen(out + [Num(Int(1)), Op('+')], ['-', '*', '(']);
    assert Top(['-', '*', '(']) == '(' && ['-', '*', '('][..2] == ['-', '*'];
    assert PopToParen(out + [Num(Int(1)), Op('+')], ['-', '*', '(']) == (out + [Num(Int(1)), Op('+')], ['-', '*', '(']);
    assert Step(Shunt(out + [Num(Int(1))], ['-', '*', '(', '+'], [], true), ")", map[]) == Ok(Shunt(out + [Num(Int(1)), Op('+')], ['-', '*'], [], true));
    assert Top(['-', '*']) == '*' && ['-', '*'][..1] == ['-'];
    assert out + [Num(Int(1)), Op('+')] + [Op('*')] == out + [Num(Int(1)), Op('+'), Op('*')];
    assert PopNotLower(out + [Num(Int(1)), Op('+')], ['-', '*'], '+') == PopNotLower(out + [Num(Int(1)), Op('+'), Op('*')], ['-'], '+');
    assert Top(['-']) == '-' && ['-'][..0] == [];
    assert out + [Num(Int(1)), Op('+'), Op('*')] + [Op('-')] == out + [Num(Int(1)), Op('+'), Op('*'), Op('-')];
    assert PopNotLower(out + [Num(Int(1)), Op('+'), Op('*')], ['-'], '+') == PopNotLower(out + [Num(Int(1)), Op('+'), Op('*'), Op('-')], [], '+');
    assert PopNotLower(out + [Num(Int(1)), Op('+'), Op('*'), Op('-')], [], '+') == (out + [Num(Int(1)), Op('+'), Op('*'), Op('-')], []);
    assert [] + ['+'] == ['+'];
    assert Step(Shunt(out + [Num(Int(1)), Op('+')], ['-', '*'], [], true), "+", map[]) == Ok(Shunt(out + [Num(Int(1)), Op('+'), Op('*'), Op('-')], ['+'], [], false));
    assert ["1", ")", "+"][1..] == [")", "+"];
    assert [")", "+"][1..] == ["+"];
    assert ["+"][1..] == [];
  }

  /** Tokens 25 to 27 of the documented example, after any output. */
  lemma {:induction false} Segment9(out: seq<Item>)
    ensures Trace(Shunt(out, ['+'], [], false), ["-", "6", "/"], map[]) ==
            Ok(Shunt(out + [Num(Int(-6))], ['+', '/'], [], false))
  {
    assert [] + ['-'] == ['-'];
    assert Step(Shunt(out, ['+'], [], false), "-", map[]) == Ok(Shunt(out, ['+'], ['-'], false));
    assert FoldUnary(['-'], Int(6)) == Int(-6);
    assert Step(Shunt(out, ['+'], ['-'], false), "6", map[]) == Ok(Shunt(out + [Num(Int(-6))], ['+'], [], true));
    assert Top(['+']) == '+';
    assert PopNotLower(out + [Num(Int(-6))], ['+'], '/') == (out + [Num(Int(-6))], ['+']);
    assert ['+'] + ['/'] == ['+', '/'];
    assert Step(Shunt(out + [Num(Int(-6))], ['+'], [], true), "/", map[]) == Ok(Shunt(out + [Num(Int(-6))], ['+', '/'], [], false));
    assert ["-", "6", "/"][1..] == ["6", "/"];
    assert ["6", "/"][1..] == ["/"];
    assert ["/"][1..] == [];
  }

  /** Tokens 28 to 30 of the documented example, after any output. */
  lemma {:induction false} Segment10(out: seq<Item>)
    ensures Trace(Shunt(out, ['+', '/'], [], false), ["(", "3", "^"], map[]) ==
            Ok(Shunt(out + [Num(Int(3))], ['+', '/', '(', '^'], [], false))
  {
    assert ['+', '/'] + ['('] == ['+', '/', '('];
    assert Step(Shunt(out, ['+', '/'], [], false), "(", map[]) == Ok(Shunt(out, ['+', '/', '('], [], false));
    assert FoldUnary([], Int(3)) == Int(3);
    assert Step(Shunt(out, ['+', '/', '('], [], false), "3", map[]) == Ok(Shunt(out + [Num(Int(3))], ['+', '/', '('], [], true));
    assert Top(['+', '/', '(']) == '(';
    assert PopNotLower(out + [Num(Int(3))], ['+', '/', '('], '^') == (out + [Num(Int(3))], ['+', '/', '(']);
    assert ['+', '/', '('] + ['^'] == ['+', '/', '(', '^'];
    assert Step(Shunt(out + [Num(Int(3))], ['+', '/', '('], [], true), "^", map[]) == Ok(Shunt(out + [Num(Int(3))], ['+', '/', '(', '^'], [], false));
    assert ["(", "3", "^"][1..] == ["3", "^"];
    assert ["3", "^"][1..] == ["^"];
    assert ["^"][1..] == [];
  }

  /** Tokens 31 to 33 of the documented example, after any output. */
  lemma {:induction false} Segment11(out: seq<Item>)
    ensures Trace(Shunt(out, ['+', '/', '(', '^'], [], false), ["3", "-", "8"], map[]) ==
            Ok(Shunt(out + [Num(Int(3)), Op('^'), Num(Int(8))], ['+', '/', '(', '-'], [], true))
  {
    assert FoldUnary([], Int(3)) == Int(3);
    assert Step(Shunt(out, ['+', '/', '(', '^'], [], false), "3", map[]) == Ok(Shunt(out + [Num(Int(3))], ['+', '/', '(', '^'], [], true));
    assert Top(['+', '/', '(', '^']) == '^' && ['+', '/', '(', '^'][..3] == ['+', '/', '('];
    assert out + [Num(Int(3))] + [Op('^')] == out + [Num(Int(3)), Op('^')];
    assert PopNotLower(out + [Num(Int(3))], ['+', '/', '(', '^'], '-') == PopNotLower(out + [Num(Int(3)), Op('^')], ['+', '/', '('], '-');
    assert Top(['+', '/', '(']) == '(';
    assert PopNotLower(out + [Num(Int(3)), Op('^')], ['+', '/', '('], '-') == (out + [Num(Int(3)), Op('^')], ['+', '/', '(']);
    assert ['+', '/', '('] + ['-'] == ['+', '/', '(', '-'];
    assert Step(Shunt(out + [Num(Int(3))], ['+', '/', '(', '^'], [], true), "-", map[]) == Ok(Shunt(out + [Num(Int(3)), Op('^')], ['+', '/', '(', '-'], [], false));
    assert FoldUnary([], Int(8)) == Int(8);
    assert out + [Num(Int(3)), Op('^')] + [Num(Int(8))] == out + [Num(Int(3)), Op('^'), Num(Int(8))];
    assert Step(Shunt(out + [Num(Int(3)), Op('^')], ['+', '/', '(', '-'], [], false), "8", map[]) == Ok(Shunt(out + [Num(Int(3)), Op('^'), Num(Int(8))], ['+', '/', '(', '-'], [], true));
    assert ["3", "-", "8"][1..] == ["-", "8"];
    assert ["-", "8"][1..] == ["8"];
    assert ["8"][1..] == [];
  }

  /** Tokens 34 to 36 of the documented example, after any output. */
  lemma {:induction false} Segment12(out: seq<Item>)
    ensures Trace(Shunt(out, ['+', '/', '(', '-'], [], true), ["*", "3", ")"], map[]) ==
            Ok(Shunt(out + [Num(Int(3)), Op('*'), Op('-')], ['+', '/'], [], true))
  {
    assert Top(['+', '/', '(', '-']) == '-';
    assert PopNotLower(out, ['+', '/', '(', '-'], '*') == (out, ['+', '/', '(', '-']);
    assert ['+', '/', '(', '-'] + ['*'] == ['+', '/', '(', '-', '*'];
    assert Step(Shunt(out, ['+', '/', '(', '-'], [], true), "*", map[]) == Ok(Shunt(out, ['+', '/', '(', '-', '*'], [], false));
    assert FoldUnary([], Int(3)) == Int(3);
    assert Step(Shunt(out, ['+', '/', '(', '-', '*'], [], false), "3", map[]) == Ok(Shunt(out + [Num(Int(3))], ['+', '/', '(', '-', '*'], [], true));
    assert Top(['+', '/', '(', '-', '*']) == '*' && ['+', '/', '(', '-', '*'][..4] == ['+', '/', '(', '-'];
    assert out + [Num(Int(3))] + [Op('*')] == out + [Num(Int(3)), Op('*')];
    assert PopToParen(out + [Num(Int(3))], ['+', '/', '(', '-', '*']) == PopToParen(out + [Num(Int(3)), Op('*')], ['+', '/', '(', '-']);
    assert Top(['+', '/', '(', '-']) == '-' && ['+', '/', '(', '-'][..3] == ['+', '/', '('];
    assert out + [Num(Int(3)), Op('*')] + [Op('-')] == out + [Num(Int(3)), Op('*'), Op('-')];
    assert PopToParen(out + [Num(Int(3)), Op('*')], ['+', '/', '(', '-']) == PopToParen(out + [Num(Int(3)), Op('*'), Op('-')], ['+', '/', '(']);
    assert Top(['+', '/', '(']) == '(' && ['+', '/', '('][..2] == ['+', '/'];
    assert PopToParen(out + [Num(Int(3)), Op('*'), Op('-')], ['+', '/', '(']) == (out + [Num(Int(3)), Op('*'), Op('-')], ['+', '/', '(']);
    assert Step(Shunt(out + [Num(Int(3))], ['+', '/', '(', '-', '*'], [], true), ")", map[]) == Ok(Shunt(out + [Num(Int(3)), Op('*'), Op('-')], ['+', '/'], [], true));
    assert ["*", "3", ")"][1..] == ["3", ")"];
    assert ["3", ")"][1..] == [")"];
    assert [")"][1..] == [];
  }

  /** Tokens 1 to 18 of the documented example, after any output. */
  lemma {:induction false} HeadTrace(out: seq<Item>)
    ensures Trace(Shunt(out, [], [], false),
                  ["-", "-", "3", "-", "+", "-", "8", "*", "(", "(", "2", "^", "2", "+", "3", "^", "1", ")"], map[]) ==
            Ok(Shunt(out + [Num(Int(3))] + [Num(Int(-8))] + [Num(Int(2))] + [Num(Int(2)), Op('^'), Num(Int(3))] + [Num(Int(1)), Op('^'), Op('+')], ['-', '*', '('], [], true))
  {
    var m: map<string, Value> := map[];
    var r6 := ["^", "1", ")"];
    var r5 := ["2", "+", "3"] + r6;
    var r4 := ["(", "2", "^"] + r5;
    var r3 := ["8", "*", "("] + r4;
    var r2 := ["-", "+", "-"] + r3;
    var r1 := ["-", "-", "3"] + r2;
    assert r1 == ["-", "-", "3", "-", "+", "-", "8", "*", "(", "(", "2", "^", "2", "+", "3", "^", "1", ")"];
    Segment1(out);
    TraceAppend(Shunt(out, [], [], false), ["-", "-", "3"], r2, m);
    Segment2(out + [Num(Int(3))]);
    TraceAppend(Shunt(out + [Num(Int(3))], [], [], true), ["-", "+", "-"], r3, m);
    Segment3(out + [Num(Int(3))]);
    TraceAppend(Shunt(out + [Num(Int(3))], ['-'], ['+', '-'], false), ["8", "*", "("], r4, m);
    Segment4(out + [Num(Int(3))] + [Num(Int(-8))]);
    TraceAppend(Shunt(out + [Num(Int(3))] + [Num(Int(-8))], ['-', '*', '('], [], false), ["(", "2", "^"], r5, m);
    Segment5(out + [Num(Int(3))] + [Num(Int(-8))] + [Num(Int(2))]);
    TraceAppend(Shunt(out + [Num(Int(3))] + [Num(Int(-8))] + [Num(Int(2))], ['-', '*', '(', '(', '^'], [], false), ["2", "+", "3"], r6, m);
    Segment6(out + [Num(Int(3))] + [Num(Int(-8))] + [Num(Int(2))] + [Num(Int(2)), Op('^'), Num(Int(3))]);
  }

  /** Tokens 19 to 36 of the documented example, after any output. */
  lemma {:induction false} TailTrace(out: seq<Item>)
    ensures Trace(Shunt(out, ['-', '*', '('], [], true),
                  ["*", "2", "+", "1", ")", "+", "-", "6", "/", "(", "3", "^", "3", "-", "8", "*", "3", ")"], map[]) ==
            Ok(Shunt(out + [Num(Int(2)), Op('*')] + [Num(Int(1)), Op('+'), Op('*'), Op('-')] + [Num(Int(-6))] + [Num(Int(3))] + [Num(Int(3)), Op('^'), Num(Int(8))] + [Num(Int(3)), Op('*'), Op('-')], ['+', '/'], [], true))
  {
    var m: map<string, Value> := map[];
    var r12 := ["*", "3", ")"];
    var r11 := ["3", "-", "8"] + r12;
    var r10 := ["(", "3", "^"] + r11;
    var r9 := ["-", "6", "/"] + r10;
    var r8 := ["1", ")", "+"] + r9;
    var r7 := ["*", "2", "+"] + r8;
    assert r7 == ["*", "2", "+", "1", ")", "+", "-", "6", "/", "(", "3", "^", "3", "-", "8", "*", "3", ")"];
    Segment7(out);
    TraceAppend(Shunt(out, ['-', '*', '('], [], true), ["*", "2", "+"], r8, m);
    Segment8(out + [Num(Int(2)), Op('*')]);
    TraceAppend(Shunt(out + [Num(Int(2)), Op('*')], ['-', '*', '(', '+'], [], false), ["1", ")", "+"], r9, m);
    Segment9(out + [Num(Int(2)), Op('*')] + [Num(Int(1)), Op('+'), Op('*'), Op('-')]);
    TraceAppend(Shunt(out + [Num(Int(2)), Op('*')] + [Num(Int(1)), Op('+'), Op('*'), Op('-')], ['+'], [], false), ["-", "6", "/"], r10, m);
    Segment10(out + [Num(Int(2)), Op('*')] + [Num(Int(1)), Op('+'), Op('*'), Op('-')] + [Num(Int(-6))]);
    TraceAppend(Shunt(out + [Num(Int(2)), Op('*')] + [Num(Int(1)), Op('+'), Op('*'), Op('-')] + [Num(Int(-6))], ['+', '/'], [], false), ["(", "3", "^"], r11, m);
    Segment11(out + [Num(Int(2)), Op('*')] + [Num(Int(1)), Op('+'), Op('*'), Op('-')] + [Num(Int(-6))] + [Num(Int(3))]);
    TraceAppend(Shunt(out + [Num(Int(2)), Op('*')] + [Num(Int(1)), Op('+'), Op('*'), Op('-')] + [Num(Int(-6))] + [Num(Int(3))], ['+', '/', '(', '^'], [], false), ["3", "-", "8"], r12, m);
    Segment12(out + [Num(Int(2)), Op('*')] + [Num(Int(1)), Op('+'), Op('*'), Op('-')] + [Num(Int(-6))] + [Num(Int(3))] + [Num(Int(3)), Op('^'), Num(Int(8))]);
  }

  /** The example line of the calculator's help text,
      `- -3-+- 8 *( ( 2^ 2 + 3 ^1)* 2 + 1) + - 6 / (3^3 - 8 *3 )`, as tokens. */
  const Documented: seq<string> :=
    ["-", "-", "3", "-", "+", "-", "8", "*", "(", "(", "2", "^",
     "2", "+", "3", "^", "1", ")", "*", "2", "+", "1", ")", "+",
     "-", "6", "/", "(", "3", "^", "3", "-", "8", "*", "3", ")"]

  /** The output list once every token of the documented example is read. */
  const DocumentedOutput: seq<Item> :=
    [Num(Int(3)), Num(Int(-8)), Num(Int(2)), Num(Int(2)), Op('^'), Num(Int(3)), Num(Int(1)), Op('^'), Op('+'), Num(Int(2)), Op('*'), Num(Int(1)), Op('+'), Op('*'), Op('-'), Num(Int(-6)), Num(Int(3)), Num(Int(3)), Op('^'), Num(Int(8)), Num(Int(3)), Op('*'), Op('-')]

  /** The pieces of output the segments add, one after the other. */
  lemma OutputPieces()
    ensures [] + [Num(Int(3))] + [Num(Int(-8))] + [Num(Int(2))] + [Num(Int(2)), Op('^'), Num(Int(3))] + [Num(Int(1)), Op('^'), Op('+')] + [Num(Int(2)), Op('*')] + [Num(Int(1)), Op('+'), Op('*'), Op('-')] + [Num(Int(-6))] + [Num(Int(3))] + [Num(Int(3)), Op('^'), Num(Int(8))] + [Num(Int(3)), Op('*'), Op('-')] == DocumentedOutput
  {
    var p := [] + [Num(Int(3))];
    assert p == [Num(Int(3))];
    assert p + [Num(Int(-8))] == [Num(Int(3)), Num(Int(-8))];
    p := p + [Num(Int(-8))];
    assert p + [Num(Int(2))] == [Num(Int(3)), Num(Int(-8)), Num(Int(2))];
    p := p + [Num(Int(2))];
    assert p + [Num(Int(2)), Op('^'), Num(Int(3))] == [Num(Int(3)), Num(Int(-8)), Num(Int(2)), Num(Int(2)), Op('^'), Num(Int(3))];
    p := p + [Num(Int(2)), Op('^'), Num(Int(3))];
    assert p + [Num(Int(1)), Op('^'), Op('+')] == [Num(Int(3)), Num(Int(-8)), Num(Int(2)), Num(Int(2)), Op('^'), Num(Int(3)), Num(Int(1)), Op('^'), Op('+')];
    p := p + [Num(Int(1)), Op('^'), Op('+')];
    assert p + [Num(Int(2)), Op('*')] == [Num(Int(3)), Num(Int(-8)), Num(Int(2)), Num(Int(2)), Op('^'), Num(Int(3)), Num(Int(1)), Op('^'), Op('+'), Num(Int(2)), Op('*')];
    p := p + [Num(Int(2)), Op('*')];
    assert p + [Num(Int(1)), Op('+'), Op('*'), Op('-')] == [Num(Int(3)), Num(Int(-8)), Num(Int(2)), Num(Int(2)), Op('^'), Num(Int(3)), Num(Int(1)), Op('^'), Op('+'), Num(Int(2)), Op('*'), Num(Int(1)), Op('+'), Op('*'), Op('-')];
    p := p + [Num(Int(1)), Op('+'), Op('*'), Op('-')];
    assert p + [Num(Int(-6))] == [Num(Int(3)), Num(Int(-8)), Num(Int(2)), Num(Int(2)), Op('^'), Num(Int(3)), Num(Int(1)), Op('^'), Op('+'), Num(Int(2)), Op('*'), Num(Int(1)), Op('+'), Op('*'), Op('-'), Num(Int(-6))];
    p := p + [Num(Int(-6))];
    assert p + [Num(Int(3))] == [Num(Int(3)), Num(Int(-8)), Num(Int(2)), Num(Int(2)), Op('^'), Num(Int(3)), Num(Int(1)), Op('^'), Op('+'), Num(Int(2)), Op('*'), Num(Int(1)), Op('+'), Op('*'), Op('-'), Num(Int(-6)), Num(Int(3))];
    p := p + [Num(Int(3))];
    assert p + [Num(Int(3)), Op('^'), Num(Int(8))] == [Num(Int(3)), Num(Int(-8)), Num(Int(2)), Num(Int(2)), Op('^'), Num(Int(3)), Num(Int(1)), Op('^'), Op('+'), Num(Int(2)), Op('*'), Num(Int(1)), Op('+'), Op('*'), Op('-'), Num(Int(-6)), Num(Int(3)), Num(Int(3)), Op('^'), Num(Int(8))];
    p := p + [Num(Int(3)), Op('^'), Num(Int(8))];
    assert p + [Num(Int(3)), Op('*'), Op('-')] == [Num(Int(3)), Num(Int(-8)), Num(Int(2)), Num(Int(2)), Op('^'), Num(Int(3)), Num(Int(1)), Op('^'), Op('+'), Num(Int(2)), Op('*'), Num(Int(1)), Op('+'), Op('*'), Op('-'), Num(Int(-6)), Num(Int(3)), Num(Int(3)), Op('^'), Num(Int(8)), Num(Int(3)), Op('*'), Op('-')];
    p := p + [Num(Int(3)), Op('*'), Op('-')];
  }

  /** The transformer's state after the documented example's last token. */
  lemma DocumentedRun()
    ensures Run(Documented, map[]) == Ok(Shunt(DocumentedOutput, ['+', '/'], [], true))
  {
    var m: map<string, Value> := map[];
    var head := ["-", "-", "3", "-", "+", "-", "8", "*", "(", "(", "2", "^", "2", "+", "3", "^", "1", ")"];
    var tail := ["*", "2", "+", "1", ")", "+", "-", "6", "/", "(", "3", "^", "3", "-", "8", "*", "3", ")"];
    assert Documented == head + tail;
    RunThenTrace([], head + tail, m);
    assert [] + (head + tail) == head + tail;
    HeadTrace([]);
    TraceAppend(Start, head, tail, m);
    TailTrace([] + [Num(Int(3))] + [Num(Int(-8))] + [Num(Int(2))] + [Num(Int(2)), Op('^'), Num(Int(3))] + [Num(Int(1)), Op('^'), Op('+')]);
    OutputPieces();
  }

  /** The postfix list of the documented example. */
  const DocumentedPostfix: seq<Item> :=
    [Num(Int(3)), Num(Int(-8)), Num(Int(2)), Num(Int(2)), Op('^'), Num(Int(3)), Num(Int(1)), Op('^'), Op('+'), Num(Int(2)), Op('*'), Num(Int(1)), Op('+'), Op('*'), Op('-'), Num(Int(-6)), Num(Int(3)), Num(Int(3)), Op('^'), Num(Int(8)), Num(Int(3)), Op('*'), Op('-'), Op('/'), Op('+')]

  lemma DocumentedTransform()
    ensures Transform(Documented, map[]) == Ok(DocumentedPostfix)
  {
    DocumentedRun();
    assert Top(['+', '/']) == '/' && ['+', '/'][..1] == ['+'];
    assert [Num(Int(3)), Num(Int(-8)), Num(Int(2)), Num(Int(2)), Op('^'), Num(Int(3)), Num(Int(1)), Op('^'), Op('+'), Num(Int(2)), Op('*'), Num(Int(1)), Op('+'), Op('*'), Op('-'), Num(Int(-6)), Num(Int(3)), Num(Int(3)), Op('^'), Num(Int(8)), Num(Int(3)), Op('*'), Op('-')] + [Op('/')] == [Num(Int(3)), Num(Int(-8)), Num(Int(2)), Num(Int(2)), Op('^'), Num(Int(3)), Num(Int(1)), Op('^'), Op('+'), Num(Int(2)), Op('*'), Num(Int(1)), Op('+'), Op('*'), Op('-'), Num(Int(-6)), Num(Int(3)), Num(Int(3)), Op('^'), Num(Int(8)), Num(Int(3)), Op('*'), Op('-'), Op('/')];
    assert PopToParen([Num(Int(3)), Num(Int(-8)), Num(Int(2)), Num(Int(2)), Op('^'), Num(Int(3)), Num(Int(1)), Op('^'), Op('+'), Num(Int(2)), Op('*'), Num(Int(1)), Op('+'), Op('*'), Op('-'), Num(Int(-6)), Num(Int(3)), Num(Int(3)), Op('^'), Num(Int(8)), Num(Int(3)), Op('*'), Op('-')], ['+', '/']) == PopToParen([Num(Int(3)), Num(Int(-8)), Num(Int(2)), Num(Int(2)), Op('^'), Num(Int(3)), Num(Int(1)), Op('^'), Op('+'), Num(Int(2)), Op('*'), Num(Int(1)), Op('+'), Op('*'), Op('-'), Num(Int(-6)), Num(Int(3)), Num(Int(3)), Op('^'), Num(Int(8)), Num(Int(3)), Op('*'), Op('-'), Op('/')], ['+']);
    assert Top(['+']) == '+' && ['+'][..0] == [];
    assert [Num(Int(3)), Num(Int(-8)), Num(Int(2)), Num(Int(2)), Op('^'), Num(Int(3)), Num(Int(1)), Op('^'), Op('+'), Num(Int(2)), Op('*'), Num(Int(1)), Op('+'), Op('*'), Op('-'), Num(Int(-6)), Num(Int(3)), Num(Int(3)), Op('^'), Num(Int(8)), Num(Int(3)), Op('*'), Op('-'), Op('/')] + [Op('+')] == [Num(Int(3)), Num(Int(-8)), Num(Int(2)), Num(Int(2)), Op('^'), Num(Int(3)), Num(Int(1)), Op('^'), Op('+'), Num(Int(2)), Op('*'), Num(Int(1)), Op('+'), Op('*'), Op('-'), Num(Int(-6)), Num(Int(3)), Num(Int(3)), Op('^'), Num(Int(8)), Num(Int(3)), Op('*'), Op('-'), Op('/'), Op('+')];
    assert PopToParen([Num(Int(3)), Num(Int(-8)), Num(Int(2)), Num(Int(2)), Op('^'), Num(Int(3)), Num(Int(1)), Op('^'), Op('+'), Num(Int(2)), Op('*'), Num(Int(1)), Op('+'), Op('*'), Op('-'), Num(Int(-6)), Num(Int(3)), Num(Int(3)), Op('^'), Num(Int(8)), Num(Int(3)), Op('*'), Op('-'), Op('/')], ['+']) == PopToParen([Num(Int(3)), Num(Int(-8)), Num(Int(2)), Num(Int(2)), Op('^'), Num(Int(3)), Num(Int(1)), Op('^'), Op('+'), Num(Int(2)), Op('*'), Num(Int(1)), Op('+'), Op('*'), Op('-'), Num(Int(-6)), Num(Int(3)), Num(Int(3)), Op('^'), Num(Int(8)), Num(Int(3)), Op('*'), Op('-'), Op('/'), Op('+')], []);
    assert PopToParen([Num(Int(3)), Num(Int(-8)), Num(Int(2)), Num(Int(2)), Op('^'), Num(Int(3)), Num(Int(1)), Op('^'), Op('+'), Num(Int(2)), Op('*'), Num(Int(1)), Op('+'), Op('*'), Op('-'), Num(Int(-6)), Num(Int(3)), Num(Int(3)), Op('^'), Num(Int(8)), Num(Int(3)), Op('*'), Op('-'), Op('/'), Op('+')], []) == ([Num(Int(3)), Num(Int(-8)), Num(Int(2)), Num(Int(2)), Op('^'), Num(Int(3)), Num(Int(1)), Op('^'), Op('+'), Num(Int(2)), Op('*'), Num(Int(1)), Op('+'), Op('*'), Op('-'), Num(Int(-6)), Num(Int(3)), Num(Int(3)), Op('^'), Num(Int(8)), Num(Int(3)), Op('*'), Op('-'), Op('/'), Op('+')], []);
  }

  /** The documented line as a tree:
      `(3 - -8 * ((2^2 + 3^1) * 2 + 1)) + -6 / (3^3 - 8 * 3)`. */
  const SumTree: Expr := Node('+', Node('^', Leaf(Int(2)), Leaf(Int(2))), Node('^', Leaf(Int(3)), Leaf(Int(1))))
  const FactorTree: Expr := Node('+', Node('*', SumTree, Leaf(Int(2))), Leaf(Int(1)))
  const LeftTree: Expr := Node('-', Leaf(Int(3)), Node('*', Leaf(Int(-8)), FactorTree))
  const DivisorTree: Expr := Node('-', Node('^', Leaf(Int(3)), Leaf(Int(3))), Node('*', Leaf(Int(8)), Leaf(Int(3))))
  const RightTree: Expr := Node('/', Leaf(Int(-6)), DivisorTree)
  const DocumentedTree: Expr := Node('+', LeftTree, RightTree)

  lemma DocumentedTreeValue()
    ensures EvalTree(DocumentedTree) == Ok(Float(121.0))
  {
    assert EvalTree(SumTree) == Ok(Int(7));
    assert EvalTree(FactorTree) == Ok(Int(15));
    assert EvalTree(LeftTree) == Ok(Int(123));
    assert EvalTree(DivisorTree) == Ok(Int(3));
    assert EvalTree(RightTree) == Ok(Float(-2.0));
  }

  lemma SumTreePostorder()
    ensures Postorder(SumTree) == [Num(Int(2)), Num(Int(2)), Op('^'), Num(Int(3)), Num(Int(1)), Op('^'), Op('+')]
  {
    assert Postorder(SumTree.left) == [Num(Int(2)), Num(Int(2)), Op('^')];
    assert Postorder(SumTree.right) == [Num(Int(3)), Num(Int(1)), Op('^')];
  }

  lemma FactorTreePostorder()
    ensures Postorder(FactorTree) ==
      [Num(Int(2)), Num(Int(2)), Op('^'), Num(Int(3)), Num(Int(1)), Op('^'), Op('+'), Num(Int(2)), Op('*'), Num(Int(1)), Op('+')]
  {
    SumTreePostorder();
    var product := [Num(Int(2)), Num(Int(2)), Op('^'), Num(Int(3)), Num(Int(1)), Op('^'), Op('+'), Num(Int(2)), Op('*')];
    assert Postorder(FactorTree.left) == product;
  }

  lemma LeftTreePostorder()
    ensures Postorder(LeftTree) ==
      [Num(Int(3)), Num(Int(-8)), Num(Int(2)), Num(Int(2)), Op('^'), Num(Int(3)), Num(Int(1)), Op('^'), Op('+'),
       Num(Int(2)), Op('*'), Num(Int(1)), Op('+'), Op('*'), Op('-')]
  {
    FactorTreePostorder();
    var factor := [Num(Int(2)), Num(Int(2)), Op('^'), Num(Int(3)), Num(Int(1)), Op('^'), Op('+'), Num(Int(2)), Op('*'), Num(Int(1)), Op('+')];
    assert Postorder(LeftTree.right) == [Num(Int(-8))] + factor + [Op('*')];
  }

  lemma RightTreePostorder()
    ensures Postorder(RightTree) ==
      [Num(Int(-6)), Num(Int(3)), Num(Int(3)), Op('^'), Num(Int(8)), Num(Int(3)), Op('*'), Op('-'), Op('/')]
  {
    var divisor := [Num(Int(3)), Num(Int(3)), Op('^'), Num(Int(8)), Num(Int(3)), Op('*'), Op('-')];
    assert Postorder(DivisorTree) == divisor;
  }

  lemma DocumentedTreePostorder()
    ensures Postorder(DocumentedTree) == DocumentedPostfix
  {
    LeftTreePostorder();
    RightTreePostorder();
  }

  /** The evaluator computes the documented tree as the `float` 121.0 and
      returns it as the `int` 121. */
  lemma DocumentedValue()
    ensures Evaluate(DocumentedPostfix) == Ok(Int(121))
  {
    DocumentedTreeValue();
    DocumentedTreePostorder();
    EvaluatePostorder(DocumentedTree);
    assert 121.0.Floor == 121;
  }

  /** The documented example evaluates to 121: signs fold into their
      numbers, `^` binds tighter than `*`, `/` gives the `float` -2.0 and the
      integral `float` sum is printed as the `int` 121. */
  lemma DocumentedExample()
    ensures EvaluateTokens(Documented, map[]) == Ok(Int(121))
  {
    DocumentedTransform();
    DocumentedValue();
  }

  /** The example line itself, as typed after the prompt `>` of the help
      text. */
  const DocumentedLine: string := " - -3-+- 8 *( ( 2^ 2 + 3 ^1)* 2 + 1) + - 6 / (3^3 - 8 *3 )"

  /** The example line, cut into pieces small enough to scan one by one. */
  lemma LinePiece1()
    ensures Singles(" - -3-") == ["-", "-", "3", "-"] && ShortWords(" - -3-")
  {
  }

  lemma LinePiece2()
    ensures Singles("+- 8 ") == ["+", "-", "8"] && ShortWords("+- 8 ")
  {
  }

  lemma LinePiece3()
    ensures Singles("*( ( 2") == ["*", "(", "(", "2"] && ShortWords("*( ( 2")
  {
  }

  lemma LinePiece4()
    ensures Singles("^ 2 ") == ["^", "2"] && ShortWords("^ 2 ")
  {
  }

  lemma LinePiece5()
    ensures Singles("+ 3 ") == ["+", "3"] && ShortWords("+ 3 ")
  {
  }

  lemma LinePiece6()
    ensures Singles("^1)* 2") == ["^", "1", ")", "*", "2"] && ShortWords("^1)* 2")
  {
  }

  lemma LinePiece7()
    ensures Singles(" + 1)") == ["+", "1", ")"] && ShortWords(" + 1)")
  {
  }

  lemma LinePiece8()
    ensures Singles(" + - 6") == ["+", "-", "6"] && ShortWords(" + - 6")
  {
  }

  lemma LinePiece9()
    ensures Singles(" / (3") == ["/", "(", "3"] && ShortWords(" / (3")
  {
  }

  lemma LinePiece10()
    ensures Singles("^3 - 8") == ["^", "3", "-", "8"] && ShortWords("^3 - 8")
  {
  }

  lemma LinePiece11()
    ensures Singles(" *3") == ["*", "3"] && ShortWords(" *3")
  {
  }

  lemma LinePiece12()
    ensures Singles(" )") == [")"] && ShortWords(" )")
  {
  }

  lemma LineCut()
    ensures DocumentedLine == " - -3-" + "+- 8 " + "*( ( 2" + "^ 2 " + "+ 3 " + "^1)* 2" + " + 1)" + " + - 6" + " / (3" + "^3 - 8" + " *3" + " )"
  {
    assert " - -3-" + "+- 8 " == " - -3-+- 8 ";
    assert " - -3-+- 8 " + "*( ( 2" == " - -3-+- 8 *( ( 2";
    assert " - -3-+- 8 *( ( 2" + "^ 2 " == " - -3-+- 8 *( ( 2^ 2 ";
    assert " - -3-+- 8 *( ( 2^ 2 " + "+ 3 " == " - -3-+- 8 *( ( 2^ 2 + 3 ";
    assert " - -3-+- 8 *( ( 2^ 2 + 3 " + "^1)* 2" == " - -3-+- 8 *( ( 2^ 2 + 3 ^1)* 2";
    assert " - -3-+- 8 *( ( 2^ 2 + 3 ^1)* 2" + " + 1)" == " - -3-+- 8 *( ( 2^ 2 + 3 ^1)* 2 + 1)";
    assert " - -3-+- 8 *( ( 2^ 2 + 3 ^1)* 2 + 1)" + " + - 6" == " - -3-+- 8 *( ( 2^ 2 + 3 ^1)* 2 + 1) + - 6";
    assert " - -3-+- 8 *( ( 2^ 2 + 3 ^1)* 2 + 1) + - 6" + " / (3" == " - -3-+- 8 *( ( 2^ 2 + 3 ^1)* 2 + 1) + - 6 / (3";
    assert " - -3-+- 8 *( ( 2^ 2 + 3 ^1)* 2 + 1) + - 6 / (3" + "^3 - 8" == " - -3-+- 8 *( ( 2^ 2 + 3 ^1)* 2 + 1) + - 6 / (3^3 - 8";
    assert " - -3-+- 8 *( ( 2^ 2 + 3 ^1)* 2 + 1) + - 6 / (3^3 - 8" + " *3" == " - -3-+- 8 *( ( 2^ 2 + 3 ^1)* 2 + 1) + - 6 / (3^3 - 8 *3";
    assert " - -3-+- 8 *( ( 2^ 2 + 3 ^1)* 2 + 1) + - 6 / (3^3 - 8 *3" + " )" == " - -3-+- 8 *( ( 2^ 2 + 3 ^1)* 2 + 1) + - 6 / (3^3 - 8 *3 )";
  }

  lemma TokensCut()
    ensures Documented == ["-", "-", "3", "-"] + ["+", "-", "8"] + ["*", "(", "(", "2"] + ["^", "2"] + ["+", "3"] + ["^", "1", ")", "*", "2"] + ["+", "1", ")"] + ["+", "-", "6"] + ["/", "(", "3"] + ["^", "3", "-", "8"] + ["*", "3"] + [")"]
  {
    assert ["-", "-", "3", "-"] + ["+", "-", "8"] == ["-", "-", "3", "-", "+", "-", "8"];
    assert ["-", "-", "3", "-", "+", "-", "8"] + ["*", "(", "(", "2"] == ["-", "-", "3", "-", "+", "-", "8", "*", "(", "(", "2"];
    assert ["-", "-", "3", "-", "+", "-", "8", "*", "(", "(", "2"] + ["^", "2"] == ["-", "-", "3", "-", "+", "-", "8", "*", "(", "(", "2", "^", "2"];
    assert ["-", "-", "3", "-", "+", "-", "8", "*", "(", "(", "2", "^", "2"] + ["+", "3"] == ["-", "-", "3", "-", "+", "-", "8", "*", "(", "(", "2", "^", "2", "+", "3"];
    assert ["-", "-", "3", "-", "+", "-", "8", "*", "(", "(", "2", "^", "2", "+", "3"] + ["^", "1", ")", "*", "2"] == ["-", "-", "3", "-", "+", "-", "8", "*", "(", "(", "2", "^", "2", "+", "3", "^", "1", ")", "*", "2"];
    assert ["-", "-", "3", "-", "+", "-", "8", "*", "(", "(", "2", "^", "2", "+", "3", "^", "1", ")", "*", "2"] + ["+", "1", ")"] == ["-", "-", "3", "-", "+", "-", "8", "*", "(", "(", "2", "^", "2", "+", "3", "^", "1", ")", "*", "2", "+", "1", ")"];
    assert ["-", "-", "3", "-", "+", "-", "8", "*", "(", "(", "2", "^", "2", "+", "3", "^", "1", ")", "*", "2", "+", "1", ")"] + ["+", "-", "6"] == ["-", "-", "3", "-", "+", "-", "8", "*", "(", "(", "2", "^", "2", "+", "3", "^", "1", ")", "*", "2", "+", "1", ")", "+", "-", "6"];
    assert ["-", "-", "3", "-", "+", "-", "8", "*", "(", "(", "2", "^", "2", "+", "3", "^", "1", ")", "*", "2", "+", "1", ")", "+", "-", "6"] + ["/", "(", "3"] == ["-", "-", "3", "-", "+", "-", "8", "*", "(", "(", "2", "^", "2", "+", "3", "^", "1", ")", "*", "2", "+", "1", ")", "+", "-", "6", "/", "(", "3"];
    assert ["-", "-", "3", "-", "+", "-", "8", "*", "(", "(", "2", "^", "2", "+", "3", "^", "1", ")", "*", "2", "+", "1", ")", "+", "-", "6", "/", "(", "3"] + ["^", "3", "-", "8"] == ["-", "-", "3", "-", "+", "-", "8", "*", "(", "(", "2", "^", "2", "+", "3", "^", "1", ")", "*", "2", "+", "1", ")", "+", "-", "6", "/", "(", "3", "^", "3", "-", "8"];
    assert ["-", "-", "3", "-", "+", "-", "8", "*", "(", "(", "2", "^", "2", "+", "3", "^", "1", ")", "*", "2", "+", "1", ")", "+", "-", "6", "/", "(", "3", "^", "3", "-", "8"] + ["*", "3"] == ["-", "-", "3", "-", "+", "-", "8", "*", "(", "(", "2", "^", "2", "+", "3", "^", "1", ")", "*", "2", "+", "1", ")", "+", "-", "6", "/", "(", "3", "^", "3", "-", "8", "*", "3"];
    assert ["-", "-", "3", "-", "+", "-", "8", "*", "(", "(", "2", "^", "2", "+", "3", "^", "1", ")", "*", "2", "+", "1", ")", "+", "-", "6", "/", "(", "3", "^", "3", "-", "8", "*", "3"] + [")"] == ["-", "-", "3", "-", "+", "-", "8", "*", "(", "(", "2", "^", "2", "+", "3", "^", "1", ")", "*", "2", "+", "1", ")", "+", "-", "6", "/", "(", "3", "^", "3", "-", "8", "*", "3", ")"];
  }

  /** The tokenizer cuts the example line into the documented tokens: its
      words are single characters, so every character other than
      whitespace is a token. */
  lemma DocumentedTokens(line: string)
    requires line == DocumentedLine
    ensures Tokenize(line) == Documented
  {
    var p1, p2, p3, p4, p5, p6, p7, p8, p9, p10, p11, p12 :=
      " - -3-", "+- 8 ", "*( ( 2", "^ 2 ", "+ 3 ", "^1)* 2", " + 1)", " + - 6", " / (3", "^3 - 8", " *3", " )";
    LinePiece1(); LinePiece2(); LinePiece3(); LinePiece4(); LinePiece5(); LinePiece6(); LinePiece7(); LinePiece8(); LinePiece9(); LinePiece10(); LinePiece11(); LinePiece12();
    var acc := p1;
    ShortWordsAppend(acc, p2); SinglesAppend(acc, p2); acc := acc + p2;
    ShortWordsAppend(acc, p3); SinglesAppend(acc, p3); acc := acc + p3;
    ShortWordsAppend(acc, p4); SinglesAppend(acc, p4); acc := acc + p4;
    ShortWordsAppend(acc, p5); SinglesAppend(acc, p5); acc := acc + p5;
    ShortWordsAppend(acc, p6); SinglesAppend(acc, p6); acc := acc + p6;
    ShortWordsAppend(acc, p7); SinglesAppend(acc, p7); acc := acc + p7;
    ShortWordsAppend(acc, p8); SinglesAppend(acc, p8); acc := acc + p8;
    ShortWordsAppend(acc, p9); SinglesAppend(acc, p9); acc := acc + p9;
    ShortWordsAppend(acc, p10); SinglesAppend(acc, p10); acc := acc + p10;
    ShortWordsAppend(acc, p11); SinglesAppend(acc, p11); acc := acc + p11;
    ShortWordsAppend(acc, p12); SinglesAppend(acc, p12); acc := acc + p12;
    LineCut();
    TokensCut();
    LexSingles(line);
    TokenizeIsLex(line);
  }

  /** Typing the example line prints 121. */
  lemma DocumentedLineReply(line: string)
    requires line == DocumentedLine
    ensures ExpressionReply(line, map[]) == Printed(Int(121))
  {
    DocumentedTokens(line);
    DocumentedExample();
  }
}
