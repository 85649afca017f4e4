/** The infix-to-postfix transformer `transform_infix_to_postfix`, as a
    specification, with the invariants of its state and the properties of
    its output.

    The transformer reads the tokens one by one, keeping an operator stack
    (binary operators and `(`), a stack of pending prefix signs and the flag
    `next_operator_is_binary`.  `Step` is one turn of its loop, `Run` the
    state after a list of tokens, `Drain` the loop that empties the operator
    stack at the end, and `Transform` the whole function. */
module Shunting {
  import opened Values
  import opened Postfix

  // ---------------------------------------------------------------------
  // Token classes
  // ---------------------------------------------------------------------

  /** A character of `string.digits`. */
  predicate IsDigit(c: char) {
    '0' <= c <= '9'
  }

  /** A character of `string.ascii_letters`. */
  predicate IsLetter(c: char) {
    ('a' <= c <= 'z') || ('A' <= c <= 'Z')
  }

  /** `set(token).issubset(digits)`; true of the empty token as well. */
  predicate AllDigits(t: string) {
    forall i | 0 <= i < |t| :: IsDigit(t[i])
  }

  /** `set(token).issubset(ascii_letters)`; true of the empty token as well. */
  predicate AllLetters(t: string) {
    forall i | 0 <= i < |t| :: IsLetter(t[i])
  }

  predicate HasLetter(t: string) {
    exists i | 0 <= i < |t| :: IsLetter(t[i])
  }

  predicate HasDigit(t: string) {
    exists i | 0 <= i < |t| :: IsDigit(t[i])
  }

  /** `token in binary_operators` */
  predicate IsBinaryToken(t: string) {
    |t| == 1 && IsBinaryOp(t[0])
  }

  /** `token in unary_operators` */
  predicate IsUnaryToken(t: string) {
    |t| == 1 && IsUnaryOp(t[0])
  }

  /** A token after which the next operator is binary: a number, a name or `)`. */
  predicate CompletesOperand(t: string) {
    AllDigits(t) || AllLetters(t) || t == ")"
  }

  /** `int(token)` for a token of decimal digits. */
  function DecimalValue(t: string): nat
    requires AllDigits(t)
    decreases |t|
  {
    if t == [] then 0 else DecimalValue(t[..|t| - 1]) * 10 + (t[|t| - 1] as int - '0' as int)
  }

  // ---------------------------------------------------------------------
  // The transformer
  // ---------------------------------------------------------------------

  /** The transformer's state: the postfix output, the operator stack, the
      pending prefix signs and `next_operator_is_binary`. */
  datatype Shunt = Shunt(out: seq<Item>, ops: seq<char>, unary: seq<char>, binary: bool)

  const Start: Shunt := Shunt([], [], [], false)

  function Top(ops: seq<char>): char
    requires ops != []
  {
    ops[|ops| - 1]
  }

  /** The loop before pushing a binary operator `c`: move operators to the
      output while the top is not `(` and its precedence is at least `c`'s. */
  function PopNotLower(out: seq<Item>, ops: seq<char>, c: char): (seq<Item>, seq<char>)
    decreases |ops|
  {
    if ops != [] && Top(ops) != '(' && Precedence(c) <= Precedence(Top(ops)) then
      PopNotLower(out + [Op(Top(ops))], ops[..|ops| - 1], c)
    else (out, ops)
  }

  /** The loop of `)` and of the final drain: move operators to the output
      until the top is `(` or the stack is empty. */
  function PopToParen(out: seq<Item>, ops: seq<char>): (seq<Item>, seq<char>)
    decreases |ops|
  {
    if ops != [] && Top(ops) != '(' then PopToParen(out + [Op(Top(ops))], ops[..|ops| - 1])
    else (out, ops)
  }

  /** One turn of the loop over the tokens; the branches are tried in the
      order of the source. */
  function Step(st: Shunt, t: string, vars: map<string, Value>): Result<Shunt> {
    if st.binary && IsBinaryToken(t) then
      var (out, ops) := PopNotLower(st.out, st.ops, t[0]);
      Ok(Shunt(out, ops + [t[0]], st.unary, false))
    else if IsUnaryToken(t) && !st.binary then
      Ok(st.(unary := st.unary + [t[0]]))
    else if AllDigits(t) && !st.binary then
      if t == [] then Err(EmptyNumeral)
      else Ok(Shunt(st.out + [Num(FoldUnary(st.unary, Int(DecimalValue(t))))], st.ops, [], true))
    else if AllLetters(t) && !st.binary then
      if t !in vars then Err(UnknownVariable)
      else Ok(Shunt(st.out + [Num(FoldUnary(st.unary, vars[t]))], st.ops, [], true))
    else if t == "(" && !st.binary then
      if st.unary != [] then Err(InvalidExpression) else Ok(st.(ops := st.ops + ['(']))
    else if t == ")" && st.binary then
      var (out, ops) := PopToParen(st.out, st.ops);
      if ops == [] then Err(InvalidExpression) else Ok(st.(out := out, ops := ops[..|ops| - 1]))
    else if HasLetter(t) && HasDigit(t) then Err(InvalidIdentifier)
    else Err(InvalidExpression)
  }

  /** The state after the loop has read `tokens`. */
  function Run(tokens: seq<string>, vars: map<string, Value>): Result<Shunt>
    decreases |tokens|
  {
    if tokens == [] then Ok(Start)
    else
      var st :- Run(tokens[..|tokens| - 1], vars);
      Step(st, tokens[|tokens| - 1], vars)
  }

  /** The loop after the tokens: pop every operator; a `(` left is unmatched.
      The pending signs are not looked at. */
  function Drain(st: Shunt): Result<seq<Item>> {
    var (out, ops) := PopToParen(st.out, st.ops);
    if ops != [] then Err(InvalidExpression) else Ok(out)
  }

  /** `transform_infix_to_postfix` */
  function Transform(tokens: seq<string>, vars: map<string, Value>): Result<seq<Item>> {
    var st :- Run(tokens, vars);
    Drain(st)
  }

  // ---------------------------------------------------------------------
  // The state invariant
  // ---------------------------------------------------------------------

  /** The number of binary operators on the operator stack. */
  function Pending(ops: seq<char>): nat
    decreases |ops|
  {
    if ops == [] then 0 else Pending(ops[..|ops| - 1]) + (if Top(ops) == '(' then 0 else 1)
  }

  /** The number of `(` on the operator stack. */
  function Opens(ops: seq<char>): nat
    decreases |ops|
  {
    if ops == [] then 0 else Opens(ops[..|ops| - 1]) + (if Top(ops) == '(' then 1 else 0)
  }

  /** The operator stack holds only `(` and binary operators. */
  predicate OpsWellFormed(ops: seq<char>) {
    forall i | 0 <= i < |ops| :: ops[i] == '(' || IsBinaryOp(ops[i])
  }

  /** Between two parentheses the operators on the stack have strictly
      increasing precedence from bottom to top. */
  predicate Ascending(ops: seq<char>) {
    forall i | 0 < i < |ops| :: ops[i - 1] != '(' && ops[i] != '(' ==> Precedence(ops[i - 1]) < Precedence(ops[i])
  }

  /** What holds of the state between two tokens: the stack shapes above;
      the pending signs are `-` or `+` and are empty after an operand; the
      output reads as a sequence of trees, one for each binary operator still
      on the stack plus one for the operand just completed, if any (so the
      evaluator's stack height is operands pushed minus operators applied). */
  predicate Valid(st: Shunt) {
    && OpsWellFormed(st.ops)
    && Ascending(st.ops)
    && (forall i | 0 <= i < |st.unary| :: IsUnaryOp(st.unary[i]))
    && (st.binary ==> st.unary == [])
    && Trees(st.out).Some?
    && |Trees(st.out).value| == Pending(st.ops) + (if st.binary then 1 else 0)
  }

  lemma PrefixKeepsShape(ops: seq<char>, n: nat)
    requires n <= |ops|
    ensures OpsWellFormed(ops) ==> OpsWellFormed(ops[..n])
    ensures Ascending(ops) ==> Ascending(ops[..n])
  {
  }

  /** Popping operators before a binary operator `c`: the output keeps one
      tree more than the operators left, and what stays on top is `(` or an
      operator of lower precedence than `c`. */
  lemma {:induction false} PopNotLowerKeeps(out: seq<Item>, ops: seq<char>, c: char)
    requires OpsWellFormed(ops) && Ascending(ops)
    requires Trees(out).Some? && |Trees(out).value| == Pending(ops) + 1
    ensures var (out', ops') := PopNotLower(out, ops, c);
      && |ops'| <= |ops| && ops' == ops[..|ops'|]
      && Trees(out').Some? && |Trees(out').value| == Pending(ops') + 1
      && (ops' == [] || Top(ops') == '(' || Precedence(Top(ops')) < Precedence(c))
    decreases |ops|
  {
    if ops != [] && Top(ops) != '(' && Precedence(c) <= Precedence(Top(ops)) {
      var init := ops[..|ops| - 1];
      PrefixKeepsShape(ops, |ops| - 1);
      PopNotLowerKeeps(out + [Op(Top(ops))], init, c);
      var (out', ops') := PopNotLower(out, ops, c);
      assert ops' == init[..|ops'|];
    }
  }

  /** Popping to the nearest `(`, with one tree more than operators. */
  lemma {:induction false} PopToParenKeeps(out: seq<Item>, ops: seq<char>)
    requires OpsWellFormed(ops) && Ascending(ops)
    requires Trees(out).Some? && |Trees(out).value| == Pending(ops) + 1
    ensures var (out', ops') := PopToParen(out, ops);
      && |ops'| <= |ops| && ops' == ops[..|ops'|]
      && Trees(out').Some? && |Trees(out').value| == Pending(ops') + 1
      && (ops' == [] || Top(ops') == '(')
      && |out| <= |out'| && out'[..|out|] == out
      && (forall k | |out| <= k < |out'| :: out'[k].Op? && IsBinaryOp(out'[k].c))
    decreases |ops|
  {
    if ops != [] && Top(ops) != '(' {
      var init := ops[..|ops| - 1];
      PrefixKeepsShape(ops, |ops| - 1);
      var top := Op(Top(ops));
      PopToParenKeeps(out + [top], init);
      var (out', ops') := PopToParen(out, ops);
      assert ops' == init[..|ops'|];
      assert out'[..|out| + 1] == out + [top];
      assert top.Op? && IsBinaryOp(top.c) by {
        assert ops[|ops| - 1] == Top(ops);
      }
      forall k | |out| <= k < |out'|
        ensures out'[k].Op? && IsBinaryOp(out'[k].c)
      {
        if k == |out| {
          assert out'[k] == (out + [top])[k];
        }
      }
    }
  }

  /** Popping to the nearest `(` when no operand has been completed: the
      output either stops reading as trees (an operator finds one operand
      only) or keeps exactly as many trees as operators. */
  lemma {:induction false} PopToParenShort(out: seq<Item>, ops: seq<char>)
    requires OpsWellFormed(ops)
    requires Trees(out).None? || |Trees(out).value| == Pending(ops)
    ensures var (out', ops') := PopToParen(out, ops);
      && (ops' == [] || Top(ops') == '(')
      && (Trees(out').None? || |Trees(out').value| == Pending(ops'))
      && |out| <= |out'| && out'[..|out|] == out
      && (forall k | |out| <= k < |out'| :: out'[k].Op? && IsBinaryOp(out'[k].c))
    decreases |ops|
  {
    if ops != [] && Top(ops) != '(' {
      PrefixKeepsShape(ops, |ops| - 1);
      PopToParenShort(out + [Op(Top(ops))], ops[..|ops| - 1]);
      var (out', ops') := PopToParen(out, ops);
      assert out'[..|out| + 1] == out + [Op(Top(ops))];
    }
  }

  /** Pushing an operator above `(` or above one of lower precedence keeps
      the stack ascending. */
  lemma AscendingPush(ops: seq<char>, c: char)
    requires Ascending(ops) && c != '('
    requires ops == [] || Top(ops) == '(' || Precedence(Top(ops)) < Precedence(c)
    ensures Ascending(ops + [c])
  {
    var ops' := ops + [c];
    forall i | 0 < i < |ops'| && ops'[i - 1] != '(' && ops'[i] != '('
      ensures Precedence(ops'[i - 1]) < Precedence(ops'[i])
    {
      if i == |ops| {
        assert ops'[i - 1] == Top(ops);
      } else {
        assert ops'[i - 1] == ops[i - 1] && ops'[i] == ops[i];
      }
    }
  }

  /** What the popping loop before a binary operator leaves, in the terms
      of the invariant. */
  lemma PopNotLowerShape(out: seq<Item>, ops: seq<char>, c: char)
    requires OpsWellFormed(ops) && Ascending(ops)
    requires Trees(out).Some? && |Trees(out).value| == Pending(ops) + 1
    ensures var (out', ops') := PopNotLower(out, ops, c);
      && OpsWellFormed(ops') && Ascending(ops')
      && Trees(out').Some? && |Trees(out').value| == Pending(ops') + 1
      && (ops' == [] || Top(ops') == '(' || Precedence(Top(ops')) < Precedence(c))
  {
    PopNotLowerKeeps(out, ops, c);
    PrefixKeepsShape(ops, |PopNotLower(out, ops, c).1|);
  }

  /** Pushing a binary operator on the operator stack. */
  lemma PushBinaryShape(ops: seq<char>, c: char)
    requires OpsWellFormed(ops) && IsBinaryOp(c)
    ensures OpsWellFormed(ops + [c]) && Pending(ops + [c]) == Pending(ops) + 1
  {
    assert (ops + [c])[..|ops|] == ops;
  }

  /** Pushing a binary operator keeps the invariant. */
  lemma BinaryStepKeepsValid(st: Shunt, c: char)
    requires Valid(st) && st.binary && IsBinaryOp(c)
    ensures var (out, ops) := PopNotLower(st.out, st.ops, c);
      Valid(Shunt(out, ops + [c], st.unary, false))
  {
    PopNotLowerShape(st.out, st.ops, c);
    var (out, ops) := PopNotLower(st.out, st.ops, c);
    AscendingPush(ops, c);
    PushBinaryShape(ops, c);
  }

  /** Closing a parenthesis keeps the invariant. */
  lemma CloseStepKeepsValid(st: Shunt)
    requires Valid(st) && st.binary
    requires PopToParen(st.out, st.ops).1 != []
    ensures var (out, ops) := PopToParen(st.out, st.ops);
      Valid(st.(out := out, ops := ops[..|ops| - 1]))
  {
    PopToParenKeeps(st.out, st.ops);
    var (out, ops) := PopToParen(st.out, st.ops);
    PrefixKeepsShape(st.ops, |ops|);
    PrefixKeepsShape(ops, |ops| - 1);
  }

  lemma {:induction false} PopNotLowerExtends(out: seq<Item>, ops: seq<char>, c: char)
    ensures |out| <= |PopNotLower(out, ops, c).0| && PopNotLower(out, ops, c).0[..|out|] == out
    decreases |ops|
  {
    if ops != [] && Top(ops) != '(' && Precedence(c) <= Precedence(Top(ops)) {
      var out1 := out + [Op(Top(ops))];
      PopNotLowerExtends(out1, ops[..|ops| - 1], c);
      assert out1[..|out|] == out;
    }
  }

  lemma {:induction false} PopToParenExtends(out: seq<Item>, ops: seq<char>)
    ensures |out| <= |PopToParen(out, ops).0| && PopToParen(out, ops).0[..|out|] == out
    decreases |ops|
  {
    if ops != [] && Top(ops) != '(' {
      var out1 := out + [Op(Top(ops))];
      PopToParenExtends(out1, ops[..|ops| - 1]);
      assert out1[..|out|] == out;
    }
  }

  /** The output is only ever appended to. */
  lemma {:induction false} RunExtends(tokens: seq<string>, j: nat, vars: map<string, Value>)
    requires j <= |tokens| && Run(tokens, vars).Ok?
    ensures Run(tokens[..j], vars).Ok?
    ensures var out := Run(tokens[..j], vars).value.out;
      |out| <= |Run(tokens, vars).value.out| && Run(tokens, vars).value.out[..|out|] == out
    decreases |tokens|
  {
    RunPrefixOk(tokens, j, vars);
    if j < |tokens| {
      var init := tokens[..|tokens| - 1];
      assert init[..j] == tokens[..j];
      RunExtends(init, j, vars);
      var st := Run(init, vars).value;
      PopNotLowerExtends(st.out, st.ops, tokens[|tokens| - 1][0]);
      PopToParenExtends(st.out, st.ops);
      var out := Run(tokens[..j], vars).value.out;
      var out' := Run(tokens, vars).value.out;
      assert out'[..|st.out|][..|out|] == out;
    } else {
      assert tokens[..j] == tokens;
    }
  }

  /** The final output extends the output of every prefix of the line. */
  lemma TransformExtends(tokens: seq<string>, j: nat, vars: map<string, Value>)
    requires j <= |tokens| && Transform(tokens, vars).Ok?
    ensures Run(tokens[..j], vars).Ok?
    ensures var out := Run(tokens[..j], vars).value.out;
      |out| <= |Transform(tokens, vars).value| && Transform(tokens, vars).value[..|out|] == out
  {
    RunExtends(tokens, j, vars);
    var st := Run(tokens, vars).value;
    PopToParenExtends(st.out, st.ops);
    var out := Run(tokens[..j], vars).value.out;
    var p := Transform(tokens, vars).value;
    assert p[..|st.out|][..|out|] == out;
  }

  /** The prefix one token longer. */
  lemma PrefixSnoc(tokens: seq<string>, i: nat)
    requires i < |tokens|
    ensures tokens[..i + 1] == tokens[..i] + [tokens[i]]
  {
  }

  /** A known name where an operand may start puts its value, signed, into
      the final output. */
  lemma NameReachesOutput(tokens: seq<string>, i: nat, vars: map<string, Value>) returns (k: nat)
    requires i < |tokens| && Transform(tokens, vars).Ok?
    requires tokens[i] != "" && AllLetters(tokens[i]) && tokens[i] in vars
    requires !AfterOperand(tokens, i)
    ensures var p := Transform(tokens, vars).value;
      var v := vars[tokens[i]];
      k < |p| && (p[k] == Num(v) || p[k] == Num(Negate(v)))
  {
    TransformExtends(tokens, i + 1, vars);
    RunPrefixOk(tokens, i, vars);
    RunFlag(tokens[..i], vars);
    assert AfterOperand(tokens[..i], i) <==> AfterOperand(tokens, i);
    var t := tokens[i];
    assert IsLetter(t[0]);
    assert OperandValue(t, vars) == vars[t];
    PrefixSnoc(tokens, i);
    OperandStep(tokens[..i], t, vars);
    var st := Run(tokens[..i], vars).value;
    var out := Run(tokens[..i + 1], vars).value.out;
    assert out == st.out + [out[|out| - 1]];
    k := |out| - 1;
    var p := Transform(tokens, vars).value;
    assert p[k] == p[..|out|][k];
  }

  /** A prefix sign waits on its own stack. */
  lemma SignStepKeepsValid(st: Shunt, c: char)
    requires Valid(st) && !st.binary && IsUnaryOp(c)
    ensures Valid(st.(unary := st.unary + [c]))
  {
  }

  /** An operand completes one more tree and clears the signs. */
  lemma OperandStepKeepsValid(st: Shunt, v: Value)
    requires Valid(st) && !st.binary
    ensures Valid(Shunt(st.out + [Num(v)], st.ops, [], true))
  {
  }

  /** A `(` adds no binary operator to the stack. */
  lemma OpenStepKeepsValid(st: Shunt)
    requires Valid(st) && !st.binary
    ensures Valid(st.(ops := st.ops + ['(']))
  {
    assert (st.ops + ['('])[..|st.ops|] == st.ops;
  }

  /** Every step the loop takes keeps the invariant. */
  lemma StepKeepsValid(st: Shunt, t: string, vars: map<string, Value>)
    requires Valid(st) && Step(st, t, vars).Ok?
    ensures Valid(Step(st, t, vars).value)
  {
    if st.binary && IsBinaryToken(t) {
      BinaryStepKeepsValid(st, t[0]);
    } else if IsUnaryToken(t) && !st.binary {
      SignStepKeepsValid(st, t[0]);
    } else if AllDigits(t) && !st.binary {
      if t != [] {
        OperandStepKeepsValid(st, FoldUnary(st.unary, Int(DecimalValue(t))));
      }
    } else if AllLetters(t) && !st.binary {
      if t in vars {
        OperandStepKeepsValid(st, FoldUnary(st.unary, vars[t]));
      }
    } else if t == "(" && !st.binary {
      OpenStepKeepsValid(st);
    } else {
      CloseStepKeepsValid(st);
    }
  }

  /** Every state the loop reaches satisfies the invariant. */
  lemma {:induction false} RunValid(tokens: seq<string>, vars: map<string, Value>)
    requires Run(tokens, vars).Ok?
    ensures Valid(Run(tokens, vars).value)
    decreases |tokens|
  {
    if tokens != [] {
      RunValid(tokens[..|tokens| - 1], vars);
      StepKeepsValid(Run(tokens[..|tokens| - 1], vars).value, tokens[|tokens| - 1], vars);
    }
  }

  // ---------------------------------------------------------------------
  // Stopping at the first error
  // ---------------------------------------------------------------------

  /** Once a token fails, the loop has returned: later tokens change nothing. */
  lemma {:induction false} RunErrSticks(a: seq<string>, b: seq<string>, vars: map<string, Value>)
    requires Run(a, vars).Err?
    ensures Run(a + b, vars) == Run(a, vars)
    decreases |b|
  {
    if b == [] {
      assert a + b == a;
    } else {
      assert (a + b)[..|a + b| - 1] == a + b[..|b| - 1];
      RunErrSticks(a, b[..|b| - 1], vars);
    }
  }

  /** A line the loop reads to the end was read without error up to every point. */
  lemma {:induction false} RunPrefixOk(tokens: seq<string>, i: nat, vars: map<string, Value>)
    requires i <= |tokens| && Run(tokens, vars).Ok?
    ensures Run(tokens[..i], vars).Ok?
    decreases |tokens|
  {
    if i < |tokens| {
      var init := tokens[..|tokens| - 1];
      assert init[..i] == tokens[..i];
      RunPrefixOk(init, i, vars);
    } else {
      assert tokens[..i] == tokens;
    }
  }

  /** The error of the first token that fails is the transformer's error. */
  lemma TransformStopsAt(tokens: seq<string>, i: nat, vars: map<string, Value>, e: Error)
    requires i < |tokens| && Run(tokens[..i], vars).Ok?
    requires Step(Run(tokens[..i], vars).value, tokens[i], vars) == Err(e)
    ensures Run(tokens, vars) == Err(e) && Transform(tokens, vars) == Err(e)
  {
    assert tokens[..i + 1][..i] == tokens[..i];
    RunErrSticks(tokens[..i + 1], tokens[i + 1..], vars);
    assert tokens[..i + 1] + tokens[i + 1..] == tokens;
  }

  // ---------------------------------------------------------------------
  // Which token may come where
  // ---------------------------------------------------------------------

  /** A token that may begin an operand: a sign, a number, a name or `(`. */
  predicate StartsOperand(t: string) {
    IsUnaryToken(t) || (AllDigits(t) && t != "") || AllLetters(t) || t == "("
  }

  /** The token before position `i` completed an operand. */
  predicate AfterOperand(tokens: seq<string>, i: int) {
    0 < i <= |tokens| && CompletesOperand(tokens[i - 1])
  }

  /** What a step accepts depends only on the flag, and the flag after the
      step says whether the token completed an operand. */
  lemma StepAccepts(st: Shunt, t: string, vars: map<string, Value>)
    requires Step(st, t, vars).Ok?
    ensures st.binary ==> IsBinaryToken(t) || t == ")"
    ensures !st.binary ==> StartsOperand(t)
    ensures Step(st, t, vars).value.binary <==> CompletesOperand(t)
  {
  }

  /** `next_operator_is_binary` is true exactly after a number, a name or `)`. */
  lemma RunFlag(tokens: seq<string>, vars: map<string, Value>)
    requires Run(tokens, vars).Ok?
    ensures Run(tokens, vars).value.binary <==> AfterOperand(tokens, |tokens|)
  {
    if tokens != [] {
      StepAccepts(Run(tokens[..|tokens| - 1], vars).value, tokens[|tokens| - 1], vars);
    }
  }

  /** In a line the transformer accepts, operands and binary operators
      alternate: after a number, a name or `)` comes a binary operator or
      `)`; anywhere else comes a sign, a number, a name or `(`. */
  lemma TransformAlternates(tokens: seq<string>, vars: map<string, Value>)
    requires Transform(tokens, vars).Ok?
    ensures forall i | 0 <= i < |tokens| ::
      if AfterOperand(tokens, i) then IsBinaryToken(tokens[i]) || tokens[i] == ")"
      else StartsOperand(tokens[i])
  {
    forall i | 0 <= i < |tokens|
      ensures if AfterOperand(tokens, i) then IsBinaryToken(tokens[i]) || tokens[i] == ")"
              else StartsOperand(tokens[i])
    {
      RunPrefixOk(tokens, i + 1, vars);
      var pre := tokens[..i + 1];
      assert pre[..i] == tokens[..i];
      RunFlag(tokens[..i], vars);
      assert AfterOperand(tokens[..i], i) <==> AfterOperand(tokens, i);
      StepAccepts(Run(tokens[..i], vars).value, tokens[i], vars);
    }
  }

  // ---------------------------------------------------------------------
  // Parentheses
  // ---------------------------------------------------------------------

  /** Open parentheses minus closed ones. */
  function Depth(tokens: seq<string>): int
    decreases |tokens|
  {
    if tokens == [] then 0
    else
      var t := tokens[|tokens| - 1];
      Depth(tokens[..|tokens| - 1]) + (if t == "(" then 1 else if t == ")" then -1 else 0)
  }

  lemma {:induction false} PopNotLowerOpens(out: seq<Item>, ops: seq<char>, c: char)
    ensures Opens(PopNotLower(out, ops, c).1) == Opens(ops)
    decreases |ops|
  {
    if ops != [] && Top(ops) != '(' && Precedence(c) <= Precedence(Top(ops)) {
      PopNotLowerOpens(out + [Op(Top(ops))], ops[..|ops| - 1], c);
    }
  }

  lemma {:induction false} PopToParenOpens(out: seq<Item>, ops: seq<char>)
    ensures Opens(PopToParen(out, ops).1) == Opens(ops)
    ensures PopToParen(out, ops).1 == [] || Top(PopToParen(out, ops).1) == '('
    decreases |ops|
  {
    if ops != [] && Top(ops) != '(' {
      PopToParenOpens(out + [Op(Top(ops))], ops[..|ops| - 1]);
    }
  }

  /** The operator stack after a step on `(`. */
  lemma StepOpenParen(st: Shunt, vars: map<string, Value>)
    requires Step(st, "(", vars).Ok?
    ensures Step(st, "(", vars).value.ops == st.ops + ['(']
  {
    assert !IsUnaryToken("(") && !AllDigits("(") && !AllLetters("(");
  }

  /** The operator stack after a step on `)`: popped to its `(`, which is
      dropped. */
  lemma StepCloseParen(st: Shunt, vars: map<string, Value>)
    requires Step(st, ")", vars).Ok?
    ensures var ops := PopToParen(st.out, st.ops).1;
      ops != [] && Step(st, ")", vars).value.ops == ops[..|ops| - 1]
  {
    assert !IsUnaryToken(")") && !AllDigits(")") && !AllLetters(")");
  }

  /** The operator stack after a step on any other token: a binary operator
      is pushed after the popping loop; otherwise the stack is unchanged. */
  lemma StepOtherToken(st: Shunt, t: string, vars: map<string, Value>)
    requires t != "(" && t != ")" && Step(st, t, vars).Ok?
    ensures Step(st, t, vars).value.ops ==
            if st.binary && IsBinaryToken(t) then PopNotLower(st.out, st.ops, t[0]).1 + [t[0]] else st.ops
  {
  }

  /** One step changes the number of open parentheses by what the token
      opens or closes. */
  lemma StepOpens(st: Shunt, t: string, vars: map<string, Value>)
    requires Step(st, t, vars).Ok?
    ensures Opens(Step(st, t, vars).value.ops) ==
            Opens(st.ops) + (if t == "(" then 1 else if t == ")" then -1 else 0)
  {
    var ops' := Step(st, t, vars).value.ops;
    if t == "(" {
      StepOpenParen(st, vars);
      assert ops'[..|st.ops|] == st.ops;
    } else if t == ")" {
      StepCloseParen(st, vars);
      PopToParenOpens(st.out, st.ops);
      var ops := PopToParen(st.out, st.ops).1;
      assert ops[..|ops| - 1] == ops';
    } else {
      StepOtherToken(st, t, vars);
      if st.binary && IsBinaryToken(t) {
        PopNotLowerOpens(st.out, st.ops, t[0]);
        var ops := PopNotLower(st.out, st.ops, t[0]).1;
        assert ops'[..|ops|] == ops;
      }
    }
  }

  /** The `(` on the operator stack are the parentheses still open. */
  lemma {:induction false} RunOpens(tokens: seq<string>, vars: map<string, Value>)
    requires Run(tokens, vars).Ok?
    ensures Opens(Run(tokens, vars).value.ops) == Depth(tokens)
    decreases |tokens|
  {
    if tokens != [] {
      var init := tokens[..|tokens| - 1];
      RunOpens(init, vars);
      StepOpens(Run(init, vars).value, tokens[|tokens| - 1], vars);
    }
  }

  /** The transformer accepts only balanced parentheses: no prefix closes
      more than it opened, and the whole line closes all it opened. */
  lemma TransformBalanced(tokens: seq<string>, vars: map<string, Value>)
    requires Transform(tokens, vars).Ok?
    ensures forall i | 0 <= i <= |tokens| :: Depth(tokens[..i]) >= 0
    ensures Depth(tokens) == 0
  {
    forall i | 0 <= i <= |tokens|
      ensures Depth(tokens[..i]) >= 0
    {
      RunPrefixOk(tokens, i, vars);
      RunOpens(tokens[..i], vars);
    }
    RunOpens(tokens, vars);
    var st := Run(tokens, vars).value;
    PopToParenOpens(st.out, st.ops);
  }

  // ---------------------------------------------------------------------
  // The shape of the output
  // ---------------------------------------------------------------------

  /** The list holds numbers and binary operators only: no parenthesis and
      no sign. */
  predicate OnlyBinaryOps(p: seq<Item>) {
    forall k | 0 <= k < |p| :: p[k].Op? ==> IsBinaryOp(p[k].c)
  }

  lemma {:induction false} TreesOnlyBinaryOps(p: seq<Item>)
    requires Trees(p).Some?
    ensures OnlyBinaryOps(p)
    decreases |p|
  {
    if p != [] {
      TreesOnlyBinaryOps(p[..|p| - 1]);
      assert forall k | 0 <= k < |p| - 1 :: p[k] == p[..|p| - 1][k];
    }
  }

  /** A line that ends with an operand gives the postfix form of one tree;
      any other accepted line gives an empty list or one in which some
      operator lacks an operand (`3 +`, `-`, the empty line).  Either way
      the list holds numbers and binary operators only. */
  lemma TransformShape(tokens: seq<string>, vars: map<string, Value>)
    requires Transform(tokens, vars).Ok?
    ensures var p := Transform(tokens, vars).value;
      && OnlyBinaryOps(p)
      && if AfterOperand(tokens, |tokens|) then Trees(p).Some? && |Trees(p).value| == 1
         else p == [] || Trees(p).None?
  {
    RunValid(tokens, vars);
    RunFlag(tokens, vars);
    var st := Run(tokens, vars).value;
    var p := Transform(tokens, vars).value;
    if st.binary {
      PopToParenKeeps(st.out, st.ops);
      TreesOnlyBinaryOps(p);
    } else {
      PopToParenShort(st.out, st.ops);
      TreesOnlyBinaryOps(st.out);
      assert forall k | 0 <= k < |st.out| :: p[k] == st.out[k];
      if Trees(p).Some? {
        EvaluateTrees(p);
      }
    }
  }

  // ---------------------------------------------------------------------
  // Prefix signs
  // ---------------------------------------------------------------------

  predicate AllSigns(ts: seq<string>) {
    forall i | 0 <= i < |ts| :: IsUnaryToken(ts[i])
  }

  /** The characters of a run of sign tokens. */
  function SignsOf(ts: seq<string>): seq<char>
    requires AllSigns(ts)
    decreases |ts|
  {
    if ts == [] then [] else SignsOf(ts[..|ts| - 1]) + [ts[|ts| - 1][0]]
  }

  /** Where an operand may start, sign tokens are only pushed on the stack
      of pending signs. */
  lemma {:induction false} RunSigns(pre: seq<string>, signs: seq<string>, vars: map<string, Value>)
    requires Run(pre, vars).Ok? && !Run(pre, vars).value.binary && AllSigns(signs)
    ensures var st := Run(pre, vars).value;
      Run(pre + signs, vars) == Ok(st.(unary := st.unary + SignsOf(signs)))
    decreases |signs|
  {
    if signs == [] {
      assert pre + signs == pre;
      assert Run(pre, vars).value.unary + [] == Run(pre, vars).value.unary;
    } else {
      var init := signs[..|signs| - 1];
      assert (pre + signs)[..|pre + signs| - 1] == pre + init;
      RunSigns(pre, init, vars);
      var st := Run(pre, vars).value;
      var c := signs[|signs| - 1][0];
      assert SignsOf(signs) == SignsOf(init) + [c];
      assert st.unary + SignsOf(init) + [c] == st.unary + SignsOf(signs);
    }
  }

  /** The value a number or a stored name stands for. */
  function OperandValue(t: string, vars: map<string, Value>): Value
    requires t != "" && (AllDigits(t) || (AllLetters(t) && t in vars))
  {
    if AllDigits(t) then Int(DecimalValue(t)) else vars[t]
  }

  /** A number or a known name where an operand may start goes to the output
      negated once per pending `-`, of its own Python type, and the stack of
      pending signs is emptied. */
  lemma OperandStep(pre: seq<string>, t: string, vars: map<string, Value>)
    requires t != "" && (AllDigits(t) || (AllLetters(t) && t in vars))
    requires Run(pre, vars).Ok? && !Run(pre, vars).value.binary
    ensures var st := Run(pre, vars).value;
      var n := OperandValue(t, vars);
      Run(pre + [t], vars) ==
        Ok(Shunt(st.out + [Num(if Minuses(st.unary) % 2 == 0 then n else Negate(n))], st.ops, [], true))
  {
    assert (pre + [t])[..|pre|] == pre;
    var st := Run(pre, vars).value;
    FoldUnarySign(st.unary, OperandValue(t, vars));
    if !AllDigits(t) {
      assert t != "" && IsLetter(t[0]) && !IsUnaryToken(t);
      assert Step(st, t, vars) == Ok(Shunt(st.out + [Num(FoldUnary(st.unary, vars[t]))], st.ops, [], true));
    } else {
      assert IsDigit(t[0]) && !IsUnaryToken(t);
      assert Step(st, t, vars) == Ok(Shunt(st.out + [Num(FoldUnary(st.unary, Int(DecimalValue(t))))], st.ops, [], true));
    }
  }

  /** A line of signs only leaves them pending, and nothing else. */
  lemma SignsOnly(signs: seq<string>, vars: map<string, Value>)
    requires AllSigns(signs)
    ensures Run(signs, vars) == Ok(Shunt([], [], SignsOf(signs), false))
  {
    RunSigns([], signs, vars);
    assert [] + signs == signs;
    assert [] + SignsOf(signs) == SignsOf(signs);
  }

  /** Draining a state that holds one operand and no operator. */
  lemma DrainSingle(v: Value)
    ensures Drain(Shunt([Num(v)], [], [], true)) == Ok([Num(v)])
  {
  }

  /** A run of signs before a number gives that number, negated once per
      `-` (so `- - 3` is 3 and `- + - - 8` is -8). */
  lemma {:induction false} SignsThenNumber(signs: seq<string>, t: string, vars: map<string, Value>)
    requires AllSigns(signs) && AllDigits(t) && t != ""
    ensures var n: int := DecimalValue(t);
      Transform(signs + [t], vars) ==
        Ok([Num(Int(if Minuses(SignsOf(signs)) % 2 == 0 then n else -n))])
  {
    SignsOnly(signs, vars);
    OperandStep(signs, t, vars);
    var n := Int(DecimalValue(t));
    assert OperandValue(t, vars) == n;
    var v := if Minuses(SignsOf(signs)) % 2 == 0 then n else Negate(n);
    assert v == Int(if Minuses(SignsOf(signs)) % 2 == 0 then n.i else -n.i);
    assert [] + [Num(v)] == [Num(v)];
    var st := Shunt([Num(v)], [], [], true);
    assert Run(signs + [t], vars) == Ok(st);
    DrainSingle(v);
    assert Transform(signs + [t], vars) == Drain(st);
  }

  /** Signs at the end of a line are left on their stack and dropped: the
      output is that of the line without them. */
  lemma TrailingSignsDropped(pre: seq<string>, signs: seq<string>, vars: map<string, Value>)
    requires Run(pre, vars).Ok? && !Run(pre, vars).value.binary && AllSigns(signs)
    ensures Transform(pre + signs, vars) == Transform(pre, vars)
  {
    RunSigns(pre, signs, vars);
  }

  /** A sign directly before `(` is rejected: `-(2)` is an invalid expression. */
  lemma SignBeforeParen(pre: seq<string>, signs: seq<string>, rest: seq<string>, vars: map<string, Value>)
    requires Run(pre, vars).Ok? && !Run(pre, vars).value.binary && AllSigns(signs) && signs != []
    ensures Transform(pre + signs + ["("] + rest, vars) == Err(InvalidExpression)
  {
    RunSigns(pre, signs, vars);
    var line := pre + signs + ["("] + rest;
    var i := |pre + signs|;
    assert line[..i] == pre + signs;
    assert line[i] == "(";
    TransformStopsAt(line, i, vars, InvalidExpression);
  }

  // ---------------------------------------------------------------------
  // Precedence and associativity
  // ---------------------------------------------------------------------

  /** A number where an operand may start, with no sign pending, goes
      straight to the output. */
  lemma NumberStep(pre: seq<string>, t: string, vars: map<string, Value>)
    requires AllDigits(t) && t != ""
    requires Run(pre, vars).Ok? && !Run(pre, vars).value.binary && Run(pre, vars).value.unary == []
    ensures var st := Run(pre, vars).value;
      Run(pre + [t], vars) == Ok(st.(out := st.out + [Num(Int(DecimalValue(t)))], binary := true))
  {
    assert (pre + [t])[..|pre|] == pre;
  }

  /** A binary operator after an operand pops the operators that do not
      bind more loosely, then is pushed. */
  lemma OperatorStep(pre: seq<string>, t: string, vars: map<string, Value>)
    requires IsBinaryToken(t)
    requires Run(pre, vars).Ok? && Run(pre, vars).value.binary
    ensures var st := Run(pre, vars).value;
      var (out, ops) := PopNotLower(st.out, st.ops, t[0]);
      Run(pre + [t], vars) == Ok(Shunt(out, ops + [t[0]], st.unary, false))
  {
    assert (pre + [t])[..|pre|] == pre;
  }

  /** The state after `x o1 y`. */
  lemma {:induction false} FirstOperand(x: string, o1: string, y: string, vars: map<string, Value>)
    requires AllDigits(x) && x != "" && AllDigits(y) && y != "" && IsBinaryToken(o1)
    ensures Run([x, o1, y], vars) ==
      Ok(Shunt([Num(Int(DecimalValue(x))), Num(Int(DecimalValue(y)))], [o1[0]], [], true))
  {
    var (a, b) := (Num(Int(DecimalValue(x))), Num(Int(DecimalValue(y))));
    assert Run([], vars) == Ok(Shunt([], [], [], false));
    NumberStep([], x, vars);
    assert [] + [x] == [x] && [] + [a] == [a];
    assert Run([x], vars) == Ok(Shunt([a], [], [], true));
    OperatorStep([x], o1, vars);
    assert [x] + [o1] == [x, o1];
    assert PopNotLower([a], [], o1[0]) == ([a], []);
    assert [] + [o1[0]] == [o1[0]];
    assert Run([x, o1], vars) == Ok(Shunt([a], [o1[0]], [], false));
    NumberStep([x, o1], y, vars);
    assert [x, o1] + [y] == [x, o1, y];
    assert [a] + [b] == [a, b];
  }

  /** Two binary operators between three numbers: the first is applied
      first unless the second binds tighter, so operators of equal
      precedence, `^` included, group to the left. */
  lemma {:induction false} LeftAssociative(x: string, o1: string, y: string, o2: string, z: string, vars: map<string, Value>)
    requires AllDigits(x) && x != "" && AllDigits(y) && y != "" && AllDigits(z) && z != ""
    requires IsBinaryToken(o1) && IsBinaryToken(o2)
    ensures var (a, b, c) := (Num(Int(DecimalValue(x))), Num(Int(DecimalValue(y))), Num(Int(DecimalValue(z))));
      Transform([x, o1, y, o2, z], vars) ==
        Ok(if Precedence(o1[0]) >= Precedence(o2[0]) then [a, b, Op(o1[0]), c, Op(o2[0])]
           else [a, b, c, Op(o2[0]), Op(o1[0])])
  {
    var (a, b, c) := (Num(Int(DecimalValue(x))), Num(Int(DecimalValue(y))), Num(Int(DecimalValue(z))));
    FirstOperand(x, o1, y, vars);
    OperatorStep([x, o1, y], o2, vars);
    assert [x, o1, y] + [o2] == [x, o1, y, o2];
    NumberStep([x, o1, y, o2], z, vars);
    assert [x, o1, y, o2] + [z] == [x, o1, y, o2, z];
    var st := Run([x, o1, y, o2, z], vars).value;
    var (p1, p2) := (o1[0], o2[0]);
    if Precedence(p1) >= Precedence(p2) {
      PopsHigher(a, b, c, p1, p2);
      assert st == Shunt([a, b, Op(p1), c], [p2], [], true);
    } else {
      PopsLower(a, b, c, p1, p2);
      assert st == Shunt([a, b, c], [p1, p2], [], true);
    }
  }

  /** The stack moves of `a p1 b p2 c` when `p1` binds at least as tightly
      as `p2`: `p1` is popped before `p2` is pushed. */
  lemma PopsHigher(a: Item, b: Item, c: Item, p1: char, p2: char)
    requires p1 != '(' && p2 != '(' && Precedence(p1) >= Precedence(p2)
    ensures var (out, ops) := PopNotLower([a, b], [p1], p2);
      && out == [a, b, Op(p1)] && ops == []
      && PopToParen(out + [c], ops + [p2]) == ([a, b, Op(p1), c, Op(p2)], [])
  {
    assert [] + [p2] == [p2] && [a, b, Op(p1)] + [c] == [a, b, Op(p1), c];
    assert Top([p1]) == p1 && [p1][..0] == [];
    assert [a, b] + [Op(p1)] == [a, b, Op(p1)];
    assert Top([p2]) == p2 && [p2][..0] == [];
    assert [a, b, Op(p1), c] + [Op(p2)] == [a, b, Op(p1), c, Op(p2)];
  }

  /** The stack moves of `a p1 b p2 c` when `p2` binds more tightly: both
      wait on the stack and leave it in reverse order. */
  lemma PopsLower(a: Item, b: Item, c: Item, p1: char, p2: char)
    requires p1 != '(' && p2 != '(' && Precedence(p1) < Precedence(p2)
    ensures var (out, ops) := PopNotLower([a, b], [p1], p2);
      && out == [a, b] && ops == [p1]
      && PopToParen(out + [c], ops + [p2]) == ([a, b, c, Op(p2), Op(p1)], [])
  {
    assert [p1] + [p2] == [p1, p2] && [a, b] + [c] == [a, b, c];
    assert Top([p1]) == p1;
    assert Top([p1, p2]) == p2 && [p1, p2][..1] == [p1];
    assert [a, b, c] + [Op(p2)] == [a, b, c, Op(p2)];
    assert [a, b, c, Op(p2)] + [Op(p1)] == [a, b, c, Op(p2), Op(p1)];
    assert Top([p1]) == p1 && [p1][..0] == [];
    assert PopToParen([a, b, c], [p1, p2]) == PopToParen([a, b, c, Op(p2)], [p1]);
    assert PopToParen([a, b, c, Op(p2)], [p1]) == PopToParen([a, b, c, Op(p2), Op(p1)], []);
  }

  // ---------------------------------------------------------------------
  // The errors a step raises
  // ---------------------------------------------------------------------

  /** `PopToParen` empties the stack exactly when no `(` is on it. */
  lemma {:induction false} PopToParenFindsParen(out: seq<Item>, ops: seq<char>)
    ensures PopToParen(out, ops).1 == [] <==> '(' !in ops
    decreases |ops|
  {
    if ops != [] && Top(ops) != '(' {
      var init := ops[..|ops| - 1];
      PopToParenFindsParen(out + [Op(Top(ops))], init);
      assert ops == init + [Top(ops)];
    } else if ops != [] {
      assert ops[|ops| - 1] == '(';
    }
  }

  /** The final drain fails, with an invalid expression, exactly when a `(`
      is left on the operator stack. */
  lemma DrainErrors(st: Shunt)
    ensures Drain(st).Err? <==> '(' in st.ops
    ensures Drain(st).Err? ==> Drain(st).error == InvalidExpression
  {
    PopToParenFindsParen(st.out, st.ops);
  }

  /** The error each kind of bad token raises, whatever came before: a token
      mixing letters and digits is an invalid identifier; a name not in the
      store is an unknown variable; the empty token makes `int` fail; a
      misplaced token, a sign before `(` and a `)` without its `(` are
      invalid expressions. */
  lemma StepErrors(st: Shunt, t: string, vars: map<string, Value>)
    ensures Step(st, t, vars) == Err(InvalidIdentifier) <==> HasLetter(t) && HasDigit(t)
    ensures Step(st, t, vars) == Err(UnknownVariable) <==>
              !st.binary && t != "" && AllLetters(t) && t !in vars
    ensures Step(st, t, vars) == Err(EmptyNumeral) <==> !st.binary && t == ""
    ensures Step(st, t, vars) == Err(InvalidExpression) <==>
              || (!st.binary && t == "(" && st.unary != [])
              || (st.binary && t == ")" && '(' !in st.ops)
              || (!(HasLetter(t) && HasDigit(t)) &&
                  if st.binary then !IsBinaryToken(t) && t != ")" else !StartsOperand(t) && t != "")
    ensures Step(st, t, vars).Err? ==>
              Step(st, t, vars).error in {InvalidExpression, InvalidIdentifier, UnknownVariable, EmptyNumeral}
  {
    PopToParenFindsParen(st.out, st.ops);
    if HasLetter(t) && HasDigit(t) {
      var i :| 0 <= i < |t| && IsLetter(t[i]);
      var j :| 0 <= j < |t| && IsDigit(t[j]);
      assert !AllDigits(t) && !AllLetters(t);
    }
  }
}
