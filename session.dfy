/** Lines typed at the prompt, from the string to the reply: an
    assignment stores a value that a later expression reads, and a
    non-integral quotient stored in a name cannot be used as an operand. */
module Session {
  import opened Values
  import opened Tokenizer
  import opened Postfix
  import opened Shunting
  import opened Calc
  import opened Scenarios

  // ---------------------------------------------------------------------
  // One step of the substitution and of the split
  // ---------------------------------------------------------------------

  lemma KeepChar(s: string)
    requires s != [] && !IsSpace(s[0]) && !IsOperatorChar(s[0])
    ensures Substitute(s) == [s[0]] + Substitute(s[1..])
  {
  }
  lemma KeepOperator(s: string)
    requires |s| >= 3 && s[0] == ' ' && IsOperatorChar(s[1]) && s[2] == ' '
    requires |s| == 3 || !IsSpace(s[3])
    ensures Substitute(s) == s[..3] + Substitute(s[3..])
  {
    assert SpaceRun(s[1..]) == 0;
    assert SpaceRun(s) == 1;
    assert SpaceRun(s[2..]) == 1;
    assert s[2..][1..] == s[3..];
  }
  lemma StripUnchanged(s: string)
    requires s != [] && !IsSpace(s[0]) && !IsSpace(s[|s| - 1])
    ensures Strip(s) == s
  {
    assert TrimStart(s) == s;
  }
  lemma SplitWord(s: string)
    requires s != [] && !IsSpace(s[0]) && (|s| == 1 || IsSpace(s[1]))
    ensures Split(s) == [s[..1]] + Split(s[1..])
  {
    assert NonSpaceRun(s[1..]) == 0;
  }
  lemma SplitSpace(s: string)
    requires s != [] && IsSpace(s[0])
    ensures Split(s) == Split(s[1..])
  {
  }

  predicate ThreeShape(s: string) {
    |s| == 5 && s[1] == ' ' && s[3] == ' ' && IsOperatorChar(s[2]) &&
    !IsSpace(s[0]) && !IsOperatorChar(s[0]) && !IsSpace(s[4]) && !IsOperatorChar(s[4])
  }

  lemma ThreeSpaced(s: string)
    requires ThreeShape(s)
    ensures RemoveExtraSpaces(s) == s
  {
    StripUnchanged(s);
    ThreeSubstitute(s);
  }

  lemma ThreeSubstitute(s: string)
    requires ThreeShape(s)
    ensures Substitute(s) == s
  {
    KeepChar(s);
    KeepOperator(s[1..]);
    KeepChar(s[4..]);
    assert s[1..][3..] == s[4..] && s[4..][1..] == [];
    assert s == s[..1] + s[1..][..3] + s[4..];
  }

  lemma ThreeSplit(s: string)
    requires ThreeShape(s)
    ensures Split(s) == [[s[0]], [s[2]], [s[4]]]
  {
    SplitWord(s[4..]);
    assert s[4..][..1] == s[4..] && s[4..][1..] == [];
    assert Split(s[4..]) == [s[4..]];
    SplitSpace(s[3..]);
    assert s[3..][1..] == s[4..];
    SplitWord(s[2..]);
    assert s[2..][1..] == s[3..] && s[2..][..1] == s[2..3];
    assert Split(s[2..]) == [s[2..3], s[4..]];
    SplitSpace(s[1..]);
    assert s[1..][1..] == s[2..];
    SplitWord(s);
    assert s[..1] == [s[0]] && s[2..3] == [s[2]] && s[4..] == [s[4]];
  }

  /** `a = rest`, with `rest` spaced as `b o c`. */
  lemma AssignSpaced(s: string)
    requires |s| > 4 && s[1] == ' ' && s[2] == '=' && s[3] == ' '
    requires !IsSpace(s[0]) && !IsOperatorChar(s[0]) && ThreeShape(s[4..])
    ensures RemoveExtraSpaces(s) == s
  {
    StripUnchanged(s);
    var rest := s[4..];
    ThreeSubstitute(rest);
    KeepOperator(s[1..]);
    assert s[1..][3..] == rest;
    assert Substitute(s[1..]) == s[1..][..3] + rest;
    KeepChar(s);
    assert s == s[..1] + s[1..];
    assert s[1..] == s[1..][..3] + rest;
  }

  /** A one-letter name before the separator. */
  lemma SplitAfterName(line: string)
    requires '=' in line && RemoveExtraSpaces(line) == line
    requires |line| >= 4 && line[0] != ' ' && line[1] == ' ' && line[2] == '=' && line[3] == ' '
    ensures SplitAssignment(line) == ([line[0]], line[4..])
  {
    var parts := SplitAssignment(line);
    assert SeparatorAt(line, 1);
    assert |parts.0| == 1;
    assert [line[0]] == line[..1] == parts.0;
  }

  lemma SplitSpacedAssignment(s: string)
    requires |s| > 4 && s[1] == ' ' && s[2] == '=' && s[3] == ' '
    requires !IsSpace(s[0]) && !IsOperatorChar(s[0]) && ThreeShape(s[4..])
    ensures SplitAssignment(s) == ([s[0]], s[4..])
  {
    AssignSpaced(s);
    assert s[2] in s;
    SplitAfterName(s);
  }

  // ---------------------------------------------------------------------
  // The lines
  // ---------------------------------------------------------------------

  /** The transformer's state after `name o y`. */
  lemma NameFirst(x: string, o: string, y: string, vars: map<string, Value>)
    requires x != "" && AllLetters(x) && x in vars && IsBinaryToken(o) && y != "" && AllDigits(y)
    ensures Run([x, o, y], vars) ==
      Ok(Shunt([Num(vars[x]), Num(Int(DecimalValue(y)))], [o[0]], [], true))
  {
    var (a, b) := (Num(vars[x]), Num(Int(DecimalValue(y))));
    assert IsLetter(x[0]);
    assert OperandValue(x, vars) == vars[x];
    assert Run([], vars) == Ok(Shunt([], [], [], false));
    OperandStep([], x, vars);
    assert [] + [x] == [x] && [] + [a] == [a];
    assert Run([x], vars) == Ok(Shunt([a], [], [], true));
    OperatorStep([x], o, vars);
    assert [x] + [o] == [x, o] && [] + [o[0]] == [o[0]];
    assert Run([x, o], vars) == Ok(Shunt([a], [o[0]], [], false));
    NumberStep([x, o], y, vars);
    assert [x, o] + [y] == [x, o, y] && [a] + [b] == [a, b];
  }

  /** The final drain of two operands and one operator. */
  lemma DrainBinary(a: Item, b: Item, p: char)
    requires p != '('
    ensures Drain(Shunt([a, b], [p], [], true)) == Ok([a, b, Op(p)])
  {
    assert Top([p]) == p && [p][..0] == [];
    assert [a, b] + [Op(p)] == [a, b, Op(p)];
    assert PopToParen([a, b], [p]) == ([a, b, Op(p)], []);
  }

  /** `name o y`, the name known and `y` a number: one application of
      the operator to the stored value and the number. */
  lemma NameOperation(x: string, o: string, y: string, vars: map<string, Value>)
    requires x != "" && AllLetters(x) && x in vars && IsBinaryToken(o) && y != "" && AllDigits(y)
    ensures EvaluateTokens([x, o, y], vars) ==
      Finish(EvalTree(Node(o[0], Leaf(vars[x]), Leaf(Int(DecimalValue(y))))))
  {
    var (a, b) := (Num(vars[x]), Num(Int(DecimalValue(y))));
    var e := Node(o[0], Leaf(vars[x]), Leaf(Int(DecimalValue(y))));
    NameFirst(x, o, y, vars);
    var st := Shunt([a, b], [o[0]], [], true);
    DrainBinary(a, b, o[0]);
    assert Transform([x, o, y], vars) == Drain(st);
    assert Postorder(e) == [a] + [b] + [Op(o[0])] == [a, b, Op(o[0])];
    EvaluatePostorder(e);
  }

  /** A lone digit is one token. */
  lemma SingleToken(y: string)
    requires |y| == 1 && !IsSpace(y[0])
    ensures Split(y) == [y]
  {
    SplitWord(y);
    assert y[..1] == y && y[1..] == [];
  }

  /** A lone number goes to the output alone. */
  lemma SingleTransform(y: string, vars: map<string, Value>)
    requires AllDigits(y) && y != ""
    ensures Transform([y], vars) == Ok([Num(Int(DecimalValue(y)))])
  {
    var a := Num(Int(DecimalValue(y)));
    NumberStep([], y, vars);
    assert [] + [y] == [y] && [] + [a] == [a];
    assert Run([y], vars) == Ok(Shunt([a], [], [], true));
  }

  /** A lone number is its own value. */
  lemma SingleNumber(y: string, vars: map<string, Value>)
    requires AllDigits(y) && y != ""
    ensures EvaluateTokens([y], vars) == Ok(Int(DecimalValue(y)))
  {
    SingleTransform(y, vars);
    EvaluatePostorder(Leaf(Int(DecimalValue(y))));
  }

  /** An assignment whose name is made of letters and whose expression
      has a value stores that value. */
  lemma AssignStores(line: string, vars: map<string, Value>, name: string, expression: string, v: Value)
    requires '=' in line && SplitAssignment(line) == (name, expression) && AllLetters(name)
    requires EvaluateTokens(Split(expression), vars) == Ok(v)
    ensures Assign(line, vars) == (Silent, vars[name := v])
  {
  }

  /** The two sides of `n = d`. */
  lemma AssignDigitSides(s: string)
    requires ThreeShape(s) && s[2] == '='
    ensures '=' in s && SplitAssignment(s) == ([s[0]], [s[4]])
  {
    ThreeSpaced(s);
    assert s[2] in s;
    SplitAfterName(s);
    assert s[4..] == [s[4]];
  }

  /** The value of a one-digit number. */
  lemma DigitValue(c: char)
    requires IsDigit(c)
    ensures AllDigits([c]) && DecimalValue([c]) == c as int - '0' as int
  {
    assert [c][..0] == [];
  }

  /** A line `n = d` with a one-letter name `n` and a digit `d` stores the
      digit's value under the name and prints nothing. */
  lemma AssignDigit(s: string, vars: map<string, Value>)
    requires ThreeShape(s) && s[2] == '=' && IsLetter(s[0]) && IsDigit(s[4])
    ensures Assign(s, vars) == (Silent, vars[[s[0]] := Int(s[4] as int - '0' as int)])
  {
    AssignDigitSides(s);
    var y := [s[4]];
    DigitValue(s[4]);
    SingleToken(y);
    SingleNumber(y, vars);
    assert AllLetters([s[0]]);
    AssignStores(s, vars, [s[0]], y, Int(DecimalValue(y)));
  }

  lemma AssignNumber()
    ensures Assign("n = 3", map[]) == (Silent, map["n" := Int(3)])
  {
    var s := "n = 3";
    assert [s[0]] == "n" && s[4] as int - '0' as int == 3;
    AssignDigit(s, map[]);
  }

  /** A line `n o d` with a one-letter name `n` in the store, a binary
      operator `o` and a digit `d`: the reply is the operator applied to the
      stored value and the digit. */
  lemma NameLine(s: string, vars: map<string, Value>)
    requires ThreeShape(s) && IsLetter(s[0]) && [s[0]] in vars && IsBinaryOp(s[2]) && IsDigit(s[4])
    ensures ExpressionReply(s, vars) ==
      match Finish(EvalTree(Node(s[2], Leaf(vars[[s[0]]]), Leaf(Int(s[4] as int - '0' as int)))))
      case Ok(v) => Printed(v)
      case Err(e) => ExpressionMessage(e)
  {
    ThreeTokens(s);
    DigitValue(s[4]);
    NameOperation([s[0]], [s[2]], [s[4]], vars);
  }

  /** A line spaced as `a o b` is three one-character tokens. */
  lemma ThreeTokens(s: string)
    requires ThreeShape(s)
    ensures Tokenize(s) == [[s[0]], [s[2]], [s[4]]]
  {
    ThreeSpaced(s);
    ThreeSplit(s);
  }

  lemma UseNumber()
    ensures ExpressionReply("n * 2", map["n" := Int(3)]) == Printed(Int(6))
  {
    NameLine("n * 2", map["n" := Int(3)]);
    assert ApplyBinary('*', Int(3), Int(2)) == Ok(Int(6));
  }

  /** The two sides of `n = a o b`, and the tokens of the right side. */
  lemma OperationSides(s: string)
    requires |s| > 4 && s[1] == ' ' && s[2] == '=' && s[3] == ' '
    requires !IsSpace(s[0]) && !IsOperatorChar(s[0]) && ThreeShape(s[4..])
    ensures '=' in s && SplitAssignment(s) == ([s[0]], s[4..])
    ensures Split(s[4..]) == [[s[4]], [s[6]], [s[8]]]
  {
    SplitSpacedAssignment(s);
    assert s[2] in s;
    var rest := s[4..];
    ThreeSplit(rest);
    assert [rest[0]] == [s[4]] && [rest[2]] == [s[6]] && [rest[4]] == [s[8]];
  }

  /** `a o b` on one-digit numbers. */
  lemma DigitsOperation(a: char, o: char, b: char, vars: map<string, Value>)
    requires IsDigit(a) && IsBinaryOp(o) && IsDigit(b)
    ensures EvaluateTokens([[a], [o], [b]], vars) ==
      Finish(ApplyBinary(o, Int(a as int - '0' as int), Int(b as int - '0' as int)))
  {
    DigitValue(a);
    DigitValue(b);
    NumberOperation([a], [o], [b], vars);
  }

  /** The sides and the tokens of `n = a o b`. */
  lemma CharOperationSides(n: char, a: char, o: char, b: char)
    requires IsLetter(n) && IsDigit(a) && IsBinaryOp(o) && IsDigit(b)
    ensures var s := [n, ' ', '=', ' ', a, ' ', o, ' ', b];
      '=' in s && SplitAssignment(s) == ([n], [a, ' ', o, ' ', b]) && Split([a, ' ', o, ' ', b]) == [[a], [o], [b]]
  {
    var s := [n, ' ', '=', ' ', a, ' ', o, ' ', b];
    assert s[4..] == [a, ' ', o, ' ', b];
    OperationSides(s);
  }

  /** A one-letter name is a valid identifier. */
  lemma LetterName(n: char)
    requires IsLetter(n)
    ensures AllLetters([n])
  {
  }

  /** A line `n = a o b` with a one-letter name and one-digit numbers
      whose operation succeeds stores its result under the name. */
  lemma AssignOperation(n: char, a: char, o: char, b: char, vars: map<string, Value>, v: Value)
    requires IsLetter(n) && IsDigit(a) && IsBinaryOp(o) && IsDigit(b)
    requires Finish(ApplyBinary(o, Int(a as int - '0' as int), Int(b as int - '0' as int))) == Ok(v)
    ensures Assign([n, ' ', '=', ' ', a, ' ', o, ' ', b], vars) == (Silent, vars[[n] := v])
  {
    CharOperationSides(n, a, o, b);
    DigitsOperation(a, o, b, vars);
    LetterName(n);
    AssignStores([n, ' ', '=', ' ', a, ' ', o, ' ', b], vars, [n], [a, ' ', o, ' ', b], v);
  }

  lemma AssignQuotient()
    ensures Assign("x = 1 / 2", map[]) == (Silent, map["x" := Float(0.5)])
  {
    assert ApplyBinary('/', Int(1), Int(2)) == Ok(Float(0.5));
    assert 0.5.Floor == 0;
    AssignOperation('x', '1', '/', '2', map[], Float(0.5));
  }

  lemma UseQuotient()
    ensures ExpressionReply("x + 1", map["x" := Float(0.5)]) == Message("Invalid expression")
  {
    NameLine("x + 1", map["x" := Float(0.5)]);
  }
}
