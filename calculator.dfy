/** The calculator object: its variable store, the two loops that turn a
    token list into a value, and the handling of one expression line or
    one assignment line.

    Printing is replaced by a `Reply`: what the line leaves on the console.
    The functions of this module specify the lines; the methods of
    `Calculator` do the work with the source's loops and stacks and are
    proved to agree with them. */
module Calc {
  import opened Values
  import opened Tokenizer
  import opened Postfix
  import opened Shunting

  /** What handling a line leaves behind: a printed value, a printed
      message, nothing, or a Python exception that escapes the calculator. */
  datatype Reply = Printed(v: Value) | Message(text: string) | Silent | Crash(e: Error)

  /** `compute_postfix_expresion(transform_infix_to_postfix(tokens))` */
  function EvaluateTokens(tokens: seq<string>, vars: map<string, Value>): Result<Value> {
    var p :- Transform(tokens, vars);
    Evaluate(p)
  }

  /** The `except` clauses of `process_expression`. */
  function ExpressionMessage(e: Error): (r: Reply)
    ensures IsClassified(e) <==> r.Message?
    ensures !IsClassified(e) ==> r == Crash(e)
  {
    match e
    case InvalidExpression => Message("Invalid expression")
    case UnknownVariable => Message("Unknown variable")
    case InvalidIdentifier => Message("Invalid identifier")
    case _ => Crash(e)
  }

  /** `process_expression`: what an expression line prints. */
  function ExpressionReply(line: string, vars: map<string, Value>): Reply {
    match EvaluateTokens(Tokenize(line), vars)
    case Ok(v) => Printed(v)
    case Err(e) => ExpressionMessage(e)
  }

  /** `string.split(' = ', 1)` on the line after `remove_extra_spaces`; a
      line holding `=` always has the separator there. */
  function SplitAssignment(line: string): (parts: (string, string))
    requires '=' in line
    ensures parts.0 + " = " + parts.1 == RemoveExtraSpaces(line)
    ensures forall j | 0 <= j < |parts.0| :: !SeparatorAt(RemoveExtraSpaces(line), j)
  {
    AssignmentSeparator(line);
    var s := RemoveExtraSpaces(line);
    var i := FindSeparator(s).value;
    assert s[i..i + 3] == " = ";
    assert s == s[..i] + s[i..i + 3] + s[i + 3..];
    (s[..i], s[i + 3..])
  }

  /** The `except` clauses of `process_assignment`. */
  function AssignmentMessage(e: Error): (r: Reply)
    ensures IsClassified(e) <==> r.Message?
    ensures !IsClassified(e) ==> r == Crash(e)
  {
    match e
    case InvalidExpression => Message("Invalid assignment")
    case InvalidIdentifier => Message("Invalid assignment")
    case UnknownVariable => Message("Unknown variable")
    case _ => Crash(e)
  }

  /** `process_assignment`: what an assignment line prints and the store
      after it. */
  function Assign(line: string, vars: map<string, Value>): (Reply, map<string, Value>)
    requires '=' in line
  {
    var (identifier, expression) := SplitAssignment(line);
    if !AllLetters(identifier) then (Message("Invalid identifier"), vars)
    else
      match EvaluateTokens(Split(expression), vars)
      case Ok(v) => (Silent, vars[identifier := v])
      case Err(e) => (AssignmentMessage(e), vars)
  }

  /** What holds of the store between two lines: every name is made of
      ASCII letters (the empty name included) and every value is what the
      evaluator returns, an `int` or a non-integral `float`. */
  ghost predicate StoreValid(vars: map<string, Value>) {
    forall name | name in vars :: AllLetters(name) && (vars[name].Int? || !IsIntegral(vars[name]))
  }

  // ---------------------------------------------------------------------
  // The calculator object
  // ---------------------------------------------------------------------

  class Calculator {
    /** `_variables` */
    var variables: map<string, Value>

    /** The store invariant the source keeps between lines: every name is
        all letters (the check before the store at calculator.py:208) and
        every value is what the evaluator returns.  The constructor
        establishes it and ProcessAssignment keeps it. */
    ghost predicate Valid()
      reads this
    {
      StoreValid(variables)
    }

    constructor()
      ensures Valid() && variables == map[]
    {
      variables := map[];
    }

    /** The inner `while unary_operators_stack` loop: pop each pending sign
        and apply it to the operand. */
    static method ApplyUnaryOperators(unary: seq<char>, operand: Value) returns (number: Value)
      ensures number == FoldUnary(unary, operand)
    {
      var stack := unary;
      number := operand;
      while stack != []
        invariant FoldUnary(stack, number) == FoldUnary(unary, operand)
        decreases |stack|
      {
        var c := stack[|stack| - 1];
        stack := stack[..|stack| - 1];
        number := ApplyUnary(c, number);
      }
    }

    /** `transform_infix_to_postfix` */
    method TransformInfixToPostfix(infix: seq<string>) returns (r: Result<seq<Item>>)
      ensures r == Transform(infix, variables)
    {
      var operators: seq<char> := [];
      var unaryOperators: seq<char> := [];
      var nextOperatorIsBinary := false;
      var postfix: seq<Item> := [];
      for i := 0 to |infix|
        invariant Run(infix[..i], variables) == Ok(Shunt(postfix, operators, unaryOperators, nextOperatorIsBinary))
      {
        var token := infix[i];
        assert infix[..i + 1][..i] == infix[..i];
        ghost var st := Shunt(postfix, operators, unaryOperators, nextOperatorIsBinary);
        if nextOperatorIsBinary && IsBinaryToken(token) {
          while operators != [] && Top(operators) != '(' && Precedence(token[0]) <= Precedence(Top(operators))
            invariant PopNotLower(postfix, operators, token[0]) == PopNotLower(st.out, st.ops, token[0])
            decreases |operators|
          {
            postfix := postfix + [Op(Top(operators))];
            operators := operators[..|operators| - 1];
          }
          operators := operators + [token[0]];
          nextOperatorIsBinary := false;
        } else if IsUnaryToken(token) && !nextOperatorIsBinary {
          unaryOperators := unaryOperators + [token[0]];
        } else if AllDigits(token) && !nextOperatorIsBinary {
          if token == "" {
            TransformStopsAt(infix, i, variables, EmptyNumeral);
            return Err(EmptyNumeral);
          }
          var number := ApplyUnaryOperators(unaryOperators, Int(DecimalValue(token)));
          unaryOperators := [];
          postfix := postfix + [Num(number)];
          nextOperatorIsBinary := true;
        } else if AllLetters(token) && !nextOperatorIsBinary {
          if token !in variables {
            TransformStopsAt(infix, i, variables, UnknownVariable);
            return Err(UnknownVariable);
          }
          var number := ApplyUnaryOperators(unaryOperators, variables[token]);
          unaryOperators := [];
          postfix := postfix + [Num(number)];
          nextOperatorIsBinary := true;
        } else if token == "(" && !nextOperatorIsBinary {
          if unaryOperators != [] {
            TransformStopsAt(infix, i, variables, InvalidExpression);
            return Err(InvalidExpression);
          }
          operators := operators + ['('];
        } else if token == ")" && nextOperatorIsBinary {
          while operators != [] && Top(operators) != '('
            invariant PopToParen(postfix, operators) == PopToParen(st.out, st.ops)
            decreases |operators|
          {
            postfix := postfix + [Op(Top(operators))];
            operators := operators[..|operators| - 1];
          }
          if operators == [] {
            TransformStopsAt(infix, i, variables, InvalidExpression);
            return Err(InvalidExpression);
          }
          operators := operators[..|operators| - 1];
        } else if HasLetter(token) && HasDigit(token) {
          TransformStopsAt(infix, i, variables, InvalidIdentifier);
          return Err(InvalidIdentifier);
        } else {
          TransformStopsAt(infix, i, variables, InvalidExpression);
          return Err(InvalidExpression);
        }
      }
      assert infix[..|infix|] == infix;
      ghost var st := Shunt(postfix, operators, unaryOperators, nextOperatorIsBinary);
      while operators != [] && Top(operators) != '('
        invariant PopToParen(postfix, operators) == PopToParen(st.out, st.ops)
        decreases |operators|
      {
        postfix := postfix + [Op(Top(operators))];
        operators := operators[..|operators| - 1];
      }
      if operators != [] {
        return Err(InvalidExpression);
      }
      return Ok(postfix);
    }

    /** `compute_postfix_expresion` */
    static method ComputePostfixExpression(postfix: seq<Item>) returns (r: Result<Value>)
      ensures r == Evaluate(postfix)
    {
      var stack: seq<Value> := [];
      for k := 0 to |postfix|
        invariant RunFrom([], postfix[..k]) == Ok(stack)
      {
        var token := postfix[k];
        assert postfix[..k + 1][..k] == postfix[..k];
        if token.Op? && IsBinaryOp(token.c) && |stack| >= 2 {
          ghost var before := stack;
          var b := stack[|stack| - 1];
          stack := stack[..|stack| - 1];
          var a := stack[|stack| - 1];
          stack := stack[..|stack| - 1];
          assert stack == before[..|before| - 2] && a == before[|before| - 2];
          var value := ApplyBinary(token.c, a, b);
          if value.Err? {
            RunFromSticks(postfix, k + 1);
            return Err(value.error);
          }
          stack := stack + [value.value];
        } else if token.Num? && token.v.Int? {
          stack := stack + [token.v];
        } else {
          RunFromSticks(postfix, k + 1);
          return Err(InvalidExpression);
        }
      }
      assert postfix[..|postfix|] == postfix;
      if stack == [] {
        return Err(EmptyStack);
      }
      stack := stack[|stack| - 1 := IntIfIntegral(stack[|stack| - 1])];
      return Ok(stack[|stack| - 1]);
    }

    /** `process_expression`: the store is only read. */
    method ProcessExpression(expression: string) returns (reply: Reply)
      ensures reply == ExpressionReply(expression, variables)
    {
      var infix := Split(RemoveExtraSpaces(expression));
      var postfix := TransformInfixToPostfix(infix);
      if postfix.Err? {
        return ExpressionMessage(postfix.error);
      }
      var value := ComputePostfixExpression(postfix.value);
      if value.Err? {
        return ExpressionMessage(value.error);
      }
      return Printed(value.value);
    }

    /** `process_assignment`, for a line holding `=` (the only lines the
        console loop hands to it). */
    method ProcessAssignment(line: string) returns (reply: Reply)
      requires Valid() && '=' in line
      modifies this
      ensures Valid()
      ensures (reply, variables) == Assign(line, old(variables))
    {
      var (identifier, expression) := SplitAssignment(line);
      var infix := Split(expression);
      if !AllLetters(identifier) {
        return Message("Invalid identifier");
      }
      var postfix := TransformInfixToPostfix(infix);
      if postfix.Err? {
        return AssignmentMessage(postfix.error);
      }
      var value := ComputePostfixExpression(postfix.value);
      if value.Err? {
        return AssignmentMessage(value.error);
      }
      AssignKeepsStoreValid(line, variables);
      variables := variables[identifier := value.value];
      return Silent;
    }
  }

  // ---------------------------------------------------------------------
  // Properties of a line
  // ---------------------------------------------------------------------

  /** A well-formed expression is computed as a tree: the line ends with an
      operand, the postfix list is that tree in postfix, and the value is the
      tree's value; any other line the transformer accepts fails in the
      evaluator. */
  lemma EvaluateTokensMeaning(tokens: seq<string>, vars: map<string, Value>)
    requires Transform(tokens, vars).Ok?
    ensures var p := Transform(tokens, vars).value;
      if AfterOperand(tokens, |tokens|) then
        Trees(p).Some? && |Trees(p).value| == 1 && p == Postorder(Trees(p).value[0])
        && EvaluateTokens(tokens, vars) == Finish(EvalTree(Trees(p).value[0]))
      else
        EvaluateTokens(tokens, vars).Err?
  {
    var p := Transform(tokens, vars).value;
    TransformShape(tokens, vars);
    EvaluateTrees(p);
  }

  /** The errors a line can end in: a transformer error (the first failing
      token's), or one of the evaluator's. */
  lemma EvaluateTokensErrors(tokens: seq<string>, vars: map<string, Value>)
    ensures EvaluateTokens(tokens, vars).Err? ==>
              EvaluateTokens(tokens, vars).error in
                {InvalidExpression, InvalidIdentifier, UnknownVariable, EmptyNumeral,
                 ZeroDivision, FractionalPower, EmptyStack}
  {
    if Transform(tokens, vars).Ok? {
      EvaluateErrors(Transform(tokens, vars).value);
    } else {
      TransformErrors(tokens, vars);
    }
  }

  /** The transformer fails only with its own three errors or with `int('')`. */
  lemma TransformErrors(tokens: seq<string>, vars: map<string, Value>)
    ensures Transform(tokens, vars).Err? ==>
              Transform(tokens, vars).error in {InvalidExpression, InvalidIdentifier, UnknownVariable, EmptyNumeral}
  {
    if Run(tokens, vars).Err? {
      RunErrors(tokens, vars);
    }
  }

  lemma {:induction false} RunErrors(tokens: seq<string>, vars: map<string, Value>)
    ensures Run(tokens, vars).Err? ==>
              Run(tokens, vars).error in {InvalidExpression, InvalidIdentifier, UnknownVariable, EmptyNumeral}
    decreases |tokens|
  {
    if tokens != [] {
      var init := tokens[..|tokens| - 1];
      RunErrors(init, vars);
      if Run(init, vars).Ok? {
        StepErrors(Run(init, vars).value, tokens[|tokens| - 1], vars);
      }
    }
  }

  /** A line cannot produce the empty token: split never yields one, so
      the `int('')` failure of the transformer cannot happen on a line. */
  lemma NoEmptyNumeral(line: string, vars: map<string, Value>)
    ensures EvaluateTokens(Tokenize(line), vars) != Err(EmptyNumeral)
  {
    var tokens := Tokenize(line);
    TokenizeProperties(line);
    if Run(tokens, vars).Err? {
      NoEmptyTokenRun(tokens, vars);
    }
    if Transform(tokens, vars).Ok? {
      EvaluateErrors(Transform(tokens, vars).value);
    }
  }

  lemma {:induction false} NoEmptyTokenRun(tokens: seq<string>, vars: map<string, Value>)
    requires forall t <- tokens :: t != ""
    ensures Run(tokens, vars) != Err(EmptyNumeral)
    decreases |tokens|
  {
    if tokens != [] {
      var init := tokens[..|tokens| - 1];
      assert forall t <- init :: t in tokens;
      assert tokens[|tokens| - 1] in tokens;
      NoEmptyTokenRun(init, vars);
      if Run(init, vars).Ok? {
        StepErrors(Run(init, vars).value, tokens[|tokens| - 1], vars);
      }
    }
  }

  /** An expression line prints a value, one of the three messages (for
      exactly the three errors the calculator raises), or lets a Python
      error escape: `/` by zero, zero raised to a negative power, or the
      IndexError of an empty postfix list; a non-integral exponent at a base
      other than 0 and 1 gives the model's FractionalPower. */
  lemma ExpressionReplies(line: string, vars: map<string, Value>)
    ensures var r := ExpressionReply(line, vars);
      || (r.Printed? && (r.v.Int? || !IsIntegral(r.v)))
      || r in {Message("Invalid expression"), Message("Unknown variable"), Message("Invalid identifier")}
      || r in {Crash(ZeroDivision), Crash(FractionalPower), Crash(EmptyStack)}
  {
    EvaluateTokensErrors(Tokenize(line), vars);
    NoEmptyNumeral(line, vars);
  }

  // ---------------------------------------------------------------------
  // Properties of an assignment
  // ---------------------------------------------------------------------

  /** An assignment changes at most the entry of its own identifier, and only
      when it prints nothing; every other entry is kept. */
  lemma AssignFrame(line: string, vars: map<string, Value>)
    requires '=' in line
    ensures var (reply, vars') := Assign(line, vars);
      var identifier := SplitAssignment(line).0;
      && (reply == Silent ==> identifier in vars' && vars' == vars[identifier := vars'[identifier]])
      && (reply != Silent ==> vars' == vars)
      && (forall name | name != identifier :: (name in vars' <==> name in vars))
      && (forall name | name != identifier && name in vars :: vars'[name] == vars[name])
  {
  }

  /** The stored value is the expression's value, normalised by the
      evaluator, so the store stays valid. */
  lemma AssignKeepsStoreValid(line: string, vars: map<string, Value>)
    requires '=' in line && StoreValid(vars)
    ensures StoreValid(Assign(line, vars).1)
  {
    var (identifier, expression) := SplitAssignment(line);
    var tokens := Split(expression);
    if AllLetters(identifier) && EvaluateTokens(tokens, vars).Ok? {
      var p := Transform(tokens, vars).value;
      assert EvaluateTokens(tokens, vars) == Evaluate(p);
    }
  }

  /** The identifier is checked before the expression is looked at: a left
      side that is not all letters gives "Invalid identifier" and leaves the
      store alone, whatever the right side and the store hold. */
  lemma IdentifierCheckedFirst(line: string, vars: map<string, Value>, other: map<string, Value>)
    requires '=' in line && !AllLetters(SplitAssignment(line).0)
    ensures Assign(line, vars) == (Message("Invalid identifier"), vars)
    ensures Assign(line, other).0 == Assign(line, vars).0
  {
  }

  /** The replies to an assignment whose identifier is valid: "Invalid
      assignment" for the transformer's or evaluator's InvalidExpression and
      InvalidIdentifier, "Unknown variable" for UnknownVariable, nothing on
      success; the store changes only on success. */
  lemma AssignReplies(line: string, vars: map<string, Value>)
    requires '=' in line && AllLetters(SplitAssignment(line).0)
    ensures var (identifier, expression) := SplitAssignment(line);
      var r := EvaluateTokens(Split(expression), vars);
      && (r.Ok? ==> Assign(line, vars) == (Silent, vars[identifier := r.value]))
      && (r == Err(InvalidExpression) || r == Err(InvalidIdentifier) ==>
            Assign(line, vars) == (Message("Invalid assignment"), vars))
      && (r == Err(UnknownVariable) ==> Assign(line, vars) == (Message("Unknown variable"), vars))
      && (r.Err? && !IsClassified(r.error) ==> Assign(line, vars) == (Crash(r.error), vars))
  {
  }

  /** A name holding a non-integral value (`x = 1 / 2`) is accepted by the
      transformer but refused by the evaluator, which takes `int` operands
      only: no line that uses it as an operand yields a value. */
  lemma FractionalVariableUnusable(tokens: seq<string>, i: nat, vars: map<string, Value>)
    requires i < |tokens| && tokens[i] != "" && AllLetters(tokens[i])
    requires tokens[i] in vars && !vars[tokens[i]].Int?
    ensures EvaluateTokens(tokens, vars).Err?
  {
    if Transform(tokens, vars).Ok? {
      TransformAlternates(tokens, vars);
      assert !IsBinaryToken(tokens[i]) && tokens[i] != ")";
      var k := NameReachesOutput(tokens, i, vars);
      NonIntRejected(Transform(tokens, vars).value, k);
    }
  }
}
