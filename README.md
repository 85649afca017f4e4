# Smart calculator: a verified model of its expression pipeline

The smart calculator reads lines such as `a = 3`, `a * (2 + -4)` or
`- -3-+- 8 *( ( 2^ 2 + 3 ^1)* 2 + 1)` and prints a value or one of a few
messages. It does this without `eval`, through four stages:

- `remove_extra_spaces` and `str.split` cut the line into tokens.
- `transform_infix_to_postfix` turns the tokens into postfix. It is a shunting-yard pass that folds prefix signs into the operands and reads variables from the store.
- `compute_postfix_expresion` runs a stack machine over the postfix and turns an integral result into an `int`.
- `process_expression` and `process_assignment` turn errors into messages. A successful assignment writes `_variables`.

The model has seven modules:

- `Values`: Python numbers as `Int(int) | Float(real)`, the error kinds, and the precedence, binary-operator and unary-operator tables.
- `Tokenizer`: `str.strip`, the regular-expression substitution and `str.split` as character functions. `Lex` is an independent scan that describes their result.
- `Postfix`: the stack machine as a function. Expression trees are its partner: the postfix of a tree evaluates to the tree's value.
- `Shunting`: the transformer as a fold of one step over the tokens, with its state invariant and the error each token raises.
- `Calc`: the class `Calculator`, whose variable store is a field. Its methods are the source's loops over sequence stacks and are proved equal to the functions above. The functions `ExpressionReply` and `Assign` specify one expression line and one assignment line.
- `Scenarios` and `Session`: worked lines derived from the general lemmas. These include the example line of the help text, which prints 121, `2 ^ 3 ^ 2 = 64`, and an assignment followed by a use of the variable.

Python's `print` is replaced by a `Reply`:

- `Printed(v)` is a printed value.
- `Message(text)` is a printed message.
- `Silent` is a successful assignment.
- `Crash(e)` is an exception that escapes the calculator. These are `ZeroDivisionError`, the `IndexError` of an empty postfix, the `ValueError` of `int('')`, and `FractionalPower`. `FractionalPower` is not a Python exception: it is the model's stand-in for a power with a non-integral exponent at a base other than 0 and 1 (see Values.Power under "## Left out").

The code and its own help text disagree in one place. The help text (calculator.py:61-62) calls `/` integer division, but the code uses `operator.truediv` (calculator.py:45). The model follows the code, so `1 / 2` is the non-integral `0.5`. `10 / 2` prints `5` only because of the final conversion at calculator.py:110-111. A non-integral value can be stored by an assignment, but the evaluator refuses it as an operand (calculator.py:105-108). Any later expression that uses it is therefore an invalid expression (`Calc.FractionalVariableUnusable`, `Session.UseQuotient`).

## Model

| member | source | states |
|---|---|---|
| Values.Precedence | calculator.py:34-40 | the precedence table: `-` and `+` are 1, `/` and `*` are 2, `^` is 3, and a character has a precedence in 1..3 exactly when it is one of the five binary operators |
| Values.IntIfIntegral | calculator.py:110-111 | the final conversion keeps the numeric value, and the result is an `int` exactly when the value is integral |
| Values.Negate | calculator.py:50 | unary minus negates the value and keeps its int/float kind |
| Values.ApplyUnary | calculator.py:49-52 | definition of the `unary_operators` table: `-` is `Negate` and `+` leaves the value as it is |
| Values.FoldUnary | calculator.py:144-146 | definition of the sign loop: the pending signs are popped last-pushed first and each is applied to the operand; FoldUnarySign gives its meaning |
| Values.FoldUnarySign | calculator.py:49-52 | applying a run of pending prefix signs gives the value itself when the run holds an even number of `-`, and its negation otherwise |
| Values.Subtract | calculator.py:43 | `operator.sub` gives the exact difference, an `int` exactly when both operands are |
| Values.Add | calculator.py:44 | `operator.add` gives the exact sum, an `int` exactly when both operands are |
| Values.Divide | calculator.py:45 | `operator.truediv` fails with ZeroDivisionError exactly when the divisor is zero; otherwise it gives a float whose product with the divisor is the dividend |
| Values.Multiply | calculator.py:46 | `operator.mul` gives the exact product, an `int` exactly when both operands are |
| Values.Power | calculator.py:47 | `operator.pow` on two `int`s with a non-negative exponent gives the exact `int` power; any other successful power is a `float`; the value is the rational power for every whole exponent; zero raised to a negative power, whole or not, raises ZeroDivisionError; a non-integral exponent gives `0.0` at a zero base (when it is positive) and `1.0` at a base of one; at any other base it gives the model's FractionalPower (see "## Left out") |
| Values.ApplyBinary | calculator.py:42-48 | the binary-operator table: the result of each operator as above, and its only errors are ZeroDivisionError and the model's FractionalPower |
| Tokenizer.TrimStart | calculator.py:88 | the left part of `str.strip`: a suffix of the input that does not start with whitespace, after only whitespace |
| Tokenizer.TrimEnd | calculator.py:88 | the right part of `str.strip`: a prefix of the input that does not end with whitespace, before only whitespace |
| Tokenizer.Strip | calculator.py:88 | definition of `expression.strip()`: TrimEnd after TrimStart |
| Tokenizer.Substitute | calculator.py:88 | definition of `re.sub` with the pattern `\s*([-+/*^()=])\s*` of calculator.py:32, scanned left to right: at a position where a whitespace run is followed by an operator character, that run, the operator and the whitespace after it become the operator between two spaces; elsewhere one character is copied; TokenizeIsLex relates it to the reference scan |
| Tokenizer.RemoveExtraSpaces | calculator.py:84-88 | definition of `remove_extra_spaces`: Substitute after Strip |
| Tokenizer.Split | calculator.py:190 | definition of `str.split()`: the maximal runs of non-whitespace characters, in order |
| Tokenizer.Tokenize | calculator.py:189-190 | definition of the tokens of a line: Split after RemoveExtraSpaces; TokenizeIsLex and TokenizeProperties state what they are |
| Tokenizer.SpaceRun | calculator.py:32 | the `\s*` of the operator pattern: the length of the longest run of whitespace at the start |
| Tokenizer.NonSpaceRun | calculator.py:190 | the length of the first word of `str.split`: the longest run of non-whitespace at the start |
| Tokenizer.LexConcat | calculator.py:32 | joining the tokens of the reference scan gives the input with every whitespace character removed |
| Tokenizer.LexTokens | calculator.py:32 | every token of the reference scan is non-empty, holds no whitespace, and holds an operator character only as a one-character token |
| Tokenizer.TokenizeIsLex | calculator.py:84-88 | strip, then the substitution, then `str.split` give exactly the tokens of the reference scan |
| Tokenizer.TokenizeProperties | calculator.py:189-190 | joining the tokens of a line gives the line without whitespace; no token is empty or holds whitespace; each of `-+/*^()=` appears only as a one-character token |
| Tokenizer.LexSingles | calculator.py:32 | on a line whose words are single characters, the scan makes every character other than whitespace a token of its own |
| Tokenizer.FindSeparator | calculator.py:206 | the first position of `' = '` in a string, or none when there is none |
| Tokenizer.AssignmentSeparator | calculator.py:205-206 | after `remove_extra_spaces`, a line that holds `=` always holds `' = '`, so the split into identifier and expression never fails |
| Postfix.Push | calculator.py:96-108 | definition of one turn of the evaluator's loop: a binary operator with two values on the stack pops `b`, then `a`, and pushes `a op b` (or raises its arithmetic error); an `int` is pushed; anything else raises InvalidExpression |
| Postfix.RunFrom | calculator.py:95-108 | definition of the evaluator's loop: Push over the postfix list from left to right, stopping at the first error |
| Postfix.Evaluate | calculator.py:94-112 | a successful evaluation gives an `int` or a non-integral float; the empty postfix fails with IndexError |
| Postfix.RunFromAppend | calculator.py:95 | running the stack machine over two pieces is running it over the first, then over the second from the stack the first left |
| Postfix.RunPostorder | calculator.py:97-104 | the postfix of an expression tree pushes exactly the tree's value (binary operators pop `b`, then `a`, and push `a OP b`), or fails with the tree's error |
| Postfix.EvaluatePostorder | calculator.py:94-112 | evaluating the postfix of a tree gives the tree's value after the final conversion |
| Postfix.TreesPostorder | calculator.py:97-104 | a postfix that parses into a list of trees is the concatenation of their postfixes |
| Postfix.RunFromTrees | calculator.py:97-108 | a postfix the stack machine accepts parses into as many trees as values left on the stack |
| Postfix.EvaluateTrees | calculator.py:94-112 | a postfix that does not parse into trees fails; one that parses into one tree evaluates to that tree's value |
| Postfix.RunFromSticks | calculator.py:95-108 | once a prefix of the postfix fails, the whole evaluation fails with that error |
| Postfix.MissingOperand | calculator.py:96-108 | an operator met with fewer than two values on the stack is an invalid expression |
| Postfix.NonIntOperand | calculator.py:105-108 | a non-integral number met by the stack machine is an invalid expression |
| Postfix.NonIntRejected | calculator.py:105-108 | a postfix holding a non-integral number never evaluates successfully |
| Postfix.RunFromErrors | calculator.py:95-108 | the stack machine fails only with an invalid expression, ZeroDivisionError or the model's FractionalPower |
| Postfix.EvaluateErrors | calculator.py:94-112 | the evaluator fails only with those errors or the IndexError of an empty postfix |
| Shunting.PopNotLower | calculator.py:127-133 | definition of the loop before a binary operator `c` is pushed: it moves the top of the operator stack to the output while the top is not `(` and has a precedence of at least `c`'s |
| Shunting.PopToParen | calculator.py:166-172 | definition of the loop of `)` (and of the final drain): it moves the top to the output until the top is `(` or the stack is empty |
| Shunting.Step | calculator.py:124-179 | definition of one turn of the token loop, with the branches in the source's order: a binary operator after an operand; a sign; a number; a name (UnknownVariable when unbound); `(` (InvalidExpression after a sign); `)` after an operand (InvalidExpression when no `(` is open); InvalidIdentifier for a token with both letters and digits; InvalidExpression otherwise; StepErrors and StepKeepsValid state its properties |
| Shunting.Run | calculator.py:117-179 | definition of the state after the token loop: Step over the tokens from left to right from the empty state, stopping at the first error |
| Shunting.Drain | calculator.py:180-185 | definition of the final loop: PopToParen, then InvalidExpression when a `(` is left |
| Shunting.Transform | calculator.py:114-186 | definition of `transform_infix_to_postfix`: Drain after Run; TransformShape, TransformBalanced and TransformStopsAt state its properties |
| Shunting.PrefixKeepsShape | calculator.py:133 | popping operators keeps the stack well formed and its precedences ascending between parentheses |
| Shunting.PopNotLowerKeeps | calculator.py:127-134 | the pop loop before a binary operator leaves a prefix of the stack whose top is `(` or of lower precedence, and keeps one more tree in the output than binary operators on the stack |
| Shunting.PopToParenKeeps | calculator.py:167-168 | the pop loop of `)` leaves a prefix of the stack whose top is `(`, keeps the output's tree count, and appends only binary operators to the output |
| Shunting.PopToParenShort | calculator.py:181-182 | the same loop when a binary operator still misses its right operand: only binary operators are appended |
| Shunting.AscendingPush | calculator.py:134 | pushing an operator above `(` or a lower-precedence top keeps precedences strictly ascending between parentheses |
| Shunting.PopNotLowerShape | calculator.py:127-133 | the pop loop before a binary operator keeps the stack invariant |
| Shunting.PushBinaryShape | calculator.py:134 | pushing a binary operator adds one pending operator |
| Shunting.BinaryStepKeepsValid | calculator.py:126-136 | reading a binary operator keeps the transformer's state invariant |
| Shunting.CloseStepKeepsValid | calculator.py:166-172 | reading a matched `)` keeps the transformer's state invariant |
| Shunting.PopNotLowerExtends | calculator.py:133 | the pop loop only appends to the output |
| Shunting.PopToParenExtends | calculator.py:168 | the `)` loop only appends to the output |
| Shunting.RunExtends | calculator.py:124-179 | the output after any prefix of the tokens is a prefix of the output after all of them |
| Shunting.TransformExtends | calculator.py:114-186 | the output after any prefix of the tokens is a prefix of the final postfix |
| Shunting.NameReachesOutput | calculator.py:151-159 | a known variable read where an operand is expected reaches the postfix as its value or its negation |
| Shunting.StepKeepsValid | calculator.py:124-179 | every accepted token keeps the state invariant: ascending precedences between parentheses, and one more tree in the output than pending binary operators |
| Shunting.RunValid | calculator.py:124-179 | the state after any accepted token list satisfies the invariant |
| Shunting.RunErrSticks | calculator.py:124-179 | once a token raises, no later token changes the outcome |
| Shunting.RunPrefixOk | calculator.py:124-179 | every prefix of an accepted token list is accepted |
| Shunting.TransformStopsAt | calculator.py:124-179 | the error of the first bad token is the error of the whole transformation |
| Shunting.StepAccepts | calculator.py:126-179 | after an operand or `)` only a binary operator or `)` is accepted; elsewhere only a sign, a number, a name or `(`; the flag is set exactly by an operand or `)` |
| Shunting.RunFlag | calculator.py:121-159 | `next_operator_is_binary` holds exactly when the last token was a number, a name or `)` |
| Shunting.TransformAlternates | calculator.py:126-179 | in an accepted line every token after an operand or `)` is a binary operator or `)`, and every other token starts an operand |
| Shunting.PopNotLowerOpens | calculator.py:127-133 | the pop loop before a binary operator never pops `(` |
| Shunting.PopToParenOpens | calculator.py:167-168 | the `)` loop stops at `(` and pops none |
| Shunting.StepOpenParen | calculator.py:161-165 | an accepted `(` is pushed on the operator stack |
| Shunting.StepCloseParen | calculator.py:166-172 | an accepted `)` pops exactly its `(` after the loop |
| Shunting.StepOtherToken | calculator.py:126-159 | other tokens change the operator stack only by the pop loop and push of a binary operator |
| Shunting.StepOpens | calculator.py:161-172 | the number of `(` on the stack rises by one at `(`, falls by one at `)` and is otherwise unchanged |
| Shunting.RunOpens | calculator.py:124-179 | the number of `(` on the stack is the parenthesis depth of the tokens read |
| Shunting.TransformBalanced | calculator.py:161-185 | in an accepted line no prefix closes more parentheses than it opened, and all of them are closed |
| Shunting.TreesOnlyBinaryOps | calculator.py:97-104 | a postfix that parses into trees holds only numbers and binary operators |
| Shunting.TransformShape | calculator.py:180-186 | an accepted postfix holds only numbers and binary operators, never `(`; it forms one tree when the line ends with an operand or `)`, and otherwise it is empty or not a tree list |
| Shunting.RunSigns | calculator.py:138-139 | prefix signs read where an operand is expected are only pushed on the pending-sign stack |
| Shunting.OperandStep | calculator.py:141-159 | an operand appends its value, negated when the pending signs hold an odd number of `-`; the pending signs are then empty and the flag is set |
| Shunting.SignsOnly | calculator.py:138-139 | a line of signs only fills the pending-sign stack |
| Shunting.DrainSingle | calculator.py:181-182 | draining a single operand gives that operand |
| Shunting.SignsThenNumber | calculator.py:138-149 | signs followed by a number transform to the single number `(-1)^k * n`, where `k` counts the `-` signs |
| Shunting.TrailingSignsDropped | calculator.py:180-186 | signs left pending at the end of the line are silently dropped |
| Shunting.SignBeforeParen | calculator.py:161-164 | a sign directly before `(` is an invalid expression |
| Shunting.NumberStep | calculator.py:141-149 | a number read with no pending signs is appended as an `int` and sets the flag |
| Shunting.OperatorStep | calculator.py:126-136 | a binary operator after an operand runs the pop loop, is pushed and clears the flag |
| Shunting.FirstOperand | calculator.py:126-149 | the state after `x o y` holds both numbers in the output and `o` on the stack |
| Shunting.LeftAssociative | calculator.py:127-134 | `x o1 y o2 z` groups as `(x o1 y) o2 z` whenever `o1` binds at least as tightly as `o2`, including `^` after `^`; otherwise as `x o1 (y o2 z)` |
| Shunting.PopsHigher | calculator.py:127-133 | for `a p1 b p2 c` (a one-operator stack `[p1]` when `p2` arrives): when `p1` binds at least as tightly as `p2`, `p1` is popped before `p2` is pushed, and the drain gives `a b p1 c p2`; the general rule is PopNotLowerKeeps and PopNotLowerShape |
| Shunting.PopsLower | calculator.py:127-133 | for `a p1 b p2 c` (a one-operator stack `[p1]` when `p2` arrives): when `p2` binds more tightly, `p1` stays below `p2`, and the drain gives `a b c p2 p1` |
| Shunting.PopToParenFindsParen | calculator.py:167-171 | the `)` loop empties the stack exactly when no `(` is on it |
| Shunting.DrainErrors | calculator.py:181-185 | the final drain fails, with an invalid expression, exactly when a `(` is left on the stack |
| Shunting.StepErrors | calculator.py:152-179 | each error of a token, both directions: letters mixed with digits give InvalidIdentifier; an unknown name gives UnknownVariable; a sign before `(`, an unmatched `)` and a misplaced or unknown token give InvalidExpression |
| Calc.EvaluateTokens | calculator.py:193-195 | definition of `compute_postfix_expresion(transform_infix_to_postfix(tokens))`: Evaluate after Transform; EvaluateTokensMeaning and EvaluateTokensErrors state its properties |
| Calc.ExpressionReply | calculator.py:188-202 | definition of the reply to an expression line: the printed value of EvaluateTokens on the line's tokens, or the message of its error; ExpressionReplies states every possible reply |
| Calc.ExpressionMessage | calculator.py:197-202 | the three classified errors become their messages, and every other exception escapes |
| Calc.SplitAssignment | calculator.py:205-206 | identifier, `' = '` and expression rebuild the normalised line, and the identifier holds no earlier `' = '` |
| Calc.AssignmentMessage | calculator.py:213-216 | InvalidExpression and InvalidIdentifier become "Invalid assignment", UnknownVariable "Unknown variable", and other exceptions escape |
| Calc.Assign | calculator.py:204-220 | definition of `process_assignment` on a store: "Invalid identifier" for a name that is not all letters; otherwise the name is bound to the expression's value, or the error's message is given with the store unchanged; AssignFrame, AssignReplies and AssignKeepsStoreValid state its properties |
| Calc.Calculator.constructor | calculator.py:54-55 | a new calculator has an empty variable store |
| Calc.Calculator.ApplyUnaryOperators | calculator.py:144-146 | the loop popping the pending signs applies them innermost first, as `FoldUnary` |
| Calc.Calculator.TransformInfixToPostfix | calculator.py:114-186 | the imperative transformer, with its operator stack, sign stack and flag, computes `Transform` and leaves the store untouched |
| Calc.Calculator.ComputePostfixExpression | calculator.py:91-112 | the imperative stack machine computes `Evaluate` |
| Calc.Calculator.ProcessExpression | calculator.py:188-202 | an expression line replies as `ExpressionReply` and leaves the store untouched |
| Calc.Calculator.ProcessAssignment | calculator.py:204-220 | an assignment line replies and updates the store as `Assign`, and keeps every stored name all ASCII letters and every stored value an `int` or non-integral |
| Calc.EvaluateTokensMeaning | calculator.py:189-196 | an accepted line that ends with an operand evaluates as the single expression tree its postfix encodes; one that does not fails |
| Calc.EvaluateTokensErrors | calculator.py:191-202 | evaluating a token list fails only with the three classified errors or one of the four escaping exceptions |
| Calc.TransformErrors | calculator.py:114-186 | the transformer fails only with the three classified errors or the ValueError of `int('')` |
| Calc.RunErrors | calculator.py:124-179 | the token loop fails only with those errors |
| Calc.NoEmptyNumeral | calculator.py:141-142 | a tokenised line never reaches `int('')` |
| Calc.NoEmptyTokenRun | calculator.py:141-142 | a token list without empty tokens never reaches `int('')` |
| Calc.ExpressionReplies | calculator.py:188-202 | an expression line prints an `int` or a non-integral value, or one of the three messages, or escapes with ZeroDivisionError, IndexError or the model's FractionalPower |
| Calc.AssignFrame | calculator.py:204-220 | an assignment changes at most the entry of its identifier, and changes nothing when it prints a message or raises |
| Calc.AssignKeepsStoreValid | calculator.py:204-220 | every stored name stays all ASCII letters and every stored value an `int` or a non-integral float |
| Calc.IdentifierCheckedFirst | calculator.py:208-220 | an identifier that is not all ASCII letters gives "Invalid identifier", whatever the store and before any evaluation |
| Calc.AssignReplies | calculator.py:207-218 | a valid identifier is bound to the value on success; InvalidExpression and InvalidIdentifier give "Invalid assignment" and UnknownVariable gives "Unknown variable", with the store unchanged |
| Calc.FractionalVariableUnusable | calculator.py:105-108 | an expression that reads a variable holding a non-integral value always fails |
| Scenarios.LoneSign | calculator.py:180-186 | a line holding only `-` transforms to the empty postfix, whose evaluation fails with IndexError |
| Scenarios.PowerGroupsLeft | calculator.py:127-134 | `2 ^ 3 ^ 2` evaluates to 64, grouped as `(2 ^ 3) ^ 2` |
| Scenarios.ProductFirst | calculator.py:127-134 | `2 + 3 * 4` evaluates to 14 |
| Scenarios.NumberOperation | calculator.py:94-149 | `x o y` for two numbers evaluates to `o` applied to them, after the final conversion |
| Scenarios.Quotients | calculator.py:110-111 | `10 / 2` evaluates to the `int` 5 and `1 / 2` to the float 0.5 |
| Scenarios.DocumentedRun | calculator.py:124-179 | the state after the token loop over the tokens of the help text's example |
| Scenarios.DocumentedTransform | calculator.py:114-186 | the postfix of the help text's example |
| Scenarios.DocumentedTreeValue | calculator.py:65-66 | the expression tree of the help text's example has the value 121 |
| Scenarios.DocumentedValue | calculator.py:94-112 | the postfix of the help text's example evaluates to the `int` 121 |
| Scenarios.DocumentedExample | calculator.py:65-66 | the tokens of `- -3-+- 8 *( ( 2^ 2 + 3 ^1)* 2 + 1) + - 6 / (3^3 - 8 *3 )` evaluate to the `int` 121 |
| Scenarios.DocumentedTokens | calculator.py:189-190 | the tokenizer cuts the help text's example line into exactly the documented token list |
| Scenarios.DocumentedLineReply | calculator.py:65-66 | typing the help text's example line prints the `int` 121 |
| Session.ThreeSpaced | calculator.py:84-88 | a line `a o b` of three single characters is left unchanged by `remove_extra_spaces` |
| Session.ThreeTokens | calculator.py:189-190 | a line `a o b` tokenises to its three characters |
| Session.SplitSpacedAssignment | calculator.py:205-206 | a line `n = a o b` splits into the name `n` and the expression `a o b` |
| Session.NameOperation | calculator.py:114-186 | `x o y` for a known name and a number evaluates to `o` applied to the stored value and the number |
| Session.SingleNumber | calculator.py:141-149 | a single number evaluates to its `int` value |
| Session.AssignStores | calculator.py:208-218 | a valid identifier whose expression evaluates is bound to that value, and nothing else changes |
| Session.AssignDigit | calculator.py:204-218 | `n = d` for a letter and a digit binds `n` to the digit's value |
| Session.AssignNumber | calculator.py:204-218 | `n = 3` on an empty store gives the store `{n: 3}` |
| Session.NameLine | calculator.py:188-202 | `n o d` for a stored name and a digit prints `o` applied to the stored value and the digit, or that error's message |
| Session.UseNumber | calculator.py:188-202 | `n * 2` with `n = 3` prints 6 |
| Session.DigitsOperation | calculator.py:94-186 | `a o b` for two digits evaluates to `o` applied to them |
| Session.AssignOperation | calculator.py:204-218 | `n = a o b` for a letter and two digits binds `n` to the value of `a o b` |
| Session.AssignQuotient | calculator.py:204-218 | `x = 1 / 2` stores the float 0.5 |
| Session.UseQuotient | calculator.py:188-202 | with `x` holding 0.5, `x + 1` prints "Invalid expression" |

## Left out

- The console loop, `help`, `print_variables`, `process_command`, `input` and `print` (calculator.py:57-81, calculator.py:222-237) are left out because they are text I/O. A handled line returns a `Reply` instead of printing it. The order in which `print_variables` lists the store is not modelled, because the store is a `map`.
- The dispatch of `run` is left out. Only the fact that an assignment line holds `=` is kept, as the precondition of `Calc.Calculator.ProcessAssignment` and `Calc.Assign`; without it, the tuple unpacking at calculator.py:206 would raise.
- Values.Add, Values.Subtract, Values.Multiply, Values.Divide and Values.Power compute a `float` as an exact rational. IEEE rounding, `inf`, `nan` and OverflowError are left out. Python raises OverflowError, which the calculator does not catch, when a float result is too large (`( 1 / 2 ) ^ ( 0 - 2000 )`) or when an `int` too large for a float meets a float (`10 ^ 400 * ( 1 / 2 )`). The model prints an exact value for such lines instead.
- Values.Power: a non-integral exponent at a base other than 0 and 1 gives the model's own error FractionalPower, which is not Python's behaviour. There Python's `operator.pow` does not fail. A positive base gives a float (`2 ^ (1 / 2)` prints 1.4142135623730951). A negative base gives a complex number. Usually the `% 1` test at calculator.py:110 then raises TypeError, but not always: in `1 / ( ( 0 - 1 ) ^ ( 1 / 2 ) * 0 )` the complex value becomes `0j`, and the division raises ZeroDivisionError first. The model leaves these out because such a result is in general irrational or complex, and floats are modelled as exact rationals. At a zero base and at a base of one the result is exact and is modelled: `0 ^ ( 1 / 2 )` is `0.0`, `0 ^ ( 0 - 1 / 2 )` raises ZeroDivisionError, and `1 ^ ( 1 / 2 )` is `1.0`. A stored non-integral value can never become an operand, so such an exponent can only come from inside the expression. It can come from a quotient (`2 ^ (1 / 2)`) or from an `int` raised to a negative power (`2 ^ (2 ^ - 1)`).
- Exceptions that the calculator does not catch are kept apart from its three classified errors, as distinct `Crash` replies:
  - ZeroDivisionError from `/` or from zero raised to a negative power;
  - the IndexError of an empty postfix at calculator.py:110;
  - the ValueError of `int('')`, which `Calc.NoEmptyNumeral` shows never happens on a tokenised line.
- Python 3.11 and later limit the conversion between `int` and `str` to 4300 digits by default. There, `int(token)` at calculator.py:142 on a longer run of digits, or printing a result with more digits, raises a ValueError the calculator does not catch. The model converts and prints numbers of any length, because the limit depends on the Python version and its settings.
- Whitespace is the ASCII whitespace of `str.isspace` and `\s`, because Unicode whitespace and the details of the regular-expression engine are left out.
- `isinstance(token, int)` also holds for Python's `bool`, but no token is ever a `bool`, so this is left out.

