/** The postfix evaluator `compute_postfix_expresion`, as a specification.

    The evaluator keeps a stack of values; a number is pushed, a binary
    operator pops `b` (the top) and then `a` and pushes `a OP b`.  Only a
    Python `int` is accepted as an operand of the postfix list.  The
    partner of this stack machine is an expression tree: `Postorder` writes
    a tree in postfix, `EvalTree` evaluates it directly, and
    `EvaluatePostorder` proves that the stack machine computes the tree's
    value, with `a` the left and `b` the right operand. */
module Postfix {
  import opened Values

  /** An element of the postfix list: a number, or an operator string. */
  datatype Item = Num(v: Value) | Op(c: char)

  /** One turn of the evaluator's loop on the value stack. */
  function Push(stack: seq<Value>, item: Item): Result<seq<Value>> {
    match item
    case Op(c) =>
      if IsBinaryOp(c) && |stack| >= 2 then
        var r :- ApplyBinary(c, stack[|stack| - 2], stack[|stack| - 1]);
        Ok(stack[..|stack| - 2] + [r])
      else Err(InvalidExpression)
    case Num(v) =>
      if v.Int? then Ok(stack + [v]) else Err(InvalidExpression)
  }

  /** The value stack after the evaluator has consumed `p`, starting from `stack`. */
  function RunFrom(stack: seq<Value>, p: seq<Item>): Result<seq<Value>>
    decreases |p|
  {
    if p == [] then Ok(stack)
    else
      var s :- RunFrom(stack, p[..|p| - 1]);
      Push(s, p[|p| - 1])
  }

  /** `compute_postfix_expresion`: run the list, then return the top of the
      stack, turned into an `int` when it is integral.  The source does not
      check that only one value is left; an empty stack raises IndexError. */
  function Evaluate(p: seq<Item>): (r: Result<Value>)
    ensures r.Ok? ==> r.value.Int? || !IsIntegral(r.value)
    ensures p == [] ==> r == Err(EmptyStack)
  {
    var stack :- RunFrom([], p);
    if stack == [] then Err(EmptyStack) else Ok(IntIfIntegral(stack[|stack| - 1]))
  }

  // ---------------------------------------------------------------------
  // Expression trees: the reference the stack machine is checked against
  // ---------------------------------------------------------------------

  datatype Expr = Leaf(v: Value) | Node(op: char, left: Expr, right: Expr)

  function Postorder(e: Expr): seq<Item> {
    match e
    case Leaf(v) => [Num(v)]
    case Node(c, l, r) => Postorder(l) + Postorder(r) + [Op(c)]
  }

  /** The value of a tree, the left operand evaluated before the right one;
      a leaf must be an `int` and an inner node a binary operator. */
  function EvalTree(e: Expr): Result<Value> {
    match e
    case Leaf(v) => if v.Int? then Ok(v) else Err(InvalidExpression)
    case Node(c, l, r) =>
      var a :- EvalTree(l);
      var b :- EvalTree(r);
      if IsBinaryOp(c) then ApplyBinary(c, a, b) else Err(InvalidExpression)
  }

  /** The evaluator's final step applied to a value computed some other way. */
  function Finish(r: Result<Value>): Result<Value> {
    match r
    case Ok(v) => Ok(IntIfIntegral(v))
    case Err(e) => Err(e)
  }

  /** Running two lists one after the other is running their concatenation. */
  lemma {:induction false} RunFromAppend(stack: seq<Value>, a: seq<Item>, b: seq<Item>)
    ensures RunFrom(stack, a + b) ==
            match RunFrom(stack, a)
            case Ok(s) => RunFrom(s, b)
            case Err(e) => Err(e)
    decreases |b|
  {
    if b == [] {
      assert a + b == a;
    } else {
      var b' := b[..|b| - 1];
      assert (a + b)[..|a + b| - 1] == a + b';
      assert (a + b)[|a + b| - 1] == b[|b| - 1];
      RunFromAppend(stack, a, b');
    }
  }

  /** Running a tree's postfix form pushes the tree's value. */
  lemma {:induction false} RunPostorder(stack: seq<Value>, e: Expr)
    ensures RunFrom(stack, Postorder(e)) ==
            match EvalTree(e)
            case Ok(v) => Ok(stack + [v])
            case Err(x) => Err(x)
    decreases e
  {
    match e
    case Leaf(v) =>
      assert Postorder(e)[..0] == [];
    case Node(c, l, r) =>
      var pl, pr := Postorder(l), Postorder(r);
      assert Postorder(e) == (pl + pr) + [Op(c)];
      assert (pl + pr + [Op(c)])[..|pl + pr|] == pl + pr;
      RunFromAppend(stack, pl, pr);
      RunPostorder(stack, l);
      match EvalTree(l)
      case Err(_) =>
      case Ok(a) =>
        RunPostorder(stack + [a], r);
        match EvalTree(r)
        case Err(_) =>
        case Ok(b) =>
          var s := stack + [a] + [b];
          assert s[..|s| - 2] == stack;
          assert s[|s| - 2] == a && s[|s| - 1] == b;
  }

  /** The evaluator computes the value of the tree whose postfix form it is
      given: it pops `b` (the right operand) before `a` (the left one) and
      pushes `a OP b`. */
  lemma EvaluatePostorder(e: Expr)
    ensures Evaluate(Postorder(e)) == Finish(EvalTree(e))
  {
    RunPostorder([], e);
  }

  // ---------------------------------------------------------------------
  // Reading a postfix list back as trees
  // ---------------------------------------------------------------------

  /** The stack of trees a postfix list stands for, or None when an operator
      finds fewer than two operands (or is not a binary operator). */
  function Trees(p: seq<Item>): Option<seq<Expr>>
    decreases |p|
  {
    if p == [] then Some([])
    else
      match Trees(p[..|p| - 1])
      case None => None
      case Some(ts) =>
        match p[|p| - 1]
        case Num(v) => Some(ts + [Leaf(v)])
        case Op(c) =>
          if IsBinaryOp(c) && |ts| >= 2 then
            Some(ts[..|ts| - 2] + [Node(c, ts[|ts| - 2], ts[|ts| - 1])])
          else None
  }

  function PostorderAll(ts: seq<Expr>): seq<Item>
    decreases |ts|
  {
    if ts == [] then [] else PostorderAll(ts[..|ts| - 1]) + Postorder(ts[|ts| - 1])
  }

  lemma PostorderAllSnoc(ts: seq<Expr>, t: Expr)
    ensures PostorderAll(ts + [t]) == PostorderAll(ts) + Postorder(t)
  {
    assert (ts + [t])[..|ts|] == ts;
  }

  /** The trees read off a list, written back in postfix, give the list. */
  lemma {:induction false} TreesPostorder(p: seq<Item>)
    requires Trees(p).Some?
    ensures PostorderAll(Trees(p).value) == p
    decreases |p|
  {
    if p != [] {
      var init := p[..|p| - 1];
      TreesPostorder(init);
      var ts := Trees(init).value;
      assert p == init + [p[|p| - 1]];
      match p[|p| - 1]
      case Num(v) =>
        PostorderAllSnoc(ts, Leaf(v));
      case Op(c) =>
        var n := |ts|;
        var rest := ts[..n - 2];
        assert ts == rest + [ts[n - 2]] + [ts[n - 1]];
        PostorderAllNode(rest, c, ts[n - 2], ts[n - 1]);
    }
  }

  /** Joining the two top trees under an operator appends the operator. */
  lemma PostorderAllNode(rest: seq<Expr>, c: char, l: Expr, r: Expr)
    ensures PostorderAll(rest + [Node(c, l, r)]) == PostorderAll(rest + [l] + [r]) + [Op(c)]
  {
    PostorderAllSnoc(rest + [l], r);
    PostorderAllSnoc(rest, l);
    PostorderAllSnoc(rest, Node(c, l, r));
  }

  /** A list that runs to the end without an error reads as trees, one per
      value left on the stack. */
  lemma {:induction false} RunFromTrees(p: seq<Item>)
    requires RunFrom([], p).Ok?
    ensures Trees(p).Some? && |Trees(p).value| == |RunFrom([], p).value|
    decreases |p|
  {
    if p != [] {
      RunFromTrees(p[..|p| - 1]);
    }
  }

  /** What the evaluator does with a list, read through its trees: a list
      that is not a sequence of trees fails, the empty list fails with
      IndexError, and a list that is one tree gives that tree's value. */
  lemma EvaluateTrees(p: seq<Item>)
    ensures Trees(p).None? ==> Evaluate(p).Err?
    ensures Trees(p) == Some([]) ==> p == [] && Evaluate(p) == Err(EmptyStack)
    ensures Trees(p).Some? && |Trees(p).value| == 1 ==>
              p == Postorder(Trees(p).value[0]) && Evaluate(p) == Finish(EvalTree(Trees(p).value[0]))
  {
    if RunFrom([], p).Ok? {
      RunFromTrees(p);
    }
    if Trees(p).Some? {
      var ts := Trees(p).value;
      TreesPostorder(p);
      if |ts| == 1 {
        assert PostorderAll(ts) == PostorderAll([]) + Postorder(ts[0]);
        EvaluatePostorder(ts[0]);
      }
    }
  }

  // ---------------------------------------------------------------------
  // The evaluator's own errors
  // ---------------------------------------------------------------------

  /** Once a prefix of the list fails, the evaluator fails with that error. */
  lemma RunFromSticks(p: seq<Item>, k: nat)
    requires k <= |p| && RunFrom([], p[..k]).Err?
    ensures Evaluate(p) == Err(RunFrom([], p[..k]).error)
  {
    RunFromAppend([], p[..k], p[k..]);
    assert p[..k] + p[k..] == p;
  }

  /** An operator reached with fewer than two values on the stack raises
      InvalidExpression. */
  lemma MissingOperand(p: seq<Item>, k: nat)
    requires k < |p| && p[k].Op?
    requires RunFrom([], p[..k]).Ok? && |RunFrom([], p[..k]).value| < 2
    ensures Evaluate(p) == Err(InvalidExpression)
  {
    assert p[..k + 1][..k] == p[..k];
    RunFromSticks(p, k + 1);
  }

  /** An operand that is not a Python `int` (a stored non-integral result)
      raises InvalidExpression when the evaluator reaches it. */
  lemma NonIntOperand(p: seq<Item>, k: nat)
    requires k < |p| && p[k].Num? && !p[k].v.Int?
    requires RunFrom([], p[..k]).Ok?
    ensures Evaluate(p) == Err(InvalidExpression)
  {
    assert p[..k + 1][..k] == p[..k];
    RunFromSticks(p, k + 1);
  }

  /** A list holding a non-`int` operand anywhere never yields a value: the
      evaluator fails on it, if it has not failed before. */
  lemma NonIntRejected(p: seq<Item>, k: nat)
    requires k < |p| && p[k].Num? && !p[k].v.Int?
    ensures Evaluate(p).Err?
  {
    if RunFrom([], p[..k]).Ok? {
      NonIntOperand(p, k);
    } else {
      RunFromSticks(p, k);
    }
  }

  /** The evaluator fails only with InvalidExpression, with the Python
      errors of the arithmetic, or with IndexError on an empty stack. */
  lemma {:induction false} RunFromErrors(p: seq<Item>)
    ensures RunFrom([], p).Err? ==>
              RunFrom([], p).error in {InvalidExpression, ZeroDivision, FractionalPower}
    decreases |p|
  {
    if p != [] {
      RunFromErrors(p[..|p| - 1]);
    }
  }

  lemma EvaluateErrors(p: seq<Item>)
    ensures Evaluate(p).Err? ==>
              Evaluate(p).error in {InvalidExpression, ZeroDivision, FractionalPower, EmptyStack}
  {
    RunFromErrors(p);
  }
}
