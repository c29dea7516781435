/** The leaves of a parsed tree are the NUMBER and LETTER tokens it was
    read from, in order: every grammar rule keeps the operands in the order
    the tokens give them, drops only punctuation and operators, and changes
    a payload only by substituting a bound letter. Unlike the round trip,
    this holds for any token list, redundant parentheses included. */
module LeafOrder {
  import opened Tokens
  import opened Nodes
  import opened Grammar

  /** The payloads of a tree's leaves, left to right; an index contributes
      its name, then its number. */
  function Leaves(n: Node): seq<Value> {
    match n
    case Number(v) => [v]
    case Letter(v) => [v]
    case Index(v, index) => [v] + Leaves(index)
    case Binary(_, left, right) => Leaves(left) + Leaves(right)
    case Unary(_, operand) => Leaves(operand)
  }

  /** What one token adds to the leaves: a number its payload, a letter its
      payload or, when the dialect binds its name, the bound value; any other
      token nothing. */
  function Payload(d: Dialect, t: Token): (vs: seq<Value>)
    ensures |vs| == if t.kind in {NUMBER, LETTER} then 1 else 0
  {
    if t.kind == NUMBER then [t.value]
    else if t.kind == LETTER then
      if d.MathDialect? && IsBound(d.vars, t.value) then [Num(d.vars[t.value.s])] else [t.value]
    else []
  }

  /** The payloads of the tokens from `i` up to (not including) `j`, in order. */
  function Payloads(d: Dialect, toks: seq<Token>, i: nat, j: nat): seq<Value>
    requires i <= j <= |toks|
    decreases j - i
  {
    if i == j then [] else Payload(d, toks[i]) + Payloads(d, toks, i + 1, j)
  }

  /** Payloads of adjacent stretches of a token list add up. */
  lemma {:induction false} PayloadsSplit(d: Dialect, toks: seq<Token>, i: nat, j: nat, k: nat)
    requires i <= j <= k <= |toks|
    ensures Payloads(d, toks, i, k) == Payloads(d, toks, i, j) + Payloads(d, toks, j, k)
    decreases j - i
  {
    if i < j {
      PayloadsSplit(d, toks, i + 1, j, k);
    }
  }

  /** One turn of a loop: the operator token at `pos` adds no leaf, so the
      leaves gathered so far followed by the operand's (from `pos + 1` to
      `mid`) and the rest's (from `mid` to `end`) are the old leaves
      followed by everything from `pos` to `end`. */
  lemma StepLeaves(d: Dialect, toks: seq<Token>, pos: nat, mid: nat, end: nat, acc: seq<Value>, operand: seq<Value>, result: seq<Value>)
    requires pos < mid <= end <= |toks| && Payload(d, toks[pos]) == []
    requires operand == Payloads(d, toks, pos + 1, mid)
    requires result == acc + operand + Payloads(d, toks, mid, end)
    ensures result == acc + Payloads(d, toks, pos, end)
  {
    PayloadsSplit(d, toks, pos + 1, mid, end);
  }

  // One lemma per grammar function, with the same recursion and the same
  // termination measure as the function it follows.

  lemma {:induction false} ExprLeaves(d: Dialect, toks: seq<Token>, pos: nat)
    requires pos <= |toks|
    ensures var r := Expr(d, toks, pos);
            r.Ok? ==> Leaves(r.value.node) == Payloads(d, toks, pos, r.value.next)
    decreases |toks| - pos, 3
  {
    match Term(d, toks, pos)
    case SyntaxError =>
    case Ok(first) =>
      TermLeaves(d, toks, pos);
      ExprRestLeaves(d, toks, first.next, first.node);
      var r := ExprRest(d, toks, first.next, first.node);
      if r.Ok? {
        PayloadsSplit(d, toks, pos, first.next, r.value.next);
      }
  }

  lemma {:induction false} ExprRestLeaves(d: Dialect, toks: seq<Token>, pos: nat, acc: Node)
    requires pos <= |toks|
    ensures var r := ExprRest(d, toks, pos, acc);
            r.Ok? ==> Leaves(r.value.node) == Leaves(acc) + Payloads(d, toks, pos, r.value.next)
    decreases |toks| - pos, 3
  {
    if pos < |toks| && toks[pos].kind in {PLUS, MINUS} {
      match Term(d, toks, pos + 1)
      case SyntaxError =>
      case Ok(right) =>
        var next := Binary(AddOrSubtract(toks[pos].kind), acc, right.node);
        TermLeaves(d, toks, pos + 1);
        ExprRestLeaves(d, toks, right.next, next);
        var r := ExprRest(d, toks, right.next, next);
        assert ExprRest(d, toks, pos, acc) == r;
        if r.Ok? {
          StepLeaves(d, toks, pos, right.next, r.value.next, Leaves(acc), Leaves(right.node), Leaves(r.value.node));
        }
    }
  }

  lemma {:induction false} TermLeaves(d: Dialect, toks: seq<Token>, pos: nat)
    requires pos <= |toks|
    ensures var r := Term(d, toks, pos);
            r.Ok? ==> Leaves(r.value.node) == Payloads(d, toks, pos, r.value.next)
    decreases |toks| - pos, 2
  {
    match Expon(d, toks, pos)
    case SyntaxError =>
    case Ok(first) =>
      ExponLeaves(d, toks, pos);
      TermRestLeaves(d, toks, first.next, first.node);
      var r := TermRest(d, toks, first.next, first.node);
      if r.Ok? {
        PayloadsSplit(d, toks, pos, first.next, r.value.next);
      }
  }

  lemma {:induction false} TermRestLeaves(d: Dialect, toks: seq<Token>, pos: nat, acc: Node)
    requires pos <= |toks|
    ensures var r := TermRest(d, toks, pos, acc);
            r.Ok? ==> Leaves(r.value.node) == Leaves(acc) + Payloads(d, toks, pos, r.value.next)
    decreases |toks| - pos, 2
  {
    if pos < |toks| && toks[pos].kind in {MULTIPLY, DIVIDE} {
      match Expon(d, toks, pos + 1)
      case SyntaxError =>
      case Ok(right) =>
        var next := Binary(MultiplyOrDivide(toks[pos].kind), acc, right.node);
        ExponLeaves(d, toks, pos + 1);
        TermRestLeaves(d, toks, right.next, next);
        var r := TermRest(d, toks, right.next, next);
        assert TermRest(d, toks, pos, acc) == r;
        if r.Ok? {
          StepLeaves(d, toks, pos, right.next, r.value.next, Leaves(acc), Leaves(right.node), Leaves(r.value.node));
        }
    }
  }

  lemma {:induction false} ExponLeaves(d: Dialect, toks: seq<Token>, pos: nat)
    requires pos <= |toks|
    ensures var r := Expon(d, toks, pos);
            r.Ok? ==> Leaves(r.value.node) == Payloads(d, toks, pos, r.value.next)
    decreases |toks| - pos, 1
  {
    match Factor(d, toks, pos)
    case SyntaxError =>
    case Ok(first) =>
      FactorLeaves(d, toks, pos);
      ExponRestLeaves(d, toks, first.next, first.node);
      var r := ExponRest(d, toks, first.next, first.node);
      if r.Ok? {
        PayloadsSplit(d, toks, pos, first.next, r.value.next);
      }
  }

  lemma {:induction false} ExponRestLeaves(d: Dialect, toks: seq<Token>, pos: nat, acc: Node)
    requires pos <= |toks|
    ensures var r := ExponRest(d, toks, pos, acc);
            r.Ok? ==> Leaves(r.value.node) == Leaves(acc) + Payloads(d, toks, pos, r.value.next)
    decreases |toks| - pos, 1
  {
    if pos < |toks| && toks[pos].kind == POWER {
      match Factor(d, toks, pos + 1)
      case SyntaxError =>
      case Ok(right) =>
        var next := Binary(Power, acc, right.node);
        FactorLeaves(d, toks, pos + 1);
        ExponRestLeaves(d, toks, right.next, next);
        var r := ExponRest(d, toks, right.next, next);
        assert ExponRest(d, toks, pos, acc) == r;
        if r.Ok? {
          StepLeaves(d, toks, pos, right.next, r.value.next, Leaves(acc), Leaves(right.node), Leaves(r.value.node));
        }
    }
  }

  lemma {:induction false} GroupLeaves(d: Dialect, toks: seq<Token>, pos: nat, closer: Kind)
    requires pos <= |toks| && closer in {RPAREN, RBRACKET}
    ensures var r := Group(d, toks, pos, closer);
            r.Ok? ==> Leaves(r.value.node) == Payloads(d, toks, pos, r.value.next)
    decreases |toks| - pos, 4
  {
    ExprLeaves(d, toks, pos);
    var r := Group(d, toks, pos, closer);
    if r.Ok? {
      var inner := Expr(d, toks, pos).value;
      PayloadsSplit(d, toks, pos, inner.next, inner.next + 1);
    }
  }

  lemma {:induction false} PrefixedLeaves(d: Dialect, toks: seq<Token>, pos: nat, op: UnOp)
    requires pos <= |toks|
    ensures var r := Prefixed(d, toks, pos, op);
            r.Ok? ==> Leaves(r.value.node) == Payloads(d, toks, pos, r.value.next)
    decreases |toks| - pos, 1
  {
    FactorLeaves(d, toks, pos);
  }

  lemma {:induction false} FactorLeaves(d: Dialect, toks: seq<Token>, pos: nat)
    requires pos <= |toks|
    ensures var r := Factor(d, toks, pos);
            r.Ok? ==> Leaves(r.value.node) == Payloads(d, toks, pos, r.value.next)
    decreases |toks| - pos, 0
  {
    var r := Factor(d, toks, pos);
    if r.Ok? {
      var t := toks[pos];
      match t.kind
      case LPAREN =>
        GroupLeaves(d, toks, pos + 1, RPAREN);
        PayloadsSplit(d, toks, pos, pos + 1, r.value.next);
      case LBRACKET =>
        GroupLeaves(d, toks, pos + 1, RBRACKET);
        PayloadsSplit(d, toks, pos, pos + 1, r.value.next);
      case NUMBER =>
      case LETTER =>
        if r.value.next == pos + 2 {
          PayloadsSplit(d, toks, pos, pos + 1, pos + 2);
        }
      case PLUS | MINUS | SIN | COS | EXP | SQRT =>
        PrefixedLeaves(d, toks, pos + 1, PrefixOp(t.kind));
        PayloadsSplit(d, toks, pos, pos + 1, r.value.next);
      case RPAREN | RBRACKET | MULTIPLY | DIVIDE | POWER =>
    }
  }

  /** A parsed expression's leaves are the payloads of all its tokens, in
      order, with bound letters substituted. */
  lemma ParseLeaves(d: Dialect, toks: seq<Token>)
    ensures var r := Parse(d, toks, 0);
            r.Ok? && r.value.Some? ==> Leaves(r.value.value) == Payloads(d, toks, 0, |toks|)
  {
    if toks != [] {
      ExprLeaves(d, toks, 0);
    }
  }
}
