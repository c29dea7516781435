/** What each rule of the grammar promises, one rule at a time: how the
    loops fold, what a group, a letter, a number and a prefix operator
    become, and which tokens cannot start a factor. */
module GrammarFacts {
  import opened Tokens
  import opened Nodes
  import opened Grammar

  /** The kinds of token `factor` rejects outright in a dialect. */
  function Rejected(d: Dialect): set<Kind> {
    if d.MathDialect? then {RPAREN, RBRACKET, MULTIPLY, DIVIDE, POWER}
    else {RPAREN, RBRACKET, MULTIPLY, DIVIDE, POWER, LBRACKET}
  }

  /** No token, or a token that cannot start a factor, is a syntax error. */
  lemma FactorRejects(d: Dialect, toks: seq<Token>, pos: nat)
    requires pos <= |toks|
    ensures pos == |toks| ==> Factor(d, toks, pos) == SyntaxError
    ensures pos < |toks| && toks[pos].kind in Rejected(d) ==> Factor(d, toks, pos) == SyntaxError
  {
  }

  /** A factor starts only at a token of one of the accepted kinds. */
  lemma FactorStarts(d: Dialect, toks: seq<Token>, pos: nat)
    requires pos <= |toks|
    ensures Factor(d, toks, pos).Ok? ==> pos < |toks| && toks[pos].kind !in Rejected(d)
  {
  }

  /** A NUMBER is one factor: the leaf carries the token's payload unchanged
      and only that token is consumed. */
  lemma NumberLeaf(d: Dialect, toks: seq<Token>, pos: nat)
    requires pos < |toks| && toks[pos].kind == NUMBER
    ensures Factor(d, toks, pos) == Ok(Parsed(Number(toks[pos].value), pos + 1))
  {
  }

  /** Substitution: a LETTER whose name is bound becomes a number holding
      the bound value, any other letter stays a letter; one token is consumed. */
  lemma LetterSubstituted(vars: map<string, real>, toks: seq<Token>, pos: nat)
    requires pos < |toks| && toks[pos].kind == LETTER
    ensures var v := toks[pos].value;
            Factor(MathDialect(vars), toks, pos) ==
              if v.Name? && v.s in vars then Ok(Parsed(Number(Num(vars[v.s])), pos + 1))
              else Ok(Parsed(Letter(v), pos + 1))
  {
  }

  /** Index rule: a LETTER directly followed by a NUMBER consumes both and is
      an index over that number; otherwise only the letter is consumed. */
  lemma LetterIndexed(toks: seq<Token>, pos: nat)
    requires pos < |toks| && toks[pos].kind == LETTER
    ensures pos + 1 < |toks| && toks[pos + 1].kind == NUMBER ==>
              Factor(IndexDialect, toks, pos) == Ok(Parsed(Index(toks[pos].value, Number(toks[pos + 1].value)), pos + 2))
    ensures pos + 1 == |toks| || toks[pos + 1].kind != NUMBER ==>
              Factor(IndexDialect, toks, pos) == Ok(Parsed(Letter(toks[pos].value), pos + 1))
  {
  }

  /** Grouping: after `(` (or, in the substitution variant, `[`) comes one
      expression and then the matching closer; the group is the inner tree
      itself. A missing or different closer is a syntax error. */
  lemma GroupNeedsCloser(d: Dialect, toks: seq<Token>, pos: nat, closer: Kind)
    requires pos < |toks|
    requires (toks[pos].kind == LPAREN && closer == RPAREN) ||
             (toks[pos].kind == LBRACKET && closer == RBRACKET && d.MathDialect?)
    ensures var inner := Expr(d, toks, pos + 1);
            Factor(d, toks, pos).Ok? <==>
              inner.Ok? && inner.value.next < |toks| && toks[inner.value.next].kind == closer
    ensures var inner := Expr(d, toks, pos + 1);
            Factor(d, toks, pos).Ok? ==> Factor(d, toks, pos).value == Parsed(inner.value.node, inner.value.next + 1)
  {
  }

  /** A prefix token (`+ - sin cos exp sqrt`) wraps exactly one factor. */
  lemma PrefixWrapsOneFactor(d: Dialect, toks: seq<Token>, pos: nat)
    requires pos < |toks| && toks[pos].kind in {PLUS, MINUS, SIN, COS, EXP, SQRT}
    ensures Factor(d, toks, pos).Ok? <==> Factor(d, toks, pos + 1).Ok?
    ensures Factor(d, toks, pos).Ok? ==>
              Factor(d, toks, pos) ==
              Ok(Parsed(Unary(PrefixOp(toks[pos].kind), Factor(d, toks, pos + 1).value.node), Factor(d, toks, pos + 1).value.next))
  {
  }

  /** So a prefix operator binds tighter than `^` and every other binary
      operator: what follows its one factor applies to the whole prefixed
      tree (`sin x ^ 2` is `(sin x) ^ 2`). */
  lemma PrefixBindsTighter(d: Dialect, toks: seq<Token>, pos: nat, operand: Node, next: nat)
    requires pos < |toks| && toks[pos].kind in {PLUS, MINUS, SIN, COS, EXP, SQRT}
    requires Factor(d, toks, pos + 1) == Ok(Parsed(operand, next))
    ensures Expon(d, toks, pos) == ExponRest(d, toks, next, Unary(PrefixOp(toks[pos].kind), operand))
  {
    assert Factor(d, toks, pos) == Ok(Parsed(Unary(PrefixOp(toks[pos].kind), operand), next));
  }

  // Left folding. Each loop takes the tree built so far as the left operand
  // of the next operator, so three operands of one level group as
  // `(a op b) op c`.

  lemma ExprFoldsLeft(d: Dialect, toks: seq<Token>, pos: nat, a: Node, b: Node, c: Node, p1: nat, p2: nat, p3: nat)
    requires pos <= |toks|
    requires Term(d, toks, pos) == Ok(Parsed(a, p1)) && p1 < |toks| && toks[p1].kind in {PLUS, MINUS}
    requires Term(d, toks, p1 + 1) == Ok(Parsed(b, p2)) && p2 < |toks| && toks[p2].kind in {PLUS, MINUS}
    requires Term(d, toks, p2 + 1) == Ok(Parsed(c, p3)) && (p3 == |toks| || toks[p3].kind !in {PLUS, MINUS})
    ensures Expr(d, toks, pos) ==
              Ok(Parsed(Binary(AddOrSubtract(toks[p2].kind), Binary(AddOrSubtract(toks[p1].kind), a, b), c), p3))
  {
    ExprRestUnfold(d, toks, p1, a, b, p2);
    ExprRestUnfold(d, toks, p2, Binary(AddOrSubtract(toks[p1].kind), a, b), c, p3);
  }

  lemma TermFoldsLeft(d: Dialect, toks: seq<Token>, pos: nat, a: Node, b: Node, c: Node, p1: nat, p2: nat, p3: nat)
    requires pos <= |toks|
    requires Expon(d, toks, pos) == Ok(Parsed(a, p1)) && p1 < |toks| && toks[p1].kind in {MULTIPLY, DIVIDE}
    requires Expon(d, toks, p1 + 1) == Ok(Parsed(b, p2)) && p2 < |toks| && toks[p2].kind in {MULTIPLY, DIVIDE}
    requires Expon(d, toks, p2 + 1) == Ok(Parsed(c, p3)) && (p3 == |toks| || toks[p3].kind !in {MULTIPLY, DIVIDE})
    ensures Term(d, toks, pos) ==
              Ok(Parsed(Binary(MultiplyOrDivide(toks[p2].kind), Binary(MultiplyOrDivide(toks[p1].kind), a, b), c), p3))
  {
    TermRestUnfold(d, toks, p1, a, b, p2);
    TermRestUnfold(d, toks, p2, Binary(MultiplyOrDivide(toks[p1].kind), a, b), c, p3);
  }

  lemma ExponFoldsLeft(d: Dialect, toks: seq<Token>, pos: nat, a: Node, b: Node, c: Node, p1: nat, p2: nat, p3: nat)
    requires pos <= |toks|
    requires Factor(d, toks, pos) == Ok(Parsed(a, p1)) && p1 < |toks| && toks[p1].kind == POWER
    requires Factor(d, toks, p1 + 1) == Ok(Parsed(b, p2)) && p2 < |toks| && toks[p2].kind == POWER
    requires Factor(d, toks, p2 + 1) == Ok(Parsed(c, p3)) && (p3 == |toks| || toks[p3].kind != POWER)
    ensures Expon(d, toks, pos) == Ok(Parsed(Binary(Power, Binary(Power, a, b), c), p3))
  {
    ExponRestUnfold(d, toks, p1, a, b, p2);
    ExponRestUnfold(d, toks, p2, Binary(Power, a, b), c, p3);
  }

  // One turn of each loop: an operator token and a successful operand
  // carry the loop on from after the operand, with the operand folded in.

  lemma ExprRestUnfold(d: Dialect, toks: seq<Token>, pos: nat, acc: Node, right: Node, next: nat)
    requires pos < |toks| && toks[pos].kind in {PLUS, MINUS}
    requires Term(d, toks, pos + 1) == Ok(Parsed(right, next))
    ensures ExprRest(d, toks, pos, acc) == ExprRest(d, toks, next, Binary(AddOrSubtract(toks[pos].kind), acc, right))
  {
  }

  lemma TermRestUnfold(d: Dialect, toks: seq<Token>, pos: nat, acc: Node, right: Node, next: nat)
    requires pos < |toks| && toks[pos].kind in {MULTIPLY, DIVIDE}
    requires Expon(d, toks, pos + 1) == Ok(Parsed(right, next))
    ensures TermRest(d, toks, pos, acc) == TermRest(d, toks, next, Binary(MultiplyOrDivide(toks[pos].kind), acc, right))
  {
  }

  lemma ExponRestUnfold(d: Dialect, toks: seq<Token>, pos: nat, acc: Node, right: Node, next: nat)
    requires pos < |toks| && toks[pos].kind == POWER
    requires Factor(d, toks, pos + 1) == Ok(Parsed(right, next))
    ensures ExponRest(d, toks, pos, acc) == ExponRest(d, toks, next, Binary(Power, acc, right))
  {
  }
}
