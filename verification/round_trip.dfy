/** Parsing inverts printing: for every tree the printer can render, the
    grammar reads the printed tokens back as that tree, with bound letters
    substituted. Because the printer leaves out every parenthesis that
    precedence and left associativity make redundant, this is the general
    form of "`*` binds tighter than `+`", "`a - b - c` is `(a - b) - c`",
    "`a ^ b ^ c` is `(a ^ b) ^ c`" and "a prefix operator takes one factor". */
module RoundTrip {
  import opened Tokens
  import opened Nodes
  import opened Grammar
  import opened Printer
  import GrammarFacts

  /** `part` stands in `toks` from position `pos` on, token by token. */
  predicate Occurs(toks: seq<Token>, pos: nat, part: seq<Token>)
    decreases |part|
  {
    pos + |part| <= |toks| &&
    (|part| > 0 ==> toks[pos] == part[0] && Occurs(toks, pos + 1, part[1..]))
  }

  lemma {:induction false} OccursLeft(toks: seq<Token>, pos: nat, a: seq<Token>, b: seq<Token>)
    requires Occurs(toks, pos, a + b)
    ensures Occurs(toks, pos, a)
    decreases |a|
  {
    if |a| > 0 {
      assert (a + b)[1..] == a[1..] + b;
      OccursLeft(toks, pos + 1, a[1..], b);
    }
  }

  lemma {:induction false} OccursRight(toks: seq<Token>, pos: nat, a: seq<Token>, b: seq<Token>)
    requires Occurs(toks, pos, a + b)
    ensures Occurs(toks, pos + |a|, b)
    decreases |a|
  {
    if |a| > 0 {
      assert (a + b)[1..] == a[1..] + b;
      OccursRight(toks, pos + 1, a[1..], b);
    } else {
      assert a + b == b;
    }
  }

  lemma OccursSplit(toks: seq<Token>, pos: nat, a: seq<Token>, b: seq<Token>)
    requires Occurs(toks, pos, a + b)
    ensures Occurs(toks, pos, a) && Occurs(toks, pos + |a|, b)
  {
    OccursLeft(toks, pos, a, b);
    OccursRight(toks, pos, a, b);
  }

  lemma {:induction false} OccursRest(toks: seq<Token>, pos: nat)
    requires pos <= |toks|
    ensures Occurs(toks, pos, toks[pos..])
    decreases |toks| - pos
  {
    if pos < |toks| {
      assert toks[pos..][1..] == toks[pos + 1..];
      OccursRest(toks, pos + 1);
    }
  }

  /** The lowest binding power of a construct that a token of kind `k` can
      continue: `+ -` continue an `expr`, `* /` a `term`, `^` an `expon`, and
      a NUMBER continues a letter into an index; any other token continues
      nothing. */
  function Continues(k: Kind): int {
    match k
    case PLUS | MINUS => 0
    case MULTIPLY | DIVIDE => 1
    case POWER => 2
    case NUMBER => 3
    case _ => -1
  }

  /** An operator's token continues a construct of the operator's own
      binding power, and the loop of that level reads it back as that operator. */
  lemma ContinuesOperator(op: BinOp)
    ensures Continues(BinaryKind(op)) == Prec(op)
    ensures Prec(op) == 0 ==> BinaryKind(op) in {PLUS, MINUS} && AddOrSubtract(BinaryKind(op)) == op
    ensures Prec(op) == 1 ==> BinaryKind(op) in {MULTIPLY, DIVIDE} && MultiplyOrDivide(BinaryKind(op)) == op
  {
    match op
    case Add =>
    case Subtract =>
    case Multiply =>
    case Divide =>
    case Power =>
  }

  /** The token at `p`, if any, cannot continue a construct of binding power `level`. */
  predicate Follows(toks: seq<Token>, p: nat, level: nat) {
    p <= |toks| && (p < |toks| ==> Continues(toks[p].kind) < level)
  }

  /** Termination measure for the four mutually recursive lemmas below: on
      the same tree, each lemma hands over to one whose rank is smaller, until
      the tree's own level is reached and the recursion goes to subtrees. */
  function Rank(n: Node, level: nat): nat {
    if level <= Level(n) then Level(n) - level
    else if level <= Level(n) + 4 then Level(n) + 4 - level
    else 0
  }

  // How a printed tree lies in the token list.

  /** The number of tokens `Print(n, level)` produces. */
  function Width(n: Node, level: nat): nat {
    var body :=
      match n
      case Number(_) => 1
      case Letter(_) => 1
      case Index(_, index) => 1 + Width(index, 3)
      case Binary(op, left, right) => Width(left, Prec(op)) + 1 + Width(right, Prec(op) + 1)
      case Unary(_, operand) => 1 + Width(operand, 3);
    if Level(n) < level then body + 2 else body
  }

  /** The tokens of `Print(n, level)` stand in `toks` from `pos` on, read
      one construct at a time: each operand at the position where its
      printed form starts. */
  predicate Laid(toks: seq<Token>, pos: nat, n: Node, level: nat)
    decreases n, if Level(n) < level then 1 else 0
  {
    if Level(n) < level then
      pos + 1 + Width(n, 0) < |toks| && toks[pos] == Punct(LPAREN) &&
      Laid(toks, pos + 1, n, 0) && toks[pos + 1 + Width(n, 0)] == Punct(RPAREN)
    else
      match n
      case Number(v) => pos < |toks| && toks[pos] == Token(NUMBER, v)
      case Letter(v) => pos < |toks| && toks[pos] == Token(LETTER, v)
      case Index(v, index) => pos < |toks| && toks[pos] == Token(LETTER, v) && Laid(toks, pos + 1, index, 3)
      case Binary(op, left, right) =>
        var mid := pos + Width(left, Prec(op));
        Laid(toks, pos, left, Prec(op)) && mid < |toks| && toks[mid] == Punct(BinaryKind(op)) &&
        Laid(toks, mid + 1, right, Prec(op) + 1)
      case Unary(op, operand) => pos < |toks| && toks[pos] == Punct(PrefixKind(op)) && Laid(toks, pos + 1, operand, 3)
  }

  /** A printed tree is laid out as `Laid` describes, over `Width` tokens. */
  lemma {:induction false} PrintLaid(toks: seq<Token>, pos: nat, n: Node, level: nat)
    requires Occurs(toks, pos, Print(n, level))
    ensures Laid(toks, pos, n, level) && Width(n, level) == |Print(n, level)|
    decreases n, if Level(n) < level then 1 else 0, 1
  {
    if Level(n) < level {
      PrintLaidParen(toks, pos, n, level);
    } else if n.Binary? {
      PrintLaidBinary(toks, pos, n, level);
    } else if n.Index? || n.Unary? {
      PrintLaidPrefix(toks, pos, n, level);
    }
  }

  lemma {:induction false} PrintLaidParen(toks: seq<Token>, pos: nat, n: Node, level: nat)
    requires Level(n) < level && Occurs(toks, pos, Print(n, level))
    ensures Laid(toks, pos, n, level) && Width(n, level) == |Print(n, level)|
    decreases n, 1, 0
  {
    var inner := Print(n, 0);
    assert Print(n, level) == [Punct(LPAREN)] + inner + [Punct(RPAREN)];
    OccursSplit(toks, pos, [Punct(LPAREN)] + inner, [Punct(RPAREN)]);
    OccursSplit(toks, pos, [Punct(LPAREN)], inner);
    PrintLaid(toks, pos + 1, n, 0);
  }

  lemma {:induction false} PrintLaidBinary(toks: seq<Token>, pos: nat, n: Node, level: nat)
    requires n.Binary? && level <= Level(n) && Occurs(toks, pos, Print(n, level))
    ensures Laid(toks, pos, n, level) && Width(n, level) == |Print(n, level)|
    decreases n, 0, 0
  {
    var l, r := Print(n.left, Prec(n.op)), Print(n.right, Prec(n.op) + 1);
    var opTok := Punct(BinaryKind(n.op));
    assert Print(n, level) == l + [opTok] + r;
    OccursSplit(toks, pos, l + [opTok], r);
    OccursSplit(toks, pos, l, [opTok]);
    PrintLaid(toks, pos, n.left, Prec(n.op));
    PrintLaid(toks, pos + |l| + 1, n.right, Prec(n.op) + 1);
  }

  lemma {:induction false} PrintLaidPrefix(toks: seq<Token>, pos: nat, n: Node, level: nat)
    requires (n.Index? || n.Unary?) && level <= Level(n) && Occurs(toks, pos, Print(n, level))
    ensures Laid(toks, pos, n, level) && Width(n, level) == |Print(n, level)|
    decreases n, 0, 0
  {
    var child := if n.Index? then n.index else n.operand;
    OccursSplit(toks, pos, [Print(n, level)[0]], Print(child, 3));
    PrintLaid(toks, pos + 1, child, 3);
  }

  lemma SameLevel(toks: seq<Token>, pos: nat, n: Node, level: nat, other: nat)
    requires (level <= Level(n)) == (other <= Level(n))
    ensures Laid(toks, pos, n, level) == Laid(toks, pos, n, other)
    ensures Width(n, level) == Width(n, other)
  {
  }

  /** A binary tree at its own level that spans `toks[pos..end]`: where its
      operator stands, and its two operands on either side. */
  lemma BinaryParts(d: Dialect, n: Node, toks: seq<Token>, pos: nat, end: nat, level: nat) returns (mid: nat)
    requires n.Binary? && Prec(n.op) == level
    requires Printable(d, n) && Laid(toks, pos, n, level) && end == pos + Width(n, level)
    ensures mid == pos + Width(n.left, level) && end == mid + 1 + Width(n.right, level + 1)
    ensures mid < |toks| && toks[mid].kind == BinaryKind(n.op) && Follows(toks, mid, level + 1)
    ensures Printable(d, n.left) && Laid(toks, pos, n.left, level)
    ensures Printable(d, n.right) && Laid(toks, mid + 1, n.right, level + 1)
    ensures Resolve(d, n) == Binary(n.op, Resolve(d, n.left), Resolve(d, n.right))
  {
    mid := pos + Width(n.left, level);
    ContinuesOperator(n.op);
  }

  // The loops' exits, and the calls that start them.

  lemma RestStop(d: Dialect, toks: seq<Token>, pos: nat, acc: Node)
    requires pos <= |toks|
    ensures Follows(toks, pos, 2) ==> ExponRest(d, toks, pos, acc) == Ok(Parsed(acc, pos))
    ensures Follows(toks, pos, 1) ==> TermRest(d, toks, pos, acc) == Ok(Parsed(acc, pos))
    ensures Follows(toks, pos, 0) ==> ExprRest(d, toks, pos, acc) == Ok(Parsed(acc, pos))
  {
  }

  lemma Starts(d: Dialect, toks: seq<Token>, pos: nat, first: Node, next: nat)
    requires pos <= |toks|
    ensures Term(d, toks, pos) == Ok(Parsed(first, next)) ==> Expr(d, toks, pos) == ExprRest(d, toks, next, first)
    ensures Expon(d, toks, pos) == Ok(Parsed(first, next)) ==> Term(d, toks, pos) == TermRest(d, toks, next, first)
    ensures Factor(d, toks, pos) == Ok(Parsed(first, next)) ==> Expon(d, toks, pos) == ExponRest(d, toks, next, first)
  {
  }

  // The four levels of the grammar read back what the printer wrote at that
  // level. Each level either meets an operator of its own (the `...Operator`
  // lemma) or hands the whole tree to the next level.

  lemma {:induction false} ExprPrints(d: Dialect, n: Node, toks: seq<Token>, pos: nat, end: nat)
    requires Printable(d, n) && Laid(toks, pos, n, 0) && end == pos + Width(n, 0) && Follows(toks, end, 1)
    ensures Expr(d, toks, pos) == ExprRest(d, toks, end, Resolve(d, n))
    decreases n, Rank(n, 0), 1
  {
    if Level(n) == 0 {
      var mid := BinaryParts(d, n, toks, pos, end, 0);
      ExprOperator(d, n.op, n.left, n.right, toks, pos, mid, end);
    } else {
      SameLevel(toks, pos, n, 0, 1);
      TermPrints(d, n, toks, pos, end);
      RestStop(d, toks, end, Resolve(d, n));
      Starts(d, toks, pos, Resolve(d, n), end);
    }
  }

  lemma {:induction false} ExprOperator(d: Dialect, op: BinOp, left: Node, right: Node,
                                        toks: seq<Token>, pos: nat, mid: nat, end: nat)
    requires Prec(op) == 0 && mid < |toks| && toks[mid].kind == BinaryKind(op)
    requires Printable(d, left) && Laid(toks, pos, left, 0)
    requires mid == pos + Width(left, 0) && Follows(toks, mid, 1)
    requires Printable(d, right) && Laid(toks, mid + 1, right, 1)
    requires end == mid + 1 + Width(right, 1) && Follows(toks, end, 1)
    ensures Expr(d, toks, pos) == ExprRest(d, toks, end, Binary(op, Resolve(d, left), Resolve(d, right)))
    decreases Binary(op, left, right), 0, 0
  {
    ExprPrints(d, left, toks, pos, mid);
    TermPrints(d, right, toks, mid + 1, end);
    RestStop(d, toks, end, Resolve(d, right));
    assert toks[mid].kind in {PLUS, MINUS} && AddOrSubtract(toks[mid].kind) == op by { ContinuesOperator(op); }
    GrammarFacts.ExprRestUnfold(d, toks, mid, Resolve(d, left), Resolve(d, right), end);
  }

  lemma {:induction false} TermPrints(d: Dialect, n: Node, toks: seq<Token>, pos: nat, end: nat)
    requires Printable(d, n) && Laid(toks, pos, n, 1) && end == pos + Width(n, 1) && Follows(toks, end, 2)
    ensures Term(d, toks, pos) == TermRest(d, toks, end, Resolve(d, n))
    decreases n, Rank(n, 1), 1
  {
    if Level(n) == 1 {
      var mid := BinaryParts(d, n, toks, pos, end, 1);
      TermOperator(d, n.op, n.left, n.right, toks, pos, mid, end);
    } else {
      SameLevel(toks, pos, n, 1, 2);
      ExponPrints(d, n, toks, pos, end);
      RestStop(d, toks, end, Resolve(d, n));
      Starts(d, toks, pos, Resolve(d, n), end);
    }
  }

  lemma {:induction false} TermOperator(d: Dialect, op: BinOp, left: Node, right: Node,
                                        toks: seq<Token>, pos: nat, mid: nat, end: nat)
    requires Prec(op) == 1 && mid < |toks| && toks[mid].kind == BinaryKind(op)
    requires Printable(d, left) && Laid(toks, pos, left, 1)
    requires mid == pos + Width(left, 1) && Follows(toks, mid, 2)
    requires Printable(d, right) && Laid(toks, mid + 1, right, 2)
    requires end == mid + 1 + Width(right, 2) && Follows(toks, end, 2)
    ensures Term(d, toks, pos) == TermRest(d, toks, end, Binary(op, Resolve(d, left), Resolve(d, right)))
    decreases Binary(op, left, right), 0, 0
  {
    TermPrints(d, left, toks, pos, mid);
    ExponPrints(d, right, toks, mid + 1, end);
    RestStop(d, toks, end, Resolve(d, right));
    assert toks[mid].kind in {MULTIPLY, DIVIDE} && MultiplyOrDivide(toks[mid].kind) == op by { ContinuesOperator(op); }
    GrammarFacts.TermRestUnfold(d, toks, mid, Resolve(d, left), Resolve(d, right), end);
  }

  lemma {:induction false} ExponPrints(d: Dialect, n: Node, toks: seq<Token>, pos: nat, end: nat)
    requires Printable(d, n) && Laid(toks, pos, n, 2) && end == pos + Width(n, 2) && Follows(toks, end, 3)
    ensures Expon(d, toks, pos) == ExponRest(d, toks, end, Resolve(d, n))
    decreases n, Rank(n, 2), 1
  {
    if Level(n) == 2 {
      var mid := BinaryParts(d, n, toks, pos, end, 2);
      ExponOperator(d, n.left, n.right, toks, pos, mid, end);
    } else {
      SameLevel(toks, pos, n, 2, 3);
      FactorPrints(d, n, toks, pos, end);
      Starts(d, toks, pos, Resolve(d, n), end);
    }
  }

  lemma {:induction false} ExponOperator(d: Dialect, left: Node, right: Node,
                                         toks: seq<Token>, pos: nat, mid: nat, end: nat)
    requires mid < |toks| && toks[mid].kind == POWER
    requires Printable(d, left) && Laid(toks, pos, left, 2)
    requires mid == pos + Width(left, 2) && Follows(toks, mid, 3)
    requires Printable(d, right) && Laid(toks, mid + 1, right, 3)
    requires end == mid + 1 + Width(right, 3) && Follows(toks, end, 3)
    ensures Expon(d, toks, pos) == ExponRest(d, toks, end, Binary(Power, Resolve(d, left), Resolve(d, right)))
    decreases Binary(Power, left, right), 0, 0
  {
    ExponPrints(d, left, toks, pos, mid);
    FactorPrints(d, right, toks, mid + 1, end);
    GrammarFacts.ExponRestUnfold(d, toks, mid, Resolve(d, left), Resolve(d, right), end);
  }

  lemma {:induction false} FactorPrints(d: Dialect, n: Node, toks: seq<Token>, pos: nat, end: nat)
    requires Printable(d, n) && Laid(toks, pos, n, 3) && end == pos + Width(n, 3) && Follows(toks, end, 3)
    ensures Factor(d, toks, pos) == Ok(Parsed(Resolve(d, n), end))
    decreases n, Rank(n, 3), 1
  {
    if Level(n) < 3 {
      FactorGroup(d, n, toks, pos, end);
    } else if n.Unary? {
      FactorPrefix(d, n, toks, pos, end);
    } else {
      FactorLeaf(d, n, toks, pos, end);
    }
  }

  lemma {:induction false} FactorGroup(d: Dialect, n: Node, toks: seq<Token>, pos: nat, end: nat)
    requires Level(n) < 3
    requires Printable(d, n) && Laid(toks, pos, n, 3) && end == pos + Width(n, 3)
    ensures Factor(d, toks, pos) == Ok(Parsed(Resolve(d, n), end))
    decreases n, Rank(n, 3), 0
  {
    ExprPrints(d, n, toks, pos + 1, end - 1);
    RestStop(d, toks, end - 1, Resolve(d, n));
  }

  lemma {:induction false} FactorPrefix(d: Dialect, n: Node, toks: seq<Token>, pos: nat, end: nat)
    requires n.Unary?
    requires Printable(d, n) && Laid(toks, pos, n, 3) && end == pos + Width(n, 3) && Follows(toks, end, 3)
    ensures Factor(d, toks, pos) == Ok(Parsed(Resolve(d, n), end))
    decreases n, Rank(n, 3), 0
  {
    FactorPrints(d, n.operand, toks, pos + 1, end);
    assert toks[pos].kind == PrefixKind(n.uop);
    assert PrefixOp(PrefixKind(n.uop)) == n.uop;
  }

  lemma FactorLeaf(d: Dialect, n: Node, toks: seq<Token>, pos: nat, end: nat)
    requires n.Number? || n.Letter? || n.Index?
    requires Printable(d, n) && Laid(toks, pos, n, 3) && end == pos + Width(n, 3) && Follows(toks, end, 3)
    ensures Factor(d, toks, pos) == Ok(Parsed(Resolve(d, n), end))
  {
  }

  /** Round trip: the whole printed token list parses back to the tree,
      with every bound letter replaced by its number. */
  lemma RoundTrip(d: Dialect, n: Node)
    requires Printable(d, n)
    ensures Parse(d, Print(n, 0), 0) == Ok(Some(Resolve(d, n)))
  {
    var toks := Print(n, 0);
    OccursRest(toks, 0);
    assert toks[0..] == toks;
    PrintLaid(toks, 0, n, 0);
    ExprPrints(d, n, toks, 0, |toks|);
    RestStop(d, toks, |toks|, Resolve(d, n));
  }

  /** Substitution leaves alone every tree the parser can build. */
  lemma {:induction false} ResolveKeepsAdmissible(d: Dialect, n: Node)
    requires Admissible(d, n)
    ensures Printable(d, n) && Resolve(d, n) == n
  {
    match n
    case Number(_) =>
    case Letter(_) =>
    case Index(_, index) => ResolveKeepsAdmissible(d, index);
    case Binary(_, left, right) =>
      ResolveKeepsAdmissible(d, left);
      ResolveKeepsAdmissible(d, right);
    case Unary(_, operand) => ResolveKeepsAdmissible(d, operand);
  }

  /** Parsing is a left inverse of printing on every tree the parser can return. */
  lemma ParsePrint(d: Dialect, n: Node)
    requires Admissible(d, n)
    ensures Parse(d, Print(n, 0), 0) == Ok(Some(n))
  {
    ResolveKeepsAdmissible(d, n);
    RoundTrip(d, n);
  }
}
