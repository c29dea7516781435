/** Worked inputs for both parsers: precedence, left folding, the reach of a
    prefix operator, grouping, substitution, the index rule and the error
    cases, each stated on a concrete token list. */
module Examples {
  import opened Tokens
  import opened Nodes
  import opened Grammar
  import opened Printer
  import RoundTrip

  function N(x: real): Token { Token(NUMBER, Num(x)) }
  function L(s: string): Token { Token(LETTER, Name(s)) }
  function T(k: Kind): Token { Token(k, NoValue) }

  function Lit(x: real): Node { Number(Num(x)) }
  function Var(s: string): Node { Letter(Name(s)) }

  const NoBindings: Dialect := MathDialect(map[])

  /** `2 + 3 * 4` is `2 + (3 * 4)`. */
  lemma ProductInsideSum(d: Dialect)
    ensures Parse(d, [N(2.0), T(PLUS), N(3.0), T(MULTIPLY), N(4.0)], 0) ==
            Ok(Some(Binary(Add, Lit(2.0), Binary(Multiply, Lit(3.0), Lit(4.0)))))
  {
    var n := Binary(Add, Lit(2.0), Binary(Multiply, Lit(3.0), Lit(4.0)));
    assert Print(n, 0) == [N(2.0), T(PLUS), N(3.0), T(MULTIPLY), N(4.0)];
    RoundTrip.ParsePrint(d, n);
  }

  /** `8 - 3 - 2` is `(8 - 3) - 2`. */
  lemma DifferenceFoldsLeft(d: Dialect)
    ensures Parse(d, [N(8.0), T(MINUS), N(3.0), T(MINUS), N(2.0)], 0) ==
            Ok(Some(Binary(Subtract, Binary(Subtract, Lit(8.0), Lit(3.0)), Lit(2.0))))
  {
    var n := Binary(Subtract, Binary(Subtract, Lit(8.0), Lit(3.0)), Lit(2.0));
    assert Print(n, 0) == [N(8.0), T(MINUS), N(3.0), T(MINUS), N(2.0)];
    RoundTrip.ParsePrint(d, n);
  }

  /** `a ^ b ^ c` is `(a ^ b) ^ c`: the power loop folds left as well. */
  lemma PowerFoldsLeft()
    ensures Parse(NoBindings, [L("a"), T(POWER), L("b"), T(POWER), L("c")], 0) ==
            Ok(Some(Binary(Power, Binary(Power, Var("a"), Var("b")), Var("c"))))
  {
    var n := Binary(Power, Binary(Power, Var("a"), Var("b")), Var("c"));
    assert Print(n, 0) == [L("a"), T(POWER), L("b"), T(POWER), L("c")];
    RoundTrip.ParsePrint(NoBindings, n);
  }

  /** `sin x ^ 2` is `(sin x) ^ 2`. */
  lemma SineTakesOneFactor()
    ensures Parse(NoBindings, [T(SIN), L("x"), T(POWER), N(2.0)], 0) ==
            Ok(Some(Binary(Power, Unary(Sin, Var("x")), Lit(2.0))))
  {
    var n := Binary(Power, Unary(Sin, Var("x")), Lit(2.0));
    assert Print(n, 0) == [T(SIN), L("x"), T(POWER), N(2.0)];
    RoundTrip.ParsePrint(NoBindings, n);
  }

  /** `- 2 ^ 2` is `(-2) ^ 2`. */
  lemma MinusTakesOneFactor()
    ensures Parse(NoBindings, [T(MINUS), N(2.0), T(POWER), N(2.0)], 0) ==
            Ok(Some(Binary(Power, Unary(Minus, Lit(2.0)), Lit(2.0))))
  {
    var n := Binary(Power, Unary(Minus, Lit(2.0)), Lit(2.0));
    assert Print(n, 0) == [T(MINUS), N(2.0), T(POWER), N(2.0)];
    RoundTrip.ParsePrint(NoBindings, n);
  }

  /** `(2 + 3) * 4`: the group is the inner tree, with no node of its own. */
  lemma GroupedSum(d: Dialect)
    ensures Parse(d, [T(LPAREN), N(2.0), T(PLUS), N(3.0), T(RPAREN), T(MULTIPLY), N(4.0)], 0) ==
            Ok(Some(Binary(Multiply, Binary(Add, Lit(2.0), Lit(3.0)), Lit(4.0))))
  {
    var n := Binary(Multiply, Binary(Add, Lit(2.0), Lit(3.0)), Lit(4.0));
    assert Print(n, 0) == [T(LPAREN), N(2.0), T(PLUS), N(3.0), T(RPAREN), T(MULTIPLY), N(4.0)];
    RoundTrip.ParsePrint(d, n);
  }

  /** `[x] * y` with `x` bound to 5: the bound letter becomes the number 5,
      the unbound one stays a letter. */
  lemma BracketsAndSubstitution()
    ensures Parse(MathDialect(map["x" := 5.0]), [T(LBRACKET), L("x"), T(RBRACKET), T(MULTIPLY), L("y")], 0) ==
            Ok(Some(Binary(Multiply, Lit(5.0), Var("y"))))
  {
    var d, toks := MathDialect(map["x" := 5.0]), [T(LBRACKET), L("x"), T(RBRACKET), T(MULTIPLY), L("y")];
    assert Factor(d, toks, 1) == Ok(Parsed(Lit(5.0), 2));
    assert Expr(d, toks, 1) == Ok(Parsed(Lit(5.0), 2));
    assert Factor(d, toks, 0) == Ok(Parsed(Lit(5.0), 3));
    assert Expon(d, toks, 4) == Ok(Parsed(Var("y"), 5));
    assert Term(d, toks, 0) == Ok(Parsed(Binary(Multiply, Lit(5.0), Var("y")), 5));
  }

  /** `x 1 + y`: a letter followed by a number is an index. */
  lemma IndexedLetter()
    ensures Parse(IndexDialect, [L("x"), N(1.0), T(PLUS), L("y")], 0) ==
            Ok(Some(Binary(Add, Index(Name("x"), Lit(1.0)), Var("y"))))
  {
    var toks := [L("x"), N(1.0), T(PLUS), L("y")];
    assert Expon(IndexDialect, toks, 0) == Ok(Parsed(Index(Name("x"), Lit(1.0)), 2));
    assert Term(IndexDialect, toks, 3) == Ok(Parsed(Var("y"), 4));
  }

  /** The same tokens are a syntax error for the substitution variant: the
      factor `x` leaves `1` over. */
  lemma NoIndexWithBindings()
    ensures Parse(NoBindings, [L("x"), N(1.0), T(PLUS), L("y")], 0) == SyntaxError
  {
  }

  /** No tokens: no expression, and no error. */
  lemma EmptyInput(d: Dialect)
    ensures Parse(d, [], 0) == Ok(None)
  {
  }

  /** `( 2 ]`: the closer must match the opener. */
  lemma MismatchedCloser()
    ensures Parse(NoBindings, [T(LPAREN), N(2.0), T(RBRACKET)], 0) == SyntaxError
  {
  }

  /** `( 2`: the closer must be there. */
  lemma MissingCloser(d: Dialect)
    ensures Parse(d, [T(LPAREN), N(2.0)], 0) == SyntaxError
  {
  }

  /** `[ 2 ]` in the index variant, which has no brackets. */
  lemma NoBrackets()
    ensures Parse(IndexDialect, [T(LBRACKET), N(2.0), T(RBRACKET)], 0) == SyntaxError
  {
  }

  /** `2 +`: an operator needs its right operand. */
  lemma MissingOperand(d: Dialect)
    ensures Parse(d, [N(2.0), T(PLUS)], 0) == SyntaxError
  {
  }

  /** `2 )`: a token left over after the expression. */
  lemma LeftoverToken(d: Dialect)
    ensures Parse(d, [N(2.0), T(RPAREN)], 0) == SyntaxError
  {
  }

  /** `* 2`: a token that cannot start a factor. */
  lemma BadStart(d: Dialect)
    ensures Parse(d, [T(MULTIPLY), N(2.0)], 0) == SyntaxError
  {
  }
}
