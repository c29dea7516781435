/** The parser of src/parser_.py: the same cursor and the same `expr`,
    `term` and `expon` loops as module MathParser, without bindings; its
    `factor` knows only `( )` grouping and reads a letter followed by a
    number as an index. Each method is proved to do exactly what the
    matching function of module Grammar describes for the index variant. */
module IndexParser {
  import opened Tokens
  import opened Nodes
  import opened Grammar

  class Parser {
    /** The tokens, in order; the cursor `pos` stands on the current token,
        and `pos == |tokens|` means there is none left. */
    const tokens: seq<Token>
    var pos: nat

    ghost predicate Valid()
      reads this
    {
      pos <= |tokens|
    }

    /** Stands on the first token. */
    constructor(tokens: seq<Token>)
      ensures Valid() && this.tokens == tokens && pos == 0
    {
      this.tokens := tokens;
      pos := 0;
    }

    /** Moves to the next token; past the last one there is no current token. */
    method Advance()
      requires Valid()
      modifies this
      ensures Valid()
      ensures pos == if old(pos) < |tokens| then old(pos) + 1 else old(pos)
    {
      if pos < |tokens| {
        pos := pos + 1;
      }
    }

    /** `parse`: None without a current token; otherwise one expression that
        must leave no token behind. */
    method Parse() returns (r: Result<Option<Node>>)
      requires Valid()
      modifies this
      ensures Valid() && old(pos) <= pos
      ensures r == Grammar.Parse(IndexDialect, tokens, old(pos))
      ensures r.Ok? ==> pos == |tokens|
    {
      if pos == |tokens| {
        return Ok(None);
      }
      var result := Expr();
      if result.SyntaxError? {
        return SyntaxError;
      }
      if pos < |tokens| {
        return SyntaxError;
      }
      return Ok(Some(result.value));
    }

    method Expr() returns (r: Result<Node>)
      requires Valid()
      modifies this
      ensures Valid() && old(pos) <= pos
      ensures Outcome(r, pos) == Grammar.Expr(IndexDialect, tokens, old(pos))
      decreases |tokens| - pos, 3
    {
      ghost var start := pos;
      var first := Term();
      if first.SyntaxError? {
        return SyntaxError;
      }
      var result := first.value;
      while pos < |tokens| && tokens[pos].kind in {PLUS, MINUS}
        invariant Valid() && start < pos
        invariant Grammar.Expr(IndexDialect, tokens, start) == ExprRest(IndexDialect, tokens, pos, result)
        decreases |tokens| - pos
      {
        if tokens[pos].kind == PLUS {
          Advance();
          var right := Term();
          if right.SyntaxError? {
            return SyntaxError;
          }
          result := Binary(Add, result, right.value);
        } else {
          Advance();
          var right := Term();
          if right.SyntaxError? {
            return SyntaxError;
          }
          result := Binary(Subtract, result, right.value);
        }
      }
      return Ok(result);
    }

    method Term() returns (r: Result<Node>)
      requires Valid()
      modifies this
      ensures Valid() && old(pos) <= pos
      ensures Outcome(r, pos) == Grammar.Term(IndexDialect, tokens, old(pos))
      decreases |tokens| - pos, 2
    {
      ghost var start := pos;
      var first := Expon();
      if first.SyntaxError? {
        return SyntaxError;
      }
      var result := first.value;
      while pos < |tokens| && tokens[pos].kind in {MULTIPLY, DIVIDE}
        invariant Valid() && start < pos
        invariant Grammar.Term(IndexDialect, tokens, start) == TermRest(IndexDialect, tokens, pos, result)
        decreases |tokens| - pos
      {
        if tokens[pos].kind == MULTIPLY {
          Advance();
          var right := Expon();
          if right.SyntaxError? {
            return SyntaxError;
          }
          result := Binary(Multiply, result, right.value);
        } else {
          Advance();
          var right := Expon();
          if right.SyntaxError? {
            return SyntaxError;
          }
          result := Binary(Divide, result, right.value);
        }
      }
      return Ok(result);
    }

    method Expon() returns (r: Result<Node>)
      requires Valid()
      modifies this
      ensures Valid() && old(pos) <= pos
      ensures Outcome(r, pos) == Grammar.Expon(IndexDialect, tokens, old(pos))
      decreases |tokens| - pos, 1
    {
      ghost var start := pos;
      var first := Factor();
      if first.SyntaxError? {
        return SyntaxError;
      }
      var result := first.value;
      while pos < |tokens| && tokens[pos].kind == POWER
        invariant Valid() && start < pos
        invariant Grammar.Expon(IndexDialect, tokens, start) == ExponRest(IndexDialect, tokens, pos, result)
        decreases |tokens| - pos
      {
        Advance();
        var right := Factor();
        if right.SyntaxError? {
          return SyntaxError;
        }
        result := Binary(Power, result, right.value);
      }
      return Ok(result);
    }

    /** `factor`: a group in `( )`, a number, a letter (an index when a
        number follows it), or a prefix operator applied to one factor.
        Anything else, `[` included, and no token at all, is a syntax error. */
    method Factor() returns (r: Result<Node>)
      requires Valid()
      modifies this
      ensures Valid() && old(pos) <= pos
      ensures Outcome(r, pos) == Grammar.Factor(IndexDialect, tokens, old(pos))
      decreases |tokens| - pos, 0
    {
      if pos == |tokens| {
        return SyntaxError;
      }
      var token := tokens[pos];
      if token.kind == LPAREN {
        Advance();
        var result := Expr();
        if result.SyntaxError? || pos == |tokens| || tokens[pos].kind != RPAREN {
          return SyntaxError;
        }
        Advance();
        return result;
      } else if token.kind == NUMBER {
        Advance();
        return Ok(Number(token.value));
      } else if token.kind == LETTER {
        Advance();
        if pos < |tokens| && tokens[pos].kind == NUMBER {
          var index := Factor();
          // A factor that starts at a NUMBER is that number: it cannot fail.
          assert index.Ok?;
          return Ok(Index(token.value, index.value));
        }
        return Ok(Letter(token.value));
      } else if token.kind in {PLUS, MINUS, SIN, COS, EXP, SQRT} {
        Advance();
        var operand := Factor();
        if operand.SyntaxError? {
          return SyntaxError;
        }
        return Ok(Unary(PrefixOp(token.kind), operand.value));
      }
      return SyntaxError;
    }
  }

  /** What a caller of the module does: build a parser over the tokens and parse. */
  method ParseTokens(tokens: seq<Token>) returns (r: Result<Option<Node>>)
    ensures r == Grammar.Parse(IndexDialect, tokens, 0)
  {
    var parser := new Parser(tokens);
    r := parser.Parse();
  }

  /** A parser is used up by one successful parse: asked again, it finds no
      current token and returns None. */
  method ParseAgain(tokens: seq<Token>) returns (first: Result<Option<Node>>, second: Result<Option<Node>>)
    ensures first == Grammar.Parse(IndexDialect, tokens, 0)
    ensures first.Ok? ==> second == Ok(None)
  {
    var parser := new Parser(tokens);
    first := parser.Parse();
    second := parser.Parse();
  }
}
