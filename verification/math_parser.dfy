/** The parser of src/math_parser.py: a cursor over the token list that the
    methods move forward, one method per grammar level. Each method is proved
    to do exactly what the matching function of module Grammar describes for
    the substitution variant, from the cursor it started at. */
module MathParser {
  import opened Tokens
  import opened Nodes
  import opened Grammar

  class Parser {
    /** The tokens, in order; the cursor `pos` stands on the current token,
        and `pos == |tokens|` means there is none left. */
    const tokens: seq<Token>
    var pos: nat
    /** The parser's own copy of the variable bindings. */
    const vars: map<string, real>

    ghost predicate Valid()
      reads this
    {
      pos <= |tokens|
    }

    /** The variant of the grammar this parser follows: substitution over its own bindings. */
    function Variant(): Dialect {
      MathDialect(vars)
    }

    /** Copies the bindings one key at a time and stands on the first token. */
    constructor(tokens: seq<Token>, bindings: map<string, real>)
      ensures Valid() && this.tokens == tokens && pos == 0 && vars == bindings
    {
      var copy := map[];
      var keys := bindings.Keys;
      while keys != {}
        invariant keys <= bindings.Keys
        invariant copy.Keys == bindings.Keys - keys
        invariant forall k :: k in copy ==> copy[k] == bindings[k]
        decreases keys
      {
        var k :| k in keys;
        copy := copy[k := bindings[k]];
        keys := keys - {k};
      }
      this.tokens := tokens;
      pos := 0;
      vars := copy;
    }

    /** Moves to the next token; past the last one there is no current token. */
    method Advance()
      requires Valid()
      modifies this
      ensures Valid()
      ensures pos == if old(pos) < |tokens| then old(pos) + 1 else old(pos)
    {
      if pos < |tokens| {
        pos := pos + 1;
      }
    }

    /** The substitution loop of `factor`: scans the keys for the letter's name. */
    method LookUp(name: Value) returns (found: bool, value: real)
      ensures found <==> name.Name? && name.s in vars
      ensures found ==> value == vars[name.s]
    {
      var keys := vars.Keys;
      while keys != {}
        invariant keys <= vars.Keys
        invariant name.Name? && name.s in vars ==> name.s in keys
        decreases keys
      {
        var k :| k in keys;
        if name == Name(k) {
          return true, vars[k];
        }
        keys := keys - {k};
      }
      return false, 0.0;
    }

    /** `parse`: None without a current token; otherwise one expression that
        must leave no token behind. */
    method Parse() returns (r: Result<Option<Node>>)
      requires Valid()
      modifies this
      ensures Valid() && old(pos) <= pos
      ensures r == Grammar.Parse(Variant(), tokens, old(pos))
      ensures r.Ok? ==> pos == |tokens|
    {
      if pos == |tokens| {
        return Ok(None);
      }
      var result := Expr();
      if result.SyntaxError? {
        return SyntaxError;
      }
      if pos < |tokens| {
        return SyntaxError;
      }
      return Ok(Some(result.value));
    }

    method Expr() returns (r: Result<Node>)
      requires Valid()
      modifies this
      ensures Valid() && old(pos) <= pos
      ensures Outcome(r, pos) == Grammar.Expr(Variant(), tokens, old(pos))
      decreases |tokens| - pos, 3
    {
      ghost var start := pos;
      var first := Term();
      if first.SyntaxError? {
        return SyntaxError;
      }
      var result := first.value;
      while pos < |tokens| && tokens[pos].kind in {PLUS, MINUS}
        invariant Valid() && start < pos
        invariant Grammar.Expr(Variant(), tokens, start) == ExprRest(Variant(), tokens, pos, result)
        decreases |tokens| - pos
      {
        if tokens[pos].kind == PLUS {
          Advance();
          var right := Term();
          if right.SyntaxError? {
            return SyntaxError;
          }
          result := Binary(Add, result, right.value);
        } else {
          Advance();
          var right := Term();
          if right.SyntaxError? {
            return SyntaxError;
          }
          result := Binary(Subtract, result, right.value);
        }
      }
      return Ok(result);
    }

    method Term() returns (r: Result<Node>)
      requires Valid()
      modifies this
      ensures Valid() && old(pos) <= pos
      ensures Outcome(r, pos) == Grammar.Term(Variant(), tokens, old(pos))
      decreases |tokens| - pos, 2
    {
      ghost var start := pos;
      var first := Expon();
      if first.SyntaxError? {
        return SyntaxError;
      }
      var result := first.value;
      while pos < |tokens| && tokens[pos].kind in {MULTIPLY, DIVIDE}
        invariant Valid() && start < pos
        invariant Grammar.Term(Variant(), tokens, start) == TermRest(Variant(), tokens, pos, result)
        decreases |tokens| - pos
      {
        if tokens[pos].kind == MULTIPLY {
          Advance();
          var right := Expon();
          if right.SyntaxError? {
            return SyntaxError;
          }
          result := Binary(Multiply, result, right.value);
        } else {
          Advance();
          var right := Expon();
          if right.SyntaxError? {
            return SyntaxError;
          }
          result := Binary(Divide, result, right.value);
        }
      }
      return Ok(result);
    }

    method Expon() returns (r: Result<Node>)
      requires Valid()
      modifies this
      ensures Valid() && old(pos) <= pos
      ensures Outcome(r, pos) == Grammar.Expon(Variant(), tokens, old(pos))
      decreases |tokens| - pos, 1
    {
      ghost var start := pos;
      var first := Factor();
      if first.SyntaxError? {
        return SyntaxError;
      }
      var result := first.value;
      while pos < |tokens| && tokens[pos].kind == POWER
        invariant Valid() && start < pos
        invariant Grammar.Expon(Variant(), tokens, start) == ExponRest(Variant(), tokens, pos, result)
        decreases |tokens| - pos
      {
        Advance();
        var right := Factor();
        if right.SyntaxError? {
          return SyntaxError;
        }
        result := Binary(Power, result, right.value);
      }
      return Ok(result);
    }

    /** `factor`: a group in `( )` or `[ ]`, a number, a letter (replaced by
        its value when bound), or a prefix operator applied to one factor.
        Anything else, and no token at all, is a syntax error. */
    method Factor() returns (r: Result<Node>)
      requires Valid()
      modifies this
      ensures Valid() && old(pos) <= pos
      ensures Outcome(r, pos) == Grammar.Factor(Variant(), tokens, old(pos))
      decreases |tokens| - pos, 0
    {
      if pos == |tokens| {
        return SyntaxError;
      }
      var token := tokens[pos];
      if token.kind == LPAREN || token.kind == LBRACKET {
        var closer := if token.kind == LPAREN then RPAREN else RBRACKET;
        Advance();
        var result := Expr();
        if result.SyntaxError? || pos == |tokens| || tokens[pos].kind != closer {
          return SyntaxError;
        }
        Advance();
        return result;
      } else if token.kind == NUMBER {
        Advance();
        return Ok(Number(token.value));
      } else if token.kind == LETTER {
        Advance();
        var found, value := LookUp(token.value);
        if found {
          return Ok(Number(Num(value)));
        }
        return Ok(Letter(token.value));
      } else if token.kind in {PLUS, MINUS, SIN, COS, EXP, SQRT} {
        Advance();
        var operand := Factor();
        if operand.SyntaxError? {
          return SyntaxError;
        }
        return Ok(Unary(PrefixOp(token.kind), operand.value));
      }
      return SyntaxError;
    }
  }

  /** What a caller of the module does: build a parser over the tokens and
      the bindings, and parse. */
  method ParseTokens(tokens: seq<Token>, bindings: map<string, real>) returns (r: Result<Option<Node>>)
    ensures r == Grammar.Parse(MathDialect(bindings), tokens, 0)
  {
    var parser := new Parser(tokens, bindings);
    r := parser.Parse();
  }

  /** A parser is used up by one successful parse: asked again, it finds no
      current token and returns None. */
  method ParseAgain(tokens: seq<Token>, bindings: map<string, real>)
    returns (first: Result<Option<Node>>, second: Result<Option<Node>>)
    ensures first == Grammar.Parse(MathDialect(bindings), tokens, 0)
    ensures first.Ok? ==> second == Ok(None)
  {
    var parser := new Parser(tokens, bindings);
    first := parser.Parse();
    second := parser.Parse();
  }
}
