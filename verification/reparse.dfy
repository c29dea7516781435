/** Parsing the same tokens twice. The substitution variant, as written,
    stores each substituted value into the payload of the LETTER token it
    read, in the caller's own token objects; a second parse of that token
    list then no longer recognises the letter. The parser of module
    MathParser never writes to its tokens, so its result depends on the
    tokens and the bindings alone. */
module Reparse {
  import opened Tokens
  import opened Nodes
  import opened Grammar
  import MathParser

  /** A token as `factor` leaves it: a LETTER whose name is bound now holds
      the bound value as its payload; any other token is untouched. */
  function Overwrite(vars: map<string, real>, t: Token): (r: Token)
    ensures r.kind == t.kind
    ensures r != t <==> t.kind == LETTER && IsBound(vars, t.value)
    ensures r != t ==> r.value == Num(vars[t.value.s])
    ensures !(r.kind == LETTER && IsBound(vars, r.value))
  {
    if t.kind == LETTER && IsBound(vars, t.value) then Token(LETTER, Num(vars[t.value.s])) else t
  }

  /** The token list as a parse that reached every token leaves it behind:
      every bound letter holds its value, every other token is unchanged. */
  function Overwritten(vars: map<string, real>, toks: seq<Token>): (r: seq<Token>)
    ensures |r| == |toks|
    ensures forall i :: 0 <= i < |r| ==> r[i].kind == toks[i].kind
    ensures forall i :: 0 <= i < |r| && toks[i].kind == LETTER && IsBound(vars, toks[i].value) ==>
              r[i].value == Num(vars[toks[i].value.s])
    ensures forall i :: 0 <= i < |r| && !(toks[i].kind == LETTER && IsBound(vars, toks[i].value)) ==>
              r[i] == toks[i]
    ensures forall i :: 0 <= i < |r| ==> !(r[i].kind == LETTER && IsBound(vars, r[i].value))
  {
    seq(|toks|, i requires 0 <= i < |toks| => Overwrite(vars, toks[i]))
  }

  /** With `x` bound to 5, the token list `x` parses to the number 5, but
      the same list, after that parse has overwritten it, parses to a letter
      whose payload is 5. */
  lemma ReparseDiffers()
    ensures var d, toks := MathDialect(map["x" := 5.0]), [Token(LETTER, Name("x"))];
            Parse(d, toks, 0) == Ok(Some(Number(Num(5.0)))) &&
            Parse(d, Overwritten(d.vars, toks), 0) == Ok(Some(Letter(Num(5.0))))
  {
    var d, toks := MathDialect(map["x" := 5.0]), [Token(LETTER, Name("x"))];
    var again := Overwritten(d.vars, toks);
    assert again == [Token(LETTER, Num(5.0))];
    assert Factor(d, again, 0) == Ok(Parsed(Letter(Num(5.0)), 1));
    assert Expon(d, again, 0) == Ok(Parsed(Letter(Num(5.0)), 1));
    assert Term(d, again, 0) == Ok(Parsed(Letter(Num(5.0)), 1));
    assert Expr(d, again, 0) == Ok(Parsed(Letter(Num(5.0)), 1));
    assert Parse(d, again, 0) == Ok(Some(Letter(Num(5.0))));
  }

  /** Two parsers over the same tokens and bindings build the same result. */
  method ParseTwice(tokens: seq<Token>, bindings: map<string, real>)
    returns (first: Result<Option<Node>>, second: Result<Option<Node>>)
    ensures first == second
  {
    first := MathParser.ParseTokens(tokens, bindings);
    second := MathParser.ParseTokens(tokens, bindings);
  }
}
