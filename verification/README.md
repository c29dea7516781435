# Recursive-descent parsers for arithmetic expressions, in Dafny

This project models the two expression parsers of the repository:

- `src/math_parser.py`, whose `Parser` takes a token list and a dictionary of
  variable bindings;
- `src/parser_.py`, whose `Parser` takes only a token list.

Both read a list of tokens and build a syntax tree over five levels:

- `parse`: no tokens means no tree; otherwise one expression that must use
  up every token;
- `expr`: `+` and `-`;
- `term`: `*` and `/`;
- `expon`: `^`;
- `factor`: numbers, letters, groups, and the prefix operators
  `+ - sin cos exp sqrt`, each of which takes exactly one factor.

Each binary level is a `while` loop that folds to the left, `^` included.
The two variants differ only in `factor`:

- the substitution variant also groups with `[ ]`, and turns a letter whose
  name is bound into a number holding the bound value;
- the index variant groups only with `( )`, and reads a letter directly
  followed by a number as an index node.

The only failure is a syntax error. It covers a token that cannot start a
factor, a missing or mismatched closer, no token where a factor is needed,
and tokens left over after the expression.

Files:

- `tokens.dfy` and `nodes.dfy`: the token kinds and payloads, and the tree.
  The source's node classes map onto the tree as follows:
  - `AddNode`, `SubtractNode`, `MultiplyNode`, `DivideNode`, `PowerNode`
    become `Binary(op, left, right)`;
  - `PlusNode`, `MinusNode`, `SinusNode`, `CosinusNode`, `ExponentNode`,
    `SquareNode` become `Unary(op, operand)`;
  - `NumberNode`, `LetterNode`, `IndexNode` are leaves.
- `grammar.dfy`: module `Grammar`. It states the grammar once, as functions
  that take the token list and a position and return the tree with the
  position after it. `Dialect` selects the variant: `MathDialect(vars)` or
  `IndexDialect`.
- `math_parser.dfy` and `index_parser.dfy`: one `class Parser` per source
  file.
  - Each class has the source's cursor, a `pos` field that `Advance` moves
    forward, and one method per source method.
  - `expr`, `term` and `expon` are `while` loops over an accumulator.
  - The substitution variant copies the bindings in its constructor and
    looks up a letter by a loop over the keys, as the source does.
  - Every method is proved to return what the matching `Grammar` function
    returns from the cursor it started at, and to leave the cursor where that
    function stops.
- `printer.dfy` and `round_trip.dfy`: an independent partner for the grammar.
  - A printer writes a tree with the fewest parentheses that precedence and
    left folding allow.
  - The round-trip lemma proves that parsing the printed tokens gives the
    tree back, with bound letters substituted. This states precedence, left
    folding and the reach of prefix operators for every tree at once.
- `grammar_facts.dfy`: each rule of `factor` and each loop, one lemma per
  rule.
- `examples_checked.dfy`: worked token lists, including the error cases.
- `leaf_order.dfy`: the leaves of every parsed tree are the payloads of the
  NUMBER and LETTER tokens it was read from, in order, with bound letters
  substituted. This holds for any token list, including ones with redundant
  parentheses that the printer never produces.
- `reparse.dfy`: what happens when the same token list is parsed twice
  (see Findings).

Where the usual conventions of arithmetic notation differ from what the
code does, the model follows the code:

- `^` folds to the left;
- a prefix operator takes one factor, so `sin x ^ 2` is `(sin x) ^ 2` and
  `- 2 ^ 2` is `(-2) ^ 2`;
- the index variant rejects `[`;
- the two grouping kinds are not interchangeable: `( 2 ]` is a syntax error.

## Model

| member | source | states |
|---|---|---|
| Grammar.Parse | src/math_parser.py:23-33 | no current token gives no tree and no error, and only then; a tree is returned exactly when `expr` succeeds and stops at the end of the tokens, and it is that expression's tree |
| Grammar.Expr | src/math_parser.py:35-47 | a successful `expr` consumes at least one token, stops within the list, and builds only trees the variant can build |
| Grammar.ExprRest | src/math_parser.py:39-45 | the `+ -` loop never moves the cursor back and keeps the tree buildable by the variant |
| Grammar.Term | src/math_parser.py:49-61 | a successful `term` consumes at least one token, stops within the list, and builds only trees the variant can build |
| Grammar.TermRest | src/math_parser.py:53-59 | the `* /` loop never moves the cursor back and keeps the tree buildable by the variant |
| Grammar.Expon | src/math_parser.py:63-72 | a successful `expon` consumes at least one token, stops within the list, and builds only trees the variant can build |
| Grammar.ExponRest | src/math_parser.py:67-70 | the `^` loop never moves the cursor back and keeps the tree buildable by the variant |
| Grammar.Group | src/math_parser.py:78-96 | a successful group consumes at least one token, stops within the list, and yields a tree the variant can build (the closer rule itself is GrammarFacts.GroupNeedsCloser) |
| Grammar.Prefixed | src/math_parser.py:112-134 | a prefixed factor consumes at least its operand, and yields a tree the variant can build |
| Grammar.Factor | src/math_parser.py:74-136 | every successful factor advances the cursor by at least one token and stays within the list |
| MathParser.Parser.constructor | src/math_parser.py:6-11 | the parser stands on the first token and holds a copy equal to the caller's bindings |
| MathParser.Parser.Advance | src/math_parser.py:13-18 | the cursor moves to the next token, and stays past the end once there |
| MathParser.Parser.LookUp | src/math_parser.py:102-110 | the loop over the keys finds the letter exactly when its name is bound, and then returns the bound value |
| MathParser.Parser.Parse | src/math_parser.py:23-33 | returns exactly `Grammar.Parse` of the substitution variant from the cursor; the cursor only moves forward, and after a successful parse no current token is left |
| MathParser.Parser.Expr | src/math_parser.py:35-47 | the loop computes exactly `Grammar.Expr` and leaves the cursor where it stops |
| MathParser.Parser.Term | src/math_parser.py:49-61 | the loop computes exactly `Grammar.Term` and leaves the cursor where it stops |
| MathParser.Parser.Expon | src/math_parser.py:63-72 | the loop computes exactly `Grammar.Expon` and leaves the cursor where it stops |
| MathParser.Parser.Factor | src/math_parser.py:74-136 | computes exactly `Grammar.Factor` of the substitution variant and leaves the cursor where it stops |
| MathParser.ParseTokens | src/math_parser.py:5-33 | a fresh parser over the tokens and bindings returns `Grammar.Parse` from the first token |
| MathParser.ParseAgain | src/math_parser.py:23-33 | a parser is not restartable: after a successful parse, parsing again with the same parser returns None |
| IndexParser.Parser.constructor | src/parser_.py:5-7 | the parser stands on the first token |
| IndexParser.Parser.Advance | src/parser_.py:9-13 | the cursor moves to the next token, and stays past the end once there |
| IndexParser.Parser.Parse | src/parser_.py:18-27 | returns exactly `Grammar.Parse` of the index variant from the cursor; the cursor only moves forward, and after a successful parse no current token is left |
| IndexParser.Parser.Expr | src/parser_.py:29-40 | the loop computes exactly `Grammar.Expr` and leaves the cursor where it stops |
| IndexParser.Parser.Term | src/parser_.py:42-53 | the loop computes exactly `Grammar.Term` and leaves the cursor where it stops |
| IndexParser.Parser.Expon | src/parser_.py:55-63 | the loop computes exactly `Grammar.Expon` and leaves the cursor where it stops |
| IndexParser.Parser.Factor | src/parser_.py:65-113 | computes exactly `Grammar.Factor` of the index variant and leaves the cursor where it stops |
| IndexParser.ParseTokens | src/parser_.py:4-27 | a fresh parser over the tokens returns `Grammar.Parse` from the first token |
| IndexParser.ParseAgain | src/parser_.py:18-27 | a parser is not restartable: after a successful parse, parsing again with the same parser returns None |
| GrammarFacts.FactorRejects | src/math_parser.py:74-136 | no token, or one of `) ] * / ^` (and `[` in the index variant), in factor position is a syntax error |
| GrammarFacts.FactorStarts | src/parser_.py:65-113 | a factor succeeds only at a token of an accepted kind |
| GrammarFacts.NumberLeaf | src/parser_.py:78-80 | a NUMBER consumes exactly one token and the leaf carries the token's payload unchanged |
| GrammarFacts.LetterSubstituted | src/math_parser.py:102-110 | a LETTER whose name is bound becomes a number holding the bound value, any other stays a letter; one token is consumed |
| GrammarFacts.LetterIndexed | src/parser_.py:82-87 | a LETTER directly followed by a NUMBER consumes both and is an index over that number; otherwise only the letter is consumed |
| GrammarFacts.GroupNeedsCloser | src/math_parser.py:78-96 | after `(` (or `[`) a factor succeeds exactly when an expression follows and is closed by the matching closer; the group is the inner tree |
| GrammarFacts.PrefixWrapsOneFactor | src/math_parser.py:112-134 | a prefix token succeeds exactly when one factor follows, and wraps exactly that factor |
| GrammarFacts.PrefixBindsTighter | src/parser_.py:89-111 | what follows a prefixed factor applies to the whole prefixed tree, so a prefix operator binds tighter than `^` |
| GrammarFacts.ExprFoldsLeft | src/math_parser.py:39-45 | three terms joined by `+`/`-` group as `(a op b) op c` |
| GrammarFacts.TermFoldsLeft | src/math_parser.py:53-59 | three operands joined by `*`/`/` group as `(a op b) op c` |
| GrammarFacts.ExponFoldsLeft | src/math_parser.py:67-70 | three factors joined by `^` group as `(a ^ b) ^ c` |
| RoundTrip.RoundTrip | src/math_parser.py:35-136 | for every tree the printer renders, parsing its minimal-parenthesis form gives the tree back with bound letters substituted; this is precedence, left folding and the reach of prefix operators stated for all trees |
| RoundTrip.ParsePrint | src/parser_.py:29-113 | parsing is a left inverse of printing on every tree the parser can build |
| RoundTrip.ResolveKeepsAdmissible | src/math_parser.py:102-110 | a tree the substitution variant can build has no bound letter left for substitution to change |
| Examples.ProductInsideSum | src/math_parser.py:35-61 | `2 + 3 * 4` is `2 + (3 * 4)` |
| Examples.DifferenceFoldsLeft | src/parser_.py:32-38 | `8 - 3 - 2` is `(8 - 3) - 2` |
| Examples.PowerFoldsLeft | src/math_parser.py:67-70 | `a ^ b ^ c` is `(a ^ b) ^ c` |
| Examples.SineTakesOneFactor | src/math_parser.py:120-122 | `sin x ^ 2` is `(sin x) ^ 2` |
| Examples.MinusTakesOneFactor | src/math_parser.py:116-118 | `- 2 ^ 2` is `(-2) ^ 2` |
| Examples.GroupedSum | src/parser_.py:68-76 | `(2 + 3) * 4` is the product of the grouped sum and 4 |
| Examples.BracketsAndSubstitution | src/math_parser.py:88-110 | `[x] * y` with `x` bound to 5 is `5 * y` |
| Examples.IndexedLetter | src/parser_.py:82-87 | `x 1 + y` is `x[1] + y` in the index variant |
| Examples.NoIndexWithBindings | src/math_parser.py:28-31 | the same `x 1 + y` is a syntax error in the substitution variant, which leaves `1` over |
| Examples.EmptyInput | src/parser_.py:18-20 | no tokens give no tree and no error |
| Examples.MismatchedCloser | src/math_parser.py:78-83 | `( 2 ]` is a syntax error |
| Examples.MissingCloser | src/parser_.py:68-73 | `( 2` is a syntax error |
| Examples.NoBrackets | src/parser_.py:113 | `[ 2 ]` is a syntax error in the index variant |
| Examples.MissingOperand | src/math_parser.py:76-78 | `2 +` is a syntax error |
| Examples.LeftoverToken | src/parser_.py:24-25 | `2 )` is a syntax error |
| Examples.BadStart | src/parser_.py:113 | `* 2` is a syntax error |
| LeafOrder.ParseLeaves | src/math_parser.py:23-33 | the leaves of a parsed expression, left to right, are the payloads of all its NUMBER and LETTER tokens in order, a bound letter contributing its value |
| LeafOrder.ExprLeaves | src/math_parser.py:35-47 | a successful `expr` has as leaves exactly the payloads of the tokens it consumed, in order |
| LeafOrder.ExprRestLeaves | src/math_parser.py:39-45 | each turn of the `+ -` loop appends the leaves of the tokens it consumed after those already gathered; operator tokens add none |
| LeafOrder.TermLeaves | src/math_parser.py:49-61 | a successful `term` has as leaves exactly the payloads of the tokens it consumed, in order |
| LeafOrder.TermRestLeaves | src/math_parser.py:53-59 | each turn of the `* /` loop appends the leaves of the tokens it consumed after those already gathered |
| LeafOrder.ExponLeaves | src/math_parser.py:63-72 | a successful `expon` has as leaves exactly the payloads of the tokens it consumed, in order |
| LeafOrder.ExponRestLeaves | src/math_parser.py:67-70 | each turn of the `^` loop appends the leaves of the tokens it consumed after those already gathered |
| LeafOrder.GroupLeaves | src/math_parser.py:78-96 | a group's leaves are those of the tokens inside it; the closer adds none |
| LeafOrder.PrefixedLeaves | src/math_parser.py:112-134 | a prefixed factor's leaves are those of its operand; the prefix token adds none |
| LeafOrder.FactorLeaves | src/parser_.py:65-113 | a successful factor's leaves are the payloads of the tokens it consumed: a number its payload, a letter its payload or bound value, an index its name then its number |
| Reparse.Overwrite | src/math_parser.py:105-108 | substitution changes a token exactly when it is a LETTER whose name is bound, keeps its kind, stores the bound value as its payload, and leaves no bound letter behind |
| Reparse.Overwritten | src/math_parser.py:105-108 | after a parse that reached every token, every bound letter holds its bound value, every other token is unchanged, and no token is a bound letter any more |
| Reparse.ReparseDiffers | src/math_parser.py:102-110 | as written, parsing `x` with `x` bound to 5 gives 5, but parsing the same list again gives a letter holding 5 |
| Reparse.ParseTwice | src/math_parser.py:5-33 | two parses of the same tokens with the same bindings return the same result |

## Left out

- The lexer and the node classes are not part of this model. Token kinds and
  trees are datatypes; payloads are a number (`real`), a name (`string`) or
  nothing, and the parser passes them through without computing with them.
- Evaluating a tree (sine, cosine, exponential, square root, division, power)
  is floating-point work in the node classes and is not modelled.
- Failures are one `SyntaxError` result instead of a raised exception. The
  message text is not modelled. The source raises two different exceptions:
  `Exception("Invalid syntax")` from `raise_error`, and an `AttributeError`
  when it reads `.type` of a missing current token at the end of the input.
  The model merges both into the one `SyntaxError`.
- Bindings are a required constructor argument. The source's shared mutable
  default `{}` is the same as passing an empty map.
- The lazy iterator is modelled as a sequence and a cursor that only moves
  forward.
- The key order of the bindings loop is not modelled. `LookUp` takes the keys
  in any order, which changes nothing because names are unique.
- The parser classes do not write into the tokens, so the in-place overwrite
  of a token's payload during substitution is not part of them. `reparse.dfy`
  models its effect on a later parse.
- Recursion depth and stack exhaustion are not modelled.

## Findings

| source | as written | input that shows it | evidently intended | confidence | as-written member | corrected member |
|---|---|---|---|---|---|---|
| src/math_parser.py:105-108 | substitution stores the bound value into the LETTER token's payload, in the caller's token objects | tokens `x` with `x` bound to 5: the first parse gives the number 5, a second parse of the same list gives a letter holding 5 | parsing is a function of the tokens and the bindings, so repeating it gives the same tree | not executed | Reparse.ReparseDiffers | Reparse.ParseTwice |
