/** An independent partner for the grammar: a printer that turns a tree back
    into tokens, using parentheses only where precedence or left
    associativity needs them. Parsing a printed tree gives the tree back
    (module RoundTrip), so the printer states in one place how the parser
    groups `+ -`, `* /`, `^` and the prefix operators. */
module Printer {
  import opened Tokens
  import opened Nodes
  import opened Grammar

  /** Binding power of a binary operator: 0 for `+ -`, 1 for `* /`, 2 for `^`. */
  function Prec(op: BinOp): nat {
    match op
    case Add | Subtract => 0
    case Multiply | Divide => 1
    case Power => 2
  }

  /** Binding power of a tree: that of its operator, 3 for everything a `factor` builds. */
  function Level(n: Node): nat {
    if n.Binary? then Prec(n.op) else 3
  }

  function BinaryKind(op: BinOp): Kind {
    match op
    case Add => PLUS
    case Subtract => MINUS
    case Multiply => MULTIPLY
    case Divide => DIVIDE
    case Power => POWER
  }

  function PrefixKind(op: UnOp): Kind {
    match op
    case Plus => PLUS
    case Minus => MINUS
    case Sin => SIN
    case Cos => COS
    case Exp => EXP
    case Sqrt => SQRT
  }

  function Punct(k: Kind): Token {
    Token(k, NoValue)
  }

  /** The tokens of `n` in a position that needs binding power `level`
      (0 for an `expr`, 1 for a `term`, 2 for an `expon`, 3 for a `factor`).
      The left operand of a binary operator is printed at the operator's
      own level and the right one a level higher, so `a - b - c` needs no
      parentheses and `a - (b - c)` keeps them. */
  function Print(n: Node, level: nat): (ts: seq<Token>)
    ensures |ts| > 0
  {
    var body :=
      match n
      case Number(v) => [Token(NUMBER, v)]
      case Letter(v) => [Token(LETTER, v)]
      case Index(v, index) => [Token(LETTER, v)] + Print(index, 3)
      case Binary(op, left, right) =>
        Print(left, Prec(op)) + [Punct(BinaryKind(op))] + Print(right, Prec(op) + 1)
      case Unary(op, operand) => [Punct(PrefixKind(op))] + Print(operand, 3);
    if Level(n) < level then [Punct(LPAREN)] + body + [Punct(RPAREN)] else body
  }

  /** The trees the printer renders faithfully for a dialect: `Index` only
      in the index variant, and only over a number (what that variant reads). */
  predicate Printable(d: Dialect, n: Node) {
    match n
    case Number(_) => true
    case Letter(_) => true
    case Index(_, index) => d.IndexDialect? && index.Number?
    case Binary(_, left, right) => Printable(d, left) && Printable(d, right)
    case Unary(_, operand) => Printable(d, operand)
  }

  /** Variable substitution applied to a whole tree: what the substitution
      variant makes of every letter. The index variant substitutes nothing. */
  function Resolve(d: Dialect, n: Node): Node {
    match n
    case Number(_) => n
    case Letter(v) => if d.MathDialect? then Bind(d.vars, v) else n
    case Index(v, index) => Index(v, Resolve(d, index))
    case Binary(op, left, right) => Binary(op, Resolve(d, left), Resolve(d, right))
    case Unary(op, operand) => Unary(op, Resolve(d, operand))
  }
}
