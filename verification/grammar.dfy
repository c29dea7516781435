/** The grammar both parsers implement, as position-threading functions.

    Each function takes the whole token list and the cursor position and
    returns the tree it built together with the position after it, or
    SyntaxError. The two source variants share `expr`, `term` and `expon`
    and differ only in `factor`; `Dialect` says which variant is meant:
      MathDialect(vars) -- src/math_parser.py: `[ ]` grouping, bound letters become numbers;
      IndexDialect      -- src/parser_.py: only `( )` grouping, a letter followed by a number is an index. */
module Grammar {
  import opened Tokens
  import opened Nodes

  datatype Option<T> = None | Some(value: T)

  /** The one failure the source raises ("Invalid syntax"). */
  datatype Result<T> = Ok(value: T) | SyntaxError

  /** A subtree and the position of the first token after it. */
  datatype Parsed = Parsed(node: Node, next: nat)

  datatype Dialect = MathDialect(vars: map<string, real>) | IndexDialect

  /** A letter payload that names a key of the bindings. */
  predicate IsBound(vars: map<string, real>, v: Value) {
    v.Name? && v.s in vars
  }

  /** The leaf a LETTER token becomes under variable substitution. */
  function Bind(vars: map<string, real>, v: Value): Node {
    if IsBound(vars, v) then Number(Num(vars[v.s])) else Letter(v)
  }

  /** The trees a dialect can build: only the index variant has `Index`
      nodes, always over a number, and the substitution variant leaves no
      bound letter symbolic. */
  predicate Admissible(d: Dialect, n: Node) {
    match n
    case Number(_) => true
    case Letter(v) => !(d.MathDialect? && IsBound(d.vars, v))
    case Index(_, index) => d.IndexDialect? && index.Number?
    case Binary(_, left, right) => Admissible(d, left) && Admissible(d, right)
    case Unary(_, operand) => Admissible(d, operand)
  }

  /** A method's result paired with the cursor it left, in the shape of the functions below. */
  function Outcome(r: Result<Node>, next: nat): Result<Parsed> {
    match r
    case Ok(n) => Ok(Parsed(n, next))
    case SyntaxError => SyntaxError
  }

  /** `parse`: no current token means no expression; otherwise one `expr`
      that must use up every token. */
  function Parse(d: Dialect, toks: seq<Token>, start: nat): (r: Result<Option<Node>>)
    requires start <= |toks|
    ensures r == Ok(None) <==> start == |toks|
    ensures r.Ok? && r.value.Some? <==>
              start < |toks| && Expr(d, toks, start).Ok? && Expr(d, toks, start).value.next == |toks|
    ensures r.Ok? && r.value.Some? ==>
              r.value.value == Expr(d, toks, start).value.node && Admissible(d, r.value.value)
  {
    if start == |toks| then Ok(None)
    else
      match Expr(d, toks, start)
      case SyntaxError => SyntaxError
      case Ok(e) => if e.next == |toks| then Ok(Some(e.node)) else SyntaxError
  }

  /** `expr`: a `term`, then any number of `+ term` / `- term`, folded to the left. */
  function Expr(d: Dialect, toks: seq<Token>, pos: nat): (r: Result<Parsed>)
    requires pos <= |toks|
    ensures r.Ok? ==> pos < r.value.next <= |toks| && Admissible(d, r.value.node)
    decreases |toks| - pos, 3
  {
    match Term(d, toks, pos)
    case SyntaxError => SyntaxError
    case Ok(first) => ExprRest(d, toks, first.next, first.node)
  }

  /** The node a `+` or `-` token builds in `expr`. */
  function AddOrSubtract(k: Kind): BinOp {
    if k == PLUS then Add else Subtract
  }

  /** The node a `*` or `/` token builds in `term`. */
  function MultiplyOrDivide(k: Kind): BinOp {
    if k == MULTIPLY then Multiply else Divide
  }

  /** The `while` loop of `expr`, with `acc` the tree built so far. */
  function ExprRest(d: Dialect, toks: seq<Token>, pos: nat, acc: Node): (r: Result<Parsed>)
    requires pos <= |toks|
    ensures r.Ok? ==> pos <= r.value.next <= |toks|
    ensures r.Ok? && Admissible(d, acc) ==> Admissible(d, r.value.node)
    decreases |toks| - pos, 3
  {
    if pos < |toks| && toks[pos].kind in {PLUS, MINUS} then
      match Term(d, toks, pos + 1)
      case SyntaxError => SyntaxError
      case Ok(right) =>
        ExprRest(d, toks, right.next, Binary(AddOrSubtract(toks[pos].kind), acc, right.node))
    else
      Ok(Parsed(acc, pos))
  }

  /** `term`: an `expon`, then any number of `* expon` / `/ expon`, folded to the left. */
  function Term(d: Dialect, toks: seq<Token>, pos: nat): (r: Result<Parsed>)
    requires pos <= |toks|
    ensures r.Ok? ==> pos < r.value.next <= |toks| && Admissible(d, r.value.node)
    decreases |toks| - pos, 2
  {
    match Expon(d, toks, pos)
    case SyntaxError => SyntaxError
    case Ok(first) => TermRest(d, toks, first.next, first.node)
  }

  /** The `while` loop of `term`. */
  function TermRest(d: Dialect, toks: seq<Token>, pos: nat, acc: Node): (r: Result<Parsed>)
    requires pos <= |toks|
    ensures r.Ok? ==> pos <= r.value.next <= |toks|
    ensures r.Ok? && Admissible(d, acc) ==> Admissible(d, r.value.node)
    decreases |toks| - pos, 2
  {
    if pos < |toks| && toks[pos].kind in {MULTIPLY, DIVIDE} then
      match Expon(d, toks, pos + 1)
      case SyntaxError => SyntaxError
      case Ok(right) =>
        TermRest(d, toks, right.next, Binary(MultiplyOrDivide(toks[pos].kind), acc, right.node))
    else
      Ok(Parsed(acc, pos))
  }

  /** `expon`: a `factor`, then any number of `^ factor`, folded to the left. */
  function Expon(d: Dialect, toks: seq<Token>, pos: nat): (r: Result<Parsed>)
    requires pos <= |toks|
    ensures r.Ok? ==> pos < r.value.next <= |toks| && Admissible(d, r.value.node)
    decreases |toks| - pos, 1
  {
    match Factor(d, toks, pos)
    case SyntaxError => SyntaxError
    case Ok(first) => ExponRest(d, toks, first.next, first.node)
  }

  /** The `while` loop of `expon`. */
  function ExponRest(d: Dialect, toks: seq<Token>, pos: nat, acc: Node): (r: Result<Parsed>)
    requires pos <= |toks|
    ensures r.Ok? ==> pos <= r.value.next <= |toks|
    ensures r.Ok? && Admissible(d, acc) ==> Admissible(d, r.value.node)
    decreases |toks| - pos, 1
  {
    if pos < |toks| && toks[pos].kind == POWER then
      match Factor(d, toks, pos + 1)
      case SyntaxError => SyntaxError
      case Ok(right) => ExponRest(d, toks, right.next, Binary(Power, acc, right.node))
    else
      Ok(Parsed(acc, pos))
  }

  /** The node a prefix token builds: `+`, `-`, `sin`, `cos`, `exp`, `sqrt`. */
  function PrefixOp(k: Kind): UnOp
    requires k in {PLUS, MINUS, SIN, COS, EXP, SQRT}
  {
    match k
    case PLUS => Plus
    case MINUS => Minus
    case SIN => Sin
    case COS => Cos
    case EXP => Exp
    case _ => Sqrt
  }

  /** A group after its opening token: one `expr`, then the matching closer. */
  function Group(d: Dialect, toks: seq<Token>, pos: nat, closer: Kind): (r: Result<Parsed>)
    requires pos <= |toks|
    ensures r.Ok? ==> pos < r.value.next <= |toks| && Admissible(d, r.value.node)
    decreases |toks| - pos, 4
  {
    match Expr(d, toks, pos)
    case SyntaxError => SyntaxError
    case Ok(inner) =>
      if inner.next < |toks| && toks[inner.next].kind == closer
      then Ok(Parsed(inner.node, inner.next + 1))
      else SyntaxError
  }

  /** A prefix token wraps exactly one `factor`. */
  function Prefixed(d: Dialect, toks: seq<Token>, pos: nat, op: UnOp): (r: Result<Parsed>)
    requires pos <= |toks|
    ensures r.Ok? ==> pos < r.value.next <= |toks| && Admissible(d, r.value.node)
    decreases |toks| - pos, 1
  {
    match Factor(d, toks, pos)
    case SyntaxError => SyntaxError
    case Ok(operand) => Ok(Parsed(Unary(op, operand.node), operand.next))
  }

  /** `factor`: dispatch on the current token. */
  function Factor(d: Dialect, toks: seq<Token>, pos: nat): (r: Result<Parsed>)
    requires pos <= |toks|
    ensures r.Ok? ==> pos < r.value.next <= |toks| && Admissible(d, r.value.node)
    decreases |toks| - pos, 0
  {
    if pos == |toks| then SyntaxError
    else
      var t := toks[pos];
      match t.kind
      case LPAREN => Group(d, toks, pos + 1, RPAREN)
      case LBRACKET => if d.MathDialect? then Group(d, toks, pos + 1, RBRACKET) else SyntaxError
      case NUMBER => Ok(Parsed(Number(t.value), pos + 1))
      case LETTER =>
        if d.MathDialect? then Ok(Parsed(Bind(d.vars, t.value), pos + 1))
        else if pos + 1 < |toks| && toks[pos + 1].kind == NUMBER
        then Ok(Parsed(Index(t.value, Number(toks[pos + 1].value)), pos + 2))
        else Ok(Parsed(Letter(t.value), pos + 1))
      case PLUS | MINUS | SIN | COS | EXP | SQRT => Prefixed(d, toks, pos + 1, PrefixOp(t.kind))
      case RPAREN | RBRACKET | MULTIPLY | DIVIDE | POWER => SyntaxError
  }
}
