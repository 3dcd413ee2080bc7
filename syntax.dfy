/**
 * The syntax tree: expressions and statements as immutable values, and the
 * shape a parsed expression has because of the precedence ladder.
 */
module Syntax {
  import opened Tokens

  datatype Expr =
    | Super(keyword: Token, methodName: Token)
    | Set(obj: Expr, name: Token, value: Expr)
    | Get(obj: Expr, name: Token)
    | Call(callee: Expr, paren: Token, arguments: seq<Expr>)
    | Assign(name: Token, value: Expr)
    | Ternary(condition: Expr, ifOperator: Token, whenTrue: Expr, orOperator: Token, whenFalse: Expr)
    | Logical(left: Expr, operator: Token, right: Expr)
    | Binary(left: Expr, operator: Token, right: Expr)
    | Unary(operator: Token, right: Expr)
    | Prefix(operator: Token, right: Expr)
    | Postfix(left: Expr, operator: Token)
    | Grouping(expression: Expr)
    | Variable(name: Token)
    | Self(keyword: Token)
    | Anonym(params: seq<Token>, body: seq<Stmt>)
    | Literal(literal: Lit)

  /** A named function or method declaration. */
  datatype FunctionDecl = FunctionDecl(name: Token, params: seq<Token>, body: seq<Stmt>)

  /**
   * Statements. `Missing` stands for the empty slot a declaration that failed
   * to parse leaves in a statement list; a class's superclass is the name of
   * the variable that holds it.
   */
  datatype Stmt =
    | Block(statements: seq<Stmt>)
    | Expression(expression: Expr)
    | Function(decl: FunctionDecl)
    | Class(name: Token, methods: seq<FunctionDecl>, superclass: Option<Token>)
    | If(condition: Expr, thenBranch: Stmt, elseBranch: Option<Stmt>)
    | Echo(expression: Expr)
    | Return(keyword: Token, value: Option<Expr>)
    | Var(name: Token, initializer: Option<Expr>)
    | While(condition: Expr, body: Stmt)
    | Missing

  // ---------------------------------------------------------- precedence

  /** Precedence levels, loosest first. */
  const AssignmentLevel := 0
  const TernaryLevel := 1
  const OrLevel := 2
  const AndLevel := 3
  const EqualityLevel := 4
  const ComparisonLevel := 5
  const CompoundLevel := 6
  const TermLevel := 7
  const ModuloLevel := 8
  const FactorLevel := 9
  const UnaryLevel := 10
  const PrefixLevel := 11
  const PostfixLevel := 12
  const CallLevel := 13
  const PrimaryLevel := 14

  /** The level of a binary or logical operator; 0 for any other token kind. */
  function OperatorLevel(k: TokenType): nat {
    match k
    case OR => OrLevel
    case AND => AndLevel
    case BANG_EQUAL | EQUAL_EQUAL => EqualityLevel
    case GREATER | GREATER_EQUAL | LESS | LESS_EQUAL => ComparisonLevel
    case PLUS_ASSIGN | MINUS_ASSIGN | STAR_ASSIGN | SLASH_ASSIGN => CompoundLevel
    case MINUS | PLUS => TermLevel
    case MODULO => ModuloLevel
    case SLASH | STAR => FactorLevel
    case _ => 0
  }

  /** How tightly the top node of `e` binds. */
  function Level(e: Expr): nat {
    match e
    case Assign(_, _) => AssignmentLevel
    case Set(_, _, _) => AssignmentLevel
    case Ternary(_, _, _, _, _) => TernaryLevel
    case Logical(_, op, _) => OperatorLevel(op.kind)
    case Binary(_, op, _) => OperatorLevel(op.kind)
    case Unary(_, _) => UnaryLevel
    case Prefix(_, _) => PrefixLevel
    case Postfix(_, _) => PostfixLevel
    case Call(_, _, _) => CallLevel
    case Get(_, _) => CallLevel
    case _ => PrimaryLevel
  }

  /**
   * The shape the precedence ladder gives a tree: a binary node's left
   * operand binds at least as tightly as the node and its right operand
   * strictly more tightly (so chains lean left), an assignment's value may be
   * anything (so assignments nest to the right), and unary, prefix, postfix,
   * call and property nodes sit on operands of their own level or tighter.
   */
  predicate Shaped(e: Expr) {
    match e
    case Binary(l, op, r) =>
      EqualityLevel <= OperatorLevel(op.kind) <= FactorLevel &&
      Level(l) >= OperatorLevel(op.kind) && Level(r) > OperatorLevel(op.kind) && Shaped(l) && Shaped(r)
    case Logical(l, op, r) =>
      (op.kind == OR || op.kind == AND) &&
      Level(l) >= OperatorLevel(op.kind) && Level(r) > OperatorLevel(op.kind) && Shaped(l) && Shaped(r)
    case Assign(_, v) => Shaped(v)
    case Set(obj, _, v) => Level(obj) >= CallLevel && Shaped(obj) && Shaped(v)
    case Ternary(c, _, t, _, f) =>
      Level(c) >= TernaryLevel && Level(t) >= TernaryLevel && Level(f) >= TernaryLevel &&
      Shaped(c) && Shaped(t) && Shaped(f)
    case Unary(op, r) => (op.kind == BANG || op.kind == MINUS) && Level(r) >= UnaryLevel && Shaped(r)
    case Prefix(op, r) => (op.kind == PLUS_PLUS || op.kind == MINUS_MINUS) && Level(r) >= PrefixLevel && Shaped(r)
    case Postfix(l, op) => (op.kind == PLUS_PLUS || op.kind == MINUS_MINUS) && Level(l) >= CallLevel && Shaped(l)
    case Call(callee, _, args) => Level(callee) >= CallLevel && Shaped(callee) && AllShaped(args)
    case Get(obj, _) => Level(obj) >= CallLevel && Shaped(obj)
    case Grouping(inner) => Shaped(inner)
    case _ => true
  }

  /** Every expression of the list is shaped. */
  predicate AllShaped(es: seq<Expr>) {
    |es| == 0 || (AllShaped(es[..|es| - 1]) && Shaped(es[|es| - 1]))
  }

  /** A ternary whose three operands bind at least as tightly as a ternary is shaped. */
  lemma TernaryShaped(c: Expr, ifOperator: Token, t: Expr, orOperator: Token, f: Expr)
    requires Shaped(c) && Shaped(t) && Shaped(f)
    requires Level(c) >= TernaryLevel && Level(t) >= TernaryLevel && Level(f) >= TernaryLevel
    ensures Shaped(Ternary(c, ifOperator, t, orOperator, f)) && Level(Ternary(c, ifOperator, t, orOperator, f)) == TernaryLevel
  {
  }

  /** A binary node over shaped operands that bind tightly enough is shaped, at its operator's level. */
  lemma BinaryShaped(l: Expr, op: Token, r: Expr)
    requires Shaped(l) && Shaped(r) && EqualityLevel <= OperatorLevel(op.kind) <= FactorLevel
    requires Level(l) >= OperatorLevel(op.kind) && Level(r) > OperatorLevel(op.kind)
    ensures Shaped(Binary(l, op, r)) && Level(Binary(l, op, r)) == OperatorLevel(op.kind)
  {
  }

  /** A logical node over shaped operands that bind tightly enough is shaped, at its operator's level. */
  lemma LogicalShaped(l: Expr, op: Token, r: Expr)
    requires Shaped(l) && Shaped(r) && (op.kind == OR || op.kind == AND)
    requires Level(l) >= OperatorLevel(op.kind) && Level(r) > OperatorLevel(op.kind)
    ensures Shaped(Logical(l, op, r)) && Level(Logical(l, op, r)) == OperatorLevel(op.kind)
  {
  }

  /**
   * Binary operators of one level associate to the left: in a shaped tree
   * the right operand of a level-L operator is never an operator of level L
   * or looser, while its left operand may be one of level L; and no operand
   * is an assignment or a ternary unless it is parenthesised.
   */
  lemma LeftAssociative(l: Expr, op: Token, r: Expr)
    requires Shaped(Binary(l, op, r)) || Shaped(Logical(l, op, r))
    ensures (r.Binary? || r.Logical?) ==> OperatorLevel(r.operator.kind) > OperatorLevel(op.kind)
    ensures (l.Binary? || l.Logical?) ==> OperatorLevel(l.operator.kind) >= OperatorLevel(op.kind)
    ensures !l.Assign? && !l.Set? && !l.Ternary? && !r.Assign? && !r.Set? && !r.Ternary?
  {
  }

  /**
   * The tree for `a op b op c` with one operator level: the only shaped
   * tree with those leaves in that order groups the first two.
   */
  lemma ChainGroupsLeft(a: Expr, b: Expr, c: Expr, op1: Token, op2: Token)
    requires Level(a) == PrimaryLevel && Level(b) == PrimaryLevel && Level(c) == PrimaryLevel
    requires EqualityLevel <= OperatorLevel(op1.kind) == OperatorLevel(op2.kind) <= FactorLevel
    requires Shaped(a) && Shaped(b) && Shaped(c)
    ensures Shaped(Binary(Binary(a, op1, b), op2, c))
    ensures !Shaped(Binary(a, op1, Binary(b, op2, c)))
  {
  }
}
