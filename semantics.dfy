/**
 * The value-level rules of the interpreter that do not touch the heap:
 * truthiness, equality, the host language's text of a value, the checks on
 * operand types and divisors, and the callable and arity checks.
 *
 * Numbers are the host language's double-precision floats. The model keeps
 * them as reals: comparisons and negation are exact, and the results of
 * `+ - * / %` come from the parameter `arithmetic`, which stands for the
 * floating-point operation.
 */
module Semantics {
  import opened Tokens
  import opened Syntax
  import opened Objects

  // Messages.
  const OperandNotNumber := "Operand must be a number"
  const OperandsNotNumbers := "Operands must be numbers"
  const OperandsNotAddable := "Operands must be two numbers or two strings."
  const DivideByZero := "Trying to devide by Zero."
  const FloatModulo := "float modulo"
  const NotCallable := "Can only call functions and classes."
  const AssignToLiteral := "attempting to assign to a literal value"
  const DecrementLiteral := "attempting to decrement a literal value"
  const IncrementLiteral := "attempting to increment a literal value"

  /** The operators whose operands must both be numbers. */
  const NumericOperators: set<TokenType> := {MINUS, SLASH, STAR, MODULO, GREATER, GREATER_EQUAL, LESS, LESS_EQUAL}
  /** The operators that also write the result back to a variable. */
  const CompoundOperators: set<TokenType> := {PLUS_ASSIGN, MINUS_ASSIGN, STAR_ASSIGN, SLASH_ASSIGN}

  /** none and false are falsy; every other value is truthy, 0 and the empty string included. */
  function IsTruthy(v: Value): (r: bool)
    ensures !r <==> v == NoneV || v == BoolV(false)
  {
    match v
    case NoneV => false
    case BoolV(b) => b
    case _ => true
  }

  /** Truthiness is not the printer's falsiness: zero and the empty string are truthy. */
  lemma ZeroAndEmptyAreTruthy()
    ensures IsTruthy(NumV(0.0)) && IsTruthy(StrV(""))
    ensures !IsTruthy(NoneV) && !IsTruthy(BoolV(false))
  {
  }

  /** Booleans compare with numbers as 1 and 0, the way the host language's equality does. */
  function NumericValue(v: Value): real
    requires v.BoolV? || v.NumV?
  {
    if v.NumV? then v.n else if v.b then 1.0 else 0.0
  }

  predicate IsNumeric(v: Value) {
    v.BoolV? || v.NumV?
  }

  /**
   * The host language's `==`: numbers and booleans by numeric value, strings
   * by contents, none only with none, objects by identity.
   */
  function IsEqual(a: Value, b: Value): (r: bool)
    ensures IsNumeric(a) && IsNumeric(b) ==> (r <==> NumericValue(a) == NumericValue(b))
    ensures !(IsNumeric(a) && IsNumeric(b)) ==> (r <==> a == b)
  {
    match (a, b)
    case (NumV(x), NumV(y)) => x == y
    case (BoolV(x), BoolV(y)) => x == y
    case (BoolV(x), NumV(y)) => (if x then 1.0 else 0.0) == y
    case (NumV(x), BoolV(y)) => x == (if y then 1.0 else 0.0)
    case (NoneV, NoneV) => true
    case (StrV(x), StrV(y)) => x == y
    case (FunctionV(x), FunctionV(y)) => x == y
    case (AnonV(x), AnonV(y)) => x == y
    case (ClassV(x), ClassV(y)) => x == y
    case (InstanceV(x), InstanceV(y)) => x == y
    case (NativeV(x), NativeV(y)) => x == y
    case _ => false
  }

  /** Every value equals itself. */
  lemma IsEqualReflexive(a: Value)
    ensures IsEqual(a, a)
  {
  }

  /** Equality does not depend on the order of its operands. */
  lemma IsEqualSymmetric(a: Value, b: Value)
    ensures IsEqual(a, b) == IsEqual(b, a)
  {
  }

  /** Equality is transitive, across booleans and numbers too. */
  lemma IsEqualTransitive(a: Value, b: Value, c: Value)
    ensures IsEqual(a, b) && IsEqual(b, c) ==> IsEqual(a, c)
  {
  }

  /** `true == 1` and `false == 0` hold, as in the host language. */
  lemma BoolsEqualNumbers()
    ensures IsEqual(BoolV(true), NumV(1.0)) && IsEqual(BoolV(false), NumV(0.0))
    ensures !IsEqual(BoolV(true), NumV(0.0)) && !IsEqual(BoolV(false), NumV(1.0))
  {
  }

  /** The decimal digits of a natural number. */
  function Decimal(n: nat): (s: string)
    ensures |s| > 0 && forall i | 0 <= i < |s| :: '0' <= s[i] <= '9'
  {
    if n < 10 then ["0123456789"[n]] else Decimal(n / 10) + ["0123456789"[n % 10]]
  }

  /**
   * The host language's text of a value: `numberText` for a float, the
   * class-qualified forms for objects.
   */
  function Str(v: Value, numberText: real -> string): string {
    match v
    case NoneV => "None"
    case BoolV(b) => if b then "True" else "False"
    case NumV(n) => numberText(n)
    case StrV(s) => s
    case FunctionV(f) => "<fn " + f.declaration.name.symbol + ">"
    case AnonV(_) => "<fn Anonymous>"
    case ClassV(c) => "<PloxClass " + c.name + ">"
    case InstanceV(i) => "[<PloxClass " + i.klass.name + "> instance]"
    case NativeV(_) => "<Native Fn>"
  }

  /**
   * The text `echo` prints: "none" for none, a float's text without a
   * trailing ".0", and the host text of anything else.
   */
  function Stringify(v: Value, numberText: real -> string): (r: string)
    ensures v.NoneV? ==> r == "none"
    ensures v.NumV? ==> var t := numberText(v.n);
                        if |t| >= 2 && t[|t| - 2..] == ".0" then r + ".0" == t else r == t
    ensures !v.NoneV? && !v.NumV? ==> r == Str(v, numberText)
  {
    match v
    case NoneV => "none"
    case NumV(n) =>
      var t := numberText(n);
      if |t| >= 2 && t[|t| - 2..] == ".0" then t[..|t| - 2] else t
    case _ => Str(v, numberText)
  }

  /** The values that are not objects. */
  predicate Primitive(v: Value) {
    v.NoneV? || v.BoolV? || v.NumV? || v.StrV?
  }

  /** The runtime value of a literal token. */
  function LiteralValue(l: Lit): (v: Value)
    ensures Primitive(v)
    ensures l.NumLit? <==> v.NumV?
  {
    match l
    case NoneLit => NoneV
    case BoolLit(b) => BoolV(b)
    case NumLit(n) => NumV(n)
    case StrLit(s) => StrV(s)
  }

  /** A unary minus or step operand must be a number. */
  function NumberOperand(operator: Token, v: Value): (r: Outcome<real>)
    ensures r.Ok? <==> v.NumV?
    ensures r.Ok? ==> r.value == v.n
    ensures !r.Ok? ==> r == Thrown(operator, OperandNotNumber)
  {
    if v.NumV? then Ok(v.n) else Thrown(operator, OperandNotNumber)
  }

  /** Both operands of an arithmetic or comparison operator must be numbers. */
  function NumberOperands(operator: Token, left: Value, right: Value): (r: Outcome<(real, real)>)
    ensures r.Ok? <==> left.NumV? && right.NumV?
    ensures r.Ok? ==> r.value == (left.n, right.n)
    ensures !r.Ok? ==> r == Thrown(operator, OperandsNotNumbers)
  {
    if left.NumV? && right.NumV? then Ok((left.n, right.n)) else Thrown(operator, OperandsNotNumbers)
  }

  /**
   * A binary operator applied to two evaluated operands, for every
   * operator but the compound assignments: numeric operators demand
   * numbers; `/` refuses a zero on either side; `%` by zero is a host
   * failure; `+` adds numbers, joins strings, and joins the host text of
   * both sides when either is a string; `==` and `!=` use host equality;
   * any other operator yields none.
   */
  function BinaryValue(operator: Token, left: Value, right: Value,
                       arithmetic: (TokenType, real, real) -> real, numberText: real -> string): (r: Outcome<Value>)
    requires operator.kind !in CompoundOperators
    ensures r.Ok? ==> Primitive(r.value)
    ensures operator.kind in NumericOperators && !(left.NumV? && right.NumV?) ==> r == Thrown(operator, OperandsNotNumbers)
    ensures operator.kind == SLASH && left.NumV? && right.NumV? ==>
              (r.Thrown? <==> left.n == 0.0 || right.n == 0.0) && (r.Thrown? ==> r == Thrown(operator, DivideByZero))
    ensures r.Crashed? <==> operator.kind == MODULO && left.NumV? && right.NumV? && right.n == 0.0
    ensures operator.kind == PLUS ==>
              (r.Thrown? <==> !(left.NumV? && right.NumV?) && !left.StrV? && !right.StrV?)
    ensures operator.kind == PLUS && (left.StrV? || right.StrV?) ==>
              r == Ok(StrV(Str(left, numberText) + Str(right, numberText)))
    ensures operator.kind in {GREATER, GREATER_EQUAL, LESS, LESS_EQUAL} && r.Ok? ==> r.value.BoolV?
    ensures operator.kind == EQUAL_EQUAL ==> r == Ok(BoolV(IsEqual(left, right)))
    ensures operator.kind == BANG_EQUAL ==> r == Ok(BoolV(!IsEqual(left, right)))
    ensures operator.kind !in NumericOperators + {PLUS, EQUAL_EQUAL, BANG_EQUAL} ==> r == Ok(NoneV)
  {
    if operator.kind in NumericOperators then
      var (x, y) :- NumberOperands(operator, left, right);
      match operator.kind
      case SLASH => if x == 0.0 || y == 0.0 then Thrown(operator, DivideByZero) else Ok(NumV(arithmetic(SLASH, x, y)))
      case MODULO => if y == 0.0 then Crashed(FloatModulo) else Ok(NumV(arithmetic(MODULO, x, y)))
      case GREATER => Ok(BoolV(x > y))
      case GREATER_EQUAL => Ok(BoolV(x >= y))
      case LESS => Ok(BoolV(x < y))
      case LESS_EQUAL => Ok(BoolV(x <= y))
      case _ => Ok(NumV(arithmetic(operator.kind, x, y)))
    else if operator.kind == PLUS then
      if left.NumV? && right.NumV? then Ok(NumV(arithmetic(PLUS, left.n, right.n)))
      else if left.StrV? || right.StrV? then Ok(StrV(Str(left, numberText) + Str(right, numberText)))
      else Thrown(operator, OperandsNotAddable)
    else if operator.kind == EQUAL_EQUAL then Ok(BoolV(IsEqual(left, right)))
    else if operator.kind == BANG_EQUAL then Ok(BoolV(!IsEqual(left, right)))
    else Ok(NoneV)
  }

  /** Two strings join without any conversion. */
  lemma JoinStrings(operator: Token, s: string, t: string,
                    arithmetic: (TokenType, real, real) -> real, numberText: real -> string)
    requires operator.kind == PLUS
    ensures BinaryValue(operator, StrV(s), StrV(t), arithmetic, numberText) == Ok(StrV(s + t))
  {
  }

  /** The arithmetic operator behind each compound assignment. */
  function BaseOperator(kind: TokenType): TokenType
    requires kind in CompoundOperators
  {
    match kind
    case PLUS_ASSIGN => PLUS
    case MINUS_ASSIGN => MINUS
    case STAR_ASSIGN => STAR
    case SLASH_ASSIGN => SLASH
  }

  /**
   * The number a compound assignment writes back, after its checks: the
   * target must be a variable, both operands numbers, and for `/=`
   * neither operand zero.
   */
  function CompoundValue(operator: Token, target: Expr, left: Value, right: Value,
                         arithmetic: (TokenType, real, real) -> real): (r: Outcome<real>)
    requires operator.kind in CompoundOperators
    ensures !target.Variable? ==> r == Thrown(operator, AssignToLiteral)
    ensures target.Variable? && !(left.NumV? && right.NumV?) ==> r == Thrown(operator, OperandsNotNumbers)
    ensures r.Ok? <==> target.Variable? && left.NumV? && right.NumV? &&
                       (operator.kind == SLASH_ASSIGN ==> left.n != 0.0 && right.n != 0.0)
    ensures r.Ok? ==> r.value == arithmetic(BaseOperator(operator.kind), left.n, right.n)
  {
    if !target.Variable? then Thrown(operator, AssignToLiteral)
    else
      var (x, y) :- NumberOperands(operator, left, right);
      if operator.kind == SLASH_ASSIGN && (x == 0.0 || y == 0.0) then Thrown(operator, DivideByZero)
      else Ok(arithmetic(BaseOperator(operator.kind), x, y))
  }

  /** `!` negates truthiness; unary `-` negates a number; any other operator yields none. */
  function UnaryValue(operator: Token, v: Value): (r: Outcome<Value>)
    ensures r.Ok? ==> Primitive(r.value)
    ensures operator.kind == BANG ==> r == Ok(BoolV(!IsTruthy(v)))
    ensures operator.kind == MINUS ==> (r.Ok? <==> v.NumV?) && (r.Ok? ==> r == Ok(NumV(-v.n)))
    ensures operator.kind !in {BANG, MINUS} ==> r == Ok(NoneV)
  {
    match operator.kind
    case BANG => Ok(BoolV(!IsTruthy(v)))
    case MINUS =>
      var n :- NumberOperand(operator, v);
      Ok(NumV(-n))
    case _ => Ok(NoneV)
  }

  /**
   * The new value of `++` or `--` after its checks: the operand must be a
   * variable and a number.
   */
  function StepValue(operator: Token, target: Expr, v: Value, arithmetic: (TokenType, real, real) -> real): (r: Outcome<real>)
    requires operator.kind in {PLUS_PLUS, MINUS_MINUS}
    ensures !target.Variable? ==>
              r == Thrown(operator, if operator.kind == PLUS_PLUS then IncrementLiteral else DecrementLiteral)
    ensures r.Ok? <==> target.Variable? && v.NumV?
    ensures r.Ok? ==> r.value == arithmetic(if operator.kind == PLUS_PLUS then PLUS else MINUS, v.n, 1.0)
  {
    if !target.Variable? then
      Thrown(operator, if operator.kind == PLUS_PLUS then IncrementLiteral else DecrementLiteral)
    else
      var n :- NumberOperand(operator, v);
      Ok(arithmetic(if operator.kind == PLUS_PLUS then PLUS else MINUS, n, 1.0))
  }

  /** The number of arguments a callable takes, or None for a value that cannot be called. */
  function ArityOf(v: Value): (r: Option<nat>)
    requires v.ClassV? ==> v.klass.Linked()
    ensures r.None? <==> !(v.FunctionV? || v.AnonV? || v.ClassV? || v.NativeV?)
    ensures v.FunctionV? ==> r == Some(|v.func.declaration.params|)
    ensures v.AnonV? ==> r == Some(|v.anon.params|)
    ensures v.ClassV? ==> r == Some(v.klass.Arity())
    ensures v.NativeV? ==> r == Some(0)
  {
    match v
    case FunctionV(f) => Some(|f.declaration.params|)
    case AnonV(f) => Some(|f.params|)
    case ClassV(c) => Some(c.Arity())
    case NativeV(_) => Some(0)
    case _ => None
  }

  function ArityMismatch(expected: nat, got: nat): string {
    "Expected " + Decimal(expected) + " arguments but got " + Decimal(got) + "."
  }

  /**
   * The checks a call makes once callee and arguments are evaluated: the
   * callee must be callable, and the argument count must equal its arity.
   */
  function CallCheck(paren: Token, callee: Value, count: nat): (r: Outcome<nat>)
    requires callee.ClassV? ==> callee.klass.Linked()
    ensures ArityOf(callee).None? ==> r == Thrown(paren, NotCallable)
    ensures ArityOf(callee).Some? && ArityOf(callee).value != count ==>
              r == Thrown(paren, ArityMismatch(ArityOf(callee).value, count))
    ensures r.Ok? <==> ArityOf(callee) == Some(count)
  {
    var arity := ArityOf(callee);
    if arity.None? then Thrown(paren, NotCallable)
    else if arity.value != count then Thrown(paren, ArityMismatch(arity.value, count))
    else Ok(count)
  }

  /**
   * Whether `and`/`or` stops at its left operand: `or` at a truthy one,
   * any other operator at a falsy one.
   */
  function ShortCircuits(operator: Token, left: Value): (r: bool)
    ensures operator.kind == OR ==> (r <==> IsTruthy(left))
    ensures operator.kind != OR ==> (r <==> !IsTruthy(left))
  {
    if operator.kind == OR then IsTruthy(left) else !IsTruthy(left)
  }
}
