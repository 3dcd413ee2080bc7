/**
 * The grammar the parser follows, as functions of the token list, a position
 * in it and the error log so far. Each production yields its tree (or the
 * parse error it raised), the position after it and the log after it, exactly
 * as the recursive-descent parser leaves its cursor and the shared log.
 */
module Grammar {
  import opened Tokens
  import opened Errors
  import opened Syntax

  /** The outcome of a production: its tree, or the parse error it raised (already reported). */
  datatype Parsed<+T> = Ok(value: T) | Failed {
    predicate IsFailure() { Failed? }
    function PropagateFailure<U>(): Parsed<U>
      requires Failed?
    {
      Failed
    }
    function Extract(): T
      requires Ok?
    {
      value
    }
  }

  /** What a production leaves behind: its outcome, the position after it and the log after it. */
  datatype Produced<+T> = Produced(result: Parsed<T>, next: nat, log: seq<Diagnostic>) {
    /** The same failure, as the outcome of a production with another result type. */
    function Propagate<U>(): Produced<U>
      requires result.Failed?
    {
      Produced(Failed, next, log)
    }
  }

  /** A token list as the scanner delivers it: never empty, and ending with EOF. */
  type TokenList = ts: seq<Token> | |ts| > 0 && ts[|ts| - 1].kind == EOF
    witness [Token(EOF, "", NoneLit, Position(1, 0, 0, 0), 0)]

  /** Keywords that start a statement; error recovery stops in front of them. */
  const StatementStarts: set<TokenType> := {CLASS, FN, LET, FOR, IF, WHILE, ECHO, RETURN}

  /** The operators each binary and unary level of the grammar accepts. */
  const OrOperators: set<TokenType> := {OR}
  const AndOperators: set<TokenType> := {AND}
  const EqualityOperators: set<TokenType> := {BANG_EQUAL, EQUAL_EQUAL}
  const ComparisonOperators: set<TokenType> := {GREATER, GREATER_EQUAL, LESS, LESS_EQUAL}
  const CompoundAssignOperators: set<TokenType> := {PLUS_ASSIGN, MINUS_ASSIGN, STAR_ASSIGN, SLASH_ASSIGN}
  const TermOperators: set<TokenType> := {MINUS, PLUS}
  const ModuloOperators: set<TokenType> := {MODULO}
  const FactorOperators: set<TokenType> := {SLASH, STAR}
  const UnaryOperators: set<TokenType> := {BANG, MINUS}
  const StepOperators: set<TokenType> := {PLUS_PLUS, MINUS_MINUS}

  /** The kinds a primary expression starts with. */
  const PrimaryStarts: set<TokenType> := {FALSE, TRUE, NONE, NUMBER, STRING, SUPER, SELF, IDENTIFIER, LEFT_PAREN}

  /** The operators of one rung of the left-associative part of the ladder, from `or` to `*` and `/`. */
  function OperatorsAt(level: nat): (ks: set<TokenType>)
    requires OrLevel <= level <= FactorLevel
    ensures forall k | k in ks :: OperatorLevel(k) == level
    ensures EOF !in ks
  {
    if level == OrLevel then OrOperators
    else if level == AndLevel then AndOperators
    else if level == EqualityLevel then EqualityOperators
    else if level == ComparisonLevel then ComparisonOperators
    else if level == CompoundLevel then CompoundAssignOperators
    else if level == TermLevel then TermOperators
    else if level == ModuloLevel then ModuloOperators
    else FactorOperators
  }

  /** The node one rung builds: `or` and `and` are logical, the other operators binary. */
  function Node(level: nat, left: Expr, operator: Token, right: Expr): Expr {
    if level <= AndLevel then Logical(left, operator, right) else Binary(left, operator, right)
  }

  /**
   * The statement a `for` loop stands for: the body followed by the
   * increment, looped while the condition (true when absent) holds, after
   * the initializer. Absent parts add no wrapping block.
   */
  function ForLoop(initializer: Option<Stmt>, condition: Option<Expr>, increment: Option<Expr>, body: Stmt): (s: Stmt)
    ensures !s.Missing?
    ensures initializer.None? ==> s.While?
    ensures initializer.Some? ==> s.Block? && |s.statements| == 2 && s.statements[0] == initializer.value && s.statements[1].While?
    ensures var loop := if initializer.None? then s else s.statements[1];
            loop.While? &&
            loop.condition == (if condition.Some? then condition.value else Literal(BoolLit(true))) &&
            loop.body == (if increment.Some? then Block([body, Expression(increment.value)]) else body)
  {
    var body := if increment.Some? then Block([body, Expression(increment.value)]) else body;
    var loop := While(if condition.Some? then condition.value else Literal(BoolLit(true)), body);
    if initializer.Some? then Block([initializer.value, loop]) else loop
  }

  /** The tree an assignment to `target` builds, or None when `target` cannot be assigned. */
  function AssignTo(target: Expr, value: Expr): (r: Option<Expr>)
    ensures r.Some? <==> target.Variable? || target.Get?
    ensures target.Variable? ==> r == Some(Assign(target.name, value))
    ensures target.Get? ==> r == Some(Set(target.obj, target.name, value))
  {
    match target
    case Variable(name) => Some(Assign(name, value))
    case Get(obj, name) => Some(Set(obj, name, value))
    case _ => None
  }

  /** The log `after` extends `before`, by at least one report when `added` holds. */
  predicate Reported(before: seq<Diagnostic>, after: seq<Diagnostic>, added: bool) {
    before <= after && (added ==> |before| < |after|)
  }

  // Messages of the parse errors.
  const ExpectClassName := "Expect class name."
  const ExpectSuperclassName := "Expect superclass name."
  const ExpectGreaterAfterSuperclass := "Expect '>' after superclass."
  const ExpectBraceBeforeClassBody := "Expect '{' before class body."
  const ExpectBraceAfterClassBody := "Expect '}' after class body."
  const ExpectParameterName := "Expected parameter name"
  const ExpectParenAfterParameters := "Expected ')' after parameters."
  const ExpectVariableName := "Expected variable name."
  const ExpectSemicolonAfterDeclaration := "Expected ';' after variable declaration."
  const ExpectSemicolonAfterCondition := "Expected ';' after loop condition."
  const ExpectColonAfterCondition := "Expected ':' after condition."
  const ExpectSemicolonAfterValue := "Expected ';' after value."
  const ExpectSemicolonAfterReturn := "Expected ';' after return value."
  const ExpectSemicolonAfterExpression := "Expected ';' after expression"
  const ExpectBraceAfterBlock := "Expected '}' after block."
  const ExpectColonInTernary := "Expected ':' after ? in ternary expression (condition ? true: false)."
  const ExpectPropertyName := "Expect property name after '.'"
  const ExpectParenAfterArguments := "Expected ')' after arguments."
  const ExpectDoubleColonAfterSuper := "Expect '::' after 'super'"
  const ExpectSuperclassMethodName := "Expect superclass method name"
  const ExpectParenAfterExpression := "Expected ')' after expression."
  const ExpectExpression := "Expected expression."
  function ExpectName(kind: string): string { "Expected " + kind + " name." }
  function ExpectParenAfterName(kind: string): string { "Expected '(' after " + kind + " name." }
  /** As in the source, without spaces around `kind`. */
  function ExpectBraceBeforeBody(kind: string): string { "Expected '{' before" + kind + "body" }
  const InvalidTarget := "Invalid assignment target."
  const TooManyParameters := "Can't have more than 255 parameters."
  const TooManyArguments := "Can't have more than 255 arguments."
  /** The kinds that name what is being declared in the messages above. */
  const FunctionKind := "function"
  const MethodKind := "method"
  const AnonymousKind := "anonymous"

  // ---------------------------------------------------------- tokens

  /** The token before position `i`; before the first token this is the last one. */
  function PreviousAt(ts: TokenList, i: nat): (t: Token)
    requires i < |ts|
    ensures i == 0 ==> t.kind == EOF
  {
    if i == 0 then ts[|ts| - 1] else ts[i - 1]
  }

  /** The token at `i` has kind `kind`; never true at EOF. */
  predicate CheckAt(ts: TokenList, i: nat, kind: TokenType)
    requires i < |ts|
  {
    ts[i].kind != EOF && ts[i].kind == kind
  }

  /** The token at `i` is consumed by a match on `kinds`. */
  predicate MatchAt(ts: TokenList, i: nat, kinds: set<TokenType>)
    requires i < |ts|
  {
    ts[i].kind != EOF && ts[i].kind in kinds
  }

  /** The token of kind `kind` at `i`; otherwise `message` is reported at the previous token. */
  function ConsumeAt(ts: TokenList, i: nat, log: seq<Diagnostic>, kind: TokenType, message: string): (p: Produced<Token>)
    requires i < |ts|
    ensures Moves(ts, i, log, p)
    ensures CheckAt(ts, i, kind) <==> p.result.Ok?
    ensures p.result.Ok? ==> p.result.value == ts[i] && p.next == i + 1 && p.log == log
    ensures p.result.Failed? ==> p.next == i && p.log == log + [AtToken(ERROR, PreviousAt(ts, i), message)]
  {
    if CheckAt(ts, i, kind) then Produced(Ok(ts[i]), i + 1, log)
    else Produced(Failed, i, log + [AtToken(ERROR, PreviousAt(ts, i), message)])
  }

  /** A tree that is present, as an optional part of a larger one. */
  function Present<T>(p: Produced<T>): Produced<Option<T>> {
    if p.result.Ok? then Produced(Ok(Some(p.result.value)), p.next, p.log) else p.Propagate()
  }

  /** What every production guarantees: the position stays on a token and never moves back. */
  predicate Progress<T>(ts: TokenList, i: nat, log: seq<Diagnostic>, p: Produced<T>) {
    i <= p.next < |ts|
  }

  /** Progress, and a success has consumed at least one token. */
  predicate Moves<T>(ts: TokenList, i: nat, log: seq<Diagnostic>, p: Produced<T>) {
    Progress(ts, i, log, p) && (p.result.Ok? ==> i < p.next)
  }

  // ---------------------------------------------------------- recovery

  /** A point where error recovery stops: the end, just after a `;`, or in front of a statement keyword. */
  predicate SyncPoint(ts: TokenList, p: nat)
    requires 0 < p < |ts|
  {
    ts[p].kind == EOF || ts[p - 1].kind == SEMICOLON || ts[p].kind in StatementStarts
  }

  /** The first sync point at or after `j`. */
  function SkipFrom(ts: TokenList, j: nat): (k: nat)
    requires 0 < j < |ts|
    ensures j <= k < |ts| && SyncPoint(ts, k)
    ensures forall p :: j <= p < k ==> !SyncPoint(ts, p)
    decreases |ts| - j
  {
    if SyncPoint(ts, j) then j else SkipFrom(ts, j + 1)
  }

  /** Where error recovery from `i` stops: unless at EOF, past at least one token, at the first sync point. */
  function SyncFrom(ts: TokenList, i: nat): (j: nat)
    requires i < |ts|
    ensures j < |ts|
    ensures ts[i].kind == EOF ==> j == i
    ensures ts[i].kind != EOF ==> i < j && SyncPoint(ts, j) && forall p :: i < p < j ==> !SyncPoint(ts, p)
  {
    if ts[i].kind == EOF then i else SkipFrom(ts, i + 1)
  }

  // ---------------------------------------------------------- declarations

  /** The whole program from `i`: declarations until EOF, added to `statements`. */
  function ProgramFrom(ts: TokenList, i: nat, log: seq<Diagnostic>, statements: seq<Stmt>): (p: Produced<seq<Stmt>>)
    requires i < |ts|
    ensures p.result.Ok? && i <= p.next < |ts| && ts[p.next].kind == EOF
    decreases |ts| - i
  {
    if ts[i].kind == EOF then Produced(Ok(statements), i, log)
    else
      var d := DeclarationAt(ts, i, log);
      ProgramFrom(ts, d.next, d.log, statements + [d.result.value])
  }

  /**
   * A declaration or statement. On a parse error the declaration is
   * `Missing` and the position is where error recovery stops.
   */
  function DeclarationAt(ts: TokenList, i: nat, log: seq<Diagnostic>): (p: Produced<Stmt>)
    requires i < |ts|
    ensures Progress(ts, i, log, p) && p.result.Ok?
    ensures ts[i].kind != EOF ==> i < p.next
    decreases |ts| - i, 41
  {
    var d := DeclaredAt(ts, i, log);
    if d.result.Failed? then Produced(Ok(Missing), SyncFrom(ts, d.next), d.log) else d
  }

  /** A class, function or variable declaration chosen by its keyword, or else a statement; a failure is left to the caller. */
  function DeclaredAt(ts: TokenList, i: nat, log: seq<Diagnostic>): (p: Produced<Stmt>)
    requires i < |ts|
    ensures Moves(ts, i, log, p)
    ensures p.result.Ok? ==> !p.result.value.Missing?
    decreases |ts| - i, 40
  {
    if MatchAt(ts, i, {CLASS}) then ClassDeclarationAt(ts, i + 1, log)
    else if MatchAt(ts, i, {FN}) then
      var f := FunctionAt(ts, i + 1, log, FunctionKind);
      if f.result.Ok? then Produced(Ok(Stmt.Function(f.result.value)), f.next, f.log) else f.Propagate()
    else if MatchAt(ts, i, {LET}) then VarDeclarationAt(ts, i + 1, log)
    else StatementAt(ts, i, log)
  }

  /** A class after its keyword: name, optional `<superclass>`, then methods between braces. */
  function ClassDeclarationAt(ts: TokenList, i: nat, log: seq<Diagnostic>): (p: Produced<Stmt>)
    requires i < |ts|
    ensures Moves(ts, i, log, p)
    ensures p.result.Ok? ==> p.result.value.Class?
    decreases |ts| - i, 39
  {
    var name := ConsumeAt(ts, i, log, IDENTIFIER, ExpectClassName);
    if name.result.Failed? then name.Propagate() else
    var superclass := SuperclassAt(ts, name.next, name.log);
    if superclass.result.Failed? then superclass.Propagate() else
    var open := ConsumeAt(ts, superclass.next, superclass.log, LEFT_BRACE, ExpectBraceBeforeClassBody);
    if open.result.Failed? then open.Propagate() else
    var methods := MethodsFrom(ts, open.next, open.log, []);
    if methods.result.Failed? then methods.Propagate() else
    var close := ConsumeAt(ts, methods.next, methods.log, RIGHT_BRACE, ExpectBraceAfterClassBody);
    if close.result.Failed? then close.Propagate() else
    Produced(Ok(Class(name.result.value, methods.result.value, superclass.result.value)), close.next, close.log)
  }

  /** The optional `< name >` after a class name. */
  function SuperclassAt(ts: TokenList, i: nat, log: seq<Diagnostic>): (p: Produced<Option<Token>>)
    requires i < |ts|
    ensures Progress(ts, i, log, p)
    ensures p.result.Ok? ==>
              (p.result.value.Some? <==> CheckAt(ts, i, LESS)) &&
              (p.result.value.Some? ==> p.result.value.value == ts[i + 1] && ts[i + 1].kind == IDENTIFIER)
  {
    if !MatchAt(ts, i, {LESS}) then Produced(Ok(None), i, log) else
    var name := ConsumeAt(ts, i + 1, log, IDENTIFIER, ExpectSuperclassName);
    if name.result.Failed? then name.Propagate() else
    var close := ConsumeAt(ts, name.next, name.log, GREATER, ExpectGreaterAfterSuperclass);
    if close.result.Failed? then close.Propagate() else
    Produced(Ok(Some(name.result.value)), close.next, close.log)
  }

  /** Methods of a class body, added to `methods`, until `}` or EOF. */
  function MethodsFrom(ts: TokenList, i: nat, log: seq<Diagnostic>, methods: seq<FunctionDecl>): (p: Produced<seq<FunctionDecl>>)
    requires i < |ts|
    ensures Progress(ts, i, log, p)
    ensures p.result.Ok? ==> CheckAt(ts, p.next, RIGHT_BRACE) || ts[p.next].kind == EOF
    decreases |ts| - i, 39
  {
    if CheckAt(ts, i, RIGHT_BRACE) || ts[i].kind == EOF then Produced(Ok(methods), i, log) else
    var f := FunctionAt(ts, i, log, MethodKind);
    if f.result.Failed? then f.Propagate() else
    MethodsFrom(ts, f.next, f.log, methods + [f.result.value])
  }

  /** Parameter names up to a `)`, none when `)` is next; past 255 each further one is reported but kept. */
  function ParametersAt(ts: TokenList, i: nat, log: seq<Diagnostic>): (p: Produced<seq<Token>>)
    requires i < |ts|
    ensures Progress(ts, i, log, p)
    ensures CheckAt(ts, i, RIGHT_PAREN) ==> p == Produced(Ok([]), i, log)
  {
    if CheckAt(ts, i, RIGHT_PAREN) then Produced(Ok([]), i, log) else ParametersFrom(ts, i, log, [])
  }

  /** The comma-separated parameters from `i`, added to `parameters`. */
  function ParametersFrom(ts: TokenList, i: nat, log: seq<Diagnostic>, parameters: seq<Token>): (p: Produced<seq<Token>>)
    requires i < |ts|
    ensures Progress(ts, i, log, p)
    decreases |ts| - i
  {
    var reported := if |parameters| >= 255 then log + [AtToken(ERROR, ts[i], TooManyParameters)] else log;
    var name := ConsumeAt(ts, i, reported, IDENTIFIER, ExpectParameterName);
    if name.result.Failed? then name.Propagate() else
    var collected := parameters + [name.result.value];
    if MatchAt(ts, name.next, {COMMA}) then ParametersFrom(ts, name.next + 1, name.log, collected)
    else Produced(Ok(collected), name.next, name.log)
  }

  /** A named function; `kind` is "function" or "method" and only shapes the messages. */
  function FunctionAt(ts: TokenList, i: nat, log: seq<Diagnostic>, kind: string): (p: Produced<FunctionDecl>)
    requires i < |ts|
    ensures Moves(ts, i, log, p)
    decreases |ts| - i, 38
  {
    var name := ConsumeAt(ts, i, log, IDENTIFIER, ExpectName(kind));
    if name.result.Failed? then name.Propagate() else
    var open := ConsumeAt(ts, name.next, name.log, LEFT_PAREN, ExpectParenAfterName(kind));
    if open.result.Failed? then open.Propagate() else
    var parameters := ParametersAt(ts, open.next, open.log);
    if parameters.result.Failed? then parameters.Propagate() else
    var close := ConsumeAt(ts, parameters.next, parameters.log, RIGHT_PAREN, ExpectParenAfterParameters);
    if close.result.Failed? then close.Propagate() else
    var brace := ConsumeAt(ts, close.next, close.log, LEFT_BRACE, ExpectBraceBeforeBody(kind));
    if brace.result.Failed? then brace.Propagate() else
    var body := BlockAt(ts, brace.next, brace.log);
    if body.result.Failed? then body.Propagate() else
    Produced(Ok(FunctionDecl(name.result.value, parameters.result.value, body.result.value)), body.next, body.log)
  }

  /** A `let` after its keyword: name, optional `= initializer`, then `;`. */
  function VarDeclarationAt(ts: TokenList, i: nat, log: seq<Diagnostic>): (p: Produced<Stmt>)
    requires i < |ts|
    ensures Moves(ts, i, log, p)
    ensures p.result.Ok? ==> p.result.value.Var?
    decreases |ts| - i, 37
  {
    var name := ConsumeAt(ts, i, log, IDENTIFIER, ExpectVariableName);
    if name.result.Failed? then name.Propagate() else
    var initializer :=
      if MatchAt(ts, name.next, {EQUAL}) then Present(ExpressionAt(ts, name.next + 1, name.log))
      else Produced(Ok(None), name.next, name.log);
    if initializer.result.Failed? then initializer.Propagate() else
    var semicolon := ConsumeAt(ts, initializer.next, initializer.log, SEMICOLON, ExpectSemicolonAfterDeclaration);
    if semicolon.result.Failed? then semicolon.Propagate() else
    Produced(Ok(Var(name.result.value, initializer.result.value)), semicolon.next, semicolon.log)
  }

  // ---------------------------------------------------------- statements

  /** A statement, chosen by its first token; anything else is an expression statement. */
  function StatementAt(ts: TokenList, i: nat, log: seq<Diagnostic>): (p: Produced<Stmt>)
    requires i < |ts|
    ensures Moves(ts, i, log, p)
    ensures p.result.Ok? ==> !p.result.value.Missing?
    decreases |ts| - i, 36
  {
    if MatchAt(ts, i, {FOR}) then ForStatementAt(ts, i + 1, log)
    else if MatchAt(ts, i, {IF}) then IfAt(ts, i + 1, log)
    else if MatchAt(ts, i, {ECHO}) then EchoAt(ts, i + 1, log)
    else if MatchAt(ts, i, {RETURN}) then ReturnAt(ts, i + 1, log)
    else if MatchAt(ts, i, {WHILE}) then WhileAt(ts, i + 1, log)
    else if MatchAt(ts, i, {LEFT_BRACE}) then
      var b := BlockAt(ts, i + 1, log);
      if b.result.Failed? then b.Propagate() else Produced(Ok(Stmt.Block(b.result.value)), b.next, b.log)
    else ExpressionStatementAt(ts, i, log)
  }

  /**
   * A `for` loop after its keyword: initializer, condition, `;`, increment
   * and body, with no parentheses; the result is the loop it stands for.
   */
  function ForStatementAt(ts: TokenList, i: nat, log: seq<Diagnostic>): (p: Produced<Stmt>)
    requires i < |ts|
    ensures Moves(ts, i, log, p)
    ensures p.result.Ok? ==> !p.result.value.Missing?
    decreases |ts| - i, 35
  {
    var initializer := ForInitializerAt(ts, i, log);
    if initializer.result.Failed? then initializer.Propagate() else
    var condition := OptionalExpressionAt(ts, initializer.next, initializer.log, SEMICOLON);
    if condition.result.Failed? then condition.Propagate() else
    var semicolon := ConsumeAt(ts, condition.next, condition.log, SEMICOLON, ExpectSemicolonAfterCondition);
    if semicolon.result.Failed? then semicolon.Propagate() else
    var increment := OptionalExpressionAt(ts, semicolon.next, semicolon.log, RIGHT_PAREN);
    if increment.result.Failed? then increment.Propagate() else
    var body := StatementAt(ts, increment.next, increment.log);
    if body.result.Failed? then body.Propagate() else
    Produced(Ok(ForLoop(initializer.result.value, condition.result.value, increment.result.value, body.result.value)), body.next, body.log)
  }

  /** A `for` initializer: absent after a bare `;`, else a `let` declaration or an expression statement. */
  function ForInitializerAt(ts: TokenList, i: nat, log: seq<Diagnostic>): (p: Produced<Option<Stmt>>)
    requires i < |ts|
    ensures Moves(ts, i, log, p)
    ensures p.result.Ok? && p.result.value.Some? ==> !p.result.value.value.Missing?
    decreases |ts| - i, 34
  {
    if MatchAt(ts, i, {SEMICOLON}) then Produced(Ok(None), i + 1, log)
    else if MatchAt(ts, i, {LET}) then Present(VarDeclarationAt(ts, i + 1, log))
    else Present(ExpressionStatementAt(ts, i, log))
  }

  /** An expression that is absent when `stop` is next (which is not consumed). */
  function OptionalExpressionAt(ts: TokenList, i: nat, log: seq<Diagnostic>, stop: TokenType): (p: Produced<Option<Expr>>)
    requires i < |ts|
    ensures Progress(ts, i, log, p)
    decreases |ts| - i, 31
  {
    if CheckAt(ts, i, stop) then Produced(Ok(None), i, log) else Present(ExpressionAt(ts, i, log))
  }

  /** An `if` after its keyword: condition, `:`, then-branch and an optional `else` branch. */
  function IfAt(ts: TokenList, i: nat, log: seq<Diagnostic>): (p: Produced<Stmt>)
    requires i < |ts|
    ensures Moves(ts, i, log, p)
    ensures p.result.Ok? ==> p.result.value.If?
    decreases |ts| - i, 34
  {
    var condition := ExpressionAt(ts, i, log);
    if condition.result.Failed? then condition.Propagate() else
    var colon := ConsumeAt(ts, condition.next, condition.log, COLON, ExpectColonAfterCondition);
    if colon.result.Failed? then colon.Propagate() else
    var thenBranch := StatementAt(ts, colon.next, colon.log);
    if thenBranch.result.Failed? then thenBranch.Propagate() else
    if !MatchAt(ts, thenBranch.next, {ELSE}) then
      Produced(Ok(If(condition.result.value, thenBranch.result.value, None)), thenBranch.next, thenBranch.log)
    else
      var elseBranch := StatementAt(ts, thenBranch.next + 1, thenBranch.log);
      if elseBranch.result.Failed? then elseBranch.Propagate() else
      Produced(Ok(If(condition.result.value, thenBranch.result.value, Some(elseBranch.result.value))), elseBranch.next, elseBranch.log)
  }

  /** An `echo` after its keyword: a value and `;`. */
  function EchoAt(ts: TokenList, i: nat, log: seq<Diagnostic>): (p: Produced<Stmt>)
    requires i < |ts|
    ensures Moves(ts, i, log, p)
    ensures p.result.Ok? ==> p.result.value.Echo?
    decreases |ts| - i, 34
  {
    var value := ExpressionAt(ts, i, log);
    if value.result.Failed? then value.Propagate() else
    var semicolon := ConsumeAt(ts, value.next, value.log, SEMICOLON, ExpectSemicolonAfterValue);
    if semicolon.result.Failed? then semicolon.Propagate() else
    Produced(Ok(Stmt.Echo(value.result.value)), semicolon.next, semicolon.log)
  }

  /** A `return` after its keyword, which the statement keeps; the value is absent when `;` follows. */
  function ReturnAt(ts: TokenList, i: nat, log: seq<Diagnostic>): (p: Produced<Stmt>)
    requires i < |ts|
    ensures Moves(ts, i, log, p)
    ensures p.result.Ok? ==> p.result.value.Return?
    decreases |ts| - i, 34
  {
    var keyword := PreviousAt(ts, i);
    var value := OptionalExpressionAt(ts, i, log, SEMICOLON);
    if value.result.Failed? then value.Propagate() else
    var semicolon := ConsumeAt(ts, value.next, value.log, SEMICOLON, ExpectSemicolonAfterReturn);
    if semicolon.result.Failed? then semicolon.Propagate() else
    Produced(Ok(Return(keyword, value.result.value)), semicolon.next, semicolon.log)
  }

  /** A `while` after its keyword: condition, `:` and body. */
  function WhileAt(ts: TokenList, i: nat, log: seq<Diagnostic>): (p: Produced<Stmt>)
    requires i < |ts|
    ensures Moves(ts, i, log, p)
    ensures p.result.Ok? ==> p.result.value.While?
    decreases |ts| - i, 34
  {
    var condition := ExpressionAt(ts, i, log);
    if condition.result.Failed? then condition.Propagate() else
    var colon := ConsumeAt(ts, condition.next, condition.log, COLON, ExpectColonAfterCondition);
    if colon.result.Failed? then colon.Propagate() else
    var body := StatementAt(ts, colon.next, colon.log);
    if body.result.Failed? then body.Propagate() else
    Produced(Ok(While(condition.result.value, body.result.value)), body.next, body.log)
  }

  /** An expression followed by `;`. */
  function ExpressionStatementAt(ts: TokenList, i: nat, log: seq<Diagnostic>): (p: Produced<Stmt>)
    requires i < |ts|
    ensures Moves(ts, i, log, p)
    ensures p.result.Ok? ==> p.result.value.Expression?
    decreases |ts| - i, 32
  {
    var e := ExpressionAt(ts, i, log);
    if e.result.Failed? then e.Propagate() else
    var semicolon := ConsumeAt(ts, e.next, e.log, SEMICOLON, ExpectSemicolonAfterExpression);
    if semicolon.result.Failed? then semicolon.Propagate() else
    Produced(Ok(Stmt.Expression(e.result.value)), semicolon.next, semicolon.log)
  }

  /** Declarations up to the closing brace, which is consumed. */
  function BlockAt(ts: TokenList, i: nat, log: seq<Diagnostic>): (p: Produced<seq<Stmt>>)
    requires i < |ts|
    ensures Moves(ts, i, log, p)
    decreases |ts| - i, 43
  {
    BlockFrom(ts, i, log, [])
  }

  /** The declarations of a block from `i`, added to `statements`, and its closing brace. */
  function BlockFrom(ts: TokenList, i: nat, log: seq<Diagnostic>, statements: seq<Stmt>): (p: Produced<seq<Stmt>>)
    requires i < |ts|
    ensures Moves(ts, i, log, p)
    decreases |ts| - i, 42
  {
    if CheckAt(ts, i, RIGHT_BRACE) || ts[i].kind == EOF then
      var close := ConsumeAt(ts, i, log, RIGHT_BRACE, ExpectBraceAfterBlock);
      if close.result.Failed? then close.Propagate() else Produced(Ok(statements), close.next, close.log)
    else
      var d := DeclarationAt(ts, i, log);
      BlockFrom(ts, d.next, d.log, statements + [d.result.value])
  }

  // ---------------------------------------------------------- expressions

  /** An expression is an assignment. */
  function ExpressionAt(ts: TokenList, i: nat, log: seq<Diagnostic>): (p: Produced<Expr>)
    requires i < |ts|
    ensures Moves(ts, i, log, p)
    decreases |ts| - i, 30
  {
    AssignmentAt(ts, i, log)
  }

  /**
   * Assignment nests to the right. A variable target gives `Assign`, a
   * property target gives `Set`; any other target is reported at the `=`
   * and the left-hand side is the result.
   */
  function AssignmentAt(ts: TokenList, i: nat, log: seq<Diagnostic>): (p: Produced<Expr>)
    requires i < |ts|
    ensures Moves(ts, i, log, p)
    decreases |ts| - i, 29
  {
    var target := TernaryAt(ts, i, log);
    if target.result.Failed? || !MatchAt(ts, target.next, {EQUAL}) then target else
    var value := AssignmentAt(ts, target.next + 1, target.log);
    if value.result.Failed? then value else
    var built := AssignTo(target.result.value, value.result.value);
    if built.Some? then Produced(Ok(built.value), value.next, value.log)
    else Produced(target.result, value.next, value.log + [AtToken(ERROR, ts[target.next], InvalidTarget)])
  }

  /** A ternary chain: an `or` expression followed by any number of `? then : else` parts. */
  function TernaryAt(ts: TokenList, i: nat, log: seq<Diagnostic>): (p: Produced<Expr>)
    requires i < |ts|
    ensures Moves(ts, i, log, p)
    decreases |ts| - i, 28
  {
    var condition := ChainAt(OrLevel, ts, i, log);
    if condition.result.Failed? then condition else TernaryFrom(ts, condition.next, condition.log, condition.result.value)
  }

  /** The `? then : else` parts from `i`, each wrapping the tree built so far. */
  function TernaryFrom(ts: TokenList, i: nat, log: seq<Diagnostic>, e: Expr): (p: Produced<Expr>)
    requires i < |ts|
    ensures Progress(ts, i, log, p)
    decreases |ts| - i, 28
  {
    if !MatchAt(ts, i, {QUESTION_MARK}) then Produced(Ok(e), i, log) else
    var whenTrue := TernaryAt(ts, i + 1, log);
    if whenTrue.result.Failed? then whenTrue else
    var colon := ConsumeAt(ts, whenTrue.next, whenTrue.log, COLON, ExpectColonInTernary);
    if colon.result.Failed? then colon.Propagate() else
    var whenFalse := TernaryAt(ts, colon.next, colon.log);
    if whenFalse.result.Failed? then whenFalse else
    var t := Expr.Ternary(e, ts[i], whenTrue.result.value, PreviousAt(ts, colon.next), whenFalse.result.value);
    TernaryFrom(ts, whenFalse.next, whenFalse.log, t)
  }

  /**
   * One rung of the left-associative part of the ladder, from `or` down to
   * `*` and `/`: an operand of the next tighter rung (unary below `*`),
   * then any number of operators of this rung, each with its right operand.
   */
  function ChainAt(level: nat, ts: TokenList, i: nat, log: seq<Diagnostic>): (p: Produced<Expr>)
    requires OrLevel <= level <= FactorLevel && i < |ts|
    ensures Moves(ts, i, log, p)
    decreases |ts| - i, 29 - level
  {
    var first := if level == FactorLevel then UnaryAt(ts, i, log) else ChainAt(level + 1, ts, i, log);
    if first.result.Failed? then first else ChainFrom(level, ts, first.next, first.log, first.result.value)
  }

  /** The operators of one rung from `i`, each building a node on the tree built so far. */
  function ChainFrom(level: nat, ts: TokenList, i: nat, log: seq<Diagnostic>, e: Expr): (p: Produced<Expr>)
    requires OrLevel <= level <= FactorLevel && i < |ts|
    ensures Progress(ts, i, log, p)
    decreases |ts| - i, 29 - level
  {
    if !MatchAt(ts, i, OperatorsAt(level)) then Produced(Ok(e), i, log) else
    var right := if level == FactorLevel then UnaryAt(ts, i + 1, log) else ChainAt(level + 1, ts, i + 1, log);
    if right.result.Failed? then right else
    ChainFrom(level, ts, right.next, right.log, Node(level, e, ts[i], right.result.value))
  }

  /** `!` and unary `-` nest to the right; otherwise an increment expression. */
  function UnaryAt(ts: TokenList, i: nat, log: seq<Diagnostic>): (p: Produced<Expr>)
    requires i < |ts|
    ensures Moves(ts, i, log, p)
    decreases |ts| - i, 19
  {
    if MatchAt(ts, i, UnaryOperators) then
      var right := UnaryAt(ts, i + 1, log);
      if right.result.Failed? then right else Produced(Ok(Unary(ts[i], right.result.value)), right.next, right.log)
    else IncrementAt(ts, i, log)
  }

  /** Prefix `++`/`--` nest; one postfix `++`/`--` may follow a call. */
  function IncrementAt(ts: TokenList, i: nat, log: seq<Diagnostic>): (p: Produced<Expr>)
    requires i < |ts|
    ensures Moves(ts, i, log, p)
    decreases |ts| - i, 18
  {
    if MatchAt(ts, i, StepOperators) then
      var right := IncrementAt(ts, i + 1, log);
      if right.result.Failed? then right else Produced(Ok(Prefix(ts[i], right.result.value)), right.next, right.log)
    else
      var e := CallAt(ts, i, log);
      if e.result.Failed? || !MatchAt(ts, e.next, StepOperators) then e
      else Produced(Ok(Postfix(e.result.value, ts[e.next])), e.next + 1, e.log)
  }

  /** Calls and property accesses chained onto an anonymous function or a primary. */
  function CallAt(ts: TokenList, i: nat, log: seq<Diagnostic>): (p: Produced<Expr>)
    requires i < |ts|
    ensures Moves(ts, i, log, p)
    decreases |ts| - i, 17
  {
    var e := AnonymAt(ts, i, log);
    if e.result.Failed? then e else CallFrom(ts, e.next, e.log, e.result.value)
  }

  /** The `(arguments)` and `.name` suffixes from `i`, each wrapping the tree built so far. */
  function CallFrom(ts: TokenList, i: nat, log: seq<Diagnostic>, e: Expr): (p: Produced<Expr>)
    requires i < |ts|
    ensures Progress(ts, i, log, p)
    decreases |ts| - i, 17
  {
    if MatchAt(ts, i, {LEFT_PAREN}) then
      var call := FinishCallAt(ts, i + 1, log, e);
      if call.result.Failed? then call else
      CallFrom(ts, call.next, call.log, call.result.value)
    else if MatchAt(ts, i, {DOT}) then
      var name := ConsumeAt(ts, i + 1, log, IDENTIFIER, ExpectPropertyName);
      if name.result.Failed? then name.Propagate() else
      CallFrom(ts, name.next, name.log, Get(e, name.result.value))
    else Produced(Ok(e), i, log)
  }

  /** The arguments and `)` of a call whose `(` has been consumed. */
  function FinishCallAt(ts: TokenList, i: nat, log: seq<Diagnostic>, callee: Expr): (p: Produced<Expr>)
    requires i < |ts|
    ensures Moves(ts, i, log, p)
    ensures p.result.Ok? ==>
              p.result.value.Call? && p.result.value.callee == callee
    decreases |ts| - i, 33
  {
    var arguments := ArgumentsAt(ts, i, log);
    if arguments.result.Failed? then arguments.Propagate() else
    var paren := ConsumeAt(ts, arguments.next, arguments.log, RIGHT_PAREN, ExpectParenAfterArguments);
    if paren.result.Failed? then paren.Propagate() else
    Produced(Ok(Expr.Call(callee, paren.result.value, arguments.result.value)), paren.next, paren.log)
  }

  /** The comma-separated arguments before a call's `)`, none when `)` is next; past 255 each further one is reported but kept. */
  function ArgumentsAt(ts: TokenList, i: nat, log: seq<Diagnostic>): (p: Produced<seq<Expr>>)
    requires i < |ts|
    ensures Progress(ts, i, log, p)
    decreases |ts| - i, 32
  {
    if CheckAt(ts, i, RIGHT_PAREN) then Produced(Ok([]), i, log) else ArgumentsFrom(ts, i, log, [])
  }

  /** The comma-separated arguments from `i`, added to `arguments`. */
  function ArgumentsFrom(ts: TokenList, i: nat, log: seq<Diagnostic>, arguments: seq<Expr>): (p: Produced<seq<Expr>>)
    requires i < |ts|
    ensures Progress(ts, i, log, p)
    decreases |ts| - i, 31
  {
    var reported := if |arguments| >= 255 then log + [AtToken(ERROR, ts[i], TooManyArguments)] else log;
    var a := ExpressionAt(ts, i, reported);
    if a.result.Failed? then a.Propagate() else
    var collected := arguments + [a.result.value];
    if MatchAt(ts, a.next, {COMMA}) then ArgumentsFrom(ts, a.next + 1, a.log, collected)
    else Produced(Ok(collected), a.next, a.log)
  }

  /** An anonymous function `fn (params) { body }`, or else a primary. */
  function AnonymAt(ts: TokenList, i: nat, log: seq<Diagnostic>): (p: Produced<Expr>)
    requires i < |ts|
    ensures Moves(ts, i, log, p)
    decreases |ts| - i, 16
  {
    if !MatchAt(ts, i, {FN}) then PrimaryAt(ts, i, log) else
    var open := ConsumeAt(ts, i + 1, log, LEFT_PAREN, ExpectParenAfterName(AnonymousKind));
    if open.result.Failed? then open.Propagate() else
    var parameters := ParametersAt(ts, open.next, open.log);
    if parameters.result.Failed? then parameters.Propagate() else
    var close := ConsumeAt(ts, parameters.next, parameters.log, RIGHT_PAREN, ExpectParenAfterParameters);
    if close.result.Failed? then close.Propagate() else
    var brace := ConsumeAt(ts, close.next, close.log, LEFT_BRACE, ExpectBraceBeforeBody(AnonymousKind));
    if brace.result.Failed? then brace.Propagate() else
    var body := BlockAt(ts, brace.next, brace.log);
    if body.result.Failed? then body.Propagate() else
    Produced(Ok(Expr.Anonym(parameters.result.value, body.result.value)), body.next, body.log)
  }

  /**
   * Literals, `super::name`, `self`, variables and parenthesised
   * expressions. Anything else is reported at the next token, or at the
   * previous one when the next is EOF.
   */
  function PrimaryAt(ts: TokenList, i: nat, log: seq<Diagnostic>): (p: Produced<Expr>)
    requires i < |ts|
    ensures Moves(ts, i, log, p)
    decreases |ts| - i, 15
  {
    var t := ts[i];
    if MatchAt(ts, i, {FALSE}) then Produced(Ok(Literal(BoolLit(false))), i + 1, log)
    else if MatchAt(ts, i, {TRUE}) then Produced(Ok(Literal(BoolLit(true))), i + 1, log)
    else if MatchAt(ts, i, {NONE}) then Produced(Ok(Literal(NoneLit)), i + 1, log)
    else if MatchAt(ts, i, {NUMBER, STRING}) then Produced(Ok(Literal(t.literal)), i + 1, log)
    else if MatchAt(ts, i, {SUPER}) then
      var colons := ConsumeAt(ts, i + 1, log, DOUBLE_COLON, ExpectDoubleColonAfterSuper);
      if colons.result.Failed? then Produced(Failed, colons.next, colons.log) else
      var methodName := ConsumeAt(ts, colons.next, colons.log, IDENTIFIER, ExpectSuperclassMethodName);
      if methodName.result.Failed? then Produced(Failed, methodName.next, methodName.log) else
      Produced(Ok(Super(t, methodName.result.value)), methodName.next, methodName.log)
    else if MatchAt(ts, i, {SELF}) then Produced(Ok(Self(t)), i + 1, log)
    else if MatchAt(ts, i, {IDENTIFIER}) then Produced(Ok(Variable(t)), i + 1, log)
    else if MatchAt(ts, i, {LEFT_PAREN}) then
      var e := ExpressionAt(ts, i + 1, log);
      if e.result.Failed? then e else
      var close := ConsumeAt(ts, e.next, e.log, RIGHT_PAREN, ExpectParenAfterExpression);
      if close.result.Failed? then Produced(Failed, close.next, close.log) else
      Produced(Ok(Grouping(e.result.value)), close.next, close.log)
    else Produced(Failed, i, log + [AtToken(ERROR, if t.kind != EOF then t else PreviousAt(ts, i), ExpectExpression)])
  }
}
