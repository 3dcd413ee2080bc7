/**
 * The recursive-descent parser: one cursor over the token list, one method
 * per grammar production. A production that meets a token it cannot use
 * reports the error and fails; `Declaration` catches the failure, skips to
 * the next statement boundary and leaves a `Missing` slot.
 */
module Parse {
  import opened Tokens
  import opened Errors
  import opened Syntax
  import opened Grammar
  import GrammarReports

  class Parser {
    const tokens: TokenList
    const errors: ErrorLog
    var current: nat

    /** The cursor is on a token. */
    ghost predicate Valid()
      reads this
    {
      current < |tokens|
    }

    constructor (tokens: TokenList, errors: ErrorLog)
      ensures this.tokens == tokens && this.errors == errors && current == 0 && Valid()
    {
      this.tokens := tokens;
      this.errors := errors;
      current := 0;
    }

    /** The token at the cursor; on the last position this is the EOF token. */
    function Peek(): (t: Token)
      requires Valid()
      reads this
      ensures current == |tokens| - 1 ==> t.kind == EOF
    {
      tokens[current]
    }

    /** The token before the cursor; before the first token this is the last one. */
    function Previous(): (t: Token)
      requires Valid()
      reads this
      ensures t == if current == 0 then tokens[|tokens| - 1] else tokens[current - 1]
    {
      PreviousAt(tokens, current)
    }

    /** At the EOF token; always so on the last position. */
    predicate IsAtEnd(): (r: bool)
      requires Valid()
      reads this
      ensures current == |tokens| - 1 ==> r
    {
      Peek().kind == EOF
    }

    /** True when the next token has kind `kind`; never true for EOF. */
    predicate Check(kind: TokenType): (r: bool)
      requires Valid()
      reads this
      ensures r <==> !IsAtEnd() && Peek().kind == kind
      ensures kind == EOF ==> !r
    {
      CheckAt(tokens, current, kind)
    }

    /** Moves past the next token unless it is EOF, and returns the token before the cursor. */
    method Advance() returns (t: Token)
      requires Valid()
      modifies this`current
      ensures Valid() && t == Previous()
      ensures current == if tokens[old(current)].kind == EOF then old(current) else old(current) + 1
    {
      if !IsAtEnd() {
        current := current + 1;
      }
      t := Previous();
    }

    /** Consumes one token exactly when the next token is not EOF and its kind is one of `kinds`. */
    method Match(kinds: set<TokenType>) returns (matched: bool)
      requires Valid()
      modifies this`current
      ensures Valid()
      ensures matched == MatchAt(tokens, old(current), kinds)
      ensures current == if matched then old(current) + 1 else old(current)
    {
      if !IsAtEnd() && Peek().kind in kinds {
        var _ := Advance();
        return true;
      }
      return false;
    }

    /** Reports `message` at `token` and raises a parse error. */
    method Error(token: Token, message: string) returns (r: Parsed<Token>)
      modifies errors
      ensures r.Failed? && errors.hadError
      ensures errors.log == old(errors.log) + [AtToken(ERROR, token, message)]
    {
      errors.ParseError(token, message);
      return Failed;
    }

    /**
     * Consumes and returns the next token when it has kind `kind`; otherwise
     * reports `message` at the previous token and fails without moving.
     */
    method Consume(kind: TokenType, message: string) returns (r: Parsed<Token>)
      requires Valid()
      modifies this`current, errors
      ensures Valid() && Produced(r, current, errors.log) == ConsumeAt(tokens, old(current), old(errors.log), kind, message)
      ensures errors.hadError == (old(errors.hadError) || r.Failed?)
    {
      if Check(kind) {
        var t := Advance();
        return Ok(t);
      }
      r := Error(Previous(), message);
    }

    /** Error recovery: skips at least one token (unless at EOF), then stops at the first sync point. */
    method Sync()
      requires Valid()
      modifies this`current
      ensures Valid() && current == SyncFrom(tokens, old(current))
    {
      var _ := Advance();
      while !IsAtEnd()
        invariant Valid()
        invariant old(IsAtEnd()) ==> current == old(current)
        invariant !old(IsAtEnd()) ==> 0 < current && SkipFrom(tokens, current) == SyncFrom(tokens, old(current))
        decreases |tokens| - current
      {
        if Previous().kind == SEMICOLON {
          return;
        }
        if Peek().kind in StatementStarts {
          return;
        }
        var _ := Advance();
      }
    }

    /** The whole program: declarations until EOF; a declaration that failed leaves `Missing`. */
    method Parse() returns (statements: seq<Stmt>)
      requires Valid()
      modifies this`current, errors
      ensures Valid() && Produced(Ok(statements), current, errors.log) == ProgramFrom(tokens, old(current), old(errors.log), [])
      ensures old(errors.log) <= errors.log && (Missing in statements ==> |old(errors.log)| < |errors.log|)
    {
      GrammarReports.ProgramReports(tokens, current, errors.log, []);
      statements := [];
      while !IsAtEnd()
        invariant Valid()
        invariant ProgramFrom(tokens, old(current), old(errors.log), []) == ProgramFrom(tokens, current, errors.log, statements)
        decreases |tokens| - current
      {
        var s := Declaration();
        statements := statements + [s];
      }
    }

    /** A declaration or statement; on a parse error, recovers and yields `Missing`. */
    method Declaration() returns (s: Stmt)
      requires Valid()
      modifies this`current, errors
      ensures Valid() && Produced(Ok(s), current, errors.log) == DeclarationAt(tokens, old(current), old(errors.log))
      decreases |tokens| - current, 41
    {
      var r := Declared();
      if r.Failed? {
        Sync();
        return Missing;
      }
      return r.value;
    }

    /** The declaration its keyword names, or else a statement. */
    method Declared() returns (r: Parsed<Stmt>)
      requires Valid()
      modifies this`current, errors
      ensures Valid() && Produced(r, current, errors.log) == DeclaredAt(tokens, old(current), old(errors.log))
      decreases |tokens| - current, 40
    {
      var m := Match({CLASS});
      if m {
        r := ClassDeclaration();
        return;
      }
      m := Match({FN});
      if m {
        var f :- Function(FunctionKind);
        return Ok(Stmt.Function(f));
      }
      m := Match({LET});
      if m {
        r := VarDeclaration();
        return;
      }
      r := Statement();
    }

    method ClassDeclaration() returns (r: Parsed<Stmt>)
      requires Valid()
      modifies this`current, errors
      ensures Valid() && Produced(r, current, errors.log) == ClassDeclarationAt(tokens, old(current), old(errors.log))
      decreases |tokens| - current, 39
    {
      var name :- Consume(IDENTIFIER, ExpectClassName);
      var superclass :- Superclass();
      var _ :- Consume(LEFT_BRACE, ExpectBraceBeforeClassBody);
      var methods :- Methods();
      var _ :- Consume(RIGHT_BRACE, ExpectBraceAfterClassBody);
      return Ok(Class(name, methods, superclass));
    }

    /** The optional `< name >` after a class name. */
    method Superclass() returns (r: Parsed<Option<Token>>)
      requires Valid()
      modifies this`current, errors
      ensures Valid() && Produced(r, current, errors.log) == SuperclassAt(tokens, old(current), old(errors.log))
    {
      var m := Match({LESS});
      if !m {
        return Ok(None);
      }
      var s :- Consume(IDENTIFIER, ExpectSuperclassName);
      var _ :- Consume(GREATER, ExpectGreaterAfterSuperclass);
      return Ok(Some(s));
    }

    /** The methods of a class body, until `}` or EOF. */
    method Methods() returns (r: Parsed<seq<FunctionDecl>>)
      requires Valid()
      modifies this`current, errors
      ensures Valid() && Produced(r, current, errors.log) == MethodsFrom(tokens, old(current), old(errors.log), [])
      decreases |tokens| - current, 39
    {
      var methods: seq<FunctionDecl> := [];
      while !Check(RIGHT_BRACE) && !IsAtEnd()
        invariant Valid()
        invariant MethodsFrom(tokens, old(current), old(errors.log), []) == MethodsFrom(tokens, current, errors.log, methods)
        decreases |tokens| - current
      {
        var f :- Function(MethodKind);
        methods := methods + [f];
      }
      return Ok(methods);
    }

    /** Parameter names up to the closing parenthesis; past 255 each further one is reported but kept. */
    method Parameters() returns (r: Parsed<seq<Token>>)
      requires Valid()
      modifies this`current, errors
      ensures Valid() && Produced(r, current, errors.log) == ParametersAt(tokens, old(current), old(errors.log))
    {
      var parameters: seq<Token> := [];
      if !Check(RIGHT_PAREN) {
        while true
          invariant Valid()

          invariant ParametersAt(tokens, old(current), old(errors.log)) == ParametersFrom(tokens, current, errors.log, parameters)
          decreases |tokens| - current
        {
          if |parameters| >= 255 {
            errors.ParseError(Peek(), TooManyParameters);
          }
          var p :- Consume(IDENTIFIER, ExpectParameterName);
          parameters := parameters + [p];
          var comma := Match({COMMA});
          if !comma {
            break;
          }
        }
      }
      return Ok(parameters);
    }

    /** A named function; `kind` is "function" or "method" and only shapes the messages. */
    method Function(kind: string) returns (r: Parsed<FunctionDecl>)
      requires Valid()
      modifies this`current, errors
      ensures Valid() && Produced(r, current, errors.log) == FunctionAt(tokens, old(current), old(errors.log), kind)
      decreases |tokens| - current, 38
    {
      var name :- Consume(IDENTIFIER, ExpectName(kind));
      var _ :- Consume(LEFT_PAREN, ExpectParenAfterName(kind));
      var parameters :- Parameters();
      var _ :- Consume(RIGHT_PAREN, ExpectParenAfterParameters);
      var _ :- Consume(LEFT_BRACE, ExpectBraceBeforeBody(kind));
      var body :- Block();
      return Ok(FunctionDecl(name, parameters, body));
    }

    method VarDeclaration() returns (r: Parsed<Stmt>)
      requires Valid()
      modifies this`current, errors
      ensures Valid() && Produced(r, current, errors.log) == VarDeclarationAt(tokens, old(current), old(errors.log))
      decreases |tokens| - current, 37
    {
      var name :- Consume(IDENTIFIER, ExpectVariableName);
      var initializer: Option<Expr> := None;
      var m := Match({EQUAL});
      if m {
        var e :- Expression();
        initializer := Some(e);
      }
      var _ :- Consume(SEMICOLON, ExpectSemicolonAfterDeclaration);
      return Ok(Var(name, initializer));
    }

    method Statement() returns (r: Parsed<Stmt>)
      requires Valid()
      modifies this`current, errors
      ensures Valid() && Produced(r, current, errors.log) == StatementAt(tokens, old(current), old(errors.log))
      decreases |tokens| - current, 36
    {
      var m := Match({FOR});
      if m {
        r := ForStatement();
        return;
      }
      m := Match({IF});
      if m {
        r := IfStatement();
        return;
      }
      m := Match({ECHO});
      if m {
        r := Echo();
        return;
      }
      m := Match({RETURN});
      if m {
        r := ReturnStatement();
        return;
      }
      m := Match({WHILE});
      if m {
        r := WhileStatement();
        return;
      }
      m := Match({LEFT_BRACE});
      if m {
        var statements :- Block();
        return Ok(Stmt.Block(statements));
      }
      r := ExpressionStatement();
    }

    /**
     * A `for` loop after its keyword: initializer, condition, `;`, increment
     * and body, with no parentheses; the result is the loop it stands for.
     */
    method ForStatement() returns (r: Parsed<Stmt>)
      requires Valid()
      modifies this`current, errors
      ensures Valid() && Produced(r, current, errors.log) == ForStatementAt(tokens, old(current), old(errors.log))
      decreases |tokens| - current, 35
    {
      ghost var initializerParse := ForInitializerAt(tokens, current, errors.log);
      var initializer: Option<Stmt> := None;
      var m := Match({SEMICOLON});
      if !m {
        m := Match({LET});
        if m {
          var s :- VarDeclaration();
          initializer := Some(s);
        } else {
          var s :- ExpressionStatement();
          initializer := Some(s);
        }
      }
      ghost var conditionParse := OptionalExpressionAt(tokens, current, errors.log, SEMICOLON);
      var condition: Option<Expr> := None;
      if !Check(SEMICOLON) {
        var e :- Expression();
        condition := Some(e);
      }
      var _ :- Consume(SEMICOLON, ExpectSemicolonAfterCondition);
      ghost var incrementParse := OptionalExpressionAt(tokens, current, errors.log, RIGHT_PAREN);
      var increment: Option<Expr> := None;
      if !Check(RIGHT_PAREN) {
        var e :- Expression();
        increment := Some(e);
      }
      var body :- Statement();
      return Ok(ForLoop(initializer, condition, increment, body));
    }

    method IfStatement() returns (r: Parsed<Stmt>)
      requires Valid()
      modifies this`current, errors
      ensures Valid() && Produced(r, current, errors.log) == IfAt(tokens, old(current), old(errors.log))
      decreases |tokens| - current, 34
    {
      var condition :- Expression();
      var _ :- Consume(COLON, ExpectColonAfterCondition);
      var thenBranch :- Statement();
      var elseBranch: Option<Stmt> := None;
      var m := Match({ELSE});
      if m {
        var e :- Statement();
        elseBranch := Some(e);
      }
      return Ok(If(condition, thenBranch, elseBranch));
    }

    method Echo() returns (r: Parsed<Stmt>)
      requires Valid()
      modifies this`current, errors
      ensures Valid() && Produced(r, current, errors.log) == EchoAt(tokens, old(current), old(errors.log))
      decreases |tokens| - current, 34
    {
      var value :- Expression();
      var _ :- Consume(SEMICOLON, ExpectSemicolonAfterValue);
      return Ok(Stmt.Echo(value));
    }

    /** A `return` after its keyword, which the statement keeps; the value is absent when `;` follows. */
    method ReturnStatement() returns (r: Parsed<Stmt>)
      requires Valid()
      modifies this`current, errors
      ensures Valid() && Produced(r, current, errors.log) == ReturnAt(tokens, old(current), old(errors.log))
      decreases |tokens| - current, 34
    {
      ghost var valueParse := OptionalExpressionAt(tokens, current, errors.log, SEMICOLON);
      var keyword := Previous();
      var value: Option<Expr> := None;
      if !Check(SEMICOLON) {
        var e :- Expression();
        value := Some(e);
      }
      var _ :- Consume(SEMICOLON, ExpectSemicolonAfterReturn);
      return Ok(Return(keyword, value));
    }

    method WhileStatement() returns (r: Parsed<Stmt>)
      requires Valid()
      modifies this`current, errors
      ensures Valid() && Produced(r, current, errors.log) == WhileAt(tokens, old(current), old(errors.log))
      decreases |tokens| - current, 34
    {
      var condition :- Expression();
      var _ :- Consume(COLON, ExpectColonAfterCondition);
      var body :- Statement();
      return Ok(While(condition, body));
    }

    method ExpressionStatement() returns (r: Parsed<Stmt>)
      requires Valid()
      modifies this`current, errors
      ensures Valid() && Produced(r, current, errors.log) == ExpressionStatementAt(tokens, old(current), old(errors.log))
      decreases |tokens| - current, 32
    {
      var e :- Expression();
      var _ :- Consume(SEMICOLON, ExpectSemicolonAfterExpression);
      return Ok(Stmt.Expression(e));
    }

    /** Declarations up to the closing brace, which is consumed. */
    method Block() returns (r: Parsed<seq<Stmt>>)
      requires Valid()
      modifies this`current, errors
      ensures Valid() && Produced(r, current, errors.log) == BlockAt(tokens, old(current), old(errors.log))
      decreases |tokens| - current, 42
    {
      var statements: seq<Stmt> := [];
      while !Check(RIGHT_BRACE) && !IsAtEnd()
        invariant Valid()
        invariant BlockAt(tokens, old(current), old(errors.log)) == BlockFrom(tokens, current, errors.log, statements)
        decreases |tokens| - current
      {
        var s := Declaration();
        statements := statements + [s];
      }
      var _ :- Consume(RIGHT_BRACE, ExpectBraceAfterBlock);
      return Ok(statements);
    }

    method Expression() returns (r: Parsed<Expr>)
      requires Valid()
      modifies this`current, errors
      ensures Valid() && Produced(r, current, errors.log) == ExpressionAt(tokens, old(current), old(errors.log))
      decreases |tokens| - current, 30
    {
      r := Assignment();
    }

    /**
     * Assignment nests to the right. A variable target gives `Assign`, a
     * property target gives `Set`; any other target is reported and the
     * left-hand side is the result.
     */
    method Assignment() returns (r: Parsed<Expr>)
      requires Valid()
      modifies this`current, errors
      ensures Valid() && Produced(r, current, errors.log) == AssignmentAt(tokens, old(current), old(errors.log))
      decreases |tokens| - current, 29
    {
      var e :- Ternary();
      var m := Match({EQUAL});
      if m {
        var equals := Previous();
        var value :- Assignment();
        var target := AssignTo(e, value);
        if target.Some? {
          return Ok(target.value);
        }
        errors.ParseError(equals, InvalidTarget);
      }
      return Ok(e);
    }

    method Ternary() returns (r: Parsed<Expr>)
      requires Valid()
      modifies this`current, errors
      ensures Valid() && Produced(r, current, errors.log) == TernaryAt(tokens, old(current), old(errors.log))
      decreases |tokens| - current, 28
    {
      var e :- Or();
      while true
        invariant Valid()
        invariant TernaryAt(tokens, old(current), old(errors.log)) == TernaryFrom(tokens, current, errors.log, e)
        decreases |tokens| - current
      {
        var m := Match({QUESTION_MARK});
        if !m {
          break;
        }
        var ifOperator := Previous();
        var whenTrue :- Ternary();
        var _ :- Consume(COLON, ExpectColonInTernary);
        var orOperator := Previous();
        var whenFalse :- Ternary();
        e := Expr.Ternary(e, ifOperator, whenTrue, orOperator, whenFalse);
      }
      return Ok(e);
    }

    method Or() returns (r: Parsed<Expr>)
      requires Valid()
      modifies this`current, errors
      ensures Valid() && Produced(r, current, errors.log) == ChainAt(OrLevel, tokens, old(current), old(errors.log))
      decreases |tokens| - current, 27
    {
      var e :- And();
      while true
        invariant Valid()
        invariant ChainAt(OrLevel, tokens, old(current), old(errors.log)) == ChainFrom(OrLevel, tokens, current, errors.log, e)
        decreases |tokens| - current
      {
        var m := Match(OrOperators);
        if !m {
          break;
        }
        var operator := Previous();
        var right :- And();
        e := Logical(e, operator, right);
      }
      return Ok(e);
    }

    method And() returns (r: Parsed<Expr>)
      requires Valid()
      modifies this`current, errors
      ensures Valid() && Produced(r, current, errors.log) == ChainAt(AndLevel, tokens, old(current), old(errors.log))
      decreases |tokens| - current, 26
    {
      var e :- Equality();
      while true
        invariant Valid()
        invariant ChainAt(AndLevel, tokens, old(current), old(errors.log)) == ChainFrom(AndLevel, tokens, current, errors.log, e)
        decreases |tokens| - current
      {
        var m := Match(AndOperators);
        if !m {
          break;
        }
        var operator := Previous();
        var right :- Equality();
        e := Logical(e, operator, right);
      }
      return Ok(e);
    }

    method Equality() returns (r: Parsed<Expr>)
      requires Valid()
      modifies this`current, errors
      ensures Valid() && Produced(r, current, errors.log) == ChainAt(EqualityLevel, tokens, old(current), old(errors.log))
      decreases |tokens| - current, 25
    {
      var e :- Comparison();
      while true
        invariant Valid()
        invariant ChainAt(EqualityLevel, tokens, old(current), old(errors.log)) == ChainFrom(EqualityLevel, tokens, current, errors.log, e)
        decreases |tokens| - current
      {
        var m := Match(EqualityOperators);
        if !m {
          break;
        }
        var operator := Previous();
        var right :- Comparison();
        e := Binary(e, operator, right);
      }
      return Ok(e);
    }

    method Comparison() returns (r: Parsed<Expr>)
      requires Valid()
      modifies this`current, errors
      ensures Valid() && Produced(r, current, errors.log) == ChainAt(ComparisonLevel, tokens, old(current), old(errors.log))
      decreases |tokens| - current, 24
    {
      var e :- CompoundAssign();
      while true
        invariant Valid()
        invariant ChainAt(ComparisonLevel, tokens, old(current), old(errors.log)) == ChainFrom(ComparisonLevel, tokens, current, errors.log, e)
        decreases |tokens| - current
      {
        var m := Match(ComparisonOperators);
        if !m {
          break;
        }
        var operator := Previous();
        var right :- CompoundAssign();
        e := Binary(e, operator, right);
      }
      return Ok(e);
    }

    /** The compound assignment operators `+= -= *= /=`, parsed as left-associative binary operators. */
    method CompoundAssign() returns (r: Parsed<Expr>)
      requires Valid()
      modifies this`current, errors
      ensures Valid() && Produced(r, current, errors.log) == ChainAt(CompoundLevel, tokens, old(current), old(errors.log))
      decreases |tokens| - current, 23
    {
      var e :- Term();
      while true
        invariant Valid()
        invariant ChainAt(CompoundLevel, tokens, old(current), old(errors.log)) == ChainFrom(CompoundLevel, tokens, current, errors.log, e)
        decreases |tokens| - current
      {
        var m := Match(CompoundAssignOperators);
        if !m {
          break;
        }
        var operator := Previous();
        var right :- Term();
        e := Binary(e, operator, right);
      }
      return Ok(e);
    }

    method Term() returns (r: Parsed<Expr>)
      requires Valid()
      modifies this`current, errors
      ensures Valid() && Produced(r, current, errors.log) == ChainAt(TermLevel, tokens, old(current), old(errors.log))
      decreases |tokens| - current, 22
    {
      var e :- Modulo();
      while true
        invariant Valid()
        invariant ChainAt(TermLevel, tokens, old(current), old(errors.log)) == ChainFrom(TermLevel, tokens, current, errors.log, e)
        decreases |tokens| - current
      {
        var m := Match(TermOperators);
        if !m {
          break;
        }
        var operator := Previous();
        var right :- Modulo();
        e := Binary(e, operator, right);
      }
      return Ok(e);
    }

    method Modulo() returns (r: Parsed<Expr>)
      requires Valid()
      modifies this`current, errors
      ensures Valid() && Produced(r, current, errors.log) == ChainAt(ModuloLevel, tokens, old(current), old(errors.log))
      decreases |tokens| - current, 21
    {
      var e :- Factor();
      while true
        invariant Valid()
        invariant ChainAt(ModuloLevel, tokens, old(current), old(errors.log)) == ChainFrom(ModuloLevel, tokens, current, errors.log, e)
        decreases |tokens| - current
      {
        var m := Match(ModuloOperators);
        if !m {
          break;
        }
        var operator := Previous();
        var right :- Factor();
        e := Binary(e, operator, right);
      }
      return Ok(e);
    }

    method Factor() returns (r: Parsed<Expr>)
      requires Valid()
      modifies this`current, errors
      ensures Valid() && Produced(r, current, errors.log) == ChainAt(FactorLevel, tokens, old(current), old(errors.log))
      decreases |tokens| - current, 20
    {
      var e :- Unary();
      while true
        invariant Valid()
        invariant ChainAt(FactorLevel, tokens, old(current), old(errors.log)) == ChainFrom(FactorLevel, tokens, current, errors.log, e)
        decreases |tokens| - current
      {
        var m := Match(FactorOperators);
        if !m {
          break;
        }
        var operator := Previous();
        var right :- Unary();
        e := Binary(e, operator, right);
      }
      return Ok(e);
    }

    method Unary() returns (r: Parsed<Expr>)
      requires Valid()
      modifies this`current, errors
      ensures Valid() && Produced(r, current, errors.log) == UnaryAt(tokens, old(current), old(errors.log))
      decreases |tokens| - current, 19
    {
      var m := Match(UnaryOperators);
      if m {
        var operator := Previous();
        var right :- Unary();
        return Ok(Expr.Unary(operator, right));
      }
      r := Increment();
    }

    /** Prefix `++`/`--` nest; one postfix `++`/`--` may follow a call. */
    method Increment() returns (r: Parsed<Expr>)
      requires Valid()
      modifies this`current, errors
      ensures Valid() && Produced(r, current, errors.log) == IncrementAt(tokens, old(current), old(errors.log))
      decreases |tokens| - current, 18
    {
      var m := Match(StepOperators);
      if m {
        var operator := Previous();
        var right :- Increment();
        return Ok(Prefix(operator, right));
      }
      var e :- Call();
      m := Match(StepOperators);
      if m {
        var operator := Previous();
        e := Postfix(e, operator);
      }
      return Ok(e);
    }

    /** Calls and property accesses chained onto an anonymous function or a primary. */
    method Call() returns (r: Parsed<Expr>)
      requires Valid()
      modifies this`current, errors
      ensures Valid() && Produced(r, current, errors.log) == CallAt(tokens, old(current), old(errors.log))
      decreases |tokens| - current, 17
    {
      var e :- Anonym();
      while true
        invariant Valid()
        invariant CallAt(tokens, old(current), old(errors.log)) == CallFrom(tokens, current, errors.log, e)
        decreases |tokens| - current
      {
        var m := Match({LEFT_PAREN});
        if m {
          e :- FinishCall(e);
        } else {
          m := Match({DOT});
          if m {
            var name :- Consume(IDENTIFIER, ExpectPropertyName);
            e := Get(e, name);
          } else {
            break;
          }
        }
      }
      return Ok(e);
    }

    /** The arguments of a call whose `(` has been consumed; past 255 each further one is reported but kept. */
    method FinishCall(callee: Expr) returns (r: Parsed<Expr>)
      requires Valid()
      modifies this`current, errors
      ensures Valid() && Produced(r, current, errors.log) == FinishCallAt(tokens, old(current), old(errors.log), callee)
      decreases |tokens| - current, 33
    {
      ghost var argumentsParse := ArgumentsAt(tokens, current, errors.log);
      var arguments: seq<Expr> := [];
      if !Check(RIGHT_PAREN) {
        while true
          invariant Valid()
          invariant argumentsParse == ArgumentsFrom(tokens, current, errors.log, arguments)
          decreases |tokens| - current
        {
          if |arguments| >= 255 {
            errors.ParseError(Peek(), TooManyArguments);
          }
          var a :- Expression();
          assert (arguments + [a])[..|arguments|] == arguments;
          arguments := arguments + [a];
          var comma := Match({COMMA});
          if !comma {
            break;
          }
        }
      }
      var paren :- Consume(RIGHT_PAREN, ExpectParenAfterArguments);
      return Ok(Expr.Call(callee, paren, arguments));
    }

    /** An anonymous function `fn (params) { body }`, or else a primary. */
    method Anonym() returns (r: Parsed<Expr>)
      requires Valid()
      modifies this`current, errors
      ensures Valid() && Produced(r, current, errors.log) == AnonymAt(tokens, old(current), old(errors.log))
      decreases |tokens| - current, 16
    {
      var m := Match({FN});
      if !m {
        r := Primary();
        return;
      }
      var _ :- Consume(LEFT_PAREN, ExpectParenAfterName(AnonymousKind));
      var parameters :- Parameters();
      var _ :- Consume(RIGHT_PAREN, ExpectParenAfterParameters);
      var _ :- Consume(LEFT_BRACE, ExpectBraceBeforeBody(AnonymousKind));
      var body :- Block();
      return Ok(Expr.Anonym(parameters, body));
    }

    method Primary() returns (r: Parsed<Expr>)
      requires Valid()
      modifies this`current, errors
      ensures Valid() && Produced(r, current, errors.log) == PrimaryAt(tokens, old(current), old(errors.log))
      decreases |tokens| - current, 15
    {
      var next := Peek();
      var m := Match({FALSE});
      if m {
        return Ok(Literal(BoolLit(false)));
      }
      m := Match({TRUE});
      if m {
        return Ok(Literal(BoolLit(true)));
      }
      m := Match({NONE});
      if m {
        return Ok(Literal(NoneLit));
      }
      m := Match({NUMBER, STRING});
      if m {
        return Ok(Literal(next.literal));
      }
      m := Match({SUPER});
      if m {
        var _ :- Consume(DOUBLE_COLON, ExpectDoubleColonAfterSuper);
        var methodName :- Consume(IDENTIFIER, ExpectSuperclassMethodName);
        return Ok(Super(next, methodName));
      }
      m := Match({SELF});
      if m {
        return Ok(Self(next));
      }
      m := Match({IDENTIFIER});
      if m {
        return Ok(Variable(next));
      }
      m := Match({LEFT_PAREN});
      if m {
        var e :- Expression();
        var _ :- Consume(RIGHT_PAREN, ExpectParenAfterExpression);
        return Ok(Grouping(e));
      }
      var token := if next.kind != EOF then next else Previous();
      var _ := Error(token, ExpectExpression);
      return Failed;
    }
  }
}
