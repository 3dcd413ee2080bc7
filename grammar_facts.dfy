/**
 * What the grammar guarantees about error reporting: no production takes a
 * report back, every failure has added one, and a declaration that failed
 * leaves `Missing` only after its report, with the position at the point
 * where error recovery stops. Each lemma follows its production's body.
 */
module GrammarReports {
  import opened Tokens
  import opened Errors
  import opened Syntax
  import opened Grammar

  // ---------------------------------------------------------- declarations

  /** A program's `Missing` slots were all reported. */
  lemma {:induction false} ProgramReports(ts: TokenList, i: nat, log: seq<Diagnostic>, statements: seq<Stmt>)
    requires i < |ts|
    ensures var p := ProgramFrom(ts, i, log, statements);
            log <= p.log && (Missing in p.result.value ==> Missing in statements || |log| < |p.log|)
    decreases |ts| - i
  {
    if ts[i].kind != EOF {
      var d := DeclarationAt(ts, i, log);
      DeclarationReports(ts, i, log);
      ProgramReports(ts, d.next, d.log, statements + [d.result.value]);
    }
  }

  /**
   * A declaration is `Missing` only when its production failed, which
   * reported; recovery then leaves the position at EOF or at a sync point.
   */
  lemma {:induction false} DeclarationReports(ts: TokenList, i: nat, log: seq<Diagnostic>)
    requires i < |ts|
    ensures var p := DeclarationAt(ts, i, log);
            Reported(log, p.log, p.result.value.Missing?) &&
            (p.result.value.Missing? ==> ts[p.next].kind == EOF || (0 < p.next && SyncPoint(ts, p.next)))
    decreases |ts| - i, 41
  {
    DeclaredReports(ts, i, log);
  }

  lemma {:induction false} DeclaredReports(ts: TokenList, i: nat, log: seq<Diagnostic>)
    requires i < |ts|
    ensures var p := DeclaredAt(ts, i, log); Reported(log, p.log, p.result.Failed?)
    decreases |ts| - i, 40
  {
    if MatchAt(ts, i, {CLASS}) {
      ClassDeclarationReports(ts, i + 1, log);
    } else if MatchAt(ts, i, {FN}) {
      FunctionReports(ts, i + 1, log, FunctionKind);
    } else if MatchAt(ts, i, {LET}) {
      VarDeclarationReports(ts, i + 1, log);
    } else {
      StatementReports(ts, i, log);
    }
  }

  lemma {:induction false} ClassDeclarationReports(ts: TokenList, i: nat, log: seq<Diagnostic>)
    requires i < |ts|
    ensures var p := ClassDeclarationAt(ts, i, log); Reported(log, p.log, p.result.Failed?)
    decreases |ts| - i, 39
  {
    var name := ConsumeAt(ts, i, log, IDENTIFIER, ExpectClassName);
    if name.result.Ok? {
      var superclass := SuperclassAt(ts, name.next, name.log);
      SuperclassReports(ts, name.next, name.log);
      if superclass.result.Ok? {
        var open := ConsumeAt(ts, superclass.next, superclass.log, LEFT_BRACE, ExpectBraceBeforeClassBody);
        if open.result.Ok? {
          MethodsReports(ts, open.next, open.log, []);
        }
      }
    }
  }

  lemma SuperclassReports(ts: TokenList, i: nat, log: seq<Diagnostic>)
    requires i < |ts|
    ensures var p := SuperclassAt(ts, i, log); Reported(log, p.log, p.result.Failed?)
  {
  }

  lemma {:induction false} MethodsReports(ts: TokenList, i: nat, log: seq<Diagnostic>, methods: seq<FunctionDecl>)
    requires i < |ts|
    ensures var p := MethodsFrom(ts, i, log, methods); Reported(log, p.log, p.result.Failed?)
    decreases |ts| - i, 39
  {
    if !(CheckAt(ts, i, RIGHT_BRACE) || ts[i].kind == EOF) {
      var f := FunctionAt(ts, i, log, MethodKind);
      FunctionReports(ts, i, log, MethodKind);
      if f.result.Ok? {
        MethodsReports(ts, f.next, f.log, methods + [f.result.value]);
      }
    }
  }

  lemma ParametersReports(ts: TokenList, i: nat, log: seq<Diagnostic>)
    requires i < |ts|
    ensures var p := ParametersAt(ts, i, log); Reported(log, p.log, p.result.Failed?)
  {
    if !CheckAt(ts, i, RIGHT_PAREN) {
      ParametersFromReports(ts, i, log, []);
    }
  }

  lemma {:induction false} ParametersFromReports(ts: TokenList, i: nat, log: seq<Diagnostic>, parameters: seq<Token>)
    requires i < |ts|
    ensures var p := ParametersFrom(ts, i, log, parameters); Reported(log, p.log, p.result.Failed?)
    decreases |ts| - i
  {
    var reported := if |parameters| >= 255 then log + [AtToken(ERROR, ts[i], TooManyParameters)] else log;
    var name := ConsumeAt(ts, i, reported, IDENTIFIER, ExpectParameterName);
    if name.result.Ok? && MatchAt(ts, name.next, {COMMA}) {
      ParametersFromReports(ts, name.next + 1, name.log, parameters + [name.result.value]);
    }
  }

  lemma {:induction false} FunctionReports(ts: TokenList, i: nat, log: seq<Diagnostic>, kind: string)
    requires i < |ts|
    ensures var p := FunctionAt(ts, i, log, kind); Reported(log, p.log, p.result.Failed?)
    decreases |ts| - i, 38
  {
    var name := ConsumeAt(ts, i, log, IDENTIFIER, ExpectName(kind));
    if name.result.Failed? { return; }
    var open := ConsumeAt(ts, name.next, name.log, LEFT_PAREN, ExpectParenAfterName(kind));
    if open.result.Failed? { return; }
    var parameters := ParametersAt(ts, open.next, open.log);
    ParametersReports(ts, open.next, open.log);
    if parameters.result.Failed? { return; }
    var close := ConsumeAt(ts, parameters.next, parameters.log, RIGHT_PAREN, ExpectParenAfterParameters);
    if close.result.Failed? { return; }
    var brace := ConsumeAt(ts, close.next, close.log, LEFT_BRACE, ExpectBraceBeforeBody(kind));
    if brace.result.Failed? { return; }
    BlockReports(ts, brace.next, brace.log);
  }

  lemma {:induction false} VarDeclarationReports(ts: TokenList, i: nat, log: seq<Diagnostic>)
    requires i < |ts|
    ensures var p := VarDeclarationAt(ts, i, log); Reported(log, p.log, p.result.Failed?)
    decreases |ts| - i, 37
  {
    var name := ConsumeAt(ts, i, log, IDENTIFIER, ExpectVariableName);
    if name.result.Ok? && MatchAt(ts, name.next, {EQUAL}) {
      ExpressionReports(ts, name.next + 1, name.log);
    }
  }

  // ---------------------------------------------------------- statements

  lemma {:induction false} StatementReports(ts: TokenList, i: nat, log: seq<Diagnostic>)
    requires i < |ts|
    ensures var p := StatementAt(ts, i, log); Reported(log, p.log, p.result.Failed?)
    decreases |ts| - i, 36
  {
    if MatchAt(ts, i, {FOR}) {
      ForStatementReports(ts, i + 1, log);
    } else if MatchAt(ts, i, {IF}) {
      IfReports(ts, i + 1, log);
    } else if MatchAt(ts, i, {ECHO}) {
      EchoReports(ts, i + 1, log);
    } else if MatchAt(ts, i, {RETURN}) {
      ReturnReports(ts, i + 1, log);
    } else if MatchAt(ts, i, {WHILE}) {
      WhileReports(ts, i + 1, log);
    } else if MatchAt(ts, i, {LEFT_BRACE}) {
      BlockReports(ts, i + 1, log);
    } else {
      ExpressionStatementReports(ts, i, log);
    }
  }

  lemma {:induction false} ForStatementReports(ts: TokenList, i: nat, log: seq<Diagnostic>)
    requires i < |ts|
    ensures var p := ForStatementAt(ts, i, log); Reported(log, p.log, p.result.Failed?)
    decreases |ts| - i, 35
  {
    var initializer := ForInitializerAt(ts, i, log);
    ForInitializerReports(ts, i, log);
    if initializer.result.Failed? { return; }
    var condition := OptionalExpressionAt(ts, initializer.next, initializer.log, SEMICOLON);
    OptionalExpressionReports(ts, initializer.next, initializer.log, SEMICOLON);
    if condition.result.Failed? { return; }
    var semicolon := ConsumeAt(ts, condition.next, condition.log, SEMICOLON, ExpectSemicolonAfterCondition);
    if semicolon.result.Failed? { return; }
    var increment := OptionalExpressionAt(ts, semicolon.next, semicolon.log, RIGHT_PAREN);
    OptionalExpressionReports(ts, semicolon.next, semicolon.log, RIGHT_PAREN);
    if increment.result.Failed? { return; }
    StatementReports(ts, increment.next, increment.log);
  }

  lemma {:induction false} ForInitializerReports(ts: TokenList, i: nat, log: seq<Diagnostic>)
    requires i < |ts|
    ensures var p := ForInitializerAt(ts, i, log); Reported(log, p.log, p.result.Failed?)
    decreases |ts| - i, 34
  {
    if MatchAt(ts, i, {SEMICOLON}) {
    } else if MatchAt(ts, i, {LET}) {
      VarDeclarationReports(ts, i + 1, log);
    } else {
      ExpressionStatementReports(ts, i, log);
    }
  }

  lemma {:induction false} OptionalExpressionReports(ts: TokenList, i: nat, log: seq<Diagnostic>, stop: TokenType)
    requires i < |ts|
    ensures var p := OptionalExpressionAt(ts, i, log, stop); Reported(log, p.log, p.result.Failed?)
    decreases |ts| - i, 31
  {
    if !CheckAt(ts, i, stop) {
      ExpressionReports(ts, i, log);
    }
  }

  lemma {:induction false} IfReports(ts: TokenList, i: nat, log: seq<Diagnostic>)
    requires i < |ts|
    ensures var p := IfAt(ts, i, log); Reported(log, p.log, p.result.Failed?)
    decreases |ts| - i, 34
  {
    var condition := ExpressionAt(ts, i, log);
    ExpressionReports(ts, i, log);
    if condition.result.Failed? { return; }
    var colon := ConsumeAt(ts, condition.next, condition.log, COLON, ExpectColonAfterCondition);
    if colon.result.Failed? { return; }
    var thenBranch := StatementAt(ts, colon.next, colon.log);
    StatementReports(ts, colon.next, colon.log);
    if thenBranch.result.Ok? && MatchAt(ts, thenBranch.next, {ELSE}) {
      StatementReports(ts, thenBranch.next + 1, thenBranch.log);
    }
  }

  lemma {:induction false} EchoReports(ts: TokenList, i: nat, log: seq<Diagnostic>)
    requires i < |ts|
    ensures var p := EchoAt(ts, i, log); Reported(log, p.log, p.result.Failed?)
    decreases |ts| - i, 34
  {
    ExpressionReports(ts, i, log);
  }

  lemma {:induction false} ReturnReports(ts: TokenList, i: nat, log: seq<Diagnostic>)
    requires i < |ts|
    ensures var p := ReturnAt(ts, i, log); Reported(log, p.log, p.result.Failed?)
    decreases |ts| - i, 34
  {
    OptionalExpressionReports(ts, i, log, SEMICOLON);
  }

  lemma {:induction false} WhileReports(ts: TokenList, i: nat, log: seq<Diagnostic>)
    requires i < |ts|
    ensures var p := WhileAt(ts, i, log); Reported(log, p.log, p.result.Failed?)
    decreases |ts| - i, 34
  {
    var condition := ExpressionAt(ts, i, log);
    ExpressionReports(ts, i, log);
    if condition.result.Failed? { return; }
    var colon := ConsumeAt(ts, condition.next, condition.log, COLON, ExpectColonAfterCondition);
    if colon.result.Ok? {
      StatementReports(ts, colon.next, colon.log);
    }
  }

  lemma {:induction false} ExpressionStatementReports(ts: TokenList, i: nat, log: seq<Diagnostic>)
    requires i < |ts|
    ensures var p := ExpressionStatementAt(ts, i, log); Reported(log, p.log, p.result.Failed?)
    decreases |ts| - i, 32
  {
    ExpressionReports(ts, i, log);
  }

  /** A block's `Missing` slots were reported, as was a failed block. */
  lemma {:induction false} BlockReports(ts: TokenList, i: nat, log: seq<Diagnostic>)
    requires i < |ts|
    ensures var p := BlockAt(ts, i, log);
            Reported(log, p.log, p.result.Failed?) &&
            (p.result.Ok? && Missing in p.result.value ==> |log| < |p.log|)
    decreases |ts| - i, 43
  {
    BlockFromReports(ts, i, log, []);
  }

  lemma {:induction false} BlockFromReports(ts: TokenList, i: nat, log: seq<Diagnostic>, statements: seq<Stmt>)
    requires i < |ts|
    ensures var p := BlockFrom(ts, i, log, statements);
            Reported(log, p.log, p.result.Failed?) &&
            (p.result.Ok? && Missing in p.result.value ==> Missing in statements || |log| < |p.log|)
    decreases |ts| - i, 42
  {
    if !(CheckAt(ts, i, RIGHT_BRACE) || ts[i].kind == EOF) {
      var d := DeclarationAt(ts, i, log);
      DeclarationReports(ts, i, log);
      BlockFromReports(ts, d.next, d.log, statements + [d.result.value]);
    }
  }

  // ---------------------------------------------------------- expressions

  lemma {:induction false} ExpressionReports(ts: TokenList, i: nat, log: seq<Diagnostic>)
    requires i < |ts|
    ensures var p := ExpressionAt(ts, i, log); Reported(log, p.log, p.result.Failed?)
    decreases |ts| - i, 30
  {
    AssignmentReports(ts, i, log);
  }

  lemma {:induction false} AssignmentReports(ts: TokenList, i: nat, log: seq<Diagnostic>)
    requires i < |ts|
    ensures var p := AssignmentAt(ts, i, log); Reported(log, p.log, p.result.Failed?)
    decreases |ts| - i, 29
  {
    var target := TernaryAt(ts, i, log);
    TernaryReports(ts, i, log);
    if target.result.Ok? && MatchAt(ts, target.next, {EQUAL}) {
      AssignmentReports(ts, target.next + 1, target.log);
    }
  }

  lemma {:induction false} TernaryReports(ts: TokenList, i: nat, log: seq<Diagnostic>)
    requires i < |ts|
    ensures var p := TernaryAt(ts, i, log); Reported(log, p.log, p.result.Failed?)
    decreases |ts| - i, 28
  {
    var condition := ChainAt(OrLevel, ts, i, log);
    ChainReports(OrLevel, ts, i, log);
    if condition.result.Ok? {
      TernaryFromReports(ts, condition.next, condition.log, condition.result.value);
    }
  }

  lemma {:induction false} TernaryFromReports(ts: TokenList, i: nat, log: seq<Diagnostic>, e: Expr)
    requires i < |ts|
    ensures var p := TernaryFrom(ts, i, log, e); Reported(log, p.log, p.result.Failed?)
    decreases |ts| - i, 28
  {
    if !MatchAt(ts, i, {QUESTION_MARK}) { return; }
    var whenTrue := TernaryAt(ts, i + 1, log);
    TernaryReports(ts, i + 1, log);
    if whenTrue.result.Failed? { return; }
    var colon := ConsumeAt(ts, whenTrue.next, whenTrue.log, COLON, ExpectColonInTernary);
    if colon.result.Failed? { return; }
    var whenFalse := TernaryAt(ts, colon.next, colon.log);
    TernaryReports(ts, colon.next, colon.log);
    if whenFalse.result.Failed? { return; }
    var t := Expr.Ternary(e, ts[i], whenTrue.result.value, PreviousAt(ts, colon.next), whenFalse.result.value);
    TernaryFromReports(ts, whenFalse.next, whenFalse.log, t);
  }

  lemma {:induction false} ChainReports(level: nat, ts: TokenList, i: nat, log: seq<Diagnostic>)
    requires OrLevel <= level <= FactorLevel && i < |ts|
    ensures var p := ChainAt(level, ts, i, log); Reported(log, p.log, p.result.Failed?)
    decreases |ts| - i, 29 - level
  {
    var first := if level == FactorLevel then UnaryAt(ts, i, log) else ChainAt(level + 1, ts, i, log);
    if level == FactorLevel {
      UnaryReports(ts, i, log);
    } else {
      ChainReports(level + 1, ts, i, log);
    }
    if first.result.Ok? {
      ChainFromReports(level, ts, first.next, first.log, first.result.value);
    }
  }

  lemma {:induction false} ChainFromReports(level: nat, ts: TokenList, i: nat, log: seq<Diagnostic>, e: Expr)
    requires OrLevel <= level <= FactorLevel && i < |ts|
    ensures var p := ChainFrom(level, ts, i, log, e); Reported(log, p.log, p.result.Failed?)
    decreases |ts| - i, 29 - level
  {
    if !MatchAt(ts, i, OperatorsAt(level)) { return; }
    var right := if level == FactorLevel then UnaryAt(ts, i + 1, log) else ChainAt(level + 1, ts, i + 1, log);
    if level == FactorLevel {
      UnaryReports(ts, i + 1, log);
    } else {
      ChainReports(level + 1, ts, i + 1, log);
    }
    if right.result.Ok? {
      ChainFromReports(level, ts, right.next, right.log, Node(level, e, ts[i], right.result.value));
    }
  }

  lemma {:induction false} UnaryReports(ts: TokenList, i: nat, log: seq<Diagnostic>)
    requires i < |ts|
    ensures var p := UnaryAt(ts, i, log); Reported(log, p.log, p.result.Failed?)
    decreases |ts| - i, 19
  {
    if MatchAt(ts, i, UnaryOperators) {
      UnaryReports(ts, i + 1, log);
    } else {
      IncrementReports(ts, i, log);
    }
  }

  lemma {:induction false} IncrementReports(ts: TokenList, i: nat, log: seq<Diagnostic>)
    requires i < |ts|
    ensures var p := IncrementAt(ts, i, log); Reported(log, p.log, p.result.Failed?)
    decreases |ts| - i, 18
  {
    if MatchAt(ts, i, StepOperators) {
      IncrementReports(ts, i + 1, log);
    } else {
      CallReports(ts, i, log);
    }
  }

  lemma {:induction false} CallReports(ts: TokenList, i: nat, log: seq<Diagnostic>)
    requires i < |ts|
    ensures var p := CallAt(ts, i, log); Reported(log, p.log, p.result.Failed?)
    decreases |ts| - i, 17
  {
    var e := AnonymAt(ts, i, log);
    AnonymReports(ts, i, log);
    if e.result.Ok? {
      CallFromReports(ts, e.next, e.log, e.result.value);
    }
  }

  lemma {:induction false} CallFromReports(ts: TokenList, i: nat, log: seq<Diagnostic>, e: Expr)
    requires i < |ts|
    ensures var p := CallFrom(ts, i, log, e); Reported(log, p.log, p.result.Failed?)
    decreases |ts| - i, 17
  {
    if MatchAt(ts, i, {LEFT_PAREN}) {
      var call := FinishCallAt(ts, i + 1, log, e);
      FinishCallReports(ts, i + 1, log, e);
      if call.result.Ok? {
        CallFromReports(ts, call.next, call.log, call.result.value);
      }
    } else if MatchAt(ts, i, {DOT}) {
      var name := ConsumeAt(ts, i + 1, log, IDENTIFIER, ExpectPropertyName);
      if name.result.Ok? {
        CallFromReports(ts, name.next, name.log, Get(e, name.result.value));
      }
    }
  }

  lemma {:induction false} FinishCallReports(ts: TokenList, i: nat, log: seq<Diagnostic>, callee: Expr)
    requires i < |ts|
    ensures var p := FinishCallAt(ts, i, log, callee); Reported(log, p.log, p.result.Failed?)
    decreases |ts| - i, 33
  {
    ArgumentsReports(ts, i, log);
  }

  lemma {:induction false} ArgumentsReports(ts: TokenList, i: nat, log: seq<Diagnostic>)
    requires i < |ts|
    ensures var p := ArgumentsAt(ts, i, log); Reported(log, p.log, p.result.Failed?)
    decreases |ts| - i, 32
  {
    if !CheckAt(ts, i, RIGHT_PAREN) {
      ArgumentsFromReports(ts, i, log, []);
    }
  }

  lemma {:induction false} ArgumentsFromReports(ts: TokenList, i: nat, log: seq<Diagnostic>, arguments: seq<Expr>)
    requires i < |ts|
    ensures var p := ArgumentsFrom(ts, i, log, arguments); Reported(log, p.log, p.result.Failed?)
    decreases |ts| - i, 31
  {
    var reported := if |arguments| >= 255 then log + [AtToken(ERROR, ts[i], TooManyArguments)] else log;
    var a := ExpressionAt(ts, i, reported);
    ExpressionReports(ts, i, reported);
    if a.result.Ok? && MatchAt(ts, a.next, {COMMA}) {
      ArgumentsFromReports(ts, a.next + 1, a.log, arguments + [a.result.value]);
    }
  }

  lemma {:induction false} AnonymReports(ts: TokenList, i: nat, log: seq<Diagnostic>)
    requires i < |ts|
    ensures var p := AnonymAt(ts, i, log); Reported(log, p.log, p.result.Failed?)
    decreases |ts| - i, 16
  {
    if !MatchAt(ts, i, {FN}) {
      PrimaryReports(ts, i, log);
      return;
    }
    var open := ConsumeAt(ts, i + 1, log, LEFT_PAREN, ExpectParenAfterName(AnonymousKind));
    if open.result.Failed? { return; }
    var parameters := ParametersAt(ts, open.next, open.log);
    ParametersReports(ts, open.next, open.log);
    if parameters.result.Failed? { return; }
    var close := ConsumeAt(ts, parameters.next, parameters.log, RIGHT_PAREN, ExpectParenAfterParameters);
    if close.result.Failed? { return; }
    var brace := ConsumeAt(ts, close.next, close.log, LEFT_BRACE, ExpectBraceBeforeBody(AnonymousKind));
    if brace.result.Failed? { return; }
    BlockReports(ts, brace.next, brace.log);
  }

  lemma {:induction false} PrimaryReports(ts: TokenList, i: nat, log: seq<Diagnostic>)
    requires i < |ts|
    ensures var p := PrimaryAt(ts, i, log); Reported(log, p.log, p.result.Failed?)
    decreases |ts| - i, 15
  {
    if !MatchAt(ts, i, {FALSE}) && !MatchAt(ts, i, {TRUE}) && !MatchAt(ts, i, {NONE}) &&
       !MatchAt(ts, i, {NUMBER, STRING}) && !MatchAt(ts, i, {SUPER}) && !MatchAt(ts, i, {SELF}) &&
       !MatchAt(ts, i, {IDENTIFIER}) && MatchAt(ts, i, {LEFT_PAREN}) {
      ExpressionReports(ts, i + 1, log);
    }
  }
}
