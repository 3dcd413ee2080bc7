/**
 * What particular token sequences parse to: the primaries, the parts of a
 * `for` loop, assignment targets, and the groupings the precedence ladder
 * gives `a - b - c` and `a = b = c`.
 */
module GrammarCases {
  import opened Tokens
  import opened Errors
  import opened Syntax
  import opened Grammar
  import GrammarReports

  // ---------------------------------------------------------- primaries

  /** Each kind of primary, and the report when the next token cannot start one. */
  lemma PrimaryCases(ts: TokenList, i: nat, log: seq<Diagnostic>)
    requires i < |ts|
    ensures var p := PrimaryAt(ts, i, log);
            (ts[i].kind == FALSE ==> p == Produced(Ok(Literal(BoolLit(false))), i + 1, log)) &&
            (ts[i].kind == TRUE ==> p == Produced(Ok(Literal(BoolLit(true))), i + 1, log)) &&
            (ts[i].kind == NONE ==> p == Produced(Ok(Literal(NoneLit)), i + 1, log)) &&
            (ts[i].kind in {NUMBER, STRING} ==> p == Produced(Ok(Literal(ts[i].literal)), i + 1, log)) &&
            (ts[i].kind == SELF ==> p == Produced(Ok(Self(ts[i])), i + 1, log)) &&
            (ts[i].kind == IDENTIFIER ==> p == Produced(Ok(Variable(ts[i])), i + 1, log)) &&
            (ts[i].kind !in PrimaryStarts ==>
               p == Produced(Failed, i, log + [AtToken(ERROR, if ts[i].kind != EOF then ts[i] else PreviousAt(ts, i), ExpectExpression)]))
  {
  }

  /** `super :: name` gives a `Super` node at the keyword; a missing `::` or name is reported at the token before it. */
  lemma SuperCases(ts: TokenList, i: nat, log: seq<Diagnostic>)
    requires i < |ts| && ts[i].kind == SUPER
    ensures var p := PrimaryAt(ts, i, log);
            (CheckAt(ts, i + 1, DOUBLE_COLON) && CheckAt(ts, i + 2, IDENTIFIER) ==>
               p == Produced(Ok(Super(ts[i], ts[i + 2])), i + 3, log)) &&
            (!CheckAt(ts, i + 1, DOUBLE_COLON) ==>
               p == Produced(Failed, i + 1, log + [AtToken(ERROR, ts[i], ExpectDoubleColonAfterSuper)])) &&
            (CheckAt(ts, i + 1, DOUBLE_COLON) && !CheckAt(ts, i + 2, IDENTIFIER) ==>
               p == Produced(Failed, i + 2, log + [AtToken(ERROR, ts[i + 1], ExpectSuperclassMethodName)]))
  {
  }

  /** A parenthesised expression is a `Grouping` of it; a missing `)` is reported at the token before it. */
  lemma GroupingCases(ts: TokenList, i: nat, log: seq<Diagnostic>)
    requires i < |ts| && ts[i].kind == LEFT_PAREN
    ensures var p := PrimaryAt(ts, i, log);
            var e := ExpressionAt(ts, i + 1, log);
            (e.result.Failed? ==> p == e) &&
            (e.result.Ok? && CheckAt(ts, e.next, RIGHT_PAREN) ==>
               p == Produced(Ok(Grouping(e.result.value)), e.next + 1, e.log)) &&
            (e.result.Ok? && !CheckAt(ts, e.next, RIGHT_PAREN) ==>
               p == Produced(Failed, e.next, e.log + [AtToken(ERROR, PreviousAt(ts, e.next), ExpectParenAfterExpression)]))
  {
  }

  // ---------------------------------------------------------- lists

  /** Every parameter is an identifier token, and the ones collected before stay first. */
  lemma {:induction false} ParametersFromNames(ts: TokenList, i: nat, log: seq<Diagnostic>, parameters: seq<Token>)
    requires i < |ts| && forall k | 0 <= k < |parameters| :: parameters[k].kind == IDENTIFIER
    ensures var p := ParametersFrom(ts, i, log, parameters);
            p.result.Ok? ==> parameters < p.result.value && forall k | 0 <= k < |p.result.value| :: p.result.value[k].kind == IDENTIFIER
    decreases |ts| - i
  {
    var reported := if |parameters| >= 255 then log + [AtToken(ERROR, ts[i], TooManyParameters)] else log;
    var name := ConsumeAt(ts, i, reported, IDENTIFIER, ExpectParameterName);
    if name.result.Ok? && MatchAt(ts, name.next, {COMMA}) {
      ParametersFromNames(ts, name.next + 1, name.log, parameters + [name.result.value]);
    }
  }

  /** A parameter list is a list of identifiers. */
  lemma ParametersNames(ts: TokenList, i: nat, log: seq<Diagnostic>)
    requires i < |ts|
    ensures var p := ParametersAt(ts, i, log);
            p.result.Ok? ==> forall k | 0 <= k < |p.result.value| :: p.result.value[k].kind == IDENTIFIER
  {
    if !CheckAt(ts, i, RIGHT_PAREN) {
      ParametersFromNames(ts, i, log, []);
    }
  }

  /** With 255 parameters collected, the next one is reported at its token, and parsing goes on. */
  lemma TooManyParametersReported(ts: TokenList, i: nat, log: seq<Diagnostic>, parameters: seq<Token>)
    requires i < |ts| && |parameters| >= 255
    ensures var p := ParametersFrom(ts, i, log, parameters);
            log + [AtToken(ERROR, ts[i], TooManyParameters)] <= p.log
  {
    var reported := log + [AtToken(ERROR, ts[i], TooManyParameters)];
    var name := ConsumeAt(ts, i, reported, IDENTIFIER, ExpectParameterName);
    if name.result.Ok? && MatchAt(ts, name.next, {COMMA}) {
      GrammarReports.ParametersFromReports(ts, name.next + 1, name.log, parameters + [name.result.value]);
    }
  }

  /** With 255 arguments collected, the next one is reported at its first token, and parsing goes on. */
  lemma TooManyArgumentsReported(ts: TokenList, i: nat, log: seq<Diagnostic>, arguments: seq<Expr>)
    requires i < |ts| && |arguments| >= 255
    ensures var p := ArgumentsFrom(ts, i, log, arguments);
            log + [AtToken(ERROR, ts[i], TooManyArguments)] <= p.log
  {
    var reported := log + [AtToken(ERROR, ts[i], TooManyArguments)];
    var a := ExpressionAt(ts, i, reported);
    GrammarReports.ExpressionReports(ts, i, reported);
    if a.result.Ok? && MatchAt(ts, a.next, {COMMA}) {
      GrammarReports.ArgumentsFromReports(ts, a.next + 1, a.log, arguments + [a.result.value]);
    }
  }

  // ---------------------------------------------------------- for loops

  /**
   * A `for` initializer is absent exactly when `;` comes first; otherwise
   * it is the `let` declaration after the keyword or an expression statement.
   */
  lemma ForInitializerCases(ts: TokenList, i: nat, log: seq<Diagnostic>)
    requires i < |ts|
    ensures var initializer := ForInitializerAt(ts, i, log);
            (CheckAt(ts, i, SEMICOLON) ==> initializer == Produced(Ok(None), i + 1, log)) &&
            (CheckAt(ts, i, LET) ==> initializer == Present(VarDeclarationAt(ts, i + 1, log))) &&
            (!CheckAt(ts, i, SEMICOLON) && !CheckAt(ts, i, LET) ==>
               initializer == Present(ExpressionStatementAt(ts, i, log)) &&
               (initializer.result.Ok? ==> initializer.result.value.Some?))
  {
  }

  /**
   * A `for` loop that parsed is the `ForLoop` of its parts: the initializer,
   * the optional condition before the second `;`, the optional increment
   * before `)`, and the body; each part parsed.
   */
  lemma ForDesugaring(ts: TokenList, i: nat, log: seq<Diagnostic>)
    requires i < |ts| && ForStatementAt(ts, i, log).result.Ok?
    ensures var initializer := ForInitializerAt(ts, i, log);
            initializer.result.Ok? &&
            var condition := OptionalExpressionAt(ts, initializer.next, initializer.log, SEMICOLON);
            condition.result.Ok? && CheckAt(ts, condition.next, SEMICOLON) &&
            var increment := OptionalExpressionAt(ts, condition.next + 1, condition.log, RIGHT_PAREN);
            increment.result.Ok? &&
            var body := StatementAt(ts, increment.next, increment.log);
            body.result.Ok? &&
            ForStatementAt(ts, i, log) ==
              Produced(Ok(ForLoop(initializer.result.value, condition.result.value, increment.result.value, body.result.value)), body.next, body.log)
  {
  }

  /** An optional part is absent, with no move, exactly when its stop token is next; otherwise it is the expression there. */
  lemma OptionalCases(ts: TokenList, i: nat, log: seq<Diagnostic>, stop: TokenType)
    requires i < |ts|
    ensures var p := OptionalExpressionAt(ts, i, log, stop);
            (CheckAt(ts, i, stop) ==> p == Produced(Ok(None), i, log)) &&
            (!CheckAt(ts, i, stop) ==> p == Present(ExpressionAt(ts, i, log)) && (p.result.Ok? ==> p.result.value.Some?))
  {
  }

  // ---------------------------------------------------------- assignment

  /**
   * After a target and `=`, a variable target gives `Assign` and a property
   * target gives `Set` over the value parsed to the right; any other target
   * is itself the result, with "Invalid assignment target." reported at
   * the `=` after the value's own reports.
   */
  lemma AssignmentTargets(ts: TokenList, i: nat, log: seq<Diagnostic>)
    requires i < |ts|
    ensures var target := TernaryAt(ts, i, log);
            !(target.result.Ok? && MatchAt(ts, target.next, {EQUAL})) ==> AssignmentAt(ts, i, log) == target
    ensures var target := TernaryAt(ts, i, log);
            target.result.Ok? && MatchAt(ts, target.next, {EQUAL}) ==>
              var value := AssignmentAt(ts, target.next + 1, target.log);
              var t := target.result.value;
              (value.result.Failed? ==> AssignmentAt(ts, i, log) == value) &&
              (value.result.Ok? && t.Variable? ==>
                 AssignmentAt(ts, i, log) == Produced(Ok(Assign(t.name, value.result.value)), value.next, value.log)) &&
              (value.result.Ok? && t.Get? ==>
                 AssignmentAt(ts, i, log) == Produced(Ok(Set(t.obj, t.name, value.result.value)), value.next, value.log)) &&
              (value.result.Ok? && !t.Variable? && !t.Get? ==>
                 AssignmentAt(ts, i, log) ==
                   Produced(Ok(t), value.next, value.log + [AtToken(ERROR, ts[target.next], InvalidTarget)]))
  {
  }

  // ---------------------------------------------------------- leaves

  /** Tokens that extend the operand before them into a call, property access or postfix step. */
  const Suffixes: set<TokenType> := {LEFT_PAREN, DOT, PLUS_PLUS, MINUS_MINUS}

  /** A number, string or name at `i` that no suffix extends. */
  predicate LeafAt(ts: TokenList, i: nat) {
    i + 1 < |ts| && ts[i].kind in {NUMBER, STRING, IDENTIFIER} && ts[i + 1].kind !in Suffixes
  }

  /** The tree of such a leaf. */
  function Leaf(t: Token): (e: Expr)
    ensures Level(e) == PrimaryLevel && Shaped(e)
  {
    if t.kind == IDENTIFIER then Variable(t) else Literal(t.literal)
  }

  /** A leaf is one token long at the tightest rungs. */
  lemma UnaryLeaf(ts: TokenList, i: nat, log: seq<Diagnostic>)
    requires LeafAt(ts, i)
    ensures UnaryAt(ts, i, log) == Produced(Ok(Leaf(ts[i])), i + 1, log)
  {
    var leaf := Produced(Ok(Leaf(ts[i])), i + 1, log);
    assert PrimaryAt(ts, i, log) == leaf;
    assert AnonymAt(ts, i, log) == leaf;
    assert CallFrom(ts, i + 1, log, Leaf(ts[i])) == leaf;
    assert CallAt(ts, i, log) == leaf;
    assert IncrementAt(ts, i, log) == leaf;
  }

  /** A leaf followed by a token that is no operator of rung `level` or tighter is one token long at that rung. */
  lemma {:induction false} ChainLeaf(level: nat, ts: TokenList, i: nat, log: seq<Diagnostic>)
    requires OrLevel <= level <= FactorLevel && LeafAt(ts, i) && OperatorLevel(ts[i + 1].kind) < level
    ensures ChainAt(level, ts, i, log) == Produced(Ok(Leaf(ts[i])), i + 1, log)
    decreases FactorLevel - level
  {
    if level == FactorLevel {
      UnaryLeaf(ts, i, log);
    } else {
      ChainLeaf(level + 1, ts, i, log);
    }
    assert ChainFrom(level, ts, i + 1, log, Leaf(ts[i])) == Produced(Ok(Leaf(ts[i])), i + 1, log);
  }

  /** What a rung parses is also what every looser rung parses when no operator of theirs follows. */
  lemma {:induction false} ChainLift(level: nat, tight: nat, ts: TokenList, i: nat, log: seq<Diagnostic>)
    requires OrLevel <= level <= tight <= FactorLevel && i < |ts|
    requires var p := ChainAt(tight, ts, i, log); p.result.Ok? && OperatorLevel(ts[p.next].kind) < level
    ensures ChainAt(level, ts, i, log) == ChainAt(tight, ts, i, log)
    decreases tight - level
  {
    if level < tight {
      ChainLift(level + 1, tight, ts, i, log);
      var p := ChainAt(tight, ts, i, log);
      assert ChainFrom(level, ts, p.next, p.log, p.result.value) == p;
    }
  }

  /** An `or` expression not followed by `?` is the whole ternary. */
  lemma TernaryLift(ts: TokenList, i: nat, log: seq<Diagnostic>)
    requires i < |ts|
    requires var p := ChainAt(OrLevel, ts, i, log); p.result.Ok? && ts[p.next].kind != QUESTION_MARK
    ensures TernaryAt(ts, i, log) == ChainAt(OrLevel, ts, i, log)
  {
    var p := ChainAt(OrLevel, ts, i, log);
    assert TernaryFrom(ts, p.next, p.log, p.result.value) == p;
  }

  /** An `or` expression followed by neither `?` nor `=` is the whole expression. */
  lemma ExpressionLift(ts: TokenList, i: nat, log: seq<Diagnostic>)
    requires i < |ts|
    requires var p := ChainAt(OrLevel, ts, i, log); p.result.Ok? && ts[p.next].kind !in {QUESTION_MARK, EQUAL}
    ensures ExpressionAt(ts, i, log) == ChainAt(OrLevel, ts, i, log)
  {
    TernaryLift(ts, i, log);
  }

  /** A leaf followed by a token that is no operator, `?` or `=` is a whole expression. */
  lemma ExpressionLeaf(ts: TokenList, i: nat, log: seq<Diagnostic>)
    requires LeafAt(ts, i) && OperatorLevel(ts[i + 1].kind) < OrLevel && ts[i + 1].kind !in {QUESTION_MARK, EQUAL}
    ensures ExpressionAt(ts, i, log) == Produced(Ok(Leaf(ts[i])), i + 1, log)
  {
    ChainLeaf(OrLevel, ts, i, log);
    ExpressionLift(ts, i, log);
  }

  // ---------------------------------------------------------- groupings

  /**
   * `a - b - c` (or with `+`) followed by no operator of its rung or a
   * tighter one groups to the left: `(a - b) - c`.
   */
  lemma TermGroupsLeft(ts: TokenList, i: nat, log: seq<Diagnostic>)
    requires i + 5 < |ts| && LeafAt(ts, i) && LeafAt(ts, i + 2) && LeafAt(ts, i + 4)
    requires ts[i + 1].kind in TermOperators && ts[i + 3].kind in TermOperators
    requires OperatorLevel(ts[i + 5].kind) < TermLevel
    ensures ChainAt(TermLevel, ts, i, log) ==
              Produced(Ok(Binary(Binary(Leaf(ts[i]), ts[i + 1], Leaf(ts[i + 2])), ts[i + 3], Leaf(ts[i + 4]))), i + 5, log)
  {
    var a, b, c := Leaf(ts[i]), Leaf(ts[i + 2]), Leaf(ts[i + 4]);
    ChainLeaf(ModuloLevel, ts, i, log);
    ChainLeaf(ModuloLevel, ts, i + 2, log);
    ChainLeaf(ModuloLevel, ts, i + 4, log);
    var ab := Binary(a, ts[i + 1], b);
    var abc := Binary(ab, ts[i + 3], c);
    assert ChainFrom(TermLevel, ts, i + 5, log, abc) == Produced(Ok(abc), i + 5, log);
    assert ChainFrom(TermLevel, ts, i + 3, log, ab) == Produced(Ok(abc), i + 5, log);
    assert ChainFrom(TermLevel, ts, i + 1, log, a) == Produced(Ok(abc), i + 5, log);
  }

  /** The same as a whole expression, when no operator, `?` or `=` follows. */
  lemma ExpressionGroupsLeft(ts: TokenList, i: nat, log: seq<Diagnostic>)
    requires i + 5 < |ts| && LeafAt(ts, i) && LeafAt(ts, i + 2) && LeafAt(ts, i + 4)
    requires ts[i + 1].kind in TermOperators && ts[i + 3].kind in TermOperators
    requires OperatorLevel(ts[i + 5].kind) < OrLevel && ts[i + 5].kind !in {QUESTION_MARK, EQUAL}
    ensures ExpressionAt(ts, i, log) ==
              Produced(Ok(Binary(Binary(Leaf(ts[i]), ts[i + 1], Leaf(ts[i + 2])), ts[i + 3], Leaf(ts[i + 4]))), i + 5, log)
  {
    TermGroupsLeft(ts, i, log);
    ChainLift(OrLevel, TermLevel, ts, i, log);
    ExpressionLift(ts, i, log);
  }

  /** `a = b = c` nests to the right: `a = (b = c)`. */
  lemma AssignmentNestsRight(ts: TokenList, i: nat, log: seq<Diagnostic>)
    requires i + 5 < |ts| && LeafAt(ts, i) && LeafAt(ts, i + 2) && LeafAt(ts, i + 4)
    requires ts[i].kind == IDENTIFIER && ts[i + 2].kind == IDENTIFIER
    requires ts[i + 1].kind == EQUAL && ts[i + 3].kind == EQUAL
    requires OperatorLevel(ts[i + 5].kind) < OrLevel && ts[i + 5].kind !in {QUESTION_MARK, EQUAL}
    ensures ExpressionAt(ts, i, log) ==
              Produced(Ok(Assign(ts[i], Assign(ts[i + 2], Leaf(ts[i + 4])))), i + 5, log)
  {
    ChainLeaf(OrLevel, ts, i, log);
    TernaryLift(ts, i, log);
    ChainLeaf(OrLevel, ts, i + 2, log);
    TernaryLift(ts, i + 2, log);
    ExpressionLeaf(ts, i + 4, log);
    assert AssignmentAt(ts, i + 4, log) == Produced(Ok(Leaf(ts[i + 4])), i + 5, log);
    assert AssignmentAt(ts, i + 2, log) == Produced(Ok(Assign(ts[i + 2], Leaf(ts[i + 4]))), i + 5, log);
  }

  /** `1 = 2` keeps `1` and reports "Invalid assignment target." at the `=`. */
  lemma InvalidTargetReported(ts: TokenList, i: nat, log: seq<Diagnostic>)
    requires i + 3 < |ts| && LeafAt(ts, i) && LeafAt(ts, i + 2)
    requires ts[i].kind == NUMBER && ts[i + 1].kind == EQUAL
    requires OperatorLevel(ts[i + 3].kind) < OrLevel && ts[i + 3].kind !in {QUESTION_MARK, EQUAL}
    ensures ExpressionAt(ts, i, log) ==
              Produced(Ok(Literal(ts[i].literal)), i + 3, log + [AtToken(ERROR, ts[i + 1], InvalidTarget)])
  {
    ChainLeaf(OrLevel, ts, i, log);
    TernaryLift(ts, i, log);
    ExpressionLeaf(ts, i + 2, log);
    assert AssignmentAt(ts, i + 2, log) == Produced(Ok(Leaf(ts[i + 2])), i + 3, log);
  }
}
