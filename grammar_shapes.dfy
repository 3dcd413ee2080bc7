/**
 * The precedence ladder, stated of what the grammar builds: every
 * expression a production yields is shaped (see `Syntax.Shaped`) and binds
 * at least as tightly as the production's own rung. With
 * `Syntax.ChainGroupsLeft` this is what makes one level's operators group
 * to the left and assignments nest to the right.
 */
module GrammarShapes {
  import opened Tokens
  import opened Errors
  import opened Syntax
  import opened Grammar

  /** A parsed expression is shaped. */
  lemma {:induction false} ExpressionShaped(ts: TokenList, i: nat, log: seq<Diagnostic>)
    requires i < |ts|
    ensures var p := ExpressionAt(ts, i, log); p.result.Ok? ==> Shaped(p.result.value)
    decreases |ts| - i, 30
  {
    AssignmentShaped(ts, i, log);
  }

  /** An assignment's value is any shaped expression, so assignments nest to the right. */
  lemma {:induction false} AssignmentShaped(ts: TokenList, i: nat, log: seq<Diagnostic>)
    requires i < |ts|
    ensures var p := AssignmentAt(ts, i, log); p.result.Ok? ==> Shaped(p.result.value)
    decreases |ts| - i, 29
  {
    var target := TernaryAt(ts, i, log);
    TernaryAtShaped(ts, i, log);
    if target.result.Ok? && MatchAt(ts, target.next, {EQUAL}) {
      AssignmentShaped(ts, target.next + 1, target.log);
    }
  }

  lemma {:induction false} TernaryAtShaped(ts: TokenList, i: nat, log: seq<Diagnostic>)
    requires i < |ts|
    ensures var p := TernaryAt(ts, i, log); p.result.Ok? ==> Shaped(p.result.value) && Level(p.result.value) >= TernaryLevel
    decreases |ts| - i, 28
  {
    var condition := ChainAt(OrLevel, ts, i, log);
    ChainShaped(OrLevel, ts, i, log);
    if condition.result.Ok? {
      TernaryFromShaped(ts, condition.next, condition.log, condition.result.value);
    }
  }

  lemma {:induction false} TernaryFromShaped(ts: TokenList, i: nat, log: seq<Diagnostic>, e: Expr)
    requires i < |ts| && Shaped(e) && Level(e) >= TernaryLevel
    ensures var p := TernaryFrom(ts, i, log, e); p.result.Ok? ==> Shaped(p.result.value) && Level(p.result.value) >= TernaryLevel
    decreases |ts| - i, 28
  {
    if !MatchAt(ts, i, {QUESTION_MARK}) { return; }
    var whenTrue := TernaryAt(ts, i + 1, log);
    TernaryAtShaped(ts, i + 1, log);
    if whenTrue.result.Failed? { return; }
    var colon := ConsumeAt(ts, whenTrue.next, whenTrue.log, COLON, ExpectColonInTernary);
    if colon.result.Failed? { return; }
    var whenFalse := TernaryAt(ts, colon.next, colon.log);
    TernaryAtShaped(ts, colon.next, colon.log);
    if whenFalse.result.Failed? { return; }
    var t := Expr.Ternary(e, ts[i], whenTrue.result.value, PreviousAt(ts, colon.next), whenFalse.result.value);
    TernaryShaped(e, ts[i], whenTrue.result.value, PreviousAt(ts, colon.next), whenFalse.result.value);
    TernaryFromShaped(ts, whenFalse.next, whenFalse.log, t);
  }

  /** One rung's operand chain is shaped, at the rung's level or tighter. */
  lemma {:induction false} ChainShaped(level: nat, ts: TokenList, i: nat, log: seq<Diagnostic>)
    requires OrLevel <= level <= FactorLevel && i < |ts|
    ensures var p := ChainAt(level, ts, i, log); p.result.Ok? ==> Shaped(p.result.value) && Level(p.result.value) >= level
    decreases |ts| - i, 29 - level
  {
    var first := if level == FactorLevel then UnaryAt(ts, i, log) else ChainAt(level + 1, ts, i, log);
    if level == FactorLevel {
      UnaryShaped(ts, i, log);
    } else {
      ChainShaped(level + 1, ts, i, log);
    }
    if first.result.Ok? {
      ChainFromShaped(level, ts, first.next, first.log, first.result.value);
    }
  }

  /** Each operator of the rung takes the tree so far as its left operand and a tighter one as its right. */
  lemma {:induction false} ChainFromShaped(level: nat, ts: TokenList, i: nat, log: seq<Diagnostic>, e: Expr)
    requires OrLevel <= level <= FactorLevel && i < |ts| && Shaped(e) && Level(e) >= level
    ensures var p := ChainFrom(level, ts, i, log, e); p.result.Ok? ==> Shaped(p.result.value) && Level(p.result.value) >= level
    decreases |ts| - i, 29 - level
  {
    if !MatchAt(ts, i, OperatorsAt(level)) { return; }
    var right := if level == FactorLevel then UnaryAt(ts, i + 1, log) else ChainAt(level + 1, ts, i + 1, log);
    if level == FactorLevel {
      UnaryShaped(ts, i + 1, log);
    } else {
      ChainShaped(level + 1, ts, i + 1, log);
    }
    if right.result.Failed? { return; }
    NodeShaped(level, e, ts[i], right.result.value);
    ChainFromShaped(level, ts, right.next, right.log, Node(level, e, ts[i], right.result.value));
  }

  /** The node a rung builds over shaped operands that bind tightly enough is shaped, at the rung's level. */
  lemma NodeShaped(level: nat, left: Expr, operator: Token, right: Expr)
    requires OrLevel <= level <= FactorLevel && operator.kind in OperatorsAt(level)
    requires Shaped(left) && Level(left) >= level && Shaped(right) && Level(right) > level
    ensures Shaped(Node(level, left, operator, right)) && Level(Node(level, left, operator, right)) == level
  {
    if level <= AndLevel {
      LogicalShaped(left, operator, right);
    } else {
      BinaryShaped(left, operator, right);
    }
  }

  lemma {:induction false} UnaryShaped(ts: TokenList, i: nat, log: seq<Diagnostic>)
    requires i < |ts|
    ensures var p := UnaryAt(ts, i, log); p.result.Ok? ==> Shaped(p.result.value) && Level(p.result.value) >= UnaryLevel
    decreases |ts| - i, 19
  {
    if MatchAt(ts, i, UnaryOperators) {
      UnaryShaped(ts, i + 1, log);
    } else {
      IncrementShaped(ts, i, log);
    }
  }

  lemma {:induction false} IncrementShaped(ts: TokenList, i: nat, log: seq<Diagnostic>)
    requires i < |ts|
    ensures var p := IncrementAt(ts, i, log); p.result.Ok? ==> Shaped(p.result.value) && Level(p.result.value) >= PrefixLevel
    decreases |ts| - i, 18
  {
    if MatchAt(ts, i, StepOperators) {
      IncrementShaped(ts, i + 1, log);
    } else {
      CallShaped(ts, i, log);
    }
  }

  lemma {:induction false} CallShaped(ts: TokenList, i: nat, log: seq<Diagnostic>)
    requires i < |ts|
    ensures var p := CallAt(ts, i, log); p.result.Ok? ==> Shaped(p.result.value) && Level(p.result.value) >= CallLevel
    decreases |ts| - i, 17
  {
    var e := AnonymAt(ts, i, log);
    AnonymShaped(ts, i, log);
    if e.result.Ok? {
      CallFromShaped(ts, e.next, e.log, e.result.value);
    }
  }

  lemma {:induction false} CallFromShaped(ts: TokenList, i: nat, log: seq<Diagnostic>, e: Expr)
    requires i < |ts| && Shaped(e) && Level(e) >= CallLevel
    ensures var p := CallFrom(ts, i, log, e); p.result.Ok? ==> Shaped(p.result.value) && Level(p.result.value) >= CallLevel
    decreases |ts| - i, 17
  {
    if MatchAt(ts, i, {LEFT_PAREN}) {
      var call := FinishCallAt(ts, i + 1, log, e);
      FinishCallShaped(ts, i + 1, log, e);
      if call.result.Ok? {
        CallFromShaped(ts, call.next, call.log, call.result.value);
      }
    } else if MatchAt(ts, i, {DOT}) {
      var name := ConsumeAt(ts, i + 1, log, IDENTIFIER, ExpectPropertyName);
      if name.result.Ok? {
        CallFromShaped(ts, name.next, name.log, Get(e, name.result.value));
      }
    }
  }

  lemma {:induction false} FinishCallShaped(ts: TokenList, i: nat, log: seq<Diagnostic>, callee: Expr)
    requires i < |ts| && Shaped(callee) && Level(callee) >= CallLevel
    ensures var p := FinishCallAt(ts, i, log, callee); p.result.Ok? ==> Shaped(p.result.value) && Level(p.result.value) == CallLevel
    decreases |ts| - i, 33
  {
    ArgumentsShaped(ts, i, log);
  }

  lemma {:induction false} ArgumentsShaped(ts: TokenList, i: nat, log: seq<Diagnostic>)
    requires i < |ts|
    ensures var p := ArgumentsAt(ts, i, log); p.result.Ok? ==> AllShaped(p.result.value)
    decreases |ts| - i, 32
  {
    if !CheckAt(ts, i, RIGHT_PAREN) {
      ArgumentsFromShaped(ts, i, log, []);
    }
  }

  lemma {:induction false} ArgumentsFromShaped(ts: TokenList, i: nat, log: seq<Diagnostic>, arguments: seq<Expr>)
    requires i < |ts| && AllShaped(arguments)
    ensures var p := ArgumentsFrom(ts, i, log, arguments); p.result.Ok? ==> AllShaped(p.result.value)
    decreases |ts| - i, 31
  {
    var reported := if |arguments| >= 255 then log + [AtToken(ERROR, ts[i], TooManyArguments)] else log;
    var a := ExpressionAt(ts, i, reported);
    ExpressionShaped(ts, i, reported);
    if a.result.Failed? { return; }
    var collected := arguments + [a.result.value];
    assert collected[..|collected| - 1] == arguments;
    if MatchAt(ts, a.next, {COMMA}) {
      ArgumentsFromShaped(ts, a.next + 1, a.log, collected);
    }
  }

  lemma {:induction false} AnonymShaped(ts: TokenList, i: nat, log: seq<Diagnostic>)
    requires i < |ts|
    ensures var p := AnonymAt(ts, i, log); p.result.Ok? ==> Shaped(p.result.value) && Level(p.result.value) == PrimaryLevel
    decreases |ts| - i, 16
  {
    if !MatchAt(ts, i, {FN}) {
      PrimaryShaped(ts, i, log);
    }
  }

  /** Primaries bind tightest; a parenthesised expression may be any shaped one. */
  lemma {:induction false} PrimaryShaped(ts: TokenList, i: nat, log: seq<Diagnostic>)
    requires i < |ts|
    ensures var p := PrimaryAt(ts, i, log); p.result.Ok? ==> Shaped(p.result.value) && Level(p.result.value) == PrimaryLevel
    decreases |ts| - i, 15
  {
    if !MatchAt(ts, i, {FALSE}) && !MatchAt(ts, i, {TRUE}) && !MatchAt(ts, i, {NONE}) &&
       !MatchAt(ts, i, {NUMBER, STRING}) && !MatchAt(ts, i, {SUPER}) && !MatchAt(ts, i, {SELF}) &&
       !MatchAt(ts, i, {IDENTIFIER}) && MatchAt(ts, i, {LEFT_PAREN}) {
      ExpressionShaped(ts, i + 1, log);
    }
  }
}
