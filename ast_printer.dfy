/**
 * The debugging printer: an expression as a parenthesised prefix string.
 * Only ternary, binary, unary, prefix, postfix, grouping and literal nodes
 * have a printed form; every other node is a stub that prints nothing, and
 * a stub nested inside a printed node shows up as the text "None".
 * The host's printer class leaves the anonymous-function visit undefined,
 * so the host cannot create one; this module gives what its visit methods
 * are written to do, with an anonymous function as one more stub.
 */
module AstPrint {
  import opened Tokens
  import opened Syntax

  /** The literal values that are false in a boolean context: none, false, zero and the empty string. */
  predicate Falsy(v: Lit) {
    v.NoneLit? || v == BoolLit(false) || v == NumLit(0.0) || v == StrLit("")
  }

  /**
   * The text of a literal value. Numbers are printed by `numberText`, which
   * stands for the host language's float formatting.
   */
  function LiteralText(v: Lit, numberText: real -> string): string {
    match v
    case NoneLit => "None"
    case BoolLit(b) => if b then "True" else "False"
    case NumLit(n) => numberText(n)
    case StrLit(s) => s
  }

  /** Each part preceded by one space, in order. */
  function Spaced(parts: seq<string>): (r: string)
    ensures |parts| == 0 <==> r == ""
    ensures |parts| > 0 ==> r[0] == ' '
  {
    if |parts| == 0 then "" else " " + parts[0] + Spaced(parts[1..])
  }

  /** `(name p1 p2 ... )`: the name, each part after a space, then a space and the closing parenthesis. */
  function Parenthesize(name: string, parts: seq<string>): (r: string)
    ensures |r| >= 3 + |name|
    ensures r[0] == '(' && r[1..1 + |name|] == name && r[|r| - 2..] == " )"
  {
    "(" + name + Spaced(parts) + " )"
  }

  /** The nodes the printer has no form for. */
  predicate Stub(e: Expr) {
    e.Super? || e.Set? || e.Get? || e.Call? || e.Assign? || e.Logical? ||
    e.Variable? || e.Self? || e.Anonym?
  }

  /** The labels of the printed nodes that do not print an operator alone, and the text of a falsy literal. */
  const TernaryLabel := "ternary"
  const PrefixLabel := "prefix "
  const PostfixLabel := "postfix "
  const GroupLabel := "group"
  const FalsyText := "none"

  /** The printed form of `e`, or None for a stub. */
  function Print(e: Expr, numberText: real -> string): (r: Option<string>)
    ensures r.None? <==> Stub(e)
    ensures r.Some? && !e.Literal? ==> |r.value| >= 3 && r.value[0] == '(' && r.value[|r.value| - 2..] == " )"
    decreases e, 0
  {
    match e
    case Ternary(c, _, t, _, f) =>
      Some(Parenthesize(TernaryLabel, [Shown(c, numberText), Shown(t, numberText), Shown(f, numberText)]))
    case Binary(l, op, r) => Some(Parenthesize(op.symbol, [Shown(l, numberText), Shown(r, numberText)]))
    case Unary(op, r) => Some(Parenthesize(op.symbol, [Shown(r, numberText)]))
    case Postfix(l, op) => Some(Parenthesize(PostfixLabel + op.symbol, [Shown(l, numberText)]))
    case Prefix(op, r) => Some(Parenthesize(PrefixLabel + op.symbol, [Shown(r, numberText)]))
    case Grouping(inner) => Some(Parenthesize(GroupLabel, [Shown(inner, numberText)]))
    case Literal(v) => Some(if Falsy(v) then FalsyText else LiteralText(v, numberText))
    case _ => None
  }

  /** How a sub-expression appears inside its parent: its printed form, or "None" for a stub. */
  function Shown(e: Expr, numberText: real -> string): (s: string)
    ensures Stub(e) <==> s == "None" && !e.Literal?
    decreases e, 1
  {
    var p := Print(e, numberText);
    if p.Some? then p.value else "None"
  }

  lemma Assoc(a: string, b: string, c: string)
    ensures a + (b + c) == (a + b) + c
  {
  }

  /** One part: `(name p )`. */
  lemma ParenthesizeOne(name: string, p: string)
    ensures Parenthesize(name, [p]) == "(" + name + " " + p + " )"
  {
    assert [p][1..] == [];
    Assoc("(" + name, " ", p);
  }

  /** Two parts: `(name p q )`. */
  lemma ParenthesizeTwo(name: string, p: string, q: string)
    ensures Parenthesize(name, [p, q]) == "(" + name + " " + p + " " + q + " )"
  {
    var x := "(" + name;
    assert [p, q][1..] == [q] && [q][1..] == [];
    assert Spaced([p, q]) == (" " + p) + (" " + q);
    Assoc(x, " " + p, " " + q);
    Assoc(x, " ", p);
    Assoc(x + " " + p, " ", q);
  }

  /** Three parts: `(name p q t )`. */
  lemma ParenthesizeThree(name: string, p: string, q: string, t: string)
    ensures Parenthesize(name, [p, q, t]) == "(" + name + " " + p + " " + q + " " + t + " )"
  {
    var x := "(" + name;
    assert [p, q, t][1..] == [q, t] && [q, t][1..] == [t] && [t][1..] == [];
    assert Spaced([t]) == " " + t;
    assert Spaced([q, t]) == (" " + q) + (" " + t);
    assert Spaced([p, q, t]) == (" " + p) + ((" " + q) + (" " + t));
    Assoc(x, " " + p, (" " + q) + (" " + t));
    Assoc(x + (" " + p), " " + q, " " + t);
    Assoc(x, " ", p);
    Assoc(x + " " + p, " ", q);
    Assoc(x + " " + p + " " + q, " ", t);
  }

  /** A binary node prints its operator, then its left operand, then its right operand. */
  lemma BinaryPrint(l: Expr, op: Token, r: Expr, numberText: real -> string)
    ensures Print(Binary(l, op, r), numberText) ==
            Some("(" + op.symbol + " " + Shown(l, numberText) + " " + Shown(r, numberText) + " )")
  {
    ParenthesizeTwo(op.symbol, Shown(l, numberText), Shown(r, numberText));
  }

  /** A grouping prints as `(group X )`. */
  lemma GroupingPrint(inner: Expr, numberText: real -> string)
    ensures Print(Grouping(inner), numberText) == Some("(group " + Shown(inner, numberText) + " )")
  {
    ParenthesizeOne("group", Shown(inner, numberText));
    assert "(" + "group" + " " == "(group ";
  }

  /** A ternary prints as `(ternary C T F )`. */
  lemma TernaryPrint(c: Expr, ifOperator: Token, t: Expr, orOperator: Token, f: Expr, numberText: real -> string)
    ensures Print(Ternary(c, ifOperator, t, orOperator, f), numberText) ==
            Some("(ternary " + Shown(c, numberText) + " " + Shown(t, numberText) + " " + Shown(f, numberText) + " )")
  {
    ParenthesizeThree("ternary", Shown(c, numberText), Shown(t, numberText), Shown(f, numberText));
    assert "(" + "ternary" + " " == "(ternary ";
  }

  /** A unary node prints its operator symbol, then its operand. */
  lemma UnaryPrint(op: Token, operand: Expr, numberText: real -> string)
    ensures Print(Unary(op, operand), numberText) == Some("(" + op.symbol + " " + Shown(operand, numberText) + " )")
  {
    ParenthesizeOne(op.symbol, Shown(operand, numberText));
  }

  /** A prefix node puts the label "prefix" in front of its operator symbol. */
  lemma PrefixPrint(op: Token, operand: Expr, numberText: real -> string)
    ensures Print(Prefix(op, operand), numberText) == Some("(prefix " + op.symbol + " " + Shown(operand, numberText) + " )")
  {
    ParenthesizeOne("prefix " + op.symbol, Shown(operand, numberText));
    Assoc("(", "prefix ", op.symbol);
    assert "(" + "prefix " == "(prefix ";
  }

  /** A postfix node puts the label "postfix" in front of its operator symbol. */
  lemma PostfixPrint(op: Token, operand: Expr, numberText: real -> string)
    ensures Print(Postfix(operand, op), numberText) == Some("(postfix " + op.symbol + " " + Shown(operand, numberText) + " )")
  {
    ParenthesizeOne("postfix " + op.symbol, Shown(operand, numberText));
    Assoc("(", "postfix ", op.symbol);
    assert "(" + "postfix " == "(postfix ";
  }

  /**
   * A falsy literal (none, false, zero, the empty string) prints "none";
   * any other prints its value's text.
   */
  lemma LiteralPrint(v: Lit, numberText: real -> string)
    ensures Falsy(v) ==> Print(Literal(v), numberText) == Some("none")
    ensures !Falsy(v) ==> Print(Literal(v), numberText) == Some(LiteralText(v, numberText))
    ensures v == BoolLit(true) ==> Print(Literal(v), numberText) == Some("True")
  {
  }

  /** A stub nested in a printed node is shown as the text "None". */
  lemma NestedStub(e: Expr, numberText: real -> string)
    requires Stub(e)
    ensures Print(e, numberText).None?
    ensures Print(Grouping(e), numberText) == Some("(group None )")
  {
    GroupingPrint(e, numberText);
    assert "(group " + "None" + " )" == "(group None )";
  }
}
