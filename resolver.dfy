/**
 * The static resolver: one pass over the syntax tree with a stack of scopes.
 * Each scope maps a name to whether its declaration is complete. The pass
 * records, for every variable, `self` and `super` use that a local scope
 * binds, how many scopes out the binding is; it reports scoping misuse; and
 * at the end it warns about `let` names that are never used.
 */
module Resolve {
  import opened Tokens
  import opened Errors
  import opened Syntax

  datatype FunctionType = NO_FUNCTION | FUNCTION | ANON | METHOD | INITIALIZER
  datatype ClassType = NO_CLASS | CLASS | SUBCLASS

  /**
   * The identity of a token inside the `resolved` and `unresolved` sets:
   * tokens hash by their kind and text and compare by kind, so two tokens
   * are the same element exactly when kind and text agree.
   */
  type Key = (TokenType, string)

  function KeyOf(t: Token): Key {
    (t.kind, t.symbol)
  }

  // Messages.
  const ReturnAtTopLevel := "Can't return from top-level code."
  const ReturnFromInitializer := "Can't return a value from an initializer."
  const SelfOutsideClass := "Can't use 'self' outside of a class."
  const SuperOutsideClass := "Can't use 'super' outside of a class."
  const SuperWithoutSuperclass := "Can't use 'super' in a class with no superclass"
  const InheritsItself := "A class can't inherit from itself."
  const ReadInInitializer := "Can't read local variable in its own initilizer."
  const AlreadyDeclared := "Already a variable with this name is this scope"

  function NeverUsed(name: string): string {
    "Variable '" + name + "' was never used."
  }

  /** The warning for a `let` name that is never used. */
  function UnusedWarning(name: Token): Diagnostic {
    AtToken(WARNING, name, NeverUsed(name.symbol))
  }

  /** `after` is `before` with reports appended. */
  predicate Extends(before: seq<Diagnostic>, after: seq<Diagnostic>) {
    before <= after
  }

  /**
   * How many scopes out from the innermost one the nearest scope holding
   * `name` is, or None when no scope holds it.
   */
  function Depth(scopes: seq<map<string, bool>>, name: string): (d: Option<nat>)
    ensures d.Some? ==> d.value < |scopes| && name in scopes[|scopes| - 1 - d.value]
    decreases |scopes|
  {
    if |scopes| == 0 then None
    else if name in scopes[|scopes| - 1] then Some(0)
    else
      var outer := Depth(scopes[..|scopes| - 1], name);
      if outer.Some? then Some(outer.value + 1) else None
  }

  /** The depth found is that of the innermost scope holding the name, and None means no scope holds it. */
  lemma {:induction false} DepthInnermost(scopes: seq<map<string, bool>>, name: string)
    ensures Depth(scopes, name).None? <==> forall i | 0 <= i < |scopes| :: name !in scopes[i]
    ensures Depth(scopes, name).Some? ==>
              forall i | |scopes| - 1 - Depth(scopes, name).value < i < |scopes| :: name !in scopes[i]
    decreases |scopes|
  {
    if |scopes| > 0 && name !in scopes[|scopes| - 1] {
      var inner := scopes[..|scopes| - 1];
      DepthInnermost(inner, name);
      assert forall i | 0 <= i < |inner| :: inner[i] == scopes[i];
    }
  }

  /** Depths look only at which names the scopes hold, never at whether they are defined yet. */
  lemma {:induction false} DepthKeys(a: seq<map<string, bool>>, b: seq<map<string, bool>>, name: string)
    requires |a| == |b| && forall i | 0 <= i < |a| :: a[i].Keys == b[i].Keys
    ensures Depth(a, name) == Depth(b, name)
    decreases |a|
  {
    if |a| > 0 && name !in a[|a| - 1] {
      DepthKeys(a[..|a| - 1], b[..|b| - 1], name);
    }
  }

  // ------------------------------------------------------ uses in a tree

  /**
   * The keys of the uses inside an expression that the pass records as
   * used: every variable read, assignment target, `self` and `super`,
   * those inside anonymous function bodies included.
   */
  function Uses(e: Expr): set<Key>
    decreases e, 1
  {
    match e
    case Super(keyword, _) => {KeyOf(keyword)}
    case Set(obj, _, value) => Uses(value) + Uses(obj)
    case Get(obj, _) => Uses(obj)
    case Call(callee, _, arguments) => Uses(callee) + ArgumentsUses(arguments)
    case Assign(name, value) => Uses(value) + {KeyOf(name)}
    case Ternary(c, _, t, _, f) => Uses(c) + Uses(t) + Uses(f)
    case Logical(l, _, r) => Uses(l) + Uses(r)
    case Binary(l, _, r) => Uses(l) + Uses(r)
    case Unary(_, r) => Uses(r)
    case Prefix(_, r) => Uses(r)
    case Postfix(l, _) => Uses(l)
    case Grouping(inner) => Uses(inner)
    case Variable(name) => {KeyOf(name)}
    case Self(keyword) => {KeyOf(keyword)}
    case Anonym(_, body) => StmtsUses(body)
    case Literal(_) => {}
  }

  /** The uses inside a list of call arguments. */
  function ArgumentsUses(arguments: seq<Expr>): set<Key>
    decreases arguments, 0
  {
    if |arguments| == 0 then {}
    else ArgumentsUses(arguments[..|arguments| - 1]) + Uses(arguments[|arguments| - 1])
  }

  /** The uses inside a statement; a class's superclass is a variable read. */
  function StmtUses(s: Stmt): set<Key>
    decreases s, 1
  {
    match s
    case Block(statements) => StmtsUses(statements)
    case Expression(e) => Uses(e)
    case Function(decl) => StmtsUses(decl.body)
    case Class(_, methods, superclass) =>
      (if superclass.Some? then {KeyOf(superclass.value)} else {}) + MethodsUses(methods)
    case If(c, t, f) => Uses(c) + StmtUses(t) + (if f.Some? then StmtUses(f.value) else {})
    case Echo(e) => Uses(e)
    case Return(_, value) => if value.Some? then Uses(value.value) else {}
    case Var(_, initializer) => if initializer.Some? then Uses(initializer.value) else {}
    case While(c, body) => Uses(c) + StmtUses(body)
    case Missing => {}
  }

  /** The uses inside a list of statements. */
  function StmtsUses(statements: seq<Stmt>): set<Key>
    decreases statements, 2
  {
    if |statements| == 0 then {}
    else StmtsUses(statements[..|statements| - 1]) + StmtUses(statements[|statements| - 1])
  }

  /** The uses inside the bodies of a class's methods. */
  function MethodsUses(methods: seq<FunctionDecl>): set<Key>
    decreases methods, 0
  {
    if |methods| == 0 then {}
    else MethodsUses(methods[..|methods| - 1]) + StmtsUses(methods[|methods| - 1].body)
  }

  // ------------------------------------------------ nodes given a depth

  /** The name a variable, assignment, `self` or `super` node looks up. */
  function NameOf(n: Expr): string {
    match n
    case Variable(name) => name.symbol
    case Assign(name, _) => name.symbol
    case Self(keyword) => keyword.symbol
    case Super(keyword, _) => keyword.symbol
    case _ => ""
  }

  /**
   * The variable, assignment, `self` and `super` nodes of an expression
   * outside its anonymous function bodies: these resolve against the scopes
   * the expression itself is resolved in.
   */
  function Direct(e: Expr): set<Expr>
    decreases e, 1
  {
    match e
    case Super(_, _) => {e}
    case Set(obj, _, value) => Direct(value) + Direct(obj)
    case Get(obj, _) => Direct(obj)
    case Call(callee, _, arguments) => Direct(callee) + ArgumentsDirect(arguments)
    case Assign(_, value) => Direct(value) + {e}
    case Ternary(c, _, t, _, f) => Direct(c) + Direct(t) + Direct(f)
    case Logical(l, _, r) => Direct(l) + Direct(r)
    case Binary(l, _, r) => Direct(l) + Direct(r)
    case Unary(_, r) => Direct(r)
    case Prefix(_, r) => Direct(r)
    case Postfix(l, _) => Direct(l)
    case Grouping(inner) => Direct(inner)
    case Variable(_) => {e}
    case Self(_) => {e}
    case Anonym(_, _) => {}
    case Literal(_) => {}
  }

  function ArgumentsDirect(arguments: seq<Expr>): set<Expr>
    decreases arguments, 0
  {
    if |arguments| == 0 then {}
    else ArgumentsDirect(arguments[..|arguments| - 1]) + Direct(arguments[|arguments| - 1])
  }

  /** The same kinds of node inside the anonymous function bodies of an expression. */
  function Nested(e: Expr): set<Expr>
    decreases e, 1
  {
    match e
    case Set(obj, _, value) => Nested(value) + Nested(obj)
    case Get(obj, _) => Nested(obj)
    case Call(callee, _, arguments) => Nested(callee) + ArgumentsNested(arguments)
    case Assign(_, value) => Nested(value)
    case Ternary(c, _, t, _, f) => Nested(c) + Nested(t) + Nested(f)
    case Logical(l, _, r) => Nested(l) + Nested(r)
    case Binary(l, _, r) => Nested(l) + Nested(r)
    case Unary(_, r) => Nested(r)
    case Prefix(_, r) => Nested(r)
    case Postfix(l, _) => Nested(l)
    case Grouping(inner) => Nested(inner)
    case Anonym(_, body) => StmtsNodes(body)
    case _ => {}
  }

  function ArgumentsNested(arguments: seq<Expr>): set<Expr>
    decreases arguments, 0
  {
    if |arguments| == 0 then {}
    else ArgumentsNested(arguments[..|arguments| - 1]) + Nested(arguments[|arguments| - 1])
  }

  /** Every node of an expression the pass may record a depth for. */
  function Nodes(e: Expr): set<Expr>
    decreases e, 2
  {
    Direct(e) + Nested(e)
  }

  /** The nodes of a statement; a class's superclass is resolved as a variable node. */
  function StmtNodes(s: Stmt): set<Expr>
    decreases s, 1
  {
    match s
    case Block(statements) => StmtsNodes(statements)
    case Expression(e) => Nodes(e)
    case Function(decl) => StmtsNodes(decl.body)
    case Class(_, methods, superclass) =>
      (if superclass.Some? then {Variable(superclass.value)} else {}) + MethodsNodes(methods)
    case If(c, t, f) => Nodes(c) + StmtNodes(t) + (if f.Some? then StmtNodes(f.value) else {})
    case Echo(e) => Nodes(e)
    case Return(_, value) => if value.Some? then Nodes(value.value) else {}
    case Var(_, initializer) => if initializer.Some? then Nodes(initializer.value) else {}
    case While(c, body) => Nodes(c) + StmtNodes(body)
    case Missing => {}
  }

  function StmtsNodes(statements: seq<Stmt>): set<Expr>
    decreases statements, 2
  {
    if |statements| == 0 then {}
    else StmtsNodes(statements[..|statements| - 1]) + StmtNodes(statements[|statements| - 1])
  }

  function MethodsNodes(methods: seq<FunctionDecl>): set<Expr>
    decreases methods, 0
  {
    if |methods| == 0 then {}
    else MethodsNodes(methods[..|methods| - 1]) + StmtsNodes(methods[|methods| - 1].body)
  }

  /**
   * Resolving a tree whose nodes are `nodes` took the depth table from
   * `before` to `after` by recording depths for some of those nodes only:
   * every other entry is as it was.
   */
  predicate RecordsOnlyIn(before: map<Expr, nat>, after: map<Expr, nat>, nodes: set<Expr>) {
    after.Keys <= before.Keys + nodes &&
    forall n | n in before && n !in nodes :: n in after && after[n] == before[n]
  }

  /**
   * The entry of a node resolved in `scopes`: the depth of the innermost
   * scope holding its name, or, when none does, what was there before.
   */
  predicate SettledIn(scopes: seq<map<string, bool>>, before: map<Expr, nat>, after: map<Expr, nat>, n: Expr) {
    match Depth(scopes, NameOf(n))
    case Some(d) => n in after && after[n] == d
    case None => (n in after <==> n in before) && (n in before ==> after[n] == before[n])
  }

  /** Every node of `direct` that is not also in `nested` is settled. */
  predicate AllSettled(scopes: seq<map<string, bool>>, before: map<Expr, nat>, after: map<Expr, nat>,
                       direct: set<Expr>, nested: set<Expr>) {
    forall n | n in direct && n !in nested :: SettledIn(scopes, before, after, n)
  }

  /**
   * Resolving one tree and then another in the same scopes: the entries
   * recorded are those of either, and a node of either one's direct part
   * that neither nests is settled, the second tree's entry winning.
   */
  lemma {:induction false} RecordsCompose(scopes: seq<map<string, bool>>, a: map<Expr, nat>, b: map<Expr, nat>, c: map<Expr, nat>,
                                          direct1: set<Expr>, nested1: set<Expr>, direct2: set<Expr>, nested2: set<Expr>)
    requires RecordsOnlyIn(a, b, direct1 + nested1) && AllSettled(scopes, a, b, direct1, nested1)
    requires RecordsOnlyIn(b, c, direct2 + nested2) && AllSettled(scopes, b, c, direct2, nested2)
    ensures RecordsOnlyIn(a, c, direct1 + nested1 + direct2 + nested2)
    ensures AllSettled(scopes, a, c, direct1 + direct2, nested1 + nested2)
  {
    forall n | n in direct1 + direct2 && n !in nested1 + nested2
      ensures SettledIn(scopes, a, c, n)
    {
      if n !in direct2 {
        assert n !in direct2 + nested2;
      }
    }
  }

  class Resolver {
    var scopes: seq<map<string, bool>>
    var currentFunction: FunctionType
    var currentClass: ClassType
    /** Names used by a variable read, an assignment, `self` or `super`. */
    var resolved: set<Key>
    /** Names declared by `let`, with the first token that declared each. */
    var unresolved: map<Key, Token>
    /** The interpreter's table of resolved depths, which this pass fills. */
    var locals: map<Expr, nat>
    const errors: ErrorLog

    constructor (errors: ErrorLog)
      ensures scopes == [] && currentFunction == NO_FUNCTION && currentClass == NO_CLASS
      ensures resolved == {} && unresolved == map[] && locals == map[] && this.errors == errors
    {
      scopes := [];
      currentFunction := NO_FUNCTION;
      currentClass := NO_CLASS;
      resolved := {};
      unresolved := map[];
      locals := map[];
      this.errors := errors;
    }

    /**
     * What resolving an expression keeps: the scope stack, the function and
     * class context, and every report already made.
     */
    twostate predicate Kept()
      reads this, errors
    {
      scopes == old(scopes) && currentFunction == old(currentFunction) &&
      currentClass == old(currentClass) && Grown()
    }

    /**
     * What resolving a statement keeps: as for an expression, except that a
     * declaration may add names to the innermost scope.
     */
    twostate predicate StmtKept()
      reads this, errors
    {
      |scopes| == |old(scopes)| &&
      (|scopes| > 0 ==> scopes[..|scopes| - 1] == old(scopes)[..|scopes| - 1] &&
                         old(scopes)[|scopes| - 1].Keys <= scopes[|scopes| - 1].Keys) &&
      currentFunction == old(currentFunction) && currentClass == old(currentClass) && Grown()
    }

    /**
     * What only grows during the pass: the reports, the error flag, the
     * used names, the nodes with a recorded depth, and the declared names
     * with their first declaring token.
     */
    twostate predicate Grown()
      reads this, errors
    {
      Extends(old(errors.log), errors.log) && (old(errors.hadError) ==> errors.hadError) &&
      old(resolved) <= resolved && old(locals).Keys <= locals.Keys &&
      forall k | k in old(unresolved) :: k in unresolved && unresolved[k] == old(unresolved)[k]
    }

    /** `RecordsOnlyIn` from the state before the call to now. */
    twostate predicate RecordsOnly(nodes: set<Expr>)
      reads this
    {
      RecordsOnlyIn(old(locals), locals, nodes)
    }

    /** `SettledIn` for one node, resolved in the current scopes, from the state before the call to now. */
    twostate predicate Settled(n: Expr)
      reads this
    {
      SettledIn(scopes, old(locals), locals, n)
    }

    method BeginScope()
      modifies this`scopes
      ensures scopes == old(scopes) + [map[]]
    {
      scopes := scopes + [map[]];
    }

    method EndScope()
      requires |scopes| > 0
      modifies this`scopes
      ensures scopes == old(scopes)[..|old(scopes)| - 1]
    {
      scopes := scopes[..|scopes| - 1];
    }

    /**
     * Enters `name` as declared but not yet defined in the innermost scope,
     * reporting an error when that scope already holds it; no-op at top level.
     */
    method Declare(name: Token)
      modifies this`scopes, errors
      ensures |old(scopes)| == 0 ==> scopes == old(scopes) && errors.log == old(errors.log)
      ensures |old(scopes)| > 0 ==>
                var last := old(scopes)[|old(scopes)| - 1];
                scopes == old(scopes)[..|old(scopes)| - 1] + [last[name.symbol := false]] &&
                errors.log == old(errors.log) + (if name.symbol in last then [AtToken(ERROR, name, AlreadyDeclared)] else [])
      ensures errors.hadError == (old(errors.hadError) || (|old(scopes)| > 0 && name.symbol in old(scopes)[|old(scopes)| - 1]))
    {
      if |scopes| == 0 {
        return;
      }
      var scope := scopes[|scopes| - 1];
      if name.symbol in scope {
        errors.ParseError(name, AlreadyDeclared);
      }
      scopes := scopes[..|scopes| - 1] + [scope[name.symbol := false]];
    }

    /** Marks `name` as defined in the innermost scope; no-op at top level. */
    method Define(name: Token)
      modifies this`scopes
      ensures |old(scopes)| == 0 ==> scopes == old(scopes)
      ensures |old(scopes)| > 0 ==>
                scopes == old(scopes)[..|old(scopes)| - 1] + [old(scopes)[|old(scopes)| - 1][name.symbol := true]]
      ensures |old(scopes)| > 0 && name.symbol in old(scopes)[|old(scopes)| - 1] ==>
                forall x :: Depth(scopes, x) == Depth(old(scopes), x)
    {
      if |scopes| == 0 {
        return;
      }
      scopes := scopes[..|scopes| - 1] + [scopes[|scopes| - 1][name.symbol := true]];
      if name.symbol in old(scopes)[|scopes| - 1] {
        forall x: string ensures Depth(scopes, x) == Depth(old(scopes), x) {
          DepthKeys(scopes, old(scopes), x);
        }
      }
    }

    /**
     * Records `name` as used and, when a scope holds it, the depth of the
     * innermost such scope for `e`.
     */
    method ResolveLocal(e: Expr, name: Token)
      modifies this`resolved, this`locals
      ensures resolved == old(resolved) + {KeyOf(name)}
      ensures Depth(scopes, name.symbol).Some? ==> locals == old(locals)[e := Depth(scopes, name.symbol).value]
      ensures Depth(scopes, name.symbol).None? ==> locals == old(locals)
    {
      resolved := resolved + {KeyOf(name)};
      DepthInnermost(scopes, name.symbol);
      var i := |scopes|;
      while i > 0
        invariant 0 <= i <= |scopes|
        invariant forall j | i <= j < |scopes| :: name.symbol !in scopes[j]
        invariant locals == old(locals)
      {
        if name.symbol in scopes[i - 1] {
          locals := locals[e := |scopes| - i];
          return;
        }
        i := i - 1;
      }
    }

    /**
     * A function body in its own scope, holding the parameters, with
     * `kind` as the enclosing function kind; both are restored afterwards.
     */
    method ResolveFunction(params: seq<Token>, body: seq<Stmt>, kind: FunctionType)
      modifies this, errors
      ensures Kept()
      ensures resolved == old(resolved) + StmtsUses(body)
      ensures RecordsOnly(StmtsNodes(body))
      decreases body, 3
    {
      var enclosing := currentFunction;
      currentFunction := kind;
      BeginScope();
      for k := 0 to |params|
        invariant |scopes| == |old(scopes)| + 1 && scopes[..|old(scopes)|] == old(scopes)
        invariant currentClass == old(currentClass) && currentFunction == kind
        invariant Grown() && resolved == old(resolved) && locals == old(locals)
      {
        Declare(params[k]);
        Define(params[k]);
      }
      Resolve(body);
      EndScope();
      currentFunction := enclosing;
    }

    /** Each statement in turn. */
    method Resolve(statements: seq<Stmt>)
      modifies this, errors
      ensures StmtKept()
      ensures resolved == old(resolved) + StmtsUses(statements)
      ensures RecordsOnly(StmtsNodes(statements))
      decreases statements, 2
    {
      for k := 0 to |statements|
        invariant StmtKept()
        invariant resolved == old(resolved) + StmtsUses(statements[..k])
        invariant RecordsOnly(StmtsNodes(statements[..k]))
      {
        assert statements[..k + 1][..k] == statements[..k];
        ResolveStmt(statements[k]);
      }
      assert statements[..|statements|] == statements;
    }

    method ResolveStmt(s: Stmt)
      modifies this, errors
      ensures StmtKept()
      ensures s.Block? ==> scopes == old(scopes)
      ensures resolved == old(resolved) + StmtUses(s)
      ensures RecordsOnly(StmtNodes(s))
      ensures s.Expression? || s.Echo? ==> AllSettled(scopes, old(locals), locals, Direct(s.expression), Nested(s.expression))
      ensures s.Return? && s.value.Some? ==> AllSettled(scopes, old(locals), locals, Direct(s.value.value), Nested(s.value.value))
      ensures s.Var? && s.initializer.Some? ==>
                AllSettled(scopes, old(locals), locals, Direct(s.initializer.value), Nested(s.initializer.value))
      decreases s, 2
    {
      match s
      case Block(_) => VisitBlock(s);
      case Expression(e) => ResolveExpr(e);
      case Function(_) => VisitFunction(s);
      case Class(_, _, _) => VisitClass(s);
      case If(_, _, _) => VisitIf(s);
      case Echo(e) => ResolveExpr(e);
      case Return(_, _) => VisitReturn(s);
      case Var(_, _) => VisitVar(s);
      case While(_, _) => VisitWhile(s);
      case Missing =>
    }

    /** A block resolves in a scope of its own and leaves the stack as it found it. */
    method VisitBlock(s: Stmt)
      requires s.Block?
      modifies this, errors
      ensures Kept()
      ensures resolved == old(resolved) + StmtUses(s)
      ensures RecordsOnly(StmtNodes(s))
      decreases s, 0
    {
      BeginScope();
      Resolve(s.statements);
      EndScope();
    }

    method VisitFunction(s: Stmt)
      requires s.Function?
      modifies this, errors
      ensures StmtKept()
      ensures |scopes| > 0 ==> scopes[|scopes| - 1] == old(scopes)[|scopes| - 1][s.decl.name.symbol := true]
      ensures resolved == old(resolved) + StmtUses(s)
      ensures RecordsOnly(StmtNodes(s))
      decreases s, 0
    {
      Declare(s.decl.name);
      Define(s.decl.name);
      ResolveFunction(s.decl.params, s.decl.body, FUNCTION);
    }

    /**
     * A class: its name is declared and defined; a superclass named like
     * the class is reported; the superclass is resolved as a variable; the
     * methods resolve in a scope holding `self`, inside one holding `super`
     * when there is a superclass; the class context is restored afterwards.
     */
    method VisitClass(s: Stmt)
      requires s.Class?
      modifies this, errors
      ensures StmtKept()
      ensures resolved == old(resolved) + StmtUses(s)
      ensures RecordsOnly(StmtNodes(s))
      ensures s.superclass.Some? && s.superclass.value.symbol == s.name.symbol ==>
                |errors.log| > |old(errors.log)| &&
                AtToken(WARNING, s.superclass.value, InheritsItself) in errors.log[|old(errors.log)|..]
      decreases s, 0
    {
      var enclosing := currentClass;
      currentClass := ClassType.CLASS;
      DeclareClassName(s.name, s.superclass);
      ghost var reported := errors.log;
      ClassBody(s.superclass, s.methods);
      currentClass := enclosing;
      if s.superclass.Some? && s.name.symbol == s.superclass.value.symbol {
        assert errors.log[|reported| - 1] == AtToken(WARNING, s.superclass.value, InheritsItself);
        assert errors.log[|old(errors.log)|..][|reported| - 1 - |old(errors.log)|] == errors.log[|reported| - 1];
      }
    }

    /** Declares and defines a class's name, warning when the class names itself as its superclass. */
    method DeclareClassName(name: Token, superclass: Option<Token>)
      modifies this, errors
      ensures StmtKept() && resolved == old(resolved) && locals == old(locals)
      ensures superclass.Some? && superclass.value.symbol == name.symbol ==>
                |errors.log| > |old(errors.log)| && errors.log[|errors.log| - 1] == AtToken(WARNING, superclass.value, InheritsItself)
    {
      Declare(name);
      Define(name);
      if superclass.Some? && name.symbol == superclass.value.symbol {
        errors.ResolverError(superclass.value, InheritsItself);
      }
    }

    /**
     * After the class name: the superclass resolves as a variable in the
     * subclass context, then the methods resolve inside a scope that binds
     * `super` when there is a superclass.
     */
    method ClassBody(superclass: Option<Token>, methods: seq<FunctionDecl>)
      modifies this, errors
      ensures scopes == old(scopes) && currentFunction == old(currentFunction) && Grown()
      ensures currentClass == if superclass.Some? then SUBCLASS else old(currentClass)
      ensures resolved == old(resolved) + (if superclass.Some? then {KeyOf(superclass.value)} else {}) + MethodsUses(methods)
      ensures RecordsOnly((if superclass.Some? then {Variable(superclass.value)} else {}) + MethodsNodes(methods))
      decreases methods, 6
    {
      if superclass.Some? {
        currentClass := SUBCLASS;
        VisitVariable(Variable(superclass.value));
        SuperScope(methods);
      } else {
        ResolveMethods(methods);
      }
    }

    /** The methods of a subclass, inside a scope that binds `super`. */
    method SuperScope(methods: seq<FunctionDecl>)
      modifies this, errors
      ensures Kept()
      ensures resolved == old(resolved) + MethodsUses(methods)
      ensures RecordsOnly(MethodsNodes(methods))
      decreases methods, 5
    {
      BeginScope();
      scopes := scopes[..|scopes| - 1] + [scopes[|scopes| - 1]["super" := true]];
      ResolveMethods(methods);
      EndScope();
    }

    /**
     * A class body: the methods resolve in a scope that binds `self`, an
     * `init` method as an initializer and any other as a method.
     */
    method ResolveMethods(methods: seq<FunctionDecl>)
      modifies this, errors
      ensures Kept()
      ensures resolved == old(resolved) + MethodsUses(methods)
      ensures RecordsOnly(MethodsNodes(methods))
      decreases methods, 4
    {
      BeginScope();
      scopes := scopes[..|scopes| - 1] + [scopes[|scopes| - 1]["self" := true]];
      ghost var inner := scopes;
      for k := 0 to |methods|
        invariant scopes == inner && currentFunction == old(currentFunction) && currentClass == old(currentClass)
        invariant Grown() && resolved == old(resolved) + MethodsUses(methods[..k])
        invariant RecordsOnly(MethodsNodes(methods[..k]))
      {
        assert methods[..k + 1][..k] == methods[..k];
        var m := methods[k];
        var declaration := if m.name.symbol == "init" then INITIALIZER else METHOD;
        ResolveFunction(m.params, m.body, declaration);
      }
      assert methods[..|methods|] == methods;
      EndScope();
    }

    method VisitIf(s: Stmt)
      requires s.If?
      modifies this, errors
      ensures StmtKept()
      ensures resolved == old(resolved) + StmtUses(s)
      ensures RecordsOnly(StmtNodes(s))
      decreases s, 0
    {
      ResolveExpr(s.condition);
      ResolveStmt(s.thenBranch);
      if s.elseBranch.Some? {
        ResolveStmt(s.elseBranch.value);
      }
    }

    /**
     * A `return` at top level is a parse error; a `return` with a value in
     * an initializer is a warning.
     */
    method VisitReturn(s: Stmt)
      requires s.Return?
      modifies this, errors
      ensures Kept()
      ensures resolved == old(resolved) + StmtUses(s)
      ensures RecordsOnly(StmtNodes(s))
      ensures s.value.Some? ==> AllSettled(scopes, old(locals), locals, Direct(s.value.value), Nested(s.value.value))
      ensures currentFunction == NO_FUNCTION ==>
                |errors.log| > |old(errors.log)| && errors.log[|old(errors.log)|] == AtToken(ERROR, s.keyword, ReturnAtTopLevel) &&
                errors.hadError
      ensures currentFunction == INITIALIZER && s.value.Some? ==>
                |errors.log| > |old(errors.log)| && errors.log[|old(errors.log)|] == AtToken(WARNING, s.keyword, ReturnFromInitializer)
      decreases s, 0
    {
      if currentFunction == NO_FUNCTION {
        errors.ParseError(s.keyword, ReturnAtTopLevel);
      }
      if s.value.Some? {
        if currentFunction == INITIALIZER {
          errors.ResolverError(s.keyword, ReturnFromInitializer);
        }
        ResolveExpr(s.value.value);
      }
    }

    /**
     * `let`: the name is declared, the initializer resolved, the name
     * defined, and it joins the names that must be used.
     */
    method VisitVar(s: Stmt)
      requires s.Var?
      modifies this, errors
      ensures StmtKept()
      ensures resolved == old(resolved) + StmtUses(s)
      ensures RecordsOnly(StmtNodes(s))
      ensures s.initializer.Some? ==>
                AllSettled(scopes, old(locals), locals, Direct(s.initializer.value), Nested(s.initializer.value))
      ensures |scopes| > 0 ==> scopes[|scopes| - 1] == old(scopes)[|scopes| - 1][s.name.symbol := true]
      ensures KeyOf(s.name) in unresolved
      ensures KeyOf(s.name) in old(unresolved) ==> unresolved[KeyOf(s.name)] == old(unresolved)[KeyOf(s.name)]
      decreases s, 1
    {
      Declare(s.name);
      InitializeThenDefine(s);
      NoteDeclared(s.name);
    }

    /**
     * The rest of a `let` once its name is declared: the initializer, then
     * the name defined. Defining changes no key, so the initializer's
     * depths are those of the scopes it ends in.
     */
    method InitializeThenDefine(s: Stmt)
      requires s.Var? && (|scopes| > 0 ==> s.name.symbol in scopes[|scopes| - 1])
      modifies this, errors
      ensures |old(scopes)| == 0 ==> scopes == old(scopes)
      ensures |old(scopes)| > 0 ==>
                scopes == old(scopes)[..|old(scopes)| - 1] + [old(scopes)[|old(scopes)| - 1][s.name.symbol := true]]
      ensures currentFunction == old(currentFunction) && currentClass == old(currentClass) && Grown()
      ensures resolved == old(resolved) + StmtUses(s)
      ensures RecordsOnly(StmtNodes(s))
      ensures s.initializer.Some? ==>
                AllSettled(scopes, old(locals), locals, Direct(s.initializer.value), Nested(s.initializer.value))
      decreases s, 0
    {
      if s.initializer.Some? {
        ResolveExpr(s.initializer.value);
      }
      Define(s.name);
    }

    /** Keeps the first token that declared `name`'s key. */
    method NoteDeclared(name: Token)
      modifies this`unresolved
      ensures KeyOf(name) in unresolved
      ensures KeyOf(name) in old(unresolved) ==> unresolved == old(unresolved)
      ensures KeyOf(name) !in old(unresolved) ==> unresolved == old(unresolved)[KeyOf(name) := name]
    {
      if KeyOf(name) !in unresolved {
        unresolved := unresolved[KeyOf(name) := name];
      }
    }

    method VisitWhile(s: Stmt)
      requires s.While?
      modifies this, errors
      ensures StmtKept()
      ensures resolved == old(resolved) + StmtUses(s)
      ensures RecordsOnly(StmtNodes(s))
      decreases s, 0
    {
      ResolveExpr(s.condition);
      ResolveStmt(s.body);
    }

    method ResolveExpr(e: Expr)
      modifies this, errors
      ensures Kept()
      ensures resolved == old(resolved) + Uses(e)
      ensures RecordsOnly(Nodes(e))
      ensures AllSettled(scopes, old(locals), locals, Direct(e), Nested(e))
      decreases e, 1
    {
      match e
      case Super(_, _) => VisitSuper(e);
      case Set(obj, _, value) => VisitSet(e);
      case Get(obj, _) => ResolveExpr(obj);
      case Call(callee, _, arguments) => VisitCall(e);
      case Assign(name, value) => VisitAssign(e);
      case Ternary(c, _, t, _, f) => VisitTernary(e);
      case Logical(l, _, r) => VisitOperands(e);
      case Binary(l, _, r) => VisitOperands(e);
      case Unary(_, r) => ResolveExpr(r);
      case Prefix(_, r) => ResolveExpr(r);
      case Postfix(l, _) => ResolveExpr(l);
      case Grouping(inner) => ResolveExpr(inner);
      case Variable(_) => VisitVariable(e);
      case Self(_) => VisitSelf(e);
      case Anonym(params, body) => ResolveFunction(params, body, ANON);
      case Literal(_) =>
    }

    /** A property store: the value first, then the object. */
    method VisitSet(e: Expr)
      requires e.Set?
      modifies this, errors
      ensures Kept()
      ensures resolved == old(resolved) + Uses(e)
      ensures RecordsOnly(Nodes(e))
      ensures AllSettled(scopes, old(locals), locals, Direct(e), Nested(e))
      decreases e, 0
    {
      ResolveExpr(e.value);
      ghost var between := locals;
      ResolveExpr(e.obj);
      RecordsCompose(scopes, old(locals), between, locals, Direct(e.value), Nested(e.value), Direct(e.obj), Nested(e.obj));
    }

    /** A conditional expression: condition, then both branches. */
    method VisitTernary(e: Expr)
      requires e.Ternary?
      modifies this, errors
      ensures Kept()
      ensures resolved == old(resolved) + Uses(e)
      ensures RecordsOnly(Nodes(e))
      ensures AllSettled(scopes, old(locals), locals, Direct(e), Nested(e))
      decreases e, 0
    {
      ResolveExpr(e.condition);
      ghost var between := locals;
      ResolveExpr(e.whenTrue);
      RecordsCompose(scopes, old(locals), between, locals, Direct(e.condition), Nested(e.condition), Direct(e.whenTrue), Nested(e.whenTrue));
      between := locals;
      ResolveExpr(e.whenFalse);
      RecordsCompose(scopes, old(locals), between, locals, Direct(e.condition) + Direct(e.whenTrue), Nested(e.condition) + Nested(e.whenTrue),
                     Direct(e.whenFalse), Nested(e.whenFalse));
    }

    /** A logical or arithmetic operator: left operand, then right. */
    method VisitOperands(e: Expr)
      requires e.Logical? || e.Binary?
      modifies this, errors
      ensures Kept()
      ensures resolved == old(resolved) + Uses(e)
      ensures RecordsOnly(Nodes(e))
      ensures AllSettled(scopes, old(locals), locals, Direct(e), Nested(e))
      decreases e, 0
    {
      ResolveExpr(e.left);
      ghost var between := locals;
      ResolveExpr(e.right);
      RecordsCompose(scopes, old(locals), between, locals, Direct(e.left), Nested(e.left), Direct(e.right), Nested(e.right));
    }

    /** An assignment: the value, then the target recorded at its depth. */
    method VisitAssign(e: Expr)
      requires e.Assign?
      modifies this, errors
      ensures Kept()
      ensures resolved == old(resolved) + Uses(e)
      ensures RecordsOnly(Nodes(e))
      ensures AllSettled(scopes, old(locals), locals, Direct(e), Nested(e))
      decreases e, 0
    {
      ResolveExpr(e.value);
      ghost var between := locals;
      ResolveLocal(e, e.name);
      assert RecordsOnlyIn(between, locals, {e}) && SettledIn(scopes, between, locals, e);
      RecordsCompose(scopes, old(locals), between, locals, Direct(e.value), Nested(e.value), {e}, {});
    }

    method VisitCall(e: Expr)
      requires e.Call?
      modifies this, errors
      ensures Kept()
      ensures resolved == old(resolved) + Uses(e)
      ensures RecordsOnly(Nodes(e))
      ensures AllSettled(scopes, old(locals), locals, Direct(e), Nested(e))
      decreases e, 0
    {
      ResolveExpr(e.callee);
      for k := 0 to |e.arguments|
        invariant Kept()
        invariant resolved == old(resolved) + Uses(e.callee) + ArgumentsUses(e.arguments[..k])
        invariant RecordsOnly(Nodes(e.callee) + ArgumentsDirect(e.arguments[..k]) + ArgumentsNested(e.arguments[..k]))
        invariant AllSettled(scopes, old(locals), locals, Direct(e.callee) + ArgumentsDirect(e.arguments[..k]),
                             Nested(e.callee) + ArgumentsNested(e.arguments[..k]))
      {
        assert e.arguments[..k + 1][..k] == e.arguments[..k];
        ghost var direct := Direct(e.callee) + ArgumentsDirect(e.arguments[..k]);
        ghost var nested := Nested(e.callee) + ArgumentsNested(e.arguments[..k]);
        ghost var before := locals;
        ResolveExpr(e.arguments[k]);
        RecordsCompose(scopes, old(locals), before, locals, direct, nested, Direct(e.arguments[k]), Nested(e.arguments[k]));
        assert ArgumentsDirect(e.arguments[..k + 1]) == ArgumentsDirect(e.arguments[..k]) + Direct(e.arguments[k]);
        assert ArgumentsNested(e.arguments[..k + 1]) == ArgumentsNested(e.arguments[..k]) + Nested(e.arguments[k]);
      }
      assert e.arguments[..|e.arguments|] == e.arguments;
    }

    /** `self` outside a class is reported; either way the keyword resolves like a variable. */
    method VisitSelf(e: Expr)
      requires e.Self?
      modifies this, errors
      ensures Kept()
      ensures currentClass == NO_CLASS <==> errors.log == old(errors.log) + [AtToken(WARNING, e.keyword, SelfOutsideClass)]
      ensures currentClass != NO_CLASS ==> errors.log == old(errors.log)
      ensures resolved == old(resolved) + {KeyOf(e.keyword)}
      ensures Settled(e) && RecordsOnly({e})
      decreases e, 0
    {
      if currentClass == NO_CLASS {
        errors.ResolverError(e.keyword, SelfOutsideClass);
      }
      ResolveLocal(e, e.keyword);
    }

    /** `super` outside a class, or in a class without a superclass, is reported. */
    method VisitSuper(e: Expr)
      requires e.Super?
      modifies this, errors
      ensures Kept()
      ensures currentClass == NO_CLASS ==> errors.log == old(errors.log) + [AtToken(WARNING, e.keyword, SuperOutsideClass)]
      ensures currentClass == ClassType.CLASS ==> errors.log == old(errors.log) + [AtToken(WARNING, e.keyword, SuperWithoutSuperclass)]
      ensures currentClass == SUBCLASS ==> errors.log == old(errors.log)
      ensures resolved == old(resolved) + {KeyOf(e.keyword)}
      ensures Settled(e) && RecordsOnly({e})
      decreases e, 0
    {
      if currentClass == NO_CLASS {
        errors.ResolverError(e.keyword, SuperOutsideClass);
      } else if currentClass != SUBCLASS {
        errors.ResolverError(e.keyword, SuperWithoutSuperclass);
      }
      ResolveLocal(e, e.keyword);
    }

    /**
     * A variable read whose innermost-scope entry is "declared, not yet
     * defined" is a read inside its own initializer and is reported.
     */
    method VisitVariable(e: Expr)
      requires e.Variable?
      modifies this, errors
      ensures Kept()
      ensures var inInitializer := |scopes| > 0 && e.name.symbol in scopes[|scopes| - 1] && !scopes[|scopes| - 1][e.name.symbol];
              errors.log == old(errors.log) + (if inInitializer then [AtToken(ERROR, e.name, ReadInInitializer)] else [])
      ensures resolved == old(resolved) + {KeyOf(e.name)}
      ensures Settled(e) && RecordsOnly({e})
      decreases e, 0
    {
      if |scopes| != 0 && e.name.symbol in scopes[|scopes| - 1] && !scopes[|scopes| - 1][e.name.symbol] {
        errors.ParseError(e.name, ReadInInitializer);
      }
      ResolveLocal(e, e.name);
    }

    /** Reports a name that was declared but never used. */
    method ReportUnused(name: Token)
      modifies errors
      ensures errors.log == old(errors.log) + [UnusedWarning(name)]
    {
      errors.ResolverError(name, NeverUsed(name.symbol));
    }

    /**
     * The whole program, then one warning for each `let` name that no
     * variable read, assignment, `self` or `super` ever used. `order` is
     * the order the warnings come out in, which the source leaves to its
     * set iteration.
     */
    method Analyze(statements: seq<Stmt>) returns (ghost order: seq<Key>)
      modifies this, errors
      ensures old(errors.log) <= errors.log && |old(errors.log)| <= |errors.log| - |order|
      ensures resolved == old(resolved) + StmtsUses(statements)
      ensures RecordsOnly(StmtsNodes(statements))
      ensures forall k :: k in order <==> k in unresolved && k !in old(resolved) && k !in StmtsUses(statements)
      ensures forall i, j | 0 <= i < j < |order| :: order[i] != order[j]
      ensures forall i | 0 <= i < |order| ::
                order[i] in unresolved && errors.log[|errors.log| - |order| + i] == UnusedWarning(unresolved[order[i]])
    {
      Resolve(statements);
      order := ReportUnresolved();
    }

    /** One warning for each declared name never used, in some order. */
    method ReportUnresolved() returns (ghost order: seq<Key>)
      modifies errors
      ensures old(errors.log) <= errors.log && |errors.log| == |old(errors.log)| + |order|
      ensures forall k :: k in order <==> k in unresolved && k !in resolved
      ensures forall i, j | 0 <= i < j < |order| :: order[i] != order[j]
      ensures forall i | 0 <= i < |order| ::
                order[i] in unresolved && errors.log[|old(errors.log)| + i] == UnusedWarning(unresolved[order[i]])
    {
      var remaining := unresolved.Keys - resolved;
      order := [];
      while remaining != {}
        invariant remaining <= unresolved.Keys - resolved
        invariant forall k :: k in order <==> k in unresolved && k !in resolved && k !in remaining
        invariant forall i, j | 0 <= i < j < |order| :: order[i] != order[j]
        invariant old(errors.log) <= errors.log && |errors.log| == |old(errors.log)| + |order|
        invariant forall i | 0 <= i < |order| ::
                    order[i] in unresolved && errors.log[|old(errors.log)| + i] == UnusedWarning(unresolved[order[i]])
        decreases |remaining|
      {
        var k :| k in remaining;
        ReportUnused(unresolved[k]);
        remaining := remaining - {k};
        order := order + [k];
      }
    }
  }
}
