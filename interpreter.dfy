/**
 * The tree-walking evaluator. It keeps the global environment, the
 * current environment, the depths the resolver recorded for variable
 * references, and the lines `echo` and `print` have written.
 *
 * The ghost record `known` holds every runtime object created so far;
 * `Valid()` says it is closed under the links between objects, so that
 * every value the evaluator can reach is in it and every environment
 * chain is finite. Evaluation is given a budget
 * (`fuel`) that each nested evaluation and each loop iteration consumes;
 * when it runs out the result is `Exhausted`.
 */
module Interp {
  import opened Tokens
  import opened Errors
  import opened Syntax
  import opened Environment
  import opened Objects
  import opened Semantics

  // Reasons for host-language failures, which the top level does not catch.
  const TimeName := "time"
  const PrintName := "print"
  const MissingDepth := "KeyError"
  const NoEnvironment := "AttributeError: no environment at that depth"
  const NotAClass := "AttributeError: not a class"
  const SuperclassNotClass := "superclass must be a class."
  const NoFields := "Only instances have fields."
  const NoProperties := "Only instances have properties."
  const NoStatement := "AttributeError: missing statement"
  const ReturnOutsideFunction := "uncaught return"

  /**
   * The runtime objects created so far: environments, classes and
   * instances. `Closed` says the links between them stay inside the sets,
   * so every environment chain and superclass chain reached is finite.
   */
  datatype Known = Known(envs: set<Env<Value>>, classes: set<PloxClass>, instances: set<PloxInstance>)
  {
    /** The objects a value refers to are known. */
    ghost predicate Refers(v: Value) {
      match v
      case FunctionV(f) => f.closure in envs
      case AnonV(f) => f.closure in envs
      case ClassV(c) => c in classes
      case InstanceV(i) => i in instances
      case _ => true
    }

    ghost predicate Produced(r: Outcome<Value>) {
      r.Ok? ==> Refers(r.value)
    }

    ghost predicate Completed(r: Outcome<Completion>) {
      r.Ok? && r.value.Returned? ==> Refers(r.value.value)
    }

    /** Every value of a map refers to known objects. */
    ghost predicate AllRefer(m: map<string, Value>) {
      forall k | k in m :: Refers(m[k])
    }

    ghost predicate Within(later: Known) {
      envs <= later.envs && classes <= later.classes && instances <= later.instances
    }

    /**
     * Every known environment has a finite chain of known environments;
     * every known class has a finite superclass chain of known classes and
     * known method closures.
     */
    ghost predicate Closed() {
      (forall e | e in envs :: e.Chained() && (e.enclosing != null ==> e.enclosing in envs)) &&
      (forall c | c in classes ::
         c.Linked() && (c.superclass != null ==> c.superclass in classes) &&
         forall k | k in c.methods :: c.methods[k].closure in envs)
    }

    /** Every value stored in a known environment refers to known objects. */
    ghost predicate ValuesHeld()
      reads envs
    {
      forall e | e in envs :: AllRefer(e.values)
    }

    /** Every known instance has a known class, and its fields refer to known objects. */
    ghost predicate FieldsHeld()
      reads instances
    {
      forall i | i in instances :: i.klass in classes && AllRefer(i.fields)
    }

    /** Growing the known objects keeps every value referring to known objects. */
    lemma Monotone(later: Known)
      requires Within(later)
      ensures forall v | Refers(v) :: later.Refers(v)
      ensures forall m | AllRefer(m) :: later.AllRefer(m)
    {
    }

    lemma AllReferUpdate(m: map<string, Value>, k: string, v: Value)
      requires AllRefer(m) && Refers(v)
      ensures AllRefer(m[k := v])
    {
    }

    /** Storing a known value into one scope of a chain keeps every scope referring to known objects. */
    lemma ScopesUpdateRefer(s: seq<map<string, Value>>, d: nat, name: string, v: Value, t: seq<map<string, Value>>)
      requires Refers(v) && d < |s| && forall j | 0 <= j < |s| :: AllRefer(s[j])
      requires t == s[d := s[d][name := v]]
      ensures forall j | 0 <= j < |t| :: AllRefer(t[j])
    {
      AllReferUpdate(s[d], name, v);
    }

    /** The same for a rebinding by name. */
    lemma RebindRefer(s: seq<map<string, Value>>, name: string, v: Value)
      requires Refers(v) && forall j | 0 <= j < |s| :: AllRefer(s[j])
      ensures forall j | 0 <= j < |Rebind(s, name, v)| :: AllRefer(Rebind(s, name, v)[j])
    {
      var n := Nearest(s, name);
      if n.Some? {
        ScopesUpdateRefer(s, n.value, name, v, s[n.value := s[n.value][name := v]]);
      }
    }

    /** Every known environment holds known values when those of one chain and those outside it do. */
    lemma ChainHeld(e: Env<Value>)
      requires Closed() && e in envs
      requires forall j | 0 <= j < |e.Scopes()| :: AllRefer(e.Scopes()[j])
      requires forall x | x in envs && x !in e.Chain() :: AllRefer(x.values)
      ensures ValuesHeld()
    {
      forall x | x in envs
        ensures AllRefer(x.values)
      {
        if x in e.Chain() {
          var j :| 0 <= j < |e.Ancestry()| && e.Ancestry()[j] == x;
          assert x.values == e.Scopes()[j];
        }
      }
    }

    /** The whole chain of a known environment is known. */
    lemma {:induction false} ChainKnown(e: Env<Value>)
      requires Closed() && e in envs
      ensures e.Chain() <= envs
      decreases e.depth
    {
      if e.enclosing != null {
        ChainKnown(e.enclosing);
        assert e.Ancestry() == [e] + e.enclosing.Ancestry();
      }
    }

    /** A value found anywhere along a known chain refers to known objects. */
    lemma ScopeValueHeld(e: Env<Value>, d: nat, name: string)
      requires Closed() && ValuesHeld() && e in envs && e.Chained() && d < |e.Ancestry()| && name in e.Ancestry()[d].values
      ensures Refers(e.Ancestry()[d].values[name])
    {
      ChainKnown(e);
      assert e.Ancestry()[d] in e.Chain();
    }

    /** The method lookup of a known class finds a method with a known closure. */
    lemma {:induction false} MethodKnown(c: PloxClass, name: string)
      requires Closed() && c in classes && c.FindMethod(name).Some?
      ensures c.FindMethod(name).value.closure in envs && c.FindMethod(name).value.closure.Chained()
      decreases c.height
    {
      c.FoundMethodReady(name);
      if name !in c.methods {
        MethodKnown(c.superclass, name);
      }
    }
  }

  class Interpreter {
    const globals: Env<Value>
    var env: Env<Value>
    var locals: map<Expr, nat>
    /** The lines written so far, in order. */
    var output: seq<string>
    const errors: ErrorLog
    /** The host language's text of a float. */
    const numberText: real -> string
    /** The host language's float result of `+ - * / %`, by operator. */
    const arithmetic: (TokenType, real, real) -> real
    /** What the wall clock reads. */
    const clock: real

    /** The runtime objects created so far. */
    ghost var known: Known

    ghost predicate Valid()
      reads this, known.envs, known.instances
    {
      globals in known.envs && env in known.envs && known.Closed() && known.ValuesHeld() && known.FieldsHeld()
    }

    /**
     * What every evaluation keeps: the known objects only grow, by objects
     * it allocated; the current environment and the resolved depths are
     * as before; output is only appended to.
     */
    twostate predicate Grew()
      reads this
    {
      Kept() && env == old(env)
    }

    /** What `Grew` says, apart from the current environment. */
    twostate predicate Kept()
      reads this
    {
      old(known).Within(known) &&
      (forall e | e in known.envs && e !in old(known.envs) :: fresh(e)) &&
      (forall i | i in known.instances && i !in old(known.instances) :: fresh(i)) &&
      locals == old(locals) && old(output) <= output
    }

    /**
     * A fresh evaluator: one global environment holding the two host
     * functions, no resolved depths, nothing written.
     */
    constructor (errors: ErrorLog, numberText: real -> string, arithmetic: (TokenType, real, real) -> real, clock: real)
      ensures Valid() && env == globals && locals == map[] && output == []
      ensures globals.enclosing == null && globals.values == map[TimeName := NativeV(Clock), PrintName := NativeV(Print)]
      ensures this.errors == errors && this.numberText == numberText && this.arithmetic == arithmetic && this.clock == clock
    {
      var g := new Env<Value>(null);
      g.Define(TimeName, NativeV(Clock));
      g.Define(PrintName, NativeV(Print));
      globals := g;
      env := g;
      locals := map[];
      output := [];
      this.errors := errors;
      this.numberText := numberText;
      this.arithmetic := arithmetic;
      this.clock := clock;
      known := Known({g}, {}, {});
    }

    /** Records the depth the resolver found for a variable reference. */
    method Resolve(expression: Expr, depth: nat)
      modifies this
      ensures locals == old(locals)[expression := depth]
      ensures env == old(env) && output == old(output) && known == old(known)
    {
      locals := locals[expression := depth];
    }

    // ------------------------------------------------- state-changing steps

    /** A fresh, empty environment enclosing a known one, now known itself. */
    method NewScope(enclosing: Env<Value>) returns (scope: Env<Value>)
      requires Valid() && enclosing in known.envs
      modifies this
      ensures Valid() && Grew() && known.instances == old(known.instances) && known.classes == old(known.classes) && output == old(output)
      ensures fresh(scope) && known == old(known).(envs := old(known.envs) + {scope})
      ensures scope.enclosing == enclosing && scope.values == map[]
    {
      scope := new Env(enclosing);
      Admit(scope);
    }

    /** Makes an environment whose links and values are known a known one. */
    method Admit(e: Env<Value>)
      requires Valid() && e.Chained() && (e.enclosing != null ==> e.enclosing in known.envs) && known.AllRefer(e.values)
      modifies this
      ensures Valid() && known == old(known).(envs := old(known.envs) + {e})
      ensures env == old(env) && locals == old(locals) && output == old(output)
      ensures forall v | old(known).Refers(v) :: known.Refers(v)
    {
      known.Monotone(known.(envs := known.envs + {e}));
      known := known.(envs := known.envs + {e});
    }

    /** Makes an instance of a known class, whose fields are known, a known one. */
    method AdmitInstance(i: PloxInstance)
      requires Valid() && i.klass in known.classes && known.AllRefer(i.fields)
      modifies this
      ensures Valid() && known == old(known).(instances := old(known.instances) + {i})
      ensures env == old(env) && locals == old(locals) && output == old(output)
      ensures forall v | old(known).Refers(v) :: known.Refers(v)
    {
      known.Monotone(known.(instances := known.instances + {i}));
      known := known.(instances := known.instances + {i});
    }

    /** Makes a class whose superclass and method closures are known a known one. */
    method AdmitClass(c: PloxClass)
      requires Valid() && c.Linked() && (c.superclass != null ==> c.superclass in known.classes)
      requires forall k | k in c.methods :: c.methods[k].closure in known.envs
      modifies this
      ensures Valid() && known == old(known).(classes := old(known.classes) + {c})
      ensures env == old(env) && locals == old(locals) && output == old(output)
      ensures forall v | old(known).Refers(v) :: known.Refers(v)
    {
      known.Monotone(known.(classes := known.classes + {c}));
      known := known.(classes := known.classes + {c});
    }

    /** Binds `name` in one known environment and changes nothing else. */
    method DefineIn(e: Env<Value>, name: string, value: Value)
      requires Valid() && e in known.envs && known.Refers(value)
      modifies e
      ensures Valid() && e.values == old(e.values)[name := value]
    {
      e.Define(name, value);
    }

    /** Rebinds `name` along a known chain, as `Env.Assign` does. */
    method AssignIn(e: Env<Value>, name: Token, value: Value) returns (r: Fetched<()>)
      requires Valid() && e in known.envs && known.Refers(value)
      modifies known.envs
      ensures Valid()
      ensures r.Undefined? <==> Nearest(old(e.Scopes()), name.symbol).None?
      ensures r.Undefined? ==> r == Undefined(name, UndefinedVariable(name.symbol))
      ensures e.Scopes() == Rebind(old(e.Scopes()), name.symbol, value)
    {
      known.ChainKnown(e);
      ghost var s0 := e.Scopes();
      assert forall j | 0 <= j < |s0| :: e.Ancestry()[j] in known.envs;
      known.RebindRefer(s0, name.symbol, value);
      r := e.Assign(name, value);
      known.ChainHeld(e);
    }

    /** Writes `name` at a resolved depth of a known chain, as `Env.AssignAt` does. */
    method AssignAtIn(e: Env<Value>, distance: nat, name: Token, value: Value) returns (ok: bool)
      requires Valid() && e in known.envs && known.Refers(value)
      modifies known.envs
      ensures Valid()
      ensures ok <==> distance < |old(e.Scopes())|
      ensures e.Scopes() == if ok then old(e.Scopes())[distance := old(e.Scopes())[distance][name.symbol := value]] else old(e.Scopes())
    {
      known.ChainKnown(e);
      ghost var s0 := e.Scopes();
      assert forall j | 0 <= j < |s0| :: e.Ancestry()[j] in known.envs;
      if distance < |s0| {
        known.ScopesUpdateRefer(s0, distance, name.symbol, value, s0[distance := s0[distance][name.symbol := value]]);
      }
      ok := e.AssignAt(distance, name, value);
      known.ChainHeld(e);
    }

    /** Writes one field of a known instance. */
    method SetField(i: PloxInstance, name: Token, value: Value)
      requires Valid() && i in known.instances && known.Refers(value)
      modifies i
      ensures Valid() && i.fields == old(i.fields)[name.symbol := value]
    {
      i.Set(name, value);
    }

    /** Binds a method found on a known class to a value, making the new closure known. */
    method BindKnown(m: PloxFunction, self: Value) returns (f: PloxFunction)
      requires Valid() && m.closure in known.envs && known.Refers(self)
      modifies this
      ensures Valid() && Grew() && known.instances == old(known.instances) && known.classes == old(known.classes) && output == old(output)
      ensures fresh(f) && fresh(f.closure) && known == old(known).(envs := old(known.envs) + {f.closure})
      ensures f.declaration == m.declaration && f.isInitializer == m.isInitializer
      ensures f.closure.enclosing == m.closure && f.closure.values == map[SelfName := self]
    {
      f := m.Bind(self);
      Admit(f.closure);
    }

    // ------------------------------------------------------------ lookup

    /**
     * A variable read: at the recorded depth when the resolver recorded one
     * (none when that environment lacks the name, a host failure when the
     * chain is shorter), otherwise in the globals.
     */
    method LookUp(name: Token, expression: Expr) returns (r: Outcome<Value>)
      requires Valid()
      ensures expression in locals ==>
                var d := locals[expression];
                (d >= |env.Scopes()| ==> r == Crashed(NoEnvironment)) &&
                (d < |env.Scopes()| ==>
                   r == Ok(if name.symbol in env.Scopes()[d] then env.Scopes()[d][name.symbol] else NoneV))
      ensures expression !in locals ==>
                match globals.Get(name)
                case Found(v) => r == Ok(v)
                case Undefined(t, m) => r == Thrown(t, m)
      ensures known.Produced(r)
    {
      if expression in locals {
        var d := locals[expression];
        var slot := env.GetAt(d, name.symbol);
        match slot
        case NoScope => r := Crashed(NoEnvironment);
        case Empty => r := Ok(NoneV);
        case Held(v) =>
          known.ScopeValueHeld(env, d, name.symbol);
          r := Ok(v);
      } else {
        var found := globals.Get(name);
        match found
        case Found(v) =>
          var n := Nearest(globals.Scopes(), name.symbol);
          known.ScopeValueHeld(globals, n.value, name.symbol);
          r := Ok(v);
        case Undefined(t, m) => r := Thrown(t, m);
      }
    }

    // -------------------------------------------------------- evaluation

    /** An expression's value, by the rule for its kind of node. */
    method Evaluate(e: Expr, fuel: nat) returns (r: Outcome<Value>)
      requires Valid()
      modifies this, known.envs, known.instances
      ensures Valid() && Grew() && known.Produced(r)
      ensures fuel == 0 ==> r == Exhausted
      ensures fuel > 0 && e.Literal? ==> r == Ok(LiteralValue(e.literal))
      ensures fuel > 0 && e.Anonym? ==>
                r.Ok? && r.value.AnonV? && fresh(r.value.anon) &&
                r.value.anon.params == e.params && r.value.anon.body == e.body && r.value.anon.closure == env
      decreases fuel, 0
    {
      if fuel == 0 {
        return Exhausted;
      }
      match e
      case Super(_, methodName) => ghost var klass; r, klass := VisitSuper(e, methodName);
      case Set(obj, name, value) => ghost var target, stored, before; r, target, stored, before := VisitSet(obj, name, value, fuel - 1);
      case Get(obj, name) => ghost var target; r, target := VisitGet(obj, name, fuel - 1);
      case Call(callee, paren, arguments) => ghost var called, evaluated; r, called, evaluated := VisitCall(callee, paren, arguments, fuel - 1);
      case Assign(name, value) => ghost var rhs, between, globalsBetween; r, rhs, between, globalsBetween := VisitAssign(e, name, value, fuel - 1);
      case Ternary(condition, _, whenTrue, _, whenFalse) => ghost var tested; r, tested := VisitTernary(condition, whenTrue, whenFalse, fuel - 1);
      case Logical(left, operator, right) => ghost var first; r, first := VisitLogical(left, operator, right, fuel - 1);
      case Binary(left, operator, right) => ghost var operands, between; r, operands, between := VisitBinary(left, operator, right, fuel - 1);
      case Unary(operator, right) => ghost var operand; r, operand := VisitUnary(operator, right, fuel - 1);
      case Prefix(operator, right) => ghost var before, between; r, before, between := VisitStep(operator, right, true, fuel - 1);
      case Postfix(left, operator) => ghost var before, between; r, before, between := VisitStep(operator, left, false, fuel - 1);
      case Grouping(inner) => r := Evaluate(inner, fuel - 1);
      case Variable(name) => r := LookUp(name, e);
      case Self(keyword) => r := LookUp(keyword, e);
      case Anonym(params, body) =>
        var f := new PloxAnonymFunction(params, body, env);
        r := Ok(AnonV(f));
      case Literal(literal) => r := Ok(LiteralValue(literal));
    }

    /**
     * `super.name`: the superclass stored at the recorded depth, its method
     * `name` bound to the `self` stored one environment further in.
     */
    method VisitSuper(e: Expr, methodName: Token) returns (r: Outcome<Value>, ghost klass: PloxClass?)
      requires Valid()
      modifies this
      ensures Valid() && Grew() && known.Produced(r)
      ensures e !in locals ==> r == Crashed(MissingDepth)
      ensures klass != null ==>
                klass.Linked() && e in locals && locals[e] < |env.Ancestry()| &&
                var scope := env.Ancestry()[locals[e]].values;
                SuperName in scope && scope[SuperName] == ClassV(klass)
      ensures klass != null && klass.FindMethod(methodName.symbol).None? ==>
                r == Crashed(UndefinedProperty(methodName.symbol))
      ensures r.Ok? ==>
                klass != null &&
                var found := klass.FindMethod(methodName.symbol);
                var scope := env.Ancestry()[if locals[e] == 0 then 0 else locals[e] - 1].values;
                found.Some? && r.value.FunctionV? && fresh(r.value.func) &&
                r.value.func.declaration == found.value.declaration &&
                r.value.func.isInitializer == found.value.isInitializer &&
                r.value.func.closure.enclosing == found.value.closure &&
                r.value.func.closure.values == map[SelfName := if SelfName in scope then scope[SelfName] else NoneV]
    {
      var pair;
      klass := null;
      pair :- SuperAndSelf(e);
      var (superclass, self) := pair;
      klass := superclass;
      var found := superclass.FindMethod(methodName.symbol);
      if found.None? {
        r := Crashed(UndefinedProperty(methodName.symbol));
        return;
      }
      known.MethodKnown(superclass, methodName.symbol);
      env.AncestorAllocated(locals[e]);
      env.AncestorAllocated(if locals[e] == 0 then 0 else locals[e] - 1);
      var bound := BindKnown(found.value, self);
      r := Ok(FunctionV(bound));
    }

    /**
     * The class stored as `super` at the recorded depth of a `super`
     * expression, and the `self` stored one environment further in (none
     * when absent there).
     */
    method SuperAndSelf(e: Expr) returns (r: Outcome<(PloxClass, Value)>)
      requires Valid()
      ensures e !in locals ==> r == Crashed(MissingDepth)
      ensures e in locals && locals[e] >= |env.Ancestry()| ==> r == Crashed(NoEnvironment)
      ensures r.Ok? ==> e in locals && locals[e] < |env.Ancestry()| &&
                        var scope := env.Ancestry()[locals[e]].values;
                        SuperName in scope && scope[SuperName] == ClassV(r.value.0)
      ensures r.Ok? ==> var scope := env.Ancestry()[if locals[e] == 0 then 0 else locals[e] - 1].values;
                        r.value.1 == if SelfName in scope then scope[SelfName] else NoneV
      ensures r.Ok? ==> r.value.0 in known.classes && r.value.0.Linked() && known.Refers(r.value.1)
    {
      if e !in locals {
        return Crashed(MissingDepth);
      }
      var distance := locals[e];
      var superclass := env.GetAt(distance, SuperName);
      if superclass.NoScope? {
        return Crashed(NoEnvironment);
      }
      env.AncestorAllocated(distance);
      var obj := env.GetAt(distance as int - 1, SelfName);
      if obj.NoScope? {
        return Crashed(NoEnvironment);
      }
      if !(superclass.Held? && superclass.value.ClassV?) {
        return Crashed(NotAClass);
      }
      known.ScopeValueHeld(env, distance, SuperName);
      var self := NoneV;
      if obj.Held? {
        known.ScopeValueHeld(env, if distance == 0 then 0 else distance - 1, SelfName);
        self := obj.value;
      }
      r := Ok((superclass.value.klass, self));
    }

    /**
     * `obj.name = value`: the object must be an instance; the value is
     * evaluated after it, stored as the field and yielded. `before` is the
     * instance's fields just before the store.
     */
    method VisitSet(obj: Expr, name: Token, value: Expr, fuel: nat)
      returns (r: Outcome<Value>, ghost target: Outcome<Value>, ghost stored: Outcome<Value>, ghost before: map<string, Value>)
      requires Valid()
      modifies this, known.envs, known.instances
      ensures Valid() && Grew() && known.Produced(r)
      ensures !target.Ok? ==> r == target.PropagateFailure()
      ensures target.Ok? && !target.value.InstanceV? ==> r == Crashed(NoFields)
      ensures target.Ok? && target.value.InstanceV? && !stored.Ok? ==> r == stored.PropagateFailure()
      ensures target.Ok? && target.value.InstanceV? && stored.Ok? ==>
                r == stored && target.value.instance.fields == before[name.symbol := stored.value]
      decreases fuel, 10
    {
      stored, before := Exhausted, map[];
      var t := Evaluate(obj, fuel);
      target := t;
      if !t.Ok? {
        return t.PropagateFailure(), target, stored, before;
      }
      if !t.value.InstanceV? {
        return Crashed(NoFields), target, stored, before;
      }
      var v := Evaluate(value, fuel);
      stored := v;
      if !v.Ok? {
        return v.PropagateFailure(), target, stored, before;
      }
      before := t.value.instance.fields;
      SetField(t.value.instance, name, v.value);
      r := v;
    }

    /** `obj.name`: the object must be an instance; a field, else a bound method. */
    method VisitGet(obj: Expr, name: Token, fuel: nat) returns (r: Outcome<Value>, ghost target: Outcome<Value>)
      requires Valid()
      modifies this, known.envs, known.instances
      ensures Valid() && Grew() && known.Produced(r)
      ensures !target.Ok? ==> r == target.PropagateFailure()
      ensures target.Ok? && !target.value.InstanceV? ==> r == Crashed(NoProperties)
      ensures target.Ok? ==> known.Refers(target.value)
      ensures target.Ok? && target.value.InstanceV? ==>
                var instance := target.value.instance;
                (name.symbol in instance.fields ==> r == Ok(instance.fields[name.symbol])) &&
                (name.symbol !in instance.fields && instance.klass.FindMethod(name.symbol).None? ==>
                   r == Crashed(UndefinedProperty(name.symbol))) &&
                (name.symbol !in instance.fields && instance.klass.FindMethod(name.symbol).Some? ==>
                   r.Ok? && r.value.FunctionV? && fresh(r.value.func) &&
                   r.value.func.declaration == instance.klass.FindMethod(name.symbol).value.declaration &&
                   r.value.func.closure.values == map[SelfName := InstanceV(instance)])
      decreases fuel, 10
    {
      var t := Evaluate(obj, fuel);
      target := t;
      if !t.Ok? {
        return t.PropagateFailure(), target;
      }
      if !t.value.InstanceV? {
        return Crashed(NoProperties), target;
      }
      r := Property(t.value.instance, name);
    }

    /** A property of a known instance: its field, else its class's method bound to it. */
    method Property(instance: PloxInstance, name: Token) returns (r: Outcome<Value>)
      requires Valid() && instance in known.instances
      modifies this
      ensures Valid() && Grew() && known.Produced(r)
      ensures name.symbol in instance.fields ==> r == Ok(instance.fields[name.symbol])
      ensures name.symbol !in instance.fields && instance.klass.FindMethod(name.symbol).None? ==>
                r == Crashed(UndefinedProperty(name.symbol))
      ensures name.symbol !in instance.fields && instance.klass.FindMethod(name.symbol).Some? ==>
                r.Ok? && r.value.FunctionV? &&
                var m := instance.klass.FindMethod(name.symbol).value;
                var f := r.value.func;
                fresh(f) && f.declaration == m.declaration && f.isInitializer == m.isInitializer &&
                f.closure.enclosing == m.closure && f.closure.values == map[SelfName := InstanceV(instance)]
    {
      if name.symbol in instance.fields {
        return Ok(instance.fields[name.symbol]);
      }
      var found := instance.klass.FindMethod(name.symbol);
      if found.None? {
        return Crashed(UndefinedProperty(name.symbol));
      }
      known.MethodKnown(instance.klass, name.symbol);
      var bound := BindKnown(found.value, InstanceV(instance));
      r := Ok(FunctionV(bound));
    }

    /**
     * A call: the callee, then each argument in order, and only then the
     * callable and arity checks and the call itself. `called` is the
     * callee's outcome and `evaluated` the arguments' (the first failure).
     */
    method VisitCall(callee: Expr, paren: Token, arguments: seq<Expr>, fuel: nat)
      returns (r: Outcome<Value>, ghost called: Outcome<Value>, ghost evaluated: Outcome<seq<Value>>)
      requires Valid()
      modifies this, known.envs, known.instances
      ensures Valid() && Grew() && known.Produced(r)
      ensures !called.Ok? ==> r == called.PropagateFailure()
      ensures called.Ok? && !evaluated.Ok? ==> r == evaluated.PropagateFailure()
      ensures called.Ok? && evaluated.Ok? ==> |evaluated.value| == |arguments| && known.Refers(called.value)
      ensures called.Ok? && evaluated.Ok? && !CallCheck(paren, called.value, |evaluated.value|).Ok? ==>
                r == CallCheck(paren, called.value, |evaluated.value|).PropagateFailure()
      decreases fuel, 10
    {
      evaluated := Exhausted;
      var c := Evaluate(callee, fuel);
      called := c;
      if !c.Ok? {
        return c.PropagateFailure(), called, evaluated;
      }
      var f := c.value;
      var values: seq<Value> := [];
      for i := 0 to |arguments|
        invariant Valid() && Grew() && known.Refers(f)
        invariant |values| == i && forall a | a in values :: known.Refers(a)
      {
        var v := Evaluate(arguments[i], fuel);
        if !v.Ok? {
          evaluated := v.PropagateFailure();
          return v.PropagateFailure(), called, evaluated;
        }
        values := values + [v.value];
      }
      evaluated := Ok(values);
      r := Invoke(paren, f, values, fuel);
    }

    /**
     * Calls an evaluated callee: anything but a function or class is
     * refused, as is a wrong number of arguments; otherwise the callee runs.
     */
    method Invoke(paren: Token, callee: Value, arguments: seq<Value>, fuel: nat) returns (r: Outcome<Value>)
      requires Valid() && known.Refers(callee) && forall a | a in arguments :: known.Refers(a)
      modifies this, known.envs, known.instances
      ensures Valid() && Grew() && known.Produced(r)
      ensures !CallCheck(paren, callee, |arguments|).Ok? ==>
                r == CallCheck(paren, callee, |arguments|).PropagateFailure() &&
                output == old(output) && known == old(known)
      ensures callee == NativeV(Clock) && |arguments| == 0 ==> r == Ok(NumV(clock))
      ensures callee == NativeV(Print) && |arguments| == 0 ==> r == Ok(NoneV) && output == old(output) + [""]
      ensures callee.ClassV? && r.Ok? ==> r.value.InstanceV? && fresh(r.value.instance) && r.value.instance.klass == callee.klass
      decreases fuel, 6
    {
      var _ :- CallCheck(paren, callee, |arguments|);
      ghost var completion;
      match callee
      case FunctionV(f) => r, completion := CallFunction(f, arguments, fuel);
      case AnonV(f) => r, completion := CallAnon(f, arguments, fuel);
      case ClassV(c) => r := CallClass(c, arguments, fuel);
      case NativeV(n) =>
        if n == Clock {
          r := Ok(NumV(clock));
        } else {
          output := output + [""];
          r := Ok(NoneV);
        }
    }

    /**
     * A user function's call: a frame enclosing its closure binds the
     * parameters, the body runs in it, and the completion decides the result.
     */
    method CallFunction(f: PloxFunction, arguments: seq<Value>, fuel: nat)
      returns (r: Outcome<Value>, ghost completion: Outcome<Completion>)
      requires Valid() && f.closure in known.envs && |arguments| == |f.declaration.params|
      requires forall a | a in arguments :: known.Refers(a)
      modifies this, known.envs, known.instances
      ensures Valid() && Grew() && known.Produced(r)
      ensures !completion.Ok? ==> r == completion.PropagateFailure()
      ensures completion.Ok? ==> r == Ok(f.CallResult(completion.value))
      decreases fuel, 2
    {
      var frame := NewFrame(f.closure, f.declaration.params, arguments);
      BindingsValues(f.declaration.params, arguments);
      Admit(frame);
      var body, _ := ExecuteBlock(f.declaration.body, frame, fuel);
      completion := body;
      if body.IsFailure() {
        r := body.PropagateFailure();
      } else {
        r := Ok(f.CallResult(body.value));
      }
    }

    /** An anonymous function's call: as a user function's, never an initializer. */
    method CallAnon(f: PloxAnonymFunction, arguments: seq<Value>, fuel: nat)
      returns (r: Outcome<Value>, ghost completion: Outcome<Completion>)
      requires Valid() && f.closure in known.envs && |arguments| == |f.params|
      requires forall a | a in arguments :: known.Refers(a)
      modifies this, known.envs, known.instances
      ensures Valid() && Grew() && known.Produced(r)
      ensures !completion.Ok? ==> r == completion.PropagateFailure()
      ensures completion.Ok? && completion.value.Returned? ==> r == Ok(completion.value.value)
      ensures completion.Ok? && !completion.value.Returned? ==> r == Ok(NoneV)
      decreases fuel, 2
    {
      var frame := NewFrame(f.closure, f.params, arguments);
      BindingsValues(f.params, arguments);
      Admit(frame);
      var body, _ := ExecuteBlock(f.body, frame, fuel);
      completion := body;
      if body.IsFailure() {
        r := body.PropagateFailure();
      } else {
        r := Ok(if body.value.Returned? then body.value.value else NoneV);
      }
    }

    /**
     * A class's call: a fresh instance with no fields; the initializer, when
     * the chain has one, runs bound to it and its result is dropped.
     */
    method CallClass(c: PloxClass, arguments: seq<Value>, fuel: nat) returns (r: Outcome<Value>)
      requires Valid() && c in known.classes && |arguments| == c.Arity()
      requires forall a | a in arguments :: known.Refers(a)
      modifies this, known.envs, known.instances
      ensures Valid() && Grew() && known.Produced(r)
      ensures r.Ok? ==> r.value.InstanceV? && fresh(r.value.instance) && r.value.instance.klass == c
      decreases fuel, 5
    {
      var initializer := c.FindMethod(InitName);
      if initializer.Some? {
        known.MethodKnown(c, InitName);
      }
      r := Instantiate(c, initializer, arguments, fuel);
    }

    /** A fresh, known instance of a known class, with no fields. */
    method NewInstance(c: PloxClass) returns (instance: PloxInstance)
      requires Valid() && c in known.classes
      modifies this
      ensures Valid() && Grew() && fresh(instance) && instance.klass == c && instance.fields == map[]
      ensures instance in known.instances
    {
      instance := new PloxInstance(c);
      AdmitInstance(instance);
    }

    /**
     * A new instance of `c`; the initializer, when there is one, runs bound
     * to it, and the instance is yielded unless the initializer fails.
     */
    method Instantiate(c: PloxClass, initializer: Option<PloxFunction>, arguments: seq<Value>, fuel: nat) returns (r: Outcome<Value>)
      requires Valid() && c in known.classes
      requires initializer.Some? ==> initializer.value.closure in known.envs && |arguments| == |initializer.value.declaration.params|
      requires forall a | a in arguments :: known.Refers(a)
      modifies this, known.envs, known.instances
      ensures Valid() && Grew() && known.Produced(r)
      ensures r.Ok? ==> r.value.InstanceV? && fresh(r.value.instance) && r.value.instance.klass == c
      ensures initializer.None? ==> r.Ok?
      decreases fuel, 4
    {
      var instance := NewInstance(c);
      if initializer.None? {
        return Ok(InstanceV(instance));
      }
      r := Initialize(initializer.value, instance, arguments, fuel);
    }

    /** Runs an initializer bound to a new instance; yields that instance unless the initializer fails. */
    method Initialize(m: PloxFunction, instance: PloxInstance, arguments: seq<Value>, fuel: nat) returns (r: Outcome<Value>)
      requires Valid() && m.closure in known.envs && instance in known.instances
      requires |arguments| == |m.declaration.params| && forall a | a in arguments :: known.Refers(a)
      modifies this, known.envs, known.instances
      ensures Valid() && Grew()
      ensures r.Ok? ==> r.value == InstanceV(instance)
      decreases fuel, 3
    {
      var bound := BindKnown(m, InstanceV(instance));
      var called, _ := CallFunction(bound, arguments, fuel);
      if called.IsFailure() {
        return called.PropagateFailure();
      }
      r := Ok(InstanceV(instance));
    }

    /**
     * An assignment: the value, then the store by resolved depth or in the
     * globals. `rhs` is the value's outcome; `between` and
     * `globalsBetween` are the current and global scopes just before the store.
     */
    method VisitAssign(e: Expr, name: Token, value: Expr, fuel: nat)
      returns (r: Outcome<Value>, ghost rhs: Outcome<Value>,
               ghost between: seq<map<string, Value>>, ghost globalsBetween: seq<map<string, Value>>)
      requires Valid()
      modifies this, known.envs, known.instances
      ensures Valid() && Grew() && known.Produced(r)
      ensures !rhs.Ok? ==> r == rhs.PropagateFailure()
      ensures rhs.Ok? && e in locals ==>
                var d := locals[e];
                (d < |between| ==> r == rhs && env.Scopes() == between[d := between[d][name.symbol := rhs.value]]) &&
                (d >= |between| ==> r == Crashed(NoEnvironment) && env.Scopes() == between)
      ensures rhs.Ok? && e !in locals ==>
                globals.Scopes() == Rebind(globalsBetween, name.symbol, rhs.value) &&
                r == if Nearest(globalsBetween, name.symbol).Some? then rhs
                     else Thrown(name, UndefinedVariable(name.symbol))
      decreases fuel, 10
    {
      var v := Evaluate(value, fuel);
      rhs := v;
      between, globalsBetween := env.Scopes(), globals.Scopes();
      if !v.Ok? {
        return v.PropagateFailure(), rhs, between, globalsBetween;
      }
      r := Store(e, name, v.value);
    }

    /**
     * Stores an rhs value: at the recorded depth when there is one
     * (whether or not the name was there), else by rebinding the global;
     * yields the value.
     */
    method Store(e: Expr, name: Token, v: Value) returns (r: Outcome<Value>)
      requires Valid() && known.Refers(v)
      modifies known.envs
      ensures Valid() && known.Produced(r)
      ensures e in locals ==>
                var d := locals[e];
                (d < |old(env.Scopes())| ==> r == Ok(v) && env.Scopes() == old(env.Scopes())[d := old(env.Scopes())[d][name.symbol := v]]) &&
                (d >= |old(env.Scopes())| ==> r == Crashed(NoEnvironment) && env.Scopes() == old(env.Scopes()))
      ensures e !in locals ==>
                globals.Scopes() == Rebind(old(globals.Scopes()), name.symbol, v) &&
                (Nearest(old(globals.Scopes()), name.symbol).Some? ==> r == Ok(v)) &&
                (Nearest(old(globals.Scopes()), name.symbol).None? ==> r == Thrown(name, UndefinedVariable(name.symbol)))
    {
      if e in locals {
        var ok := AssignAtIn(env, locals[e], name, v);
        r := if ok then Ok(v) else Crashed(NoEnvironment);
      } else {
        var a := AssignIn(globals, name, v);
        r := if a.Undefined? then Thrown(a.token, a.message) else Ok(v);
      }
    }

    /** The condition, then exactly one of the two branches. */
    method VisitTernary(condition: Expr, whenTrue: Expr, whenFalse: Expr, fuel: nat) returns (r: Outcome<Value>, ghost tested: Outcome<Value>)
      requires Valid()
      modifies this, known.envs, known.instances
      ensures Valid() && Grew() && known.Produced(r)
      ensures !tested.Ok? ==> r == tested.PropagateFailure()
      decreases fuel, 10
    {
      var t := Evaluate(condition, fuel);
      tested := t;
      if !t.Ok? {
        return t.PropagateFailure(), tested;
      }
      var c := t.value;
      if IsTruthy(c) {
        r := Evaluate(whenTrue, fuel);
      } else {
        r := Evaluate(whenFalse, fuel);
      }
    }

    /** `and`/`or`: the left operand when it decides the result, else the right operand's value. */
    method VisitLogical(left: Expr, operator: Token, right: Expr, fuel: nat) returns (r: Outcome<Value>, ghost first: Outcome<Value>)
      requires Valid()
      modifies this, known.envs, known.instances
      ensures Valid() && Grew() && known.Produced(r)
      ensures !first.Ok? ==> r == first.PropagateFailure()
      ensures first.Ok? && ShortCircuits(operator, first.value) ==> r == first
      decreases fuel, 10
    {
      var o := Evaluate(left, fuel);
      first := o;
      if !o.Ok? {
        return o.PropagateFailure(), first;
      }
      var l := o.value;
      if ShortCircuits(operator, l) {
        r := Ok(l);
      } else {
        r := Evaluate(right, fuel);
      }
    }

    /**
     * Both operands, then the operator; a compound assignment also rebinds
     * its variable along the current chain.
     */
    method VisitBinary(left: Expr, operator: Token, right: Expr, fuel: nat)
      returns (r: Outcome<Value>, ghost operands: Outcome<(Value, Value)>, ghost between: seq<map<string, Value>>)
      requires Valid()
      modifies this, known.envs, known.instances
      ensures Valid() && Grew() && known.Produced(r)
      ensures !operands.Ok? ==> r == operands.PropagateFailure()
      ensures operands.Ok? && operator.kind !in CompoundOperators ==>
                r == BinaryValue(operator, operands.value.0, operands.value.1, arithmetic, numberText)
      ensures operands.Ok? && operator.kind in CompoundOperators ==>
                var c := CompoundValue(operator, left, operands.value.0, operands.value.1, arithmetic);
                (!c.Ok? ==> r == c.PropagateFailure() && env.Scopes() == between) &&
                (c.Ok? ==> env.Scopes() == Rebind(between, left.name.symbol, NumV(c.value)) &&
                           r == if Nearest(between, left.name.symbol).Some? then Ok(NumV(c.value))
                                else Thrown(left.name, UndefinedVariable(left.name.symbol)))
      decreases fuel, 10
    {
      var l := Evaluate(left, fuel);
      if !l.Ok? {
        operands := l.PropagateFailure();
        return l.PropagateFailure(), operands, env.Scopes();
      }
      var rv := Evaluate(right, fuel);
      if !rv.Ok? {
        operands := rv.PropagateFailure();
        return rv.PropagateFailure(), operands, env.Scopes();
      }
      operands := Ok((l.value, rv.value));
      between := env.Scopes();
      r := Operate(left, operator, l.value, rv.value);
    }

    /**
     * Applies a binary operator to its evaluated operands; a compound
     * assignment also stores its numeric result in the variable on its left.
     */
    method Operate(left: Expr, operator: Token, l: Value, rv: Value) returns (r: Outcome<Value>)
      requires Valid()
      modifies known.envs
      ensures Valid() && known.Produced(r)
      ensures operator.kind !in CompoundOperators ==> r == BinaryValue(operator, l, rv, arithmetic, numberText)
      ensures operator.kind in CompoundOperators && !CompoundValue(operator, left, l, rv, arithmetic).Ok? ==>
                r == CompoundValue(operator, left, l, rv, arithmetic).PropagateFailure() && env.Scopes() == old(env.Scopes())
      ensures operator.kind in CompoundOperators && CompoundValue(operator, left, l, rv, arithmetic).Ok? ==>
                var n := CompoundValue(operator, left, l, rv, arithmetic).value;
                env.Scopes() == Rebind(old(env.Scopes()), left.name.symbol, NumV(n)) &&
                r == if Nearest(old(env.Scopes()), left.name.symbol).Some? then Ok(NumV(n))
                     else Thrown(left.name, UndefinedVariable(left.name.symbol))
    {
      if operator.kind in CompoundOperators {
        var n :- CompoundValue(operator, left, l, rv, arithmetic);
        r := Rebound(left.name, n, NumV(n));
      } else {
        r := BinaryValue(operator, l, rv, arithmetic, numberText);
      }
    }

    /** Rebinds a variable along the current chain to a number and yields `result`. */
    method Rebound(name: Token, n: real, result: Value) returns (r: Outcome<Value>)
      requires Valid() && Primitive(result)
      modifies known.envs
      ensures Valid() && known.Produced(r)
      ensures env.Scopes() == Rebind(old(env.Scopes()), name.symbol, NumV(n))
      ensures Nearest(old(env.Scopes()), name.symbol).Some? ==> r == Ok(result)
      ensures Nearest(old(env.Scopes()), name.symbol).None? ==> r == Thrown(name, UndefinedVariable(name.symbol))
    {
      var a := AssignIn(env, name, NumV(n));
      r := if a.Undefined? then Thrown(a.token, a.message) else Ok(result);
    }

    /** The operand, then the operator applied to its value. */
    method VisitUnary(operator: Token, right: Expr, fuel: nat) returns (r: Outcome<Value>, ghost operand: Outcome<Value>)
      requires Valid()
      modifies this, known.envs, known.instances
      ensures Valid() && Grew() && known.Produced(r)
      ensures r == if operand.Ok? then UnaryValue(operator, operand.value) else operand.PropagateFailure()
      decreases fuel, 10
    {
      var o := Evaluate(right, fuel);
      operand := o;
      if !o.Ok? {
        return o.PropagateFailure(), operand;
      }
      r := UnaryValue(operator, o.value);
    }

    /**
     * `++`/`--` before (`prefix`) or after the operand: the variable is
     * rebound to the stepped number; a prefix step yields the new number, a
     * postfix step the old one; any other operator yields none.
     */
    method VisitStep(operator: Token, operand: Expr, prefix: bool, fuel: nat)
      returns (r: Outcome<Value>, ghost before: Outcome<Value>, ghost between: seq<map<string, Value>>)
      requires Valid()
      modifies this, known.envs, known.instances
      ensures Valid() && Grew() && known.Produced(r)
      ensures !before.Ok? ==> r == before.PropagateFailure()
      ensures before.Ok? && operator.kind !in {PLUS_PLUS, MINUS_MINUS} ==> r == Ok(NoneV) && env.Scopes() == between
      ensures before.Ok? && operator.kind in {PLUS_PLUS, MINUS_MINUS} && !StepValue(operator, operand, before.value, arithmetic).Ok? ==>
                r == StepValue(operator, operand, before.value, arithmetic).PropagateFailure() && env.Scopes() == between
      ensures before.Ok? && operator.kind in {PLUS_PLUS, MINUS_MINUS} && StepValue(operator, operand, before.value, arithmetic).Ok? ==>
                var n := StepValue(operator, operand, before.value, arithmetic).value;
                env.Scopes() == Rebind(between, operand.name.symbol, NumV(n)) &&
                r == if Nearest(between, operand.name.symbol).Some? then Ok(if prefix then NumV(n) else before.value)
                     else Thrown(operand.name, UndefinedVariable(operand.name.symbol))
      decreases fuel, 10
    {
      var o := Evaluate(operand, fuel);
      before := o;
      between := env.Scopes();
      if !o.Ok? {
        return o.PropagateFailure(), before, between;
      }
      r := Stepped(operator, operand, o.value, prefix);
    }

    /**
     * `++` or `--` applied to a variable whose value `v` is a number: the
     * variable is rebound to the new number, and the result is the new number
     * for a prefix operator and the old value for a postfix one.
     */
    method Stepped(operator: Token, operand: Expr, v: Value, prefix: bool) returns (r: Outcome<Value>)
      requires Valid()
      modifies known.envs
      ensures Valid() && known.Produced(r)
      ensures operator.kind !in {PLUS_PLUS, MINUS_MINUS} ==> r == Ok(NoneV) && env.Scopes() == old(env.Scopes())
      ensures operator.kind in {PLUS_PLUS, MINUS_MINUS} && !StepValue(operator, operand, v, arithmetic).Ok? ==>
                r == StepValue(operator, operand, v, arithmetic).PropagateFailure() && env.Scopes() == old(env.Scopes())
      ensures operator.kind in {PLUS_PLUS, MINUS_MINUS} && StepValue(operator, operand, v, arithmetic).Ok? ==>
                var n := StepValue(operator, operand, v, arithmetic).value;
                env.Scopes() == Rebind(old(env.Scopes()), operand.name.symbol, NumV(n)) &&
                (Nearest(old(env.Scopes()), operand.name.symbol).Some? ==> r == Ok(if prefix then NumV(n) else v)) &&
                (Nearest(old(env.Scopes()), operand.name.symbol).None? ==> r == Thrown(operand.name, UndefinedVariable(operand.name.symbol)))
    {
      if operator.kind in {PLUS_PLUS, MINUS_MINUS} {
        var n :- StepValue(operator, operand, v, arithmetic);
        r := Rebound(operand.name, n, if prefix then NumV(n) else v);
      } else {
        r := Ok(NoneV);
      }
    }

    // --------------------------------------------------------- statements

    /** A statement's effect, by the rule for its kind. */
    method Execute(s: Stmt, fuel: nat) returns (r: Outcome<Completion>)
      requires Valid()
      modifies this, known.envs, known.instances
      ensures Valid() && Grew() && known.Completed(r)
      ensures fuel == 0 ==> r == Exhausted
      ensures fuel > 0 && s.Missing? ==> r == Crashed(NoStatement)
      decreases fuel, 0
    {
      if fuel == 0 {
        return Exhausted;
      }
      match s
      case Block(statements) =>
        var scope := NewScope(env);
        ghost var ran;
        r, ran := ExecuteBlock(statements, scope, fuel - 1);
      case Expression(e) => ghost var value; r, value := VisitExpression(e, fuel - 1);
      case Function(decl) =>
        VisitFunction(decl);
        r := Ok(Normal);
      case Class(name, methods, superclass) => r := VisitClass(name, methods, superclass, fuel - 1);
      case If(condition, thenBranch, elseBranch) => ghost var tested; r, tested := VisitIf(condition, thenBranch, elseBranch, fuel - 1);
      case Echo(e) => ghost var value, printed; r, value, printed := VisitEcho(e, fuel - 1);
      case Return(_, value) => ghost var returned; r, returned := VisitReturn(value, fuel - 1);
      case Var(name, initializer) => ghost var initial; r, initial := VisitVar(name, initializer, fuel - 1);
      case While(condition, body) => r := VisitWhile(condition, body, fuel - 1);
      case Missing => r := Crashed(NoStatement);
    }

    /** An expression statement: the expression is evaluated and its value dropped. */
    method VisitExpression(e: Expr, fuel: nat) returns (r: Outcome<Completion>, ghost value: Outcome<Value>)
      requires Valid()
      modifies this, known.envs, known.instances
      ensures Valid() && Grew() && known.Completed(r)
      ensures r == if value.Ok? then Ok(Normal) else value.PropagateFailure()
      decreases fuel, 10
    {
      var v := Evaluate(e, fuel);
      value := v;
      r := if v.Ok? then Ok(Normal) else v.PropagateFailure();
    }

    /**
     * `echo`: the value's text is appended to the output, after whatever
     * evaluating it printed (`printed`).
     */
    method VisitEcho(e: Expr, fuel: nat) returns (r: Outcome<Completion>, ghost value: Outcome<Value>, ghost printed: seq<string>)
      requires Valid()
      modifies this, known.envs, known.instances
      ensures Valid() && Grew() && known.Completed(r)
      ensures old(output) <= printed
      ensures !value.Ok? ==> r == value.PropagateFailure() && output == printed
      ensures value.Ok? ==> r == Ok(Normal) && output == printed + [Stringify(value.value, numberText)]
      decreases fuel, 10
    {
      var v := Evaluate(e, fuel);
      value := v;
      printed := output;
      if !v.Ok? {
        return v.PropagateFailure(), value, printed;
      }
      output := output + [Stringify(v.value, numberText)];
      r := Ok(Normal);
    }

    /** `return`: completes with the value, or with none when there is no value. */
    method VisitReturn(value: Option<Expr>, fuel: nat) returns (r: Outcome<Completion>, ghost returned: Outcome<Value>)
      requires Valid()
      modifies this, known.envs, known.instances
      ensures Valid() && Grew() && known.Completed(r)
      ensures value.None? ==> returned == Ok(NoneV)
      ensures !returned.Ok? ==> r == returned.PropagateFailure()
      ensures returned.Ok? ==> r == Ok(Returned(returned.value))
      decreases fuel, 10
    {
      var v := Ok(NoneV);
      if value.Some? {
        v := Evaluate(value.value, fuel);
      }
      returned := v;
      r := if v.Ok? then Ok(Returned(v.value)) else v.PropagateFailure();
    }

    /**
     * Runs statements in `scope` until one does not complete normally, and
     * puts the previous environment back whatever happened. `ran` counts
     * the statements that completed normally: all of them exactly when the
     * block completes normally, and otherwise the one after them ended it.
     */
    method ExecuteBlock(statements: seq<Stmt>, scope: Env<Value>, fuel: nat)
      returns (r: Outcome<Completion>, ghost ran: nat)
      requires Valid() && scope in known.envs
      modifies this, known.envs, known.instances
      ensures Valid() && Grew() && known.Completed(r)
      ensures ran <= |statements|
      ensures ran == |statements| <==> r == Ok(Normal)
      decreases fuel, 1
    {
      var previous := env;
      env := scope;
      r := Ok(Normal);
      var i := 0;
      while i < |statements|
        invariant i <= |statements| && r == Ok(Normal)
        invariant Valid() && Kept() && env == scope && known.Completed(r)
      {
        var done := Execute(statements[i], fuel);
        if !(done.Ok? && done.value.Normal?) {
          r := done;
          env := previous;
          ran := i;
          return;
        }
        r := done;
        i := i + 1;
      }
      env := previous;
      ran := |statements|;
    }

    /**
     * `let`: the initializer's value, or none without one, defined in the
     * current environment.
     */
    method VisitVar(name: Token, initializer: Option<Expr>, fuel: nat) returns (r: Outcome<Completion>, ghost initial: Outcome<Value>)
      requires Valid()
      modifies this, known.envs, known.instances
      ensures Valid() && Grew() && known.Completed(r)
      ensures initializer.None? ==> initial == Ok(NoneV)
      ensures !initial.Ok? ==> r == initial.PropagateFailure()
      ensures initial.Ok? ==> r == Ok(Normal) && name.symbol in env.values && env.values[name.symbol] == initial.value
      decreases fuel, 10
    {
      initial := Ok(NoneV);
      var v := NoneV;
      if initializer.Some? {
        var o := Evaluate(initializer.value, fuel);
        initial := o;
        if !o.Ok? {
          return o.PropagateFailure(), initial;
        }
        v := o.value;
      }
      DefineIn(env, name.symbol, v);
      r := Ok(Normal);
    }

    /** A named function closes over the current environment and is bound there. */
    method VisitFunction(decl: FunctionDecl)
      requires Valid()
      modifies env
      ensures Valid()
      ensures env.values.Keys == old(env.values.Keys) + {decl.name.symbol}
      ensures var f := env.values[decl.name.symbol];
              f.FunctionV? && fresh(f.func) && f.func.declaration == decl && f.func.closure == env && !f.func.isInitializer
      ensures forall k | k in old(env.values) && k != decl.name.symbol :: env.values[k] == old(env.values[k])
    {
      var f := new PloxFunction(decl, env, false);
      DefineIn(env, decl.name.symbol, FunctionV(f));
    }

    /** The condition, then the `then` branch, the `else` branch, or nothing. */
    method VisitIf(condition: Expr, thenBranch: Stmt, elseBranch: Option<Stmt>, fuel: nat) returns (r: Outcome<Completion>, ghost tested: Outcome<Value>)
      requires Valid()
      modifies this, known.envs, known.instances
      ensures Valid() && Grew() && known.Completed(r)
      ensures !tested.Ok? ==> r == tested.PropagateFailure()
      ensures tested.Ok? && !IsTruthy(tested.value) && elseBranch.None? ==> r == Ok(Normal)
      decreases fuel, 10
    {
      var t := Evaluate(condition, fuel);
      tested := t;
      if !t.Ok? {
        return t.PropagateFailure(), tested;
      }
      if IsTruthy(t.value) {
        r := Execute(thenBranch, fuel);
      } else if elseBranch.Some? {
        r := Execute(elseBranch.value, fuel);
      } else {
        r := Ok(Normal);
      }
    }

    /** Runs the body while the condition is truthy; each round consumes budget. */
    method VisitWhile(condition: Expr, body: Stmt, fuel: nat) returns (r: Outcome<Completion>)
      requires Valid()
      modifies this, known.envs, known.instances
      ensures Valid() && Grew() && known.Completed(r)
      decreases fuel, 10
    {
      var budget := fuel;
      while true
        invariant Valid() && Grew()
        decreases budget
      {
        if budget == 0 {
          return Exhausted;
        }
        budget := budget - 1;
        var c :- Evaluate(condition, fuel);
        if !IsTruthy(c) {
          return Ok(Normal);
        }
        r := Execute(body, fuel);
        if !(r.Ok? && r.value.Normal?) {
          return;
        }
      }
    }

    /**
     * A class declaration: the superclass must evaluate to a class; the
     * name is declared, the class is built over the current environment (or
     * over a scope holding `super` when there is a superclass) and then
     * assigned to the name.
     */
    method VisitClass(name: Token, methods: seq<FunctionDecl>, superclass: Option<Token>, fuel: nat) returns (r: Outcome<Completion>)
      requires Valid()
      modifies this, known.envs, known.instances
      ensures Valid() && Grew() && known.Completed(r)
      decreases fuel, 10
    {
      var parent: PloxClass? := null;
      if superclass.Some? {
        var v :- Evaluate(Variable(superclass.value), fuel);
        if !v.ClassV? {
          return Crashed(SuperclassNotClass);
        }
        parent := v.klass;
      }
      DefineIn(env, name.symbol, NoneV);
      var klass := DeclareClass(name.symbol, methods, parent);
      var a := AssignIn(env, name, ClassV(klass));
      r := if a.Undefined? then Thrown(a.token, a.message) else Ok(Normal);
    }

    /** Builds a class whose methods close over the current environment, or over a scope holding `super`. */
    method DeclareClass(name: string, decls: seq<FunctionDecl>, parent: PloxClass?) returns (klass: PloxClass)
      requires Valid() && (parent != null ==> parent in known.classes)
      modifies this
      ensures Valid() && Grew() && known.instances == old(known.instances) && output == old(output)
      ensures fresh(klass) && klass in known.classes && klass.name == name && klass.superclass == parent
      ensures klass.methods.Keys == set i | 0 <= i < |decls| :: decls[i].name.symbol
    {
      var closure := env;
      if parent != null {
        closure := SuperScope(parent);
      }
      var table := MethodTable(decls, closure);
      klass := new PloxClass(name, table, parent);
      AdmitClass(klass);
    }

    /**
     * The scope a subclass's methods close over: a new environment inside
     * the current one, binding `super` to the superclass.
     */
    method SuperScope(parent: PloxClass) returns (closure: Env<Value>)
      requires Valid() && parent in known.classes
      modifies this
      ensures Valid() && Grew() && known.instances == old(known.instances) && known.classes == old(known.classes) && output == old(output)
      ensures fresh(closure) && closure in known.envs && closure.enclosing == env && closure.values == map[SuperName := ClassV(parent)]
    {
      closure := NewScope(env);
      DefineIn(closure, SuperName, ClassV(parent));
    }

    /**
     * Runs a program; a language runtime error is reported and ends it.
     * `stopped` is the outcome of the statement that ended the run, or
     * `Ok(Normal)` when every statement completed.
     */
    method Interpret(statements: seq<Stmt>, fuel: nat) returns (r: Outcome<()>, ghost stopped: Outcome<Completion>)
      requires Valid()
      modifies this, known.envs, known.instances, errors
      ensures Valid() && Grew()
      ensures errors.hadError == old(errors.hadError)
      ensures stopped.Thrown? ==>
                r == Ok(()) && errors.hadRuntimeError &&
                errors.log == old(errors.log) + [AtToken(RUNTIME_ERROR, stopped.token, stopped.message)]
      ensures !stopped.Thrown? ==> errors.log == old(errors.log) && errors.hadRuntimeError == old(errors.hadRuntimeError)
      ensures stopped == Ok(Normal) ==> r == Ok(())
      ensures stopped.Ok? && stopped.value.Returned? ==> r == Crashed(ReturnOutsideFunction)
      ensures stopped.Crashed? ==> r == Crashed(stopped.reason)
      ensures stopped.Exhausted? ==> r == Exhausted
      ensures r.Ok? ==> stopped == Ok(Normal) || stopped.Thrown?
    {
      stopped := Ok(Normal);
      for i := 0 to |statements|
        invariant Valid() && Grew()
        invariant errors.log == old(errors.log) && errors.hadError == old(errors.hadError)
        invariant errors.hadRuntimeError == old(errors.hadRuntimeError)
        invariant stopped == Ok(Normal)
      {
        var s := Execute(statements[i], fuel);
        stopped := s;
        match s
        case Ok(c) =>
          if c.Returned? {
            return Crashed(ReturnOutsideFunction), stopped;
          }
          stopped := Ok(Normal);
        case Thrown(token, message) =>
          errors.RuntimeError(token, message);
          return Ok(()), stopped;
        case Crashed(reason) => return Crashed(reason), stopped;
        case Exhausted => return Exhausted, stopped;
      }
      r := Ok(());
    }
  }

  /** `decls[d]` is the last declaration named `name`. */
  ghost predicate LastNamed(decls: seq<FunctionDecl>, name: string, d: nat)
  {
    d < |decls| && decls[d].name.symbol == name && forall j | d < j < |decls| :: decls[j].name.symbol != name
  }

  /**
   * The methods of a class body, each closing over `closure`; `init` is
   * the initializer; a later method of the same name replaces an earlier one.
   */
  method MethodTable(decls: seq<FunctionDecl>, closure: Env<Value>) returns (table: map<string, PloxFunction>)
    ensures table.Keys == set i | 0 <= i < |decls| :: decls[i].name.symbol
    ensures forall k | k in table :: fresh(table[k]) && table[k].closure == closure && table[k].isInitializer == (k == InitName)
    ensures forall k | k in table :: table[k].declaration.name.symbol == k
    ensures forall k | k in table :: exists d | 0 <= d < |decls| :: table[k].declaration == decls[d] && LastNamed(decls, k, d)
  {
    table := map[];
    for i := 0 to |decls|
      invariant table.Keys == set j | 0 <= j < i :: decls[j].name.symbol
      invariant forall k | k in table :: fresh(table[k]) && table[k].closure == closure && table[k].isInitializer == (k == InitName)
      invariant forall k | k in table :: table[k].declaration.name.symbol == k
      invariant forall k | k in table :: exists d | 0 <= d < i :: table[k].declaration == decls[d] && LastNamed(decls[..i], k, d)
    {
      var f := new PloxFunction(decls[i], closure, decls[i].name.symbol == InitName);
      table := table[decls[i].name.symbol := f];
    }
  }
}
