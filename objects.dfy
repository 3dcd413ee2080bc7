/**
 * Runtime values and the callable objects: user functions with their
 * closure, anonymous functions, classes with a method table and an
 * optional superclass, and instances with a mutable field map.
 */
module Objects {
  import opened Tokens
  import opened Syntax
  import opened Environment

  /** The names the runtime binds implicitly. */
  const InitName := "init"
  const SelfName := "self"
  const SuperName := "super"
  /** The name an initializer's result is read back from (see `CallResult`). */
  const ThisName := "this"

  /** The two host functions the global scope starts with: the wall clock and print. */
  datatype Native = Clock | Print

  datatype Value =
    | NoneV
    | BoolV(b: bool)
    | NumV(n: real)
    | StrV(s: string)
    | FunctionV(func: PloxFunction)
    | AnonV(anon: PloxAnonymFunction)
    | ClassV(klass: PloxClass)
    | InstanceV(instance: PloxInstance)
    | NativeV(native: Native)

  /**
   * How evaluation ends: a value; a language runtime error, which the
   * top level reports; a host-language failure, which the top level does
   * not catch; or the evaluation budget running out.
   */
  datatype Outcome<T> =
    | Ok(value: T)
    | Thrown(token: Token, message: string)
    | Crashed(reason: string)
    | Exhausted
  {
    predicate IsFailure() { !Ok? }
    function PropagateFailure<U>(): Outcome<U>
      requires !Ok?
    {
      match this
      case Thrown(t, m) => Thrown(t, m)
      case Crashed(m) => Crashed(m)
      case Exhausted => Exhausted
    }
    function Extract(): T
      requires Ok?
    {
      value
    }
  }

  /** How a statement ends when nothing is raised: normally, or by `return` with a value. */
  datatype Completion = Normal | Returned(value: Value)

  function UndefinedProperty(name: string): string {
    "undefined property '" + name + "'."
  }

  /**
   * The map a call frame starts with: each parameter's name bound to the
   * argument at the same position, a later parameter of the same name
   * overriding an earlier one.
   */
  function Bindings(params: seq<Token>, arguments: seq<Value>): (m: map<string, Value>)
    requires |params| <= |arguments|
    ensures m.Keys == set i | 0 <= i < |params| :: params[i].symbol
  {
    if |params| == 0 then map[]
    else Bindings(params[..|params| - 1], arguments)[params[|params| - 1].symbol := arguments[|params| - 1]]
  }

  /** Parameter `i` is bound to argument `i` unless a later parameter has the same name. */
  lemma {:induction false} BindingsAt(params: seq<Token>, arguments: seq<Value>, i: nat)
    requires |params| <= |arguments| && i < |params|
    requires forall j | i < j < |params| :: params[j].symbol != params[i].symbol
    ensures Bindings(params, arguments)[params[i].symbol] == arguments[i]
    decreases |params|
  {
    if i < |params| - 1 {
      BindingsAt(params[..|params| - 1], arguments, i);
    }
  }

  /** Every value a frame starts with is one of the arguments. */
  lemma {:induction false} BindingsValues(params: seq<Token>, arguments: seq<Value>)
    requires |params| <= |arguments|
    ensures forall k | k in Bindings(params, arguments) :: Bindings(params, arguments)[k] in arguments
    decreases |params|
  {
    if |params| > 0 {
      BindingsValues(params[..|params| - 1], arguments);
    }
  }

  /**
   * A call frame: a fresh environment enclosing `closure` in which the
   * parameters are bound to the arguments in order.
   */
  method NewFrame(closure: Env<Value>, params: seq<Token>, arguments: seq<Value>) returns (frame: Env<Value>)
    requires closure.Chained() && |params| <= |arguments|
    ensures fresh(frame) && frame.enclosing == closure && frame.Chained()
    ensures frame.values == Bindings(params, arguments)
  {
    frame := new Env(closure);
    for i := 0 to |params|
      invariant frame.values == Bindings(params[..i], arguments)
    {
      assert params[..i + 1][..i] == params[..i];
      frame.Define(params[i].symbol, arguments[i]);
    }
    assert params[..|params|] == params;
  }

  class PloxFunction {
    const declaration: FunctionDecl
    const closure: Env<Value>
    const isInitializer: bool

    constructor (declaration: FunctionDecl, closure: Env<Value>, isInitializer: bool)
      ensures this.declaration == declaration && this.closure == closure && this.isInitializer == isInitializer
    {
      this.declaration := declaration;
      this.closure := closure;
      this.isInitializer := isInitializer;
    }

    /**
     * The same function with `self` bound: a fresh closure enclosing the
     * old one and holding only `self`; the original is untouched.
     */
    method Bind(instance: Value) returns (f: PloxFunction)
      requires closure.Chained()
      ensures fresh(f) && fresh(f.closure)
      ensures f.declaration == declaration && f.isInitializer == isInitializer
      ensures f.closure.enclosing == closure && f.closure.Chained() && f.closure.values == map[SelfName := instance]
    {
      var env := new Env(closure);
      env.Define(SelfName, instance);
      f := new PloxFunction(declaration, env, isInitializer);
    }

    /**
     * What a call yields once the body has run: for an initializer, the
     * closure's own `self` after a `return` and its own `this` otherwise
     * (none when absent); for any other function, the returned value, or
     * none when the body completes.
     */
    function CallResult(completion: Completion): (r: Value)
      reads closure
      ensures !isInitializer ==> r == if completion.Returned? then completion.value else NoneV
      ensures isInitializer ==>
                var name := if completion.Returned? then SelfName else ThisName;
                r == if name in closure.values then closure.values[name] else NoneV
    {
      if isInitializer then
        var name := if completion.Returned? then SelfName else ThisName;
        if name in closure.values then closure.values[name] else NoneV
      else if completion.Returned? then completion.value
      else NoneV
    }
  }

  /**
   * An initializer bound to an instance yields that instance after an
   * explicit `return`, but none when its body completes: the closure that
   * binding creates holds `self` and never `this`.
   */
  lemma BoundInitializerResult(g: PloxFunction, instance: Value, v: Value)
    requires g.isInitializer && g.closure.values == map[SelfName := instance]
    ensures g.CallResult(Returned(v)) == instance
    ensures g.CallResult(Normal) == NoneV
  {
  }

  class PloxAnonymFunction {
    const params: seq<Token>
    const body: seq<Stmt>
    const closure: Env<Value>

    constructor (params: seq<Token>, body: seq<Stmt>, closure: Env<Value>)
      ensures this.params == params && this.body == body && this.closure == closure
    {
      this.params := params;
      this.body := body;
      this.closure := closure;
    }
  }

  class PloxClass {
    const name: string
    const methods: map<string, PloxFunction>
    const superclass: PloxClass?
    ghost const height: nat

    /** The superclass chain is finite, and every method's closure is a proper environment chain. */
    ghost predicate Linked()
      decreases height
    {
      (forall k | k in methods :: methods[k].closure.Chained()) &&
      (superclass != null ==> superclass.height < height && superclass.Linked())
    }

    /** Whatever method lookup finds has a proper closure. */
    lemma {:induction false} FoundMethodReady(name: string)
      requires Linked() && FindMethod(name).Some?
      ensures FindMethod(name).value.closure.Chained()
      decreases height
    {
      if name !in methods {
        superclass.FoundMethodReady(name);
      }
    }

    constructor (name: string, methods: map<string, PloxFunction>, superclass: PloxClass?)
      requires forall k | k in methods :: methods[k].closure.Chained()
      requires superclass != null ==> superclass.Linked()
      ensures this.name == name && this.methods == methods && this.superclass == superclass && Linked()
    {
      this.name := name;
      this.methods := methods;
      this.superclass := superclass;
      height := if superclass == null then 0 else superclass.height + 1;
    }

    /** The method tables of this class and then of each superclass outwards. */
    ghost function Tables(): (t: seq<map<string, PloxFunction>>)
      requires Linked()
      ensures |t| > 0 && t[0] == methods
      ensures superclass != null ==> t[1..] == superclass.Tables()
      ensures superclass == null ==> |t| == 1
      decreases height
    {
      [methods] + if superclass == null then [] else superclass.Tables()
    }

    /**
     * The method named `name` in the nearest class of the superclass chain
     * that defines it, or None when none does.
     */
    function FindMethod(name: string): (r: Option<PloxFunction>)
      requires Linked()
      ensures Nearest(Tables(), name).None? <==> r.None?
      ensures Nearest(Tables(), name).Some? ==> r == Some(Tables()[Nearest(Tables(), name).value][name])
      decreases height
    {
      if name in methods then Some(methods[name])
      else if superclass != null then
        ghost var t := Tables();
        assert t == [methods] + superclass.Tables();
        superclass.FindMethod(name)
      else None
    }

    /** The parameter count of `init` as found along the chain, or 0 when there is none. */
    function Arity(): (n: nat)
      requires Linked()
      ensures Nearest(Tables(), InitName).None? ==> n == 0
      ensures Nearest(Tables(), InitName).Some? ==> n == |Tables()[Nearest(Tables(), InitName).value][InitName].declaration.params|
    {
      var initializer := FindMethod(InitName);
      if initializer.None? then 0 else |initializer.value.declaration.params|
    }
  }

  /** A class's own method overrides any inherited one of the same name. */
  lemma OwnMethodOverrides(c: PloxClass, name: string)
    requires c.Linked() && name in c.methods
    ensures c.FindMethod(name) == Some(c.methods[name])
  {
  }

  /** A method the class does not define is looked up in the superclass, as is its absence. */
  lemma InheritedMethod(c: PloxClass, name: string)
    requires c.Linked() && name !in c.methods && c.superclass != null
    ensures c.FindMethod(name) == c.superclass.FindMethod(name)
  {
    assert c.Tables() == [c.methods] + c.superclass.Tables();
  }

  class PloxInstance {
    const klass: PloxClass
    var fields: map<string, Value>

    constructor (klass: PloxClass)
      ensures this.klass == klass && fields == map[]
    {
      this.klass := klass;
      fields := map[];
    }

    /** Writes one field and no other. */
    method Set(name: Token, value: Value)
      modifies this
      ensures fields == old(fields)[name.symbol := value]
    {
      fields := fields[name.symbol := value];
    }
  }
}
