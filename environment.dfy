/**
 * Runtime scopes: each environment owns a mutable map from names to
 * values and points at the environment that encloses it. The chain of
 * enclosing environments never changes after construction and never
 * cycles; `depth` strictly decreases along it.
 */
module Environment {
  import opened Tokens

  /** The result of a lookup by name: the value, or the runtime error the source raises. */
  datatype Fetched<V> = Found(value: V) | Undefined(token: Token, message: string)

  /**
   * The result of a lookup at a resolved depth: the value, nothing under
   * that name, or no environment that far out (the source then fails on
   * attribute access of a missing object).
   */
  datatype Slot<V> = Held(value: V) | Empty | NoScope

  function UndefinedVariable(name: string): string {
    "Undefined variable '" + name + "'."
  }

  class Env<V> {
    var values: map<string, V>
    const enclosing: Env?<V>
    ghost const depth: nat

    /** The enclosing chain is finite: depth strictly decreases along it. */
    ghost predicate Chained()
      decreases depth
    {
      enclosing != null ==> enclosing.depth < depth && enclosing.Chained()
    }

    /** This environment, then each enclosing one outwards. */
    ghost function Ancestry(): (a: seq<Env<V>>)
      requires Chained()
      ensures |a| > 0 && a[0] == this
      decreases depth
    {
      [this] + if enclosing == null then [] else enclosing.Ancestry()
    }

    /** The environments of the chain, as a frame. */
    ghost function Chain(): set<Env<V>>
      requires Chained()
    {
      set e | e in Ancestry()
    }

    constructor (enclosing: Env?<V>)
      requires enclosing != null ==> enclosing.Chained()
      ensures values == map[] && this.enclosing == enclosing && Chained()
      ensures Ancestry() == [this] + if enclosing == null then [] else enclosing.Ancestry()
    {
      values := map[];
      this.enclosing := enclosing;
      depth := if enclosing == null then 0 else enclosing.depth + 1;
    }

    /** Every environment of the chain exists in the current heap. */
    lemma {:induction false} AncestryAllocated()
      requires Chained()
      ensures forall e | e in Ancestry() :: allocated(e)
      decreases depth
    {
      if enclosing != null {
        enclosing.AncestryAllocated();
      }
    }

    /** The environment `k` steps out exists in the current heap. */
    lemma {:induction false} AncestorAllocated(k: nat)
      requires Chained() && k < |Ancestry()|
      ensures allocated(Ancestry()[k])
      decreases depth
    {
      if k > 0 {
        enclosing.AncestorAllocated(k - 1);
      }
    }

    /** Every member of the chain is itself chained and owns the rest of the chain as its ancestry. */
    lemma {:induction false} AncestrySuffix(k: nat)
      requires Chained() && k < |Ancestry()|
      ensures Ancestry()[k].Chained() && Ancestry()[k].Ancestry() == Ancestry()[k..]
      ensures Ancestry()[k].enclosing == if k + 1 < |Ancestry()| then Ancestry()[k + 1] else null
      decreases depth
    {
      if k > 0 {
        enclosing.AncestrySuffix(k - 1);
        assert Ancestry()[k] == enclosing.Ancestry()[k - 1];
        assert Ancestry()[k..] == enclosing.Ancestry()[k - 1..];
      }
    }

    /** The chain holds no environment twice: depths strictly decrease along it. */
    lemma {:induction false} AncestryDistinct()
      requires Chained()
      ensures forall j, k | 0 <= j < k < |Ancestry()| :: Ancestry()[j].depth > Ancestry()[k].depth
      ensures forall j, k | 0 <= j < k < |Ancestry()| :: Ancestry()[j] != Ancestry()[k]
      decreases depth
    {
      if enclosing != null {
        enclosing.AncestryDistinct();
        var a := Ancestry();
        forall j, k | 0 <= j < k < |a|
          ensures a[j].depth > a[k].depth
        {
          if j > 0 {
            assert a[j] == enclosing.Ancestry()[j - 1] && a[k] == enclosing.Ancestry()[k - 1];
          } else {
            AncestrySuffix(k);
            DepthBelow(k);
          }
        }
      }
    }

    /** No environment of the chain is deeper than its start. */
    lemma {:induction false} DepthBound()
      requires Chained()
      ensures forall e | e in Ancestry() :: e.depth <= depth
      decreases depth
    {
      if enclosing != null {
        enclosing.DepthBound();
      }
    }

    /** Every strict ancestor is shallower than this environment. */
    lemma {:induction false} DepthBelow(k: nat)
      requires Chained() && 0 < k < |Ancestry()|
      ensures Ancestry()[k].depth < depth
      decreases depth
    {
      if k > 1 {
        enclosing.DepthBelow(k - 1);
      }
    }

    /** The maps of the chain, this environment's first. */
    ghost function Scopes(): (s: seq<map<string, V>>)
      requires Chained()
      reads Chain()
      ensures |s| == |Ancestry()| && forall j | 0 <= j < |s| :: s[j] == Ancestry()[j].values
      decreases depth
    {
      if enclosing == null then [values]
      else
        assert forall e | e in enclosing.Ancestry() :: e in Ancestry();
        [values] + enclosing.Scopes()
    }

    /** Binds `name` in this environment's own map, replacing any earlier value. */
    method Define(name: string, value: V)
      modifies this
      ensures values == old(values)[name := value]
    {
      values := values[name := value];
    }

    /**
     * The value of `name` in the nearest environment of the chain that
     * holds it, or the "Undefined variable" error when none does.
     */
    function Get(name: Token): (r: Fetched<V>)
      requires Chained()
      reads Chain()
      ensures Nearest(Scopes(), name.symbol).None? <==> r == Undefined(name, UndefinedVariable(name.symbol))
      ensures Nearest(Scopes(), name.symbol).Some? ==> r == Found(Scopes()[Nearest(Scopes(), name.symbol).value][name.symbol])
      decreases depth
    {
      if name.symbol in values then Found(values[name.symbol])
      else if enclosing != null then
        assert Ancestry() == [this] + enclosing.Ancestry();
        assert Scopes() == [values] + enclosing.Scopes();
        enclosing.Get(name)
      else Undefined(name, UndefinedVariable(name.symbol))
    }

    /** Replaces the value of a name this environment holds; only this scope changes. */
    method Overwrite(name: string, value: V)
      requires Chained() && name in values
      modifies this
      ensures values == old(values)[name := value]
      ensures Scopes() == Rebind(old(Scopes()), name, value)
    {
      ghost var a := Ancestry();
      ghost var s0 := Scopes();
      AncestryDistinct();
      AncestryAllocated();
      values := values[name := value];
      assert forall j | 1 <= j < |a| :: a[j].values == s0[j];
      assert Scopes() == s0[0 := s0[0][name := value]];
    }

    /**
     * Rebinds `name` in the nearest environment of the chain that holds it
     * and nowhere else; when none holds it, raises "Undefined variable"
     * and changes nothing.
     */
    method Assign(name: Token, value: V) returns (r: Fetched<()>)
      requires Chained()
      modifies Chain()
      ensures r.Undefined? <==> Nearest(old(Scopes()), name.symbol).None?
      ensures r.Undefined? ==> r == Undefined(name, UndefinedVariable(name.symbol))
      ensures Scopes() == Rebind(old(Scopes()), name.symbol, value)
      decreases depth
    {
      if name.symbol in values {
        Overwrite(name.symbol, value);
        return Found(());
      }
      ghost var s0 := Scopes();
      if enclosing != null {
        ghost var t0 := enclosing.Scopes();
        enclosing.DepthBound();
        assert this !in enclosing.Chain();
        assert s0 == [values] + t0;
        RebindCons(values, t0, name.symbol, value);
        r := enclosing.Assign(name, value);
        assert values == s0[0];
        assert Scopes() == [values] + enclosing.Scopes();
        return;
      }
      return Undefined(name, UndefinedVariable(name.symbol));
    }

    /**
     * Follows `enclosing` `distance` times (no times for a negative
     * distance). Exactly at the end of the chain the result is null; a
     * distance beyond it steps out of null, which fails (`failed`).
     */
    method Ancestor(distance: int) returns (e: Env?<V>, failed: bool)
      requires Chained()
      ensures distance < |Ancestry()| ==> !failed && e == Ancestry()[if distance < 0 then 0 else distance]
      ensures distance == |Ancestry()| ==> !failed && e == null
      ensures failed <==> distance > |Ancestry()|
      ensures failed ==> e == null
    {
      e := this;
      var k := 0;
      while k < distance
        invariant 0 <= k && (distance >= 0 ==> k <= distance) && (distance < 0 ==> k == 0)
        invariant k < |Ancestry()| ==> e == Ancestry()[k]
        invariant k >= |Ancestry()| ==> e == null && k == |Ancestry()|
        decreases distance - k
      {
        if e == null {
          return null, true;
        }
        AncestrySuffix(k);
        e := e.enclosing;
        k := k + 1;
      }
      failed := false;
    }

    /**
     * The value of `name` in the ancestor `distance` out, looking in that
     * map only: Empty when the name is absent there.
     */
    method GetAt(distance: int, name: string) returns (r: Slot<V>)
      requires Chained()
      ensures distance >= |Ancestry()| <==> r == NoScope
      ensures distance < |Ancestry()| ==>
                var scope := Ancestry()[if distance < 0 then 0 else distance].values;
                r == if name in scope then Held(scope[name]) else Empty
    {
      var e, _ := Ancestor(distance);
      if e == null {
        return NoScope;
      }
      r := if name in e.values then Held(e.values[name]) else Empty;
    }

    /**
     * Writes `name` into the ancestor `distance` out, whether or not the
     * name was there; false, changing nothing, when there is no such ancestor.
     */
    method AssignAt(distance: int, name: Token, value: V) returns (ok: bool)
      requires Chained()
      modifies Chain()
      ensures ok <==> distance < |old(Scopes())|
      ensures var d := if distance < 0 then 0 else distance;
              Scopes() == if ok then old(Scopes())[d := old(Scopes())[d][name.symbol := value]] else old(Scopes())
    {
      ghost var a := Ancestry();
      ghost var s0 := Scopes();
      AncestryDistinct();
      AncestryAllocated();
      var e, _ := Ancestor(distance);
      if e == null {
        return false;
      }
      ghost var d := if distance < 0 then 0 else distance;
      e.values := e.values[name.symbol := value];
      assert forall j | 0 <= j < |a| :: a[j].values == if j == d then s0[d][name.symbol := value] else s0[j];
      assert Scopes() == s0[d := s0[d][name.symbol := value]];
      return true;
    }
  }

  /**
   * The position of the first map holding `name`, counting from the
   * innermost scope, or None when none of them does.
   */
  function Nearest<V>(scopes: seq<map<string, V>>, name: string): (r: Option<nat>)
    ensures r.Some? ==> r.value < |scopes| && name in scopes[r.value]
    ensures r.Some? ==> forall j | 0 <= j < r.value :: name !in scopes[j]
    ensures r.None? <==> forall j | 0 <= j < |scopes| :: name !in scopes[j]
  {
    if |scopes| == 0 then None
    else if name in scopes[0] then Some(0)
    else
      var outer := Nearest(scopes[1..], name);
      assert forall j | 1 <= j < |scopes| :: scopes[j] == scopes[1..][j - 1];
      if outer.Some? then Some(outer.value + 1) else None
  }

  /** `scopes` with `name` rebound in the nearest map holding it; unchanged when none does. */
  function Rebind<V>(scopes: seq<map<string, V>>, name: string, value: V): (r: seq<map<string, V>>)
    ensures |r| == |scopes|
  {
    match Nearest(scopes, name)
    case None => scopes
    case Some(i) => scopes[i := scopes[i][name := value]]
  }

  /** Past a map without the name, lookup and rebinding act on the rest of the maps. */
  lemma RebindCons<V>(m: map<string, V>, rest: seq<map<string, V>>, name: string, value: V)
    requires name !in m
    ensures Nearest([m] + rest, name).None? <==> Nearest(rest, name).None?
    ensures Rebind([m] + rest, name, value) == [m] + Rebind(rest, name, value)
  {
    assert ([m] + rest)[1..] == rest;
  }

  /** After a rebinding, a lookup of the same name finds the new value, and every other name reads as before. */
  lemma RebindThenNearest<V>(scopes: seq<map<string, V>>, name: string, value: V, other: string)
    requires Nearest(scopes, name).Some?
    ensures var r := Rebind(scopes, name, value);
            Nearest(r, name) == Nearest(scopes, name) && r[Nearest(r, name).value][name] == value
    ensures other != name ==> Nearest(Rebind(scopes, name, value), other) == Nearest(scopes, other)
  {
    var i := Nearest(scopes, name).value;
    var r := Rebind(scopes, name, value);
    NearestUnique(r, name, i);
    if other != name {
      assert forall j | 0 <= j < |r| :: (other in r[j] <==> other in scopes[j]);
      NearestSameKeys(scopes, r, other);
    }
  }

  /** Nearest is the unique first holder. */
  lemma NearestUnique<V>(scopes: seq<map<string, V>>, name: string, i: nat)
    requires i < |scopes| && name in scopes[i] && forall j | 0 <= j < i :: name !in scopes[j]
    ensures Nearest(scopes, name) == Some(i)
  {
    var n := Nearest(scopes, name);
    assert n.Some?;
  }

  /** Nearest depends only on which maps hold the name. */
  lemma NearestSameKeys<V>(a: seq<map<string, V>>, b: seq<map<string, V>>, name: string)
    requires |a| == |b| && forall j | 0 <= j < |a| :: (name in a[j] <==> name in b[j])
    ensures Nearest(a, name) == Nearest(b, name)
  {
    var n := Nearest(a, name);
    if n.Some? {
      NearestUnique(b, name, n.value);
    }
  }
}
