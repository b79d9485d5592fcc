/**
 * The environment (src/interpreter/stack.rs): a map of local bindings and an
 * optional parent environment that lookups fall back to.
 */
module Stacks {
  import opened Wrappers
  import opened Idents
  import opened Types

  /**
   * The value of a `Stack`. The source's stack is cloned into every evaluation
   * context, so it is a value here; the `Stack` class below is the mutable
   * object `run` updates in place.
   */
  datatype Env = Env(symbols: map<Ident, Type>, parent: Option<Env>) {

    /** `get`: the local binding if there is one, else the parent's answer. */
    function Get(name: Ident): Option<Type>
      decreases this
    {
      if name in symbols then Some(symbols[name])
      else if parent.Some? then parent.value.Get(name)
      else None
    }

    /** `set`: insert or overwrite in the local map only. */
    function Set(name: Ident, value: Type): Env {
      Env(symbols[name := value], parent)
    }

    /** `combine`: extend the local map with the other's, the other's values winning. */
    function Combine(other: Env): Env {
      Env(symbols + other.symbols, parent)
    }
  }

  /** `Stack::new`: no local bindings. */
  function NewEnv(parent: Option<Env>): Env {
    Env(map[], parent)
  }

  /** Every name bound anywhere along the parent chain. */
  ghost function BoundNames(e: Env): set<Ident>
    decreases e
  {
    e.symbols.Keys + if e.parent.Some? then BoundNames(e.parent.value) else {}
  }

  /** A lookup succeeds exactly for the names some environment along the chain binds. */
  lemma {:induction false} GetSomeIffBound(e: Env, name: Ident)
    ensures e.Get(name).Some? <==> name in BoundNames(e)
    decreases e
  {
    if name !in e.symbols && e.parent.Some? {
      GetSomeIffBound(e.parent.value, name);
    }
  }

  /** A lookup finds the binding nearest along the chain: local first, then the parent's. */
  lemma {:induction false} GetFindsNearest(e: Env, name: Ident)
    ensures name in e.symbols ==> e.Get(name) == Some(e.symbols[name])
    ensures name !in e.symbols && e.parent.Some? ==> e.Get(name) == e.parent.value.Get(name)
    ensures name !in BoundNames(e) ==> e.Get(name).None?
  {
    GetSomeIffBound(e, name);
  }

  /** After `set(n, v)`, `get(n)` is `v` and every other name reads as before; the parent is untouched. */
  lemma SetLaws(e: Env, n: Ident, v: Type, m: Ident)
    ensures e.Set(n, v).Get(n) == Some(v)
    ensures m != n ==> e.Set(n, v).Get(m) == e.Get(m)
    ensures e.Set(n, v).parent == e.parent
  {
  }

  /** A local binding hides any binding of the same name further up the chain. */
  lemma LocalShadowsParent(n: Ident, v: Type, parent: Env)
    ensures NewEnv(Some(parent)).Set(n, v).Get(n) == Some(v)
    ensures NewEnv(Some(parent)).Get(n) == parent.Get(n)
  {
  }

  /**
   * After `combine(other)`, the other's names read the other's local values,
   * names only local to self keep theirs, and the parent is self's.
   */
  lemma CombineLaws(e: Env, other: Env, n: Ident)
    ensures n in other.symbols ==> e.Combine(other).Get(n) == Some(other.symbols[n])
    ensures n !in other.symbols ==> e.Combine(other).Get(n) == e.Get(n)
    ensures e.Combine(other).parent == e.parent
    ensures e.Combine(other).symbols.Keys == e.symbols.Keys + other.symbols.Keys
  {
  }

  /** A fresh environment without a parent binds nothing. */
  lemma NewWithoutParentBindsNothing(n: Ident)
    ensures NewEnv(None).Get(n) == None
    ensures BoundNames(NewEnv(None)) == {}
  {
  }

  /** The mutable stack `run` seeds with the built-in names. */
  class Stack {
    var symbols: map<Ident, Type>
    var parentStack: Option<Env>

    /** The value this object currently holds. */
    function Model(): Env
      reads this
    {
      Env(symbols, parentStack)
    }

    /** `Stack::new`. */
    constructor (parentStack: Option<Env>)
      ensures Model() == NewEnv(parentStack)
    {
      this.symbols := map[];
      this.parentStack := parentStack;
    }

    /** An object holding a given environment, as `run` takes ownership of the stack it is handed. */
    constructor FromEnv(e: Env)
      ensures Model() == e
    {
      this.symbols := e.symbols;
      this.parentStack := e.parent;
    }

    /** `set`, in place. */
    method Set(name: Ident, value: Type)
      modifies this
      ensures Model() == old(Model()).Set(name, value)
      ensures Model().Get(name) == Some(value)
    {
      symbols := symbols[name := value];
    }

    /** `combine`, in place. */
    method Combine(other: Env)
      modifies this
      ensures Model() == old(Model()).Combine(other)
    {
      symbols := symbols + other.symbols;
    }
  }
}
