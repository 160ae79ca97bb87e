/** Scopes as bucketed symbol chains with parent links (src/symbol.c:6-45), and the stack of scopes that
    the semantic pass opens and closes (src/sema.c:514-526, src/sema.c:597-606). */
module Scopes {
  import opened Ast
  import opened Fnv

  const ScopeBuckets := 32

  class Symbol {
    const name: string
    var next: Symbol?

    constructor (name: string)
      ensures this.name == name && next == null
    {
      this.name := name;
      next := null;
    }
  }

  function Slot(name: string): (i: nat)
    ensures i < ScopeBuckets
  {
    HashText(Basis32, name) % ScopeBuckets
  }

  // ---- the list environments that scopes refine ----

  /** The latest binding of a name in a list, newest first. */
  ghost function Find(binds: seq<Symbol>, name: string): Symbol? {
    if binds == [] then null
    else if binds[0].name == name then binds[0]
    else Find(binds[1..], name)
  }

  /** The binding in the nearest list that has one. */
  ghost function Resolve(env: seq<seq<Symbol>>, name: string): Symbol? {
    if env == [] then null
    else if Find(env[0], name) != null then Find(env[0], name)
    else Resolve(env[1..], name)
  }

  /** The part of a list that falls into one bucket, in order. */
  ghost function Bucket(binds: seq<Symbol>, i: nat): (r: seq<Symbol>)
    ensures forall k :: 0 <= k < |r| ==> r[k] in binds
  {
    if binds == [] then []
    else (if Slot(binds[0].name) == i then [binds[0]] else []) + Bucket(binds[1..], i)
  }

  /** Looking in one bucket is looking in the whole list. */
  lemma {:induction false} FindInBucket(binds: seq<Symbol>, name: string, i: nat)
    requires i == Slot(name)
    ensures Find(Bucket(binds, i), name) == Find(binds, name)
  {
    if binds != [] {
      FindInBucket(binds[1..], name, i);
      var rest := Bucket(binds[1..], i);
      if binds[0].name == name {
        assert Bucket(binds, i)[0] == binds[0];
      } else if Bucket(binds, i) != rest {
        assert Bucket(binds, i)[0] == binds[0] && Bucket(binds, i)[1..] == rest;
      } else {
        assert Find(Bucket(binds, i), name) == Find(rest, name);
      }
    }
  }

  class Scope {
    const parent: Scope?
    const buckets: array<Symbol?>
    var children: Scope?
    var nextSibling: Scope?
    ghost var binds: seq<Symbol>       // everything inserted, newest first
    ghost var Repr: set<object>

    ghost predicate Valid()
      reads this, Repr
      ensures Valid() ==> this in Repr
    {
      && this in Repr && buckets in Repr && (forall b :: b in binds ==> b in Repr)
      && buckets.Length == ScopeBuckets && Chained()
    }

    /** The pointers of each bucket spell out its part of the bindings. */
    ghost predicate Chained()
      requires buckets.Length == ScopeBuckets
      reads this`binds, buckets, binds
    {
      forall i :: 0 <= i < ScopeBuckets ==> var chain := Bucket(binds, i); buckets[i] == First(chain) && Linked(chain)
    }

    constructor (parent: Scope?, nextSibling: Scope?)
      ensures Valid() && fresh(Repr) && this.parent == parent && this.nextSibling == nextSibling && binds == []
    {
      this.parent := parent;
      buckets := new Symbol?[ScopeBuckets](_ => null);
      children := null;
      this.nextSibling := nextSibling;
      binds := [];
      Repr := {this, buckets};
    }

    method Insert(sym: Symbol)
      requires Valid() && sym !in Repr
      modifies this`binds, this`Repr, buckets, sym
      ensures Valid() && binds == [sym] + old(binds) && Repr == old(Repr) + {sym}
    {
      hide Slot, Linked, First;
      var h := Slot(sym.name);
      ghost var before, chain := binds, Bucket(binds, h);
      assert sym !in before;
      sym.next := buckets[h];
      buckets[h] := sym;
      binds := [sym] + binds;
      Repr := Repr + {sym};
      assert binds[1..] == before;
      forall i | 0 <= i < ScopeBuckets ensures buckets[i] == First(Bucket(binds, i)) && Linked(Bucket(binds, i)) {
        if i == h {
          LinkedPush(sym, chain);
        } else {
          assert Bucket(binds, i) == Bucket(before, i);
        }
      }
    }

    method AddChild(s: Scope)
      requires Valid()
      modifies this`children
      ensures Valid() && children == s
    {
      children := s;
    }

    method LookupCurrent(name: string) returns (r: Symbol?)
      requires Valid()
      ensures r == Find(binds, name)
    {
      hide Slot;
      var h := Slot(name);
      ghost var chain := Bucket(binds, h);
      FindInBucket(binds, name, h);
      r := buckets[h];
      while r != null
        invariant Linked(chain) && r == First(chain) && Find(chain, name) == Find(binds, name)
        decreases |chain|
      {
        if r.name == name { return; }
        r := r.next;
        chain := chain[1..];
      }
    }
  }

  ghost function First(chain: seq<Symbol>): Symbol? {
    if chain == [] then null else chain[0]
  }

  /** The pointers spell out the chain. */
  ghost predicate Linked(chain: seq<Symbol>)
    reads chain
  {
    chain == [] || (chain[0].next == First(chain[1..]) && Linked(chain[1..]))
  }

  lemma {:induction false} LinkedPush(sym: Symbol, chain: seq<Symbol>)
    requires Linked(chain) && sym.next == First(chain)
    ensures Linked([sym] + chain) && First([sym] + chain) == sym
  {
    assert ([sym] + chain)[1..] == chain;
  }

  /** The current scope of the semantic pass; the ghost stack lists it and its ancestors. */
  class ScopeStack {
    var current: Scope
    ghost var stack: seq<Scope>
    ghost var repr: set<object>       // the memory of all scopes on the stack

    ghost predicate Valid()
      reads this, repr
    {
      && |stack| > 0 && stack[0] == current && this !in repr
      && (forall i :: 0 <= i < |stack| ==> stack[i] in repr && stack[i].Repr <= repr && stack[i].Valid())
      && (forall i :: 0 <= i < |stack| ==> stack[i].parent == ScopeAt(stack, i + 1))
      && (forall i, j :: 0 <= i < j < |stack| ==> stack[i].Repr !! stack[j].Repr)
    }

    /** The list environment: one list of bindings for each open scope, innermost first. */
    ghost function View(): (env: seq<seq<Symbol>>)
      reads this, stack
      ensures |env| == |stack|
    {
      Views(stack)
    }

    constructor ()
      ensures Valid() && View() == [[]] && fresh(repr)
    {
      var root := new Scope(null, null);
      current := root;
      stack := [root];
      repr := root.Repr;
    }

    /** Opening a scope adds an empty list in front; the parent's list of children gets a new head. */
    method Open()
      requires Valid()
      modifies this, current`children
      ensures Valid() && stack == [current] + old(stack) && fresh(repr - old(repr))
      ensures View() == [[]] + old(View())
      ensures old(current).children == current && current.nextSibling == old(current.children)
    {
      hide Scope.Valid, Valid;
      var s := new Scope(current, current.children);
      Adopt(s);
      Enter(s);
    }

    /** The new scope heads the current scope's list of children. */
    method Adopt(s: Scope)
      requires Valid()
      modifies current`children
      ensures Valid() && current.children == s && View() == old(View())
    {
      hide Scope.Valid;
      current.AddChild(s);
      forall i | 1 <= i < |stack| ensures stack[i].Valid() && stack[i].Repr == old(stack[i].Repr) {
        assert stack[0].Repr !! stack[i].Repr;
      }
    }

    /** A fresh scope becomes the current one. */
    method Enter(s: Scope)
      requires Valid() && s.Valid() && s.parent == current && s.binds == [] && s.Repr !! repr && this !in s.Repr
      modifies this
      ensures Valid() && current == s && stack == [s] + old(stack) && repr == old(repr) + s.Repr
      ensures View() == [[]] + old(View())
    {
      hide Scope.Valid;
      repr := repr + s.Repr;
      stack := [s] + stack;
      current := s;
    }

    /** The pass returns to the scope that was current before: the parent. */
    method Close()
      requires Valid() && |stack| > 1
      modifies this
      ensures Valid() && stack == old(stack)[1..] && repr == old(repr)
      ensures View() == old(View())[1..]
    {
      assert current.parent == stack[1];
      current := current.parent;
      stack := stack[1..];
    }

    method Insert(sym: Symbol)
      requires Valid() && sym !in repr
      modifies this`repr, current`binds, current`Repr, current.buckets, sym
      ensures Valid() && stack == old(stack) && repr == old(repr) + {sym}
      ensures View() == [[sym] + old(View())[0]] + old(View())[1..]
    {
      InsertCurrent(sym);
    }

    method InsertCurrent(sym: Symbol)
      requires Valid() && sym !in repr
      modifies this`repr, current`binds, current`Repr, current.buckets, sym
      ensures Valid() && stack == old(stack) && repr == old(repr) + {sym}
      ensures current.binds == [sym] + old(current.binds)
      ensures forall i :: 1 <= i < |stack| ==> stack[i].binds == old(stack[i].binds)
    {
      current.Insert(sym);
      repr := repr + {sym};
      forall i | 1 <= i < |stack| ensures stack[i].Valid() && stack[i].Repr == old(stack[i].Repr) {
        assert old(stack[0].Repr !! stack[i].Repr);
      }
    }

    /** Lookup through the parent links is resolution in the list environment. */
    method Lookup(name: string) returns (r: Symbol?)
      requires Valid()
      ensures r == Resolve(View(), name)
    {
      var s: Scope? := current;
      ghost var k := 0;
      while s != null
        invariant k <= |stack| && s == ScopeAt(stack, k)
        invariant Resolve(View()[k..], name) == Resolve(View(), name)
        decreases |stack| - k
      {
        r := s.LookupCurrent(name);
        if r != null { return; }
        assert View()[k..][1..] == View()[k + 1..];
        s, k := s.parent, k + 1;
      }
      r := null;
    }
  }

  ghost function ScopeAt(stack: seq<Scope>, k: nat): Scope? {
    if k < |stack| then stack[k] else null
  }

  ghost function Views(stack: seq<Scope>): (env: seq<seq<Symbol>>)
    reads stack
    ensures |env| == |stack|
    ensures forall i :: 0 <= i < |stack| ==> env[i] == stack[i].binds
  {
    seq(|stack|, i requires 0 <= i < |stack| reads stack => stack[i].binds)
  }

  // ---- whole sequences of openings, insertions and closings ----

  datatype Step = OpenScope | Bind(sym: Symbol) | CloseScope

  /** The effect of a step on the list environment. */
  ghost function After(env: seq<seq<Symbol>>, step: Step): Option<seq<seq<Symbol>>> {
    match step
    case OpenScope => Some([[]] + env)
    case Bind(sym) => if env == [] then None else Some([[sym] + env[0]] + env[1..])
    case CloseScope => if env == [] then None else Some(env[1..])
  }

  ghost function Play(env: seq<seq<Symbol>>, steps: seq<Step>): Option<seq<seq<Symbol>>>
    decreases |steps|
  {
    if steps == [] then Some(env)
    else
      var next := After(env, steps[0]);
      if next.None? then None else Play(next.value, steps[1..])
  }

  /** The global scope is never closed. */
  predicate Legal(steps: seq<Step>, depth: nat)
    decreases |steps|
  {
    depth > 0 && (steps == [] || Legal(steps[1..], if steps[0].OpenScope? then depth + 1 else if steps[0].CloseScope? then depth - 1 else depth))
  }

  /** The symbols that are bound, each of them a new one. */
  ghost function Bound(steps: seq<Step>): set<Symbol> {
    if steps == [] then {} else (if steps[0].Bind? then {steps[0].sym} else {}) + Bound(steps[1..])
  }

  lemma {:induction false} BoundSomewhere(steps: seq<Step>, sym: Symbol)
    requires sym in Bound(steps)
    ensures exists i :: 0 <= i < |steps| && steps[i] == Bind(sym)
  {
    if steps[0] != Bind(sym) {
      BoundSomewhere(steps[1..], sym);
      var i :| 0 <= i < |steps| - 1 && steps[1..][i] == Bind(sym);
      assert steps[i + 1] == Bind(sym);
    }
  }

  ghost predicate Apart(steps: seq<Step>)
    decreases |steps|
  {
    steps == [] || ((steps[0].Bind? ==> steps[0].sym !in Bound(steps[1..])) && Apart(steps[1..]))
  }

  ghost function New(step: Step): set<Symbol> {
    if step.Bind? then {step.sym} else {}
  }

  /** One step on the scopes. */
  method Perform(scopes: ScopeStack, step: Step)
    requires scopes.Valid() && (step.CloseScope? ==> |scopes.stack| > 1) && New(step) !! scopes.repr
    modifies scopes, scopes.repr, New(step)
    ensures scopes.Valid() && After(old(scopes.View()), step) == Some(scopes.View())
    ensures fresh(scopes.repr - old(scopes.repr) - New(step))
  {
    hide ScopeStack.Valid;
    Parts(scopes);
    match step {
      case OpenScope => scopes.Open();
      case Bind(sym) => scopes.Insert(sym);
      case CloseScope => scopes.Close();
    }
  }

  lemma Parts(scopes: ScopeStack)
    requires scopes.Valid()
    ensures scopes.current in scopes.repr && scopes.current.buckets in scopes.repr && scopes !in scopes.repr
  {
  }

  /** Running the steps on the scopes plays them on the list environment. */
  method Run(scopes: ScopeStack, steps: seq<Step>)
    requires scopes.Valid() && Legal(steps, |scopes.View()|) && Apart(steps) && Bound(steps) !! scopes.repr
    modifies scopes, scopes.repr, Bound(steps)
    ensures scopes.Valid() && Play(old(scopes.View()), steps) == Some(scopes.View())
    decreases |steps|
  {
    hide ScopeStack.Valid, ScopeStack.View;
    if steps == [] { return; }
    ghost var later := Bound(steps[1..]);
    assert Bound(steps) == New(steps[0]) + later;
    Perform(scopes, steps[0]);
    forall sym | sym in later ensures sym !in scopes.repr {
      BoundSomewhere(steps[1..], sym);
    }
    Run(scopes, steps[1..]);
  }

  /** With `open` scopes of its own open, the sequence binds only in its own scopes and closes them all. */
  predicate Nested(steps: seq<Step>, open: nat) {
    if steps == [] then open == 0
    else
      match steps[0]
      case OpenScope => Nested(steps[1..], open + 1)
      case Bind(_) => open > 0 && Nested(steps[1..], open)
      case CloseScope => open > 0 && Nested(steps[1..], open - 1)
  }

  /** Closing restores: after a nested sequence every name resolves as before. */
  lemma {:induction false} NestedRestores(own: seq<seq<Symbol>>, env: seq<seq<Symbol>>, steps: seq<Step>)
    requires Nested(steps, |own|)
    ensures Play(own + env, steps) == Some(env)
    decreases |steps|
  {
    if steps == [] {
      assert own + env == env;
    } else {
      match steps[0] {
        case OpenScope =>
          assert [[]] + (own + env) == ([[]] + own) + env;
          NestedRestores([[]] + own, env, steps[1..]);
        case Bind(sym) =>
          var own' := [[sym] + own[0]] + own[1..];
          assert [[sym] + (own + env)[0]] + (own + env)[1..] == own' + env;
          NestedRestores(own', env, steps[1..]);
        case CloseScope =>
          assert (own + env)[1..] == own[1..] + env;
          NestedRestores(own[1..], env, steps[1..]);
      }
    }
  }
}
