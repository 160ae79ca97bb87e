/** The hashed method table of the semantic pass and the linear scan of the generator
    (src/sema.c:12-40, 248-261; src/codegen_c.c:34-48). */
module MethodTable {
  import opened Ast
  import opened Fnv

  /** A method of an extend declaration; `node` stands for its syntax node. */
  datatype Method = Method(name: string, node: nat)

  datatype Extend = Extend(target: string, methods: seq<Method>)

  datatype Key = Key(typeName: string, methodName: string)

  /** One declared method, with the type it extends. */
  datatype Declared = Declared(key: Key, node: nat)

  function DeclaredIn(target: string, methods: seq<Method>): seq<Declared> {
    if methods == [] then []
    else [Declared(Key(target, methods[0].name), methods[0].node)] + DeclaredIn(target, methods[1..])
  }

  /** All declared methods, in source order. */
  function Declarations(unit: seq<Extend>): seq<Declared> {
    if unit == [] then [] else DeclaredIn(unit[0].target, unit[0].methods) + Declarations(unit[1..])
  }

  /** The first declaration with a key. */
  function First(ds: seq<Declared>, k: Key): Option<nat> {
    if ds == [] then None else if ds[0].key == k then Some(ds[0].node) else First(ds[1..], k)
  }

  /** The last declaration with a key. */
  function Latest(ds: seq<Declared>, k: Key): Option<nat> {
    if ds == [] then None
    else if ds[|ds| - 1].key == k then Some(ds[|ds| - 1].node)
    else Latest(ds[..|ds| - 1], k)
  }

  // ---- the hashed table ----

  const Buckets := 64
  const Word64 := 0x1_0000_0000_0000_0000
  const Basis64 := 0xcbf29ce484222325
  const Prime64 := 0x100000001b3

  function HashFrom(h: nat, text: string): nat
    decreases |text|
  {
    if text == "" then h else HashFrom(Xor(h, text[0] as nat % 256) * Prime64 % Word64, text[1..])
  }

  function Slot(k: Key): (i: nat)
    ensures i < Buckets
  {
    HashFrom(HashFrom(Basis64, k.typeName), k.methodName) % Buckets
  }

  class Entry {
    const decl: Declared
    const next: Entry?

    constructor (decl: Declared, next: Entry?)
      ensures this.decl == decl && this.next == next
    {
      this.decl := decl;
      this.next := next;
    }
  }

  /** The entries of a chain spell out the declarations of a list, newest first. */
  ghost predicate Chain(e: Entry?, ds: seq<Declared>)
    decreases |ds|
  {
    if ds == [] then e == null
    else e != null && e.decl == ds[|ds| - 1] && Chain(e.next, ds[..|ds| - 1])
  }

  /** The declarations that fall into one bucket. */
  ghost function InSlot(ds: seq<Declared>, i: nat): seq<Declared> {
    if ds == [] then []
    else
      var last := ds[|ds| - 1];
      InSlot(ds[..|ds| - 1], i) + if Slot(last.key) == i then [last] else []
  }

  /** Looking in one bucket is looking in all declarations. */
  lemma {:induction false} LatestInSlot(ds: seq<Declared>, k: Key)
    ensures Latest(InSlot(ds, Slot(k)), k) == Latest(ds, k)
  {
    hide Slot;
    if ds != [] {
      var front := ds[..|ds| - 1];
      var last := ds[|ds| - 1];
      LatestInSlot(front, k);
      var rest := InSlot(front, Slot(k));
      if Slot(last.key) == Slot(k) { assert (rest + [last])[..|rest|] == rest; } else { assert rest + [] == rest; }
    }
  }

  class Table {
    const buckets: array<Entry?>
    ghost var declared: seq<Declared>

    ghost predicate Valid()
      reads this, buckets
    {
      buckets.Length == Buckets && forall i :: 0 <= i < Buckets ==> Chain(buckets[i], InSlot(declared, i))
    }

    constructor ()
      ensures Valid() && fresh(buckets) && declared == []
    {
      buckets := new Entry?[Buckets](_ => null);
      declared := [];
    }

    method Add(d: Declared)
      requires Valid()
      modifies this, buckets
      ensures Valid() && declared == old(declared) + [d]
    {
      hide Slot;
      var i := Slot(d.key);
      ghost var before := declared;
      var e := new Entry(d, buckets[i]);
      buckets[i] := e;
      declared := declared + [d];
      assert declared[..|declared| - 1] == before;
      forall j | 0 <= j < Buckets ensures Chain(buckets[j], InSlot(declared, j)) {
        if j == i {
          assert InSlot(declared, i)[..|InSlot(before, i)|] == InSlot(before, i);
        } else {
          assert InSlot(declared, j) == InSlot(before, j);
        }
      }
    }

    /** Answers like a newest-first scan of everything added. */
    method Lookup(k: Key) returns (node: Option<nat>)
      requires Valid()
      ensures node == Latest(declared, k)
    {
      hide Slot;
      ghost var rest := InSlot(declared, Slot(k));
      LatestInSlot(declared, k);
      var e := buckets[Slot(k)];
      while e != null
        invariant Chain(e, rest) && Latest(rest, k) == Latest(declared, k)
        decreases |rest|
      {
        if e.decl.key == k { return Some(e.decl.node); }
        e := e.next;
        rest := rest[..|rest| - 1];
      }
      node := None;
    }

    /** `sema_collect_decls`: every method of every extend declaration, in source order. */
    method Collect(unit: seq<Extend>)
      requires Valid() && declared == []
      modifies this, buckets
      ensures Valid() && declared == Declarations(unit)
    {
      var i := 0;
      while i < |unit|
        invariant 0 <= i <= |unit| && Valid() && declared + Declarations(unit[i..]) == Declarations(unit)
      {
        ghost var before := declared;
        var target, methods := unit[i].target, unit[i].methods;
        var j := 0;
        while j < |methods|
          invariant 0 <= j <= |methods| && Valid()
          invariant declared + DeclaredIn(target, methods[j..]) == before + DeclaredIn(target, methods)
        {
          assert methods[j..][1..] == methods[j + 1..];
          ghost var now := declared;
          var d := Declared(Key(target, methods[j].name), methods[j].node);
          Add(d);
          Regroup(now, [d], DeclaredIn(target, methods[j + 1..]));
          j := j + 1;
        }
        assert unit[i..][1..] == unit[i + 1..];
        Regroup(before, DeclaredIn(target, methods), Declarations(unit[i + 1..]));
        assert declared == before + DeclaredIn(target, methods);
        i := i + 1;
      }
      assert declared + [] == declared;
    }
  }

  lemma Regroup(a: seq<Declared>, b: seq<Declared>, c: seq<Declared>)
    ensures a + b + c == a + (b + c)
  {
  }

  // ---- the scan of the generator ----

  /** `cg_find_method`: the first match in source order. */
  method FindMethod(unit: seq<Extend>, k: Key) returns (node: Option<nat>)
    ensures node == First(Declarations(unit), k)
  {
    var i := 0;
    while i < |unit|
      invariant 0 <= i <= |unit| && First(Declarations(unit[i..]), k) == First(Declarations(unit), k)
    {
      var target, methods := unit[i].target, unit[i].methods;
      FirstAppend(DeclaredIn(target, methods), Declarations(unit[i..][1..]), k);
      assert unit[i..][1..] == unit[i + 1..];
      if target == k.typeName {
        var j := 0;
        while j < |methods|
          invariant 0 <= j <= |methods|
          invariant First(DeclaredIn(target, methods[j..]), k) == First(DeclaredIn(target, methods), k)
        {
          assert methods[j..][1..] == methods[j + 1..];
          if methods[j].name == k.methodName { return Some(methods[j].node); }
          j := j + 1;
        }
      } else {
        OtherTarget(target, methods, k);
      }
      i := i + 1;
    }
    node := None;
  }

  lemma {:induction false} FirstAppend(a: seq<Declared>, b: seq<Declared>, k: Key)
    ensures First(a + b, k) == if First(a, k).Some? then First(a, k) else First(b, k)
  {
    if a == [] { assert a + b == b; } else { assert (a + b)[1..] == a[1..] + b; FirstAppend(a[1..], b, k); }
  }

  lemma {:induction false} OtherTarget(target: string, methods: seq<Method>, k: Key)
    requires target != k.typeName
    ensures First(DeclaredIn(target, methods), k) == None
  {
    if methods != [] {
      OtherTarget(target, methods[1..], k);
      var ds := DeclaredIn(target, methods);
      assert ds[1..] == DeclaredIn(target, methods[1..]);
    }
  }

  // ---- when the two agree ----

  predicate HasKey(ds: seq<Declared>, i: nat, k: Key) {
    i < |ds| && ds[i].key == k
  }

  /** The key is declared at most once. */
  ghost predicate Once(ds: seq<Declared>, k: Key) {
    forall i: nat, j: nat :: HasKey(ds, i, k) && HasKey(ds, j, k) ==> i == j
  }

  ghost predicate Unique(ds: seq<Declared>) {
    forall k :: Once(ds, k)
  }

  /** Different declarations are different nodes. */
  ghost predicate DistinctNodes(ds: seq<Declared>) {
    forall i, j :: 0 <= i < j < |ds| ==> ds[i].node != ds[j].node
  }

  lemma {:induction false} FirstAt(ds: seq<Declared>, k: Key) returns (i: nat)
    ensures First(ds, k).None? ==> forall j: nat :: !HasKey(ds, j, k)
    ensures First(ds, k).Some? ==> HasKey(ds, i, k) && ds[i].node == First(ds, k).value && forall j: nat :: j < i ==> !HasKey(ds, j, k)
  {
    i := 0;
    if ds != [] && ds[0].key != k {
      var n := FirstAt(ds[1..], k);
      i := n + 1;
      forall j: nat | HasKey(ds, j, k) ensures HasKey(ds[1..], j - 1, k) && j > 0 { }
    }
  }

  lemma {:induction false} LatestAt(ds: seq<Declared>, k: Key) returns (i: nat)
    ensures Latest(ds, k).None? ==> forall j: nat :: !HasKey(ds, j, k)
    ensures Latest(ds, k).Some? ==> HasKey(ds, i, k) && ds[i].node == Latest(ds, k).value && forall j: nat :: j > i ==> !HasKey(ds, j, k)
  {
    i := 0;
    if ds != [] {
      var n := |ds| - 1;
      if ds[n].key == k {
        i := n;
      } else {
        i := LatestAt(ds[..n], k);
        forall j: nat | HasKey(ds, j, k) ensures HasKey(ds[..n], j, k) { }
      }
    }
  }

  /** The checker and the generator take the same declaration. */
  predicate Agree(ds: seq<Declared>, k: Key) {
    First(ds, k) == Latest(ds, k)
  }

  /** For one key the two answers are the same exactly when it is declared at most once. */
  lemma AgreeOn(ds: seq<Declared>, k: Key)
    requires DistinctNodes(ds)
    ensures Agree(ds, k) <==> Once(ds, k)
  {
    var a := FirstAt(ds, k);
    var b := LatestAt(ds, k);
    if First(ds, k).Some? && Latest(ds, k).Some? {
      if a != b { assert HasKey(ds, a, k) && HasKey(ds, b, k); }
    }
  }

  /** The main result: the checker and the generator resolve every method call alike exactly when no
      (type, method) pair is declared twice. */
  lemma {:induction false} AgreeExactly(unit: seq<Extend>)
    requires DistinctNodes(Declarations(unit))
    ensures (forall k :: Agree(Declarations(unit), k)) <==> Unique(Declarations(unit))
  {
    var ds := Declarations(unit);
    forall k ensures Agree(ds, k) <==> Once(ds, k) { AgreeOn(ds, k); }
  }
}
