/** The hash-consing type table: bucket chains of type objects, changed only by pushing new objects at
    the head (src/type.c:14-159). */
module TypeTable {
  import opened Types
  import opened Fnv

  const Buckets := 256

  /** What a type object stores: the kind, and pointers to the types it is made of. */
  datatype Shape =
    | SVoid
    | SBool
    | SInt(signed: bool, bits: nat)
    | SFloat(bits: nat)
    | SNoReturn
    | SPointer(isConst: bool, base: SType)
    | SReference(isConst: bool, base: SType)
    | SSlice(isConst: bool, base: SType)
    | SArray(size: nat, base: SType)
    | SOptional(base: SType)
    | SErrorUnion(success: SType, error: SType)
    | SFunction(params: seq<SType>, ret: SType, variadic: bool)
    | SStruct(name: string)

  class SType {
    const shape: Shape
    const address: nat            // where the arena put the object; hashes depend on it
    ghost const tree: Ty          // the type it denotes
    var hash: nat
    var nextHash: SType?

    constructor (shape: Shape, address: nat)
      ensures this.shape == shape && this.address == address && tree == TreeOf(shape)
    {
      this.shape := shape;
      this.address := address;
      this.tree := TreeOf(shape);
      hash := 0;
      nextHash := null;
    }
  }

  ghost function TreeOf(s: Shape): Ty {
    match s
    case SVoid => VoidT
    case SBool => BoolT
    case SInt(signed, bits) => IntT(signed, bits)
    case SFloat(bits) => FloatT(bits)
    case SNoReturn => NoReturnT
    case SPointer(c, b) => PointerT(c, b.tree)
    case SReference(c, b) => ReferenceT(c, b.tree)
    case SSlice(c, b) => SliceT(c, b.tree)
    case SArray(n, b) => ArrayT(n, b.tree)
    case SOptional(b) => OptionalT(b.tree)
    case SErrorUnion(s, e) => ErrorUnionT(s.tree, e.tree)
    case SFunction(ps, r, v) => FunctionT(Trees(ps), r.tree, v)
    case SStruct(n) => StructT(n)
  }

  ghost function Trees(ts: seq<SType>): (r: seq<Ty>)
    ensures |r| == |ts| && forall i :: 0 <= i < |ts| ==> r[i] == ts[i].tree
  {
    seq(|ts|, i requires 0 <= i < |ts| => ts[i].tree)
  }

  /** The types a shape points to. */
  ghost function Parts(s: Shape): set<SType> {
    match s
    case SPointer(_, b) => {b}
    case SReference(_, b) => {b}
    case SSlice(_, b) => {b}
    case SArray(_, b) => {b}
    case SOptional(b) => {b}
    case SErrorUnion(s, e) => {s, e}
    case SFunction(ps, r, _) => (set p | p in ps) + {r}
    case _ => {}
  }

  // ---- hashing and comparing shapes ----

  function Bit(b: bool): nat {
    if b then 1 else 0
  }

  function KindCode(s: Shape): nat {
    match s
    case SVoid => 0
    case SBool => 1
    case SInt(_, _) => 2
    case SFloat(_) => 3
    case SNoReturn => 4
    case SPointer(_, _) => 5
    case SReference(_, _) => 6
    case SSlice(_, _) => 7
    case SArray(_, _) => 8
    case SOptional(_) => 9
    case SErrorUnion(_, _) => 10
    case SFunction(_, _, _) => 11
    case SStruct(_) => 12
  }

  function MixAll(h: nat, ts: seq<SType>): nat {
    if ts == [] then h else Mix32(MixAll(h, ts[..|ts| - 1]), ts[|ts| - 1].address)
  }

  function HashOf(s: Shape): nat {
    var h := Mix32(Basis32, KindCode(s));
    match s
    case SInt(signed, bits) => Mix32(Mix32(h, Bit(signed)), bits)
    case SFloat(bits) => Mix32(h, bits)
    case SPointer(c, b) => Mix32(Mix32(h, Bit(c)), b.address)
    case SReference(c, b) => Mix32(Mix32(h, Bit(c)), b.address)
    case SSlice(c, b) => Mix32(Mix32(h, Bit(c)), b.address)
    case SArray(n, b) => Mix32(Mix32(h, n), b.address)
    case SOptional(b) => Mix32(h, b.address)
    case SErrorUnion(s, e) => Mix32(Mix32(h, e.address), s.address)
    case SFunction(ps, r, v) => Mix32(MixAll(Mix32(Mix32(h, |ps|), Bit(v)), ps), r.address)
    case SStruct(n) => Mix32(HashText(h, n), 0)
    case _ => h
  }

  /** The hash as the table computes it, with a loop over the parameters and one over the characters of a name. */
  method HashShape(s: Shape) returns (h: nat)
    ensures h == HashOf(s)
  {
    h := Mix32(Basis32, KindCode(s));
    match s {
      case SInt(signed, bits) => h := Mix32(h, Bit(signed)); h := Mix32(h, bits);
      case SFloat(bits) => h := Mix32(h, bits);
      case SPointer(c, b) => h := Mix32(h, Bit(c)); h := Mix32(h, b.address);
      case SReference(c, b) => h := Mix32(h, Bit(c)); h := Mix32(h, b.address);
      case SSlice(c, b) => h := Mix32(h, Bit(c)); h := Mix32(h, b.address);
      case SArray(n, b) => h := Mix32(h, n); h := Mix32(h, b.address);
      case SOptional(b) => h := Mix32(h, b.address);
      case SErrorUnion(ok, error) => h := Mix32(h, error.address); h := Mix32(h, ok.address);
      case SFunction(ps, r, v) =>
        h := Mix32(Mix32(h, |ps|), Bit(v));
        h := HashParams(h, ps);
        h := Mix32(h, r.address);
      case SStruct(name) => h := HashName(h, name); h := Mix32(h, 0);
      case _ =>
    }
  }

  method HashParams(start: nat, ps: seq<SType>) returns (h: nat)
    ensures h == MixAll(start, ps)
  {
    h := start;
    for i := 0 to |ps|
      invariant h == MixAll(start, ps[..i])
    {
      assert ps[..i + 1][..i] == ps[..i];
      h := Mix32(h, ps[i].address);
    }
    assert ps[..|ps|] == ps;
  }

  method HashName(start: nat, name: string) returns (h: nat)
    ensures h == HashText(start, name)
  {
    h := start;
    for i := 0 to |name|
      invariant HashText(h, name[i..]) == HashText(start, name)
    {
      assert name[i..][1..] == name[i + 1..];
      h := Mix32(h, name[i] as nat % 256);
    }
    assert name[|name|..] == "";
  }

  /** Field by field, with parts compared by pointer. */
  method ShapeEq(a: Shape, b: Shape) returns (same: bool)
    ensures same == (a == b)
  {
    if !a.SFunction? || !b.SFunction? { return a == b; }
    if |a.params| != |b.params| || a.variadic != b.variadic || a.ret != b.ret { return false; }
    for i := 0 to |a.params|
      invariant a.params[..i] == b.params[..i]
    {
      if a.params[i] != b.params[i] { return false; }
    }
    assert a.params == a.params[..|a.params|] == b.params[..|b.params|] == b.params;
    return true;
  }

  // ---- the table ----

  ghost function Slot(s: Shape): (i: nat)
    ensures i < Buckets
  {
    HashOf(s) % Buckets
  }

  /** Facts about the chains that do not depend on the heap: each type of the table is in the chain of
      its slot, no chain holds two equal shapes, and every part of a type is in the table. */
  ghost predicate Canonical(chains: seq<seq<SType>>, types: set<SType>) {
    && |chains| == Buckets
    && (forall i, k :: 0 <= i < Buckets && 0 <= k < |chains[i]| ==> chains[i][k] in types && Slot(chains[i][k].shape) == i)
    && (forall i :: 0 <= i < Buckets ==> DistinctShapes(chains[i]))
    && (forall t :: t in types ==> t in chains[Slot(t.shape)])
    && (forall t :: t in types ==> t.tree == TreeOf(t.shape) && Parts(t.shape) <= types)
  }

  ghost predicate DistinctShapes(chain: seq<SType>) {
    forall j, k :: 0 <= j < k < |chain| ==> chain[j].shape != chain[k].shape
  }

  lemma NotThere(chains: seq<seq<SType>>, types: set<SType>, s: Shape)
    requires Canonical(chains, types) && |chains| == Buckets
    requires forall j :: 0 <= j < |chains[Slot(s)]| ==> chains[Slot(s)][j].shape != s
    ensures forall t :: t in types ==> t.shape != s
  {
    hide Slot, TreeOf, Parts, DistinctShapes;
  }

  lemma ChainBelow(chains: seq<seq<SType>>, types: set<SType>, i: nat)
    requires Canonical(chains, types) && i < Buckets
    ensures |chains| == Buckets && forall t :: t in chains[i] ==> t in types
  {
  }

  lemma PushCanonical(chains: seq<seq<SType>>, types: set<SType>, t: SType)
    requires Canonical(chains, types) && t.tree == TreeOf(t.shape) && Parts(t.shape) <= types
    requires forall u :: u in types ==> u.shape != t.shape
    ensures Canonical(chains[Slot(t.shape) := [t] + chains[Slot(t.shape)]], types + {t})
  {
    var h := Slot(t.shape);
    var chains' := chains[h := [t] + chains[h]];
    assert DistinctShapes(chains'[h]) by { assert DistinctShapes(chains[h]); }
    forall u | u in types ensures u in chains'[Slot(u.shape)] {
      if Slot(u.shape) == h { assert u in [t] + chains[h]; }
    }
    assert t in chains'[h] by { assert chains'[h][0] == t; }
  }

  /** In a table, one tree has one object: two types are the same object exactly when they denote the
      same type. */
  lemma {:induction false} OneObjectPerTree(chains: seq<seq<SType>>, types: set<SType>, a: SType, b: SType)
    requires Canonical(chains, types) && a in types && b in types
    ensures a.tree == b.tree <==> a == b
    decreases a.tree
  {
    if a.tree == b.tree {
      SameShape(chains, types, a, b);
      var h := Slot(a.shape);
      assert DistinctShapes(chains[h]);
      assert a in chains[h] && b in chains[h];
    }
  }

  /** Equal trees have equal parts, so by induction the same parts, and hence equal shapes. */
  lemma {:induction false} SameShape(chains: seq<seq<SType>>, types: set<SType>, a: SType, b: SType)
    requires Canonical(chains, types) && a in types && b in types && a.tree == b.tree
    ensures a.shape == b.shape
    decreases a.tree, 0
  {
    hide Canonical, Slot;
    PartIn(chains, types, a);
    PartIn(chains, types, b);
    if a.shape.SFunction? {
      var ps, qs := a.shape.params, b.shape.params;
      assert Trees(ps) == Trees(qs);
      forall i | 0 <= i < |ps| ensures ps[i] == qs[i] {
        assert ps[i].tree == Trees(ps)[i] && qs[i].tree == Trees(qs)[i];
        assert ps[i] in Parts(a.shape) && qs[i] in Parts(b.shape);
        PartBelow(a.shape, ps[i]);
        OneObjectPerTree(chains, types, ps[i], qs[i]);
      }
      PartBelow(a.shape, a.shape.ret);
      OneObjectPerTree(chains, types, a.shape.ret, b.shape.ret);
    } else {
      forall p, q | p in Parts(a.shape) && q in Parts(b.shape) && p.tree == q.tree ensures p == q {
        PartBelow(a.shape, p);
        OneObjectPerTree(chains, types, p, q);
      }
    }
  }

  lemma PartIn(chains: seq<seq<SType>>, types: set<SType>, t: SType)
    requires Canonical(chains, types) && t in types
    ensures t.tree == TreeOf(t.shape) && Parts(t.shape) <= types
  {
  }

  lemma PartBelow(s: Shape, p: SType)
    requires p in Parts(s)
    ensures p.tree < TreeOf(s)
  {
    if s.SFunction? && p in s.params {
      var i :| 0 <= i < |s.params| && s.params[i] == p;
      assert Trees(s.params)[i] == p.tree;
    }
  }

  class Table {
    const buckets: array<SType?>
    ghost var chains: seq<seq<SType>>     // the contents of each bucket, newest first
    ghost var types: set<SType>           // all types in the table

    ghost predicate Valid()
      reads this, buckets, types
    {
      && buckets.Length == Buckets == |chains|
      && Canonical(chains, types)
      && (forall i :: 0 <= i < Buckets ==> buckets[i] == First(chains[i]))
      && (forall i :: 0 <= i < Buckets ==> Linked(chains[i], i))
    }

    constructor ()
      ensures Valid() && fresh(buckets) && types == {}
    {
      buckets := new SType?[Buckets](_ => null);
      chains := seq(Buckets, _ => []);
      types := {};
    }

    /** Returns the table's object for the shape of `proto`, which joins the table if it is new. */
    method Intern(proto: SType) returns (r: SType)
      requires Valid() && proto !in types && proto.tree == TreeOf(proto.shape) && Parts(proto.shape) <= types
      modifies this, buckets, proto
      ensures Valid() && r in types && r.shape == proto.shape
      ensures r in old(types) ==> types == old(types)
      ensures r !in old(types) ==> r == proto && types == old(types) + {proto}
    {
      var h := HashShape(proto.shape);
      h := h % Buckets;
      proto.hash := h;
      assert h == Slot(proto.shape);
      hide Canonical, Slot, TreeOf, Parts, HashOf;
      var found := Search(proto, h);
      ChainBelow(chains, types, h);
      if found != null { return found; }
      NotThere(chains, types, proto.shape);
      Push(proto, h);
      return proto;
    }

    method Push(proto: SType, h: nat)
      requires Valid() && proto !in types && proto.tree == TreeOf(proto.shape) && Parts(proto.shape) <= types
      requires h == Slot(proto.shape) && proto.hash == h
      requires forall t :: t in types ==> t.shape != proto.shape
      modifies this, buckets, proto`nextHash
      ensures Valid() && types == old(types) + {proto}
    {
      hide Canonical, Linked, Slot, TreeOf, Parts, First;
      ghost var chain := chains[h];
      forall i | 0 <= i < Buckets ensures proto !in chains[i] { ChainBelow(chains, types, i); }
      PushCanonical(chains, types, proto);
      proto.nextHash := buckets[h];
      buckets[h] := proto;
      LinkedPush(proto, chain, h);
      FirstPush(proto, chain);
      chains := chains[h := [proto] + chain];
      types := types + {proto};
    }

    /** Walks one chain. */
    method Search(proto: SType, h: nat) returns (r: SType?)
      requires Valid() && h < Buckets && proto.hash == h
      ensures r != null ==> r in chains[h] && r.shape == proto.shape
      ensures r == null ==> forall j :: 0 <= j < |chains[h]| ==> chains[h][j].shape != proto.shape
    {
      hide Canonical;
      ghost var chain, rest := chains[h], chains[h];
      r := buckets[h];
      while r != null
        invariant Linked(rest, h) && r == First(rest) && |rest| <= |chain| && rest == chain[|chain| - |rest|..]
        invariant forall j :: 0 <= j < |chain| - |rest| ==> chain[j].shape != proto.shape
        decreases |rest|
      {
        assert chain[|chain| - |rest|] == r;
        var same := ShapeEq(r.shape, proto.shape);
        if r.hash == proto.hash && same { return; }
        r := r.nextHash;
        rest := rest[1..];
      }
    }

    /** What every constructor promises: a type of the table that denotes `tree`; older types stay. */
    twostate predicate Made(new r: SType, tree: Ty)
      reads this, buckets, types
    {
      Valid() && r in types && r.tree == tree && old(types) <= types && fresh(types - old(types))
    }

    method Make(shape: Shape, address: nat) returns (r: SType)
      requires Valid() && Parts(shape) <= types
      modifies this, buckets
      ensures Made(r, TreeOf(shape))
    {
      var proto := new SType(shape, address);
      r := Intern(proto);
    }

    method Void(address: nat) returns (r: SType)
      requires Valid()
      modifies this, buckets
      ensures Made(r, VoidT)
    {
      hide Valid;
      r := Make(SVoid, address);
    }

    method Bool(address: nat) returns (r: SType)
      requires Valid()
      modifies this, buckets
      ensures Made(r, BoolT)
    {
      hide Valid;
      r := Make(SBool, address);
    }

    method Int(signed: bool, bits: nat, address: nat) returns (r: SType)
      requires Valid()
      modifies this, buckets
      ensures Made(r, IntT(signed, bits))
    {
      hide Valid;
      r := Make(SInt(signed, bits), address);
    }

    method Float(bits: nat, address: nat) returns (r: SType)
      requires Valid()
      modifies this, buckets
      ensures Made(r, FloatT(bits))
    {
      hide Valid;
      r := Make(SFloat(bits), address);
    }

    method Pointer(isConst: bool, base: SType, address: nat) returns (r: SType)
      requires Valid() && base in types
      modifies this, buckets
      ensures Made(r, PointerT(isConst, base.tree))
    {
      hide Valid;
      r := Make(SPointer(isConst, base), address);
    }

    method Reference(isConst: bool, base: SType, address: nat) returns (r: SType)
      requires Valid() && base in types
      modifies this, buckets
      ensures Made(r, ReferenceT(isConst, base.tree))
    {
      hide Valid;
      r := Make(SReference(isConst, base), address);
    }

    method Slice(isConst: bool, base: SType, address: nat) returns (r: SType)
      requires Valid() && base in types
      modifies this, buckets
      ensures Made(r, SliceT(isConst, base.tree))
    {
      hide Valid;
      r := Make(SSlice(isConst, base), address);
    }

    method Array(size: nat, base: SType, address: nat) returns (r: SType)
      requires Valid() && base in types
      modifies this, buckets
      ensures Made(r, ArrayT(size, base.tree))
    {
      hide Valid;
      r := Make(SArray(size, base), address);
    }

    method Optional(base: SType, address: nat) returns (r: SType)
      requires Valid() && base in types
      modifies this, buckets
      ensures Made(r, OptionalT(base.tree))
    {
      hide Valid;
      r := Make(SOptional(base), address);
    }

    method ErrorUnion(success: SType, error: SType, address: nat) returns (r: SType)
      requires Valid() && success in types && error in types
      modifies this, buckets
      ensures Made(r, ErrorUnionT(success.tree, error.tree))
    {
      hide Valid;
      r := Make(SErrorUnion(success, error), address);
    }

    method Function(params: seq<SType>, ret: SType, variadic: bool, address: nat) returns (r: SType)
      requires Valid() && (forall p :: p in params ==> p in types) && ret in types
      modifies this, buckets
      ensures Made(r, FunctionT(Trees(params), ret.tree, variadic))
    {
      hide Valid;
      r := Make(SFunction(params, ret, variadic), address);
    }

    /** Type resolution of names makes these two (src/type.c:241-242). */
    method NoReturn(address: nat) returns (r: SType)
      requires Valid()
      modifies this, buckets
      ensures Made(r, NoReturnT)
    {
      hide Valid;
      r := Make(SNoReturn, address);
    }

    method Struct(name: string, address: nat) returns (r: SType)
      requires Valid()
      modifies this, buckets
      ensures Made(r, StructT(name))
    {
      hide Valid;
      r := Make(SStruct(name), address);
    }

    /** Pointer equality of types is equality of the types they denote, at any time in the table's life. */
    lemma PointerEquality(a: SType, b: SType)
      requires Valid() && a in types && b in types
      ensures a == b <==> a.tree == b.tree
    {
      OneObjectPerTree(chains, types, a, b);
    }
  }

  ghost function First(chain: seq<SType>): SType? {
    if chain == [] then null else chain[0]
  }

  /** The pointers spell out the chain, and every type of it knows its bucket. */
  ghost predicate Linked(chain: seq<SType>, i: nat)
    reads chain
  {
    chain == [] || (chain[0].hash == i && chain[0].nextHash == First(chain[1..]) && Linked(chain[1..], i))
  }

  lemma {:induction false} LinkedPush(t: SType, chain: seq<SType>, i: nat)
    requires Linked(chain, i) && t.hash == i && t.nextHash == First(chain)
    ensures Linked([t] + chain, i)
  {
    assert ([t] + chain)[1..] == chain;
  }

  lemma FirstPush(t: SType, chain: seq<SType>)
    ensures First([t] + chain) == t
  {
  }
}
