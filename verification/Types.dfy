/** Semantic types as trees, and implicit coercion between them (src/type.c:161-197). Types are
    interned, so equality of trees is the pointer equality of the source (module TypeTable). */
module Types {
  datatype Ty =
    | VoidT
    | BoolT
    | IntT(signed: bool, bits: nat)
    | FloatT(bits: nat)
    | NoReturnT
    | PointerT(isConst: bool, base: Ty)
    | ReferenceT(isConst: bool, base: Ty)
    | SliceT(isConst: bool, base: Ty)
    | ArrayT(size: nat, base: Ty)
    | OptionalT(base: Ty)
    | ErrorUnionT(success: Ty, error: Ty)
    | FunctionT(params: seq<Ty>, ret: Ty, variadic: bool)
    | StructT(name: string)

  predicate IsNumeric(t: Ty) {
    t.IntT? || t.FloatT?
  }

  /** The recursion of the source, early returns included. */
  predicate CanCoerce(from: Ty, target: Ty)
    decreases target
  {
    if from == target then true
    else if from.IntT? && target.IntT? then from.signed == target.signed && from.bits <= target.bits
    else if from.FloatT? && target.FloatT? then from.bits <= target.bits
    else if from.IntT? && target.FloatT? then true
    else if target.OptionalT? && CanCoerce(from, target.base) then true
    else if from.ReferenceT? && target.ReferenceT? then !from.isConst && target.isConst && from.base == target.base
    else if from.ReferenceT? && from.base == target then true
    else if from.PointerT? && from.base == target then true
    else if target.ReferenceT? && from == target.base then true
    else if target.ErrorUnionT? then CanCoerce(from, target.success) || CanCoerce(from, target.error)
    else false
  }

  // ---- the relation the recursion computes ----

  /** A type and everything below it through optional and error-union layers. */
  function Layers(t: Ty): set<Ty> {
    match t
    case OptionalT(b) => {t} + Layers(b)
    case ErrorUnionT(s, e) => {t} + Layers(s) + Layers(e)
    case _ => {t}
  }

  /** One coercion that does not look below a layer of the target. Between two references only the
      loss of mutability is allowed, even when one is the base of the other. */
  predicate Direct(from: Ty, target: Ty) {
    || from == target
    || (from.IntT? && target.IntT? && from.signed == target.signed && from.bits <= target.bits)
    || (from.FloatT? && target.FloatT? && from.bits <= target.bits)
    || (from.IntT? && target.FloatT?)
    || (from.PointerT? && from.base == target)
    || (from.ReferenceT? && !target.ReferenceT? && from.base == target)
    || (target.ReferenceT? && !from.ReferenceT? && target.base == from)
    || (from.ReferenceT? && target.ReferenceT? && !from.isConst && target.isConst && from.base == target.base)
  }

  lemma {:induction false} LayersSelf(t: Ty)
    ensures t in Layers(t)
  {
  }

  lemma {:induction false} LayersDown(t: Ty, u: Ty)
    requires u in Layers(t)
    ensures Layers(u) <= Layers(t)
  {
    match t {
      case OptionalT(b) => if u != t { LayersDown(b, u); }
      case ErrorUnionT(s, e) => if u != t { if u in Layers(s) { LayersDown(s, u); } else { LayersDown(e, u); } }
      case _ =>
    }
  }

  /** Coercion holds exactly when some layer of the target is reached directly. */
  lemma {:induction false} CoerceIffDirect(from: Ty, target: Ty)
    ensures CanCoerce(from, target) <==> exists t :: t in Layers(target) && Direct(from, t)
    decreases target
  {
    LayersSelf(target);
    if Direct(from, target) { assert target in Layers(target); }
    match target {
      case OptionalT(b) => CoerceIffDirect(from, b);
      case ErrorUnionT(s, e) => CoerceIffDirect(from, s); CoerceIffDirect(from, e);
      case _ =>
    }
  }

  // ---- order properties ----

  /** No layer is a pointer or a reference. */
  predicate Plain(t: Ty) {
    forall u :: u in Layers(t) ==> !u.PointerT? && !u.ReferenceT?
  }

  lemma {:induction false} CoerceReflexive(t: Ty)
    ensures CanCoerce(t, t)
  {
  }

  lemma {:induction false} CoerceTransitive(a: Ty, b: Ty, c: Ty)
    requires Plain(a) && Plain(b) && Plain(c)
    requires CanCoerce(a, b) && CanCoerce(b, c)
    ensures CanCoerce(a, c)
  {
    CoerceIffDirect(a, b);
    CoerceIffDirect(b, c);
    CoerceIffDirect(a, c);
    LayersSelf(a);
    var u :| u in Layers(b) && Direct(a, u);
    var v :| v in Layers(c) && Direct(b, v);
    if b == v {
      LayersDown(c, b);
    } else {
      assert Layers(b) == {b};
    }
  }

  function Size(t: Ty): nat {
    match t
    case OptionalT(b) => 1 + Size(b)
    case ErrorUnionT(s, e) => 1 + Size(s) + Size(e)
    case PointerT(_, b) => 1 + Size(b)
    case ReferenceT(_, b) => 1 + Size(b)
    case _ => 1
  }

  /** A direct coercion from a layered type keeps it or refers to it; any other leads at most one step down. */
  lemma {:induction false} DirectSize(a: Ty, t: Ty)
    requires Direct(a, t)
    ensures a.OptionalT? || a.ErrorUnionT? ==> t == a || t == ReferenceT(false, a) || t == ReferenceT(true, a)
    ensures Size(a) <= Size(t) + 1
    ensures a.PointerT? || a.ReferenceT? ==> Size(a) == 1 + Size(a.base)
    ensures t.PointerT? || t.ReferenceT? ==> Size(t) == 1 + Size(t.base)
  {
  }

  lemma {:induction false} LayersShrink(t: Ty, u: Ty)
    requires u in Layers(t) && u != t
    ensures Size(u) < Size(t)
  {
    match t {
      case OptionalT(b) => if u != b { LayersShrink(b, u); }
      case ErrorUnionT(s, e) =>
        if u in Layers(s) { if u != s { LayersShrink(s, u); } } else { if u != e { LayersShrink(e, u); } }
    }
  }

  /** Two different types coerce to each other exactly when one is a reference to the other, which is itself
      no reference. */
  lemma {:induction false} CoerceMutual(a: Ty, b: Ty)
    requires a != b
    ensures CanCoerce(a, b) && CanCoerce(b, a) <==> RefersTo(a, b) || RefersTo(b, a)
  {
    CoerceIffDirect(a, b);
    CoerceIffDirect(b, a);
    LayersSelf(a);
    LayersSelf(b);
    if CanCoerce(a, b) && CanCoerce(b, a) {
      var u :| u in Layers(b) && Direct(a, u);
      var v :| v in Layers(a) && Direct(b, v);
      if u != b { LayersShrink(b, u); }
      if v != a { LayersShrink(a, v); }
      DirectSize(a, u);
      DirectSize(b, v);
    }
  }

  predicate RefersTo(a: Ty, b: Ty) {
    a.ReferenceT? && !b.ReferenceT? && a.base == b
  }

  /** So coercion is antisymmetric between types that are no references. */
  lemma {:induction false} CoerceAntisymmetric(a: Ty, b: Ty)
    requires !a.ReferenceT? && !b.ReferenceT?
    requires CanCoerce(a, b) && CanCoerce(b, a)
    ensures a == b
  {
    if a != b { CoerceMutual(a, b); }
  }

  // ---- exactly when coercions compose ----

  /** A coercion `from` to `mid` and a direct one on to another type `target` do not make one coercion: a
      reference to the middle type is made of something else than it or a reference to it, or something
      behind the middle type, or wider, is asked of a pointer or a reference to it. */
  predicate Blocked(from: Ty, mid: Ty, target: Ty) {
    if RefersTo(target, mid) then !(from.ReferenceT? && from.base == mid && (from.isConst ==> target.isConst))
    else (from.PointerT? && from.base == mid) || (from.ReferenceT? && !mid.ReferenceT?)
  }

  lemma {:induction false} ComposeExact(a: Ty, b: Ty, t: Ty)
    requires CanCoerce(a, b) && Direct(b, t) && a != b && b != t
    ensures Direct(a, t) <==> !Blocked(a, b, t)
  {
    hide CanCoerce, Direct, Blocked, Layers, Size;
    CoerceIffDirect(a, b);
    var u :| u in Layers(b) && Direct(a, u);
    if u != b { LayersShrink(b, u); }
    DirectSize(a, u);
    if RefersTo(t, b) {
      ComposeRefers(a, b, u, t);
    } else {
      OneLayer(b, t);
      ComposeStep(a, b, t);
    }
  }

  lemma {:induction false} OneLayer(b: Ty, t: Ty)
    requires Direct(b, t) && b != t && !RefersTo(t, b)
    ensures Layers(b) == {b}
  {
  }

  lemma {:induction false} ComposeRefers(a: Ty, b: Ty, u: Ty, t: Ty)
    requires Direct(a, u) && (u == b || Size(u) < Size(b)) && a != b && RefersTo(t, b)
    ensures Direct(a, t) <==> !Blocked(a, b, t)
  {
    hide Layers, CanCoerce;
    DirectSize(a, u);
    assert Size(t) == 1 + Size(b);
  }

  lemma {:induction false} ComposeStep(a: Ty, b: Ty, t: Ty)
    requires Direct(a, b) && Direct(b, t) && a != b && b != t && !RefersTo(t, b)
    ensures Direct(a, t) <==> !Blocked(a, b, t)
  {
    hide Layers, CanCoerce;
    DirectSize(a, b);
    DirectSize(b, t);
  }

  /** A coercion to `mid` that can be followed by every coercion of `mid`. */
  predicate Carries(from: Ty, mid: Ty) {
    || from == mid
    || (from == ReferenceT(false, mid) && !IsNumeric(mid) && !mid.PointerT? && !mid.ReferenceT?)
    || (mid.ReferenceT? && !from.ReferenceT? && mid.base == from)
    || (mid.ReferenceT? && mid.isConst && from == ReferenceT(false, mid.base))
    || (from.PointerT? && from.base == mid && mid.ReferenceT? && mid.isConst && mid.base.ReferenceT?)
  }

  /** Coercion composes through a middle type with everything that follows exactly in these cases. */
  lemma {:induction false} CoerceThrough(a: Ty, b: Ty)
    requires CanCoerce(a, b)
    ensures (forall c :: CanCoerce(b, c) ==> CanCoerce(a, c)) <==> Carries(a, b)
  {
    if Carries(a, b) {
      forall c | CanCoerce(b, c) ensures CanCoerce(a, c) { CarriesAll(a, b, c); }
    } else {
      var c := NotCarried(a, b);
      NotCarriedFails(a, b);
      assert CanCoerce(b, c) && !CanCoerce(a, c);
    }
  }

  lemma {:induction false} CarriesAll(a: Ty, b: Ty, c: Ty)
    requires Carries(a, b) && CanCoerce(a, b) && CanCoerce(b, c)
    ensures CanCoerce(a, c)
  {
    CoerceIffDirect(b, c);
    CoerceIffDirect(a, c);
    CoerceIffDirect(a, b);
    var t :| t in Layers(c) && Direct(b, t);
    if b == t {
      LayersDown(c, b);
    } else if a != b {
      ComposeExact(a, b, t);
    }
  }

  /** A type that the middle one coerces to and the first does not. */
  function NotCarried(from: Ty, mid: Ty): Ty {
    if !mid.ReferenceT? && !(from.ReferenceT? && from.base == mid && !from.isConst) then ReferenceT(false, mid)
    else if mid.IntT? then IntT(mid.signed, mid.bits + 1)
    else if mid.FloatT? then FloatT(mid.bits + 1)
    else if mid.ReferenceT? && mid.base.ReferenceT? then ReferenceT(true, mid.base)
    else if mid.PointerT? || mid.ReferenceT? then mid.base
    else mid
  }

  lemma {:induction false} NotCarriedFails(a: Ty, b: Ty)
    requires CanCoerce(a, b) && !Carries(a, b)
    ensures CanCoerce(b, NotCarried(a, b)) && !CanCoerce(a, NotCarried(a, b))
  {
    var c := NotCarried(a, b);
    CoerceIffDirect(a, b);
    CoerceIffDirect(a, c);
    CoerceIffDirect(b, c);
    LayersSelf(c);
    var u :| u in Layers(b) && Direct(a, u);
    DirectSize(a, u);
    if u != b { LayersShrink(b, u); }
    assert Direct(b, c) && c in Layers(c);
    forall t | t in Layers(c) ensures !Direct(a, t) {
      if t != c { LayersShrink(c, t); }
      if Direct(a, t) { DirectSize(a, t); }
    }
  }

  /** No type is a safe end of a chain: a pointer to a pointer to it coerces in two steps and not in one. */
  lemma {:induction false} CoerceNotAnOrder(t: Ty)
    ensures
      var p, pp := PointerT(false, t), PointerT(false, PointerT(false, t));
      CanCoerce(pp, p) && CanCoerce(p, t) && !CanCoerce(pp, t)
  {
    var pp := PointerT(false, PointerT(false, t));
    CoerceIffDirect(pp, t);
    CoerceIffDirect(PointerT(false, t), t);
    LayersSelf(t);
    forall u | u in Layers(t) ensures !Direct(pp, u) {
      if u != t { LayersShrink(t, u); }
      if Direct(pp, u) { DirectSize(pp, u); }
    }
  }
}
