/** Constant expressions, evaluated in wrapping 64-bit arithmetic (src/sema.c:274-310). */
module ConstEval {
  import opened Ast

  const W: int := 0x1_0000_0000_0000_0000

  function Wrap(x: int): (r: int)
    ensures 0 <= r < W
  {
    x % W
  }

  /** The constants in scope with their initialisers; every initialiser names only constants of lower rank,
      without which the evaluator does not return. */
  datatype Consts = Consts(inits: map<string, Expr>, rank: string -> nat) {
    ghost predicate Acyclic() {
      forall x :: x in inits ==> Level(inits[x]) <= rank(x)
    }

    /** One more than the rank of every constant the expression names. */
    function Level(e: Expr): nat
      decreases e
    {
      match e
      case Binary(_, l, r) => if Level(l) > Level(r) then Level(l) else Level(r)
      case Unary(_, x) => Level(x)
      case Ident(x) => if x in inits then rank(x) + 1 else 0
      case _ => 0
    }
  }

  /** The value and the number of errors reported. */
  datatype Answer = Answer(value: int, errors: nat)

  function Eval(cs: Consts, e: Expr): (r: Answer)
    requires cs.Acyclic()
    ensures 0 <= r.value < W
    decreases cs.Level(e), e
  {
    match e
    case NoExpr => Answer(0, 0)
    case IntLit(v) => Answer(Wrap(v), 0)
    case Binary(op, l, r) =>
      var a := Eval(cs, l);
      var b := Eval(cs, r);
      var v := EvalBinary(op, a.value, b.value);
      if v.Some? then Answer(v.value, a.errors + b.errors) else Answer(0, a.errors + b.errors + 1)
    case Unary(op, x) =>
      if !op.Minus? then Answer(0, 1)
      else
        var a := Eval(cs, x);
        Answer(Wrap(-a.value), a.errors)
    case Ident(x) => if x in cs.inits then Eval(cs, cs.inits[x]) else Answer(0, 1)
    case _ => Answer(0, 1)
  }

  /** Division by zero is zero, without an error. */
  function EvalBinary(op: Op, a: int, b: int): (r: Option<int>)
    requires 0 <= a < W && 0 <= b < W
    ensures r.Some? ==> 0 <= r.value < W
  {
    match op
    case Plus => Some(Wrap(a + b))
    case Minus => Some(Wrap(a - b))
    case Star => Some(Wrap(a * b))
    case Slash => Some(if b != 0 then (DivShrinks(a, b); a / b) else 0)
    case Percent => Some(if b != 0 then a % b else 0)
    case _ => None
  }

  lemma DivShrinks(a: int, b: int)
    requires 0 <= a < W && 0 < b
    ensures 0 <= a / b < W
  {
    assert a == b * (a / b) + a % b;
    if a / b >= W { assert b * (a / b) >= a / b by { Larger(b, a / b); } }
  }

  lemma Larger(b: int, q: int)
    requires b >= 1 && q >= 0
    ensures b * q >= q
  {
    assert (b - 1) * q >= 0;
  }

  // ---- the value in unbounded integers ----

  /** The integer value, where the expression has one: constants and literals, the five operators and
      negation, no division by zero. Quotients round towards zero, as those of C. */
  function Exact(cs: Consts, e: Expr): Option<int>
    requires cs.Acyclic()
    decreases cs.Level(e), e
  {
    match e
    case IntLit(v) => Some(v)
    case Binary(op, l, r) => ExactBinary(op, Exact(cs, l), Exact(cs, r))
    case Unary(op, x) => if op.Minus? && Exact(cs, x).Some? then Some(-Exact(cs, x).value) else None
    case Ident(x) => if x in cs.inits then Exact(cs, cs.inits[x]) else None
    case _ => None
  }

  function ExactBinary(op: Op, l: Option<int>, r: Option<int>): Option<int> {
    if l.None? || r.None? then None
    else
      match op
      case Plus => Some(l.value + r.value)
      case Minus => Some(l.value - r.value)
      case Star => Some(l.value * r.value)
      case Slash => if r.value == 0 then None else Some(TruncDiv(l.value, r.value))
      case Percent => if r.value == 0 then None else Some(l.value - r.value * TruncDiv(l.value, r.value))
      case _ => None
  }

  function Abs(x: int): nat {
    if x < 0 then -x else x
  }

  function TruncDiv(a: int, b: int): int
    requires b != 0
  {
    var q := Abs(a) / Abs(b);
    if (a < 0) == (b < 0) then q else -q
  }

  predicate Word(x: int) {
    0 <= x < W
  }

  /** The operands of every division are 64-bit naturals. */
  predicate DividesWords(cs: Consts, e: Expr)
    requires cs.Acyclic()
    decreases cs.Level(e), e
  {
    match e
    case Binary(op, l, r) =>
      && DividesWords(cs, l) && DividesWords(cs, r)
      && (op.Slash? || op.Percent? ==>
            && (Exact(cs, l).Some? ==> Word(Exact(cs, l).value))
            && (Exact(cs, r).Some? ==> Word(Exact(cs, r).value)))
    case Unary(_, x) => DividesWords(cs, x)
    case Ident(x) => x in cs.inits ==> DividesWords(cs, cs.inits[x])
    case _ => true
  }

  // ---- wrapping arithmetic ----

  lemma WrapSelf(x: int)
    requires Word(x)
    ensures Wrap(x) == x
  {
  }

  lemma WrapShift(x: int, k: int)
    ensures Wrap(x + W * k) == Wrap(x)
  {
    var y := x + W * k;
    assert y == W * (y / W) + y % W;
    assert x == W * (x / W) + x % W;
    assert y % W - x % W == W * (x / W + k - y / W);
  }

  lemma WrapParts(a: int)
    ensures a == W * (a / W) + Wrap(a)
  {
  }

  lemma WrapAdd(a: int, b: int)
    ensures Wrap(Wrap(a) + Wrap(b)) == Wrap(a + b) && Wrap(Wrap(a) - Wrap(b)) == Wrap(a - b)
  {
    hide Wrap;
    var p, q := a / W, b / W;
    WrapParts(a);
    WrapParts(b);
    WrapShift(a + b, -p - q);
    WrapShift(a - b, q - p);
    assert Wrap(a) + Wrap(b) == a + b + W * (-p - q);
    assert Wrap(a) - Wrap(b) == a - b + W * (q - p);
  }

  lemma WrapMul(a: int, b: int)
    ensures Wrap(Wrap(a) * Wrap(b)) == Wrap(a * b)
  {
    var p, q := a / W, b / W;
    var x, y := Wrap(a), Wrap(b);
    assert a == W * p + x && b == W * q + y;
    var k := W * p * q + p * y + x * q;
    MulParts(p, x, q, y);
    WrapShift(x * y, k);
  }

  lemma MulParts(p: int, x: int, q: int, y: int)
    ensures (W * p + x) * (W * q + y) == x * y + W * (W * p * q + p * y + x * q)
  {
    assert (W * p) * (W * q) == W * (W * p * q);
    assert (W * p) * y == W * (p * y);
    assert x * (W * q) == W * (x * q);
    assert (W * p + x) * (W * q + y) == (W * p) * (W * q) + (W * p) * y + x * (W * q) + x * y;
  }

  // ---- correctness ----

  /** The main result: an expression that has an integer value, and divides only 64-bit naturals, is
      evaluated without error to that value modulo 2^64. */
  lemma {:induction false} EvalExact(cs: Consts, e: Expr)
    requires cs.Acyclic() && Exact(cs, e).Some? && DividesWords(cs, e)
    ensures Eval(cs, e) == Answer(Wrap(Exact(cs, e).value), 0)
    decreases cs.Level(e), e
  {
    match e {
      case Binary(op, l, r) =>
        EvalExact(cs, l);
        EvalExact(cs, r);
        BinaryExact(op, Exact(cs, l).value, Exact(cs, r).value);
      case Unary(_, x) =>
        EvalExact(cs, x);
        WrapAdd(0, Exact(cs, x).value);
        WrapSelf(0);
      case Ident(x) => EvalExact(cs, cs.inits[x]);
      case _ =>
    }
  }

  lemma BinaryExact(op: Op, a: int, b: int)
    requires ExactBinary(op, Some(a), Some(b)).Some?
    requires op.Slash? || op.Percent? ==> Word(a) && Word(b)
    ensures EvalBinary(op, Wrap(a), Wrap(b)) == Some(Wrap(ExactBinary(op, Some(a), Some(b)).value))
  {
    if op.Plus? || op.Minus? {
      WrapAdd(a, b);
    } else if op.Star? {
      WrapMul(a, b);
    } else {
      WrapSelf(a);
      WrapSelf(b);
      DivShrinks(a, b);
      assert a == b * (a / b) + a % b;
      WrapSelf(a / b);
      WrapSelf(a % b);
    }
  }

  /** An error is reported exactly for what is not a constant expression; a division by zero is none. */
  predicate ConstantForm(cs: Consts, e: Expr)
    requires cs.Acyclic()
    decreases cs.Level(e), e
  {
    match e
    case NoExpr => true
    case IntLit(_) => true
    case Binary(op, l, r) =>
      ConstantForm(cs, l) && ConstantForm(cs, r) && (op.Plus? || op.Minus? || op.Star? || op.Slash? || op.Percent?)
    case Unary(op, x) => op.Minus? && ConstantForm(cs, x)
    case Ident(x) => x in cs.inits && ConstantForm(cs, cs.inits[x])
    case _ => false
  }

  lemma {:induction false} ErrorsExact(cs: Consts, e: Expr)
    requires cs.Acyclic()
    ensures Eval(cs, e).errors == 0 <==> ConstantForm(cs, e)
    decreases cs.Level(e), e
  {
    match e {
      case Binary(_, l, r) => ErrorsExact(cs, l); ErrorsExact(cs, r);
      case Unary(op, x) => if op.Minus? { ErrorsExact(cs, x); }
      case Ident(x) => if x in cs.inits { ErrorsExact(cs, cs.inits[x]); }
      case _ =>
    }
  }

  // ---- division outside of the condition ----

  /** A division whose divisor is zero as a 64-bit word is zero, and reports no error of its own. */
  lemma {:induction false} DivisionUnchecked(cs: Consts, op: Op, l: Expr, r: Expr)
    requires cs.Acyclic() && (op.Slash? || op.Percent?)
    ensures
      var a, b := Eval(cs, l), Eval(cs, r);
      b.value == 0 ==> Eval(cs, Binary(op, l, r)) == Answer(0, a.errors + b.errors)
    ensures Exact(cs, r).Some? && DividesWords(cs, r) ==> (Eval(cs, r).value == 0 <==> Exact(cs, r).value % W == 0)
  {
    if Exact(cs, r).Some? && DividesWords(cs, r) { EvalExact(cs, r); }
  }

  const H: int := W / 2

  /** A word read as a signed number. */
  function Signed(w: int): int
    requires 0 <= w < W
  {
    if w < H then w else w - W
  }

  /** The negation is computed on signed numbers, where it is defined for every word but 2^63; there the evaluator
      is taken to wrap. */
  lemma NegationExact(cs: Consts, x: Expr)
    requires cs.Acyclic()
    ensures
      var w := Eval(cs, x).value;
      && Eval(cs, Unary(Minus, x)).value == Wrap(-Signed(w))
      && (-H <= -Signed(w) < H <==> w != H)
  {
    var w := Eval(cs, x).value;
    assert Eval(cs, Unary(Minus, x)).value == Wrap(-w);
    hide Eval, Consts.Acyclic, Consts.Level;
    SignedWrap(w);
  }

  lemma SignedWrap(w: int)
    requires 0 <= w < W
    ensures Wrap(-Signed(w)) == Wrap(-w) && (-H <= -Signed(w) < H <==> w != H)
  {
    if w >= H { WrapShift(-w, 1); }
  }

  /** A value of a signed or an unsigned 64-bit type. */
  predicate SixtyFour(x: int) {
    -H <= x < W
  }

  /** When the quotient of the words is the word of the quotient. */
  predicate QuotientRight(x: int, y: int) {
    if y > 0 then x >= 0 || y == 1 || y - x > W
    else if x >= 0 then x < -y || (x == W - 1 && y == -1)
    else x == y
  }

  /** When the remainder of the words is the word of the remainder. */
  predicate RemainderRight(x: int, y: int)
    requires y != 0
  {
    if y > 0 then x >= 0 || (-x % y == 0 && W % y == 0) || y - x > W
    else if x >= 0 then x < -y || (x >= W + y && W % -y == 0)
    else x == y
  }

  lemma WrapBelow(x: int)
    requires -W <= x < 0
    ensures Wrap(x) == x + W
  {
    WrapShift(x, 1);
    WrapSelf(x + W);
  }

  /** Quotient and remainder are the only ones. */
  lemma Unique(a: int, b: int, q: int, r: int)
    requires b > 0 && 0 <= r < b && a == b * q + r
    ensures a / b == q && a % b == r
  {
    assert a == b * (a / b) + a % b;
    assert b * (q - a / b) == a % b - r;
    if q > a / b { Larger(q - a / b, b); } else if q < a / b { Larger(a / b - q, b); }
  }

  lemma QuotientSmall(a: int, b: int)
    requires 0 <= a && b > 0
    ensures 0 <= a / b <= a && (a / b == 0 <==> a < b) && (b >= 2 ==> 2 * (a / b) <= a)
    ensures b <= a < 2 * b ==> a / b == 1
    ensures 0 <= a % b <= a && (a < b ==> a % b == a)
    ensures b <= a < 2 * b ==> a % b == a - b
  {
    var q := a / b;
    assert a == b * q + a % b;
    if a < b { Unique(a, b, 0, a); }
    if b <= a < 2 * b { Unique(a, b, 1, a - b); }
    if q < 0 { Larger(-q, b); }
    if q == 0 { assert a == a % b; }
    if q > 0 {
      Larger(b, q);
      if b >= 2 { Larger(b - 1, q); assert b * q == (b - 1) * q + q; }
    }
  }

  lemma Truncated(x: int, y: int)
    requires y != 0
    ensures x >= 0 && y > 0 ==> TruncDiv(x, y) == x / y
    ensures x < 0 && y > 0 ==> TruncDiv(x, y) == -(-x / y)
    ensures x >= 0 && y < 0 ==> TruncDiv(x, y) == -(x / -y)
    ensures x < 0 && y < 0 ==> TruncDiv(x, y) == -x / -y
  {
  }

  lemma QuotientExact(x: int, y: int)
    requires SixtyFour(x) && SixtyFour(y) && y != 0
    ensures EvalBinary(Slash, Wrap(x), Wrap(y)) == Some(Wrap(TruncDiv(x, y))) <==> QuotientRight(x, y)
  {
    hide Wrap, TruncDiv;
    Truncated(x, y);
    if x >= 0 { WrapSelf(x); } else { WrapBelow(x); }
    if y > 0 { WrapSelf(y); } else { WrapBelow(y); }
    if x >= 0 && y > 0 {
      QuotientSmall(x, y);
      WrapSelf(x / y);
    } else if y > 0 {
      QuotientOfNegative(-x, y);
    } else if x >= 0 {
      QuotientByNegative(x, -y);
    } else {
      QuotientOfNegatives(-x, -y);
    }
  }

  lemma QuotientOfNegative(p: int, y: int)
    requires 0 < p <= H && 0 < y < W
    ensures (W - p) / y == Wrap(-(p / y)) <==> y == 1 || y + p > W
  {
    hide Wrap;
    QuotientSmall(p, y);
    QuotientSmall(W - p, y);
    WrapUnder(p / y);
    if y == 1 { Unique(p, 1, p, 0); Unique(W - p, 1, W - p, 0); }
  }

  lemma QuotientByNegative(x: int, d: int)
    requires 0 <= x < W && 0 < d <= H
    ensures x / (W - d) == Wrap(-(x / d)) <==> x < d || (x == W - 1 && d == 1)
  {
    hide Wrap;
    QuotientSmall(x, d);
    QuotientSmall(x, W - d);
    WrapUnder(x / d);
    if d == 1 { Unique(x, 1, x, 0); }
  }

  lemma QuotientOfNegatives(p: int, d: int)
    requires 0 < p <= H && 0 < d <= H
    ensures (W - p) / (W - d) == Wrap(p / d) <==> p == d
  {
    hide Wrap;
    QuotientSmall(p, d);
    QuotientSmall(W - p, W - d);
    WrapSelf(p / d);
  }

  lemma WrapUnder(q: int)
    requires 0 <= q < W
    ensures Wrap(-q) == if q == 0 then 0 else W - q
  {
    hide Wrap;
    if q == 0 { WrapSelf(0); } else { WrapBelow(-q); }
  }

  lemma TruncatedRest(x: int, y: int)
    requires y != 0
    ensures x >= 0 ==> x - y * TruncDiv(x, y) == x % (if y > 0 then y else -y)
    ensures x < 0 ==> x - y * TruncDiv(x, y) == -(-x % (if y > 0 then y else -y))
  {
    hide TruncDiv;
    Truncated(x, y);
    var d, p := if y > 0 then y else -y, if x < 0 then -x else x;
    assert p == d * (p / d) + p % d;
    assert y * (p / d) == d * (p / d) || y * (p / d) == -(d * (p / d));
    assert y * -(p / d) == -(y * (p / d));
  }

  /** A multiple of the divisor taken off does not change the remainder. */
  lemma RestShift(p: int, y: int)
    requires y > 0 && 0 <= p <= W && p % y == 0
    ensures (W - p) % y == W % y
  {
    var k, n := p / y, W / y;
    assert p == y * k + p % y && W == y * n + W % y;
    assert y * (n - k) == y * n - y * k;
    Unique(W - p, y, n - k, W % y);
  }

  lemma RestWraps(x: int, d: int)
    requires 0 < d <= H && W - d <= x < W
    ensures x - (W - d) == x % d <==> W % d == 0
  {
    var q, k, v := x / d, W / d, x - (W - d);
    assert x == d * q + x % d && W == d * k + W % d;
    if W % d == 0 {
      assert d * (k - 1) == d * k - d;
      Unique(x, d, k - 1, v);
    }
    if v == x % d {
      assert d * (q + 1) == d * q + d;
      Unique(W, d, q + 1, 0);
    }
  }

  lemma RemainderExact(x: int, y: int)
    requires SixtyFour(x) && SixtyFour(y) && y != 0
    ensures EvalBinary(Percent, Wrap(x), Wrap(y)) == Some(Wrap(x - y * TruncDiv(x, y))) <==> RemainderRight(x, y)
  {
    hide Wrap, TruncDiv;
    TruncatedRest(x, y);
    if x >= 0 { WrapSelf(x); } else { WrapBelow(x); }
    if y > 0 { WrapSelf(y); } else { WrapBelow(y); }
    if x >= 0 && y > 0 {
      QuotientSmall(x, y);
      WrapSelf(x % y);
    } else if y > 0 {
      QuotientSmall(-x, y);
      QuotientSmall(W + x, y);
      WrapUnder(-x % y);
      if -x % y == 0 { RestShift(-x, y); }
    } else if x >= 0 {
      QuotientSmall(x, -y);
      QuotientSmall(x, W + y);
      WrapSelf(x % -y);
      if x >= W + y { RestWraps(x, -y); }
    } else {
      QuotientSmall(-x, -y);
      QuotientSmall(W + x, W + y);
      WrapUnder(-x % -y);
    }
  }

  /** Any division of two expressions whose values fit in 64 bits, signed or not, and are evaluated rightly:
      its own value is right exactly under the condition. */
  lemma {:induction false} DivisionExact(cs: Consts, op: Op, l: Expr, r: Expr)
    requires cs.Acyclic() && (op.Slash? || op.Percent?)
    requires Exact(cs, l).Some? && Exact(cs, r).Some?
    requires
      var x, y := Exact(cs, l).value, Exact(cs, r).value;
      SixtyFour(x) && SixtyFour(y) && y != 0 && Eval(cs, l) == Answer(Wrap(x), 0) && Eval(cs, r) == Answer(Wrap(y), 0)
    ensures
      var x, y := Exact(cs, l).value, Exact(cs, r).value;
      var e := Binary(op, l, r);
      && Exact(cs, e).Some?
      && (Eval(cs, e) == Answer(Wrap(Exact(cs, e).value), 0)
          <==> if op.Slash? then QuotientRight(x, y) else RemainderRight(x, y))
  {
    hide Wrap, TruncDiv, QuotientRight, RemainderRight;
    var x, y := Exact(cs, l).value, Exact(cs, r).value;
    if op.Slash? { QuotientExact(x, y); } else { RemainderExact(x, y); }
  }
}
