/** Raw pointers are dereferenced only where `unsafe` says so (src/sema.c:728-741, 807-814). */
module UnsafeGating {
  import opened Ast
  import opened Types
  import opened Checker
  import Divergence

  function Unsafely(c: Ctx): Ctx {
    c.(isUnsafe := true)
  }

  /** The scope of a fallback, which holds the error. */
  function CaptureScope(c: Ctx, env: Env, tried: Expr, name: string): Env {
    var t := if tried.Try? then CheckExpr(c, env, tried.expr).ty else VoidT;
    [[Binding(name, false, if t.ErrorUnionT? then t.error else VoidT)]] + env
  }

  /** Every `*x` with `x` of raw pointer type, anywhere in the expression, stands inside an unsafe block, or
      `inside` says that all of it does. Names have the types the checker gives them. */
  predicate GatedExpr(c: Ctx, env: Env, e: Expr, inside: bool)
    decreases e, 0
  {
    match e
    case Binary(_, l, r) => GatedExpr(c, env, l, inside) && GatedExpr(c, env, r, inside)
    case Unary(op, x) => GatedExpr(c, env, x, inside) && (op.Star? && CheckExpr(c, env, x).ty.PointerT? ==> inside)
    case Call(f, args) => GatedExpr(c, env, f, inside) && GatedEach(c, env, args, inside)
    case MethodCall(o, _, args) => GatedExpr(c, env, o, inside) && GatedEach(c, env, args, inside)
    case Field(o, _) => GatedExpr(c, env, o, inside)
    case Index(o, i) => GatedExpr(c, env, o, inside) && GatedExpr(c, env, i, inside)
    case Slice(o, lo, hi) => GatedExpr(c, env, o, inside) && GatedExpr(c, env, lo, inside) && GatedExpr(c, env, hi, inside)
    case Cast(x, _) => GatedExpr(c, env, x, inside)
    case Try(x) => GatedExpr(c, env, x, inside)
    case ErrorCapture(x, name, fallback) =>
      GatedExpr(c, env, x, inside) && GatedBlock(c, CaptureScope(c, env, x, name), fallback, inside)
    case Unsafe(body) => GatedBlock(c, env, body, true)
    case ArrayLit(_, _, elems, _) => GatedEach(c, env, elems, inside)
    case StructLit(_, inits) => GatedInits(c, env, inits, inside)
    case _ => true
  }

  predicate GatedEach(c: Ctx, env: Env, es: seq<Expr>, inside: bool)
    decreases es, 0
  {
    es == [] || (GatedExpr(c, env, es[0], inside) && GatedEach(c, env, es[1..], inside))
  }

  predicate GatedInits(c: Ctx, env: Env, inits: seq<FieldInit>, inside: bool)
    decreases inits, 0
  {
    inits == [] || (GatedExpr(c, env, inits[0].value, inside) && GatedInits(c, env, inits[1..], inside))
  }

  predicate GatedBlock(c: Ctx, env: Env, b: Block, inside: bool)
    decreases b, 0
  {
    b == NoBlock
    || (&& GatedStmts(c, [[]] + env, b.stmts, inside)
        && GatedExpr(c, CheckStmts(c, [[]] + env, b.stmts, VoidT).env, b.trailing, inside))
  }

  predicate GatedStmts(c: Ctx, env: Env, stmts: seq<Stmt>, inside: bool)
    decreases stmts, 0
  {
    stmts == []
    || (GatedStmt(c, env, stmts[0], inside) && GatedStmts(c, CheckStmt(c, env, stmts[0]).env, stmts[1..], inside))
  }

  predicate GatedStmt(c: Ctx, env: Env, st: Stmt, inside: bool)
    decreases st, 0
  {
    match st
    case VarDecl(_, _, _, init) => GatedExpr(c, env, init, inside)
    case Return(v) => GatedExpr(c, env, v, inside)
    case ExprStmt(e) => GatedExpr(c, env, e, inside)
    case BlockStmt(b) => GatedBlock(c, env, b, inside)
    case If(cond, thn, els) => GatedExpr(c, env, cond, inside) && GatedBlock(c, env, thn, inside) && GatedStmt(c, env, els, inside)
    case While(cond, body) => GatedExpr(c, env, cond, inside) && GatedBlock(c, env, body, inside)
    case For(name, t, iter, body) =>
      && GatedExpr(c, [[]] + env, iter, inside)
      && GatedBlock(c, [[Binding(name, false, LoopType(c, env, t))]] + env, body, inside)
    case Defer(e) => GatedExpr(c, env, e, inside)
    case ErrDefer(b) => GatedBlock(c, env, b, inside)
    case Match(e, arms) => GatedExpr(c, env, e, inside) && GatedEach(c, env, arms, inside)
    case AssignStmt(_, lhs, rhs) => GatedExpr(c, env, lhs, inside) && GatedExpr(c, env, rhs, inside)
    case _ => true
  }

  function LoopType(c: Ctx, env: Env, t: TypeExpr): Ty {
    if t != NoType then Resolve(c, [[]] + env, t).ty else IntT(true, 64)
  }

  // ---- what the checker covers ----

  /** No `match`, no `else if`, and struct literals have a type, as the parser builds them. */
  predicate CheckedExpr(e: Expr)
    decreases e, 0
  {
    match e
    case Binary(_, l, r) => CheckedExpr(l) && CheckedExpr(r)
    case Unary(_, x) => CheckedExpr(x)
    case Call(f, args) => CheckedExpr(f) && CheckedEach(args)
    case MethodCall(o, _, args) => CheckedExpr(o) && CheckedEach(args)
    case Field(o, _) => CheckedExpr(o)
    case Index(o, i) => CheckedExpr(o) && CheckedExpr(i)
    case Slice(o, lo, hi) => CheckedExpr(o) && CheckedExpr(lo) && CheckedExpr(hi)
    case Cast(x, _) => CheckedExpr(x)
    case Try(x) => CheckedExpr(x)
    case ErrorCapture(x, _, b) => CheckedExpr(x) && CheckedBlock(b)
    case Unsafe(b) => CheckedBlock(b)
    case ArrayLit(_, _, elems, _) => CheckedEach(elems)
    case StructLit(t, inits) => t != NoType && CheckedInits(inits)
    case _ => true
  }

  predicate CheckedEach(es: seq<Expr>)
    decreases es, 0
  {
    es == [] || (CheckedExpr(es[0]) && CheckedEach(es[1..]))
  }

  predicate CheckedInits(inits: seq<FieldInit>)
    decreases inits, 0
  {
    inits == [] || (CheckedExpr(inits[0].value) && CheckedInits(inits[1..]))
  }

  predicate CheckedBlock(b: Block)
    decreases b, 0
  {
    b == NoBlock || (CheckedStmts(b.stmts) && CheckedExpr(b.trailing))
  }

  predicate CheckedStmts(stmts: seq<Stmt>)
    decreases stmts, 0
  {
    stmts == [] || (CheckedStmt(stmts[0]) && CheckedStmts(stmts[1..]))
  }

  predicate CheckedStmt(st: Stmt)
    decreases st, 0
  {
    match st
    case VarDecl(_, _, _, init) => CheckedExpr(init)
    case Return(v) => CheckedExpr(v)
    case ExprStmt(e) => CheckedExpr(e)
    case BlockStmt(b) => CheckedBlock(b)
    case If(cond, thn, els) =>
      CheckedExpr(cond) && CheckedBlock(thn) && (els.NoStmt? || els.BlockStmt?) && (els.BlockStmt? ==> CheckedBlock(els.block))
    case While(cond, body) => CheckedExpr(cond) && CheckedBlock(body)
    case For(_, _, iter, body) => CheckedExpr(iter) && CheckedBlock(body)
    case Defer(e) => CheckedExpr(e)
    case ErrDefer(b) => CheckedBlock(b)
    case Match(_, _) => false
    case AssignStmt(_, lhs, rhs) => CheckedExpr(lhs) && CheckedExpr(rhs)
    case _ => true
  }

  // ---- inside unsafe code everything is gated ----

  lemma {:induction false} InsideExpr(c: Ctx, env: Env, e: Expr)
    ensures GatedExpr(c, env, e, true)
    decreases e, 0
  {
    hide CheckExpr, CheckStmts, CheckStmt;
    match e {
      case Binary(_, l, r) => InsideExpr(c, env, l); InsideExpr(c, env, r);
      case Unary(_, x) => InsideExpr(c, env, x);
      case Call(f, args) => InsideExpr(c, env, f); InsideEach(c, env, args);
      case MethodCall(o, _, args) => InsideExpr(c, env, o); InsideEach(c, env, args);
      case Field(o, _) => InsideExpr(c, env, o);
      case Index(o, i) => InsideExpr(c, env, o); InsideExpr(c, env, i);
      case Slice(o, lo, hi) => InsideExpr(c, env, o); InsideExpr(c, env, lo); InsideExpr(c, env, hi);
      case Cast(x, _) => InsideExpr(c, env, x);
      case Try(x) => InsideExpr(c, env, x);
      case ErrorCapture(x, name, b) =>
        InsideExpr(c, env, x);
        InsideBlock(c, CaptureScope(c, env, x, name), b);
      case Unsafe(b) => InsideBlock(c, env, b);
      case ArrayLit(_, _, elems, _) => InsideEach(c, env, elems);
      case StructLit(_, inits) => InsideInits(c, env, inits);
      case _ =>
    }
  }

  lemma {:induction false} InsideEach(c: Ctx, env: Env, es: seq<Expr>)
    ensures GatedEach(c, env, es, true)
    decreases es, 0
  {
    if es != [] { InsideExpr(c, env, es[0]); InsideEach(c, env, es[1..]); }
  }

  lemma {:induction false} InsideInits(c: Ctx, env: Env, inits: seq<FieldInit>)
    ensures GatedInits(c, env, inits, true)
    decreases inits, 0
  {
    if inits != [] { InsideExpr(c, env, inits[0].value); InsideInits(c, env, inits[1..]); }
  }

  lemma {:induction false} InsideBlock(c: Ctx, env: Env, b: Block)
    ensures GatedBlock(c, env, b, true)
    decreases b, 0
  {
    hide CheckStmts;
    if b != NoBlock {
      InsideStmts(c, [[]] + env, b.stmts);
      InsideExpr(c, CheckStmts(c, [[]] + env, b.stmts, VoidT).env, b.trailing);
    }
  }

  lemma {:induction false} InsideStmts(c: Ctx, env: Env, stmts: seq<Stmt>)
    ensures GatedStmts(c, env, stmts, true)
    decreases stmts, 0
  {
    hide CheckStmt;
    if stmts != [] {
      InsideStmt(c, env, stmts[0]);
      InsideStmts(c, CheckStmt(c, env, stmts[0]).env, stmts[1..]);
    }
  }

  lemma {:induction false} InsideStmt(c: Ctx, env: Env, st: Stmt)
    ensures GatedStmt(c, env, st, true)
    decreases st, 0
  {
    hide CheckExpr, CheckStmts, CheckStmt;
    match st {
      case VarDecl(_, _, _, init) => InsideExpr(c, env, init);
      case Return(v) => InsideExpr(c, env, v);
      case ExprStmt(e) => InsideExpr(c, env, e);
      case BlockStmt(b) => InsideBlock(c, env, b);
      case If(cond, thn, els) => InsideExpr(c, env, cond); InsideBlock(c, env, thn); InsideStmt(c, env, els);
      case While(cond, body) => InsideExpr(c, env, cond); InsideBlock(c, env, body);
      case For(name, t, iter, body) =>
        InsideExpr(c, [[]] + env, iter);
        InsideBlock(c, [[Binding(name, false, LoopType(c, env, t))]] + env, body);
      case Defer(e) => InsideExpr(c, env, e);
      case ErrDefer(b) => InsideBlock(c, env, b);
      case Match(e, arms) => InsideExpr(c, env, e); InsideEach(c, env, arms);
      case AssignStmt(_, lhs, rhs) => InsideExpr(c, env, lhs); InsideExpr(c, env, rhs);
      case _ =>
    }
  }

  // ---- the flag changes no type ----

  lemma SameResolve(c: Ctx, env: Env, t: TypeExpr)
    ensures Resolve(Unsafely(c), env, t) == Resolve(c, env, t)
  {
  }

  lemma {:induction false} SameResolveAll(c: Ctx, env: Env, ts: seq<TypeExpr>)
    ensures ResolveAll(Unsafely(c), env, ts) == ResolveAll(c, env, ts)
  {
    hide Resolve;
    if ts != [] {
      SameResolve(c, env, ts[0]);
      SameResolveAll(c, env, ts[1..]);
    }
  }

  lemma SameFnType(c: Ctx, env: Env, self: Option<Ty>, m: Signature)
    ensures FnType(Unsafely(c).(self := self), env, m) == FnType(c.(self := self), env, m)
  {
    hide Resolve, ResolveAll;
    var c' := c.(self := self);
    assert Unsafely(c).(self := self) == Unsafely(c');
    SameResolveAll(c', env, m.params);
    SameResolve(c', env, m.ret);
  }

  // ---- acceptance outside of unsafe code ----

  /** A result outside of unsafe code, against the result inside. */
  predicate Gates(safe: Typed, unsafely: Typed, gated: bool) {
    && safe.ty == unsafely.ty && safe.returned == unsafely.returned
    && (safe.errors == 0 <==> unsafely.errors == 0 && gated)
  }

  /** Outside of unsafe code an expression is accepted exactly when it is accepted inside and its raw
      dereferences are all gated; its type is the same. */
  lemma {:induction false} ExprGates(c: Ctx, env: Env, e: Expr)
    requires CheckedExpr(e) && !c.isUnsafe
    ensures Gates(CheckExpr(c, env, e), CheckExpr(Unsafely(c), env, e), GatedExpr(c, env, e, false))
    decreases e, 2
  {
    hide CheckExpr, GatedExpr, CheckedExpr;
    match e {
      case Binary(_, _, _) => OperatorGates(c, env, e);
      case Unary(_, _) => OperatorGates(c, env, e);
      case Call(_, _) => AppliedGates(c, env, e);
      case MethodCall(_, _, _) => AppliedGates(c, env, e);
      case Field(_, _) => FieldGates(c, env, e);
      case Index(_, _) => IndexGates(c, env, e);
      case Slice(_, _, _) => SliceGates(c, env, e);
      case Cast(_, _) => ConvertGates(c, env, e);
      case Try(_) => ConvertGates(c, env, e);
      case ErrorCapture(_, _, _) => AppliedGates(c, env, e);
      case Unsafe(_) => UnsafeGates(c, env, e);
      case ArrayLit(_, _, _, _) => ArrayLitGates(c, env, e);
      case StructLit(_, _) => AppliedGates(c, env, e);
      case _ => AtomGates(c, env, e);
    }
  }

  lemma {:induction false} AtomGates(c: Ctx, env: Env, e: Expr)
    requires !e.Binary? && !e.Unary? && !e.Call? && !e.MethodCall? && !e.Field? && !e.Index? && !e.Slice? && !e.Cast?
    requires !e.Try? && !e.ErrorCapture? && !e.Unsafe? && !e.ArrayLit? && !e.StructLit?
    ensures Gates(CheckExpr(c, env, e), CheckExpr(Unsafely(c), env, e), GatedExpr(c, env, e, false))
  {
    hide CheckName, LiteralType;
    if e.Ident? { SameName(c, env, e.name); }
  }

  lemma {:induction false} OperatorGates(c: Ctx, env: Env, e: Expr)
    requires (e.Binary? || e.Unary?) && CheckedExpr(e) && !c.isUnsafe
    ensures Gates(CheckExpr(c, env, e), CheckExpr(Unsafely(c), env, e), GatedExpr(c, env, e, false))
    decreases e, 1
  {
    hide BinaryType, UnaryType;
    if e.Binary? {
      ExprGates(c, env, e.left);
      ExprGates(c, env, e.right);
    } else {
      ExprGates(c, env, e.operand);
      SameUnary(e.op, CheckExpr(c, env, e.operand).ty);
    }
  }

  lemma {:induction false} FieldGates(c: Ctx, env: Env, e: Expr)
    requires e.Field? && CheckedExpr(e) && !c.isUnsafe
    ensures Gates(CheckExpr(c, env, e), CheckExpr(Unsafely(c), env, e), GatedExpr(c, env, e, false))
    decreases e, 1
  {
    hide FieldType;
    ExprGates(c, env, e.obj);
    SameField(c, env, CheckExpr(c, env, e.obj).ty, e.name);
  }

  function IndexType(o: Typed, i: Typed): Typed {
    With(Typed(if o.ty.ArrayT? || o.ty.SliceT? then o.ty.base else VoidT, 0, false), With(o, i))
  }

  lemma {:induction false} IndexParts(c: Ctx, env: Env, e: Expr)
    requires e.Index?
    ensures CheckExpr(c, env, e) == IndexType(CheckExpr(c, env, e.obj), CheckExpr(c, env, e.index))
    ensures GatedExpr(c, env, e, false) == (GatedExpr(c, env, e.obj, false) && GatedExpr(c, env, e.index, false))
    ensures CheckedExpr(e) == (CheckedExpr(e.obj) && CheckedExpr(e.index))
  {
    hide CheckCall, CheckMethodCall, CheckCapture, CheckStruct, CheckBlock, CheckElems, ArrayLitType, LiteralType, CheckName,
         BinaryType, UnaryType, GatedBlock, GatedEach, GatedInits, CaptureScope, FieldType, TryType, Resolve, With;
  }

  lemma {:induction false} IndexGates(c: Ctx, env: Env, e: Expr)
    requires e.Index? && CheckedExpr(e) && !c.isUnsafe
    ensures Gates(CheckExpr(c, env, e), CheckExpr(Unsafely(c), env, e), GatedExpr(c, env, e, false))
    decreases e, 1
  {
    hide CheckExpr, GatedExpr, CheckedExpr;
    IndexParts(c, env, e);
    IndexParts(Unsafely(c), env, e);
    ExprGates(c, env, e.obj);
    ExprGates(c, env, e.index);
  }

  function SliceParts(o: Typed, lo: Typed, hi: Typed): Typed {
    With(Typed(VoidT, 0, false), With(o, With(lo, hi)))
  }

  lemma {:induction false} SliceSplits(c: Ctx, env: Env, e: Expr)
    requires e.Slice?
    ensures CheckExpr(c, env, e) == SliceParts(CheckExpr(c, env, e.obj), CheckExpr(c, env, e.start), CheckExpr(c, env, e.end))
  {
    hide CheckCall, CheckMethodCall, CheckCapture, CheckStruct, CheckBlock, CheckElems, ArrayLitType, LiteralType, CheckName,
         BinaryType, UnaryType, GatedBlock, GatedEach, GatedInits, CaptureScope, FieldType, TryType, Resolve, With;
  }

  lemma {:induction false} SliceGated(c: Ctx, env: Env, e: Expr)
    requires e.Slice?
    ensures GatedExpr(c, env, e, false)
      == (GatedExpr(c, env, e.obj, false) && GatedExpr(c, env, e.start, false) && GatedExpr(c, env, e.end, false))
    ensures CheckedExpr(e) == (CheckedExpr(e.obj) && CheckedExpr(e.start) && CheckedExpr(e.end))
  {
  }

  lemma {:induction false} SliceGates(c: Ctx, env: Env, e: Expr)
    requires e.Slice? && CheckedExpr(e) && !c.isUnsafe
    ensures Gates(CheckExpr(c, env, e), CheckExpr(Unsafely(c), env, e), GatedExpr(c, env, e, false))
    decreases e, 1
  {
    hide CheckExpr, GatedExpr, CheckedExpr;
    SliceSplits(c, env, e);
    SliceSplits(Unsafely(c), env, e);
    SliceGated(c, env, e);
    ExprGates(c, env, e.obj);
    ExprGates(c, env, e.start);
    ExprGates(c, env, e.end);
  }

  lemma {:induction false} ConvertGates(c: Ctx, env: Env, e: Expr)
    requires (e.Cast? || e.Try?) && CheckedExpr(e) && !c.isUnsafe
    ensures Gates(CheckExpr(c, env, e), CheckExpr(Unsafely(c), env, e), GatedExpr(c, env, e, false))
    decreases e, 1
  {
    hide Resolve, TryType;
    if e.Cast? {
      ExprGates(c, env, e.expr);
      SameResolve(c, env, e.target);
    } else {
      ExprGates(c, env, e.expr);
      SameTry(c, CheckExpr(c, env, e.expr), CheckExpr(Unsafely(c), env, e.expr));
    }
  }

  lemma {:induction false} UnsafeGates(c: Ctx, env: Env, e: Expr)
    requires (e.Unsafe?) && CheckedExpr(e) && !c.isUnsafe
    ensures Gates(CheckExpr(c, env, e), CheckExpr(Unsafely(c), env, e), GatedExpr(c, env, e, false))
    decreases e, 1
  {
    hide CheckBlock, GatedBlock;
    InsideBlock(c, env, e.body);
  }

  lemma {:induction false} ArrayLitGates(c: Ctx, env: Env, e: Expr)
    requires (e.ArrayLit?) && CheckedExpr(e) && !c.isUnsafe
    ensures Gates(CheckExpr(c, env, e), CheckExpr(Unsafely(c), env, e), GatedExpr(c, env, e, false))
    decreases e, 1
  {
    hide ArrayLitType, CheckElems, GatedEach;
    ElemsGate(c, env, e.elems, None);
    ArrayGates(c, env, e.elemType, e.length, CheckElems(c, env, e.elems, None), CheckElems(Unsafely(c), env, e.elems, None));
  }

  lemma {:induction false} AppliedGates(c: Ctx, env: Env, e: Expr)
    requires (e.Call? || e.MethodCall? || e.ErrorCapture? || e.StructLit?) && CheckedExpr(e) && !c.isUnsafe
    ensures Gates(CheckExpr(c, env, e), CheckExpr(Unsafely(c), env, e), GatedExpr(c, env, e, false))
    decreases e, 1
  {
    hide CheckCall, CheckMethodCall, CheckCapture, CheckStruct, GatedBlock, GatedEach, GatedInits, CheckedExpr, CaptureScope;
    if e.Call? {
      CallGates(c, env, e);
    } else if e.MethodCall? {
      MethodGates(c, env, e);
    } else if e.ErrorCapture? {
      CaptureGates(c, env, e);
    } else {
      StructGates(c, env, e);
    }
  }

  lemma SameName(c: Ctx, env: Env, x: string)
    ensures CheckName(Unsafely(c), env, x) == CheckName(c, env, x)
  {
  }

  lemma SameUnary(op: Op, t: Ty)
    ensures UnaryType(false, op, t).0 == UnaryType(true, op, t).0
    ensures UnaryType(false, op, t).1 == 0 <==> UnaryType(true, op, t).1 == 0 && !(op.Star? && t.PointerT?)
  {
  }

  lemma SameField(c: Ctx, env: Env, t: Ty, name: string)
    ensures FieldType(Unsafely(c), env, t, name) == FieldType(c, env, t, name)
  {
  }

  lemma SameTry(c: Ctx, safe: Typed, unsafely: Typed)
    requires safe.ty == unsafely.ty && safe.returned == unsafely.returned
    ensures TryType(c, safe).ty == TryType(Unsafely(c), unsafely).ty
    ensures TryType(c, safe).returned == TryType(Unsafely(c), unsafely).returned
    ensures
      TryType(c, safe).errors - safe.errors == TryType(Unsafely(c), unsafely).errors - unsafely.errors
      && TryType(c, safe).errors >= safe.errors
  {
  }

  lemma ArrayGates(c: Ctx, env: Env, t: TypeExpr, length: Expr, safe: (Option<Ty>, nat, bool),
                   unsafely: (Option<Ty>, nat, bool))
    requires safe.0 == unsafely.0 && safe.2 == unsafely.2
    ensures
      var a, b := ArrayLitType(c, env, t, length, safe), ArrayLitType(Unsafely(c), env, t, length, unsafely);
      a.ty == b.ty && a.returned == b.returned && a.errors - safe.1 == b.errors - unsafely.1 && a.errors >= safe.1
  {
    hide Resolve;
    SameResolve(c, env, t);
  }

  lemma {:induction false} CallGates(c: Ctx, env: Env, e: Expr)
    requires e.Call? && CheckedExpr(e) && !c.isUnsafe
    ensures Gates(CheckCall(c, env, e), CheckCall(Unsafely(c), env, e),
                  GatedExpr(c, env, e.callee, false) && GatedEach(c, env, e.args, false))
    decreases e, 0
  {
    hide CheckExpr, CheckArgs, GatedExpr, GatedEach;
    ExprGates(c, env, e.callee);
    var ft := CheckExpr(c, env, e.callee).ty;
    if ft.FunctionT? { ArgsGate(c, env, e.args, ft.params); }
  }

  lemma {:induction false} MethodGates(c: Ctx, env: Env, e: Expr)
    requires e.MethodCall? && CheckedExpr(e) && !c.isUnsafe
    ensures Gates(CheckMethodCall(c, env, e), CheckMethodCall(Unsafely(c), env, e),
                  GatedExpr(c, env, e.receiver, false) && GatedEach(c, env, e.args, false))
    decreases e, 0
  {
    hide CheckExpr, CheckArgs, GatedExpr, GatedEach, CanCoerce, FnType, TypeName;
    ExprGates(c, env, e.receiver);
    var ot := CheckExpr(c, env, e.receiver).ty;
    var m := MethodOf(c, ot, e.name);
    if m.Some? {
      SameFnType(c, env, Some(Concrete(ot)), m.value);
      var f := FnType(c.(self := Some(Concrete(ot))), env, m.value);
      if f.0 != [] { ArgsGate(c, env, e.args, f.0[1..]); }
    }
  }

  lemma {:induction false} ArgsGate(c: Ctx, env: Env, args: seq<Expr>, params: seq<Ty>)
    requires CheckedEach(args) && !c.isUnsafe
    ensures Gates(CheckArgs(c, env, args, params), CheckArgs(Unsafely(c), env, args, params), GatedEach(c, env, args, false))
    decreases args, 1
  {
    hide CheckEach, GatedEach;
    if |args| == |params| { EachGates(c, env, args, params); }
  }

  lemma {:induction false} EachGates(c: Ctx, env: Env, args: seq<Expr>, params: seq<Ty>)
    requires CheckedEach(args) && !c.isUnsafe && |args| == |params|
    ensures Gates(CheckEach(c, env, args, params), CheckEach(Unsafely(c), env, args, params), GatedEach(c, env, args, false))
    decreases args, 0
  {
    hide CheckExpr, CanCoerce, GatedExpr;
    if args != [] {
      ExprGates(c, env, args[0]);
      EachGates(c, env, args[1..], params[1..]);
    }
  }

  lemma {:induction false} ElemsGate(c: Ctx, env: Env, elems: seq<Expr>, sofar: Option<Ty>)
    requires CheckedEach(elems) && !c.isUnsafe
    ensures
      var a, b := CheckElems(c, env, elems, sofar), CheckElems(Unsafely(c), env, elems, sofar);
      a.0 == b.0 && a.2 == b.2 && (a.1 == 0 <==> b.1 == 0 && GatedEach(c, env, elems, false))
    decreases elems, 0
  {
    hide CheckExpr, CanCoerce, GatedExpr, Element;
    if elems != [] {
      ExprGates(c, env, elems[0]);
      ElemsGate(c, env, elems[1..], Some(Element(sofar, CheckExpr(c, env, elems[0]).ty).0));
    }
  }

  lemma {:induction false} CaptureGates(c: Ctx, env: Env, e: Expr)
    requires e.ErrorCapture? && CheckedExpr(e) && !c.isUnsafe
    ensures Gates(CheckCapture(c, env, e), CheckCapture(Unsafely(c), env, e),
                  GatedExpr(c, env, e.expr, false) && GatedBlock(c, CaptureScope(c, env, e.expr, e.name), e.fallback, false))
    decreases e, 0
  {
    hide CheckExpr, CheckBlock, GatedBlock, CanCoerce, Divergence.BlockDiverges;
    if e.expr.Try? {
      ExprGates(c, env, e.expr.expr);
      var inner := CheckExpr(c, env, e.expr.expr).ty;
      if inner.ErrorUnionT? { BlockGates(c, [[Binding(e.name, false, inner.error)]] + env, e.fallback); }
    }
  }

  lemma {:induction false} StructGates(c: Ctx, env: Env, e: Expr)
    requires e.StructLit? && CheckedExpr(e) && !c.isUnsafe
    ensures Gates(CheckStruct(c, env, e), CheckStruct(Unsafely(c), env, e), GatedInits(c, env, e.inits, false))
    decreases e, 0
  {
    hide Resolve, CheckInits, GatedInits;
    SameResolve(c, env, e.typ);
    var fields := c.names.fields(Resolve(c, env, e.typ).ty);
    if fields.Some? { InitsGate(c, env, e.inits, fields.value); }
  }

  lemma {:induction false} InitsGate(c: Ctx, env: Env, inits: seq<FieldInit>, fields: seq<(string, TypeExpr)>)
    requires CheckedInits(inits) && !c.isUnsafe
    ensures Gates(CheckInits(c, env, inits, fields), CheckInits(Unsafely(c), env, inits, fields), GatedInits(c, env, inits, false))
    decreases inits, 0
  {
    hide CheckExpr, GatedExpr, InitType, FieldNamed;
    if inits != [] {
      var field := FieldNamed(fields, inits[0].name);
      ExprGates(c, env, inits[0].value);
      SameInit(c, env, CheckExpr(c, env, inits[0].value), CheckExpr(Unsafely(c), env, inits[0].value), field);
      InitsGate(c, env, inits[1..], fields);
    }
  }

  lemma SameInit(c: Ctx, env: Env, safe: Typed, unsafely: Typed, field: Option<TypeExpr>)
    requires safe.ty == unsafely.ty && safe.returned == unsafely.returned
    ensures
      var a, b := InitType(c, env, safe, field), InitType(Unsafely(c), env, unsafely, field);
      a.returned == b.returned && a.errors - safe.errors == b.errors - unsafely.errors && a.errors >= safe.errors
  {
    hide Resolve;
    if field.Some? { SameResolve(c, env, field.value); }
  }

  lemma {:induction false} BlockGates(c: Ctx, env: Env, b: Block)
    requires CheckedBlock(b) && !c.isUnsafe
    ensures Gates(CheckBlock(c, env, b), CheckBlock(Unsafely(c), env, b), GatedBlock(c, env, b, false))
    decreases b, 0
  {
    hide CheckExpr, CheckStmts, GatedExpr, GatedStmts;
    if b != NoBlock {
      StmtsGate(c, [[]] + env, b.stmts, VoidT);
      ExprGates(c, CheckStmts(c, [[]] + env, b.stmts, VoidT).env, b.trailing);
      NothingGated(c, CheckStmts(c, [[]] + env, b.stmts, VoidT).env);
    }
  }

  lemma {:induction false} NothingGated(c: Ctx, env: Env)
    ensures GatedExpr(c, env, NoExpr, false)
  {
  }

  lemma {:induction false} StmtsGate(c: Ctx, env: Env, stmts: seq<Stmt>, last: Ty)
    requires CheckedStmts(stmts) && !c.isUnsafe
    ensures
      var a, b := CheckStmts(c, env, stmts, last), CheckStmts(Unsafely(c), env, stmts, last);
      Gates(a.t, b.t, GatedStmts(c, env, stmts, false)) && a.env == b.env
    decreases stmts, 0
  {
    hide CheckStmt, GatedStmt;
    if stmts != [] {
      StmtGates(c, env, stmts[0]);
      var first := CheckStmt(c, env, stmts[0]);
      StmtsGate(c, first.env, stmts[1..], first.t.ty);
    }
  }

  lemma {:induction false} StmtGates(c: Ctx, env: Env, st: Stmt)
    requires CheckedStmt(st) && !c.isUnsafe
    ensures
      var a, b := CheckStmt(c, env, st), CheckStmt(Unsafely(c), env, st);
      Gates(a.t, b.t, GatedStmt(c, env, st, false)) && a.env == b.env
    decreases st, 1
  {
    hide CheckExpr, CheckBlock, CanCoerce, Resolve, Bind, CanReturn, GatedExpr, GatedBlock;
    match st {
      case VarDecl(_, _, t, init) => ExprGates(c, env, init); SameResolve(c, env, t);
      case Return(v) => ExprGates(c, env, v);
      case ExprStmt(e) => ExprGates(c, env, e);
      case BlockStmt(b) => BlockGates(c, env, b);
      case If(_, _, _) => IfGates(c, env, st);
      case While(cond, body) => ExprGates(c, env, cond); BlockGates(c, env, body);
      case For(_, _, _, _) => ForGates(c, env, st);
      case Defer(e) => ExprGates(c, env, e);
      case ErrDefer(b) => BlockGates(c, env, b);
      case AssignStmt(_, lhs, rhs) => ExprGates(c, env, lhs); ExprGates(c, env, rhs);
      case _ =>
    }
  }

  lemma {:induction false} IfGates(c: Ctx, env: Env, st: Stmt)
    requires st.If? && CheckedStmt(st) && !c.isUnsafe
    ensures
      var a, b := CheckStmt(c, env, st), CheckStmt(Unsafely(c), env, st);
      Gates(a.t, b.t, GatedStmt(c, env, st, false)) && a.env == b.env
    decreases st, 0
  {
    hide CheckExpr, CheckBlock, GatedExpr, GatedBlock;
    ExprGates(c, env, st.cond);
    BlockGates(c, env, st.thn);
    if st.els.BlockStmt? { BlockGates(c, env, st.els.block); }
  }

  lemma {:induction false} ForGates(c: Ctx, env: Env, st: Stmt)
    requires st.For? && CheckedStmt(st) && !c.isUnsafe
    ensures
      var a, b := CheckStmt(c, env, st), CheckStmt(Unsafely(c), env, st);
      Gates(a.t, b.t, GatedStmt(c, env, st, false)) && a.env == b.env
    decreases st, 0
  {
    hide CheckExpr, CheckBlock, Resolve, GatedExpr, GatedBlock;
    ExprGates(c, [[]] + env, st.iterable);
    SameResolve(c, [[]] + env, st.typ);
    BlockGates(c, [[Binding(st.name, false, LoopType(c, env, st.typ))]] + env, st.body);
  }

  // ---- functions ----

  /** The main result: a function is accepted exactly when it would be accepted as an unsafe function and
      either is one or gates every raw dereference in its body. */
  lemma FunctionGating(names: Names, self: Option<Ty>, env: Env, f: Fn)
    requires CheckedBlock(f.body)
    ensures
      var asUnsafe := f.(isUnsafe := true);
      var entry := Entry(names, self, env, f.(isUnsafe := false));
      CheckFn(names, self, env, f) == 0
      <==> CheckFn(names, self, env, asUnsafe) == 0 && (f.isUnsafe || GatedBlock(entry.0, entry.1, f.body, false))
  {
    hide Entry, CheckBlock, GatedBlock, CanCoerce;
    var safe := f.(isUnsafe := false);
    EntrySame(names, self, env, f);
    var entry := Entry(names, self, env, safe);
    BlockGates(entry.0, entry.1, f.body);
    if f.isUnsafe { assert f == f.(isUnsafe := true); } else { assert f == safe; }
  }

  lemma EntrySame(names: Names, self: Option<Ty>, env: Env, f: Fn)
    ensures
      var s, u := Entry(names, self, env, f.(isUnsafe := false)), Entry(names, self, env, f.(isUnsafe := true));
      u == (Unsafely(s.0), s.1, s.2) && !s.0.isUnsafe && s.0.ret.Some?
  {
    hide CheckParams, Resolve;
    var c := Ctx(names, false, self, None);
    ParamsSame(c, [GenericScope(f.generics)] + env, f.params);
    var params := CheckParams(c, [GenericScope(f.generics)] + env, f.params);
    SameResolve(params.0, params.1, f.ret);
  }

  lemma {:induction false} ParamsSame(c: Ctx, env: Env, params: seq<Param>)
    requires !c.isUnsafe
    ensures
      var s, u := CheckParams(c, env, params), CheckParams(Unsafely(c), env, params);
      u == (Unsafely(s.0), s.1, s.2) && !s.0.isUnsafe
    decreases |params|
  {
    hide Resolve, Bind;
    if params != [] {
      var p := params[0];
      SameResolve(c, env, p.typ);
      var t := ParamType(c, env, p);
      var c' := if p.isSelf then c.(self := Some(t.ty)) else c;
      ParamsSame(c', Bind(env, Binding(if p.isSelf then "self" else p.name, false, t.ty)), params[1..]);
    }
  }

  // ---- reads through a raw pointer that nothing gates ----

  /** The expression is a raw pointer to a value of type `t`. */
  predicate PointsTo(c: Ctx, env: Env, p: Expr, t: Ty) {
    var pt := CheckExpr(c, env, p).ty;
    pt.PointerT? && pt.base == t && !t.PointerT? && !t.ReferenceT? && !t.SliceT?
  }

  /** Outside of unsafe code the dereference costs one error, and nothing else about it is special. */
  lemma Dereferenced(c: Ctx, env: Env, p: Expr, t: Ty)
    requires !c.isUnsafe && PointsTo(c, env, p, t)
    ensures
      var pt := CheckExpr(c, env, p);
      CheckExpr(c, env, Unary(Star, p)) == Typed(t, pt.errors + 1, pt.returned)
  {
  }

  /** `p.f` reads what `(*p).f` reads, without its error. */
  lemma FieldUngated(c: Ctx, env: Env, p: Expr, t: Ty, name: string)
    requires !c.isUnsafe && PointsTo(c, env, p, t)
    ensures
      var plain, gated := CheckExpr(c, env, Field(p, name)), CheckExpr(c, env, Field(Unary(Star, p), name));
      gated == plain.(errors := plain.errors + 1)
  {
    Dereferenced(c, env, p, t);
  }

  /** A variable of type `t` takes `p` for its value as it takes `*p`, without the error. */
  lemma StoreUngated(c: Ctx, env: Env, p: Expr, t: Ty, isConst: bool, name: string, typ: TypeExpr)
    requires !c.isUnsafe && PointsTo(c, env, p, t) && p != NoExpr && typ != NoType && Resolve(c, env, typ).ty == t
    ensures
      var plain := CheckStmt(c, env, VarDecl(isConst, name, typ, p));
      var gated := CheckStmt(c, env, VarDecl(isConst, name, typ, Unary(Star, p)));
      gated == plain.(t := plain.t.(errors := plain.t.errors + 1))
  {
    Dereferenced(c, env, p, t);
  }

  /** A method whose `self` is of type `t` may be called on `p` as on `*p`, without the error. */
  lemma CallUngated(c: Ctx, env: Env, p: Expr, t: Ty, name: string, args: seq<Expr>)
    requires !c.isUnsafe && PointsTo(c, env, p, t) && MethodOf(c, t, name).Some?
    requires
      var params := FnType(c.(self := Some(t)), env, MethodOf(c, t, name).value).0;
      params != [] && params[0] == t
    ensures
      var plain, gated := CheckExpr(c, env, MethodCall(p, name, args)), CheckExpr(c, env, MethodCall(Unary(Star, p), name, args));
      gated == plain.(errors := plain.errors + 1)
  {
    hide FnType;
    Dereferenced(c, env, p, t);
    SelfPassed(CheckExpr(c, env, p).ty, t);
    assert CheckMethodCall(c, env, MethodCall(p, name, args)).errors + 1
        == CheckMethodCall(c, env, MethodCall(Unary(Star, p), name, args)).errors;
  }

  lemma SelfPassed(pt: Ty, t: Ty)
    requires pt.PointerT? && pt.base == t && !t.PointerT? && !t.ReferenceT?
    ensures CanCoerce(pt, t) && CanCoerce(t, t)
  {
  }
}
