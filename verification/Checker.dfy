/** What the checker of function bodies reports and infers, as functions (src/sema.c:459-1050). The
    nested scopes are lists of bindings, which the bucketed scopes refine (module Scopes). */
module Checker {
  import opened Ast
  import opened Types
  import Divergence

  datatype Binding = Binding(name: string, isConst: bool, typ: Ty)

  /** Innermost scope first, each newest binding first. */
  type Env = seq<seq<Binding>>

  /** The type of a checked node, the errors reported and whether a `return` was seen. */
  datatype Typed = Typed(ty: Ty, errors: nat, returned: bool)

  datatype Checked = Checked(t: Typed, env: Env)

  datatype Signature = Signature(params: seq<TypeExpr>, ret: TypeExpr)

  /** What the checker asks of the rest of the semantic pass: a type with the errors reported on the way
      for a type expression, a constant length likewise, the fields of a type, the method of a type, and
      whether a call has type `noreturn`. */
  datatype Names = Names(
    resolve: (TypeExpr, Option<Ty>, Env) -> Typed,
    length: (Expr, Env) -> (nat, nat),
    fields: Ty -> Option<seq<(string, TypeExpr)>>,
    methods: (string, string) -> Option<Signature>,
    noret: Expr -> bool)

  datatype Ctx = Ctx(names: Names, isUnsafe: bool, self: Option<Ty>, ret: Option<Ty>)

  function Err(b: bool): nat {
    if b then 1 else 0
  }

  function Find(binds: seq<Binding>, name: string): Option<Binding> {
    if binds == [] then None else if binds[0].name == name then Some(binds[0]) else Find(binds[1..], name)
  }

  function Lookup(env: Env, name: string): Option<Binding> {
    if env == [] then None else if Find(env[0], name).Some? then Find(env[0], name) else Lookup(env[1..], name)
  }

  function Bind(env: Env, b: Binding): Env {
    if env == [] then [[b]] else [[b] + env[0]] + env[1..]
  }

  function Resolve(c: Ctx, env: Env, t: TypeExpr): Typed {
    if t == NoType then Typed(VoidT, 0, false) else c.names.resolve(t, c.self, env).(returned := false)
  }

  // ---- operators ----

  predicate Arithmetic(op: Op) {
    op.Plus? || op.Minus? || op.Star? || op.Slash? || op.Percent?
  }

  predicate Comparison(op: Op) {
    op.EqEq? || op.NotEq? || op.Lt? || op.Gt? || op.Le? || op.Ge?
  }

  predicate Bitwise(op: Op) {
    op.Amp? || op.Pipe? || op.Caret? || op.Shl? || op.Shr?
  }

  function BinaryType(op: Op, l: Ty, r: Ty): (Ty, nat) {
    if Arithmetic(op) then
      if !IsNumeric(l) || !IsNumeric(r) then (VoidT, 1)
      else (if l.FloatT? || r.FloatT? then FloatT(64) else l, 0)
    else if Comparison(op) then (BoolT, 0)
    else if op.AndAnd? || op.OrOr? then (BoolT, Err(!l.BoolT? || !r.BoolT?))
    else if Bitwise(op) then (l, Err(!l.IntT? || !r.IntT?))
    else (l, 0)
  }

  function UnaryType(isUnsafe: bool, op: Op, o: Ty): (Ty, nat) {
    if op.Minus? || op.Tilde? then (o, Err(!IsNumeric(o)))
    else if op.Bang? then (BoolT, Err(!o.BoolT?))
    else if op.Star? then
      if o.PointerT? then (o.base, Err(!isUnsafe))
      else if o.ReferenceT? then (o.base, 0)
      else (VoidT, 1)
    else if op.Amp? then (ReferenceT(false, o), 0)
    else (o, 0)
  }

  // ---- expressions ----

  function LiteralType(e: Expr): Ty {
    match e
    case IntLit(_) => IntT(true, 64)
    case FloatLit(_) => FloatT(64)
    case StringLit(_) => SliceT(true, IntT(false, 8))
    case CharLit(_) => IntT(false, 8)
    case BoolLit(_) => BoolT
    case _ => VoidT
  }

  function CheckExpr(c: Ctx, env: Env, e: Expr): Typed
    decreases e, 0
  {
    match e
    case Ident(x) => CheckName(c, env, x)
    case Binary(op, l, r) =>
      var lt := CheckExpr(c, env, l);
      var rt := CheckExpr(c, env, r);
      var t := BinaryType(op, lt.ty, rt.ty);
      Typed(t.0, lt.errors + rt.errors + t.1, lt.returned || rt.returned)
    case Unary(op, x) =>
      var xt := CheckExpr(c, env, x);
      var t := UnaryType(c.isUnsafe, op, xt.ty);
      Typed(t.0, xt.errors + t.1, xt.returned)
    case Call(_, _) => CheckCall(c, env, e)
    case MethodCall(_, _, _) => CheckMethodCall(c, env, e)
    case Field(o, name) =>
      var ot := CheckExpr(c, env, o);
      With(FieldType(c, env, ot.ty, name), ot)
    case Index(o, i) =>
      var ot := CheckExpr(c, env, o);
      With(Typed(if ot.ty.ArrayT? || ot.ty.SliceT? then ot.ty.base else VoidT, 0, false), With(ot, CheckExpr(c, env, i)))
    case Slice(o, lo, hi) =>
      With(Typed(VoidT, 0, false), With(CheckExpr(c, env, o), With(CheckExpr(c, env, lo), CheckExpr(c, env, hi))))
    case Cast(x, t) => With(Resolve(c, env, t), CheckExpr(c, env, x))
    case Try(x) => TryType(c, CheckExpr(c, env, x))
    case ErrorCapture(_, _, _) => CheckCapture(c, env, e)
    case Unsafe(body) => CheckBlock(c.(isUnsafe := true), env, body)
    case ArrayLit(t, length, elems, _) => ArrayLitType(c, env, t, length, CheckElems(c, env, elems, None))
    case StructLit(_, _) => CheckStruct(c, env, e)
    case _ => Typed(LiteralType(e), 0, false)
  }

  function CheckName(c: Ctx, env: Env, x: string): Typed {
    if (x == "self" && c.self.None?) || Lookup(env, x).None? then Typed(VoidT, 1, false)
    else Typed(Lookup(env, x).value.typ, 0, false)
  }

  function CheckCall(c: Ctx, env: Env, e: Expr): Typed
    requires e.Call?
    decreases e, -1
  {
    var ft := CheckExpr(c, env, e.callee);
    if !ft.ty.FunctionT? then Typed(VoidT, ft.errors + 1, ft.returned)
    else With(Typed(ft.ty.ret, ft.errors, ft.returned), CheckArgs(c, env, e.args, ft.ty.params))
  }

  function CheckMethodCall(c: Ctx, env: Env, e: Expr): Typed
    requires e.MethodCall?
    decreases e, -1
  {
    var ot := CheckExpr(c, env, e.receiver);
    var m := MethodOf(c, ot.ty, e.name);
    if m.None? then Typed(VoidT, ot.errors + 1, ot.returned)
    else
      var f := FnType(c.(self := Some(Concrete(ot.ty))), env, m.value);
      if f.0 == [] then Typed(VoidT, ot.errors + f.2 + 1, ot.returned)
      else
        With(Typed(f.1, ot.errors + f.2 + Err(!CanCoerce(ot.ty, f.0[0])), ot.returned),
             CheckArgs(c, env, e.args, f.0[1..]))
  }

  /** Parameter types, result type and the errors of a signature. */
  function FnType(c: Ctx, env: Env, m: Signature): (seq<Ty>, Ty, nat) {
    var params := ResolveAll(c, env, m.params);
    var ret := Resolve(c, env, m.ret);
    (params.0, ret.ty, params.1 + ret.errors)
  }

  /** A fallback that does not diverge must produce the success type. */
  function CheckCapture(c: Ctx, env: Env, e: Expr): Typed
    requires e.ErrorCapture?
    decreases e, -1
  {
    if !e.expr.Try? then Typed(VoidT, 1, false)
    else
      var inner := CheckExpr(c, env, e.expr.expr);
      if !inner.ty.ErrorUnionT? then inner.(errors := inner.errors + 1)
      else
        var fb := CheckBlock(c, [[Binding(e.name, false, inner.ty.error)]] + env, e.fallback);
        var bad := !Divergence.BlockDiverges(c.names.noret, e.fallback) && !CanCoerce(fb.ty, inner.ty.success);
        Typed(inner.ty.success, inner.errors + fb.errors + Err(bad), inner.returned || fb.returned)
  }

  function CheckStruct(c: Ctx, env: Env, e: Expr): Typed
    requires e.StructLit?
    decreases e, -1
  {
    var st := Resolve(c, env, e.typ);
    var fields := c.names.fields(st.ty);
    if fields.None? then st.(errors := st.errors + Err(e.typ != NoType))
    else With(st, CheckInits(c, env, e.inits, fields.value))
  }

  /** The first type, with the errors and the returned of both. */
  function With(a: Typed, b: Typed): Typed {
    Typed(a.ty, a.errors + b.errors, a.returned || b.returned)
  }

  function Concrete(t: Ty): Ty {
    if t.PointerT? || t.ReferenceT? then t.base else t
  }

  /** Methods are looked up through any number of pointers and references. */
  function TypeName(t: Ty): string {
    match t
    case PointerT(_, base) => TypeName(base)
    case ReferenceT(_, base) => TypeName(base)
    case StructT(name) => name
    case _ => ""
  }

  function MethodOf(c: Ctx, t: Ty, name: string): Option<Signature> {
    var typeName := TypeName(Concrete(t));
    if typeName == "" then None else c.names.methods(typeName, name)
  }

  function ResolveAll(c: Ctx, env: Env, ts: seq<TypeExpr>): (r: (seq<Ty>, nat))
    ensures |r.0| == |ts|
  {
    if ts == [] then ([], 0)
    else
      var t := Resolve(c, env, ts[0]);
      var rest := ResolveAll(c, env, ts[1..]);
      ([t.ty] + rest.0, t.errors + rest.1)
  }

  function FieldType(c: Ctx, env: Env, t: Ty, name: string): Typed {
    if t.SliceT? && name == "ptr" then Typed(PointerT(false, t.base), 0, false)
    else if t.SliceT? && name == "len" then Typed(IntT(false, 64), 0, false)
    else
      var fields := c.names.fields(Concrete(t));
      if fields.None? then Typed(VoidT, 1, false)
      else
        var field := FieldNamed(fields.value, name);
        if field.None? then Typed(VoidT, 1, false) else Resolve(c, env, field.value)
  }

  function FieldNamed(fields: seq<(string, TypeExpr)>, name: string): Option<TypeExpr> {
    if fields == [] then None else if fields[0].0 == name then Some(fields[0].1) else FieldNamed(fields[1..], name)
  }

  function TryType(c: Ctx, inner: Typed): Typed {
    if !inner.ty.ErrorUnionT? then inner.(errors := inner.errors + 1)
    else
      var lost := c.ret.None? || !c.ret.value.ErrorUnionT? || !CanCoerce(inner.ty.error, c.ret.value.error);
      Typed(inner.ty.success, inner.errors + Err(lost), inner.returned)
  }

  /** Arguments are checked only when their number is right. */
  function CheckArgs(c: Ctx, env: Env, args: seq<Expr>, params: seq<Ty>): (r: Typed)
    ensures r.ty == VoidT
    decreases args, 1
  {
    if |args| != |params| then Typed(VoidT, 1, false) else CheckEach(c, env, args, params)
  }

  function CheckEach(c: Ctx, env: Env, args: seq<Expr>, params: seq<Ty>): (r: Typed)
    requires |args| == |params|
    ensures r.ty == VoidT
    decreases args, 0
  {
    if args == [] then Typed(VoidT, 0, false)
    else
      var a := CheckExpr(c, env, args[0]);
      var rest := CheckEach(c, env, args[1..], params[1..]);
      Typed(VoidT, a.errors + Err(!CanCoerce(a.ty, params[0])) + rest.errors, a.returned || rest.returned)
  }

  /** The element type found so far and one more element. */
  function Element(sofar: Option<Ty>, t: Ty): (Ty, nat) {
    if sofar.None? then (t, 0)
    else if sofar.value == t || CanCoerce(t, sofar.value) then (sofar.value, 0)
    else if CanCoerce(sofar.value, t) then (t, 0)
    else (sofar.value, 1)
  }

  function CheckElems(c: Ctx, env: Env, elems: seq<Expr>, sofar: Option<Ty>): (Option<Ty>, nat, bool)
    decreases elems, 0
  {
    if elems == [] then (sofar, 0, false)
    else
      var e := CheckExpr(c, env, elems[0]);
      var t := Element(sofar, e.ty);
      var rest := CheckElems(c, env, elems[1..], Some(t.0));
      (rest.0, e.errors + t.1 + rest.1, e.returned || rest.2)
  }

  function ArrayLitType(c: Ctx, env: Env, t: TypeExpr, length: Expr, elems: (Option<Ty>, nat, bool)): Typed {
    var given := Resolve(c, env, t);
    var bad := t != NoType && elems.0.Some? && !CanCoerce(elems.0.value, given.ty);
    var base := if t != NoType then given.ty else elems.0.GetOr(VoidT);
    var size := if length == NoExpr then (0, 0) else c.names.length(length, env);
    Typed(if length == NoExpr then SliceT(false, base) else ArrayT(size.0, base),
          elems.1 + given.errors + Err(bad) + size.1, elems.2)
  }

  function CheckInits(c: Ctx, env: Env, inits: seq<FieldInit>, fields: seq<(string, TypeExpr)>): (r: Typed)
    ensures r.ty == VoidT
    decreases inits, 0
  {
    if inits == [] then Typed(VoidT, 0, false)
    else
      var v := CheckExpr(c, env, inits[0].value);
      With(InitType(c, env, v, FieldNamed(fields, inits[0].name)), CheckInits(c, env, inits[1..], fields))
  }

  function InitType(c: Ctx, env: Env, v: Typed, field: Option<TypeExpr>): Typed {
    if field.None? then Typed(VoidT, v.errors + 1, v.returned)
    else
      var t := Resolve(c, env, field.value);
      Typed(VoidT, v.errors + t.errors + Err(!CanCoerce(v.ty, t.ty)), v.returned)
  }

  // ---- blocks and statements ----

  /** A block is checked in a new scope; its type is that of its last item. */
  function CheckBlock(c: Ctx, env: Env, b: Block): Typed
    decreases b, 0
  {
    if b == NoBlock then Typed(VoidT, 0, false)
    else
      var all := CheckStmts(c, [[]] + env, b.stmts, VoidT);
      if b.trailing == NoExpr then all.t
      else With(CheckExpr(c, all.env, b.trailing), all.t)
  }

  function CheckStmts(c: Ctx, env: Env, stmts: seq<Stmt>, last: Ty): Checked
    decreases stmts, 0
  {
    if stmts == [] then Checked(Typed(last, 0, false), env)
    else
      var first := CheckStmt(c, env, stmts[0]);
      var rest := CheckStmts(c, first.env, stmts[1..], first.t.ty);
      Checked(With(rest.t, first.t), rest.env)
  }

  /** Statements other than declarations leave the scope as it is, and only blocks have a type. */
  function CheckStmt(c: Ctx, env: Env, st: Stmt): Checked
    decreases st, 0
  {
    match st
    case VarDecl(isConst, name, t, init) =>
      var v := CheckExpr(c, env, init);
      var given := Resolve(c, env, t);
      var bad := t != NoType && init != NoExpr && !CanCoerce(v.ty, given.ty);
      Checked(Typed(VoidT, v.errors + given.errors + Err(bad), v.returned),
              Bind(env, Binding(name, isConst, if t != NoType then given.ty else v.ty)))
    case BlockStmt(b) => Checked(CheckBlock(c, env, b), env)
    case Return(v) => Checked(ReturnType(c, CheckExpr(c, env, v)), env)
    case ExprStmt(e) => Silent(CheckExpr(c, env, e), env)
    case If(cond, thn, els) =>
      var ct := CheckExpr(c, env, cond);
      var both := With(CheckBlock(c, env, thn), CheckElse(c, env, els));
      Silent(Typed(VoidT, ct.errors + Err(!ct.ty.BoolT?) + both.errors, ct.returned || both.returned), env)
    case While(cond, body) =>
      var ct := CheckExpr(c, env, cond);
      var bt := CheckBlock(c, env, body);
      Silent(Typed(VoidT, ct.errors + Err(!ct.ty.BoolT?) + bt.errors, ct.returned || bt.returned), env)
    case For(name, t, iter, body) =>
      var it := CheckExpr(c, [[]] + env, iter);
      var vt := if t != NoType then Resolve(c, [[]] + env, t) else Typed(IntT(true, 64), 0, false);
      var bt := CheckBlock(c, [[Binding(name, false, vt.ty)]] + env, body);
      Silent(With(it, With(vt, bt)), env)
    case Defer(e) => Silent(CheckExpr(c, env, e), env)
    case ErrDefer(b) =>
      var misplaced := c.ret.None? || !c.ret.value.ErrorUnionT?;
      Silent(With(Typed(VoidT, Err(misplaced), false), CheckBlock(c, env, b)), env)
    case Match(e, _) => Silent(CheckExpr(c, env, e), env)
    case AssignStmt(_, lhs, rhs) =>
      var lt := CheckExpr(c, env, lhs);
      var rt := CheckExpr(c, env, rhs);
      Silent(Typed(VoidT, lt.errors + rt.errors + Err(ToConstant(c, env, lhs)) + Err(!CanCoerce(rt.ty, lt.ty)),
                   lt.returned || rt.returned), env)
    case _ => Checked(Typed(VoidT, 0, false), env)
  }

  function Silent(t: Typed, env: Env): Checked {
    Checked(Typed(VoidT, t.errors, t.returned), env)
  }

  /** An `else` is checked as a block; an `else if` is not covered. */
  function CheckElse(c: Ctx, env: Env, els: Stmt): Typed
    decreases els, 1
  {
    if els.BlockStmt? then CheckBlock(c, env, els.block) else Typed(VoidT, 0, false)
  }

  /** The left side names a constant; `self` outside of methods names nothing. */
  predicate ToConstant(c: Ctx, env: Env, lhs: Expr) {
    && lhs.Ident? && !(lhs.name == "self" && c.self.None?)
    && Lookup(env, lhs.name).Some? && Lookup(env, lhs.name).value.isConst
  }

  /** A returned value is compared with the declared type only when it was itself without error. */
  function ReturnType(c: Ctx, v: Typed): Typed {
    var expected := c.ret.GetOr(VoidT);
    Typed(VoidT, v.errors + Err(v.errors == 0 && !CanReturn(v.ty, expected)), true)
  }

  predicate CanReturn(t: Ty, expected: Ty) {
    if expected.ErrorUnionT? then t == expected || CanCoerce(t, expected.error) || CanCoerce(t, expected.success)
    else CanCoerce(t, expected)
  }

  // ---- functions ----

  datatype Param = Param(name: string, isSelf: bool, typ: TypeExpr)

  datatype Fn = Fn(isUnsafe: bool, generics: seq<string>, params: seq<Param>, ret: TypeExpr, body: Block)

  /** The type of one parameter; `self` without a type has the type of Self. */
  function ParamType(c: Ctx, env: Env, p: Param): Typed {
    if p.isSelf && p.typ == NoType then Typed(c.self.GetOr(VoidT), Err(c.self.None?), false)
    else
      var t := Resolve(c, env, p.typ);
      t.(errors := t.errors + Err(p.isSelf && c.self.None?))
  }

  /** The context and the scope after the parameters, and the errors on the way. */
  function CheckParams(c: Ctx, env: Env, params: seq<Param>): (Ctx, Env, nat)
    decreases |params|
  {
    if params == [] then (c, env, 0)
    else
      var p := params[0];
      var t := ParamType(c, env, p);
      var c' := if p.isSelf then c.(self := Some(t.ty)) else c;
      var rest := CheckParams(c', Bind(env, Binding(if p.isSelf then "self" else p.name, false, t.ty)), params[1..]);
      (rest.0, rest.1, t.errors + rest.2)
  }

  function GenericScope(generics: seq<string>): seq<Binding> {
    if generics == [] then []
    else [Binding(generics[|generics| - 1], false, VoidT)] + GenericScope(generics[..|generics| - 1])
  }

  /** The context and the scope in which the body of a function is checked, and the errors before it. */
  function Entry(names: Names, self: Option<Ty>, env: Env, f: Fn): (Ctx, Env, nat) {
    var params := CheckParams(Ctx(names, f.isUnsafe, self, None), [GenericScope(f.generics)] + env, f.params);
    var ret := Resolve(params.0, params.1, f.ret);
    (params.0.(ret := Some(ret.ty)), params.1, params.2 + ret.errors)
  }

  /** The number of errors in a function; the value of its body is compared with its result type only
      when the body has no `return`. */
  function CheckFn(names: Names, self: Option<Ty>, env: Env, f: Fn): nat {
    var entry := Entry(names, self, env, f);
    var body := CheckBlock(entry.0, entry.1, f.body);
    entry.2 + body.errors + Err(!body.returned && !body.ty.NoReturnT? && !CanCoerce(body.ty, entry.0.ret.value))
  }

  lemma NoTypeResolves(c: Ctx, env: Env)
    ensures Resolve(c, env, NoType) == Typed(VoidT, 0, false)
  {
  }

  // ---- one round of each loop of the checker ----

  lemma {:induction false} EachRound(c: Ctx, env: Env, args: seq<Expr>, params: seq<Ty>, i: nat, done: Typed)
    requires i < |args| == |params| && done.ty == VoidT
    ensures
      var a := CheckExpr(c, env, args[i]);
      With(done, CheckEach(c, env, args[i..], params[i..]))
      == With(With(done, Typed(VoidT, a.errors + Err(!CanCoerce(a.ty, params[i])), a.returned)),
              CheckEach(c, env, args[i + 1..], params[i + 1..]))
  {
    hide CheckExpr, CanCoerce;
    assert args[i..][1..] == args[i + 1..] && params[i..][1..] == params[i + 1..];
  }

  lemma {:induction false} EachEnd(c: Ctx, env: Env, args: seq<Expr>, params: seq<Ty>)
    requires args == [] && params == []
    ensures CheckEach(c, env, args, params) == Typed(VoidT, 0, false)
  {
  }

  lemma {:induction false} ElemsRound(c: Ctx, env: Env, elems: seq<Expr>, i: nat, sofar: Option<Ty>)
    requires i < |elems|
    ensures
      var e := CheckExpr(c, env, elems[i]);
      var t := Element(sofar, e.ty);
      var rest := CheckElems(c, env, elems[i + 1..], Some(t.0));
      CheckElems(c, env, elems[i..], sofar) == (rest.0, e.errors + t.1 + rest.1, e.returned || rest.2)
  {
    hide CheckExpr, Element;
    assert elems[i..][1..] == elems[i + 1..];
  }

  lemma {:induction false} ElemsEnd(c: Ctx, env: Env, elems: seq<Expr>, sofar: Option<Ty>)
    requires elems == []
    ensures CheckElems(c, env, elems, sofar) == (sofar, 0, false)
  {
  }

  lemma {:induction false} InitsRound(c: Ctx, env: Env, inits: seq<FieldInit>, i: nat, fields: seq<(string,
      TypeExpr)>, done: Typed)
    requires i < |inits|
    ensures
      var v := CheckExpr(c, env, inits[i].value);
      With(done, CheckInits(c, env, inits[i..], fields))
      == With(With(done, InitType(c, env, v, FieldNamed(fields, inits[i].name))), CheckInits(c, env, inits[i + 1..], fields))
  {
    hide CheckExpr, FieldNamed, InitType;
    assert inits[i..][1..] == inits[i + 1..];
  }

  lemma InitTypeSplits(c: Ctx, env: Env, v: Typed, field: Option<TypeExpr>)
    ensures InitType(c, env, v, field)
      == With(InitType(c, env, Typed(v.ty, 0, false), field), Typed(VoidT, v.errors, v.returned))
    ensures !InitType(c, env, Typed(v.ty, 0, false), field).returned
  {
  }

  lemma {:induction false} InitsEnd(c: Ctx, env: Env, inits: seq<FieldInit>, fields: seq<(string, TypeExpr)>)
    requires inits == []
    ensures CheckInits(c, env, inits, fields) == Typed(VoidT, 0, false)
  {
  }

  lemma {:induction false} StmtsRound(c: Ctx, env: Env, stmts: seq<Stmt>, i: nat, done: Typed)
    requires i < |stmts|
    ensures
      var st := CheckStmt(c, env, stmts[i]);
      var rest := CheckStmts(c, env, stmts[i..], done.ty);
      var more := CheckStmts(c, st.env, stmts[i + 1..], st.t.ty);
      Checked(With(rest.t, done), rest.env) == Checked(With(more.t, With(st.t, done)), more.env)
  {
    hide CheckStmt;
    assert stmts[i..][1..] == stmts[i + 1..];
  }

  lemma {:induction false} StmtsEnd(c: Ctx, env: Env, stmts: seq<Stmt>, last: Ty)
    requires stmts == []
    ensures CheckStmts(c, env, stmts, last) == Checked(Typed(last, 0, false), env)
  {
  }

  lemma {:induction false} ParamsRound(c: Ctx, env: Env, params: seq<Param>, i: nat)
    requires i < |params|
    ensures
      var p := params[i];
      var t := ParamType(c, env, p);
      var c' := if p.isSelf then c.(self := Some(t.ty)) else c;
      var rest := CheckParams(c', Bind(env, Binding(if p.isSelf then "self" else p.name, false, t.ty)), params[i + 1..]);
      CheckParams(c, env, params[i..]) == (rest.0, rest.1, t.errors + rest.2)
  {
    hide ParamType, Bind;
    assert params[i..][1..] == params[i + 1..];
  }

  lemma {:induction false} ParamsEnd(c: Ctx, env: Env, params: seq<Param>)
    requires params == []
    ensures CheckParams(c, env, params) == (c, env, 0)
  {
  }

  // ---- parts without a `return` inside ----

  lemma NameOnly(c: Ctx, env: Env, x: string)
    ensures !CheckName(c, env, x).returned
  {
  }

  lemma ResolveOnly(c: Ctx, env: Env, t: TypeExpr)
    ensures !Resolve(c, env, t).returned
  {
  }

  lemma FieldOnly(c: Ctx, env: Env, t: Ty, name: string)
    ensures !FieldType(c, env, t, name).returned
  {
  }

  lemma ArraySplits(c: Ctx, env: Env, t: TypeExpr, length: Expr, elems: (Option<Ty>, nat, bool))
    ensures
      var only := ArrayLitType(c, env, t, length, (elems.0, 0, false));
      ArrayLitType(c, env, t, length, elems) == Typed(only.ty, only.errors + elems.1, elems.2)
  {
  }
}
