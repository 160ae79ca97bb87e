/** The checking pass as an object: the open scopes, the context flags and the error count are fields that
    every check changes and puts back (src/sema.c:459-1050). */
module Sema {
  import opened Ast
  import opened Types
  import opened Checker
  import Divergence

  class Sema {
    const names: Names
    var scopes: Env
    var inUnsafe: bool
    var selfType: Option<Ty>
    var fnReturn: Option<Ty>
    var hasReturn: bool
    var errorCount: nat

    function Here(): Ctx
      reads this
    {
      Ctx(names, inUnsafe, selfType, fnReturn)
    }

    /** The node got its type and its errors were counted; the scopes and the context are those before. */
    ghost predicate Done(t: Typed, ty: Ty, c: Ctx, env: Env, errors: nat, returned: bool)
      reads this
    {
      && ty == t.ty && errorCount == errors + t.errors && hasReturn == (returned || t.returned)
      && Here() == c && scopes == env
    }

    constructor (names: Names, globals: seq<Binding>)
      ensures this.names == names && scopes == [globals] && Here() == Ctx(names, false, None, None)
      ensures errorCount == 0 && !hasReturn
    {
      this.names := names;
      scopes := [globals];
      inUnsafe := false;
      selfType := None;
      fnReturn := None;
      hasReturn := false;
      errorCount := 0;
    }

    method Report(bad: bool)
      modifies this`errorCount
      ensures errorCount == old(errorCount) + Err(bad)
    {
      if bad { errorCount := errorCount + 1; }
    }

    method TypeOf(t: TypeExpr) returns (ty: Ty)
      modifies this
      ensures Done(Resolve(old(Here()), old(scopes), t), ty, old(Here()), old(scopes), old(errorCount), old(hasReturn))
      ensures hasReturn == old(hasReturn)
    {
      var r := Resolve(Here(), scopes, t);
      errorCount := errorCount + r.errors;
      ty := r.ty;
    }

    // ---- expressions ----

    method Expression(e: Expr) returns (ty: Ty)
      modifies this
      ensures Done(CheckExpr(old(Here()), old(scopes), e), ty, old(Here()), old(scopes), old(errorCount), old(hasReturn))
      decreases e, 0
    {
      hide CheckName, CheckCall, CheckMethodCall, CheckCapture, CheckStruct, CheckBlock, CheckElems, ArrayLitType, LiteralType;
      match e {
        case Ident(x) =>
          var t := CheckName(Here(), scopes, x);
          NameOnly(Here(), scopes, x);
          errorCount := errorCount + t.errors;
          ty := t.ty;
        case Binary(_, _, _) => ty := Operator(e);
        case Unary(_, _) => ty := Operator(e);
        case Call(_, _) => ty := CallType(e);
        case MethodCall(_, _, _) => ty := MethodCallType(e);
        case Field(_, _) => ty := FieldOf(e);
        case Index(_, _) => ty := Part(e);
        case Slice(_, _, _) => ty := Part(e);
        case Cast(_, _) => ty := Convert(e);
        case Try(_) => ty := Convert(e);
        case ErrorCapture(_, _, _) => ty := Capture(e);
        case Unsafe(body) =>
          var prev := inUnsafe;
          inUnsafe := true;
          ty := BlockType(body);
          inUnsafe := prev;
        case ArrayLit(t, length, elems, _) =>
          ghost var all' := CheckElems(Here(), scopes, elems, None);
          var all := Elems(elems);
          ArraySplits(Here(), scopes, t, length, all');
          var r := ArrayLitType(Here(), scopes, t, length, (all, 0, false));
          errorCount := errorCount + r.errors;
          ty := r.ty;
        case StructLit(_, _) => ty := Struct(e);
        case _ => ty := LiteralType(e);
      }
    }

    method Operator(e: Expr) returns (ty: Ty)
      requires e.Binary? || e.Unary?
      modifies this
      ensures Done(CheckExpr(old(Here()), old(scopes), e), ty, old(Here()), old(scopes), old(errorCount), old(hasReturn))
      decreases e, -1
    {
      hide BinaryType, UnaryType;
      var t;
      if e.Binary? {
        var l := Expression(e.left);
        var r := Expression(e.right);
        t := BinaryType(e.op, l, r);
      } else {
        var x := Expression(e.operand);
        t := UnaryType(inUnsafe, e.op, x);
      }
      errorCount := errorCount + t.1;
      ty := t.0;
    }

    method FieldOf(e: Expr) returns (ty: Ty)
      requires e.Field?
      modifies this
      ensures Done(CheckExpr(old(Here()), old(scopes), e), ty, old(Here()), old(scopes), old(errorCount), old(hasReturn))
      decreases e, -1
    {
      hide FieldType;
      var o := Expression(e.obj);
      var t := FieldType(Here(), scopes, o, e.name);
      FieldOnly(Here(), scopes, o, e.name);
      errorCount := errorCount + t.errors;
      ty := t.ty;
    }

    /** An element or a slice. */
    method Part(e: Expr) returns (ty: Ty)
      requires e.Index? || e.Slice?
      modifies this
      ensures Done(CheckExpr(old(Here()), old(scopes), e), ty, old(Here()), old(scopes), old(errorCount), old(hasReturn))
      decreases e, -1
    {
      ty := VoidT;
      var o := Expression(e.obj);
      if e.Index? {
        var _ := Expression(e.index);
        if o.ArrayT? || o.SliceT? { ty := o.base; }
      } else {
        var _ := Expression(e.start);
        var _ := Expression(e.end);
      }
    }

    method Convert(e: Expr) returns (ty: Ty)
      requires e.Cast? || e.Try?
      modifies this
      ensures Done(CheckExpr(old(Here()), old(scopes), e), ty, old(Here()), old(scopes), old(errorCount), old(hasReturn))
      decreases e, -1
    {
      hide Resolve;
      if e.Cast? {
        ty := TypeOf(e.target);
        ResolveOnly(Here(), scopes, e.target);
        var _ := Expression(e.expr);
      } else {
        var inner := Expression(e.expr);
        var t := TryType(Here(), Typed(inner, 0, false));
        errorCount := errorCount + t.errors;
        ty := t.ty;
      }
    }

    method CallType(e: Expr) returns (ty: Ty)
      requires e.Call?
      modifies this
      ensures Done(CheckCall(old(Here()), old(scopes), e), ty, old(Here()), old(scopes), old(errorCount), old(hasReturn))
      decreases e, -1
    {
      hide CheckExpr, CheckArgs;
      var f := Expression(e.callee);
      if !f.FunctionT? {
        errorCount := errorCount + 1;
        return VoidT;
      }
      Args(e.args, f.params);
      ty := f.ret;
    }

    method MethodCallType(e: Expr) returns (ty: Ty)
      requires e.MethodCall?
      modifies this
      ensures Done(CheckMethodCall(old(Here()), old(scopes), e), ty, old(Here()), old(scopes), old(errorCount), old(hasReturn))
      decreases e, -1
    {
      hide CheckExpr, CheckArgs, CanCoerce, FnType, MethodOf, Concrete;
      var o := Expression(e.receiver);
      var m := MethodOf(Here(), o, e.name);
      if m.None? {
        errorCount := errorCount + 1;
        return VoidT;
      }
      var prevSelf := selfType;
      selfType := Some(Concrete(o));
      var f := FnType(Here(), scopes, m.value);
      selfType := prevSelf;
      errorCount := errorCount + f.2;
      if f.0 == [] {
        errorCount := errorCount + 1;
        return VoidT;
      }
      Report(!CanCoerce(o, f.0[0]));
      Args(e.args, f.0[1..]);
      ty := f.1;
    }

    method Args(args: seq<Expr>, params: seq<Ty>)
      modifies this
      ensures Done(CheckArgs(old(Here()), old(scopes), args, params), VoidT, old(Here()), old(scopes), old(errorCount), old(hasReturn))
      decreases args, 1
    {
      hide CheckExpr, CanCoerce, CheckEach;
      if |args| != |params| {
        errorCount := errorCount + 1;
        return;
      }
      ghost var goal := CheckEach(Here(), scopes, args, params);
      ghost var done := Typed(VoidT, 0, false);
      var i := 0;
      while i < |args|
        invariant 0 <= i <= |args|
        invariant Done(done, VoidT, old(Here()), old(scopes), old(errorCount), old(hasReturn))
        invariant goal == With(done, CheckEach(old(Here()), old(scopes), args[i..], params[i..]))
      {
        EachRound(Here(), scopes, args, params, i, done);
        ghost var a' := CheckExpr(Here(), scopes, args[i]);
        var a := Expression(args[i]);
        Report(!CanCoerce(a, params[i]));
        done := With(done, Typed(VoidT, a'.errors + Err(!CanCoerce(a, params[i])), a'.returned));
        i := i + 1;
      }
      EachEnd(Here(), scopes, args[i..], params[i..]);
    }

    method Capture(e: Expr) returns (ty: Ty)
      requires e.ErrorCapture?
      modifies this
      ensures Done(CheckCapture(old(Here()), old(scopes), e), ty, old(Here()), old(scopes), old(errorCount), old(hasReturn))
      decreases e, -1
    {
      hide CheckExpr, CheckBlock, CanCoerce, Divergence.BlockDiverges;
      if !e.expr.Try? {
        errorCount := errorCount + 1;
        return VoidT;
      }
      var inner := Expression(e.expr.expr);
      if !inner.ErrorUnionT? {
        errorCount := errorCount + 1;
        return inner;
      }
      var prev := scopes;
      scopes := [[Binding(e.name, false, inner.error)]] + scopes;
      var fb := BlockType(e.fallback);
      scopes := prev;
      Report(!Divergence.BlockDiverges(names.noret, e.fallback) && !CanCoerce(fb, inner.success));
      ty := inner.success;
    }

    method Elems(elems: seq<Expr>) returns (sofar: Option<Ty>)
      modifies this
      ensures
        var t := CheckElems(old(Here()), old(scopes), elems, None);
        sofar == t.0 && Done(Typed(VoidT, t.1, t.2), VoidT, old(Here()), old(scopes), old(errorCount), old(hasReturn))
      decreases elems, 0
    {
      hide CheckExpr, CanCoerce, CheckElems, Element;
      sofar := None;
      ghost var goal := CheckElems(Here(), scopes, elems, None);
      ghost var done := Typed(VoidT, 0, false);
      var i := 0;
      while i < |elems|
        invariant 0 <= i <= |elems|
        invariant Done(done, VoidT, old(Here()), old(scopes), old(errorCount), old(hasReturn))
        invariant
          var rest := CheckElems(old(Here()), old(scopes), elems[i..], sofar);
          goal == (rest.0, done.errors + rest.1, done.returned || rest.2)
      {
        ElemsRound(Here(), scopes, elems, i, sofar);
        ghost var e' := CheckExpr(Here(), scopes, elems[i]);
        var e := Expression(elems[i]);
        var t := Element(sofar, e);
        errorCount := errorCount + t.1;
        sofar := Some(t.0);
        done := Typed(VoidT, done.errors + e'.errors + t.1, done.returned || e'.returned);
        i := i + 1;
      }
      ElemsEnd(Here(), scopes, elems[i..], sofar);
    }

    method Struct(e: Expr) returns (ty: Ty)
      requires e.StructLit?
      modifies this
      ensures Done(CheckStruct(old(Here()), old(scopes), e), ty, old(Here()), old(scopes), old(errorCount), old(hasReturn))
      decreases e, -1
    {
      hide CheckInits, Resolve;
      ty := TypeOf(e.typ);
      var fields := names.fields(ty);
      if fields.None? {
        Report(e.typ != NoType);
        return;
      }
      Inits(e.inits, fields.value);
    }

    method Inits(inits: seq<FieldInit>, fields: seq<(string, TypeExpr)>)
      modifies this
      ensures Done(CheckInits(old(Here()), old(scopes), inits, fields), VoidT, old(Here()), old(scopes), old(errorCount), old(hasReturn))
      decreases inits, 0
    {
      hide CheckExpr, CheckInits, InitType, FieldNamed;
      ghost var goal := CheckInits(Here(), scopes, inits, fields);
      ghost var done := Typed(VoidT, 0, false);
      var i := 0;
      while i < |inits|
        invariant 0 <= i <= |inits|
        invariant Done(done, VoidT, old(Here()), old(scopes), old(errorCount), old(hasReturn))
        invariant goal == With(done, CheckInits(old(Here()), old(scopes), inits[i..], fields))
      {
        InitsRound(Here(), scopes, inits, i, fields, done);
        var field := FieldNamed(fields, inits[i].name);
        ghost var v' := CheckExpr(Here(), scopes, inits[i].value);
        InitTypeSplits(Here(), scopes, v', field);
        var v := Expression(inits[i].value);
        var t := InitType(Here(), scopes, Typed(v, 0, false), field);
        errorCount := errorCount + t.errors;
        done := With(done, InitType(Here(), scopes, v', field));
        i := i + 1;
      }
      InitsEnd(Here(), scopes, inits[i..], fields);
    }

    // ---- blocks and statements ----

    method BlockType(b: Block) returns (last: Ty)
      modifies this
      ensures Done(CheckBlock(old(Here()), old(scopes), b), last, old(Here()), old(scopes), old(errorCount), old(hasReturn))
      decreases b, 0
    {
      hide CheckExpr, CheckStmts;
      if b == NoBlock { return VoidT; }
      var prev := scopes;
      scopes := [[]] + scopes;
      last := Stmts(b.stmts);
      if b.trailing != NoExpr { last := Expression(b.trailing); }
      scopes := prev;
    }

    /** The statements of a block, in the block's own scope, which the declarations among them extend. */
    method Stmts(stmts: seq<Stmt>) returns (last: Ty)
      modifies this
      ensures
        var all := CheckStmts(old(Here()), old(scopes), stmts, VoidT);
        Done(all.t, last, old(Here()), all.env, old(errorCount), old(hasReturn))
      decreases stmts, 0
    {
      hide CheckStmt, CheckStmts;
      last := VoidT;
      ghost var goal := CheckStmts(Here(), scopes, stmts, VoidT);
      ghost var done := Typed(VoidT, 0, false);
      var i := 0;
      while i < |stmts|
        invariant 0 <= i <= |stmts| && last == done.ty
        invariant Done(done, last, old(Here()), scopes, old(errorCount), old(hasReturn))
        invariant
          var rest := CheckStmts(old(Here()), scopes, stmts[i..], last);
          goal == Checked(With(rest.t, done), rest.env)
      {
        StmtsRound(Here(), scopes, stmts, i, done);
        ghost var st' := CheckStmt(Here(), scopes, stmts[i]);
        last := Statement(stmts[i]);
        done := With(st'.t, done);
        i := i + 1;
      }
      StmtsEnd(Here(), scopes, stmts[i..], last);
    }

    method Statement(st: Stmt) returns (ty: Ty)
      modifies this
      ensures
        var all := CheckStmt(old(Here()), old(scopes), st);
        Done(all.t, ty, old(Here()), all.env, old(errorCount), old(hasReturn))
      decreases st, 0
    {
      hide CheckExpr, CheckBlock, CanCoerce, Resolve, Bind, ReturnType, ToConstant;
      ty := VoidT;
      match st {
        case VarDecl(isConst, name, t, init) => Declare(st);
        case BlockStmt(b) => ty := BlockType(b);
        case Return(v) => ReturnStatement(v);
        case ExprStmt(e) => var _ := Expression(e);
        case If(cond, thn, els) =>
          var ct := Expression(cond);
          Report(!ct.BoolT?);
          var _ := BlockType(thn);
          if els.BlockStmt? { var _ := BlockType(els.block); }
        case While(cond, body) =>
          var ct := Expression(cond);
          Report(!ct.BoolT?);
          var _ := BlockType(body);
        case For(_, _, _, _) => ForStatement(st);
        case Defer(e) => var _ := Expression(e);
        case ErrDefer(b) =>
          Report(fnReturn.None? || !fnReturn.value.ErrorUnionT?);
          var _ := BlockType(b);
        case Match(e, _) => var _ := Expression(e);
        case AssignStmt(_, lhs, rhs) =>
          var lt := Expression(lhs);
          var rt := Expression(rhs);
          Report(ToConstant(Here(), scopes, lhs));
          Report(!CanCoerce(rt, lt));
        case _ =>
      }
    }

    method Declare(st: Stmt)
      requires st.VarDecl?
      modifies this
      ensures
        var all := CheckStmt(old(Here()), old(scopes), st);
        Done(all.t, VoidT, old(Here()), all.env, old(errorCount), old(hasReturn))
      decreases st, -1
    {
      hide CheckExpr, CanCoerce, Resolve, Bind;
      var v := Expression(st.init);
      var declared := v;
      if st.typ != NoType {
        declared := TypeOf(st.typ);
        Report(st.init != NoExpr && !CanCoerce(v, declared));
      } else {
        NoTypeResolves(Here(), scopes);
      }
      scopes := Bind(scopes, Binding(st.name, st.isConst, declared));
    }

    method ReturnStatement(v: Expr)
      modifies this
      ensures Done(ReturnType(old(Here()), CheckExpr(old(Here()), old(scopes), v)), VoidT, old(Here()), old(scopes),
                   old(errorCount), old(hasReturn))
      decreases v, 1
    {
      hide CheckExpr, CanReturn;
      hasReturn := true;
      var before := errorCount;
      var t := Expression(v);
      var expected := fnReturn.GetOr(VoidT);
      if errorCount == before { Report(!CanReturn(t, expected)); }
    }

    method ForStatement(st: Stmt)
      requires st.For?
      modifies this
      ensures
        var all := CheckStmt(old(Here()), old(scopes), st);
        Done(all.t, VoidT, old(Here()), all.env, old(errorCount), old(hasReturn))
      decreases st, -1
    {
      hide CheckExpr, CheckBlock, Resolve;
      var prev := scopes;
      scopes := [[]] + scopes;
      var _ := Expression(st.iterable);
      var t := IntT(true, 64);
      if st.typ != NoType { t := TypeOf(st.typ); }
      scopes := [[Binding(st.name, false, t)]] + prev;
      var _ := BlockType(st.body);
      scopes := prev;
    }

    // ---- functions ----

    /** A function is checked with the module scope around it. The scopes, the unsafe flag and Self are put
        back, and the errors are those of the specification. */
    method FnBody(f: Fn)
      requires scopes != [] && fnReturn == None
      modifies this
      ensures errorCount == old(errorCount) + CheckFn(names, old(selfType), [old(scopes)[|old(scopes)| - 1]], f)
      ensures scopes == old(scopes) && Here() == old(Here())
    {
      hide CheckParams, CheckBlock, CanCoerce, Resolve;
      var prevScopes, prevSelf, prevUnsafe := scopes, selfType, inUnsafe;
      hasReturn := false;
      inUnsafe := f.isUnsafe;
      scopes := [[]] + [scopes[|scopes| - 1]];
      Generics(f.generics);
      Params(f.params);
      var expected := TypeOf(f.ret);
      fnReturn := Some(expected);
      var body := BlockType(f.body);
      Report(!hasReturn && body != expected && !body.NoReturnT? && !CanCoerce(body, expected));
      CoerceReflexive(body);
      scopes, selfType, inUnsafe := prevScopes, prevSelf, prevUnsafe;
      fnReturn := None;
    }

    method Generics(generics: seq<string>)
      requires scopes != [] && scopes[0] == []
      modifies this`scopes
      ensures scopes == [GenericScope(generics)] + old(scopes)[1..]
    {
      ghost var outer := scopes[1..];
      var i := 0;
      while i < |generics|
        invariant 0 <= i <= |generics| && scopes == [GenericScope(generics[..i])] + outer
      {
        assert generics[..i + 1][..i] == generics[..i];
        scopes := Bind(scopes, Binding(generics[i], false, VoidT));
        i := i + 1;
      }
      assert generics[..i] == generics;
    }

    method Params(params: seq<Param>)
      modifies this
      ensures
        var r := CheckParams(old(Here()), old(scopes), params);
        Here() == r.0 && scopes == r.1 && errorCount == old(errorCount) + r.2 && hasReturn == old(hasReturn)
    {
      hide CheckParams, Bind, Resolve;
      ghost var goal := CheckParams(Here(), scopes, params);
      ghost var errors := 0;
      var i := 0;
      while i < |params|
        invariant 0 <= i <= |params| && errorCount == old(errorCount) + errors && hasReturn == old(hasReturn)
        invariant var rest := CheckParams(Here(), scopes, params[i..]); goal == (rest.0, rest.1, errors + rest.2)
      {
        ParamsRound(Here(), scopes, params, i);
        var p := params[i];
        errors := errors + ParamType(Here(), scopes, p).errors;
        if p.isSelf {
          Report(selfType.None?);
          var t := selfType.GetOr(VoidT);
          if p.typ != NoType { t := TypeOf(p.typ); }
          selfType := Some(t);
          scopes := Bind(scopes, Binding("self", false, t));
        } else {
          var t := TypeOf(p.typ);
          scopes := Bind(scopes, Binding(p.name, false, t));
        }
        i := i + 1;
      }
      ParamsEnd(Here(), scopes, params[i..]);
    }
  }
}
