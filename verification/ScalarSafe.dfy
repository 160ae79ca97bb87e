/** Scalar bodies that never go wrong, and the bodies that do: the result of a function that has a `return`
    somewhere is not compared with the declared type. */
module ScalarSafe {
  import opened Ast
  import opened Types
  import opened Checker
  import opened ScalarRuns
  import opened ScalarSound
  import opened DeferExact
  import opened GenEnds

  // ---- a body without a bad place never goes wrong ----

  lemma {:induction false} BlockSafe(m: Machine, c: Ctx, n: nat, st: Store, b: Block)
    requires StoreFits(st) && ScalarBlock(c.names, b) && ScalarResult(c)
    requires CheckBlock(c, EnvOf(st), b).errors == 0 && SafeBlock(c, EnvOf(st), b)
    ensures !BlockHits(m, c, n, st, b)
    decreases n, b, 0
  {
    hide CheckExpr, CheckStmts, StoreFits, EnvOf, RunStmts, ScalarStmts, ScalarExpr, StmtsHit, Hits, SafeStmts, SafeExpr, RunSound;
    if b != NoBlock {
      OpenFits(st);
      StmtsSafe(m, c, n, [[]] + st, b.stmts, VoidT);
      var r := RunStmts(m, c, n, [[]] + st, b.stmts);
      if r.Next? && b.trailing != NoExpr { SafeExprHits(m, c, r.store, b.trailing); }
    }
  }

  lemma {:induction false} StmtsSafe(m: Machine, c: Ctx, n: nat, st: Store, stmts: seq<Stmt>, last: Ty)
    requires StoreFits(st) && st != [] && ScalarStmts(c.names, stmts) && ScalarResult(c)
    requires CheckStmts(c, EnvOf(st), stmts, last).t.errors == 0 && SafeStmts(c, EnvOf(st), stmts)
    ensures !StmtsHit(m, c, n, st, stmts)
    ensures var r := RunStmts(m, c, n, st, stmts); r.Next? ==> EnvOf(r.store) == CheckStmts(c, EnvOf(st), stmts, last).env
    decreases n, stmts, 0
  {
    hide CheckStmt, StoreFits, EnvOf, RunStmt, ScalarStmt, StmtHits, SafeStmt;
    if stmts != [] {
      var env := EnvOf(st);
      var first := CheckStmt(c, env, stmts[0]);
      StmtSafe(m, c, n, st, stmts[0]);
      StmtSound(m, c, n, st, stmts[0]);
      StmtTail(c, env, stmts[0]);
      var r := RunStmt(m, c, n, st, stmts[0]);
      if r.Next? {
        assert |r.store| == |EnvOf(r.store)|;
        StmtsSafe(m, c, n, r.store, stmts[1..], first.t.ty);
      }
    }
  }

  lemma {:induction false} StmtSafe(m: Machine, c: Ctx, n: nat, st: Store, s: Stmt)
    requires StoreFits(st) && st != [] && ScalarStmt(c.names, s) && ScalarResult(c)
    requires CheckStmt(c, EnvOf(st), s).t.errors == 0 && SafeStmt(c, EnvOf(st), s)
    ensures !StmtHits(m, c, n, st, s)
    decreases n, s, 0
  {
    hide CheckExpr, CheckBlock, StoreFits, EnvOf, RunBlock, RunWhile, Eval, ScalarBlock, ScalarExpr, ScalarType, Hits, BlockHits,
         LoopHits, SafeBlock, SafeExpr, CanCoerce, Bind, Resolve, AssignFits, Stores, ReturnType, ToConstant;
    match s {
      case VarDecl(_, _, _, init) => SafeExprHits(m, c, st, init);
      case AssignStmt(_, _, rhs) => SafeExprHits(m, c, st, rhs);
      case ExprStmt(e) => SafeExprHits(m, c, st, e);
      case BlockStmt(b) => BlockSafe(m, c, n, st, b);
      case If(cond, thn, els) =>
        SafeExprHits(m, c, st, cond);
        BlockSafe(m, c, n, st, thn);
        if els.BlockStmt? { BlockSafe(m, c, n, st, els.block); }
      case While(cond, body) => LoopSafe(m, c, n, st, cond, body);
      case Return(e) => if e != NoExpr { SafeExprHits(m, c, st, e); }
      case _ =>
    }
  }

  lemma {:induction false} LoopSafe(m: Machine, c: Ctx, n: nat, st: Store, cond: Expr, body: Block)
    requires StoreFits(st) && ScalarExpr(cond) && ScalarBlock(c.names, body) && ScalarResult(c)
    requires CheckExpr(c, EnvOf(st), cond).errors == 0 && CheckBlock(c, EnvOf(st), body).errors == 0
    requires SafeExpr(c, EnvOf(st), cond) && SafeBlock(c, EnvOf(st), body)
    ensures !LoopHits(m, c, n, st, cond, body)
    decreases n, body, 1
  {
    hide CheckExpr, CheckBlock, StoreFits, EnvOf, RunBlock, Eval, ScalarBlock, ScalarExpr, Hits, BlockHits, SafeBlock, SafeExpr;
    SafeExprHits(m, c, st, cond);
    BlockSafe(m, c, n, st, body);
    BlockSound(m, c, n, st, body);
    var r := RunBlock(m, c, n, st, body);
    if (r.Next? || r.Continued?) && n > 0 { LoopSafe(m, c, n - 1, r.store, cond, body); }
  }

  // ---- how a run can leave the statements of a body ----

  predicate Jumped(r: Run) {
    r.Broke? || r.Continued?
  }

  lemma {:induction false} BlockEndsAt(m: Machine, c: Ctx, n: nat, st: Store, b: Block)
    requires ScalarBlock(c.names, b)
    ensures var r := RunBlock(m, c, n, st, b); (r.Next? ==> PassesBlock(b)) && (Jumped(r) ==> Leaves(b, true))
    decreases n, b, 0
  {
    hide RunStmts, ScalarStmts, PassesAll, LeavesAll, Eval;
    if b != NoBlock { StmtsEndAt(m, c, n, [[]] + st, b.stmts); }
  }

  /** A run falls off the statements only if they pass, and a loop jump leaves them only if one stands there. */
  lemma {:induction false} StmtsEndAt(m: Machine, c: Ctx, n: nat, st: Store, stmts: seq<Stmt>)
    requires ScalarStmts(c.names, stmts)
    ensures var r := RunStmts(m, c, n, st, stmts); (r.Next? ==> PassesAll(stmts)) && (Jumped(r) ==> LeavesAll(stmts, true))
    decreases n, stmts, 0
  {
    hide RunStmt, ScalarStmt, Passes, LeavesStmt;
    if stmts != [] {
      StmtEndsAt(m, c, n, st, stmts[0]);
      var r := RunStmt(m, c, n, st, stmts[0]);
      if r.Next? { StmtsEndAt(m, c, n, r.store, stmts[1..]); }
    }
  }

  lemma {:induction false} StmtEndsAt(m: Machine, c: Ctx, n: nat, st: Store, s: Stmt)
    requires ScalarStmt(c.names, s)
    ensures var r := RunStmt(m, c, n, st, s); (r.Next? ==> Passes(s)) && (Jumped(r) ==> LeavesStmt(s, true))
    decreases n, s, 0
  {
    hide RunBlock, RunWhile, Eval, EvalAs, ScalarBlock, ScalarExpr, ScalarType, PassesBlock, Leaves, Declared, RunAssign;
    match s {
      case BlockStmt(b) => BlockEndsAt(m, c, n, st, b);
      case If(_, thn, els) =>
        BlockEndsAt(m, c, n, st, thn);
        if els.BlockStmt? { BlockEndsAt(m, c, n, st, els.block); }
      case While(cond, body) => LoopEndsAt(m, c, n, st, cond, body);
      case ExprStmt(e) => ScalarPlain(e);
      case AssignStmt(aop, lhs, rhs) => AssignEndsAt(m, st, aop, lhs.name, rhs);
      case _ =>
    }
  }

  lemma ScalarPlain(e: Expr)
    requires ScalarExpr(e)
    ensures !e.Unsafe?
  {
  }

  lemma AssignEndsAt(m: Machine, st: Store, aop: AssignOp, name: string, rhs: Expr)
    ensures !Jumped(RunAssign(m, st, aop, name, rhs))
  {
    hide Eval, Assigned, Convert;
  }

  lemma {:induction false} LoopEndsAt(m: Machine, c: Ctx, n: nat, st: Store, cond: Expr, body: Block)
    ensures !Jumped(RunWhile(m, c, n, st, cond, body))
    decreases n
  {
    hide RunBlock, Eval;
    var r := RunBlock(m, c, n, st, body);
    if (r.Next? || r.Continued?) && n > 0 { LoopEndsAt(m, c, n - 1, r.store, cond, body); }
  }

  lemma {:induction false} NothingOwed(m: Machine, c: Ctx, n: nat, st: Store, b: Block)
    requires SafeBody(c, EnvOf(st), b) && ScalarBlock(c.names, b)
    ensures !Owes(c, RunTop(m, c, n, st, b), b)
  {
    hide RunStmts, ScalarStmts, PassesAll, LeavesAll, SafeStmts, SafeExpr, Stores, EnvOf, CheckStmts;
    if b != NoBlock { StmtsEndAt(m, c, n, [[]] + st, b.stmts); }
  }

  lemma {:induction false} BodySafe(m: Machine, c: Ctx, n: nat, st: Store, b: Block)
    requires CheckBlock(c, EnvOf(st), b).errors == 0 && SafeBody(c, EnvOf(st), b)
    requires StoreFits(st) && ScalarResult(c) && ScalarBlock(c.names, b)
    ensures !BodyHits(m, c, n, st, b)
  {
    hide CheckExpr, CheckStmts, StoreFits, EnvOf, RunStmts, Eval, ScalarStmts, ScalarExpr, StmtsHit, Hits, SafeStmts, SafeExpr, Stores,
         Owes, PassesAll, LeavesAll;
    NothingOwed(m, c, n, st, b);
    if b != NoBlock {
      OpenFits(st);
      StmtsSafe(m, c, n, [[]] + st, b.stmts, VoidT);
      var r := RunStmts(m, c, n, [[]] + st, b.stmts);
      if r.Next? && b.trailing != NoExpr { SafeExprHits(m, c, r.store, b.trailing); }
    }
  }

  /** The main result: no run of an accepted function whose body is safe goes wrong, on any machine, for any
      number of rounds and from any store of the right kinds. */
  lemma {:induction false} FunctionSafe(m: Machine, names: Names, self: Option<Ty>, outer: Env, f: Fn, n: nat, st: Store)
    requires CheckFn(names, self, outer, f) == 0
    requires
      var entry := Entry(names, self, outer, f);
      EnvOf(st) == entry.1 && StoreFits(st) && ScalarResult(entry.0) && ScalarBlock(names, f.body)
    requires var entry := Entry(names, self, outer, f); SafeBody(entry.0, entry.1, f.body)
    ensures
      var c := Entry(names, self, outer, f).0;
      !RunBody(m, c, n, st, f.body).WrongAt? && BodySound(RunBody(m, c, n, st, f.body), c, false)
  {
    hide *;
    EntryNames(names, self, outer, f);
    AcceptedBody(names, self, outer, f);
    BodySafe(m, Entry(names, self, outer, f).0, n, st, f.body);
    FunctionSound(m, names, self, outer, f, n, st);
    NotWrong(RunBody(m, Entry(names, self, outer, f).0, n, st, f.body), Entry(names, self, outer, f).0);
  }

  lemma NotWrong(r: Run, c: Ctx)
    requires BodySound(r, c, false)
    ensures !r.WrongAt?
  {
  }

  // ---- the trailing expression ----

  /** A `return` anywhere in the body: the type of the trailing expression does not matter to the checker,
      and every run that reaches it goes wrong exactly when its type is not stored in the result. */
  lemma {:induction false} TrailingUnchecked(m: Machine, names: Names, self: Option<Ty>, outer: Env, f: Fn, n: nat, st: Store)
    requires f.body.Block? && Returns(f.body) && f.body.trailing != NoExpr && ScalarBlock(names, f.body)
    requires
      var entry := Entry(names, self, outer, f);
      && EnvOf(st) == entry.1 && StoreFits(st) && ScalarResult(entry.0)
      && entry.2 == 0 && CheckBlock(entry.0, entry.1, f.body).errors == 0
    ensures CheckFn(names, self, outer, f) == 0
    ensures
      var c := Entry(names, self, outer, f).0;
      var r := RunStmts(m, c, n, [[]] + st, f.body.stmts);
      r.Next? && Eval(m, r.store, f.body.trailing).V? ==>
        var fits := Stores(TypeOf(c, EnvOf(r.store), f.body.trailing), ResultType(c));
        RunBody(m, c, n, st, f.body).WrongAt? <==> !fits
  {
    hide *;
    var entry := Entry(names, self, outer, f);
    EntryNames(names, self, outer, f);
    BlockReturns(entry.0, entry.1, f.body);
    ReturnAccepts(names, self, outer, f);
    TrailingRuns(m, entry.0, n, st, f.body);
  }

  lemma {:induction false} ReturnAccepts(names: Names, self: Option<Ty>, outer: Env, f: Fn)
    requires
      var entry := Entry(names, self, outer, f);
      var body := CheckBlock(entry.0, entry.1, f.body);
      body.returned && entry.2 == 0 && body.errors == 0
    ensures CheckFn(names, self, outer, f) == 0
  {
    hide Entry, CheckBlock, CanCoerce;
  }

  lemma {:induction false} TrailingRuns(m: Machine, c: Ctx, n: nat, st: Store, b: Block)
    requires b.Block? && b.trailing != NoExpr && ScalarBlock(c.names, b) && StoreFits(st) && ScalarResult(c)
    requires CheckBlock(c, EnvOf(st), b).errors == 0
    ensures
      var r := RunStmts(m, c, n, [[]] + st, b.stmts);
      r.Next? && Eval(m, r.store, b.trailing).V? ==>
        (RunBody(m, c, n, st, b).WrongAt? <==> !Stores(TypeOf(c, EnvOf(r.store), b.trailing), ResultType(c)))
  {
    hide CheckExpr, CheckStmts, StoreFits, EnvOf, RunStmts, EvalAs, Eval, ScalarStmts, ScalarExpr, HitsStore, Hits, StmtsHit, Stores;
    OpenFits(st);
    StmtsSound(m, c, n, [[]] + st, b.stmts, VoidT);
    var r := RunStmts(m, c, n, [[]] + st, b.stmts);
    if r.Next? && Eval(m, r.store, b.trailing).V? {
      ExprSound(m, c, r.store, b.trailing);
      ResultSound(m, c, r.store, b.trailing);
      HitsThere(m, c, r.store, b.trailing);
    }
  }

  lemma HitsThere(m: Machine, c: Ctx, st: Store, e: Expr)
    requires Eval(m, st, e).V? && Sound(Eval(m, st, e), TypeOf(c, EnvOf(st), e), Hits(m, c, st, e))
    ensures forall fits :: HitsStore(m, c, st, e, fits) == !fits
  {
    hide Eval, Hits, EnvOf;
  }

  // ---- a missing result ----

  /** Nor does the checker ask for a result where a `return` stands somewhere: every body with a `return` and
      without a trailing expression is accepted, and a run goes wrong for want of a result exactly when its
      statements let it through to the end, or a loop jump leaves them. */
  lemma {:induction false} MissingUnchecked(m: Machine, names: Names, self: Option<Ty>, outer: Env, f: Fn, n: nat, st: Store)
    requires f.body.Block? && Returns(f.body) && f.body.trailing == NoExpr && ScalarBlock(names, f.body)
    requires
      var entry := Entry(names, self, outer, f);
      && EnvOf(st) == entry.1 && StoreFits(st) && Scalar(ResultType(entry.0))
      && entry.2 == 0 && CheckBlock(entry.0, entry.1, f.body).errors == 0
    ensures CheckFn(names, self, outer, f) == 0
    ensures
      var c := Entry(names, self, outer, f).0;
      var r := RunStmts(m, c, n, [[]] + st, f.body.stmts);
      RunBody(m, c, n, st, f.body) == if r.Next? || Jumped(r) then WrongAt(ResultSite) else r
  {
    hide *;
    var entry := Entry(names, self, outer, f);
    EntryNames(names, self, outer, f);
    BlockReturns(entry.0, entry.1, f.body);
    ReturnAccepts(names, self, outer, f);
    MissingRuns(m, entry.0, n, st, f.body);
  }

  lemma MissingRuns(m: Machine, c: Ctx, n: nat, st: Store, b: Block)
    requires b.Block? && b.trailing == NoExpr && Scalar(ResultType(c))
    ensures
      var r := RunStmts(m, c, n, [[]] + st, b.stmts);
      RunBody(m, c, n, st, b) == if r.Next? || Jumped(r) then WrongAt(ResultSite) else r
  {
    hide RunStmts;
  }

  /** `if false { return v; } e` for any two expressions. */
  function DeadReturn(v: Expr, e: Expr): Block {
    Block([DeadIf(v)], e)
  }

  function DeadIf(v: Expr): Stmt {
    If(BoolLit(false), Early(v), NoStmt)
  }

  function Early(v: Expr): Block {
    Block([Return(v)], NoExpr)
  }

  lemma {:induction false} OneStmt(c: Ctx, env: Env, s: Stmt, last: Ty)
    ensures
      var one := CheckStmt(c, env, s);
      CheckStmts(c, env, [s], last) == Checked(Typed(one.t.ty, one.t.errors, one.t.returned), one.env)
  {
    hide CheckStmt;
    assert [s][1..] == [];
    var one := CheckStmt(c, env, s);
    assert CheckStmts(c, one.env, [], one.t.ty) == Checked(Typed(one.t.ty, 0, false), one.env);
  }

  lemma {:induction false} EarlyChecked(c: Ctx, env: Env, v: Expr)
    requires CheckStmt(c, [[]] + env, Return(v)) == Checked(Typed(VoidT, 0, true), [[]] + env)
    ensures CheckBlock(c, env, Early(v)) == Typed(VoidT, 0, true)
  {
    hide CheckStmt, CheckStmts;
    OneStmt(c, [[]] + env, Return(v), VoidT);
  }

  lemma {:induction false} NeverChecked(c: Ctx, env: Env)
    ensures CheckExpr(c, env, BoolLit(false)) == Typed(BoolT, 0, false)
    ensures CheckElse(c, env, NoStmt) == Typed(VoidT, 0, false)
  {
  }

  lemma {:induction false} DeadIfChecked(c: Ctx, env: Env, v: Expr)
    requires CheckBlock(c, env, Early(v)) == Typed(VoidT, 0, true)
    ensures CheckStmt(c, env, DeadIf(v)) == Checked(Typed(VoidT, 0, true), env)
  {
    hide CheckBlock, Early, CheckExpr, CheckElse;
    NeverChecked(c, env);
  }

  lemma {:induction false} DeadReturnChecked(c: Ctx, env: Env, v: Expr, e: Expr)
    requires CheckStmt(c, [[]] + env, DeadIf(v)) == Checked(Typed(VoidT, 0, true), [[]] + env)
    requires e != NoExpr && CheckExpr(c, [[]] + env, e).errors == 0
    ensures CheckBlock(c, env, DeadReturn(v, e)) == Typed(TypeOf(c, [[]] + env, e), 0, true)
  {
    hide CheckStmt, CheckStmts, CheckExpr, DeadIf;
    OneStmt(c, [[]] + env, DeadIf(v), VoidT);
  }

  lemma {:induction false} DeadReturnRuns(m: Machine, c: Ctx, n: nat, st: Store, v: Expr)
    ensures RunStmts(m, c, n, st, [DeadIf(v)]) == Next(st)
  {
    hide Early, RunBlock;
    assert [DeadIf(v)][1..] == [];
    assert RunStmt(m, c, n, st, DeadIf(v)) == Next(st);
    hide RunStmt;
    assert RunStmts(m, c, n, st, []) == Next(st);
  }

  lemma {:induction false} OneScalar(names: Names, s: Stmt)
    ensures ScalarStmts(names, [s]) == ScalarStmt(names, s) && SomeReturns([s]) == StmtReturns(s)
  {
    hide ScalarStmt, StmtReturns;
    assert [s][1..] == [];
    assert ScalarStmts(names, []) && !SomeReturns([]);
  }

  lemma {:induction false} DeadReturnScalar(names: Names, v: Expr, e: Expr)
    requires ScalarExpr(v) && ScalarExpr(e)
    ensures ScalarBlock(names, DeadReturn(v, e)) && Returns(DeadReturn(v, e))
  {
    hide ScalarExpr, ScalarStmts, SomeReturns;
    OneScalar(names, Return(v));
    OneScalar(names, DeadIf(v));
    assert ScalarStmt(names, Return(v)) && StmtReturns(Return(v));
    assert ScalarBlock(names, Early(v)) && Returns(Early(v));
    assert ScalarExpr(BoolLit(false)) by { BoolScalar(); }
    assert ScalarStmt(names, DeadIf(v)) && StmtReturns(DeadIf(v));
  }

  lemma BoolScalar()
    ensures ScalarExpr(BoolLit(false))
  {
  }

  /** The gap is real for every result: for any returned expression the checker accepts and any trailing
      one that is itself without error, the function `if false { return v; } e` is accepted, and its run
      goes wrong exactly when the type of `e` is not stored in the result. */
  lemma {:induction false} DeadReturnAccepted(m: Machine, names: Names, self: Option<Ty>, outer: Env, f: Fn, v: Expr, e: Expr,
      n: nat, st: Store)
    requires f.body == DeadReturn(v, e) && ScalarExpr(v) && ScalarExpr(e)
    requires
      var entry := Entry(names, self, outer, f);
      var inside := [[]] + entry.1;
      && EnvOf(st) == entry.1 && StoreFits(st) && ScalarResult(entry.0) && entry.2 == 0
      && CheckStmt(entry.0, [[]] + inside, Return(v)) == Checked(Typed(VoidT, 0, true), [[]] + inside)
      && CheckExpr(entry.0, inside, e).errors == 0
    ensures CheckFn(names, self, outer, f) == 0
    ensures
      var c := Entry(names, self, outer, f).0;
      Eval(m, [[]] + st, e).V? ==>
        (RunBody(m, c, n, st, f.body).WrongAt? <==> !Stores(TypeOf(c, [[]] + EnvOf(st), e), ResultType(c)))
  {
    hide *;
    var entry := Entry(names, self, outer, f);
    EarlyChecked(entry.0, [[]] + entry.1, v);
    DeadIfChecked(entry.0, [[]] + entry.1, v);
    NotNull(e);
    DeadReturnChecked(entry.0, entry.1, v, e);
    DeadReturnScalar(names, v, e);
    DeadReturnRuns(m, entry.0, n, [[]] + st, v);
    OpenFits(st);
    DeadParts(v, e);
    TrailingUnchecked(m, names, self, outer, f, n, st);
  }

  lemma DeadParts(v: Expr, e: Expr)
    ensures DeadReturn(v, e).Block? && DeadReturn(v, e).trailing == e && DeadReturn(v, e).stmts == [DeadIf(v)]
  {
  }

  /** `fn f() -> T { if false { return v; } }` is accepted for every `v` that may be returned, and every run goes
      wrong for want of a result. */
  lemma {:induction false} EarlyReturnAccepted(m: Machine, names: Names, self: Option<Ty>, outer: Env, f: Fn, v: Expr, n: nat,
      st: Store)
    requires f.body == DeadReturn(v, NoExpr) && ScalarExpr(v)
    requires
      var entry := Entry(names, self, outer, f);
      var inside := [[]] + entry.1;
      && EnvOf(st) == entry.1 && StoreFits(st) && Scalar(ResultType(entry.0)) && entry.2 == 0
      && CheckStmt(entry.0, [[]] + inside, Return(v)) == Checked(Typed(VoidT, 0, true), [[]] + inside)
    ensures CheckFn(names, self, outer, f) == 0
    ensures RunBody(m, Entry(names, self, outer, f).0, n, st, f.body) == WrongAt(ResultSite)
  {
    hide *;
    var entry := Entry(names, self, outer, f);
    EarlyChecked(entry.0, [[]] + entry.1, v);
    DeadIfChecked(entry.0, [[]] + entry.1, v);
    EarlyReturnChecked(entry.0, entry.1, v);
    EarlyReturnScalar(names, v);
    DeadReturnRuns(m, entry.0, n, [[]] + st, v);
    DeadParts(v, NoExpr);
    MissingUnchecked(m, names, self, outer, f, n, st);
  }

  lemma {:induction false} EarlyReturnChecked(c: Ctx, env: Env, v: Expr)
    requires CheckStmt(c, [[]] + env, DeadIf(v)) == Checked(Typed(VoidT, 0, true), [[]] + env)
    ensures CheckBlock(c, env, DeadReturn(v, NoExpr)).errors == 0
  {
    hide CheckStmt, CheckStmts, DeadIf;
    OneStmt(c, [[]] + env, DeadIf(v), VoidT);
  }

  lemma {:induction false} EarlyReturnScalar(names: Names, v: Expr)
    requires ScalarExpr(v)
    ensures ScalarBlock(names, DeadReturn(v, NoExpr)) && Returns(DeadReturn(v, NoExpr))
  {
    hide ScalarExpr, ScalarStmts, SomeReturns;
    BoolScalar();
    DeadReturnScalar(names, v, BoolLit(false));
  }

  /** `{ e }` as the only statement of a body. */
  function Wrapped(e: Expr): Block {
    Block([BlockStmt(Inner(e))], NoExpr)
  }

  function Inner(e: Expr): Block {
    Block([], e)
  }

  /** `fn f() -> T { { e } }`: the checker takes the value of the inner block for the result, so it accepts the
      function where the type of `e` suits; every run that evaluates `e` goes wrong for want of a result. */
  lemma {:induction false} BlockResultAccepted(m: Machine, names: Names, self: Option<Ty>, outer: Env, f: Fn, e: Expr, n: nat,
      st: Store)
    requires f.body == Wrapped(e) && ScalarExpr(e)
    requires
      var entry := Entry(names, self, outer, f);
      var inside := [[]] + ([[]] + entry.1);
      && EnvOf(st) == entry.1 && Scalar(ResultType(entry.0)) && entry.2 == 0
      && CheckExpr(entry.0, inside, e).errors == 0 && CanCoerce(TypeOf(entry.0, inside, e), ResultType(entry.0))
    ensures CheckFn(names, self, outer, f) == 0
    ensures
      Eval(m, [[]] + ([[]] + st), e).V? ==>
        RunBody(m, Entry(names, self, outer, f).0, n, st, f.body) == WrongAt(ResultSite)
  {
    hide *;
    var entry := Entry(names, self, outer, f);
    NotNull(e);
    WrappedChecked(entry.0, entry.1, e);
    WrappedAccepts(names, self, outer, f);
    if Eval(m, [[]] + ([[]] + st), e).V? { WrappedRuns(m, entry.0, n, st, e); }
  }

  lemma WrappedAccepts(names: Names, self: Option<Ty>, outer: Env, f: Fn)
    requires
      var entry := Entry(names, self, outer, f);
      var body := CheckBlock(entry.0, entry.1, f.body);
      entry.2 == 0 && body.errors == 0 && CanCoerce(body.ty, ResultType(entry.0))
    ensures CheckFn(names, self, outer, f) == 0
  {
    hide CheckBlock, CanCoerce, CheckParams, Resolve, GenericScope;
  }

  lemma {:induction false} WrappedChecked(c: Ctx, env: Env, e: Expr)
    requires e != NoExpr && CheckExpr(c, [[]] + ([[]] + env), e).errors == 0
    ensures CheckBlock(c, env, Wrapped(e)).errors == 0
    ensures CheckBlock(c, env, Wrapped(e)).ty == TypeOf(c, [[]] + ([[]] + env), e)
  {
    hide CheckExpr, CheckStmt, CheckStmts;
    OneStmt(c, [[]] + env, BlockStmt(Inner(e)), VoidT);
    InnerChecked(c, [[]] + env, e);
  }

  lemma {:induction false} InnerChecked(c: Ctx, env: Env, e: Expr)
    requires e != NoExpr && CheckExpr(c, [[]] + env, e).errors == 0
    ensures CheckStmt(c, env, BlockStmt(Inner(e))).t.errors == 0
    ensures CheckStmt(c, env, BlockStmt(Inner(e))).t.ty == TypeOf(c, [[]] + env, e)
  {
    hide CheckExpr;
    assert CheckStmts(c, [[]] + env, [], VoidT) == Checked(Typed(VoidT, 0, false), [[]] + env);
    assert CheckBlock(c, env, Inner(e)) == With(CheckExpr(c, [[]] + env, e), Typed(VoidT, 0, false));
  }

  lemma {:induction false} WrappedRuns(m: Machine, c: Ctx, n: nat, st: Store, e: Expr)
    requires Eval(m, [[]] + ([[]] + st), e).V? && Scalar(ResultType(c))
    ensures RunBody(m, c, n, st, Wrapped(e)) == WrongAt(ResultSite)
  {
    hide Eval;
    var top := [[]] + st;
    assert RunStmts(m, c, n, [[]] + top, []) == Next([[]] + top);
    assert RunBlock(m, c, n, top, Inner(e)) == Next(top);
    assert [BlockStmt(Inner(e))][1..] == [];
    assert RunStmts(m, c, n, top, []) == Next(top);
    assert RunStmts(m, c, n, top, [BlockStmt(Inner(e))]) == Next(top);
  }
}
