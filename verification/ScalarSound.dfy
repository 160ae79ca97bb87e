/** A body of integers, floats and booleans that is checked without error goes wrong exactly where a run
    reaches an operator or a store that the checker accepts and the types do not allow; a body without
    such a place never goes wrong. */
module ScalarSound {
  import opened Ast
  import opened Types
  import opened Checker
  import opened ScalarRuns
  import opened DeferExact
  import opened GenEnds

  // ---- the fragment ----

  predicate ScalarExpr(e: Expr)
    decreases e
  {
    match e
    case IntLit(_) => true
    case FloatLit(_) => true
    case CharLit(_) => true
    case BoolLit(_) => true
    case Ident(_) => true
    case Binary(op, l, r) =>
      (Arithmetic(op) || Comparison(op) || Bitwise(op) || op.AndAnd? || op.OrOr?) && ScalarExpr(l) && ScalarExpr(r)
    case Unary(op, x) => (op.Minus? || op.Bang? || op.Tilde?) && ScalarExpr(x)
    case _ => false
  }

  ghost predicate ScalarType(names: Names, t: TypeExpr) {
    forall self, env :: Scalar(names.resolve(t, self, env).ty)
  }

  ghost predicate ScalarBlock(names: Names, b: Block)
    decreases b, 0
  {
    b == NoBlock || (ScalarStmts(names, b.stmts) && (b.trailing == NoExpr || ScalarExpr(b.trailing)))
  }

  ghost predicate ScalarStmts(names: Names, stmts: seq<Stmt>)
    decreases stmts, 0
  {
    stmts == [] || (ScalarStmt(names, stmts[0]) && ScalarStmts(names, stmts[1..]))
  }

  ghost predicate ScalarStmt(names: Names, s: Stmt)
    decreases s, 0
  {
    match s
    case VarDecl(_, _, t, init) => ScalarExpr(init) && (t == NoType || ScalarType(names, t))
    case AssignStmt(_, lhs, rhs) => lhs.Ident? && ScalarExpr(rhs)
    case ExprStmt(e) => ScalarExpr(e)
    case BlockStmt(b) => ScalarBlock(names, b)
    case If(cond, thn, els) =>
      && ScalarExpr(cond) && ScalarBlock(names, thn)
      && (els.NoStmt? || els.BlockStmt?) && (els.BlockStmt? ==> ScalarBlock(names, els.block))
    case While(cond, body) => ScalarExpr(cond) && ScalarBlock(names, body)
    case Return(e) => e == NoExpr || ScalarExpr(e)
    case Break => true
    case Continue => true
    case _ => false
  }

  // ---- stores of the right kinds ----

  predicate ScopeFits(scope: seq<Slot>) {
    scope == [] || (Fits(scope[0].value, scope[0].binding.typ) && ScopeFits(scope[1..]))
  }

  /** Every variable holds a value of its declared kind. */
  predicate StoreFits(st: Store) {
    st == [] || (ScopeFits(st[0]) && StoreFits(st[1..]))
  }

  lemma {:induction false} FindAgrees(scope: seq<Slot>, x: string)
    requires ScopeFits(scope)
    ensures
      var s, b := FindSlot(scope, x), Find(ScopeEnv(scope), x);
      s.Some? == b.Some? && (s.Some? ==> s.value.binding == b.value && Fits(s.value.value, b.value.typ))
  {
    if scope != [] && scope[0].binding.name != x {
      FindAgrees(scope[1..], x);
      assert ScopeEnv(scope)[1..] == ScopeEnv(scope[1..]);
    }
  }

  lemma {:induction false} LookupAgrees(st: Store, x: string)
    requires StoreFits(st)
    ensures
      var s, b := LookupSlot(st, x), Lookup(EnvOf(st), x);
      s.Some? == b.Some? && (s.Some? ==> s.value.binding == b.value && Fits(s.value.value, b.value.typ))
  {
    if st != [] {
      FindAgrees(st[0], x);
      LookupAgrees(st[1..], x);
      assert EnvOf(st)[1..] == EnvOf(st[1..]);
    }
  }

  lemma {:induction false} SetScope(scope: seq<Slot>, x: string, v: Val)
    requires ScopeFits(scope) && FindSlot(scope, x).Some? && Fits(v, FindSlot(scope, x).value.binding.typ)
    ensures ScopeFits(SetSlot(scope, x, v)) && ScopeEnv(SetSlot(scope, x, v)) == ScopeEnv(scope)
  {
    if scope[0].binding.name != x { SetScope(scope[1..], x, v); }
  }

  /** An assignment of the right kind keeps all kinds and all names. */
  lemma {:induction false} SetKeeps(st: Store, x: string, v: Val)
    requires StoreFits(st) && LookupSlot(st, x).Some? && Fits(v, LookupSlot(st, x).value.binding.typ)
    ensures StoreFits(SetVar(st, x, v)) && EnvOf(SetVar(st, x, v)) == EnvOf(st)
  {
    if FindSlot(st[0], x).Some? { SetScope(st[0], x, v); } else { SetKeeps(st[1..], x, v); }
  }

  // ---- what the checker does not ask ----

  /** Remainder and bits are for integers, an order for numbers, and `==` also for two booleans. */
  predicate OperandsFit(op: Op, l: Ty, r: Ty) {
    if Comparison(op) then (IsNumeric(l) && IsNumeric(r)) || ((op.EqEq? || op.NotEq?) && l.BoolT? && r.BoolT?)
    else op.Percent? ==> !l.FloatT? && !r.FloatT?
  }

  predicate OperandFits(op: Op, t: Ty) {
    op.Tilde? ==> !t.FloatT?
  }

  /** A variable of the second type can hold a value of the first. */
  predicate Stores(from: Ty, target: Ty) {
    !Scalar(target) || (target.IntT? && from.IntT?) || (target.FloatT? && IsNumeric(from)) || (target.BoolT? && from.BoolT?)
  }

  /** A compound assignment needs two integers, or a float and a number with an operator that floats have. */
  predicate AssignFits(aop: AssignOp, target: Ty, from: Ty) {
    if aop.Assign? then Stores(from, target)
    else
      || (target.IntT? && from.IntT?)
      || (target.FloatT? && IsNumeric(from) && Arithmetic(OpOf(aop)) && !aop.RemAssign?)
  }

  function TypeOf(c: Ctx, env: Env, e: Expr): Ty {
    CheckExpr(c, env, e).ty
  }

  /** Every operator in the expression suits the types of its operands. */
  predicate SafeExpr(c: Ctx, env: Env, e: Expr)
    decreases e
  {
    match e
    case Binary(op, l, r) =>
      SafeExpr(c, env, l) && SafeExpr(c, env, r) && OperandsFit(op, TypeOf(c, env, l), TypeOf(c, env, r))
    case Unary(op, x) => SafeExpr(c, env, x) && OperandFits(op, TypeOf(c, env, x))
    case _ => true
  }

  predicate SafeBlock(c: Ctx, env: Env, b: Block)
    decreases b, 0
  {
    b == NoBlock
    || (SafeStmts(c, [[]] + env, b.stmts)
        && (b.trailing == NoExpr || SafeExpr(c, CheckStmts(c, [[]] + env, b.stmts, VoidT).env, b.trailing)))
  }

  predicate SafeStmts(c: Ctx, env: Env, stmts: seq<Stmt>)
    decreases stmts, 0
  {
    stmts == [] || (SafeStmt(c, env, stmts[0]) && SafeStmts(c, CheckStmt(c, env, stmts[0]).env, stmts[1..]))
  }

  predicate SafeStmt(c: Ctx, env: Env, s: Stmt)
    decreases s, 0
  {
    match s
    case VarDecl(_, _, t, init) =>
      var own := TypeOf(c, env, init);
      SafeExpr(c, env, init) && Stores(own, if t != NoType then Resolve(c, env, t).ty else own)
    case AssignStmt(aop, lhs, rhs) => SafeExpr(c, env, rhs) && AssignFits(aop, TypeOf(c, env, lhs), TypeOf(c, env, rhs))
    case ExprStmt(e) => SafeExpr(c, env, e)
    case BlockStmt(b) => SafeBlock(c, env, b)
    case If(cond, thn, els) =>
      SafeExpr(c, env, cond) && SafeBlock(c, env, thn) && (els.BlockStmt? ==> SafeBlock(c, env, els.block))
    case While(cond, body) => SafeExpr(c, env, cond) && SafeBlock(c, env, body)
    case Return(e) => e == NoExpr || (SafeExpr(c, env, e) && Stores(TypeOf(c, env, e), ResultType(c)))
    case _ => true
  }

  /** No operator, store or result in the body is of the wrong kind, and where a result is owed, no way leads past
      the end of the body and no loop jump out of it; this looks at types and control flow only. */
  predicate SafeBody(c: Ctx, env: Env, b: Block) {
    if b == NoBlock then !Scalar(ResultType(c))
    else
      && SafeStmts(c, [[]] + env, b.stmts)
      && (Scalar(ResultType(c)) ==> !LeavesAll(b.stmts, true))
      && if b.trailing == NoExpr then Scalar(ResultType(c)) ==> !PassesAll(b.stmts)
         else
           var inside := CheckStmts(c, [[]] + env, b.stmts, VoidT).env;
           SafeExpr(c, inside, b.trailing) && Stores(TypeOf(c, inside, b.trailing), ResultType(c))
  }

  // ---- where a run reaches such a place ----

  /** The evaluation applies an operator that does not suit the types of its operands. */
  predicate Hits(m: Machine, c: Ctx, st: Store, e: Expr)
    decreases e
  {
    match e
    case Binary(op, l, r) =>
      var a, b := Eval(m, st, l), Eval(m, st, r);
      || Hits(m, c, st, l)
      || (a.V? && (op.AndAnd? || op.OrOr?) && a.v != BoolV(op.OrOr?) && Hits(m, c, st, r))
      || (a.V? && !op.AndAnd? && !op.OrOr?
          && (Hits(m, c, st, r) || (b.V? && !OperandsFit(op, TypeOf(c, EnvOf(st), l), TypeOf(c, EnvOf(st), r)))))
    case Unary(op, x) => Hits(m, c, st, x) || (Eval(m, st, x).V? && !OperandFits(op, TypeOf(c, EnvOf(st), x)))
    case _ => false
  }

  /** The value of the expression is stored where its type does not fit. */
  predicate HitsStore(m: Machine, c: Ctx, st: Store, e: Expr, fits: bool) {
    Hits(m, c, st, e) || (Eval(m, st, e).V? && !fits)
  }

  predicate BlockHits(m: Machine, c: Ctx, n: nat, st: Store, b: Block)
    decreases n, b, 0
  {
    b != NoBlock
    && var r := RunStmts(m, c, n, [[]] + st, b.stmts);
       StmtsHit(m, c, n, [[]] + st, b.stmts) || (r.Next? && b.trailing != NoExpr && Hits(m, c, r.store, b.trailing))
  }

  predicate StmtsHit(m: Machine, c: Ctx, n: nat, st: Store, stmts: seq<Stmt>)
    decreases n, stmts, 0
  {
    stmts != []
    && var r := RunStmt(m, c, n, st, stmts[0]);
       StmtHits(m, c, n, st, stmts[0]) || (r.Next? && StmtsHit(m, c, n, r.store, stmts[1..]))
  }

  predicate StmtHits(m: Machine, c: Ctx, n: nat, st: Store, s: Stmt)
    decreases n, s, 0
  {
    var env := EnvOf(st);
    match s
    case VarDecl(_, _, t, init) => HitsStore(m, c, st, init, Stores(TypeOf(c, env, init), Declared(c, st, t, init)))
    case AssignStmt(aop, lhs, rhs) =>
      HitsStore(m, c, st, rhs, AssignFits(aop, TypeOf(c, env, lhs), TypeOf(c, env, rhs)))
    case ExprStmt(e) => Hits(m, c, st, e)
    case BlockStmt(b) => BlockHits(m, c, n, st, b)
    case If(cond, thn, els) =>
      || Hits(m, c, st, cond)
      || (Eval(m, st, cond) == V(BoolV(true)) && BlockHits(m, c, n, st, thn))
      || (Eval(m, st, cond) == V(BoolV(false)) && els.BlockStmt? && BlockHits(m, c, n, st, els.block))
    case While(cond, body) => LoopHits(m, c, n, st, cond, body)
    case Return(e) => e != NoExpr && HitsStore(m, c, st, e, Stores(TypeOf(c, env, e), ResultType(c)))
    case _ => false
  }

  predicate LoopHits(m: Machine, c: Ctx, n: nat, st: Store, cond: Expr, body: Block)
    decreases n, body, 1
  {
    || Hits(m, c, st, cond)
    || (Eval(m, st, cond) == V(BoolV(true))
        && var r := RunBlock(m, c, n, st, body);
           || BlockHits(m, c, n, st, body)
           || ((r.Next? || r.Continued?) && n > 0 && LoopHits(m, c, n - 1, r.store, cond, body)))
  }

  predicate BodyHits(m: Machine, c: Ctx, n: nat, st: Store, b: Block) {
    var r := RunTop(m, c, n, st, b);
    || Owes(c, r, b)
    || (&& b != NoBlock
        && (|| StmtsHit(m, c, n, [[]] + st, b.stmts)
            || (r.Next? && b.trailing != NoExpr
                && HitsStore(m, c, r.store, b.trailing, Stores(TypeOf(c, EnvOf(r.store), b.trailing), ResultType(c))))))
  }

  // ---- exactly when an accepted operator or store goes wrong ----

  lemma BinaryExact(m: Machine, op: Op, a: Val, b: Val, l: Ty, r: Ty)
    requires Arithmetic(op) || Comparison(op) || Bitwise(op)
    requires Fits(a, l) && Fits(b, r) && BinaryType(op, l, r).1 == 0
    ensures ApplyBinary(m, op, a, b).Wrong? <==> !OperandsFit(op, l, r)
    ensures ApplyBinary(m, op, a, b).V? ==> Fits(ApplyBinary(m, op, a, b).v, BinaryType(op, l, r).0)
  {
  }

  /** The checker accepts every comparison; it goes wrong exactly unless two numbers are compared, or two
      booleans for equality. */
  lemma ComparisonExact(m: Machine, op: Op, a: Val, b: Val, l: Ty, r: Ty)
    requires Comparison(op) && Fits(a, l) && Fits(b, r)
    ensures BinaryType(op, l, r) == (BoolT, 0)
    ensures ApplyBinary(m, op, a, b).Wrong?
            <==> !(IsNumeric(l) && IsNumeric(r)) && !((op.EqEq? || op.NotEq?) && l.BoolT? && r.BoolT?)
  {
    BinaryExact(m, op, a, b, l, r);
  }

  lemma UnaryExact(m: Machine, c: Ctx, op: Op, a: Val, t: Ty)
    requires op.Minus? || op.Bang? || op.Tilde?
    requires Fits(a, t) && UnaryType(c.isUnsafe, op, t).1 == 0
    ensures ApplyUnary(m, op, a).Wrong? <==> !OperandFits(op, t)
    ensures ApplyUnary(m, op, a).V? ==> Fits(ApplyUnary(m, op, a).v, UnaryType(c.isUnsafe, op, t).0)
  {
  }

  /** A store goes wrong exactly when the kinds differ. Where the checker compares the types, these are
      the stores of a pointer or a reference as the scalar behind it. */
  lemma {:induction false} StoreExact(m: Machine, v: Val, from: Ty, target: Ty)
    requires Fits(v, from)
    ensures Convert(m, v, target).Wrong? <==> !Stores(from, target)
    ensures Convert(m, v, target).V? ==> Fits(Convert(m, v, target).v, target)
    ensures CanCoerce(from, target) ==> (!Stores(from, target) <==> (from.PointerT? || from.ReferenceT?) && Scalar(target))
  {
  }

  /** An accepted assignment goes wrong exactly when the types do not fit its operator. */
  lemma {:induction false} AssignExact(m: Machine, aop: AssignOp, before: Val, v: Val, target: Ty, from: Ty)
    requires Fits(before, target) && Fits(v, from) && CanCoerce(from, target)
    ensures
      var w := Assigned(m, aop, before, v);
      && (w.Wrong? || (w.V? && Convert(m, w.v, target).Wrong?) <==> !AssignFits(aop, target, from))
      && (w.V? && Convert(m, w.v, target).V? ==> Fits(Convert(m, w.v, target).v, target))
  {
    if aop.Assign? { StoreExact(m, v, from, target); } else { CompoundExact(m, aop, before, v, target, from); }
  }

  lemma {:induction false} CompoundExact(m: Machine, aop: AssignOp, a: Val, b: Val, l: Ty, r: Ty)
    requires !aop.Assign? && Fits(a, l) && Fits(b, r) && CanCoerce(r, l)
    ensures Assigned(m, aop, a, b).Wrong? <==> !AssignFits(aop, l, r)
    ensures Assigned(m, aop, a, b).V? ==>
              var w := Convert(m, Assigned(m, aop, a, b).v, l); !w.Wrong? && (w.V? ==> Fits(w.v, l))
  {
  }

  // ---- expressions ----

  /** A result of the right kind, and a failure exactly where one is said to be. */
  predicate Sound(r: Res, t: Ty, hit: bool) {
    (r.V? ==> Fits(r.v, t)) && (r.Wrong? <==> hit)
  }

  lemma {:induction false} ExprSound(m: Machine, c: Ctx, st: Store, e: Expr)
    requires StoreFits(st) && ScalarExpr(e) && CheckExpr(c, EnvOf(st), e).errors == 0
    ensures Sound(Eval(m, st, e), TypeOf(c, EnvOf(st), e), Hits(m, c, st, e))
  {
    hide StoreFits, EnvOf, Fits, OperandsFit, OperandFits;
    match e {
      case Ident(x) => LookupAgrees(st, x);
      case Binary(op, l, r) =>
        ExprSound(m, c, st, l);
        ExprSound(m, c, st, r);
        BinarySound(m, c, st, op, l, r);
      case Unary(op, x) =>
        ExprSound(m, c, st, x);
        UnarySound(m, c, st, op, x);
      case _ => LiteralSound(m, c, st, e);
    }
  }

  lemma {:induction false} LiteralSound(m: Machine, c: Ctx, st: Store, e: Expr)
    requires ScalarExpr(e) && !e.Ident? && !e.Binary? && !e.Unary?
    ensures Sound(Eval(m, st, e), TypeOf(c, EnvOf(st), e), Hits(m, c, st, e))
  {
    hide EnvOf;
  }

  lemma {:induction false} BinarySound(m: Machine, c: Ctx, st: Store, op: Op, l: Expr, r: Expr)
    requires ScalarExpr(Binary(op, l, r)) && CheckExpr(c, EnvOf(st), Binary(op, l, r)).errors == 0
    requires Sound(Eval(m, st, l), TypeOf(c, EnvOf(st), l), Hits(m, c, st, l))
    requires Sound(Eval(m, st, r), TypeOf(c, EnvOf(st), r), Hits(m, c, st, r))
    ensures Sound(Eval(m, st, Binary(op, l, r)), TypeOf(c, EnvOf(st), Binary(op, l, r)), Hits(m, c, st, Binary(op, l, r)))
  {
    hide EnvOf, OperandsFit, ApplyBinary;
    var a, b := Eval(m, st, l), Eval(m, st, r);
    if a.V? && b.V? && !op.AndAnd? && !op.OrOr? {
      BinaryExact(m, op, a.v, b.v, TypeOf(c, EnvOf(st), l), TypeOf(c, EnvOf(st), r));
    }
  }

  lemma {:induction false} UnarySound(m: Machine, c: Ctx, st: Store, op: Op, x: Expr)
    requires ScalarExpr(Unary(op, x)) && CheckExpr(c, EnvOf(st), Unary(op, x)).errors == 0
    requires Sound(Eval(m, st, x), TypeOf(c, EnvOf(st), x), Hits(m, c, st, x))
    ensures Sound(Eval(m, st, Unary(op, x)), TypeOf(c, EnvOf(st), Unary(op, x)), Hits(m, c, st, Unary(op, x)))
  {
    hide EnvOf, OperandFits, ApplyUnary, Fits;
    var a := Eval(m, st, x);
    if a.V? { UnaryExact(m, c, op, a.v, TypeOf(c, EnvOf(st), x)); }
  }

  lemma {:induction false} SafeExprHits(m: Machine, c: Ctx, st: Store, e: Expr)
    requires SafeExpr(c, EnvOf(st), e)
    ensures !Hits(m, c, st, e)
  {
    hide EnvOf, Eval, TypeOf, OperandsFit, OperandFits;
    match e {
      case Binary(_, l, r) => SafeExprHits(m, c, st, l); SafeExprHits(m, c, st, r);
      case Unary(_, x) => SafeExprHits(m, c, st, x);
      case _ =>
    }
  }

  // ---- statements ----

  function ResultType(c: Ctx): Ty {
    c.ret.GetOr(VoidT)
  }

  /** Functions that return a scalar or nothing. */
  predicate ScalarResult(c: Ctx) {
    Scalar(ResultType(c)) || ResultType(c) == VoidT
  }

  /** A statement that ran from scopes `env`: the kinds hold, the scopes are `after` at the end and those
      around the innermost one at a jump; it went wrong exactly if it hit a bad place. */
  predicate RunSound(r: Run, c: Ctx, env: Env, after: Env, hit: bool)
    requires env != []
  {
    && (r.WrongAt? <==> hit)
    && match r
       case Next(st) => StoreFits(st) && EnvOf(st) == after
       case Broke(st) => StoreFits(st) && st != [] && EnvOf(st)[1..] == env[1..]
       case Continued(st) => StoreFits(st) && st != [] && EnvOf(st)[1..] == env[1..]
       case Gave(v) => if v.Some? then Fits(v.value, ResultType(c)) else !Scalar(ResultType(c))
       case _ => true
  }

  /** After a block the scopes are those before it, however it ended. */
  predicate BlockRunSound(r: Run, c: Ctx, env: Env, hit: bool) {
    && (r.WrongAt? <==> hit)
    && match r
       case Next(st) => StoreFits(st) && EnvOf(st) == env
       case Broke(st) => StoreFits(st) && EnvOf(st) == env
       case Continued(st) => StoreFits(st) && EnvOf(st) == env
       case Gave(v) => if v.Some? then Fits(v.value, ResultType(c)) else !Scalar(ResultType(c))
       case _ => true
  }

  lemma AsStatement(r: Run, c: Ctx, env: Env, hit: bool)
    requires BlockRunSound(r, c, env, hit) && env != []
    ensures RunSound(r, c, env, env, hit)
  {
  }

  lemma BindTail(env: Env, b: Binding)
    requires env != []
    ensures Bind(env, b) != [] && Bind(env, b)[1..] == env[1..]
  {
  }

  lemma {:induction false} StmtTail(c: Ctx, env: Env, s: Stmt)
    requires env != []
    ensures CheckStmt(c, env, s).env != [] && CheckStmt(c, env, s).env[1..] == env[1..]
  {
    hide CheckExpr, CheckBlock, Bind, CanCoerce;
    if s.VarDecl? {
      BindTail(env, Binding(s.name, s.isConst, if s.typ != NoType then Resolve(c, env, s.typ).ty else CheckExpr(c, env, s.init).ty));
    }
  }

  lemma {:induction false} DeclareFits(st: Store, s: Slot)
    requires StoreFits(st) && Fits(s.value, s.binding.typ)
    ensures StoreFits(Declare(st, s)) && EnvOf(Declare(st, s)) == Bind(EnvOf(st), s.binding)
  {
    if st == [] {
      assert ScopeFits([s]) && StoreFits([[s]]) && ScopeEnv([s]) == [s.binding];
      assert EnvOf([[s]]) == [ScopeEnv([s])];
    } else {
      assert ([s] + st[0])[1..] == st[0] && ([[s] + st[0]] + st[1..])[1..] == st[1..];
    }
  }

  lemma {:induction false} OpenFits(st: Store)
    requires StoreFits(st)
    ensures StoreFits([[]] + st) && EnvOf([[]] + st) == [[]] + EnvOf(st)
  {
    assert ([[]] + st)[1..] == st;
  }

  lemma {:induction false} CloseFits(st: Store)
    requires StoreFits(st) && st != []
    ensures StoreFits(st[1..]) && EnvOf(st[1..]) == EnvOf(st)[1..]
  {
  }

  lemma LeaveSound(r: Run, c: Ctx, env: Env, after: Env, hit: bool)
    requires RunSound(r, c, [[]] + env, after, hit) && after != [] && after[1..] == env
    ensures BlockRunSound(Leave(r), c, env, hit)
  {
    hide StoreFits, EnvOf;
    if r.Next? || r.Broke? || r.Continued? {
      assert ([[]] + env)[1..] == env;
      assert |r.store| == |EnvOf(r.store)|;
      CloseFits(r.store);
    }
  }

  lemma {:induction false} BlockSound(m: Machine, c: Ctx, n: nat, st: Store, b: Block)
    requires StoreFits(st) && ScalarBlock(c.names, b) && ScalarResult(c)
    requires CheckBlock(c, EnvOf(st), b).errors == 0
    ensures BlockRunSound(RunBlock(m, c, n, st, b), c, EnvOf(st), BlockHits(m, c, n, st, b))
    decreases n, b, 0
  {
    hide CheckExpr, CheckStmts, StoreFits, EnvOf, RunStmts, Eval, ScalarStmts, ScalarExpr, Leave, StmtsHit, Hits;
    if b != NoBlock {
      var env := [[]] + EnvOf(st);
      OpenFits(st);
      StmtsSound(m, c, n, [[]] + st, b.stmts, VoidT);
      var r := RunStmts(m, c, n, [[]] + st, b.stmts);
      var after := CheckStmts(c, env, b.stmts, VoidT).env;
      if r.Next? && b.trailing != NoExpr { ExprSound(m, c, r.store, b.trailing); }
      assert env[1..] == EnvOf(st);
      LeaveSound(r, c, EnvOf(st), after, StmtsHit(m, c, n, [[]] + st, b.stmts));
    }
  }

  lemma {:induction false} StmtsSound(m: Machine, c: Ctx, n: nat, st: Store, stmts: seq<Stmt>, last: Ty)
    requires StoreFits(st) && st != [] && ScalarStmts(c.names, stmts) && ScalarResult(c)
    requires CheckStmts(c, EnvOf(st), stmts, last).t.errors == 0
    ensures
      var after := CheckStmts(c, EnvOf(st), stmts, last).env;
      RunSound(RunStmts(m, c, n, st, stmts), c, EnvOf(st), after, StmtsHit(m, c, n, st, stmts)) && after != [] && after[1..] == EnvOf(st)[1..]
    decreases n, stmts, 0
  {
    hide CheckStmt, StoreFits, EnvOf, RunStmt, ScalarStmt, StmtHits;
    if stmts != [] {
      var env := EnvOf(st);
      var first := CheckStmt(c, env, stmts[0]);
      StmtSound(m, c, n, st, stmts[0]);
      StmtTail(c, env, stmts[0]);
      var r := RunStmt(m, c, n, st, stmts[0]);
      StmtsTail(c, first.env, stmts[1..], first.t.ty);
      if r.Next? {
        assert |r.store| == |EnvOf(r.store)|;
        StmtsSound(m, c, n, r.store, stmts[1..], first.t.ty);
      }
    }
  }

  lemma {:induction false} StmtsTail(c: Ctx, env: Env, stmts: seq<Stmt>, last: Ty)
    requires env != []
    ensures var after := CheckStmts(c, env, stmts, last).env; after != [] && after[1..] == env[1..]
    decreases stmts
  {
    hide CheckStmt;
    if stmts != [] {
      var first := CheckStmt(c, env, stmts[0]);
      StmtTail(c, env, stmts[0]);
      StmtsTail(c, first.env, stmts[1..], first.t.ty);
    }
  }

  lemma {:induction false} StmtSound(m: Machine, c: Ctx, n: nat, st: Store, s: Stmt)
    requires StoreFits(st) && st != [] && ScalarStmt(c.names, s) && ScalarResult(c)
    requires CheckStmt(c, EnvOf(st), s).t.errors == 0
    ensures RunSound(RunStmt(m, c, n, st, s), c, EnvOf(st), CheckStmt(c, EnvOf(st), s).env, StmtHits(m, c, n, st, s))
    decreases n, s, 2
  {
    hide CheckExpr, CheckBlock, StoreFits, EnvOf, RunBlock, RunWhile, RunAssign, Eval, ScalarBlock, ScalarExpr, ScalarType, Hits, HitsStore,
         CanCoerce, Bind, Declare, EvalAs, Convert, BlockRunSound;
    match s {
      case VarDecl(_, _, _, _) => VarSound(m, c, n, st, s);
      case AssignStmt(_, _, _) => AssignSound(m, c, n, st, s);
      case ExprStmt(e) => ExprSound(m, c, st, e);
      case BlockStmt(b) =>
        BlockSound(m, c, n, st, b);
        AsStatement(RunBlock(m, c, n, st, b), c, EnvOf(st), BlockHits(m, c, n, st, b));
      case If(_, _, _) => IfSound(m, c, n, st, s);
      case While(cond, body) =>
        WhileSound(m, c, n, st, cond, body);
        AsStatement(RunWhile(m, c, n, st, cond, body), c, EnvOf(st), LoopHits(m, c, n, st, cond, body));
      case Return(e) => ReturnSound(m, c, n, st, e);
      case _ =>
    }
  }

  lemma {:induction false} VarSound(m: Machine, c: Ctx, n: nat, st: Store, s: Stmt)
    requires s.VarDecl? && StoreFits(st) && st != [] && ScalarStmt(c.names, s)
    requires CheckStmt(c, EnvOf(st), s).t.errors == 0
    ensures RunSound(RunStmt(m, c, n, st, s), c, EnvOf(st), CheckStmt(c, EnvOf(st), s).env, StmtHits(m, c, n, st, s))
  {
    hide CheckExpr, StoreFits, EnvOf, Eval, ScalarExpr, ScalarType, Hits, CanCoerce, Bind, Declare, Convert, Resolve, Stores;
    var env := EnvOf(st);
    var typ := Declared(c, st, s.typ, s.init);
    ExprSound(m, c, st, s.init);
    var v := Eval(m, st, s.init);
    assert s.init != NoExpr by { NotNull(s.init); }
    if v.V? {
      StoreExact(m, v.v, TypeOf(c, env, s.init), typ);
      var w := Convert(m, v.v, typ);
      if w.V? { DeclareFits(st, Slot(Binding(s.name, s.isConst, typ), w.v)); }
    }
  }

  lemma {:induction false} NotNull(e: Expr)
    requires ScalarExpr(e)
    ensures e != NoExpr
  {
  }

  lemma {:induction false} AssignSound(m: Machine, c: Ctx, n: nat, st: Store, s: Stmt)
    requires s.AssignStmt? && StoreFits(st) && st != [] && ScalarStmt(c.names, s)
    requires CheckStmt(c, EnvOf(st), s).t.errors == 0
    ensures RunSound(RunStmt(m, c, n, st, s), c, EnvOf(st), CheckStmt(c, EnvOf(st), s).env, StmtHits(m, c, n, st, s))
  {
    hide CheckExpr, StoreFits, EnvOf, Eval, ScalarExpr, CanCoerce, Convert, Assigned, SetVar, Lookup, LookupSlot, Hits, AssignFits;
    var env := EnvOf(st);
    var x := s.lhs.name;
    NameType(c, env, s.lhs);
    LookupAgrees(st, x);
    ExprSound(m, c, st, s.rhs);
    var slot := LookupSlot(st, x).value;
    var v := Eval(m, st, s.rhs);
    if v.V? {
      AssignExact(m, s.aop, slot.value, v.v, slot.binding.typ, TypeOf(c, env, s.rhs));
      var w := Assigned(m, s.aop, slot.value, v.v);
      if w.V? {
        var kept := Convert(m, w.v, slot.binding.typ);
        if kept.V? { SetKeeps(st, x, kept.v); }
      }
    }
  }

  lemma {:induction false} NameType(c: Ctx, env: Env, lhs: Expr)
    requires lhs.Ident? && CheckExpr(c, env, lhs).errors == 0
    ensures Lookup(env, lhs.name).Some? && CheckExpr(c, env, lhs).ty == Lookup(env, lhs.name).value.typ
    ensures !(lhs.name == "self" && c.self.None?)
  {
  }

  lemma {:induction false} IfSound(m: Machine, c: Ctx, n: nat, st: Store, s: Stmt)
    requires s.If? && StoreFits(st) && st != [] && ScalarStmt(c.names, s) && ScalarResult(c)
    requires CheckStmt(c, EnvOf(st), s).t.errors == 0
    ensures RunSound(RunStmt(m, c, n, st, s), c, EnvOf(st), CheckStmt(c, EnvOf(st), s).env, StmtHits(m, c, n, st, s))
    decreases n, s, 0
  {
    hide CheckExpr, CheckBlock, StoreFits, EnvOf, RunBlock, Eval, ScalarBlock, ScalarExpr, Hits, BlockHits, BlockRunSound;
    ExprSound(m, c, st, s.cond);
    var v := Eval(m, st, s.cond);
    if v.V? && v.v.BoolV? {
      if v.v.b {
        BlockSound(m, c, n, st, s.thn);
        AsStatement(RunBlock(m, c, n, st, s.thn), c, EnvOf(st), BlockHits(m, c, n, st, s.thn));
      } else if s.els.BlockStmt? {
        BlockSound(m, c, n, st, s.els.block);
        AsStatement(RunBlock(m, c, n, st, s.els.block), c, EnvOf(st), BlockHits(m, c, n, st, s.els.block));
      }
    }
  }

  lemma {:induction false} WhileSound(m: Machine, c: Ctx, n: nat, st: Store, cond: Expr, body: Block)
    requires StoreFits(st) && ScalarExpr(cond) && ScalarBlock(c.names, body) && ScalarResult(c)
    requires CheckExpr(c, EnvOf(st), cond).errors == 0 && CheckExpr(c, EnvOf(st), cond).ty.BoolT?
    requires CheckBlock(c, EnvOf(st), body).errors == 0
    ensures BlockRunSound(RunWhile(m, c, n, st, cond, body), c, EnvOf(st), LoopHits(m, c, n, st, cond, body))
    decreases n, body, 1
  {
    hide CheckExpr, CheckBlock, StoreFits, EnvOf, RunBlock, Eval, ScalarBlock, ScalarExpr, Hits, BlockHits;
    ExprSound(m, c, st, cond);
    var v := Eval(m, st, cond);
    if v.V? && v.v == BoolV(true) {
      BlockSound(m, c, n, st, body);
      var r := RunBlock(m, c, n, st, body);
      if (r.Next? || r.Continued?) && n > 0 { WhileSound(m, c, n - 1, r.store, cond, body); }
    }
  }

  lemma {:induction false} ReturnSound(m: Machine, c: Ctx, n: nat, st: Store, e: Expr)
    requires StoreFits(st) && st != [] && ScalarStmt(c.names, Return(e)) && ScalarResult(c)
    requires CheckStmt(c, EnvOf(st), Return(e)).t.errors == 0
    ensures RunSound(RunStmt(m, c, n, st, Return(e)), c, EnvOf(st), CheckStmt(c, EnvOf(st), Return(e)).env,
                     StmtHits(m, c, n, st, Return(e)))
  {
    hide CheckExpr, StoreFits, EnvOf, EvalAs, ScalarExpr, CanCoerce, HitsStore, Stores;
    if e == NoExpr {
      NothingChecked(c, EnvOf(st));
    } else {
      ResultSound(m, c, st, e);
    }
  }

  lemma {:induction false} NothingChecked(c: Ctx, env: Env)
    ensures CheckExpr(c, env, NoExpr) == Typed(VoidT, 0, false)
    ensures forall t :: Scalar(t) ==> !CanCoerce(VoidT, t)
  {
  }

  // ---- functions ----

  predicate Returns(b: Block)
    decreases b, 0
  {
    b.Block? && SomeReturns(b.stmts)
  }

  predicate SomeReturns(stmts: seq<Stmt>)
    decreases stmts, 0
  {
    stmts != [] && (StmtReturns(stmts[0]) || SomeReturns(stmts[1..]))
  }

  /** A `return` stands somewhere in the statement. */
  predicate StmtReturns(s: Stmt)
    decreases s, 0
  {
    match s
    case Return(_) => true
    case BlockStmt(b) => Returns(b)
    case If(_, thn, els) => Returns(thn) || (els.BlockStmt? && Returns(els.block))
    case While(_, body) => Returns(body)
    case _ => false
  }

  lemma {:induction false} ExprReturns(c: Ctx, env: Env, e: Expr)
    requires ScalarExpr(e)
    ensures !CheckExpr(c, env, e).returned
  {
    match e {
      case Binary(_, l, r) => ExprReturns(c, env, l); ExprReturns(c, env, r);
      case Unary(_, x) => ExprReturns(c, env, x);
      case _ =>
    }
  }

  lemma {:induction false} BlockReturns(c: Ctx, env: Env, b: Block)
    requires ScalarBlock(c.names, b)
    ensures CheckBlock(c, env, b).returned == Returns(b)
    decreases b, 0
  {
    hide CheckExpr, CheckStmts, ScalarExpr, ScalarStmts;
    if b != NoBlock {
      StmtsReturn(c, [[]] + env, b.stmts, VoidT);
      if b.trailing != NoExpr { ExprReturns(c, CheckStmts(c, [[]] + env, b.stmts, VoidT).env, b.trailing); }
    }
  }

  lemma {:induction false} StmtsReturn(c: Ctx, env: Env, stmts: seq<Stmt>, last: Ty)
    requires ScalarStmts(c.names, stmts)
    ensures CheckStmts(c, env, stmts, last).t.returned == SomeReturns(stmts)
    decreases stmts, 0
  {
    hide CheckStmt, ScalarStmt, StmtReturns;
    if stmts != [] {
      StmtReturnsToo(c, env, stmts[0]);
      var first := CheckStmt(c, env, stmts[0]);
      StmtsReturn(c, first.env, stmts[1..], first.t.ty);
    }
  }

  lemma {:induction false} StmtReturnsToo(c: Ctx, env: Env, s: Stmt)
    requires ScalarStmt(c.names, s)
    ensures CheckStmt(c, env, s).t.returned == StmtReturns(s)
    decreases s, 0
  {
    hide CheckExpr, CheckBlock, ScalarExpr, ScalarBlock, ScalarType, Resolve, CanCoerce, Bind, Returns;
    match s {
      case VarDecl(_, _, t, init) => ExprReturns(c, env, init); ResolveOnly(c, env, t);
      case AssignStmt(_, lhs, rhs) => ExprReturns(c, env, rhs); IdentReturns(c, env, lhs);
      case ExprStmt(e) => ExprReturns(c, env, e);
      case BlockStmt(b) => BlockReturns(c, env, b);
      case If(cond, thn, els) =>
        ExprReturns(c, env, cond);
        BlockReturns(c, env, thn);
        if els.BlockStmt? { BlockReturns(c, env, els.block); }
      case While(cond, body) => ExprReturns(c, env, cond); BlockReturns(c, env, body);
      case _ =>
    }
  }

  lemma {:induction false} IdentReturns(c: Ctx, env: Env, e: Expr)
    requires e.Ident?
    ensures !CheckExpr(c, env, e).returned
  {
  }

  lemma {:induction false} ParamsKeep(c: Ctx, env: Env, params: seq<Param>)
    ensures CheckParams(c, env, params).0.names == c.names
    decreases |params|
  {
    hide Resolve, Bind;
    if params != [] {
      var p := params[0];
      var t := ParamType(c, env, p);
      var c' := if p.isSelf then c.(self := Some(t.ty)) else c;
      ParamsKeep(c', Bind(env, Binding(if p.isSelf then "self" else p.name, false, t.ty)), params[1..]);
    }
  }

  /** The end of a body: a result of the declared kind, kinds kept, and a failure exactly at a bad place. */
  predicate BodySound(r: Run, c: Ctx, hit: bool) {
    && (r.WrongAt? <==> hit)
    && match r
       case Next(st) => StoreFits(st) && !Scalar(ResultType(c))
       case Broke(st) => StoreFits(st) && !Scalar(ResultType(c))
       case Continued(st) => StoreFits(st) && !Scalar(ResultType(c))
       case Gave(v) => if v.Some? then Fits(v.value, ResultType(c)) else !Scalar(ResultType(c))
       case _ => true
  }

  /** A run of an accepted function goes wrong exactly if it reaches an operator, a store or a result whose
      types the checker should not have let through, or ends without the result it owes; whatever else happens,
      all kinds are kept. */
  lemma {:induction false} FunctionSound(m: Machine, names: Names, self: Option<Ty>, outer: Env, f: Fn, n: nat,
      st: Store)
    requires CheckFn(names, self, outer, f) == 0
    requires
      var entry := Entry(names, self, outer, f);
      EnvOf(st) == entry.1 && StoreFits(st) && ScalarResult(entry.0) && ScalarBlock(names, f.body)
    ensures
      var c := Entry(names, self, outer, f).0;
      BodySound(RunBody(m, c, n, st, f.body), c, BodyHits(m, c, n, st, f.body))
  {
    hide *;
    EntryNames(names, self, outer, f);
    AcceptedBody(names, self, outer, f);
    BodyRuns(m, Entry(names, self, outer, f).0, n, st, f.body);
  }

  lemma {:induction false} EntryNames(names: Names, self: Option<Ty>, outer: Env, f: Fn)
    ensures Entry(names, self, outer, f).0.names == names
  {
    hide CheckParams, Resolve, GenericScope;
    ParamsKeep(Ctx(names, f.isUnsafe, self, None), [GenericScope(f.generics)] + outer, f.params);
  }

  lemma {:induction false} AcceptedBody(names: Names, self: Option<Ty>, outer: Env, f: Fn)
    requires CheckFn(names, self, outer, f) == 0
    ensures var entry := Entry(names, self, outer, f); CheckBlock(entry.0, entry.1, f.body).errors == 0
  {
    hide Entry, CheckBlock, CanCoerce;
  }

  lemma {:induction false} BodyRuns(m: Machine, c: Ctx, n: nat, st: Store, b: Block)
    requires CheckBlock(c, EnvOf(st), b).errors == 0
    requires StoreFits(st) && ScalarResult(c) && ScalarBlock(c.names, b)
    ensures BodySound(RunBody(m, c, n, st, b), c, BodyHits(m, c, n, st, b))
  {
    hide CheckExpr, CheckStmts, StoreFits, EnvOf, RunStmts, EvalAs, ScalarStmts, ScalarExpr, StmtsHit, HitsStore;
    if b != NoBlock {
      OpenFits(st);
      StmtsSound(m, c, n, [[]] + st, b.stmts, VoidT);
      var r := RunStmts(m, c, n, [[]] + st, b.stmts);
      if r.Next? && b.trailing != NoExpr { ResultSound(m, c, r.store, b.trailing); }
    }
  }

  /** The value of an expression, kept as the result of the function. */
  lemma {:induction false} ResultSound(m: Machine, c: Ctx, st: Store, e: Expr)
    requires StoreFits(st) && ScalarExpr(e) && CheckExpr(c, EnvOf(st), e).errors == 0
    ensures
      var hit := HitsStore(m, c, st, e, Stores(TypeOf(c, EnvOf(st), e), ResultType(c)));
      Sound(EvalAs(m, st, e, ResultType(c)), ResultType(c), hit)
  {
    hide CheckExpr, StoreFits, EnvOf, Eval, ScalarExpr, Hits, Stores, Convert;
    ExprSound(m, c, st, e);
    var v := Eval(m, st, e);
    if v.V? { StoreExact(m, v.v, TypeOf(c, EnvOf(st), e), ResultType(c)); }
  }
}
