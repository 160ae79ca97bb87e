/** Runs of bodies made of integers, floats and booleans, with lexical scopes and implicit conversion at
    every store. A run goes wrong at a site when an operator, a condition or a store gets a value of the
    wrong kind, or at the end of a function that owes a result. */
module ScalarRuns {
  import opened Ast
  import opened Types
  import opened Checker

  /** `OtherV` is any value that is not an integer, a float or a boolean. */
  datatype Val = IntV(n: int) | FloatV(x: real) | BoolV(b: bool) | OtherV

  datatype Slot = Slot(binding: Binding, value: Val)

  /** Innermost scope first, like the scopes of the checker. */
  type Store = seq<seq<Slot>>

  /** The arithmetic of the target: `None` is a trap such as a division by zero. */
  datatype Machine = Machine(
    ints: (Op, int, int) -> Option<int>,
    floats: (Op, real, real) -> Option<real>,
    compare: (Op, Val, Val) -> bool,
    literal: Expr -> Val,
    narrow: (int, Ty) -> int)

  datatype Site =
    | NameSite(name: string)
    | BinarySite(op: Op, l: Val, r: Val)
    | UnarySite(op: Op, x: Val)
    | CompoundSite(aop: AssignOp, l: Val, r: Val)
    | ConditionSite(c: Val)
    | StoreSite(typ: Ty, v: Val)
    | ConstantSite(name: string)
    | ResultSite                            // the end of a function
    | OutsideSite

  datatype Res = V(v: Val) | Trap | Wrong(site: Site)

  predicate Scalar(t: Ty) {
    t.IntT? || t.FloatT? || t.BoolT?
  }

  /** The kind of a value is that of its type. */
  predicate Fits(v: Val, t: Ty) {
    match v
    case IntV(_) => t.IntT?
    case FloatV(_) => t.FloatT?
    case BoolV(_) => t.BoolT?
    case OtherV => !Scalar(t)
  }

  // ---- expressions ----

  function FindSlot(scope: seq<Slot>, name: string): Option<Slot> {
    if scope == [] then None else if scope[0].binding.name == name then Some(scope[0]) else FindSlot(scope[1..], name)
  }

  function LookupSlot(st: Store, name: string): Option<Slot> {
    if st == [] then None
    else if FindSlot(st[0], name).Some? then FindSlot(st[0], name)
    else LookupSlot(st[1..], name)
  }

  predicate Number(v: Val) {
    v.IntV? || v.FloatV?
  }

  function AsReal(v: Val): real
    requires Number(v)
  {
    if v.IntV? then v.n as real else v.x
  }

  function FromInt(r: Option<int>): Res {
    if r.Some? then V(IntV(r.value)) else Trap
  }

  function FromReal(r: Option<real>): Res {
    if r.Some? then V(FloatV(r.value)) else Trap
  }

  /** Numbers are compared, and booleans where no order is asked. */
  predicate Comparable(op: Op, l: Val, r: Val) {
    (Number(l) && Number(r)) || ((op.EqEq? || op.NotEq?) && l.BoolV? && r.BoolV?)
  }

  /** Integers are converted where the other operand is a float; remainder and bits need integers. */
  function ApplyBinary(m: Machine, op: Op, l: Val, r: Val): Res {
    if Comparison(op) then if Comparable(op, l, r) then V(BoolV(m.compare(op, l, r))) else Wrong(BinarySite(op, l, r))
    else if (Arithmetic(op) || Bitwise(op)) && l.IntV? && r.IntV? then FromInt(m.ints(op, l.n, r.n))
    else if Arithmetic(op) && !op.Percent? && Number(l) && Number(r) then FromReal(m.floats(op, AsReal(l), AsReal(r)))
    else Wrong(BinarySite(op, l, r))
  }

  function ApplyUnary(m: Machine, op: Op, x: Val): Res {
    if op.Minus? && x.IntV? then FromInt(m.ints(Minus, 0, x.n))
    else if op.Minus? && x.FloatV? then V(FloatV(-x.x))
    else if op.Tilde? && x.IntV? then FromInt(m.ints(Caret, x.n, -1))
    else if op.Bang? && x.BoolV? then V(BoolV(!x.b))
    else Wrong(UnarySite(op, x))
  }

  function Eval(m: Machine, st: Store, e: Expr): Res
    decreases e
  {
    match e
    case IntLit(n) => V(IntV(n))
    case FloatLit(_) => if m.literal(e).FloatV? then V(m.literal(e)) else Trap
    case CharLit(_) => if m.literal(e).IntV? then V(m.literal(e)) else Trap
    case BoolLit(b) => V(BoolV(b))
    case Ident(x) => if LookupSlot(st, x).Some? then V(LookupSlot(st, x).value.value) else Wrong(NameSite(x))
    case Binary(op, l, r) =>
      var a := Eval(m, st, l);
      if !a.V? then a
      else if op.AndAnd? || op.OrOr? then EvalLogic(op, a.v, Eval(m, st, r))
      else
        var b := Eval(m, st, r);
        if !b.V? then b else ApplyBinary(m, op, a.v, b.v)
    case Unary(op, x) =>
      var a := Eval(m, st, x);
      if !a.V? then a else ApplyUnary(m, op, a.v)
    case _ => Wrong(OutsideSite)
  }

  /** The right operand counts only where the left one does not decide. */
  function EvalLogic(op: Op, l: Val, right: Res): Res {
    if !l.BoolV? then Wrong(BinarySite(op, l, l))
    else if l.b == op.OrOr? then V(l)
    else if !right.V? then right
    else if right.v.BoolV? then right
    else Wrong(BinarySite(op, l, right.v))
  }

  // ---- statements ----

  datatype Run =
    | Next(store: Store)
    | Broke(store: Store)
    | Continued(store: Store)
    | Gave(value: Option<Val>)
    | OutOfFuel
    | Trapped
    | WrongAt(site: Site)

  /** A value as a variable of the type holds it. */
  function Convert(m: Machine, v: Val, t: Ty): Res {
    if t.IntT? && v.IntV? then V(IntV(m.narrow(v.n, t)))
    else if t.FloatT? && Number(v) then V(FloatV(AsReal(v)))
    else if t.BoolT? && v.BoolV? then V(v)
    else if !Scalar(t) then V(OtherV)
    else Wrong(StoreSite(t, v))
  }

  function EvalAs(m: Machine, st: Store, e: Expr, t: Ty): Res {
    var r := Eval(m, st, e);
    if r.V? then Convert(m, r.v, t) else r
  }

  function ScopeEnv(scope: seq<Slot>): (r: seq<Binding>)
    ensures |r| == |scope|
  {
    if scope == [] then [] else [scope[0].binding] + ScopeEnv(scope[1..])
  }

  function EnvOf(st: Store): (r: Env)
    ensures |r| == |st|
  {
    if st == [] then [] else [ScopeEnv(st[0])] + EnvOf(st[1..])
  }

  function Declare(st: Store, s: Slot): Store {
    if st == [] then [[s]] else [[s] + st[0]] + st[1..]
  }

  function SetSlot(scope: seq<Slot>, name: string, v: Val): seq<Slot> {
    if scope == [] then []
    else if scope[0].binding.name == name then [scope[0].(value := v)] + scope[1..]
    else [scope[0]] + SetSlot(scope[1..], name, v)
  }

  function SetVar(st: Store, name: string, v: Val): Store {
    if st == [] then []
    else if FindSlot(st[0], name).Some? then [SetSlot(st[0], name, v)] + st[1..]
    else [st[0]] + SetVar(st[1..], name, v)
  }

  function OpOf(aop: AssignOp): Op {
    match aop
    case AddAssign => Plus
    case SubAssign => Minus
    case MulAssign => Star
    case DivAssign => Slash
    case RemAssign => Percent
    case AndAssign => Amp
    case OrAssign => Pipe
    case XorAssign => Caret
    case ShlAssign => Shl
    case ShrAssign => Shr
    case Assign => Plus
  }

  /** What an assignment stores: the value, or the operation applied to the old value. */
  function Assigned(m: Machine, aop: AssignOp, before: Val, v: Val): Res {
    if aop.Assign? then V(v)
    else
      var r := ApplyBinary(m, OpOf(aop), before, v);
      if r.Wrong? then Wrong(CompoundSite(aop, before, v)) else r
  }

  function RunAssign(m: Machine, st: Store, aop: AssignOp, name: string, rhs: Expr): Run {
    var slot := LookupSlot(st, name);
    var v := Eval(m, st, rhs);
    if slot.None? then WrongAt(NameSite(name))
    else if slot.value.binding.isConst then WrongAt(ConstantSite(name))
    else if !v.V? then Failed(v)
    else
      var w := Assigned(m, aop, slot.value.value, v.v);
      if !w.V? then Failed(w)
      else
        var x := Convert(m, w.v, slot.value.binding.typ);
        if !x.V? then Failed(x) else Next(SetVar(st, name, x.v))
  }

  function Failed(r: Res): Run
    requires !r.V?
  {
    if r.Trap? then Trapped else WrongAt(r.site)
  }

  /** Leaving a scope by any of the ways that keep running. */
  function Leave(r: Run): Run {
    match r
    case Next(st) => if st == [] then r else Next(st[1..])
    case Broke(st) => if st == [] then r else Broke(st[1..])
    case Continued(st) => if st == [] then r else Continued(st[1..])
    case _ => r
  }

  function RunBlock(m: Machine, c: Ctx, n: nat, st: Store, b: Block): Run
    decreases n, b, 0
  {
    if b == NoBlock then Next(st)
    else
      var r := RunStmts(m, c, n, [[]] + st, b.stmts);
      if r.Next? && b.trailing != NoExpr && !Eval(m, r.store, b.trailing).V?
      then Failed(Eval(m, r.store, b.trailing))
      else Leave(r)
  }

  function RunStmts(m: Machine, c: Ctx, n: nat, st: Store, stmts: seq<Stmt>): Run
    decreases n, stmts, 0
  {
    if stmts == [] then Next(st)
    else
      var r := RunStmt(m, c, n, st, stmts[0]);
      if r.Next? then RunStmts(m, c, n, r.store, stmts[1..]) else r
  }

  /** The type of a new variable is the one the checker gives it. */
  function Declared(c: Ctx, st: Store, t: TypeExpr, init: Expr): Ty {
    if t != NoType then Resolve(c, EnvOf(st), t).ty else CheckExpr(c, EnvOf(st), init).ty
  }

  function RunStmt(m: Machine, c: Ctx, n: nat, st: Store, s: Stmt): Run
    decreases n, s, 0
  {
    match s
    case VarDecl(isConst, name, t, init) =>
      var typ := Declared(c, st, t, init);
      var v := EvalAs(m, st, init, typ);
      if v.V? then Next(Declare(st, Slot(Binding(name, isConst, typ), v.v))) else Failed(v)
    case AssignStmt(aop, lhs, rhs) => if lhs.Ident? then RunAssign(m, st, aop, lhs.name, rhs) else WrongAt(OutsideSite)
    case ExprStmt(e) =>
      var v := Eval(m, st, e);
      if v.V? then Next(st) else Failed(v)
    case BlockStmt(b) => RunBlock(m, c, n, st, b)
    case If(cond, thn, els) =>
      var v := Eval(m, st, cond);
      if !v.V? then Failed(v)
      else if !v.v.BoolV? then WrongAt(ConditionSite(v.v))
      else if v.v.b then RunBlock(m, c, n, st, thn)
      else if els.BlockStmt? then RunBlock(m, c, n, st, els.block)
      else Next(st)
    case While(cond, body) => RunWhile(m, c, n, st, cond, body)
    case Return(e) =>
      if e == NoExpr then Gave(None)
      else
        var v := EvalAs(m, st, e, c.ret.GetOr(VoidT));
        if v.V? then Gave(Some(v.v)) else Failed(v)
    case Break => Broke(st)
    case Continue => Continued(st)
    case NoStmt => Next(st)
    case _ => WrongAt(OutsideSite)
  }

  function RunWhile(m: Machine, c: Ctx, n: nat, st: Store, cond: Expr, body: Block): Run
    decreases n, body, 1
  {
    var v := Eval(m, st, cond);
    if !v.V? then Failed(v)
    else if !v.v.BoolV? then WrongAt(ConditionSite(v.v))
    else if !v.v.b then Next(st)
    else
      var r := RunBlock(m, c, n, st, body);
      if r.Broke? then Next(r.store)
      else if !r.Next? && !r.Continued? then r
      else if n == 0 then OutOfFuel
      else RunWhile(m, c, n - 1, r.store, cond, body)
  }

  /** The statements of a body, in its scope. */
  function RunTop(m: Machine, c: Ctx, n: nat, st: Store, b: Block): Run {
    if b == NoBlock then Next(st) else RunStmts(m, c, n, [[]] + st, b.stmts)
  }

  /** A scalar result is owed and none is there: the body falls off its end, or a loop jump leaves it. */
  predicate Owes(c: Ctx, r: Run, b: Block) {
    && Scalar(c.ret.GetOr(VoidT))
    && (r.Broke? || r.Continued? || (r.Next? && (b == NoBlock || b.trailing == NoExpr)))
  }

  /** A body: the value of its trailing expression is the result. */
  function RunBody(m: Machine, c: Ctx, n: nat, st: Store, b: Block): Run {
    var r := RunTop(m, c, n, st, b);
    if Owes(c, r, b) then WrongAt(ResultSite)
    else if !r.Next? || b == NoBlock || b.trailing == NoExpr then r
    else
      var v := EvalAs(m, r.store, b.trailing, c.ret.GetOr(VoidT));
      if v.V? then Gave(Some(v.v)) else Failed(v)
  }
}
