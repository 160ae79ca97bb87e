/** What the generator emits for a block, as a function of its defer stack and loop stack.
    `levels` are the defer levels in use, outermost first; `bases` are the defer depths at which
    the open loops were entered. */
module Lowering {
  import opened Ast
  import opened Semantics
  import opened CTarget

  const MaxDeferDepth := 64
  const MaxDefersPerBlock := 32

  function Last<T>(xs: seq<T>): T
    requires |xs| > 0
  {
    xs[|xs| - 1]
  }

  function Front<T>(xs: seq<T>): seq<T>
    requires |xs| > 0
  {
    xs[..|xs| - 1]
  }

  /** More than the size of every deferred expression of the levels. */
  function Depth(levels: seq<seq<Expr>>): nat {
    if levels == [] then 0 else Max(Depth(Front(levels)), Deepest(Last(levels)))
  }

  /** The deferred expressions of levels `down` and deeper, innermost level first, newest first. */
  function Pending(levels: seq<seq<Expr>>, down: nat): (r: seq<Expr>)
    ensures Deepest(r) <= Depth(levels)
  {
    if |levels| <= down then []
    else
      DeepestReverse(Last(levels));
      DeepestAppend(Reverse(Last(levels)), Pending(Front(levels), down));
      Reverse(Last(levels)) + Pending(Front(levels), down)
  }

  /** The copies of deferred expressions, one after the other. */
  function Calls(es: seq<Expr>): seq<CStmt>
    decreases Deepest(es), 0, 1, |es|
  {
    if es == [] then [] else Copy(es[0]) + Calls(es[1..])
  }

  /** The copy of a deferred expression. No jump leaves a deferred block, so the levels around the copy do
      not matter to it (see `LoweredText.CopyAnywhere`). */
  function Copy(e: Expr): seq<CStmt>
    decreases ExprSize(e), ExprSize(e), 0, 0
  {
    if e.Unsafe? then [CBlock(LowerBlock(e.body, [], [], false)), CEmpty] else [CExpr(e)]
  }

  /** The level to which `break` and `continue` unwind. */
  function LoopFloor(bases: seq<nat>): nat {
    if bases == [] then 0 else Last(bases) + 1
  }

  /** The innermost level after a statement: only `defer` changes it, and only while there is room
      (src/codegen_c.c:506-512). */
  function After(st: Stmt, levels: seq<seq<Expr>>): (r: seq<seq<Expr>>)
    requires |levels| > 0
    ensures |r| == |levels| && Front(r) == Front(levels)
    ensures Depth(r) <= Max(Depth(levels), StmtSize(st))
  {
    if st.Defer? && |Last(levels)| < MaxDefersPerBlock
    then (DeepestAppend(Last(levels), [st.expr]); Front(levels) + [Last(levels) + [st.expr]])
    else levels
  }

  function AfterAll(stmts: seq<Stmt>, levels: seq<seq<Expr>>): (r: seq<seq<Expr>>)
    requires |levels| > 0
    ensures |r| == |levels| && Front(r) == Front(levels)
    ensures Depth(r) <= Max(Depth(levels), StmtsSize(stmts))
  {
    if stmts == [] then levels else AfterAll(stmts[1..], After(stmts[0], levels))
  }

  /** `returning` is set for a function body only: its trailing expression is returned. */
  function LowerBlock(b: Block, levels: seq<seq<Expr>>, bases: seq<nat>, returning: bool): seq<CStmt>
    decreases Max(Depth(levels), BlockSize(b)), BlockSize(b), 2, 0
  {
    match b
    case NoBlock => []
    case Block(stmts, trailing) =>
      var inner := levels + [[]];
      assert Front(inner) == levels && Depth(inner) == Depth(levels);
      var end := AfterAll(stmts, inner);
      DeepestReverse(Last(end));
      LowerStmts(stmts, inner, bases) + LowerTrailing(b, returning, end, bases) + Calls(Reverse(Last(end)))
  }

  function LowerTrailing(b: Block, returning: bool, levels: seq<seq<Expr>>, bases: seq<nat>): seq<CStmt>
    requires b.Block? && |levels| > 0
    decreases Max(Depth(levels), BlockSize(b)), BlockSize(b), 1, 0
  {
    if b.trailing == NoExpr then []
    else if returning then [CReturn(b.trailing)]
    else LowerExpr(b.trailing, levels, bases)
  }

  function LowerStmts(stmts: seq<Stmt>, levels: seq<seq<Expr>>, bases: seq<nat>): seq<CStmt>
    requires |levels| > 0
    decreases Max(Depth(levels), StmtsSize(stmts)), StmtsSize(stmts), 4, 0
  {
    if stmts == [] then []
    else LowerStmt(stmts[0], levels, bases) + LowerStmts(stmts[1..], After(stmts[0], levels), bases)
  }

  function LowerExpr(e: Expr, levels: seq<seq<Expr>>, bases: seq<nat>): seq<CStmt>
    requires |levels| > 0
    decreases Max(Depth(levels), ExprSize(e)), ExprSize(e), 0, 0
  {
    if e.Unsafe? then [CBlock(LowerBlock(e.body, levels, bases, false)), CEmpty] else [CExpr(e)]
  }

  function LowerStmt(st: Stmt, levels: seq<seq<Expr>>, bases: seq<nat>): seq<CStmt>
    requires |levels| > 0
    decreases Max(Depth(levels), StmtSize(st)), StmtSize(st), 3, 0
  {
    match st
    case VarDecl(_, _, _, _) => [CSimple(st)]
    case AssignStmt(_, _, _) => [CSimple(st)]
    case ExprStmt(e) => LowerExpr(e, levels, bases)
    case Return(v) => Calls(Pending(levels, 0)) + [CReturn(v)]
    case Break => LoopExit(levels, bases) + [CBreak]
    case Continue => LoopExit(levels, bases) + [CContinue]
    case BlockStmt(b) => [CBlock(LowerBlock(b, levels, bases, false))]
    case If(c, t, e) => [CIf(c, LowerBlock(t, levels, bases, false), LowerStmt(e, levels, bases))]
    case While(c, b) => [CWhile(c, LowerBlock(b, levels, bases + [|levels| - 1], false))]
    case For(x, _, iter, b) =>
      [CFor(x, RangeStart(iter), RangeEnd(iter), LowerBlock(b, levels, bases + [|levels| - 1], false))]
    case NoStmt => []
    case Defer(_) => []
    case ErrDefer(_) => []
    case Match(_, _) => []
  }

  /** The copies before `break` and `continue`; outside loops there are none. */
  function LoopExit(levels: seq<seq<Expr>>, bases: seq<nat>): seq<CStmt>
    decreases Depth(levels), 0, 2, 0
  {
    Calls(LoopDefers(levels, bases))
  }

  function LoopDefers(levels: seq<seq<Expr>>, bases: seq<nat>): (r: seq<Expr>)
    ensures Deepest(r) <= Depth(levels)
  {
    if bases == [] then [] else Pending(levels, Last(bases) + 1)
  }

  function LowerBody(b: Block): seq<CStmt> {
    LowerBlock(b, [], [], true)
  }

  // ---- what the lowering covers ----

  /** No block hides in the expression: `unsafe` blocks inside of expressions would be written as C blocks
      where C wants an expression, and `try` is only a stub. */
  predicate Plain(e: Expr)
    decreases e
  {
    match e
    case Unsafe(_) => false
    case Try(_) => false
    case ErrorCapture(_, _, _) => false
    case Binary(_, l, r) => Plain(l) && Plain(r)
    case Unary(_, x) => Plain(x)
    case Call(f, args) => Plain(f) && forall a :: a in args ==> Plain(a)
    case MethodCall(o, _, args) => Plain(o) && forall a :: a in args ==> Plain(a)
    case Field(o, _) => Plain(o)
    case Index(o, i) => Plain(o) && Plain(i)
    case Slice(o, lo, hi) => Plain(o) && Plain(lo) && Plain(hi)
    case Cast(x, _) => Plain(x)
    case ArrayLit(_, n, elems, _) => Plain(n) && forall a :: a in elems ==> Plain(a)
    case StructLit(_, inits) => forall i :: i in inits ==> Plain(i.value)
    case _ => true
  }

  /** The statements the lowering covers: no null nodes, no `match` or `errdefer`, only range loops, no block
      inside of an expression, loop jumps only inside of loops (section 6.8.6.3 of ISO C11) and `return`
      only where it is `free`: no jump leaves a deferred block (see module GenEnds). */
  predicate CoveredBlock(b: Block, inLoop: bool, free: bool)
    decreases b, 0
  {
    b.Block? && CoveredStmts(b.stmts, inLoop, free) && CoveredExpr(b.trailing, inLoop, free)
  }

  predicate CoveredStmts(stmts: seq<Stmt>, inLoop: bool, free: bool)
    decreases stmts, 0
  {
    stmts == [] || (CoveredStmt(stmts[0], inLoop, free) && CoveredStmts(stmts[1..], inLoop, free))
  }

  /** An expression where a statement may stand. */
  predicate CoveredExpr(e: Expr, inLoop: bool, free: bool)
    decreases e, 0
  {
    if e.Unsafe? then CoveredBlock(e.body, inLoop, free) else Plain(e)
  }

  predicate CoveredDefer(e: Expr)
    decreases e, 1
  {
    CoveredExpr(e, false, false)
  }

  predicate CoveredStmt(st: Stmt, inLoop: bool, free: bool)
    decreases st, 0
  {
    match st
    case NoStmt => false
    case ErrDefer(_) => false
    case Match(_, _) => false
    case Break => inLoop
    case Continue => inLoop
    case Return(v) => free && Plain(v)
    case Defer(e) => CoveredDefer(e)
    case VarDecl(_, _, _, init) => Plain(init)
    case AssignStmt(_, lhs, rhs) => Plain(lhs) && Plain(rhs)
    case ExprStmt(e) => e != NoExpr && CoveredExpr(e, inLoop, free)
    case BlockStmt(b) => CoveredBlock(b, inLoop, free)
    case If(c, t, e) =>
      && Plain(c) && CoveredBlock(t, inLoop, free)
      && (e.NoStmt? || ((e.BlockStmt? || e.If?) && CoveredStmt(e, inLoop, free)))
    case While(c, b) => Plain(c) && CoveredBlock(b, true, free)
    case For(_, _, iter, b) => IsRange(iter) && Plain(iter) && CoveredBlock(b, true, free)
  }

  /** A function body: the trailing expression, which is returned, is not an `unsafe` block. */
  predicate CoveredBody(b: Block) {
    CoveredBlock(b, false, true) && !b.trailing.Unsafe?
  }
}
