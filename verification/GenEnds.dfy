/** When the generator's output ends. Every `return` pastes the defers of all levels in use, and every `break` and
    `continue` those of the levels inside of its loop; where such a jump stands in a deferred block that is itself
    on one of those levels, pasting the block pastes it again (src/codegen_c.c:243-252, src/codegen_c.c:370-373).
    The output ends exactly when no jump leaves a deferred block. */
module GenEnds {
  import opened Ast
  import opened Semantics
  import opened CText
  import opened Lowering
  import opened Emission

  // ---- jumps ----

  /** A jump out of the block stands in it, outside of its deferred blocks: a `return` or, with `brk`, a `break`
      or `continue` of a loop around the block. */
  predicate Leaves(b: Block, brk: bool)
    decreases b, 0
  {
    b.Block? && (LeavesAll(b.stmts, brk) || LeavesExpr(b.trailing, brk))
  }

  predicate LeavesAll(stmts: seq<Stmt>, brk: bool)
    decreases stmts, 0
  {
    stmts != [] && (LeavesStmt(stmts[0], brk) || LeavesAll(stmts[1..], brk))
  }

  predicate LeavesExpr(e: Expr, brk: bool)
    decreases e, 0
  {
    e.Unsafe? && Leaves(e.body, brk)
  }

  predicate LeavesStmt(st: Stmt, brk: bool)
    decreases st, 0
  {
    match st
    case Return(_) => !brk
    case Break => brk
    case Continue => brk
    case ExprStmt(e) => LeavesExpr(e, brk)
    case BlockStmt(b) => Leaves(b, brk)
    case If(_, t, e) => Leaves(t, brk) || (IsElse(e) && LeavesStmt(e, brk))
    case While(_, b) => !brk && Leaves(b, brk)
    case For(_, _, _, b) => !brk && Leaves(b, brk)
    case _ => false
  }

  /** No jump leaves a deferred block that is kept: one of the first 32 of its scope. */
  predicate Closed(b: Block)
    decreases b, 0
  {
    b.Block? ==> ClosedAll(b.stmts, 0) && ClosedExpr(b.trailing)
  }

  /** `k` defers of the scope are kept so far. */
  predicate ClosedAll(stmts: seq<Stmt>, k: nat)
    decreases stmts, 0
  {
    stmts == []
    || (&& ClosedStmt(stmts[0], k)
        && ClosedAll(stmts[1..], if stmts[0].Defer? && k < MaxDefersPerBlock then k + 1 else k))
  }

  predicate ClosedExpr(e: Expr)
    decreases e, 0
  {
    e.Unsafe? ==> Closed(e.body)
  }

  predicate ClosedDefer(e: Expr)
    decreases e, 1
  {
    ClosedExpr(e) && !LeavesExpr(e, false) && !LeavesExpr(e, true)
  }

  predicate ClosedStmt(st: Stmt, k: nat)
    decreases st, 0
  {
    match st
    case Defer(e) => k < MaxDefersPerBlock ==> ClosedDefer(e)
    case ExprStmt(e) => ClosedExpr(e)
    case BlockStmt(b) => Closed(b)
    case If(_, t, e) => Closed(t) && (IsElse(e) ==> ClosedStmt(e, MaxDefersPerBlock))
    case While(_, b) => Closed(b)
    case For(_, _, _, b) => Closed(b)
    case _ => true
  }

  // ---- what the result is about ----

  /** The statements the generator's text is modelled for, as in `Lowering.CoveredBlock`, except that jumps may
      leave deferred blocks. Every `break` and `continue` stands in a loop. */
  predicate Shaped(b: Block, inLoop: bool)
    decreases b, 0
  {
    b.Block? && ShapedAll(b.stmts, inLoop) && ShapedExpr(b.trailing, inLoop)
  }

  predicate ShapedAll(stmts: seq<Stmt>, inLoop: bool)
    decreases stmts, 0
  {
    stmts == [] || (ShapedStmt(stmts[0], inLoop) && ShapedAll(stmts[1..], inLoop))
  }

  predicate ShapedExpr(e: Expr, inLoop: bool)
    decreases e, 0
  {
    if e.Unsafe? then Shaped(e.body, inLoop) else Plain(e)
  }

  predicate ShapedStmt(st: Stmt, inLoop: bool)
    decreases st, 0
  {
    match st
    case NoStmt => false
    case ErrDefer(_) => false
    case Match(_, _) => false
    case Break => inLoop
    case Continue => inLoop
    case Return(v) => Plain(v)
    case Defer(e) => ShapedExpr(e, inLoop)
    case VarDecl(_, _, _, init) => Plain(init)
    case AssignStmt(_, lhs, rhs) => Plain(lhs) && Plain(rhs)
    case ExprStmt(e) => e != NoExpr && ShapedExpr(e, inLoop)
    case BlockStmt(b) => Shaped(b, inLoop)
    case If(c, t, e) =>
      && Plain(c) && Shaped(t, inLoop)
      && (e.NoStmt? || ((e.BlockStmt? || e.If?) && ShapedStmt(e, inLoop)))
    case While(c, b) => Plain(c) && Shaped(b, true)
    case For(_, _, iter, b) => IsRange(iter) && Plain(iter) && Shaped(b, true)
  }

  predicate ShapedBody(b: Block) {
    Shaped(b, false) && !b.trailing.Unsafe?
  }

  // ---- how deep blocks nest in the text ----

  /** Deepest nesting of blocks, the block itself included, where copies that nest `d` deep may be pasted. */
  function Nesting(b: Block, d: nat): (n: nat)
    decreases b, 0
  {
    if b.NoBlock? then 0
    else
      var d' := Max(d, Copies(b.stmts));
      1 + Max(Max(NestingAll(b.stmts, d'), NestingExpr(b.trailing, d')), d')
  }

  function NestingExpr(e: Expr, d: nat): nat
    decreases e, 0
  {
    if e.Unsafe? then Nesting(e.body, d) else 0
  }

  function NestingAll(stmts: seq<Stmt>, d: nat): nat
    decreases stmts, 0
  {
    if stmts == [] then 0 else Max(NestingStmt(stmts[0], d), NestingAll(stmts[1..], d))
  }

  function NestingStmt(st: Stmt, d: nat): nat
    decreases st, 0
  {
    match st
    case ExprStmt(e) => NestingExpr(e, d)
    case BlockStmt(b) => Nesting(b, d)
    case If(_, t, e) => Max(Nesting(t, d), NestingStmt(e, d))
    case While(_, b) => Max(1, Nesting(b, d))
    case For(_, _, _, b) => Max(1, Nesting(b, d))
    case Return(_) => d
    case Break => d
    case Continue => d
    case _ => 0
  }

  /** The nesting of the copies of a scope's defers. */
  function Copies(stmts: seq<Stmt>): nat
    decreases stmts, 1
  {
    if stmts == [] then 0 else Max(CopyOf(stmts[0]), Copies(stmts[1..]))
  }

  function CopyOf(st: Stmt): nat
    decreases st, 1
  {
    match st
    case Defer(e) => NestingExpr(e, 0)
    case _ => 0
  }

  // ---- a jump out of a deferred block: no end ----

  lemma {:induction false} LevelFails(es: seq<Expr>, e: Expr, levels: seq<seq<Expr>>, bases: seq<nat>)
    requires 0 < |levels| <= MaxDeferDepth && e in es && EmitExpr(e, levels, bases).None?
    ensures EmitLevel(es, levels, bases).None?
    decreases |es|
  {
    hide EmitExpr;
    assert es == Front(es) + [Last(es)];
    if e != Last(es) { LevelFails(Front(es), e, levels, bases); }
  }

  lemma {:induction false} DefersFail(levels: seq<seq<Expr>>, bases: seq<nat>, down: nat, top: nat, k: nat, e: Expr)
    requires 0 < |levels| <= MaxDeferDepth && down <= k < top <= |levels|
    requires e in levels[k] && EmitExpr(e, levels, bases).None?
    ensures EmitDefers(levels, bases, down, top).None?
    decreases top
  {
    hide EmitExpr, EmitLevel;
    if k == top - 1 { LevelFails(levels[k], e, levels, bases); } else { DefersFail(levels, bases, down, top - 1, k, e); }
  }

  /** The deferred expression `e` is on level `k` and left by a jump that pastes level `k`. */
  ghost predicate Regress(e: Expr, k: nat, brk: bool, levels: seq<seq<Expr>>, bases: seq<nat>) {
    && k < |levels| && e in levels[k] && LeavesExpr(e, brk)
    && (brk ==> bases != [] && Last(bases) < k)
  }

  lemma RegressAfter(e: Expr, k: nat, brk: bool, st: Stmt, levels: seq<seq<Expr>>, bases: seq<nat>)
    requires |levels| > 0 && Regress(e, k, brk, levels, bases)
    ensures Regress(e, k, brk, After(st, levels), bases)
  {
    hide LeavesExpr;
    var after := After(st, levels);
    assert levels == Front(levels) + [Last(levels)] && after == Front(levels) + [Last(after)];
    assert k < |levels| - 1 ==> after[k] == Front(levels)[k] == levels[k];
  }

  lemma {:induction false} RegressAfterAll(e: Expr, k: nat, brk: bool, stmts: seq<Stmt>, levels: seq<seq<Expr>>,
                                           bases: seq<nat>)
    requires |levels| > 0 && Regress(e, k, brk, levels, bases)
    ensures Regress(e, k, brk, AfterAll(stmts, levels), bases)
    decreases |stmts|
  {
    hide Regress, After;
    if stmts != [] {
      RegressAfter(e, k, brk, stmts[0], levels, bases);
      RegressAfterAll(e, k, brk, stmts[1..], After(stmts[0], levels), bases);
    }
  }

  /** Pasting such an expression pastes it again, until the stack of levels is overrun. */
  lemma {:induction false} PasteFails(e: Expr, k: nat, brk: bool, levels: seq<seq<Expr>>, bases: seq<nat>)
    requires 0 < |levels| <= MaxDeferDepth && Regress(e, k, brk, levels, bases)
    ensures EmitExpr(e, levels, bases).None?
    decreases MaxDeferDepth - |levels|, 1, 0
  {
    hide EmitBlock, Leaves;
    BlockRegress(e.body, e, k, brk, levels, bases);
  }

  lemma {:induction false} BlockRegress(b: Block, e: Expr, k: nat, brk: bool, levels: seq<seq<Expr>>, bases: seq<nat>)
    requires |levels| <= MaxDeferDepth && Regress(e, k, brk, levels, bases) && Leaves(b, brk)
    ensures forall returning :: !(returning && b.trailing.Unsafe?) ==> EmitBlock(b, levels, bases, returning).None?
    decreases MaxDeferDepth - |levels|, 0, 0
  {
    hide EmitStmts, EmitExpr, EmitDefers, AfterAll, LeavesAll;
    if |levels| < MaxDeferDepth {
      var inner := levels + [[]];
      if LeavesAll(b.stmts, brk) {
        StmtsRegress(b.stmts, e, k, brk, inner, bases);
      } else {
        RegressAfterAll(e, k, brk, b.stmts, inner, bases);
        ExprRegress(b.trailing, e, k, brk, AfterAll(b.stmts, inner), bases);
      }
    }
  }

  lemma {:induction false} StmtsRegress(stmts: seq<Stmt>, e: Expr, k: nat, brk: bool, levels: seq<seq<Expr>>,
                                        bases: seq<nat>)
    requires 0 < |levels| <= MaxDeferDepth && Regress(e, k, brk, levels, bases) && LeavesAll(stmts, brk)
    ensures EmitStmts(stmts, levels, bases).None?
    decreases MaxDeferDepth - |levels|, 6, |stmts|
  {
    hide EmitStmt, LeavesStmt, Regress, After;
    if LeavesStmt(stmts[0], brk) {
      StmtRegress(stmts[0], e, k, brk, levels, bases);
    } else {
      RegressAfter(e, k, brk, stmts[0], levels, bases);
      StmtsRegress(stmts[1..], e, k, brk, After(stmts[0], levels), bases);
    }
  }

  lemma {:induction false} ExprRegress(x: Expr, e: Expr, k: nat, brk: bool, levels: seq<seq<Expr>>, bases: seq<nat>)
    requires 0 < |levels| <= MaxDeferDepth && Regress(e, k, brk, levels, bases) && LeavesExpr(x, brk)
    ensures EmitExpr(x, levels, bases).None?
    decreases MaxDeferDepth - |levels|, 1, 0
  {
    hide EmitBlock, Leaves, Regress;
    BlockRegress(x.body, e, k, brk, levels, bases);
  }

  lemma {:induction false} StmtRegress(st: Stmt, e: Expr, k: nat, brk: bool, levels: seq<seq<Expr>>, bases: seq<nat>)
    requires 0 < |levels| <= MaxDeferDepth && Regress(e, k, brk, levels, bases) && LeavesStmt(st, brk)
    ensures EmitStmt(st, levels, bases).None?
    decreases MaxDeferDepth - |levels|, 5, st
  {
    hide EmitBlock, EmitExpr, EmitDefers, Leaves, LeavesExpr;
    match st {
      case ExprStmt(x) => ExprRegress(x, e, k, brk, levels, bases);
      case BlockStmt(b) => BlockRegress(b, e, k, brk, levels, bases);
      case If(_, t, els) =>
        if Leaves(t, brk) { BlockRegress(t, e, k, brk, levels, bases); } else { StmtRegress(els, e, k, brk, levels, bases); }
      case While(_, b) =>
        BlockRegress(b, e, k, brk, levels, bases + [|levels| - 1]);
        assert EmitLoop(st, levels, bases).None?;
      case For(_, _, _, b) =>
        BlockRegress(b, e, k, brk, levels, bases + [|levels| - 1]);
        assert EmitLoop(st, levels, bases).None?;
      case Return(_) => JumpRegress(e, k, brk, levels, bases);
      case Break => JumpRegress(e, k, brk, levels, bases);
      case Continue => JumpRegress(e, k, brk, levels, bases);
      case _ =>
    }
  }

  lemma {:induction false} JumpRegress(e: Expr, k: nat, brk: bool, levels: seq<seq<Expr>>, bases: seq<nat>)
    requires 0 < |levels| <= MaxDeferDepth && Regress(e, k, brk, levels, bases)
    ensures EmitDefers(levels, bases, if brk then Last(bases) + 1 else 0, |levels|).None?
    decreases MaxDeferDepth - |levels|, 4, 0
  {
    hide EmitExpr, EmitDefers, LeavesExpr;
    PasteFails(e, k, brk, levels, bases);
    DefersFail(levels, bases, if brk then Last(bases) + 1 else 0, |levels|, k, e);
  }

  // ---- a block with such a deferred block has no text ----

  /** Inside of a loop the innermost loop is around the levels above its base. */
  ghost predicate Around(inLoop: bool, levels: seq<seq<Expr>>, bases: seq<nat>) {
    inLoop ==> bases != [] && Last(bases) < |levels|
  }

  ghost predicate HasOpen(level: seq<Expr>, inLoop: bool) {
    exists e :: e in level && !ClosedDefer(e) && ShapedExpr(e, inLoop)
  }

  lemma {:induction false} BlockFails(b: Block, levels: seq<seq<Expr>>, bases: seq<nat>, returning: bool, inLoop: bool)
    requires |levels| <= MaxDeferDepth && Around(inLoop, levels, bases) && Shaped(b, inLoop) && !Closed(b)
    requires returning ==> !b.trailing.Unsafe?
    ensures EmitBlock(b, levels, bases, returning).None?
    decreases MaxDeferDepth - |levels|, 0, 0
  {
    hide EmitStmts, EmitExpr, EmitDefers, AfterAll, ClosedAll, ShapedAll, HasOpen;
    if |levels| < MaxDeferDepth {
      var inner := levels + [[]];
      var end := AfterAll(b.stmts, inner);
      if !ClosedAll(b.stmts, 0) {
        StmtsFail(b.stmts, inner, bases, inLoop);
        if HasOpen(Last(end), inLoop) { OpenFails(end, bases, inLoop); }
      } else {
        ExprFails(b.trailing, end, bases, inLoop);
      }
    }
  }

  /** An open defer on the top level makes the end of the block fail. */
  lemma {:induction false} OpenFails(levels: seq<seq<Expr>>, bases: seq<nat>, inLoop: bool)
    requires 0 < |levels| <= MaxDeferDepth && HasOpen(Last(levels), inLoop)
    requires inLoop ==> bases != [] && Last(bases) < |levels| - 1
    ensures EmitDefers(levels, bases, |levels| - 1, |levels|).None?
    decreases MaxDeferDepth - |levels|, 3, 0
  {
    hide EmitExpr, EmitDefers, ClosedExpr, ShapedExpr, LeavesExpr;
    var k := |levels| - 1;
    var e :| e in levels[k] && !ClosedDefer(e) && ShapedExpr(e, inLoop);
    if !ClosedExpr(e) {
      ExprFails(e, levels, bases, inLoop);
    } else if LeavesExpr(e, false) {
      PasteFails(e, k, false, levels, bases);
    } else {
      if !inLoop { ShapedStays(e); }
      PasteFails(e, k, true, levels, bases);
    }
    DefersFail(levels, bases, k, |levels|, k, e);
  }

  lemma {:induction false} ExprFails(e: Expr, levels: seq<seq<Expr>>, bases: seq<nat>, inLoop: bool)
    requires 0 < |levels| <= MaxDeferDepth && Around(inLoop, levels, bases) && ShapedExpr(e, inLoop) && !ClosedExpr(e)
    ensures EmitExpr(e, levels, bases).None?
    decreases MaxDeferDepth - |levels|, 1, 0
  {
    hide EmitBlock, Shaped, Closed;
    BlockFails(e.body, levels, bases, false, inLoop);
  }

  lemma {:induction false} StmtsFail(stmts: seq<Stmt>, levels: seq<seq<Expr>>, bases: seq<nat>, inLoop: bool)
    requires 0 < |levels| <= MaxDeferDepth && Around(inLoop, levels, bases) && ShapedAll(stmts, inLoop)
    requires |Last(levels)| <= MaxDefersPerBlock
    requires !ClosedAll(stmts, |Last(levels)|) || HasOpen(Last(levels), inLoop)
    ensures EmitStmts(stmts, levels, bases).None? || HasOpen(Last(AfterAll(stmts, levels)), inLoop)
    decreases MaxDeferDepth - |levels|, 6, |stmts|
  {
    hide EmitStmt, ShapedStmt, ClosedStmt, HasOpen;
    if stmts != [] {
      OpenAfter(stmts[0], levels, inLoop);
      if !ClosedStmt(stmts[0], |Last(levels)|) && !stmts[0].Defer? {
        Uncounted(stmts[0], |Last(levels)|);
        StmtFails(stmts[0], levels, bases, inLoop);
      } else {
        StmtsFail(stmts[1..], After(stmts[0], levels), bases, inLoop);
      }
    }
  }

  lemma OpenAfter(st: Stmt, levels: seq<seq<Expr>>, inLoop: bool)
    requires 0 < |levels| && ShapedStmt(st, inLoop)
    ensures HasOpen(Last(levels), inLoop) ==> HasOpen(Last(After(st, levels)), inLoop)
    ensures st.Defer? && !ClosedStmt(st, |Last(levels)|) ==> HasOpen(Last(After(st, levels)), inLoop)
  {
    hide ClosedDefer, ShapedExpr, Shaped, Closed, ClosedExpr;
    var top := Last(levels);
    if HasOpen(top, inLoop) {
      var e :| e in top && !ClosedDefer(e) && ShapedExpr(e, inLoop);
      assert e in Last(After(st, levels));
    }
    if st.Defer? && !ClosedStmt(st, |top|) { assert st.expr in Last(After(st, levels)); }
  }

  lemma Uncounted(st: Stmt, k: nat)
    requires !st.Defer?
    ensures ClosedStmt(st, k) == ClosedStmt(st, MaxDefersPerBlock)
  {
    hide Closed, ClosedExpr;
  }

  lemma {:induction false} StmtFails(st: Stmt, levels: seq<seq<Expr>>, bases: seq<nat>, inLoop: bool)
    requires 0 < |levels| <= MaxDeferDepth && Around(inLoop, levels, bases) && ShapedStmt(st, inLoop)
    requires !st.Defer? && !ClosedStmt(st, MaxDefersPerBlock)
    ensures EmitStmt(st, levels, bases).None?
    decreases MaxDeferDepth - |levels|, 5, st
  {
    hide EmitBlock, EmitExpr, EmitDefers, Shaped, Closed, ClosedExpr, ShapedExpr;
    match st {
      case ExprStmt(e) => ExprFails(e, levels, bases, inLoop);
      case BlockStmt(b) => BlockFails(b, levels, bases, false, inLoop);
      case If(_, t, e) =>
        if !Closed(t) { BlockFails(t, levels, bases, false, inLoop); } else { StmtFails(e, levels, bases, inLoop); }
      case While(_, b) => BlockFails(b, levels, bases + [|levels| - 1], false, true);
      case For(_, _, _, b) => BlockFails(b, levels, bases + [|levels| - 1], false, true);
      case _ =>
    }
  }

  /** Where loop jumps stand in loops, none leaves an expression outside of loops. */
  lemma {:induction false} ShapedStays(e: Expr)
    requires ShapedExpr(e, false)
    ensures !LeavesExpr(e, true)
    decreases e, 1
  {
    hide Shaped, Leaves;
    if e.Unsafe? { ShapedStaysBlock(e.body); }
  }

  lemma {:induction false} ShapedStaysBlock(b: Block)
    requires Shaped(b, false)
    ensures !Leaves(b, true)
    decreases b, 0
  {
    hide ShapedAll, LeavesAll, ShapedExpr, LeavesExpr;
    ShapedStaysAll(b.stmts);
    ShapedStays(b.trailing);
  }

  lemma {:induction false} ShapedStaysAll(stmts: seq<Stmt>)
    requires ShapedAll(stmts, false)
    ensures !LeavesAll(stmts, true)
    decreases stmts, 0
  {
    hide ShapedStmt, LeavesStmt;
    if stmts != [] {
      ShapedStaysStmt(stmts[0]);
      ShapedStaysAll(stmts[1..]);
    }
  }

  lemma {:induction false} ShapedStaysStmt(st: Stmt)
    requires ShapedStmt(st, false)
    ensures !LeavesStmt(st, true)
    decreases st, 2
  {
    hide Shaped, Leaves, ShapedExpr, LeavesExpr;
    match st {
      case ExprStmt(e) => ShapedStays(e);
      case BlockStmt(b) => ShapedStaysBlock(b);
      case If(_, t, e) =>
        ShapedStaysBlock(t);
        if !e.NoStmt? { ShapedStaysStmt(e); }
      case _ =>
    }
  }

  // ---- no such deferred block: the output ends ----

  /** The level's deferred expressions can be pasted: no jump leaves them, and they nest at most `d` deep. */
  ghost predicate Fine(level: seq<Expr>, d: nat) {
    forall e :: e in level ==> ClosedDefer(e) && NestingExpr(e, 0) <= d
  }

  /** Jumps paste no level below `floor`; the others can be pasted. */
  ghost predicate Ready(levels: seq<seq<Expr>>, floor: nat, d: nat) {
    floor <= |levels| && forall k :: floor <= k < |levels| ==> Fine(levels[k], d)
  }

  predicate Above(floor: nat, bases: seq<nat>, ret: bool, brk: bool) {
    (ret ==> floor == 0) && (brk && bases != [] ==> floor <= Last(bases) + 1)
  }

  lemma {:induction false} BlockEnds(b: Block, levels: seq<seq<Expr>>, bases: seq<nat>, returning: bool, floor: nat, d: nat)
    requires Closed(b) && |bases| <= |levels| && |levels| + Nesting(b, d) <= MaxDeferDepth
    requires Ready(levels, floor, d) && Above(floor, bases, Leaves(b, false), Leaves(b, true))
    ensures EmitBlock(b, levels, bases, returning).Some?
    decreases MaxDeferDepth - |levels|, 0, 0
  {
    hide EmitStmts, EmitExpr, EmitDefers, ClosedAll, ClosedExpr, LeavesAll, LeavesExpr, NestingAll, NestingExpr, Copies,
         Ready, AfterAll;
    if b.Block? {
      var d' := Max(d, Copies(b.stmts));
      var inner := levels + [[]];
      var end := AfterAll(b.stmts, inner);
      ReadyInner(levels, floor, d, d');
      StmtsEnd(b.stmts, inner, bases, floor, d');
      if b.trailing != NoExpr { ExprEnds(b.trailing, end, bases, floor, d'); }
      ReadyMore(end, floor, |levels|, d');
      DefersEnd(end, bases, |levels|, |end|, d');
    }
  }

  lemma ReadyInner(levels: seq<seq<Expr>>, floor: nat, d: nat, d': nat)
    requires Ready(levels, floor, d) && d <= d'
    ensures Ready(levels + [[]], floor, d') && floor <= |levels|
  {
    hide ClosedDefer, NestingExpr;
    var inner := levels + [[]];
    forall k | floor <= k < |inner| ensures Fine(inner[k], d') {
      if k < |levels| { assert inner[k] == levels[k]; }
    }
  }

  lemma ReadyMore(levels: seq<seq<Expr>>, floor: nat, more: nat, d: nat)
    requires Ready(levels, floor, d) && floor <= more <= |levels|
    ensures Ready(levels, more, d)
  {
    hide Fine;
  }

  lemma ReadyAfter(st: Stmt, levels: seq<seq<Expr>>, floor: nat, d: nat)
    requires |levels| > 0 && Ready(levels, floor, d) && ClosedStmt(st, |Last(levels)|) && CopyOf(st) <= d
    ensures Ready(After(st, levels), floor, d)
  {
    hide ClosedDefer, NestingExpr, Closed, ClosedExpr;
    var after := After(st, levels);
    assert levels == Front(levels) + [Last(levels)] && after == Front(levels) + [Last(after)];
    forall k | floor <= k < |after| ensures Fine(after[k], d) {
      assert Fine(levels[k], d);
      if k < |levels| - 1 { assert after[k] == Front(levels)[k] == levels[k]; }
    }
  }

  lemma {:induction false} StmtsEnd(stmts: seq<Stmt>, levels: seq<seq<Expr>>, bases: seq<nat>, floor: nat, d: nat)
    requires 0 < |levels| && |Last(levels)| <= MaxDefersPerBlock && ClosedAll(stmts, |Last(levels)|) && Copies(stmts) <= d
    requires |bases| < |levels| && |levels| + NestingAll(stmts, d) <= MaxDeferDepth && Ready(levels, floor, d)
    requires Above(floor, bases, LeavesAll(stmts, false), LeavesAll(stmts, true))
    ensures EmitStmts(stmts, levels, bases).Some?
    ensures Ready(AfterAll(stmts, levels), floor, d)
    decreases MaxDeferDepth - |levels|, 6, |stmts|
  {
    hide EmitStmt, ClosedStmt, LeavesStmt, NestingStmt, CopyOf, Ready;
    if stmts != [] {
      ReadyAfter(stmts[0], levels, floor, d);
      StmtEnds(stmts[0], levels, bases, floor, d, |Last(levels)|);
      StmtsEnd(stmts[1..], After(stmts[0], levels), bases, floor, d);
    }
  }

  lemma {:induction false} ExprEnds(e: Expr, levels: seq<seq<Expr>>, bases: seq<nat>, floor: nat, d: nat)
    requires 0 < |levels| && ClosedExpr(e) && |bases| <= |levels| && |levels| + NestingExpr(e, d) <= MaxDeferDepth
    requires Ready(levels, floor, d) && Above(floor, bases, LeavesExpr(e, false), LeavesExpr(e, true))
    ensures EmitExpr(e, levels, bases).Some?
    decreases MaxDeferDepth - |levels|, 1, 0
  {
    hide EmitBlock, Closed, Leaves, Nesting, Ready;
    if e.Unsafe? { BlockEnds(e.body, levels, bases, false, floor, d); }
  }

  lemma {:induction false} StmtEnds(st: Stmt, levels: seq<seq<Expr>>, bases: seq<nat>, floor: nat, d: nat, k: nat)
    requires 0 < |levels| && ClosedStmt(st, k) && |bases| < |levels| && |levels| + NestingStmt(st, d) <= MaxDeferDepth
    requires Ready(levels, floor, d) && Above(floor, bases, LeavesStmt(st, false), LeavesStmt(st, true))
    ensures EmitStmt(st, levels, bases).Some?
    decreases MaxDeferDepth - |levels|, 5, st
  {
    hide EmitBlock, EmitExpr, EmitDefers, Closed, ClosedExpr, Leaves, LeavesExpr, Nesting, NestingExpr, Fine, ClosedDefer;
    match st {
      case ExprStmt(e) => ExprEnds(e, levels, bases, floor, d);
      case BlockStmt(b) => BlockEnds(b, levels, bases, false, floor, d);
      case If(_, t, e) =>
        BlockEnds(t, levels, bases, false, floor, d);
        if IsElse(e) { StmtEnds(e, levels, bases, floor, d, MaxDefersPerBlock); }
      case While(_, b) => BlockEnds(b, levels, bases + [|levels| - 1], false, floor, d);
      case For(_, _, _, b) => BlockEnds(b, levels, bases + [|levels| - 1], false, floor, d);
      case Return(_) => DefersEnd(levels, bases, 0, |levels|, d);
      case Break => LoopDefersEnd(levels, bases, floor, d);
      case Continue => LoopDefersEnd(levels, bases, floor, d);
      case _ =>
    }
  }

  lemma {:induction false} LoopDefersEnd(levels: seq<seq<Expr>>, bases: seq<nat>, floor: nat, d: nat)
    requires 0 < |levels| && |bases| <= |levels| && |levels| + d <= MaxDeferDepth
    requires Ready(levels, floor, d) && Above(floor, bases, false, true)
    ensures EmitLoopDefers(levels, bases).Some?
    decreases MaxDeferDepth - |levels|, 4, 0
  {
    hide Fine, EmitLevel;
    if bases != [] && Last(bases) < |levels| {
      ReadyMore(levels, floor, Last(bases) + 1, d);
      DefersEnd(levels, bases, Last(bases) + 1, |levels|, d);
    }
  }

  lemma {:induction false} DefersEnd(levels: seq<seq<Expr>>, bases: seq<nat>, down: nat, top: nat, d: nat)
    requires 0 < |levels| && |bases| <= |levels| && |levels| + d <= MaxDeferDepth && top <= |levels|
    requires Ready(levels, down, d)
    ensures EmitDefers(levels, bases, down, top).Some?
    decreases MaxDeferDepth - |levels|, 3, top
  {
    hide EmitLevel, Fine;
    if top > down {
      LevelEnds(levels[top - 1], levels, bases, d);
      DefersEnd(levels, bases, down, top - 1, d);
    }
  }

  lemma {:induction false} LevelEnds(es: seq<Expr>, levels: seq<seq<Expr>>, bases: seq<nat>, d: nat)
    requires 0 < |levels| && |bases| <= |levels| && |levels| + d <= MaxDeferDepth && Fine(es, d)
    ensures EmitLevel(es, levels, bases).Some?
    decreases MaxDeferDepth - |levels|, 2, |es|
  {
    hide EmitExpr, ClosedExpr, LeavesExpr, NestingExpr;
    if es != [] {
      assert Last(es) in es && Ready(levels, |levels|, 0);
      ExprEnds(Last(es), levels, bases, |levels|, 0);
      LevelEnds(Front(es), levels, bases, d);
    }
  }

  // ---- main results ----

  /** A body within the fixed stacks has a text exactly when no jump leaves a deferred block; otherwise the
      generator overruns its stack of levels, at every nesting. */
  lemma {:induction false} EmissionExact(b: Block)
    requires ShapedBody(b)
    ensures !Closed(b) ==> EmitBody(b).None?
    ensures Nesting(b, 0) <= MaxDeferDepth ==> (EmitBody(b).Some? <==> Closed(b))
  {
    hide EmitBlock, Closed, Nesting, Shaped, Leaves;
    if !Closed(b) {
      BlockFails(b, [], [], true, false);
    } else if Nesting(b, 0) <= MaxDeferDepth {
      BlockEnds(b, [], [], true, 0, 0);
    }
  }

  /** `{ defer unsafe { return; }; }` */
  function DeferredReturn(): Block {
    Block([Defer(Unsafe(Block([Return(NoExpr)], NoExpr)))], NoExpr)
  }

  lemma DeferredReturnFails()
    ensures ShapedBody(DeferredReturn()) && Nesting(DeferredReturn(), 0) <= MaxDeferDepth
    ensures EmitBody(DeferredReturn()).None? && !CoveredBody(DeferredReturn())
  {
    var inner := Block([Return(NoExpr)], NoExpr);
    var st := Defer(Unsafe(inner));
    assert inner.stmts[0].Return? && DeferredReturn().stmts[0] == st;
    assert Leaves(inner, false) && Shaped(inner, false);
    assert !ClosedDefer(Unsafe(inner)) && !ClosedStmt(st, 0) && !Closed(DeferredReturn());
    assert DeferredReturn().stmts[1..] == [] == inner.stmts[1..];
    assert ShapedStmt(st, false) && Shaped(DeferredReturn(), false);
    EmissionExact(DeferredReturn());
  }

  // ---- what the lowering covers has a text ----

  lemma {:induction false} CoveredCloses(b: Block, inLoop: bool, free: bool)
    requires CoveredBlock(b, inLoop, free)
    ensures Closed(b) && (Leaves(b, false) ==> free) && (Leaves(b, true) ==> inLoop)
    decreases b, 0
  {
    hide CoveredStmts, CoveredExpr, ClosedAll, ClosedExpr, LeavesAll, LeavesExpr;
    CoveredClosesAll(b.stmts, 0, inLoop, free);
    CoveredClosesExpr(b.trailing, inLoop, free);
  }

  lemma {:induction false} CoveredClosesAll(stmts: seq<Stmt>, k: nat, inLoop: bool, free: bool)
    requires CoveredStmts(stmts, inLoop, free)
    ensures ClosedAll(stmts, k) && (LeavesAll(stmts, false) ==> free) && (LeavesAll(stmts, true) ==> inLoop)
    decreases stmts, 0
  {
    hide CoveredStmt, ClosedStmt, LeavesStmt;
    if stmts != [] {
      CoveredClosesStmt(stmts[0], k, inLoop, free);
      CoveredClosesAll(stmts[1..], if stmts[0].Defer? && k < MaxDefersPerBlock then k + 1 else k, inLoop, free);
    }
  }

  lemma {:induction false} CoveredClosesExpr(e: Expr, inLoop: bool, free: bool)
    requires CoveredExpr(e, inLoop, free)
    ensures ClosedExpr(e) && (LeavesExpr(e, false) ==> free) && (LeavesExpr(e, true) ==> inLoop)
    decreases e, 1
  {
    hide CoveredBlock, Closed, Leaves;
    if e.Unsafe? { CoveredCloses(e.body, inLoop, free); }
  }

  lemma {:induction false} CoveredClosesStmt(st: Stmt, k: nat, inLoop: bool, free: bool)
    requires CoveredStmt(st, inLoop, free)
    ensures ClosedStmt(st, k) && (LeavesStmt(st, false) ==> free) && (LeavesStmt(st, true) ==> inLoop)
    decreases st, 2
  {
    hide CoveredBlock, Closed, Leaves, CoveredExpr, ClosedExpr, LeavesExpr;
    match st {
      case Defer(e) => CoveredClosesExpr(e, false, false);
      case ExprStmt(e) => CoveredClosesExpr(e, inLoop, free);
      case BlockStmt(b) => CoveredCloses(b, inLoop, free);
      case If(_, t, e) =>
        CoveredCloses(t, inLoop, free);
        if !e.NoStmt? { CoveredClosesStmt(e, MaxDefersPerBlock, inLoop, free); }
      case While(_, b) => CoveredCloses(b, true, free);
      case For(_, _, _, b) => CoveredCloses(b, true, free);
      case _ =>
    }
  }
}
