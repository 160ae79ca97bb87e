/** What the generator writes is the text of the lowered code, which can be read back. */
module LoweredText {
  import opened Ast
  import opened Semantics
  import opened CTarget
  import opened CText
  import opened Lowering
  import opened DeferCorrect
  import opened Emission

  // ---- the lowered code, piece by piece ----

  lemma {:induction false} CallsAppend(a: seq<Expr>, b: seq<Expr>)
    ensures Calls(a + b) == Calls(a) + Calls(b)
  {
    hide Copy;
    if a == [] {
      assert a + b == b;
    } else {
      assert (a + b)[0] == a[0] && (a + b)[1..] == a[1..] + b;
      CallsAppend(a[1..], b);
    }
  }

  lemma {:induction false} PrintSingle(c: CStmt)
    ensures Print([c]) == PrintOne(c)
  {
    assert Print([c][1..]) == [];
  }

  lemma {:induction false} PrintTwo(c: CStmt, d: CStmt)
    ensures Print([c, d]) == PrintOne(c) + PrintOne(d)
  {
    assert [c, d] == [c] + [d];
    PrintAppend([c], [d]);
    PrintSingle(c);
    PrintSingle(d);
  }

  /** The text of the defers of `top + 1` levels. */
  lemma {:induction false} PendingText(levels: seq<seq<Expr>>, top: nat, down: nat)
    requires down <= top < |levels|
    ensures Print(Calls(Pending(levels[..top + 1], down)))
            == Print(Calls(Reverse(levels[top]))) + Print(Calls(Pending(levels[..top], down)))
  {
    hide Calls, Print;
    assert Front(levels[..top + 1]) == levels[..top];
    CallsAppend(Reverse(levels[top]), Pending(levels[..top], down));
    PrintAppend(Calls(Reverse(levels[top])), Calls(Pending(levels[..top], down)));
  }

  lemma {:induction false} LevelText(level: seq<Expr>)
    requires level != []
    ensures Print(Calls(Reverse(level))) == Print(Copy(Last(level))) + Print(Calls(Reverse(Front(level))))
  {
    hide Copy, Print;
    var es := Reverse(level);
    assert es[0] == Last(level) && es[1..] == Reverse(Front(level));
    PrintAppend(Copy(es[0]), Calls(es[1..]));
  }

  lemma {:induction false} JumpText(before: seq<CStmt>, jump: CStmt)
    ensures Print(before + [jump]) == Print(before) + PrintOne(jump)
  {
    PrintAppend(before, [jump]);
    PrintSingle(jump);
  }

  /** The text of a lowered block. */
  lemma {:induction false} BlockText(b: Block, levels: seq<seq<Expr>>, bases: seq<nat>, returning: bool)
    requires b.Block?
    ensures
      var inner := levels + [[]];
      var end := AfterAll(b.stmts, inner);
      Braced(LowerBlock(b, levels, bases, returning))
      == [TOpen] + Print(LowerStmts(b.stmts, inner, bases)) + Print(LowerTrailing(b, returning, end, bases))
         + Print(Calls(Pending(end, |levels|))) + [TClose]
  {
    hide LowerStmts, LowerTrailing, Calls, Print, AfterAll;
    var inner := levels + [[]];
    var end := AfterAll(b.stmts, inner);
    assert Front(end) == levels && Front(inner) == levels;
    assert Pending(levels, |levels|) == [] && Reverse(Last(end)) + [] == Reverse(Last(end));
    var stmts, tail, exits := LowerStmts(b.stmts, inner, bases), LowerTrailing(b, returning, end, bases), Calls(Reverse(Last(end)));
    PrintAppend(stmts, tail);
    PrintAppend(stmts + tail, exits);
    Regroup(Print(stmts), Print(tail), Print(exits));
  }

  lemma Regroup(a: seq<CTok>, b: seq<CTok>, c: seq<CTok>)
    ensures [TOpen] + a + b + c + [TClose] == [TOpen] + (a + b + c) + [TClose]
  {
  }

  // ---- else branches are blocks or ifs, so the text can be read back ----

  lemma {:induction false} ProperAppend(a: seq<CStmt>, b: seq<CStmt>)
    ensures Proper(a + b) == (Proper(a) && Proper(b))
  {
    if a == [] {
      assert a + b == b;
    } else {
      assert (a + b)[0] == a[0] && (a + b)[1..] == a[1..] + b;
      ProperAppend(a[1..], b);
    }
  }

  ghost predicate Held(levels: seq<seq<Expr>>) {
    forall level :: level in levels ==> AllDefers(level)
  }

  lemma {:induction false} ProperCalls(es: seq<Expr>)
    requires AllDefers(es)
    ensures Proper(Calls(es))
    decreases Deepest(es), 0, 1, |es|
  {
    hide Copy, CoveredDefer;
    if es != [] {
      ProperCopy(es[0]);
      ProperCalls(es[1..]);
      ProperAppend(Copy(es[0]), Calls(es[1..]));
    }
  }

  lemma {:induction false} ProperCopy(e: Expr)
    requires CoveredDefer(e)
    ensures Proper(Copy(e))
    decreases ExprSize(e), ExprSize(e), 0, 0
  {
    hide LowerBlock, CoveredBlock;
    if e.Unsafe? {
      var block := CBlock(LowerBlock(e.body, [], [], false));
      assert CoveredExpr(e, false, false);
      ProperBlock(e.body, [], [], false, false, false);
      assert [block, CEmpty] == [block] + [CEmpty];
      ProperAppend([block], [CEmpty]);
      ProperSingle(block);
      ProperSingle(CEmpty);
    } else {
      ProperSingle(CExpr(e));
    }
  }

  lemma {:induction false} ProperSingle(c: CStmt)
    ensures Proper([c]) == ProperOne(c)
  {
    assert Proper([c][1..]);
  }

  lemma {:induction false} HeldEnd(stmts: seq<Stmt>, levels: seq<seq<Expr>>, inLoop: bool, free: bool)
    requires CoveredStmts(stmts, inLoop, free) && |levels| > 0 && Held(levels)
    ensures Held(AfterAll(stmts, levels))
    decreases |stmts|
  {
    hide CoveredStmt;
    if stmts != [] {
      HeldAfter(stmts[0], levels, inLoop, free);
      HeldEnd(stmts[1..], After(stmts[0], levels), inLoop, free);
    }
  }

  lemma HeldAfter(st: Stmt, levels: seq<seq<Expr>>, inLoop: bool, free: bool)
    requires CoveredStmt(st, inLoop, free) && |levels| > 0 && Held(levels)
    ensures Held(After(st, levels))
  {
    hide CoveredDefer, CoveredBlock, CoveredExpr, Plain;
    var after := After(st, levels);
    forall level | level in after ensures AllDefers(level) {
      if level in Front(levels) { assert level in levels; }
      assert Last(levels) in levels;
      assert after == Front(levels) + [Last(after)] && levels == Front(levels) + [Last(levels)];
    }
  }

  lemma {:induction false} ProperBlock(b: Block, levels: seq<seq<Expr>>, bases: seq<nat>, returning: bool, inLoop: bool,
                                       free: bool)
    requires CoveredBlock(b, inLoop, free) && Held(levels)
    ensures Proper(LowerBlock(b, levels, bases, returning))
    decreases Max(Depth(levels), BlockSize(b)), BlockSize(b), 2, 0
  {
    hide CoveredStmts, CoveredExpr, CoveredDefer, LowerStmts, LowerExpr, AfterAll, Calls;
    var inner := levels + [[]];
    var end := AfterAll(b.stmts, inner);
    var stmts, tail := LowerStmts(b.stmts, inner, bases), LowerTrailing(b, returning, end, bases);
    assert Front(inner) == levels && Depth(inner) == Depth(levels);
    HeldEnd(b.stmts, inner, inLoop, free);
    ProperStmts(b.stmts, inner, bases, inLoop, free);
    if b.trailing != NoExpr {
      if returning { ProperSingle(CReturn(b.trailing)); } else { ProperExpr(b.trailing, end, bases, inLoop, free); }
    }
    ReverseMembers(Last(end));
    DeepestReverse(Last(end));
    assert Last(end) in end;
    ProperCalls(Reverse(Last(end)));
    ProperAppend(stmts, tail);
    ProperAppend(stmts + tail, Calls(Reverse(Last(end))));
  }

  lemma {:induction false} ProperStmts(stmts: seq<Stmt>, levels: seq<seq<Expr>>, bases: seq<nat>, inLoop: bool, free: bool)
    requires CoveredStmts(stmts, inLoop, free) && |levels| > 0 && Held(levels)
    ensures Proper(LowerStmts(stmts, levels, bases))
    decreases Max(Depth(levels), StmtsSize(stmts)), StmtsSize(stmts), 4, 0
  {
    hide CoveredStmt, LowerStmt, CoveredDefer, After;
    if stmts != [] {
      HeldAfter(stmts[0], levels, inLoop, free);
      ProperStmt(stmts[0], levels, bases, inLoop, free);
      ProperStmts(stmts[1..], After(stmts[0], levels), bases, inLoop, free);
      ProperAppend(LowerStmt(stmts[0], levels, bases), LowerStmts(stmts[1..], After(stmts[0], levels), bases));
    }
  }

  lemma {:induction false} ProperExpr(e: Expr, levels: seq<seq<Expr>>, bases: seq<nat>, inLoop: bool, free: bool)
    requires |levels| > 0 && CoveredExpr(e, inLoop, free) && Held(levels)
    ensures Proper(LowerExpr(e, levels, bases))
    decreases Max(Depth(levels), ExprSize(e)), ExprSize(e), 0, 0
  {
    hide LowerBlock, CoveredBlock, Plain, CoveredDefer;
    if e.Unsafe? {
      var block := CBlock(LowerBlock(e.body, levels, bases, false));
      ProperBlock(e.body, levels, bases, false, inLoop, free);
      assert [block, CEmpty] == [block] + [CEmpty];
      ProperAppend([block], [CEmpty]);
      ProperSingle(block);
      ProperSingle(CEmpty);
    } else {
      ProperSingle(CExpr(e));
    }
  }

  lemma {:induction false} ProperStmt(st: Stmt, levels: seq<seq<Expr>>, bases: seq<nat>, inLoop: bool, free: bool)
    requires CoveredStmt(st, inLoop, free) && |levels| > 0 && Held(levels)
    ensures Proper(LowerStmt(st, levels, bases))
    decreases Max(Depth(levels), StmtSize(st)), StmtSize(st), 3, 0
  {
    hide LowerBlock, CoveredBlock, Plain, CoveredDefer, Calls, CoveredExpr, LowerExpr, Pending;
    var text := LowerStmt(st, levels, bases);
    if |text| == 1 { ProperSingle(text[0]); }
    match st {
      case ExprStmt(e) => ProperExpr(e, levels, bases, inLoop, free);
      case BlockStmt(b) => ProperBlock(b, levels, bases, false, inLoop, free);
      case While(_, b) => ProperBlock(b, levels, bases + [|levels| - 1], false, true, free);
      case For(_, _, _, b) => ProperBlock(b, levels, bases + [|levels| - 1], false, true, free);
      case If(_, t, e) =>
        ProperBlock(t, levels, bases, false, inLoop, free);
        if !e.NoStmt? { ProperStmt(e, levels, bases, inLoop, free); ProperSingle(LowerStmt(e, levels, bases)[0]); }
      case Return(v) => ProperJump(levels, 0, CReturn(v));
      case Break => if bases != [] { ProperJump(levels, Last(bases) + 1, CBreak); } else { ProperBare(CBreak); }
      case Continue => if bases != [] { ProperJump(levels, Last(bases) + 1, CContinue); } else { ProperBare(CContinue); }
      case _ =>
    }
  }

  lemma {:induction false} ProperJump(levels: seq<seq<Expr>>, down: nat, jump: CStmt)
    requires (jump.CReturn? || jump.CBreak? || jump.CContinue?) && Held(levels)
    ensures Proper(Calls(Pending(levels, down)) + [jump])
    decreases Depth(levels), 0, 2, 0
  {
    hide Calls, CoveredDefer;
    PendingDefers(levels, down);
    ProperCalls(Pending(levels, down));
    ProperAppend(Calls(Pending(levels, down)), [jump]);
    ProperSingle(jump);
  }

  lemma ProperBare(jump: CStmt)
    requires jump.CBreak? || jump.CContinue?
    ensures Proper(Calls([]) + [jump])
  {
    assert Calls([]) + [jump] == [jump];
    ProperSingle(jump);
  }

  // ---- a deferred block is lowered alike at all levels ----

  function Shift(bases: seq<nat>, k: nat): (r: seq<nat>)
    ensures |r| == |bases| && forall i :: 0 <= i < |bases| ==> r[i] == bases[i] + k
  {
    if bases == [] then [] else [bases[0] + k] + Shift(bases[1..], k)
  }

  lemma {:induction false} PendingAbove(outer: seq<seq<Expr>>, own: seq<seq<Expr>>, k: nat)
    ensures Pending(outer + own, |outer| + k) == Pending(own, k)
    decreases |own|
  {
    if own != [] {
      assert Front(outer + own) == outer + Front(own) && Last(outer + own) == Last(own);
      PendingAbove(outer, Front(own), k);
    } else {
      assert outer + own == outer;
    }
  }

  lemma AfterAbove(st: Stmt, outer: seq<seq<Expr>>, own: seq<seq<Expr>>)
    requires |own| > 0
    ensures After(st, outer + own) == outer + After(st, own)
  {
    assert Front(outer + own) == outer + Front(own) && Last(outer + own) == Last(own);
  }

  /** What no jump leaves does not depend on the levels and loops around it. */
  lemma {:induction false} BlockAnywhere(b: Block, outer: seq<seq<Expr>>, own: seq<seq<Expr>>, around: seq<nat>,
                                         bases: seq<nat>)
    requires CoveredBlock(b, bases != [], false)
    ensures LowerBlock(b, outer + own, around + Shift(bases, |outer|), false) == LowerBlock(b, own, bases, false)
    decreases b, 0
  {
    hide CoveredStmts, CoveredExpr, LowerStmts, LowerExpr, Calls, AfterAll;
    var inner := own + [[]];
    assert outer + own + [[]] == outer + inner;
    StmtsAnywhere(b.stmts, outer, inner, around, bases);
    var end := AfterAll(b.stmts, inner);
    assert Last(outer + end) == Last(end);
    if b.trailing != NoExpr { ExprAnywhere(b.trailing, outer, end, around, bases); }
  }

  lemma {:induction false} StmtsAnywhere(stmts: seq<Stmt>, outer: seq<seq<Expr>>, own: seq<seq<Expr>>, around: seq<nat>,
                                         bases: seq<nat>)
    requires CoveredStmts(stmts, bases != [], false) && |own| > 0
    ensures LowerStmts(stmts, outer + own, around + Shift(bases, |outer|)) == LowerStmts(stmts, own, bases)
    ensures AfterAll(stmts, outer + own) == outer + AfterAll(stmts, own)
    decreases stmts, 0
  {
    hide CoveredStmt, LowerStmt, After;
    if stmts != [] {
      AfterAbove(stmts[0], outer, own);
      StmtAnywhere(stmts[0], outer, own, around, bases);
      StmtsAnywhere(stmts[1..], outer, After(stmts[0], own), around, bases);
    }
  }

  lemma {:induction false} ExprAnywhere(e: Expr, outer: seq<seq<Expr>>, own: seq<seq<Expr>>, around: seq<nat>,
                                        bases: seq<nat>)
    requires CoveredExpr(e, bases != [], false) && |own| > 0
    ensures LowerExpr(e, outer + own, around + Shift(bases, |outer|)) == LowerExpr(e, own, bases)
    decreases e, 0
  {
    hide CoveredBlock, LowerBlock, Plain;
    if e.Unsafe? { BlockAnywhere(e.body, outer, own, around, bases); }
  }

  lemma {:induction false} StmtAnywhere(st: Stmt, outer: seq<seq<Expr>>, own: seq<seq<Expr>>, around: seq<nat>,
                                        bases: seq<nat>)
    requires CoveredStmt(st, bases != [], false) && |own| > 0
    ensures LowerStmt(st, outer + own, around + Shift(bases, |outer|)) == LowerStmt(st, own, bases)
    decreases st, 0
  {
    hide CoveredBlock, LowerBlock, Plain, CoveredExpr, LowerExpr, Calls, CoveredDefer, Pending;
    match st {
      case ExprStmt(e) => ExprAnywhere(e, outer, own, around, bases);
      case BlockStmt(b) => BlockAnywhere(b, outer, own, around, bases);
      case While(_, b) => BodyAnywhere(b, outer, own, around, bases);
      case For(_, _, _, b) => BodyAnywhere(b, outer, own, around, bases);
      case If(_, t, e) =>
        BlockAnywhere(t, outer, own, around, bases);
        if !e.NoStmt? { StmtAnywhere(e, outer, own, around, bases); }
      case Break => JumpAnywhere(outer, own, around, bases);
      case Continue => JumpAnywhere(outer, own, around, bases);
      case _ =>
    }
  }

  lemma {:induction false} BodyAnywhere(b: Block, outer: seq<seq<Expr>>, own: seq<seq<Expr>>, around: seq<nat>,
                                        bases: seq<nat>)
    requires CoveredBlock(b, true, false) && |own| > 0
    ensures LowerBlock(b, outer + own, around + Shift(bases, |outer|) + [|outer + own| - 1], false)
            == LowerBlock(b, own, bases + [|own| - 1], false)
    decreases b, 1
  {
    hide *;
    var more := bases + [|own| - 1];
    BlockAnywhere(b, outer, own, around, more);
    ShiftMore(bases, |own| - 1, |outer|);
    Attached(around, Shift(bases, |outer|), [|outer + own| - 1]);
  }

  lemma ShiftMore(bases: seq<nat>, x: nat, k: nat)
    ensures Shift(bases + [x], k) == Shift(bases, k) + [x + k]
  {
    hide Shift;
  }

  lemma Attached(a: seq<nat>, b: seq<nat>, c: seq<nat>)
    ensures a + (b + c) == a + b + c
  {
  }

  lemma JumpAnywhere(outer: seq<seq<Expr>>, own: seq<seq<Expr>>, around: seq<nat>, bases: seq<nat>)
    requires bases != []
    ensures LoopDefers(outer + own, around + Shift(bases, |outer|)) == LoopDefers(own, bases)
  {
    hide Pending, Shift, Deepest, Depth;
    LastShift(around, bases, |outer|);
    PendingAbove(outer, own, Last(bases) + 1);
    var all := around + Shift(bases, |outer|);
    assert |all| > 0 && Last(all) + 1 == |outer| + (Last(bases) + 1);
    assert LoopDefers(outer + own, all) == Pending(outer + own, Last(all) + 1);
  }

  lemma LastShift(around: seq<nat>, bases: seq<nat>, k: nat)
    requires bases != []
    ensures Last(around + Shift(bases, k)) == Last(bases) + k
  {
  }

  lemma {:induction false} CopyAnywhere(e: Expr, levels: seq<seq<Expr>>, bases: seq<nat>)
    requires CoveredDefer(e) && |levels| > 0
    ensures LowerExpr(e, levels, bases) == Copy(e)
  {
    hide CoveredBlock, LowerBlock;
    if e.Unsafe? {
      assert CoveredExpr(e, false, false);
      BlockAnywhere(e.body, levels, [], bases, []);
      assert levels + [] == levels && bases + Shift([], |levels|) == bases;
    }
  }

  // ---- what is emitted is the lowered code ----

  predicate Says(t: Text, text: seq<CTok>) {
    t.Some? ==> t.value == text
  }

  /** Where the generator's output ends, it is the text of the lowered block, the copies of deferred blocks
      included. */
  lemma {:induction false} BlockSays(b: Block, levels: seq<seq<Expr>>, bases: seq<nat>, returning: bool, inLoop: bool, free: bool)
    requires |levels| <= MaxDeferDepth && CoveredBlock(b, inLoop, free) && Held(levels)
    requires returning ==> !b.trailing.Unsafe?
    ensures Says(EmitBlock(b, levels, bases, returning), Braced(LowerBlock(b, levels, bases, returning)))
    decreases MaxDeferDepth - |levels|, 0, 0
  {
    hide CoveredStmts, CoveredExpr, EmitStmts, LowerStmts, EmitExpr, LowerExpr, EmitDefers, Calls, Print, AfterAll, LowerBlock, AllDefers;
    if |levels| < MaxDeferDepth {
      var inner := levels + [[]];
      var end := AfterAll(b.stmts, inner);
      HeldInner(levels);
      HeldEnd(b.stmts, inner, inLoop, free);
      StmtsSay(b.stmts, inner, bases, inLoop, free);
      TrailingSays(b, returning, end, bases, inLoop, free);
      DefersSay(end, bases, |levels|, |end|);
      assert end[..|end|] == end;
      BlockText(b, levels, bases, returning);
    }
  }

  lemma HeldInner(levels: seq<seq<Expr>>)
    requires Held(levels)
    ensures Held(levels + [[]])
  {
    hide CoveredDefer;
    assert AllDefers([]);
  }

  lemma {:induction false} TrailingSays(b: Block, returning: bool, levels: seq<seq<Expr>>, bases: seq<nat>, inLoop: bool,
                                        free: bool)
    requires 0 < |levels| <= MaxDeferDepth && b.Block? && CoveredExpr(b.trailing, inLoop, free) && Held(levels)
    ensures Says(EmitTrailing(b, returning, levels, bases), Print(LowerTrailing(b, returning, levels, bases)))
    decreases MaxDeferDepth - |levels|, 2, 0
  {
    hide CoveredExpr, EmitExpr, LowerExpr, Held;
    if b.trailing != NoExpr {
      if returning { PrintSingle(CReturn(b.trailing)); } else { ExprSays(b.trailing, levels, bases, inLoop, free); }
    }
  }

  lemma {:induction false} StmtsSay(stmts: seq<Stmt>, levels: seq<seq<Expr>>, bases: seq<nat>, inLoop: bool, free: bool)
    requires 0 < |levels| <= MaxDeferDepth && CoveredStmts(stmts, inLoop, free) && Held(levels)
    ensures Says(EmitStmts(stmts, levels, bases), Print(LowerStmts(stmts, levels, bases)))
    decreases MaxDeferDepth - |levels|, 6, |stmts|
  {
    hide CoveredStmt, EmitStmt, LowerStmt, After, Held;
    if stmts != [] {
      var next := After(stmts[0], levels);
      HeldAfter(stmts[0], levels, inLoop, free);
      StmtSays(stmts[0], levels, bases, inLoop, free);
      StmtsSay(stmts[1..], next, bases, inLoop, free);
      PrintAppend(LowerStmt(stmts[0], levels, bases), LowerStmts(stmts[1..], next, bases));
    }
  }

  lemma {:induction false} ExprSays(e: Expr, levels: seq<seq<Expr>>, bases: seq<nat>, inLoop: bool, free: bool)
    requires 0 < |levels| <= MaxDeferDepth && CoveredExpr(e, inLoop, free) && Held(levels)
    ensures Says(EmitExpr(e, levels, bases), Print(LowerExpr(e, levels, bases)))
    decreases MaxDeferDepth - |levels|, 1, 0
  {
    hide CoveredBlock, EmitBlock, LowerBlock, Held, Print;
    if e.Unsafe? {
      BlockSays(e.body, levels, bases, false, inLoop, free);
      PrintTwo(CBlock(LowerBlock(e.body, levels, bases, false)), CEmpty);
    } else {
      PrintSingle(CExpr(e));
    }
  }

  lemma {:induction false} StmtSays(st: Stmt, levels: seq<seq<Expr>>, bases: seq<nat>, inLoop: bool, free: bool)
    requires 0 < |levels| <= MaxDeferDepth && CoveredStmt(st, inLoop, free) && Held(levels)
    ensures Says(EmitStmt(st, levels, bases), Print(LowerStmt(st, levels, bases)))
    decreases MaxDeferDepth - |levels|, 5, st, 1
  {
    hide CoveredBlock, CoveredExpr, CoveredDefer, Plain, EmitBlock, LowerBlock, EmitExpr, LowerExpr, EmitDefers, Calls, Held, Print,
         EmitElse, EmitLoop, EmitLoopDefers, LoopExit;
    var low := LowerStmt(st, levels, bases);
    match st {
      case ExprStmt(e) => ExprSays(e, levels, bases, inLoop, free);
      case BlockStmt(b) =>
        BlockSays(b, levels, bases, false, inLoop, free);
        PrintSingle(low[0]);
      case If(_, t, e) =>
        BlockSays(t, levels, bases, false, inLoop, free);
        ElseSays(e, levels, bases, inLoop, free);
        PrintSingle(low[0]);
      case While(_, b) => LoopSays(st, levels, bases, free);
      case For(_, _, _, b) => LoopSays(st, levels, bases, free);
      case Return(v) =>
        DefersSay(levels, bases, 0, |levels|);
        assert levels[..|levels|] == levels;
        JumpText(Calls(Pending(levels, 0)), CReturn(v));
      case Break =>
        LoopDefersSay(levels, bases);
        JumpText(LoopExit(levels, bases), CBreak);
      case Continue =>
        LoopDefersSay(levels, bases);
        JumpText(LoopExit(levels, bases), CContinue);
      case VarDecl(_, _, _, _) => PrintSingle(CSimple(st));
      case AssignStmt(_, _, _) => PrintSingle(CSimple(st));
      case Defer(_) => assert Print([]) == [] by { NothingPrinted(); }
    }
  }

  lemma NothingPrinted()
    ensures Print([]) == [] && Print(Calls([])) == []
  {
  }

  lemma {:induction false} ElseSays(els: Stmt, levels: seq<seq<Expr>>, bases: seq<nat>, inLoop: bool, free: bool)
    requires 0 < |levels| <= MaxDeferDepth && Held(levels)
    requires els.NoStmt? || ((els.BlockStmt? || els.If?) && CoveredStmt(els, inLoop, free))
    ensures
      var low := LowerStmt(els, levels, bases);
      Says(EmitElse(els, levels, bases), if low == [] then [] else [TElse] + Print(low))
    decreases MaxDeferDepth - |levels|, 5, els, 2
  {
    hide EmitStmt, Held, CoveredBlock, LowerBlock, Print;
    if !els.NoStmt? { StmtSays(els, levels, bases, inLoop, free); }
  }

  lemma {:induction false} LoopSays(st: Stmt, levels: seq<seq<Expr>>, bases: seq<nat>, free: bool)
    requires 0 < |levels| <= MaxDeferDepth && (st.While? || st.For?) && CoveredBlock(st.body, true, free) && Held(levels)
    ensures Says(EmitLoop(st, levels, bases), Print(LowerStmt(st, levels, bases)))
    decreases MaxDeferDepth - |levels|, 5, st, 0
  {
    hide CoveredBlock, EmitBlock, LowerBlock, Held;
    BlockSays(st.body, levels, bases + [|levels| - 1], false, true, free);
    PrintSingle(LowerStmt(st, levels, bases)[0]);
  }

  lemma {:induction false} LoopDefersSay(levels: seq<seq<Expr>>, bases: seq<nat>)
    requires 0 < |levels| <= MaxDeferDepth && Held(levels)
    ensures Says(EmitLoopDefers(levels, bases), Print(LoopExit(levels, bases)))
    decreases MaxDeferDepth - |levels|, 4, 0
  {
    hide EmitDefers, Calls, Held, Pending;
    NothingPrinted();
    if bases != [] {
      DefersSay(levels, bases, Last(bases) + 1, |levels|);
      assert levels[..|levels|] == levels;
    }
  }

  lemma {:induction false} DefersSay(levels: seq<seq<Expr>>, bases: seq<nat>, down: nat, top: nat)
    requires 0 < |levels| <= MaxDeferDepth && top <= |levels| && Held(levels)
    ensures Says(EmitDefers(levels, bases, down, top), Print(Calls(Pending(levels[..top], down))))
    decreases MaxDeferDepth - |levels|, 3, top
  {
    hide EmitLevel, Calls, Print, AllDefers;
    NothingPrinted();
    if top > down {
      assert levels[top - 1] in levels;
      LevelSays(levels[top - 1], levels, bases);
      DefersSay(levels, bases, down, top - 1);
      PendingText(levels, top - 1, down);
    }
  }

  lemma {:induction false} LevelSays(es: seq<Expr>, levels: seq<seq<Expr>>, bases: seq<nat>)
    requires 0 < |levels| <= MaxDeferDepth && AllDefers(es) && Held(levels)
    ensures Says(EmitLevel(es, levels, bases), Print(Calls(Reverse(es))))
    decreases MaxDeferDepth - |levels|, 2, |es|
  {
    hide EmitExpr, LowerExpr, CoveredExpr, Held, Print, Copy;
    NothingPrinted();
    if es != [] {
      assert CoveredDefer(Last(es)) && CoveredExpr(Last(es), false, false);
      ExprSays(Last(es), levels, bases, false, false);
      CopyAnywhere(Last(es), levels, bases);
      LevelSays(Front(es), levels, bases);
      LevelText(es);
    }
  }
}
