/** The generator as a whole: for which bodies its output ends, is C and does what the source says. */
module GenRight {
  import opened Ast
  import opened Semantics
  import opened CTarget
  import opened CText
  import opened Lowering
  import opened DeferCorrect
  import opened DeferExact
  import opened DeferWitness
  import opened Emission
  import opened GenEnds
  import opened LoweredText

  // ---- without dropped defers, the lowering covers exactly the bodies with a text ----

  /** No scope, deferred blocks included, has more than 32 defers. */
  predicate Narrow(b: Block)
    decreases b, 0
  {
    b.Block? ==> NarrowAll(b.stmts, 0) && NarrowExpr(b.trailing)
  }

  predicate NarrowAll(stmts: seq<Stmt>, k: nat)
    decreases stmts, 0
  {
    stmts == []
    || (&& NarrowStmt(stmts[0]) && (stmts[0].Defer? ==> k < MaxDefersPerBlock)
        && NarrowAll(stmts[1..], if stmts[0].Defer? then k + 1 else k))
  }

  predicate NarrowExpr(e: Expr)
    decreases e, 0
  {
    e.Unsafe? ==> Narrow(e.body)
  }

  predicate NarrowStmt(st: Stmt)
    decreases st, 0
  {
    match st
    case Defer(e) => NarrowExpr(e)
    case ExprStmt(e) => NarrowExpr(e)
    case BlockStmt(b) => Narrow(b)
    case If(_, t, e) => Narrow(t) && NarrowStmt(e)
    case While(_, b) => Narrow(b)
    case For(_, _, _, b) => Narrow(b)
    case _ => true
  }

  lemma {:induction false} BlockCovered(b: Block, around: bool, inLoop: bool, free: bool)
    requires Shaped(b, around) && Closed(b) && Narrow(b)
    requires (Leaves(b, false) ==> free) && (Leaves(b, true) ==> inLoop)
    ensures CoveredBlock(b, inLoop, free)
    decreases b, 0
  {
    hide ShapedAll, ShapedExpr, ClosedAll, ClosedExpr, NarrowAll, NarrowExpr, LeavesAll, LeavesExpr, CoveredStmts, CoveredExpr;
    AllCovered(b.stmts, 0, around, inLoop, free);
    ExprCovered(b.trailing, around, inLoop, free);
  }

  lemma {:induction false} AllCovered(stmts: seq<Stmt>, k: nat, around: bool, inLoop: bool, free: bool)
    requires ShapedAll(stmts, around) && ClosedAll(stmts, k) && NarrowAll(stmts, k)
    requires (LeavesAll(stmts, false) ==> free) && (LeavesAll(stmts, true) ==> inLoop)
    ensures CoveredStmts(stmts, inLoop, free)
    decreases stmts, 0
  {
    hide ShapedStmt, ClosedStmt, NarrowStmt, LeavesStmt, CoveredStmt;
    if stmts != [] {
      StmtCovered(stmts[0], k, around, inLoop, free);
      AllCovered(stmts[1..], if stmts[0].Defer? then k + 1 else k, around, inLoop, free);
    }
  }

  lemma {:induction false} ExprCovered(e: Expr, around: bool, inLoop: bool, free: bool)
    requires ShapedExpr(e, around) && ClosedExpr(e) && NarrowExpr(e)
    requires (LeavesExpr(e, false) ==> free) && (LeavesExpr(e, true) ==> inLoop)
    ensures CoveredExpr(e, inLoop, free)
    decreases e, 1
  {
    hide Shaped, Closed, Narrow, Leaves, CoveredBlock, Plain;
    if e.Unsafe? { BlockCovered(e.body, around, inLoop, free); }
  }

  lemma {:induction false} StmtCovered(st: Stmt, k: nat, around: bool, inLoop: bool, free: bool)
    requires ShapedStmt(st, around) && ClosedStmt(st, k) && NarrowStmt(st) && (st.Defer? ==> k < MaxDefersPerBlock)
    requires (LeavesStmt(st, false) ==> free) && (LeavesStmt(st, true) ==> inLoop)
    ensures CoveredStmt(st, inLoop, free)
    decreases st, 2
  {
    hide Shaped, Closed, Narrow, Leaves, CoveredBlock, Plain, ShapedExpr, ClosedExpr, NarrowExpr, LeavesExpr, CoveredExpr;
    match st {
      case Defer(e) => ExprCovered(e, around, false, false);
      case ExprStmt(e) => ExprCovered(e, around, inLoop, free);
      case BlockStmt(b) => BlockCovered(b, around, inLoop, free);
      case If(_, t, e) =>
        BlockCovered(t, around, inLoop, free);
        if !e.NoStmt? { StmtCovered(e, MaxDefersPerBlock, around, inLoop, free); }
      case While(_, b) => BlockCovered(b, true, true, free);
      case For(_, _, _, b) => BlockCovered(b, true, true, free);
      case _ =>
    }
  }

  /** The deferred blocks that a jump leaves are all that coverage excludes. */
  lemma {:induction false} CoveredExact(b: Block)
    requires ShapedBody(b) && Narrow(b)
    ensures CoveredBody(b) <==> Closed(b)
  {
    hide Shaped, Closed, Narrow, Leaves, CoveredBlock, LeavesAll, LeavesExpr;
    if CoveredBody(b) { CoveredCloses(b, false, true); }
    if Closed(b) {
      if Leaves(b, true) { ShapedStaysBlock(b); }
      BlockCovered(b, false, false, true);
    }
  }

  // ---- right output ----

  /** The output ends and, read as C, answers as the source body does: with the same final state, result and kind
      of completion for every meaning of the expressions, every fuel and every start state. */
  ghost predicate Right(b: Block)
    requires b.Block?
  {
    EmitBody(b).Some?
    && var read := ReadBraced(EmitBody(b).value);
       && read.Got? && read.rest == []
       && forall m: Meaning<Script, bool>, n: nat, s ::
            Same(CRun(m, n, read.value, s), ExecBody(m, Unlimited, n, b, s))
  }

  /** The generator is right exactly for the bodies in which no jump leaves a deferred block and no trailing result
      skips a defer of the outermost block that does something. */
  lemma {:induction false} GeneratorExact(b: Block)
    requires ShapedBody(b) && Narrow(b) && Nesting(b, 0) <= MaxDeferDepth
    ensures Right(b) <==> Closed(b) && GoodBody(b)
  {
    hide Shaped, Closed, Narrow, EmitBlock, Nesting, CoveredBlock, GoodBody, Same, Braced, LowerBlock, Proper;
    EmissionExact(b);
    if Closed(b) {
      CoveredExact(b);
      var text := EmitBody(b).value;
      BlockSays(b, [], [], true, false, true);
      ProperBlock(b, [], [], true, false, true);
      ReadPrintBraced(LowerBody(b), []);
      assert text == Braced(LowerBody(b)) + [];
      LoweringExact(b);
    }
  }
}
