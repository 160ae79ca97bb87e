/** The generator itself: fixed defer and loop stacks, updated in place while text is appended
    (src/codegen_c.c:9-30, src/codegen_c.c:243-553). `levels` and `bases` are the contents of its stacks. */
module CGen {
  import opened Ast
  import opened Semantics
  import opened CTarget
  import opened CText
  import opened Lowering
  import opened Emission
  import opened GenEnds
  import opened LoweredText

  /** All of a text, after what was there before. */
  predicate Grown(before: seq<CTok>, t: Text, now: seq<CTok>) {
    t.Some? && now == before + t.value
  }

  class Generator {
    const deferStack: array<seq<Expr>>
    var deferDepth: int
    const loopDeferBase: array<nat>
    var loopDepth: nat
    var indent: nat
    var out: seq<CTok>

    ghost predicate Valid()
      reads this, deferStack, loopDeferBase
    {
      && deferStack.Length == MaxDeferDepth && loopDeferBase.Length == MaxDeferDepth
      && -1 <= deferDepth < MaxDeferDepth && loopDepth < MaxDeferDepth
    }

    /** The defer stack holds `levels`, outermost first, and the loop stack holds `bases`. Entry 0 of the
        loop stack is never used: `loopDepth` is raised before the store. */
    ghost predicate At(levels: seq<seq<Expr>>, bases: seq<nat>)
      reads this, deferStack, loopDeferBase
    {
      && Valid()
      && |levels| == deferDepth + 1 && deferStack[..deferDepth + 1] == levels
      && |bases| == loopDepth && loopDeferBase[1..loopDepth + 1] == bases
    }

    constructor ()
      ensures At([], []) && fresh(deferStack) && fresh(loopDeferBase) && out == [] && indent == 0
    {
      deferStack := new seq<Expr>[MaxDeferDepth](_ => []);
      loopDeferBase := new nat[MaxDeferDepth](_ => 0);
      deferDepth := -1;
      loopDepth := 0;
      indent := 0;
      out := [];
    }

    method Emit(t: CTok)
      modifies this`out
      ensures out == old(out) + [t]
    {
      out := out + [t];
    }

    /** Pastes the deferred expressions of all levels from the innermost down to `downTo`. A deferred block is
        generated on top of all levels, which are as before afterwards. */
    method EmitDefers(downTo: nat, ghost levels: seq<seq<Expr>>, ghost bases: seq<nat>)
      requires |levels| > 0 && At(levels, bases) && Emission.EmitDefers(levels, bases, downTo, |levels|).Some?
      modifies this, deferStack, loopDeferBase
      ensures At(levels, bases) && indent == old(indent)
      ensures Grown(old(out), Emission.EmitDefers(levels, bases, downTo, |levels|), out)
      decreases MaxDeferDepth - |levels|, 3, 0
    {
      hide Emission.EmitLevel;
      var d := deferDepth;
      ghost var goal := Join(Some(out), Emission.EmitDefers(levels, bases, downTo, |levels|));
      while d >= downTo
        invariant -1 <= d < |levels|
        invariant At(levels, bases) && indent == old(indent)
        invariant goal.Some? && Join(Some(out), Emission.EmitDefers(levels, bases, downTo, d + 1)) == goal
      {
        JoinMore(out, Emission.EmitLevel(levels[d], levels, bases), Emission.EmitDefers(levels, bases, downTo, d));
        EmitLevel(d, levels, bases);
        d := d - 1;
      }
    }

    /** One level, newest first. */
    method EmitLevel(d: nat, ghost levels: seq<seq<Expr>>, ghost bases: seq<nat>)
      requires d < |levels| && At(levels, bases) && Emission.EmitLevel(levels[d], levels, bases).Some?
      modifies this, deferStack, loopDeferBase
      ensures At(levels, bases) && indent == old(indent)
      ensures Grown(old(out), Emission.EmitLevel(levels[d], levels, bases), out)
      decreases MaxDeferDepth - |levels|, 2, 0
    {
      hide Emission.EmitExpr;
      ghost var level := levels[d];
      ghost var goal := Join(Some(out), Emission.EmitLevel(level, levels, bases));
      var i := |deferStack[d]| - 1;
      assert deferStack[d] == level && level[..i + 1] == level;
      while i >= 0
        invariant -1 <= i < |level|
        invariant At(levels, bases) && indent == old(indent)
        invariant goal.Some? && Join(Some(out), Emission.EmitLevel(level[..i + 1], levels, bases)) == goal
      {
        assert deferStack[d] == level && Front(level[..i + 1]) == level[..i];
        JoinMore(out, Emission.EmitExpr(level[i], levels, bases), Emission.EmitLevel(level[..i], levels, bases));
        EmitExpr(deferStack[d][i], levels, bases);
        i := i - 1;
      }
    }

    /** Emits a block in braces: its level is opened above all others and dropped again. */
    method EmitBlock(b: Block, returning: bool, ghost levels: seq<seq<Expr>>, ghost bases: seq<nat>)
      requires At(levels, bases) && Emission.EmitBlock(b, levels, bases, returning).Some?
      modifies this, deferStack, loopDeferBase
      ensures At(levels, bases) && indent == old(indent)
      ensures Grown(old(out), Emission.EmitBlock(b, levels, bases, returning), out)
      decreases MaxDeferDepth - |levels|, 0, 0
    {
      hide Emission.EmitStmts, Emission.EmitTrailing, Emission.EmitDefers, AfterAll;
      if !b.NoBlock? {
        OpenLevel(levels, bases);
        EmitStmts(b.stmts, levels + [[]], bases);
        ghost var end := AfterAll(b.stmts, levels + [[]]);
        EmitTrailing(b, returning, end, bases);
        EmitDefers(deferDepth, end, bases);
        CloseLevel(end, bases);
      }
    }

    method OpenLevel(ghost levels: seq<seq<Expr>>, ghost bases: seq<nat>)
      requires At(levels, bases) && |levels| < MaxDeferDepth
      modifies this, deferStack
      ensures At(levels + [[]], bases) && indent == old(indent) + 1 && out == old(out) + [TOpen]
    {
      Emit(TOpen);
      indent := indent + 1;
      deferDepth := deferDepth + 1;
      deferStack[deferDepth] := [];
    }

    method CloseLevel(ghost levels: seq<seq<Expr>>, ghost bases: seq<nat>)
      requires At(levels, bases) && |levels| > 0 && indent > 0
      modifies this
      ensures At(Front(levels), bases) && indent == old(indent) - 1 && out == old(out) + [TClose]
    {
      deferDepth := deferDepth - 1;
      assert deferStack[..deferDepth + 1] == Front(levels);
      indent := indent - 1;
      Emit(TClose);
    }

    /** The top level ends up with the defers of the statements, the first 32 of them. */
    method EmitStmts(stmts: seq<Stmt>, ghost levels: seq<seq<Expr>>, ghost bases: seq<nat>)
      requires |levels| > 0 && At(levels, bases) && Emission.EmitStmts(stmts, levels, bases).Some?
      modifies this, deferStack, loopDeferBase
      ensures At(AfterAll(stmts, levels), bases) && indent == old(indent)
      ensures Grown(old(out), Emission.EmitStmts(stmts, levels, bases), out)
      decreases MaxDeferDepth - |levels|, 6, 0
    {
      hide Emission.EmitStmt, After;
      var i := 0;
      ghost var now := levels;
      ghost var goal := Join(Some(out), Emission.EmitStmts(stmts, levels, bases));
      assert stmts[0..] == stmts;
      while i < |stmts|
        invariant 0 <= i <= |stmts|
        invariant At(now, bases) && |now| == |levels| && indent == old(indent)
        invariant AfterAll(stmts[i..], now) == AfterAll(stmts, levels)
        invariant goal.Some? && Join(Some(out), Emission.EmitStmts(stmts[i..], now, bases)) == goal
      {
        assert stmts[i..][1..] == stmts[i + 1..];
        JoinMore(out, Emission.EmitStmt(stmts[i], now, bases), Emission.EmitStmts(stmts[i + 1..], After(stmts[i], now), bases));
        EmitStmt(stmts[i], now, bases);
        now := After(stmts[i], now);
        i := i + 1;
      }
    }

    method EmitTrailing(b: Block, returning: bool, ghost levels: seq<seq<Expr>>, ghost bases: seq<nat>)
      requires b.Block? && |levels| > 0 && At(levels, bases)
      requires Emission.EmitTrailing(b, returning, levels, bases).Some?
      modifies this, deferStack, loopDeferBase
      ensures At(levels, bases) && indent == old(indent)
      ensures Grown(old(out), Emission.EmitTrailing(b, returning, levels, bases), out)
      decreases MaxDeferDepth - |levels|, 2, 0
    {
      hide Emission.EmitExpr;
      if b.trailing != NoExpr {
        if returning {
          Emit(TReturn(b.trailing));
        } else {
          EmitExpr(b.trailing, levels, bases);
        }
      }
    }

    /** An expression with its semicolon; `unsafe` blocks are emitted as blocks. */
    method EmitExpr(e: Expr, ghost levels: seq<seq<Expr>>, ghost bases: seq<nat>)
      requires |levels| > 0 && At(levels, bases) && Emission.EmitExpr(e, levels, bases).Some?
      modifies this, deferStack, loopDeferBase
      ensures At(levels, bases) && indent == old(indent)
      ensures Grown(old(out), Emission.EmitExpr(e, levels, bases), out)
      decreases MaxDeferDepth - |levels|, 1, 0
    {
      hide Emission.EmitBlock;
      if e.Unsafe? {
        EmitBlock(e.body, false, levels, bases);
        Emit(TSemicolon);
      } else {
        Emit(TExpr(e));
      }
    }

    method EmitStmt(st: Stmt, ghost levels: seq<seq<Expr>>, ghost bases: seq<nat>)
      requires |levels| > 0 && At(levels, bases) && Emission.EmitStmt(st, levels, bases).Some?
      modifies this, deferStack, loopDeferBase
      ensures At(After(st, levels), bases) && indent == old(indent)
      ensures Grown(old(out), Emission.EmitStmt(st, levels, bases), out)
      decreases MaxDeferDepth - |levels|, 5, st, 1
    {
      hide Emission.EmitBlock, Emission.EmitExpr, Emission.EmitLoop, Emission.EmitDefers, Emission.EmitLoopDefers, Emission.EmitElse;
      if st.ExprStmt? {
        EmitExpr(st.expr, levels, bases);
      } else if st.If? {
        Emit(TIf(st.cond));
        EmitBlock(st.thn, false, levels, bases);
        EmitElse(st.els, levels, bases);
      } else if st.BlockStmt? {
        EmitBlock(st.block, false, levels, bases);
      } else if st.While? || st.For? {
        EmitLoop(st, levels, bases);
      } else if st.Defer? {
        PushDefer(st.expr, levels, bases);
      } else if st.Return? {
        EmitDefers(0, levels, bases);
        Emit(TReturn(st.value));
      } else if st.Break? || st.Continue? {
        EmitLoopDefers(levels, bases);
        Emit(if st.Break? then TBreak else TContinue);
      } else if st.VarDecl? || st.AssignStmt? {
        Emit(TSimple(st));
      }
    }

    /** Outside of loops nothing is pasted. */
    method EmitLoopDefers(ghost levels: seq<seq<Expr>>, ghost bases: seq<nat>)
      requires |levels| > 0 && At(levels, bases) && Emission.EmitLoopDefers(levels, bases).Some?
      modifies this, deferStack, loopDeferBase
      ensures At(levels, bases) && indent == old(indent)
      ensures Grown(old(out), Emission.EmitLoopDefers(levels, bases), out)
      decreases MaxDeferDepth - |levels|, 4, 0
    {
      hide Emission.EmitDefers;
      if loopDepth > 0 {
        assert Last(bases) == loopDeferBase[loopDepth];
        EmitDefers(loopDeferBase[loopDepth] + 1, levels, bases);
      }
    }

    /** A level that is full drops the defer. */
    method PushDefer(e: Expr, ghost levels: seq<seq<Expr>>, ghost bases: seq<nat>)
      requires At(levels, bases) && |levels| > 0
      modifies deferStack
      ensures At(After(Defer(e), levels), bases)
    {
      if |deferStack[deferDepth]| < MaxDefersPerBlock {
        deferStack[deferDepth] := deferStack[deferDepth] + [e];
      }
    }

    method EmitElse(els: Stmt, ghost levels: seq<seq<Expr>>, ghost bases: seq<nat>)
      requires |levels| > 0 && At(levels, bases) && Emission.EmitElse(els, levels, bases).Some?
      modifies this, deferStack, loopDeferBase
      ensures At(levels, bases) && indent == old(indent)
      ensures Grown(old(out), Emission.EmitElse(els, levels, bases), out)
      decreases MaxDeferDepth - |levels|, 5, els, 2
    {
      hide Emission.EmitStmt;
      if els.If? || els.BlockStmt? {
        Emit(TElse);
        EmitStmt(els, levels, bases);
      }
    }

    /** A loop header and its body, with the current depth on the loop stack. */
    method EmitLoop(st: Stmt, ghost levels: seq<seq<Expr>>, ghost bases: seq<nat>)
      requires (st.While? || st.For?) && |levels| > 0 && At(levels, bases) && Emission.EmitLoop(st, levels, bases).Some?
      modifies this, deferStack, loopDeferBase
      ensures At(levels, bases) && indent == old(indent)
      ensures Grown(old(out), Emission.EmitLoop(st, levels, bases), out)
      decreases MaxDeferDepth - |levels|, 5, st, 0
    {
      hide Emission.EmitBlock;
      Emit(LoopHead(st));
      EnterLoop(levels, bases);
      EmitBlock(st.body, false, levels, bases + [|levels| - 1]);
      LeaveLoop(levels, bases);
    }

    method EnterLoop(ghost levels: seq<seq<Expr>>, ghost bases: seq<nat>)
      requires At(levels, bases) && |levels| > 0 && |bases| + 1 < MaxDeferDepth
      modifies this`loopDepth, loopDeferBase
      ensures At(levels, bases + [|levels| - 1])
    {
      loopDepth := loopDepth + 1;
      loopDeferBase[loopDepth] := deferDepth;
    }

    method LeaveLoop(ghost levels: seq<seq<Expr>>, ghost bases: seq<nat>)
      requires |levels| > 0 && At(levels, bases + [|levels| - 1])
      modifies this`loopDepth
      ensures At(levels, bases)
    {
      assert (bases + [|levels| - 1])[..|bases|] == bases;
      loopDepth := loopDepth - 1;
    }
  }

  /** Generates a function body with fresh stacks, wherever no jump leaves a deferred block and the nesting is
      within the stacks (exactly the bodies with a text: `GenEnds.EmissionExact`). The text of a covered body, read
      as C, is the lowered body and nothing else. */
  method GenerateBody(b: Block) returns (text: seq<CTok>)
    requires Closed(b) && Nesting(b, 0) <= MaxDeferDepth
    ensures EmitBody(b) == Some(text)
    ensures CoveredBody(b) ==> ReadBraced(text) == Got(LowerBody(b), [])
  {
    hide Emission.EmitBlock, Closed, Nesting, Leaves, LowerBlock, CoveredBlock, Braced, Proper;
    BlockEnds(b, [], [], true, 0, 0);
    var g := new Generator();
    g.EmitBlock(b, true, [], []);
    text := g.out;
    ghost var t := EmitBody(b);
    assert text == [] + t.value == t.value;
    if CoveredBody(b) {
      BlockSays(b, [], [], true, false, true);
      ProperBlock(b, [], [], true, false, true);
      ReadPrintBraced(LowerBody(b), []);
      assert text == Braced(LowerBody(b)) + [];
    }
  }
}
