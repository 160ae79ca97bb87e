/** Defer lowering preserves meaning: the emitted C, which has no `defer`, does what the source
    semantics does, for the same fuel, whatever the expressions mean. */
module DeferCorrect {
  import opened Ast
  import opened Semantics
  import opened CTarget
  import opened Lowering

  const Cap := AtMost(MaxDefersPerBlock)

  /** The C outcome of running `es` and then leaving in the way `exit` says. */
  function Unwind<S, V>(m: Meaning<S, V>, n: nat, es: seq<Expr>, exit: Exit, s: S): COutcome<S, V> {
    match RunAll(m, Cap, n, es, s)
    case Timeout => CTimeout
    case Halt(s') => CHalt(s')
    case Fin(_, s', _, _, left) =>
      match exit
      case Normal => CFin(CNormal, s', left)
      case Broke => CFin(CBroke, s', left)
      case Continued => CFin(CContinued, s', left)
      case Returned(v) => CJumpOut(m, left, v, s')
  }

  /** What the C code has still to run when control leaves with `levels` open. */
  function Debt(exit: Exit, levels: seq<seq<Expr>>, bases: seq<nat>): seq<Expr> {
    match exit
    case Normal => []
    case Returned(_) => Pending(levels, 0)
    case _ => Pending(levels, LoopFloor(bases))
  }

  /** The C outcome that corresponds to a source outcome with `levels` still open. */
  function Arrive<S, V>(m: Meaning<S, V>, out: Outcome<S>, levels: seq<seq<Expr>>, bases: seq<nat>)
    : COutcome<S, V>
  {
    match out
    case Timeout => CTimeout
    case Halt(s) => CHalt(s)
    case Fin(exit, s, _, _, left) => Unwind(m, left, Debt(exit, levels, bases), exit, s)
  }

  /** The loop stack fits the defer stack, and no jump leaves a deferred block. */
  ghost predicate Fits(levels: seq<seq<Expr>>, bases: seq<nat>) {
    LoopFloor(bases) <= |levels| && forall level :: level in levels ==> AllDefers(level)
  }

  ghost predicate AllDefers(es: seq<Expr>) {
    forall e :: e in es ==> CoveredDefer(e)
  }

  lemma {:induction false} ReverseMembers<T>(xs: seq<T>)
    ensures |Reverse(xs)| == |xs|
    ensures forall x :: x in Reverse(xs) <==> x in xs
  {
    if xs != [] {
      ReverseMembers(xs[..|xs| - 1]);
      assert xs == xs[..|xs| - 1] + [xs[|xs| - 1]];
    }
  }

  lemma {:induction false} PendingDefers(levels: seq<seq<Expr>>, down: nat)
    requires forall level :: level in levels ==> AllDefers(level)
    ensures AllDefers(Pending(levels, down))
  {
    hide CoveredDefer;
    if |levels| > down {
      ReverseMembers(Last(levels));
      PendingDefers(Front(levels), down);
      assert Last(levels) in levels;
    }
  }

  lemma {:induction false} RunAllAppend<S, V>(m: Meaning<S, V>, lim: Limit, n: nat, a: seq<Expr>, b: seq<Expr>, s: S)
    ensures RunAll(m, lim, n, a + b, s) ==
            var out := RunAll(m, lim, n, a, s); if out.Fin? then Prefix(out.log, RunAll(m, lim, out.left, b, out.s)) else out
    decreases |a|
  {
    hide RunDeferred;
    if a == [] {
      assert a + b == b;
      assert Prefix([], RunAll(m, lim, n, b, s)) == RunAll(m, lim, n, b, s);
    } else {
      assert (a + b)[0] == a[0] && (a + b)[1..] == a[1..] + b;
      var one := RunDeferred(m, lim, n, a[0], s);
      if one.Fin? {
        RunAllAppend(m, lim, one.left, a[1..], b, one.s);
        var out := RunAll(m, lim, one.left, a[1..], one.s);
        if out.Fin? {
          var first, rest := [Ran(a[0])] + one.log, RunAll(m, lim, out.left, b, out.s);
          assert rest.Fin? ==> first + (out.log + rest.log) == (first + out.log) + rest.log;
        }
      }
    }
  }

  /** The copies of deferred expressions do what running the expressions does. */
  lemma {:induction false} RunCalls<S, V>(m: Meaning<S, V>, n: nat, es: seq<Expr>, s: S)
    requires AllDefers(es)
    ensures CRun(m, n, Calls(es), s) == Unwind(m, n, es, Normal, s)
    decreases n, Deepest(es), 0, 1, |es|
  {
    hide CoveredDefer, Copy, RunDeferred;
    if es != [] {
      CopyRuns(m, n, es[0], s);
      RunAppend(m, n, Copy(es[0]), Calls(es[1..]), s);
      var out := RunDeferred(m, Cap, n, es[0], s);
      if out.Fin? { RunCalls(m, out.left, es[1..], out.s); }
    }
  }

  lemma {:induction false} CopyRuns<S, V>(m: Meaning<S, V>, n: nat, e: Expr, s: S)
    requires CoveredDefer(e)
    ensures
      var out := RunDeferred(m, Cap, n, e, s);
      CRun(m, n, Copy(e), s)
      == if out.Timeout? then CTimeout else if out.Halt? then CHalt(out.s) else CFin(CNormal, out.s, out.left)
    decreases n, ExprSize(e), ExprSize(e), 0, 0
  {
    hide LowerBlock, ExecBlock;
    if e.Unsafe? {
      var block := CBlock(LowerBlock(e.body, [], [], false));
      SimBlock(m, n, e.body, [], [], false, s);
      StayBlock(m, Cap, n, e.body, false, false, s);
      assert [block, CEmpty] == [block] + [CEmpty];
      RunAppend(m, n, [block], [CEmpty], s);
      CRunOne(m, n, block, s);
      var out := CStep(m, n, block, s);
      if out.CFin? { CRunOne(m, out.left, CEmpty, out.s); }
    } else {
      CRunOne(m, n, CExpr(e), s);
    }
  }

  /** Deferred copies before a jump run, then the jump is taken. */
  lemma {:induction false} RunCallsThen<S, V>(m: Meaning<S, V>, n: nat, es: seq<Expr>, jump: CStmt, exit: Exit, s: S)
    requires exit == (match jump case CReturn(v) => Returned(v) case CBreak => Broke case _ => Continued)
    requires (jump.CReturn? || jump.CBreak? || jump.CContinue?) && AllDefers(es)
    ensures CRun(m, n, Calls(es) + [jump], s) == Unwind(m, n, es, exit, s)
    decreases n, Deepest(es), 0, 2, |es|
  {
    hide RunAll, Calls, CoveredDefer;
    RunCalls(m, n, es, s);
    RunAppend(m, n, Calls(es), [jump], s);
    var ran := RunAll(m, Cap, n, es, s);
    if ran.Fin? { CRunOne(m, ran.left, jump, ran.s); }
  }

  lemma {:induction false} CRunOne<S, V>(m: Meaning<S, V>, n: nat, c: CStmt, s: S)
    ensures CRun(m, n, [c], s) == CStep(m, n, c, s)
  {
    var out := CStep(m, n, c, s);
    if out.CFin? && out.exit.CNormal? { assert CRun(m, out.left, [c][1..], out.s) == out; }
  }

  lemma {:induction false} PendingPop(levels: seq<seq<Expr>>, top: seq<Expr>, down: nat)
    requires down <= |levels|
    ensures Pending(levels + [top], down) == Reverse(top) + Pending(levels, down)
  {
    assert Front(levels + [top]) == levels;
  }

  /** Leaving a scope in the source runs exactly what the jump's copies run first. */
  lemma {:induction false} LeaveArrives<S, V>(m: Meaning<S, V>, out: Outcome<S>, levels: seq<seq<Expr>>,
                                              bases: seq<nat>)
    requires LoopFloor(bases) <= |levels|
    ensures out.Fin? && !out.exit.Normal? ==>
              Arrive(m, out, levels + [out.pending], bases) == Arrive(m, LeaveScope(m, Cap, out), levels, bases)
  {
    hide RunAll;
    if out.Fin? && !out.exit.Normal? {
      var down := if out.exit.Returned? then 0 else LoopFloor(bases);
      PendingPop(levels, out.pending, down);
      RunAllAppend(m, Cap, out.left, Reverse(out.pending), Pending(levels, down), out.s);
    }
  }

  // ---- no jump leaves where none may ----

  predicate May(exit: Exit, inLoop: bool, free: bool) {
    exit.Normal? || (if exit.Returned? then free else inLoop)
  }

  lemma {:induction false} StayStmts<S, V>(m: Meaning<S, V>, lim: Limit, n: nat, stmts: seq<Stmt>, inLoop: bool,
                                           free: bool, pending: seq<Expr>, s: S)
    requires CoveredStmts(stmts, inLoop, free)
    ensures var out := ExecStmts(m, lim, n, stmts, pending, s); out.Fin? ==> May(out.exit, inLoop, free)
    decreases n, stmts, 0
  {
    hide ExecStmt, CoveredStmt;
    if stmts != [] {
      StayStmt(m, lim, n, stmts[0], inLoop, free, pending, s);
      var out := ExecStmt(m, lim, n, stmts[0], pending, s);
      if out.Fin? && out.exit.Normal? { StayStmts(m, lim, out.left, stmts[1..], inLoop, free, out.pending, out.s); }
    }
  }

  lemma {:induction false} StayBlock<S, V>(m: Meaning<S, V>, lim: Limit, n: nat, b: Block, inLoop: bool, free: bool, s: S)
    requires CoveredBlock(b, inLoop, free)
    ensures var out := ExecBlock(m, lim, n, b, s); out.Fin? ==> May(out.exit, inLoop, free)
    decreases n, b, 0
  {
    hide ExecStmts, CoveredStmts, RunAll;
    StayStmts(m, lim, n, b.stmts, inLoop, free, [], s);
    var out := ExecStmts(m, lim, n, b.stmts, [], s);
    if out.Fin? && b.trailing.Unsafe? { StayBlock(m, lim, out.left, b.trailing.body, inLoop, free, out.s); }
  }

  lemma {:induction false} StayStmt<S, V>(m: Meaning<S, V>, lim: Limit, n: nat, st: Stmt, inLoop: bool, free: bool,
                                          pending: seq<Expr>, s: S)
    requires CoveredStmt(st, inLoop, free)
    ensures var out := ExecStmt(m, lim, n, st, pending, s); out.Fin? ==> May(out.exit, inLoop, free)
    decreases n, st, 0
  {
    hide ExecBlock, CoveredBlock, CoveredDefer, Plain, ExecLoop;
    match st {
      case ExprStmt(e) => if e.Unsafe? { StayBlock(m, lim, n, e.body, inLoop, free, s); }
      case BlockStmt(b) => StayBlock(m, lim, n, b, inLoop, free, s);
      case If(c, t, e) =>
        match m.run(Test(c), s) {
          case Halted(_) =>
          case Done(s', _) =>
            StayBlock(m, lim, n, t, inLoop, free, s');
            if !e.NoStmt? { StayStmt(m, lim, n, e, inLoop, free, pending, s'); }
        }
      case While(c, b) => LoopStays(m, lim, n, Test(c), b, None, free, pending, s);
      case For(x, _, iter, b) =>
        match m.run(ForInit(x, RangeStart(iter)), s) {
          case Halted(_) =>
          case Done(s', _) => LoopStays(m, lim, n, ForTest(x, RangeEnd(iter)), b, Some(ForStep(x)), free, pending, s');
        }
      case _ =>
    }
  }

  lemma {:induction false} LoopStays<S, V>(m: Meaning<S, V>, lim: Limit, n: nat, test: Action, b: Block,
                                           step: Option<Action>, free: bool, pending: seq<Expr>, s: S)
    requires CoveredBlock(b, true, free)
    ensures var out := ExecLoop(m, lim, n, test, b, step, pending, s); out.Fin? ==> May(out.exit, false, free)
    decreases n, b, 1
  {
    hide ExecBlock, CoveredBlock;
    match m.run(test, s) {
      case Halted(_) =>
      case Done(s', v) =>
        if m.truth(v) && n > 0 {
          StayBlock(m, lim, n - 1, b, true, free, s');
          var out := ExecBlock(m, lim, n - 1, b, s');
          if out.Fin? && (out.exit.Normal? || out.exit.Continued?) {
            match step {
              case None => LoopStays(m, lim, out.left, test, b, step, free, pending, out.s);
              case Some(a) =>
                match m.run(a, out.s) {
                  case Halted(_) =>
                  case Done(s'', _) => LoopStays(m, lim, out.left, test, b, step, free, pending, s'');
                }
            }
          }
        }
    }
  }

  // ---- the simulation ----

  lemma AfterFits(st: Stmt, levels: seq<seq<Expr>>, bases: seq<nat>, free: bool)
    requires |levels| > 0 && Fits(levels, bases) && CoveredStmt(st, bases != [], free)
    ensures Fits(After(st, levels), bases)
    ensures Pended(Cap, st, Last(levels)) == Last(After(st, levels))
    ensures !st.Defer? ==> After(st, levels) == levels
  {
    hide CoveredDefer, CoveredBlock, CoveredExpr, Plain;
    var after := After(st, levels);
    forall level | level in after ensures AllDefers(level) {
      if level in Front(levels) { assert level in levels; }
      assert Last(levels) in levels;
      assert after == Front(levels) + [Last(after)] && levels == Front(levels) + [Last(levels)];
    }
  }

  /** The pending list the generator keeps is the one the run has. */
  lemma {:induction false} SimStmts<S, V>(m: Meaning<S, V>, n: nat, stmts: seq<Stmt>, levels: seq<seq<Expr>>,
                                          bases: seq<nat>, free: bool, s: S)
    requires |levels| > 0 && Fits(levels, bases) && CoveredStmts(stmts, bases != [], free)
    ensures
      var out := ExecStmts(m, Cap, n, stmts, Last(levels), s);
      && (out.Fin? ==> CRun(m, n, LowerStmts(stmts, levels, bases), s)
                       == Arrive(m, out, Front(levels) + [out.pending], bases))
      && (!out.Fin? ==> CRun(m, n, LowerStmts(stmts, levels, bases), s) == Arrive(m, out, levels, bases))
      && (out.Fin? && out.exit.Normal? ==> Last(AfterAll(stmts, levels)) == out.pending)
      && (out.Fin? ==> AllDefers(out.pending))
    decreases n, Max(Depth(levels), StmtsSize(stmts)), StmtsSize(stmts), 4, 0
  {
    hide LowerStmt, ExecStmt, CoveredStmt, CoveredDefer, Arrive, After;
    assert Last(levels) in levels;
    if stmts == [] {
      EmptyRun(m, n, levels, bases, s);
    } else {
      var here := LowerStmt(stmts[0], levels, bases);
      var levels' := After(stmts[0], levels);
      var rest := LowerStmts(stmts[1..], levels', bases);
      AfterFits(stmts[0], levels, bases, free);
      SimStmt(m, n, stmts[0], levels, bases, free, s);
      RunAppend(m, n, here, rest, s);
      var out := ExecStmt(m, Cap, n, stmts[0], Last(levels), s);
      assert Last(levels') in levels';
      if out.Fin? && out.exit.Normal? {
        NormalArrives(m, out, levels, bases);
        SimStmts(m, out.left, stmts[1..], levels', bases, free, out.s);
        var more := ExecStmts(m, Cap, out.left, stmts[1..], Last(levels'), out.s);
        PrefixArrives(m, out.log, more, if more.Fin? then Front(levels) + [more.pending] else levels, bases);
        if !more.Fin? { Stuck(m, more, levels', levels, bases); }
      } else if out.Fin? {
        NotNormal(m, out, levels, bases);
        assert Front(levels) + [Last(levels)] == levels;
      } else {
        Stuck(m, out, levels, levels, bases);
      }
    }
  }

  lemma {:induction false} EmptyRun<S, V>(m: Meaning<S, V>, n: nat, levels: seq<seq<Expr>>, bases: seq<nat>, s: S)
    requires |levels| > 0
    ensures CFin(CNormal, s, n) == Arrive<S, V>(m, Fin(Normal, s, Last(levels), [], n), Front(levels) + [Last(levels)], bases)
  {
  }

  lemma {:induction false} NormalArrives<S, V>(m: Meaning<S, V>, out: Outcome<S>, levels: seq<seq<Expr>>,
                                               bases: seq<nat>)
    requires out.Fin? && out.exit.Normal?
    ensures Arrive(m, out, levels, bases) == CFin(CNormal, out.s, out.left)
  {
  }

  lemma {:induction false} NotNormal<S, V>(m: Meaning<S, V>, out: Outcome<S>, levels: seq<seq<Expr>>,
                                           bases: seq<nat>)
    requires out.Fin? && !out.exit.Normal?
    ensures var c := Arrive(m, out, levels, bases); !(c.CFin? && c.exit.CNormal?)
  {
  }

  /** A run that does not end owes nothing to anyone. */
  lemma {:induction false} Stuck<S, V>(m: Meaning<S, V>, out: Outcome<S>, levels: seq<seq<Expr>>, levels': seq<seq<Expr>>,
                                       bases: seq<nat>)
    requires !out.Fin?
    ensures Arrive(m, out, levels, bases) == Arrive(m, out, levels', bases) && !Arrive(m, out, levels, bases).CFin?
    ensures LeaveScope(m, Cap, out) == out
  {
  }

  lemma {:induction false} SimBlock<S, V>(m: Meaning<S, V>, n: nat, b: Block, levels: seq<seq<Expr>>, bases: seq<nat>,
                                          free: bool, s: S)
    requires Fits(levels, bases) && CoveredBlock(b, bases != [], free)
    ensures CRun(m, n, LowerBlock(b, levels, bases, false), s)
            == Arrive(m, ExecBlock(m, Cap, n, b, s), levels, bases)
    decreases n, Max(Depth(levels), BlockSize(b)), BlockSize(b), 2, 0
  {
    hide LowerStmts, LowerTrailing, Calls, ExecStmts, AfterAll, CoveredStmts, CoveredExpr, RunAll, ExecExpr, LeaveScope, Arrive;
    var inner := levels + [[]];
    var end := AfterAll(b.stmts, inner);
    var body := LowerStmts(b.stmts, inner, bases);
    var tail := LowerTrailing(b, false, end, bases);
    var exits := Calls(Reverse(Last(end)));
    assert Front(inner) == levels && Front(end) == levels && Depth(inner) == Depth(levels);
    InnerFits(levels, bases);
    SimStmts(m, n, b.stmts, inner, bases, free, s);
    RunAppend(m, n, body + tail, exits, s);
    RunAppend(m, n, body, tail, s);
    var out := ExecStmts(m, Cap, n, b.stmts, [], s);
    if out.Fin? && out.exit.Normal? {
      assert end == levels + [out.pending];
      NormalArrives(m, out, end, bases);
      SimTail(m, b, out, levels, bases, free);
    } else {
      if out.Fin? { NotNormal(m, out, levels + [out.pending], bases); } else { Stuck(m, out, inner, levels, bases); }
      LeaveArrives(m, out, levels, bases);
    }
  }

  /** The end of a block whose statements have all run: the trailing expression and the block's defers. */
  lemma {:induction false} SimTail<S, V>(m: Meaning<S, V>, b: Block, out: Outcome<S>, levels: seq<seq<Expr>>,
                                         bases: seq<nat>, free: bool)
    requires Fits(levels, bases) && CoveredBlock(b, bases != [], free) && out.Fin? && out.exit.Normal?
    requires AllDefers(out.pending) && Deepest(out.pending) <= StmtsSize(b.stmts)
    ensures
      var tail := LowerTrailing(b, false, levels + [out.pending], bases);
      var exits := Calls(Reverse(out.pending));
      var c := CRun(m, out.left, tail, out.s);
      var out' := if b.trailing == NoExpr then out
                  else Prefix(out.log, ExecExpr(m, Cap, out.left, b.trailing, out.pending, out.s));
      (if c.CFin? && c.exit.CNormal? then CRun(m, c.left, exits, c.s) else c)
      == Arrive(m, LeaveScope(m, Cap, out'), levels, bases)
    decreases out.left, Max(Depth(levels), BlockSize(b)), BlockSize(b), 1, 0
  {
    hide Calls, CoveredStmts, CoveredExpr, RunAll, ExecExpr, LowerExpr, LeaveScope, Arrive, CoveredDefer;
    var end, exits := levels + [out.pending], Calls(Reverse(out.pending));
    TopFits(levels, out.pending, bases);
    NormalArrives(m, out, end, bases);
    if b.trailing == NoExpr {
      FinishBlock(m, out, levels, bases, exits);
    } else {
      var last := ExecExpr(m, Cap, out.left, b.trailing, out.pending, out.s);
      SimExpr(m, out.left, b.trailing, end, bases, free, out.s);
      FinishBlock(m, Prefix(out.log, last), levels, bases, exits);
      PrefixArrives(m, out.log, last, end, bases);
      if !last.Fin? { Stuck(m, last, end, levels, bases); }
    }
  }

  lemma PrefixArrives<S, V>(m: Meaning<S, V>, log: seq<Event>, out: Outcome<S>, levels: seq<seq<Expr>>, bases: seq<nat>)
    ensures Arrive(m, Prefix(log, out), levels, bases) == Arrive(m, out, levels, bases)
  {
    hide RunAll;
  }

  lemma InnerFits(levels: seq<seq<Expr>>, bases: seq<nat>)
    requires Fits(levels, bases)
    ensures Fits(levels + [[]], bases)
  {
    hide CoveredDefer;
  }

  lemma TopFits(levels: seq<seq<Expr>>, top: seq<Expr>, bases: seq<nat>)
    requires Fits(levels, bases) && AllDefers(top)
    ensures Fits(levels + [top], bases) && Last(levels + [top]) == top
    ensures Depth(levels + [top]) == Max(Depth(levels), Deepest(top))
  {
    hide CoveredDefer;
    assert Front(levels + [top]) == levels;
  }

  /** The end of a block: the defers run once after a normal end and are skipped after a jump. */
  lemma {:induction false} FinishBlock<S, V>(m: Meaning<S, V>, out: Outcome<S>, levels: seq<seq<Expr>>,
                                             bases: seq<nat>, exits: seq<CStmt>)
    requires Fits(levels, bases)
    requires out.Fin? ==> exits == Calls(Reverse(out.pending)) && AllDefers(out.pending)
    ensures
      var before := if out.Fin? then Arrive(m, out, levels + [out.pending], bases) else Arrive(m, out, levels, bases);
      (if before.CFin? && before.exit.CNormal? then CRun(m, before.left, exits, before.s) else before)
      == Arrive(m, LeaveScope(m, Cap, out), levels, bases)
    decreases if out.Fin? then out.left else 0, if out.Fin? then Deepest(out.pending) else 0, 0, 3, 0
  {
    hide RunAll, Calls, CoveredDefer;
    LeaveArrives(m, out, levels, bases);
    if out.Fin? && out.exit.Normal? {
      ReverseMembers(out.pending);
      DeepestReverse(out.pending);
      RunCalls(m, out.left, Reverse(out.pending), out.s);
      EmptyRunsAll(m);
    } else if out.Fin? {
      NotNormal(m, out, levels + [out.pending], bases);
    }
  }

  lemma {:induction false} SimExpr<S, V>(m: Meaning<S, V>, n: nat, e: Expr, levels: seq<seq<Expr>>,
      bases: seq<nat>, free: bool, s: S)
    requires |levels| > 0 && Fits(levels, bases) && CoveredExpr(e, bases != [], free)
    ensures CRun(m, n, LowerExpr(e, levels, bases), s)
            == Arrive(m, ExecExpr(m, Cap, n, e, Last(levels), s), levels, bases)
    decreases n, Max(Depth(levels), ExprSize(e)), ExprSize(e), 0, 0
  {
    hide RunAll, LowerBlock, ExecBlock, CoveredBlock, Plain;
    if e.Unsafe? {
      var block := CBlock(LowerBlock(e.body, levels, bases, false));
      SimBlock(m, n, e.body, levels, bases, free, s);
      assert [block, CEmpty] == [block] + [CEmpty];
      RunAppend(m, n, [block], [CEmpty], s);
      CRunOne(m, n, block, s);
      var out := CStep(m, n, block, s);
      if out.CFin? { CRunOne(m, out.left, CEmpty, out.s); }
    } else {
      CRunOne(m, n, CExpr(e), s);
      EmptyRunsAll(m);
    }
  }

  lemma {:induction false} EmptyRunsAll<S, V>(m: Meaning<S, V>)
    ensures forall n: nat, s :: RunAll(m, Cap, n, [], s) == Fin(Normal, s, [], [], n)
  {
  }

  lemma {:induction false} SimStmt<S, V>(m: Meaning<S, V>, n: nat, st: Stmt, levels: seq<seq<Expr>>,
      bases: seq<nat>, free: bool, s: S)
    requires |levels| > 0 && Fits(levels, bases) && CoveredStmt(st, bases != [], free)
    ensures
      var out := ExecStmt(m, Cap, n, st, Last(levels), s);
      && CRun(m, n, LowerStmt(st, levels, bases), s) == Arrive(m, out, levels, bases)
      && (out.Fin? && !out.exit.Normal? ==> After(st, levels) == levels)
    decreases n, Max(Depth(levels), StmtSize(st)), StmtSize(st), 3, 0
  {
    hide RunAll, LowerBlock, ExecBlock, CoveredBlock, Plain, Calls, Pending, ExecLoop, CoveredExpr, LowerExpr, ExecExpr, CoveredDefer;
    EmptyRunsAll(m);
    match st {
      case ExprStmt(e) => SimExpr(m, n, e, levels, bases, free, s);
      case Return(_) => SimJump(m, n, st, levels, bases, free, s);
      case Break => SimJump(m, n, st, levels, bases, free, s);
      case Continue => SimJump(m, n, st, levels, bases, free, s);
      case BlockStmt(b) =>
        SimBlock(m, n, b, levels, bases, free, s);
        CRunOne(m, n, CBlock(LowerBlock(b, levels, bases, false)), s);
      case If(_, _, _) => SimIf(m, n, st, levels, bases, free, s);
      case While(c, b) => SimWhile(m, n, st, levels, bases, free, s);
      case For(_, _, _, _) => SimFor(m, n, st, levels, bases, free, s);
      case VarDecl(_, _, _, _) => CRunOne(m, n, CSimple(st), s);
      case AssignStmt(_, _, _) => CRunOne(m, n, CSimple(st), s);
      case Defer(_) =>
    }
  }

  /** The copies that a jump owes run first. */
  lemma {:induction false} SimJump<S, V>(m: Meaning<S, V>, n: nat, st: Stmt, levels: seq<seq<Expr>>, bases: seq<nat>,
                                         free: bool, s: S)
    requires (st.Return? || st.Break? || st.Continue?) && |levels| > 0 && Fits(levels, bases)
    requires CoveredStmt(st, bases != [], free)
    ensures CRun(m, n, LowerStmt(st, levels, bases), s)
            == Arrive(m, ExecStmt(m, Cap, n, st, Last(levels), s), levels, bases)
    decreases n, Max(Depth(levels), StmtSize(st)), StmtSize(st), 1, 0
  {
    hide RunAll, Plain, Calls, Pending, CoveredDefer, AllDefers, Unwind;
    var down := if st.Return? then 0 else LoopFloor(bases);
    var jump := if st.Return? then CReturn(st.value) else if st.Break? then CBreak else CContinue;
    var exit := if st.Return? then Returned(st.value) else if st.Break? then Broke else Continued;
    PendingDefers(levels, down);
    RunCallsThen(m, n, Pending(levels, down), jump, exit, s);
  }

  lemma {:induction false} SimIf<S, V>(m: Meaning<S, V>, n: nat, st: Stmt, levels: seq<seq<Expr>>, bases: seq<nat>,
      free: bool, s: S)
    requires st.If? && |levels| > 0 && Fits(levels, bases) && CoveredStmt(st, bases != [], free)
    ensures
      var out := ExecStmt(m, Cap, n, st, Last(levels), s);
      CRun(m, n, LowerStmt(st, levels, bases), s) == Arrive(m, out, levels, bases)
    decreases n, Max(Depth(levels), StmtSize(st)), StmtSize(st), 1, 0
  {
    hide RunAll, LowerBlock, ExecBlock, CoveredBlock, Plain, Pending;
    EmptyRunsAll(m);
    CRunOne(m, n, CIf(st.cond, LowerBlock(st.thn, levels, bases, false), LowerStmt(st.els, levels, bases)), s);
    match m.run(Test(st.cond), s) {
      case Halted(_) =>
      case Done(s', v) =>
        if m.truth(v) { SimBlock(m, n, st.thn, levels, bases, free, s'); }
        else if !st.els.NoStmt? { SimStmt(m, n, st.els, levels, bases, free, s'); }
    }
  }

  lemma {:induction false} SimWhile<S, V>(m: Meaning<S, V>, n: nat, st: Stmt, levels: seq<seq<Expr>>,
      bases: seq<nat>, free: bool, s: S)
    requires st.While? && |levels| > 0 && Fits(levels, bases) && CoveredStmt(st, bases != [], free)
    ensures
      var out := ExecStmt(m, Cap, n, st, Last(levels), s);
      CRun(m, n, LowerStmt(st, levels, bases), s) == Arrive(m, out, levels, bases)
    decreases n, Max(Depth(levels), StmtSize(st)), StmtSize(st), 1, 0
  {
    hide RunAll, LowerBlock, ExecLoop, CLoop, CoveredBlock, Plain, Pending;
    CRunOne(m, n, CWhile(st.cond, LowerBlock(st.body, levels, bases + [|levels| - 1], false)), s);
    SimLoop(m, n, Test(st.cond), st.body, None, levels, bases, free, s);
  }

  lemma {:induction false} SimFor<S, V>(m: Meaning<S, V>, n: nat, st: Stmt, levels: seq<seq<Expr>>,
      bases: seq<nat>, free: bool, s: S)
    requires st.For? && |levels| > 0 && Fits(levels, bases) && CoveredStmt(st, bases != [], free)
    ensures
      var out := ExecStmt(m, Cap, n, st, Last(levels), s);
      CRun(m, n, LowerStmt(st, levels, bases), s) == Arrive(m, out, levels, bases)
    decreases n, Max(Depth(levels), StmtSize(st)), StmtSize(st), 1, 0
  {
    hide RunAll, LowerBlock, ExecLoop, CLoop, CoveredBlock, Plain, Pending;
    var start, end := RangeStart(st.iterable), RangeEnd(st.iterable);
    var body := LowerBlock(st.body, levels, bases + [|levels| - 1], false);
    CRunOne(m, n, CFor(st.name, start, end, body), s);
    match m.run(ForInit(st.name, start), s) {
      case Halted(_) =>
      case Done(s', _) =>
        SimLoop(m, n, ForTest(st.name, end), st.body, Some(ForStep(st.name)), levels, bases, free, s');
    }
  }

  lemma {:induction false} SimLoop<S, V>(m: Meaning<S, V>, n: nat, test: Action, body: Block, step: Option<Action>,
                                         levels: seq<seq<Expr>>, bases: seq<nat>, free: bool, s: S)
    requires |levels| > 0 && Fits(levels, bases) && CoveredBlock(body, true, free)
    ensures
      var out := ExecLoop(m, Cap, n, test, body, step, Last(levels), s);
      CLoop(m, n, test, LowerBlock(body, levels, bases + [|levels| - 1], false), step, s)
      == Arrive(m, out, levels, bases)
    decreases n, Max(Depth(levels), BlockSize(body)), BlockSize(body), 4, 0
  {
    hide RunAll, LowerBlock, ExecBlock, CoveredBlock, Pending;
    EmptyRunsAll(m);
    match m.run(test, s) {
      case Halted(_) =>
      case Done(s', v) =>
        if m.truth(v) && n > 0 {
          SimLoopBody(m, n - 1, body, levels, bases, free, s');
          var out := ExecBlock(m, Cap, n - 1, body, s');
          if out.Fin? && (out.exit.Normal? || out.exit.Continued?) {
            match step {
              case None => SimLoop(m, out.left, test, body, step, levels, bases, free, out.s);
              case Some(a) =>
                match m.run(a, out.s) {
                  case Halted(_) =>
                  case Done(s'', _) => SimLoop(m, out.left, test, body, step, levels, bases, free, s'');
                }
            }
          }
        }
    }
  }

  /** A loop body owes nothing on `break` and `continue`: they unwind to the loop itself. */
  lemma {:induction false} SimLoopBody<S, V>(m: Meaning<S, V>, n: nat, body: Block, levels: seq<seq<Expr>>,
                                             bases: seq<nat>, free: bool, s: S)
    requires |levels| > 0 && Fits(levels, bases) && CoveredBlock(body, true, free)
    ensures
      var out := ExecBlock(m, Cap, n, body, s);
      CRun(m, n, LowerBlock(body, levels, bases + [|levels| - 1], false), s)
      == if out.Fin? && out.exit.Broke? then CFin(CBroke, out.s, out.left)
         else if out.Fin? && out.exit.Continued? then CFin(CContinued, out.s, out.left)
         else Arrive(m, out, levels, bases)
    decreases n, Max(Depth(levels), BlockSize(body)), BlockSize(body), 3, 0
  {
    hide RunAll, LowerBlock, ExecBlock, CoveredBlock;
    EmptyRunsAll(m);
    SimBlock(m, n, body, levels, bases + [|levels| - 1], free, s);
  }

  /** Two answers of a function: the emitted one and the source one. */
  ghost predicate Same<S, V>(c: COutcome<S, V>, f: Final<S, V>) {
    match f
    case NoAnswer => c == CTimeout
    case Stopped(s) => c == CHalt(s)
    case Completed(s, v, _) => CCall(c) == Some((s, v))
    case Escaped(_) => false
  }

  /** The one case in which the copies after a returned trailing expression would have mattered. */
  predicate SkipsDefers<S>(b: Block, out: Outcome<S>)
    requires b.Block?
  {
    out.Fin? && out.exit.Normal? && b.trailing != NoExpr && out.pending != []
  }

  /** Whole functions: the emitted body answers as the source body, except that a trailing expression
      is returned before the defers of the outermost block, whose copies then never run
      (src/codegen_c.c:323-334). */
  lemma {:induction false} BodyLowering<S, V>(m: Meaning<S, V>, n: nat, b: Block, s: S)
    requires CoveredBody(b)
    ensures
      var out := ExecStmts(m, Cap, n, b.stmts, [], s);
      && (!SkipsDefers(b, out) ==> Same(CRun(m, n, LowerBody(b), s), ExecBody(m, Cap, n, b, s)))
      && (SkipsDefers(b, out) ==> CRun(m, n, LowerBody(b), s) == CJumpOut(m, out.left, b.trailing, out.s))
  {
    hide RunAll, ExecStmts, CoveredStmts, LowerBody, CoveredDefer, CoveredExpr, LeaveScope, Conclude, Same, CJumpOut, Calls, Reverse,
         AllDefers, Arrive;
    var out := ExecStmts(m, Cap, n, b.stmts, [], s);
    StayStmts(m, Cap, n, b.stmts, false, true, [], s);
    BodyParts(m, n, b, s);
    if out.Fin? && out.exit.Normal? {
      if b.trailing == NoExpr {
        FallsOff(m, out);
      } else if out.pending == [] {
        NothingSkipped(m, out, b.trailing);
      }
    } else {
      ConcludeJump(m, out);
    }
  }

  lemma FallsOff<S, V>(m: Meaning<S, V>, out: Outcome<S>)
    requires out.Fin? && out.exit.Normal? && AllDefers(out.pending)
    ensures Same(CRun(m, out.left, Calls(Reverse(out.pending)), out.s), Conclude(m, LeaveScope(m, Cap, out)))
  {
    hide RunAll, Calls, CoveredDefer;
    ReverseMembers(out.pending);
    RunCalls(m, out.left, Reverse(out.pending), out.s);
  }

  lemma NothingSkipped<S, V>(m: Meaning<S, V>, out: Outcome<S>, v: Expr)
    requires out.Fin? && out.pending == [] && v != NoExpr
    ensures Same(CJumpOut(m, out.left, v, out.s), Conclude(m, LeaveScope(m, Cap, out.(exit := Returned(v)))))
  {
    EmptyRunsAll(m);
    hide RunAll;
    assert Reverse(out.pending) == [];
  }

  /** The emitted body in three parts: statements, the returned value, the copies of the block's end. */
  lemma {:induction false} BodyParts<S, V>(m: Meaning<S, V>, n: nat, b: Block, s: S)
    requires CoveredBody(b)
    ensures
      var out := ExecStmts(m, Cap, n, b.stmts, [], s);
      && (out.Fin? ==> AllDefers(out.pending))
      && CRun(m, n, LowerBody(b), s)
         == if out.Fin? && out.exit.Normal? then
              if b.trailing == NoExpr then CRun(m, out.left, Calls(Reverse(out.pending)), out.s)
              else CJumpOut(m, out.left, b.trailing, out.s)
            else if out.Fin? then Arrive(m, out, [out.pending], []) else Arrive(m, out, [[]], [])
  {
    hide LowerStmts, Calls, Reverse, ExecStmts, AfterAll, CoveredStmts, CoveredExpr, CoveredDefer, RunAll, Arrive, CJumpOut;
    var inner: seq<seq<Expr>> := [[]];
    var end := AfterAll(b.stmts, inner);
    var body := LowerStmts(b.stmts, inner, []);
    var tail := LowerTrailing(b, true, end, []);
    var exits := Calls(Reverse(Last(end)));
    assert [] + [[]] == inner;
    assert LowerBody(b) == body + tail + exits;
    SimStmts(m, n, b.stmts, inner, [], true, s);
    RunAppend(m, n, body + tail, exits, s);
    RunAppend(m, n, body, tail, s);
    var out := ExecStmts(m, Cap, n, b.stmts, [], s);
    assert out.Fin? ==> Front(inner) + [out.pending] == [out.pending];
    if out.Fin? && out.exit.Normal? {
      NormalArrives(m, out, [out.pending], []);
      if b.trailing != NoExpr {
        CRunOne(m, out.left, CReturn(b.trailing), out.s);
        JumpsOut(m, out.left, b.trailing, out.s);
      }
    } else if out.Fin? {
      NotNormal(m, out, [out.pending], []);
    } else {
      Stuck(m, out, inner, inner, []);
    }
  }

  lemma JumpsOut<S, V>(m: Meaning<S, V>, n: nat, v: Expr, s: S)
    ensures CStep(m, n, CReturn(v), s) == CJumpOut(m, n, v, s)
    ensures var out := CJumpOut(m, n, v, s); !(out.CFin? && out.exit.CNormal?)
  {
  }

  lemma ConcludeJump<S, V>(m: Meaning<S, V>, out: Outcome<S>)
    requires out.Fin? ==> out.exit.Returned?
    ensures Same(if out.Fin? then Arrive(m, out, [out.pending], []) else Arrive(m, out, [[]], []),
                 Conclude(m, LeaveScope(m, Cap, out)))
  {
    hide RunAll;
    if out.Fin? {
      PendingPop([], out.pending, 0);
      assert [] + [out.pending] == [out.pending];
      assert Reverse(out.pending) + [] == Reverse(out.pending);
    }
  }
}
