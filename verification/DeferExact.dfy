/** Exactly which function bodies the lowering gets right: those in which no reachable block drops a defer
    that does something, and no returned trailing expression skips one of the outermost block. */
module DeferExact {
  import opened Ast
  import opened Semantics
  import opened CTarget
  import opened Lowering
  import opened DeferCorrect

  /** Some run of the statement reaches its end. */
  predicate Passes(st: Stmt)
    decreases st, 0
  {
    match st
    case Return(_) => false
    case Break => false
    case Continue => false
    case ExprStmt(e) => e.Unsafe? ==> PassesBlock(e.body)
    case BlockStmt(b) => PassesBlock(b)
    case If(_, t, e) => PassesBlock(t) || Passes(e)
    case _ => true
  }

  predicate PassesAll(stmts: seq<Stmt>)
    decreases stmts, 0
  {
    stmts == [] || (Passes(stmts[0]) && PassesAll(stmts[1..]))
  }

  predicate PassesBlock(b: Block)
    decreases b, 0
  {
    b.NoBlock? || (PassesAll(b.stmts) && (b.trailing.Unsafe? ==> PassesBlock(b.trailing.body)))
  }

  /** A deferred block that never performs an action, so that it does not matter whether it runs. */
  predicate Idle(e: Expr)
    decreases e, 1
  {
    e.Unsafe? && IdleBlock(e.body)
  }

  predicate IdleBlock(b: Block)
    decreases b, 0
  {
    b.Block? && IdleStmts(b.stmts) && (b.trailing == NoExpr || Idle(b.trailing))
  }

  predicate IdleStmts(stmts: seq<Stmt>)
    decreases stmts, 0
  {
    stmts == [] || (IdleStmt(stmts[0]) && IdleStmts(stmts[1..]))
  }

  predicate IdleStmt(st: Stmt)
    decreases st, 0
  {
    match st
    case ExprStmt(e) => Idle(e)
    case Defer(e) => Idle(e)
    case BlockStmt(b) => IdleBlock(b)
    case _ => false
  }

  /** No reachable block, deferred ones included, drops a defer that does something. */
  predicate GoodBlock(b: Block)
    decreases b, 0
  {
    b.Block? ==>
      && Steady(b.stmts, 0)
      && (PassesAll(b.stmts) && b.trailing.Unsafe? ==> GoodBlock(b.trailing.body))
      && GoodDefers(b.stmts)
  }

  /** The statements of a scope in which `k` defers are registered already. */
  predicate Steady(stmts: seq<Stmt>, k: nat)
    decreases stmts, 0
  {
    stmts == []
    || (&& (stmts[0].Defer? && k >= MaxDefersPerBlock ==> Idle(stmts[0].expr))
        && GoodStmt(stmts[0])
        && (Passes(stmts[0]) ==> Steady(stmts[1..], if stmts[0].Defer? then k + 1 else k)))
  }

  /** The deferred blocks that are registered. */
  predicate GoodDefers(stmts: seq<Stmt>)
    decreases stmts, 0
  {
    stmts == []
    || (GoodRegistration(stmts[0]) && (Passes(stmts[0]) ==> GoodDefers(stmts[1..])))
  }

  predicate GoodRegistration(st: Stmt)
    decreases st, 2
  {
    match st
    case Defer(e) => GoodCopy(e)
    case _ => true
  }

  predicate GoodCopy(e: Expr)
    decreases e, 1
  {
    e.Unsafe? ==> GoodBlock(e.body)
  }

  predicate GoodStmt(st: Stmt)
    decreases st, 0
  {
    match st
    case ExprStmt(e) => e.Unsafe? ==> GoodBlock(e.body)
    case BlockStmt(b) => GoodBlock(b)
    case If(_, t, e) => GoodBlock(t) && GoodStmt(e)
    case While(_, b) => GoodBlock(b)
    case For(_, _, _, b) => GoodBlock(b)
    case _ => true
  }

  /** The defers of the statements do nothing. */
  predicate Quiet(stmts: seq<Stmt>) {
    stmts == [] || ((stmts[0].Defer? ==> Idle(stmts[0].expr)) && Quiet(stmts[1..]))
  }

  predicate GoodBody(b: Block)
    requires b.Block?
  {
    GoodBlock(b) && (b.trailing != NoExpr && PassesAll(b.stmts) ==> Quiet(b.stmts))
  }

  // ---- a run that reaches the end of a statement shows that the statement passes ----

  lemma {:induction false} PassSoundStmts<S, V>(m: Meaning<S, V>, lim: Limit, n: nat, stmts: seq<Stmt>,
                                                pending: seq<Expr>, s: S)
    requires CoveredStmts(stmts, true, true)
    ensures var out := ExecStmts(m, lim, n, stmts, pending, s);
            out.Fin? && out.exit.Normal? ==> PassesAll(stmts)
    decreases n, stmts, 0
  {
    hide ExecStmt, CoveredStmt, Passes;
    if stmts != [] {
      PassSound(m, lim, n, stmts[0], pending, s);
      var out := ExecStmt(m, lim, n, stmts[0], pending, s);
      if out.Fin? && out.exit.Normal? { PassSoundStmts(m, lim, out.left, stmts[1..], out.pending, out.s); }
    }
  }

  lemma {:induction false} PassSoundBlock<S, V>(m: Meaning<S, V>, lim: Limit, n: nat, b: Block, s: S)
    requires CoveredBlock(b, true, true)
    ensures var out := ExecBlock(m, lim, n, b, s);
            out.Fin? && out.exit.Normal? ==> PassesBlock(b)
    decreases n, b, 0
  {
    hide ExecStmts, CoveredStmts, RunAll;
    PassSoundStmts(m, lim, n, b.stmts, [], s);
    var out := ExecStmts(m, lim, n, b.stmts, [], s);
    if out.Fin? && b.trailing.Unsafe? { PassSoundBlock(m, lim, out.left, b.trailing.body, out.s); }
  }

  lemma {:induction false} PassSound<S, V>(m: Meaning<S, V>, lim: Limit, n: nat, st: Stmt, pending: seq<Expr>, s: S)
    requires CoveredStmt(st, true, true)
    ensures var out := ExecStmt(m, lim, n, st, pending, s);
            out.Fin? && out.exit.Normal? ==> Passes(st)
    decreases n, st, 0
  {
    hide ExecBlock, CoveredBlock, PassesBlock, Plain, CoveredDefer, ExecLoop;
    match st {
      case ExprStmt(e) => if e.Unsafe? { PassSoundBlock(m, lim, n, e.body, s); }
      case BlockStmt(b) => PassSoundBlock(m, lim, n, b, s);
      case If(c, t, e) =>
        match m.run(Test(c), s) {
          case Halted(_) =>
          case Done(s', _) =>
            PassSoundBlock(m, lim, n, t, s');
            if !e.NoStmt? { PassSound(m, lim, n, e, pending, s'); }
        }
      case _ =>
    }
  }

  // ---- coverage ----

  /** Coverage inside of loops and where `return` is free is the weaker demand. */
  lemma {:induction false} CoveredMore(stmts: seq<Stmt>, inLoop: bool, free: bool)
    requires CoveredStmts(stmts, inLoop, free)
    ensures CoveredStmts(stmts, true, true)
    decreases stmts, 0
  {
    hide CoveredStmt;
    if stmts != [] {
      CoveredMoreStmt(stmts[0], inLoop, free);
      CoveredMore(stmts[1..], inLoop, free);
    }
  }

  lemma {:induction false} CoveredMoreBlock(b: Block, inLoop: bool, free: bool)
    requires CoveredBlock(b, inLoop, free)
    ensures CoveredBlock(b, true, true)
    decreases b, 0
  {
    hide CoveredStmts, Plain;
    CoveredMore(b.stmts, inLoop, free);
    if b.trailing.Unsafe? { CoveredMoreBlock(b.trailing.body, inLoop, free); }
  }

  lemma {:induction false} CoveredMoreStmt(st: Stmt, inLoop: bool, free: bool)
    requires CoveredStmt(st, inLoop, free)
    ensures CoveredStmt(st, true, true)
    decreases st, 0
  {
    hide CoveredBlock, Plain, CoveredDefer;
    match st {
      case ExprStmt(e) => if e.Unsafe? { CoveredMoreBlock(e.body, inLoop, free); }
      case BlockStmt(b) => CoveredMoreBlock(b, inLoop, free);
      case If(_, t, e) =>
        CoveredMoreBlock(t, inLoop, free);
        if !e.NoStmt? { CoveredMoreStmt(e, inLoop, free); }
      case While(_, b) => CoveredMoreBlock(b, true, free);
      case For(_, _, _, b) => CoveredMoreBlock(b, true, free);
      case _ =>
    }
  }

  // ---- idle blocks ----

  ghost predicate AllIdle(es: seq<Expr>) {
    forall e :: e in es ==> Idle(e)
  }

  ghost predicate Unchanged<S>(out: Outcome<S>, n: nat, s: S) {
    out.Fin? && out.exit.Normal? && out.s == s && out.left == n
  }

  lemma {:induction false} IdleRuns<S, V>(m: Meaning<S, V>, lim: Limit, n: nat, b: Block, s: S)
    requires IdleBlock(b)
    ensures Unchanged(ExecBlock(m, lim, n, b, s), n, s)
    decreases BlockSize(b), 3, 0
  {
    hide ExecStmts, IdleStmts, RunAll, ExecExpr, Idle;
    IdleStmtsRun(m, lim, n, b.stmts, [], s);
    var out := ExecStmts(m, lim, n, b.stmts, [], s);
    if b.trailing != NoExpr { IdleExprRuns(m, lim, n, b.trailing, out.pending, s); }
    ReverseMembers(out.pending);
    DeepestReverse(out.pending);
    IdleAllRun(m, lim, n, Reverse(out.pending), s);
  }

  lemma {:induction false} IdleStmtsRun<S, V>(m: Meaning<S, V>, lim: Limit, n: nat, stmts: seq<Stmt>, pending: seq<Expr>,
                                              s: S)
    requires IdleStmts(stmts) && AllIdle(pending)
    ensures
      var out := ExecStmts(m, lim, n, stmts, pending, s);
      Unchanged(out, n, s) && AllIdle(out.pending)
    decreases StmtsSize(stmts), 4, 0
  {
    hide ExecStmt, IdleStmt, Idle;
    if stmts != [] {
      IdleStmtRuns(m, lim, n, stmts[0], pending, s);
      IdleStmtsRun(m, lim, n, stmts[1..], Pended(lim, stmts[0], pending), s);
    }
  }

  lemma {:induction false} IdleStmtRuns<S, V>(m: Meaning<S, V>, lim: Limit, n: nat, st: Stmt, pending: seq<Expr>, s: S)
    requires IdleStmt(st) && AllIdle(pending)
    ensures
      var out := ExecStmt(m, lim, n, st, pending, s);
      Unchanged(out, n, s) && AllIdle(out.pending)
    decreases StmtSize(st), 3, 0
  {
    hide ExecBlock, ExecExpr, IdleBlock, Idle;
    match st {
      case ExprStmt(e) => IdleExprRuns(m, lim, n, e, pending, s);
      case BlockStmt(b) => IdleRuns(m, lim, n, b, s);
      case Defer(e) =>
        forall x | x in pending + [e] ensures Idle(x) { if x != e { assert x in pending; } }
    }
  }

  lemma {:induction false} IdleExprRuns<S, V>(m: Meaning<S, V>, lim: Limit, n: nat, e: Expr, pending: seq<Expr>, s: S)
    requires Idle(e)
    ensures Unchanged(ExecExpr(m, lim, n, e, pending, s), n, s)
    ensures Unchanged(RunDeferred(m, lim, n, e, s), n, s)
    decreases ExprSize(e), 0, 0
  {
    hide ExecBlock, IdleBlock;
    IdleRuns(m, lim, n, e.body, s);
  }

  lemma {:induction false} IdleAllRun<S, V>(m: Meaning<S, V>, lim: Limit, n: nat, es: seq<Expr>, s: S)
    requires AllIdle(es)
    ensures Unchanged(RunAll(m, lim, n, es, s), n, s)
    decreases Deepest(es), 1, |es|
  {
    hide Idle, RunDeferred;
    if es != [] {
      IdleExprRuns(m, lim, n, es[0], [], s);
      IdleAllRun(m, lim, n, es[1..], s);
    }
  }

  // ---- in a good scope the cap makes no difference ----

  /** What is left of a list of defers under the cap. */
  function Kept(p: seq<Expr>): seq<Expr> {
    if |p| <= MaxDefersPerBlock then p else p[..MaxDefersPerBlock]
  }

  predicate GoodDefer(e: Expr) {
    CoveredDefer(e) && GoodCopy(e)
  }

  ghost predicate AllGood(es: seq<Expr>) {
    forall e :: e in es ==> GoodDefer(e)
  }

  /** What the cap drops does nothing. */
  ghost predicate Tame(p: seq<Expr>) {
    AllIdle(p[|Kept(p)|..])
  }

  /** The capped and the uncapped run end alike. */
  ghost predicate Agree<S>(c: Outcome<S>, u: Outcome<S>) {
    match u
    case Timeout => c.Timeout?
    case Halt(s) => c == Halt(s)
    case Fin(exit, s, pending, _, left) =>
      c.Fin? && c.exit == exit && c.s == s && c.left == left && c.pending == Kept(pending) && Tame(pending)
  }

  lemma {:induction false} ReverseAppend<T>(a: seq<T>, b: seq<T>)
    ensures Reverse(a + b) == Reverse(b) + Reverse(a)
  {
    if b == [] {
      assert a + b == a;
    } else {
      var front, last := b[..|b| - 1], b[|b| - 1];
      assert (a + b)[..|a + b| - 1] == a + front;
      ReverseAppend(a, front);
    }
  }

  /** Two runs of the same good defers, capped and uncapped. */
  lemma {:induction false} CapSame<S, V>(m: Meaning<S, V>, n: nat, es: seq<Expr>, s: S)
    requires AllGood(es)
    ensures Agree(RunAll(m, Cap, n, es, s), RunAll(m, Unlimited, n, es, s))
    decreases n, Deepest(es), 1, |es|
  {
    hide GoodDefer, RunDeferred;
    NoneTame();
    if es != [] {
      CapOne(m, n, es[0], s);
      var c := RunDeferred(m, Cap, n, es[0], s);
      if c.Fin? { CapSame(m, c.left, es[1..], c.s); }
    }
  }

  lemma NoneTame()
    ensures Tame([]) && Kept([]) == []
  {
  }

  lemma {:induction false} CapOne<S, V>(m: Meaning<S, V>, n: nat, e: Expr, s: S)
    requires GoodDefer(e)
    ensures
      var c, u := RunDeferred(m, Cap, n, e, s), RunDeferred(m, Unlimited, n, e, s);
      && c.Fin? == u.Fin? && (c.Fin? ==> c.s == u.s && c.left == u.left) && (!c.Fin? ==> c == u)
    decreases n, ExprSize(e), 0, 0
  {
    hide ExecBlock, CoveredBlock, GoodBlock;
    if e.Unsafe? {
      assert CoveredDefer(e) && CoveredExpr(e, false, false);
      CoveredMoreBlock(e.body, false, false);
      CapIdleBlock(m, n, e.body, s);
    }
  }

  lemma {:induction false} CapLeaves<S, V>(m: Meaning<S, V>, c: Outcome<S>, u: Outcome<S>)
    requires Agree(c, u) && (u.Fin? ==> AllGood(u.pending))
    ensures Agree(LeaveScope(m, Cap, c), LeaveScope(m, Unlimited, u))
    decreases if u.Fin? then u.left else 0, if u.Fin? then Deepest(u.pending) else 0, 2, 0
  {
    hide RunAll, GoodDefer, Idle;
    NoneTame();
    if u.Fin? {
      var kept := Kept(u.pending);
      var extra := u.pending[|kept|..];
      assert u.pending == kept + extra;
      ReverseAppend(kept, extra);
      ReverseMembers(extra);
      ReverseMembers(kept);
      DeepestAppend(kept, extra);
      DeepestReverse(kept);
      IdleAllRun(m, Unlimited, u.left, Reverse(extra), u.s);
      RunAllAppend(m, Unlimited, u.left, Reverse(extra), Reverse(kept), u.s);
      CapSame(m, u.left, Reverse(kept), u.s);
    }
  }

  lemma {:induction false} CapIdleStmts<S, V>(m: Meaning<S, V>, n: nat, stmts: seq<Stmt>, p: seq<Expr>, s: S)
    requires CoveredStmts(stmts, true, true) && Steady(stmts, |p|) && Tame(p)
    ensures Agree(ExecStmts(m, Cap, n, stmts, Kept(p), s), ExecStmts(m, Unlimited, n, stmts, p, s))
    decreases n, StmtsSize(stmts), 4, 0
  {
    hide ExecStmt, CoveredStmt, GoodDefer, Idle, Passes, GoodStmt;
    if stmts != [] {
      CapIdleStmt(m, n, stmts[0], p, s);
      PassSound(m, Unlimited, n, stmts[0], p, s);
      var c := ExecStmt(m, Cap, n, stmts[0], Kept(p), s);
      var u := ExecStmt(m, Unlimited, n, stmts[0], p, s);
      if u.Fin? && u.exit.Normal? { CapIdleStmts(m, u.left, stmts[1..], u.pending, u.s); }
    }
  }

  /** The defers a scope holds at its end. */
  lemma {:induction false} PendingGood<S, V>(m: Meaning<S, V>, lim: Limit, n: nat, stmts: seq<Stmt>, pending: seq<Expr>,
                                             s: S)
    requires CoveredStmts(stmts, true, true) && GoodDefers(stmts) && AllGood(pending)
    ensures var out := ExecStmts(m, lim, n, stmts, pending, s); out.Fin? ==> AllGood(out.pending)
    decreases |stmts|
  {
    hide ExecStmt, Passes, GoodBlock, CoveredBlock, Plain;
    if stmts != [] {
      PassSound(m, lim, n, stmts[0], pending, s);
      var out := ExecStmt(m, lim, n, stmts[0], pending, s);
      if out.Fin? && out.exit.Normal? { PendingGood(m, lim, out.left, stmts[1..], out.pending, out.s); }
    }
  }

  lemma {:induction false} CapIdleBlock<S, V>(m: Meaning<S, V>, n: nat, b: Block, s: S)
    requires CoveredBlock(b, true, true) && GoodBlock(b)
    ensures Agree(ExecBlock(m, Cap, n, b, s), ExecBlock(m, Unlimited, n, b, s))
    decreases n, BlockSize(b), 3, 0
  {
    hide ExecStmts, CoveredStmts, Steady, GoodDefers, PassesAll, GoodDefer, Idle, LeaveScope, ExecExpr, CoveredExpr;
    NoneTame();
    CapIdleStmts(m, n, b.stmts, [], s);
    PendingGood(m, Unlimited, n, b.stmts, [], s);
    PassSoundStmts(m, Unlimited, n, b.stmts, [], s);
    var c := ExecStmts(m, Cap, n, b.stmts, [], s);
    var u := ExecStmts(m, Unlimited, n, b.stmts, [], s);
    if u.Fin? && u.exit.Normal? && b.trailing != NoExpr {
      CapIdleExpr(m, u.left, b.trailing, u.pending, u.s);
      CapLeaves(m, Prefix(c.log, ExecExpr(m, Cap, c.left, b.trailing, c.pending, c.s)),
                Prefix(u.log, ExecExpr(m, Unlimited, u.left, b.trailing, u.pending, u.s)));
    } else {
      CapLeaves(m, c, u);
    }
  }

  lemma {:induction false} CapIdleExpr<S, V>(m: Meaning<S, V>, n: nat, e: Expr, p: seq<Expr>, s: S)
    requires CoveredExpr(e, true, true) && (e.Unsafe? ==> GoodBlock(e.body)) && Tame(p)
    ensures Agree(ExecExpr(m, Cap, n, e, Kept(p), s), ExecExpr(m, Unlimited, n, e, p, s))
    decreases n, ExprSize(e), 0, 0
  {
    hide ExecBlock, CoveredBlock, GoodBlock, GoodDefer, Idle;
    if e.Unsafe? { CapIdleBlock(m, n, e.body, s); }
  }

  lemma {:induction false} CapIdleStmt<S, V>(m: Meaning<S, V>, n: nat, st: Stmt, p: seq<Expr>, s: S)
    requires CoveredStmt(st, true, true) && GoodStmt(st) && Tame(p)
    requires st.Defer? && |p| >= MaxDefersPerBlock ==> Idle(st.expr)
    ensures Agree(ExecStmt(m, Cap, n, st, Kept(p), s), ExecStmt(m, Unlimited, n, st, p, s))
    decreases n, StmtSize(st), 3, 0
  {
    hide ExecBlock, CoveredBlock, GoodBlock, GoodDefer, Idle, Plain, ExecLoop, ExecExpr, CoveredExpr, CoveredDefer;
    match st {
      case ExprStmt(e) => CapIdleExpr(m, n, e, p, s);
      case Defer(e) => CapDefer(m, n, e, p, s);
      case BlockStmt(b) => CapIdleBlock(m, n, b, s);
      case If(c, t, e) =>
        match m.run(Test(c), s) {
          case Halted(_) =>
          case Done(s', _) =>
            CapIdleBlock(m, n, t, s');
            if !e.NoStmt? { CapIdleStmt(m, n, e, p, s'); }
        }
      case While(c, b) => CapIdleLoop(m, n, Test(c), b, None, p, s);
      case For(x, _, iter, b) =>
        match m.run(ForInit(x, RangeStart(iter)), s) {
          case Halted(_) =>
          case Done(s', _) => CapIdleLoop(m, n, ForTest(x, RangeEnd(iter)), b, Some(ForStep(x)), p, s');
        }
      case _ =>
    }
  }

  lemma {:induction false} CapDefer<S, V>(m: Meaning<S, V>, n: nat, e: Expr, p: seq<Expr>, s: S)
    requires Tame(p)
    requires |p| >= MaxDefersPerBlock ==> Idle(e)
    ensures Agree(ExecStmt(m, Cap, n, Defer(e), Kept(p), s), ExecStmt(m, Unlimited, n, Defer(e), p, s))
  {
    hide CoveredDefer, GoodBlock, Idle;
    var q := p + [e];
    if |p| < MaxDefersPerBlock {
      assert Kept(p) == p && Kept(q) == q && q[|q|..] == [];
    } else {
      assert Kept(p) == p[..MaxDefersPerBlock] == q[..MaxDefersPerBlock] == Kept(q);
      assert q[MaxDefersPerBlock..] == p[MaxDefersPerBlock..] + [e];
    }
  }

  lemma {:induction false} CapIdleLoop<S, V>(m: Meaning<S, V>, n: nat, test: Action, b: Block, step: Option<Action>,
                                             p: seq<Expr>, s: S)
    requires CoveredBlock(b, true, true) && GoodBlock(b) && Tame(p)
    ensures Agree(ExecLoop(m, Cap, n, test, b, step, Kept(p), s), ExecLoop(m, Unlimited, n, test, b, step, p, s))
    decreases n, BlockSize(b), 4, 0
  {
    hide ExecBlock, CoveredBlock, GoodBlock, Tame, Kept;
    match m.run(test, s) {
      case Halted(_) =>
      case Done(s', v) =>
        if m.truth(v) && n > 0 {
          CapIdleBlock(m, n - 1, b, s');
          var out := ExecBlock(m, Unlimited, n - 1, b, s');
          if out.Fin? && (out.exit.Normal? || out.exit.Continued?) {
            match step {
              case None => CapIdleLoop(m, out.left, test, b, step, p, out.s);
              case Some(a) =>
                match m.run(a, out.s) {
                  case Halted(_) =>
                  case Done(s'', _) => CapIdleLoop(m, out.left, test, b, step, p, s'');
                }
            }
          }
        }
    }
  }

  // ---- whole bodies ----

  /** The pending defers of quiet statements do nothing. */
  lemma {:induction false} QuietPending<S, V>(m: Meaning<S, V>, lim: Limit, n: nat, stmts: seq<Stmt>, pending: seq<Expr>,
                                              s: S)
    requires Quiet(stmts) && AllIdle(pending)
    ensures var out := ExecStmts(m, lim, n, stmts, pending, s); out.Fin? ==> AllIdle(out.pending)
    decreases |stmts|
  {
    hide ExecStmt, Idle;
    if stmts != [] {
      var out := ExecStmt(m, lim, n, stmts[0], pending, s);
      if out.Fin? && out.exit.Normal? { QuietPending(m, lim, out.left, stmts[1..], out.pending, out.s); }
    }
  }

  /** Skipping defers that do nothing does no harm. */
  lemma {:induction false} SkipHarmless<S, V>(m: Meaning<S, V>, u: Outcome<S>, v: Expr)
    requires u.Fin? && AllIdle(u.pending) && v != NoExpr
    ensures Same(CJumpOut(m, u.left, v, u.s), Conclude(m, LeaveScope(m, Unlimited, u.(exit := Returned(v)))))
  {
    hide RunAll, Idle;
    ReverseMembers(u.pending);
    IdleAllRun(m, Unlimited, u.left, Reverse(u.pending), u.s);
  }

  lemma AlikeSame<S, V>(m: Meaning<S, V>, x: COutcome<S, V>, c: Outcome<S>, u: Outcome<S>)
    requires Agree(c, u) && Same(x, Conclude(m, c))
    ensures Same(x, Conclude(m, u))
  {
    hide GoodDefer, Idle;
  }

  /** Defer lowering preserves meaning: for every meaning of the expressions, every fuel and every
      start state, a good body and its emitted C give the same answer. */
  lemma {:induction false} LoweringPreserves<S, V>(m: Meaning<S, V>, n: nat, b: Block, s: S)
    requires CoveredBody(b) && GoodBody(b)
    ensures Same(CRun(m, n, LowerBody(b), s), ExecBody(m, Unlimited, n, b, s))
  {
    hide ExecStmts, CoveredStmts, Steady, GoodDefers, PassesAll, GoodDefer, Idle, LeaveScope, Quiet, LowerBody, CoveredExpr, Conclude, Same,
         CJumpOut;
    CoveredMoreBlock(b, false, true);
    NoneTame();
    CapIdleStmts(m, n, b.stmts, [], s);
    PendingGood(m, Unlimited, n, b.stmts, [], s);
    PassSoundStmts(m, Unlimited, n, b.stmts, [], s);
    var c := ExecStmts(m, Cap, n, b.stmts, [], s);
    var u := ExecStmts(m, Unlimited, n, b.stmts, [], s);
    var x := CRun(m, n, LowerBody(b), s);
    BodyLowering(m, n, b, s);
    if SkipsDefers(b, c) {
      QuietPending(m, Unlimited, n, b.stmts, [], s);
      SkipHarmless(m, u, b.trailing);
    } else if u.Fin? && u.exit.Normal? && b.trailing != NoExpr {
      var c', u' := c.(exit := Returned(b.trailing)), u.(exit := Returned(b.trailing));
      CapLeaves(m, c', u');
      AlikeSame(m, x, LeaveScope(m, Cap, c'), LeaveScope(m, Unlimited, u'));
    } else {
      CapLeaves(m, c, u);
      AlikeSame(m, x, LeaveScope(m, Cap, c), LeaveScope(m, Unlimited, u));
    }
  }
}
