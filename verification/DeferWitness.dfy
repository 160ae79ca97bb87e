/** The other half of exactness: for a body that is not good, a meaning of its expressions under which
    the emitted C and the source body give different answers. */
module DeferWitness {
  import opened Ast
  import opened Semantics
  import opened CTarget
  import opened Lowering
  import opened DeferCorrect
  import opened DeferExact

  /** A state that says how the coming conditions turn out, and counts the actions performed. */
  datatype Script = Script(todo: seq<bool>, steps: nat)

  function Play(a: Action, s: Script): Result<Script, bool> {
    if a.Test? || a.ForTest? then
      if s.todo == [] then Done(Script([], s.steps + 1), false)
      else Done(Script(s.todo[1..], s.steps + 1), s.todo[0])
    else Done(Script(s.todo, s.steps + 1), false)
  }

  const Stage: Meaning<Script, bool> := Meaning(Play, (v: bool) => v, (v: bool, k: nat) => 0)

  // ---- with an empty script every condition is false, and every run ends ----

  predicate Ended(out: Outcome<Script>, n: nat, s: Script) {
    out.Fin? && out.s.todo == [] && out.s.steps >= s.steps && out.left == n
  }

  lemma {:induction false} GrowStmts(lim: Limit, n: nat, stmts: seq<Stmt>, pending: seq<Expr>, s: Script)
    requires CoveredStmts(stmts, true, true) && AllDefers(pending) && s.todo == []
    ensures
      var out := ExecStmts(Stage, lim, n, stmts, pending, s);
      Ended(out, n, s) && pending <= out.pending && AllDefers(out.pending)
    decreases StmtsSize(stmts), 4, 0
  {
    hide ExecStmt, CoveredStmt, CoveredDefer;
    if stmts != [] {
      GrowStmt(lim, n, stmts[0], pending, s);
      PendedDefers(lim, stmts[0], pending);
      var out := ExecStmt(Stage, lim, n, stmts[0], pending, s);
      if out.exit.Normal? { GrowStmts(lim, n, stmts[1..], out.pending, out.s); }
    }
  }

  lemma PendedDefers(lim: Limit, st: Stmt, pending: seq<Expr>)
    requires CoveredStmt(st, true, true) && AllDefers(pending)
    ensures AllDefers(Pended(lim, st, pending)) && pending <= Pended(lim, st, pending)
  {
    hide CoveredDefer, CoveredBlock, CoveredExpr, Plain;
  }

  lemma {:induction false} GrowBlock(lim: Limit, n: nat, b: Block, s: Script)
    requires CoveredBlock(b, true, true) && s.todo == []
    ensures Ended(ExecBlock(Stage, lim, n, b, s), n, s)
    decreases BlockSize(b), 3, 0
  {
    hide ExecStmts, CoveredStmts, CoveredExpr, ExecExpr, RunAll, CoveredDefer;
    GrowStmts(lim, n, b.stmts, [], s);
    var out := ExecStmts(Stage, lim, n, b.stmts, [], s);
    if out.exit.Normal? && b.trailing != NoExpr {
      GrowExpr(lim, n, b.trailing, out.pending, out.s);
      GrowLeave(lim, n, Prefix(out.log, ExecExpr(Stage, lim, n, b.trailing, out.pending, out.s)));
    } else {
      GrowLeave(lim, n, out);
    }
  }

  lemma {:induction false} GrowLeave(lim: Limit, n: nat, out: Outcome<Script>)
    requires out.Fin? && out.s.todo == [] && out.left == n && AllDefers(out.pending)
    ensures Ended(LeaveScope(Stage, lim, out), n, out.s)
    decreases if out.Fin? then Deepest(out.pending) else 0, 2, 0
  {
    hide RunAll, CoveredDefer;
    ReverseMembers(out.pending);
    DeepestReverse(out.pending);
    GrowAll(lim, n, Reverse(out.pending), out.s);
  }

  lemma {:induction false} GrowAll(lim: Limit, n: nat, es: seq<Expr>, s: Script)
    requires AllDefers(es) && s.todo == []
    ensures Ended(RunAll(Stage, lim, n, es, s), n, s)
    decreases Deepest(es), 1, |es|
  {
    hide RunDeferred, CoveredDefer;
    if es != [] {
      GrowOne(lim, n, es[0], s);
      GrowAll(lim, n, es[1..], RunDeferred(Stage, lim, n, es[0], s).s);
    }
  }

  lemma {:induction false} GrowOne(lim: Limit, n: nat, e: Expr, s: Script)
    requires CoveredDefer(e) && s.todo == []
    ensures Ended(RunDeferred(Stage, lim, n, e, s), n, s)
    decreases ExprSize(e), 0, 0
  {
    hide ExecBlock, CoveredBlock;
    if e.Unsafe? {
      DeferredCovered(e);
      GrowBlock(lim, n, e.body, s);
    }
  }

  lemma {:induction false} DeferredCovered(e: Expr)
    requires e.Unsafe? && CoveredDefer(e)
    ensures CoveredBlock(e.body, false, false) && CoveredBlock(e.body, true, true)
  {
    hide CoveredBlock;
    assert CoveredExpr(e, false, false);
    CoveredMoreBlock(e.body, false, false);
  }

  lemma {:induction false} GrowExpr(lim: Limit, n: nat, e: Expr, pending: seq<Expr>, s: Script)
    requires CoveredExpr(e, true, true) && s.todo == []
    ensures Ended(ExecExpr(Stage, lim, n, e, pending, s), n, s)
    decreases ExprSize(e), 0, 0
  {
    hide ExecBlock, CoveredBlock, Plain;
    if e.Unsafe? { GrowBlock(lim, n, e.body, s); }
  }

  lemma {:induction false} GrowStmt(lim: Limit, n: nat, st: Stmt, pending: seq<Expr>, s: Script)
    requires CoveredStmt(st, true, true) && s.todo == []
    ensures Ended(ExecStmt(Stage, lim, n, st, pending, s), n, s)
    decreases StmtSize(st), 3, 0
  {
    hide ExecBlock, CoveredBlock, Plain, ExecExpr, CoveredExpr, CoveredDefer;
    match st {
      case ExprStmt(e) => GrowExpr(lim, n, e, pending, s);
      case BlockStmt(b) => GrowBlock(lim, n, b, s);
      case If(e, _, els) => if !els.NoStmt? { GrowStmt(lim, n, els, pending, Play(Test(e), s).s); }
      case _ =>
    }
  }

  // ---- a capped and an uncapped run stay in step ----

  /** The uncapped run ended at the same point, at least `gap` actions ahead. */
  predicate Ahead(c: Outcome<Script>, u: Outcome<Script>, gap: nat) {
    && c.Fin? && u.Fin? && c.exit == u.exit && c.left == u.left
    && Behind(c.s, u.s, gap)
  }

  predicate Behind(c: Script, u: Script, gap: nat) {
    c.todo == [] == u.todo && c.steps + gap <= u.steps
  }

  lemma KeptPended(st: Stmt, p: seq<Expr>)
    ensures Pended(Cap, st, Kept(p)) == Kept(Pended(Unlimited, st, p))
  {
    if st.Defer? && |p| >= MaxDefersPerBlock {
      assert (p + [st.expr])[..MaxDefersPerBlock] == p[..MaxDefersPerBlock];
    }
  }

  lemma {:induction false} LockStmts(n: nat, stmts: seq<Stmt>, p: seq<Expr>, c: Script, u: Script, gap: nat)
    requires CoveredStmts(stmts, true, true) && Behind(c, u, gap) && AllDefers(p)
    ensures
      var oc := ExecStmts(Stage, Cap, n, stmts, Kept(p), c);
      var ou := ExecStmts(Stage, Unlimited, n, stmts, p, u);
      && Ahead(oc, ou, gap) && oc.left == n && oc.pending == Kept(ou.pending) && p <= ou.pending && AllDefers(ou.pending)
    decreases StmtsSize(stmts), 4, 0
  {
    hide ExecStmt, CoveredStmt, CoveredDefer, Kept;
    if stmts != [] {
      LockStmt(n, stmts[0], p, c, u, gap);
      KeptPended(stmts[0], p);
      PendedDefers(Unlimited, stmts[0], p);
      var oc := ExecStmt(Stage, Cap, n, stmts[0], Kept(p), c);
      var ou := ExecStmt(Stage, Unlimited, n, stmts[0], p, u);
      if oc.exit.Normal? { LockStmts(n, stmts[1..], ou.pending, oc.s, ou.s, gap); }
    }
  }

  lemma {:induction false} LockBlock(n: nat, b: Block, c: Script, u: Script, gap: nat)
    requires CoveredBlock(b, true, true) && Behind(c, u, gap)
    ensures var oc := ExecBlock(Stage, Cap, n, b, c);
            Ahead(oc, ExecBlock(Stage, Unlimited, n, b, u), gap) && oc.left == n
    decreases BlockSize(b), 3, 0
  {
    hide ExecStmts, CoveredStmts, Kept, CoveredDefer, LeaveScope, CoveredExpr, ExecExpr;
    assert Kept([]) == [] by { NoneTame(); }
    LockStmts(n, b.stmts, [], c, u, gap);
    LockTail(n, b, ExecStmts(Stage, Cap, n, b.stmts, [], c), ExecStmts(Stage, Unlimited, n, b.stmts, [], u), gap);
  }

  /** The outcome of a block whose statements ended with `out`. */
  function Tail(lim: Limit, b: Block, out: Outcome<Script>): Outcome<Script>
    requires b.Block? && out.Fin?
  {
    LeaveScope(Stage, lim,
      if out.exit.Normal? && b.trailing != NoExpr
      then Prefix(out.log, ExecExpr(Stage, lim, out.left, b.trailing, out.pending, out.s)) else out)
  }

  lemma {:induction false} LockTail(n: nat, b: Block, oc: Outcome<Script>, ou: Outcome<Script>, gap: nat)
    requires CoveredBlock(b, true, true) && Ahead(oc, ou, gap) && oc.left == n
    requires oc.pending == Kept(ou.pending) && AllDefers(ou.pending) && Deepest(ou.pending) <= StmtsSize(b.stmts)
    ensures var active := HasActive(ou.pending[|oc.pending|..]);
            Ahead(Tail(Cap, b, oc), Tail(Unlimited, b, ou), if active then gap + 1 else gap)
    ensures Tail(Cap, b, oc).Fin? && Tail(Cap, b, oc).left == n
    decreases BlockSize(b), 2, 0
  {
    hide CoveredStmts, Kept, CoveredDefer, LeaveScope, CoveredExpr, ExecExpr, HasActive;
    if oc.exit.Normal? && b.trailing != NoExpr {
      LockExpr(n, b.trailing, oc.pending, ou.pending, oc.s, ou.s, gap);
      LockLeave(n, Prefix(oc.log, ExecExpr(Stage, Cap, n, b.trailing, oc.pending, oc.s)),
                Prefix(ou.log, ExecExpr(Stage, Unlimited, n, b.trailing, ou.pending, ou.s)), gap);
    } else {
      LockLeave(n, oc, ou, gap);
    }
  }

  ghost predicate HasActive(es: seq<Expr>) {
    exists e :: e in es && !Idle(e)
  }

  /** The uncapped run also runs what the cap dropped. */
  lemma {:induction false} LockLeave(n: nat, c: Outcome<Script>, u: Outcome<Script>, gap: nat)
    requires Ahead(c, u, gap) && c.left == n && c.pending == Kept(u.pending) && AllDefers(u.pending)
    ensures var active := HasActive(u.pending[|c.pending|..]);
            Ahead(LeaveScope(Stage, Cap, c), LeaveScope(Stage, Unlimited, u), if active then gap + 1 else gap)
    ensures LeaveScope(Stage, Cap, c).left == n
    decreases if u.Fin? then Deepest(u.pending) else 0, 2, 0
  {
    hide RunAll, CoveredDefer, Idle;
    var kept := Kept(u.pending);
    var extra := u.pending[|kept|..];
    assert u.pending == kept + extra;
    ReverseAppend(kept, extra);
    ReverseMembers(extra);
    ReverseMembers(kept);
    DeepestAppend(kept, extra);
    DeepestReverse(kept);
    DeepestReverse(extra);
    RunAllAppend(Stage, Unlimited, n, Reverse(extra), Reverse(kept), u.s);
    GrowAll(Unlimited, n, Reverse(extra), u.s);
    if HasActive(extra) { ActiveAll(n, Reverse(extra), u.s); }
    var more := RunAll(Stage, Unlimited, n, Reverse(extra), u.s);
    LockAll(n, Reverse(kept), c.s, more.s, if HasActive(extra) then gap + 1 else gap);
  }

  lemma {:induction false} LockAll(n: nat, es: seq<Expr>, c: Script, u: Script, gap: nat)
    requires AllDefers(es) && Behind(c, u, gap)
    ensures var oc := RunAll(Stage, Cap, n, es, c);
            Ahead(oc, RunAll(Stage, Unlimited, n, es, u), gap) && oc.left == n
    decreases Deepest(es), 1, |es|
  {
    hide RunDeferred, CoveredDefer;
    if es != [] {
      LockOne(n, es[0], c, u, gap);
      LockAll(n, es[1..], RunDeferred(Stage, Cap, n, es[0], c).s, RunDeferred(Stage, Unlimited, n, es[0], u).s, gap);
    }
  }

  lemma {:induction false} LockOne(n: nat, e: Expr, c: Script, u: Script, gap: nat)
    requires CoveredDefer(e) && Behind(c, u, gap)
    ensures var oc := RunDeferred(Stage, Cap, n, e, c);
            Ahead(oc, RunDeferred(Stage, Unlimited, n, e, u), gap) && oc.left == n
    decreases ExprSize(e), 0, 0
  {
    hide ExecBlock, CoveredBlock;
    if e.Unsafe? {
      DeferredCovered(e);
      LockBlock(n, e.body, c, u, gap);
    }
  }

  lemma {:induction false} LockExpr(n: nat, e: Expr, pc: seq<Expr>, pu: seq<Expr>, c: Script, u: Script, gap: nat)
    requires CoveredExpr(e, true, true) && Behind(c, u, gap)
    ensures var oc := ExecExpr(Stage, Cap, n, e, pc, c);
            Ahead(oc, ExecExpr(Stage, Unlimited, n, e, pu, u), gap) && oc.left == n
    decreases ExprSize(e), 0, 0
  {
    hide ExecBlock, CoveredBlock, Plain;
    if e.Unsafe? { LockBlock(n, e.body, c, u, gap); }
  }

  lemma {:induction false} LockStmt(n: nat, st: Stmt, p: seq<Expr>, c: Script, u: Script, gap: nat)
    requires CoveredStmt(st, true, true) && Behind(c, u, gap)
    ensures var oc := ExecStmt(Stage, Cap, n, st, Kept(p), c);
            Ahead(oc, ExecStmt(Stage, Unlimited, n, st, p, u), gap) && oc.left == n
    decreases StmtSize(st), 3, 0
  {
    hide ExecBlock, CoveredBlock, Plain, ExecExpr, CoveredExpr, CoveredDefer;
    match st {
      case ExprStmt(e) => LockExpr(n, e, Kept(p), p, c, u, gap);
      case BlockStmt(b) => LockBlock(n, b, c, u, gap);
      case If(e, _, els) => if !els.NoStmt? { LockStmt(n, els, p, Play(Test(e), c).s, Play(Test(e), u).s, gap); }
      case _ =>
    }
  }

  // ---- a deferred block that is not idle performs an action ----

  lemma {:induction false} ActiveAll(n: nat, es: seq<Expr>, s: Script)
    requires AllDefers(es) && HasActive(es) && s.todo == []
    ensures var out := RunAll(Stage, Unlimited, n, es, s); Ended(out, n, s) && out.s.steps > s.steps
    decreases Deepest(es), 1, |es|
  {
    hide RunDeferred, CoveredDefer, Idle;
    GrowOne(Unlimited, n, es[0], s);
    var one := RunDeferred(Stage, Unlimited, n, es[0], s);
    GrowAll(Unlimited, n, es[1..], one.s);
    if !Idle(es[0]) { ActiveOne(n, es[0], s); } else { ActiveAll(n, es[1..], one.s); }
  }

  lemma {:induction false} ActiveOne(n: nat, e: Expr, s: Script)
    requires CoveredDefer(e) && !Idle(e) && s.todo == []
    ensures var out := RunDeferred(Stage, Unlimited, n, e, s); out.Fin? && out.s.steps > s.steps
    decreases ExprSize(e), 0, 0
  {
    hide ExecBlock, CoveredBlock, IdleBlock;
    if e.Unsafe? {
      DeferredCovered(e);
      ActiveBlock(n, e.body, s);
    }
  }

  lemma {:induction false} ActiveBlock(n: nat, b: Block, s: Script)
    requires CoveredBlock(b, false, false) && !IdleBlock(b) && s.todo == []
    ensures var out := ExecBlock(Stage, Unlimited, n, b, s); out.Fin? && out.s.steps > s.steps
    decreases BlockSize(b), 3, 0
  {
    hide ExecStmts, CoveredStmts, CoveredExpr, ExecExpr, RunAll, CoveredDefer, IdleStmts, Idle, LeaveScope;
    CoveredMoreBlock(b, false, false);
    GrowStmts(Unlimited, n, b.stmts, [], s);
    StayStmts(Stage, Unlimited, n, b.stmts, false, false, [], s);
    var out := ExecStmts(Stage, Unlimited, n, b.stmts, [], s);
    if !IdleStmts(b.stmts) { ActiveStmts(n, b.stmts, [], s); }
    if b.trailing != NoExpr {
      var last := Prefix(out.log, ExecExpr(Stage, Unlimited, n, b.trailing, out.pending, out.s));
      GrowExpr(Unlimited, n, b.trailing, out.pending, out.s);
      if !Idle(b.trailing) { ActiveExpr(n, b.trailing, out.pending, out.s); }
      ActiveLeave(n, last);
    } else {
      ActiveLeave(n, out);
    }
  }

  lemma {:induction false} ActiveLeave(n: nat, out: Outcome<Script>)
    requires out.Fin? && out.s.todo == [] && out.left == n && AllDefers(out.pending)
    ensures
      var r := LeaveScope(Stage, Unlimited, out);
      r.Fin? && r.s.todo == [] && r.left == n && r.s.steps >= out.s.steps
      && (HasActive(out.pending) ==> r.s.steps > out.s.steps)
    decreases if out.Fin? then Deepest(out.pending) else 0, 2, 0
  {
    hide RunAll, CoveredDefer, Idle;
    GrowLeave(Unlimited, n, out);
    ReverseMembers(out.pending);
    DeepestReverse(out.pending);
    if HasActive(out.pending) { ActiveAll(n, Reverse(out.pending), out.s); }
  }

  lemma {:induction false} ActiveStmts(n: nat, stmts: seq<Stmt>, pending: seq<Expr>, s: Script)
    requires CoveredStmts(stmts, false, false) && !IdleStmts(stmts) && AllDefers(pending) && s.todo == []
    ensures var out := ExecStmts(Stage, Unlimited, n, stmts, pending, s);
            out.Fin? && (out.s.steps > s.steps || HasActive(out.pending))
    decreases StmtsSize(stmts), 4, 0
  {
    hide ExecStmt, CoveredStmt, CoveredDefer, Idle, IdleStmt;
    CoveredMoreStmt(stmts[0], false, false);
    CoveredMore(stmts[1..], false, false);
    GrowStmt(Unlimited, n, stmts[0], pending, s);
    StayStmt(Stage, Unlimited, n, stmts[0], false, false, pending, s);
    PendedDefers(Unlimited, stmts[0], pending);
    var out := ExecStmt(Stage, Unlimited, n, stmts[0], pending, s);
    GrowStmts(Unlimited, n, stmts[1..], out.pending, out.s);
    if !IdleStmt(stmts[0]) {
      ActiveStmt(n, stmts[0], pending, s);
      if stmts[0].Defer? { assert stmts[0].expr in out.pending; }
    } else {
      ActiveStmts(n, stmts[1..], out.pending, out.s);
    }
  }

  lemma {:induction false} ActiveExpr(n: nat, e: Expr, pending: seq<Expr>, s: Script)
    requires CoveredExpr(e, false, false) && !Idle(e) && s.todo == []
    ensures var out := ExecExpr(Stage, Unlimited, n, e, pending, s); out.Fin? && out.s.steps > s.steps
    decreases ExprSize(e), 0, 0
  {
    hide ExecBlock, CoveredBlock, IdleBlock, Plain;
    if e.Unsafe? { ActiveBlock(n, e.body, s); }
  }

  lemma {:induction false} ActiveStmt(n: nat, st: Stmt, pending: seq<Expr>, s: Script)
    requires CoveredStmt(st, false, false) && !IdleStmt(st) && s.todo == []
    ensures
      var out := ExecStmt(Stage, Unlimited, n, st, pending, s);
      out.Fin? && if st.Defer? then out.pending == pending + [st.expr] && !Idle(st.expr) else out.s.steps > s.steps
    decreases StmtSize(st), 3, 0
  {
    hide ExecBlock, CoveredBlock, Plain, ExecExpr, CoveredExpr, CoveredDefer, Idle, IdleBlock;
    match st {
      case ExprStmt(e) => ActiveExpr(n, e, pending, s);
      case BlockStmt(b) => ActiveBlock(n, b, s);
      case If(e, _, els) =>
        if !els.NoStmt? {
          CoveredMoreStmt(els, false, false);
          GrowStmt(Unlimited, n, els, pending, Play(Test(e), s).s);
        }
      case _ =>
    }
  }

  // ---- scripts along which statements run to their end ----

  /** The defers that a scope registers on such a run. */
  function Live(stmts: seq<Stmt>): (r: seq<Expr>)
    ensures Deepest(r) <= StmtsSize(stmts)
  {
    if stmts == [] then []
    else
      var rest := if Passes(stmts[0]) then Live(stmts[1..]) else [];
      if stmts[0].Defer? then (DeepestAppend([stmts[0].expr], rest); [stmts[0].expr] + rest) else rest
  }

  function PathBlock(b: Block): seq<bool>
    decreases BlockSize(b), 3, 0
  {
    if b.NoBlock? then []
    else
      DeepestReverse(Live(b.stmts));
      PathAll(b.stmts) + PathTail(b) + PathList(Reverse(Live(b.stmts)))
  }

  function PathTail(b: Block): seq<bool>
    requires b.Block?
    decreases BlockSize(b), 2, 0
  {
    if PassesAll(b.stmts) && b.trailing.Unsafe? then (TailSmaller(b); PathBlock(b.trailing.body)) else []
  }

  lemma TailSmaller(b: Block)
    requires b.Block? && b.trailing.Unsafe?
    ensures BlockSize(b.trailing.body) < ExprSize(b.trailing) < BlockSize(b)
  {
    assert ExprSize(b.trailing) == 1 + BlockSize(b.trailing.body);
  }

  function PathList(es: seq<Expr>): seq<bool>
    decreases Deepest(es), 1, |es|
  {
    if es == [] then [] else PathDefer(es[0]) + PathList(es[1..])
  }

  function PathDefer(e: Expr): seq<bool>
    decreases ExprSize(e), 0, 0
  {
    if e.Unsafe? then PathBlock(e.body) else []
  }

  /** Through the statements up to the first one that does not pass, which jumps. */
  function PathAll(stmts: seq<Stmt>): seq<bool>
    decreases StmtsSize(stmts), 4, 0
  {
    if stmts == [] then [] else Path(stmts[0]) + if Passes(stmts[0]) then PathAll(stmts[1..]) else []
  }

  /** Where a statement passes, to its end; otherwise to one of its jumps. */
  function Path(st: Stmt): seq<bool>
    decreases StmtSize(st), 3, 0
  {
    match st
    case ExprStmt(e) => PathDefer(e)
    case BlockStmt(b) => PathBlock(b)
    case If(_, t, e) => if PassesBlock(t) || !Passes(e) then [true] + PathBlock(t) else [false] + Path(e)
    case While(_, _) => [false]
    case For(_, _, _, _) => [false]
    case _ => []
  }

  predicate Reached(out: Outcome<Script>, passes: bool, n: nat, rest: seq<bool>) {
    out.Fin? && (out.exit.Normal? <==> passes) && out.s.todo == rest && out.left == n
  }

  lemma {:induction false} LiveDefers(stmts: seq<Stmt>)
    requires CoveredStmts(stmts, true, true)
    ensures AllDefers(Live(stmts))
  {
    hide CoveredDefer, CoveredBlock, CoveredExpr, Plain;
    if stmts != [] { LiveDefers(stmts[1..]); }
  }

  lemma {:induction false} PathAllWorks(n: nat, stmts: seq<Stmt>, pending: seq<Expr>, s: Script, rest: seq<bool>)
    requires CoveredStmts(stmts, true, true) && s.todo == PathAll(stmts) + rest
    ensures
      var out := ExecStmts(Stage, Unlimited, n, stmts, pending, s);
      Reached(out, PassesAll(stmts), n, rest) && out.pending == pending + Live(stmts)
    decreases StmtsSize(stmts), 4, 0
  {
    hide ExecStmt, CoveredStmt, Passes, Path, PathAll, Live;
    if stmts == [] {
      NoPath();
      assert pending + [] == pending;
    } else {
      var tail := (if Passes(stmts[0]) then PathAll(stmts[1..]) else []) + rest;
      PathStep(stmts, pending, rest);
      PathWorks(n, stmts[0], pending, s, tail);
      var out := ExecStmt(Stage, Unlimited, n, stmts[0], pending, s);
      if Passes(stmts[0]) { PathAllWorks(n, stmts[1..], out.pending, out.s, rest); }
    }
  }

  lemma NoPath()
    ensures PathAll([]) == [] && Live([]) == []
    ensures forall rest: seq<bool> :: [] + rest == rest
  {
  }

  lemma PathStep(stmts: seq<Stmt>, pending: seq<Expr>, rest: seq<bool>)
    requires stmts != []
    ensures PathAll(stmts) + rest == Path(stmts[0]) + ((if Passes(stmts[0]) then PathAll(stmts[1..]) else []) + rest)
    ensures if Passes(stmts[0]) then Pended(Unlimited, stmts[0], pending) + Live(stmts[1..]) == pending + Live(stmts)
            else pending + Live(stmts) == pending && !stmts[0].Defer?
  {
    hide *;
    if Passes(stmts[0]) { PassLive(stmts, pending); } else { JumpLive(stmts, pending); }
    PathParts(stmts);
    Regroup(Path(stmts[0]), if Passes(stmts[0]) then PathAll(stmts[1..]) else [], rest);
  }

  lemma PathParts(stmts: seq<Stmt>)
    requires stmts != []
    ensures PathAll(stmts) == Path(stmts[0]) + if Passes(stmts[0]) then PathAll(stmts[1..]) else []
  {
    hide Path, Passes;
  }

  lemma Regroup(a: seq<bool>, b: seq<bool>, c: seq<bool>)
    ensures (a + b) + c == a + (b + c)
  {
  }

  lemma PassLive(stmts: seq<Stmt>, pending: seq<Expr>)
    requires stmts != [] && Passes(stmts[0])
    ensures Pended(Unlimited, stmts[0], pending) + Live(stmts[1..]) == pending + Live(stmts)
  {
    hide Deepest;
  }

  lemma JumpLive(stmts: seq<Stmt>, pending: seq<Expr>)
    requires stmts != [] && !Passes(stmts[0])
    ensures Live(stmts) == [] && pending + Live(stmts) == pending && !stmts[0].Defer?
  {
  }

  lemma {:induction false} PathBlockWorks(n: nat, b: Block, s: Script, rest: seq<bool>)
    requires CoveredBlock(b, true, true) && s.todo == PathBlock(b) + rest
    ensures Reached(ExecBlock(Stage, Unlimited, n, b, s), PassesBlock(b), n, rest)
    decreases BlockSize(b), 3, 0
  {
    hide ExecStmts, CoveredStmts, CoveredExpr, RunAll, CoveredDefer, PathAll, PathTail, PathList, Live, LeaveScope, PassesAll, ExecExpr;
    var ends := PathList(Reverse(Live(b.stmts)));
    assert s.todo == PathAll(b.stmts) + (PathTail(b) + (ends + rest));
    PathAllWorks(n, b.stmts, [], s, PathTail(b) + (ends + rest));
    var out := ExecStmts(Stage, Unlimited, n, b.stmts, [], s);
    assert [] + Live(b.stmts) == Live(b.stmts);
    LiveDefers(b.stmts);
    PathTailWorks(n, b, out, ends + rest);
    var last := if out.exit.Normal? && b.trailing != NoExpr
                then Prefix(out.log, ExecExpr(Stage, Unlimited, n, b.trailing, out.pending, out.s)) else out;
    PathLeave(n, last, rest);
  }

  /** The trailing expression of a block whose statements ended with `out`. */
  lemma {:induction false} PathTailWorks(n: nat, b: Block, out: Outcome<Script>, rest: seq<bool>)
    requires CoveredBlock(b, true, true) && Reached(out, PassesAll(b.stmts), n, PathTail(b) + rest)
    ensures
      var last := if out.exit.Normal? && b.trailing != NoExpr
                  then ExecExpr(Stage, Unlimited, n, b.trailing, out.pending, out.s) else out;
      Reached(last, PassesBlock(b), n, rest) && last.pending == out.pending
    decreases BlockSize(b), 2, 0
  {
    hide CoveredStmts, PathBlock, ExecBlock, Plain, PassesAll;
    if out.exit.Normal? && b.trailing.Unsafe? {
      TailSmaller(b);
      PathBlockWorks(n, b.trailing.body, out.s, rest);
    } else {
      assert PathTail(b) + rest == rest;
    }
  }

  lemma {:induction false} PathLeave(n: nat, out: Outcome<Script>, rest: seq<bool>)
    requires out.Fin? && out.left == n && AllDefers(out.pending) && out.s.todo == PathList(Reverse(out.pending)) + rest
    ensures Reached(LeaveScope(Stage, Unlimited, out), out.exit.Normal?, n, rest)
    decreases if out.Fin? then Deepest(out.pending) else 0, 2, 0
  {
    hide RunAll, CoveredDefer, PathList;
    ReverseMembers(out.pending);
    DeepestReverse(out.pending);
    PathListWorks(n, Reverse(out.pending), out.s, rest);
  }

  lemma {:induction false} PathListWorks(n: nat, es: seq<Expr>, s: Script, rest: seq<bool>)
    requires AllDefers(es) && s.todo == PathList(es) + rest
    ensures Reached(RunAll(Stage, Unlimited, n, es, s), true, n, rest)
    decreases Deepest(es), 1, |es|
  {
    hide RunDeferred, CoveredDefer, PathDefer;
    if es == [] {
      assert s.todo == rest;
    } else {
      assert s.todo == PathDefer(es[0]) + (PathList(es[1..]) + rest);
      PathOneWorks(n, es[0], s, PathList(es[1..]) + rest);
      PathListWorks(n, es[1..], RunDeferred(Stage, Unlimited, n, es[0], s).s, rest);
    }
  }

  lemma {:induction false} PathOneWorks(n: nat, e: Expr, s: Script, rest: seq<bool>)
    requires CoveredDefer(e) && s.todo == PathDefer(e) + rest
    ensures var out := RunDeferred(Stage, Unlimited, n, e, s); out.Fin? && out.s.todo == rest && out.left == n
    decreases ExprSize(e), 0, 0
  {
    hide ExecBlock, CoveredBlock, PathBlock;
    if e.Unsafe? {
      DeferredCovered(e);
      PathBlockWorks(n, e.body, s, rest);
    } else {
      assert s.todo == rest;
    }
  }

  lemma {:induction false} PathWorks(n: nat, st: Stmt, pending: seq<Expr>, s: Script, rest: seq<bool>)
    requires CoveredStmt(st, true, true) && s.todo == Path(st) + rest
    ensures Reached(ExecStmt(Stage, Unlimited, n, st, pending, s), Passes(st), n, rest)
    decreases StmtSize(st), 3, 0
  {
    hide ExecBlock, CoveredBlock, Plain, CoveredDefer, PathBlock, PassesBlock;
    assert Path(st) == [] ==> s.todo == rest;
    match st {
      case ExprStmt(e) =>
        if e.Unsafe? {
          assert ExprSize(e) == 1 + BlockSize(e.body);
          PathBlockWorks(n, e.body, s, rest);
        }
      case BlockStmt(b) => PathBlockWorks(n, b, s, rest);
      case If(c, t, e) => PathIfWorks(n, st, pending, s, rest);
      case While(_, _) => assert s.todo[1..] == rest;
      case For(_, _, _, _) => assert s.todo[1..] == rest;
      case _ =>
    }
  }

  lemma {:induction false} PathIfWorks(n: nat, st: Stmt, pending: seq<Expr>, s: Script, rest: seq<bool>)
    requires st.If? && CoveredStmt(st, true, true) && s.todo == Path(st) + rest
    ensures Reached(ExecStmt(Stage, Unlimited, n, st, pending, s), Passes(st), n, rest)
    decreases StmtSize(st), 2, 0
  {
    hide ExecBlock, CoveredBlock, Plain, CoveredDefer, PathBlock, PassesBlock;
    var s' := Play(Test(st.cond), s).s;
    if PassesBlock(st.thn) || !Passes(st.els) {
      assert s'.todo == PathBlock(st.thn) + rest;
      PathBlockWorks(n, st.thn, s', rest);
    } else {
      assert s'.todo == Path(st.els) + rest;
      if st.els.NoStmt? { assert s'.todo == rest; } else { PathWorks(n, st.els, pending, s', rest); }
    }
  }

  // ---- idle blocks are good and have an empty path ----

  lemma {:induction false} IdleGood(e: Expr)
    requires Idle(e)
    ensures GoodCopy(e)
    decreases ExprSize(e), 0, 0
  {
    IdleGoodBlock(e.body);
  }

  lemma {:induction false} IdleGoodBlock(b: Block)
    requires IdleBlock(b)
    ensures GoodBlock(b)
    decreases BlockSize(b), 3, 0
  {
    hide Steady, GoodDefers, IdleStmts, PassesAll, Idle, IdleBlock;
    IdleParts(b);
    IdleGoodStmts(b.stmts, 0);
    if b.trailing.Unsafe? { IdleGood(b.trailing); }
  }

  lemma IdleParts(b: Block)
    requires IdleBlock(b)
    ensures b.Block? && IdleStmts(b.stmts) && (b.trailing.Unsafe? ==> Idle(b.trailing))
    ensures b.trailing.Unsafe? || b.trailing == NoExpr
  {
  }

  lemma {:induction false} IdleGoodStmts(stmts: seq<Stmt>, k: nat)
    requires IdleStmts(stmts)
    ensures Steady(stmts, k) && GoodDefers(stmts)
    decreases StmtsSize(stmts), 4, 0
  {
    hide GoodBlock, Idle, IdleBlock, Passes, GoodCopy;
    if stmts != [] {
      assert StmtSize(stmts[0]) <= StmtsSize(stmts);
      match stmts[0] {
        case ExprStmt(e) => IdleGood(e); GoodCopyIs(e);
        case Defer(e) => IdleGood(e);
        case BlockStmt(b) => IdleGoodBlock(b);
      }
      IdleGoodStmts(stmts[1..], if stmts[0].Defer? then k + 1 else k);
    }
  }

  lemma GoodCopyIs(e: Expr)
    requires GoodCopy(e)
    ensures e.Unsafe? ==> GoodBlock(e.body)
  {
    hide GoodBlock;
  }

  lemma {:induction false} PathIdle(e: Expr)
    requires Idle(e)
    ensures PathDefer(e) == []
    decreases ExprSize(e), 0, 0
  {
    PathIdleBlock(e.body);
  }

  lemma {:induction false} PathIdleBlock(b: Block)
    requires IdleBlock(b)
    ensures PathBlock(b) == []
    decreases BlockSize(b), 3, 0
  {
    hide PathAll, PathList, Live, IdleStmts, Idle, IdleBlock, PassesAll;
    IdleParts(b);
    PathIdleStmts(b.stmts);
    if b.trailing.Unsafe? {
      TailSmaller(b);
      PathIdle(b.trailing);
    }
    ReverseMembers(Live(b.stmts));
    DeepestReverse(Live(b.stmts));
    PathIdleList(Reverse(Live(b.stmts)));
  }

  lemma {:induction false} PathIdleStmts(stmts: seq<Stmt>)
    requires IdleStmts(stmts)
    ensures PathAll(stmts) == [] && AllIdle(Live(stmts))
    decreases StmtsSize(stmts), 4, 0
  {
    hide PathBlock, Idle, IdleBlock, Passes, PathDefer;
    if stmts != [] {
      assert StmtSize(stmts[0]) <= StmtsSize(stmts);
      match stmts[0] {
        case ExprStmt(e) => PathIdle(e);
        case BlockStmt(b) => PathIdleBlock(b);
        case _ =>
      }
      PathIdleStmts(stmts[1..]);
    }
  }

  lemma {:induction false} PathIdleList(es: seq<Expr>)
    requires AllIdle(es)
    ensures PathList(es) == []
    decreases Deepest(es), 1, |es|
  {
    hide Idle, PathDefer;
    if es != [] {
      PathIdle(es[0]);
      PathIdleList(es[1..]);
    }
  }

  // ---- scripts that lead to a dropped defer ----

  function WitnessBlock(b: Block): seq<bool>
    decreases BlockSize(b), 3, 0
  {
    if b.NoBlock? then []
    else if !Steady(b.stmts, 0) then WitnessScope(b.stmts, 0)
    else if BadTail(b) then (TailSmaller(b); PathAll(b.stmts) + WitnessBlock(b.trailing.body))
    else
      DeepestReverse(Live(b.stmts));
      PathAll(b.stmts) + PathTail(b) + WitnessList(Reverse(Live(b.stmts)))
  }

  predicate BadTail(b: Block)
    requires b.Block?
  {
    PassesAll(b.stmts) && b.trailing.Unsafe? && !GoodBlock(b.trailing.body)
  }

  function WitnessScope(stmts: seq<Stmt>, k: nat): seq<bool>
    decreases StmtsSize(stmts), 4, 0
  {
    if stmts == [] || (stmts[0].Defer? && k >= MaxDefersPerBlock && !Idle(stmts[0].expr)) then []
    else if !GoodStmt(stmts[0]) then Witness(stmts[0])
    else Path(stmts[0]) + WitnessScope(stmts[1..], if stmts[0].Defer? then k + 1 else k)
  }

  function Witness(st: Stmt): seq<bool>
    decreases StmtSize(st), 3, 0
  {
    match st
    case ExprStmt(e) => WitnessCopy(e)
    case BlockStmt(b) => WitnessBlock(b)
    case If(_, t, e) => if !GoodBlock(t) then [true] + WitnessBlock(t) else [false] + Witness(e)
    case While(_, b) => [true] + WitnessBlock(b)
    case For(_, _, _, b) => [true] + WitnessBlock(b)
    case _ => []
  }

  function WitnessCopy(e: Expr): seq<bool>
    decreases ExprSize(e), 0, 0
  {
    if e.Unsafe? then WitnessBlock(e.body) else []
  }

  /** Up to the first defer of the list that is not good. */
  function WitnessList(es: seq<Expr>): seq<bool>
    decreases Deepest(es), 1, |es|
  {
    if es == [] then [] else if !GoodCopy(es[0]) then WitnessCopy(es[0]) else PathDefer(es[0]) + WitnessList(es[1..])
  }

  /** The uncapped run is ahead, or holds a defer that the capped one dropped and that does something. */
  ghost predicate Lead(c: Outcome<Script>, u: Outcome<Script>) {
    && Ahead(c, u, 0) && c.pending == Kept(u.pending) && AllDefers(u.pending)
    && (Ahead(c, u, 1) || HasActive(u.pending[|c.pending|..]))
  }

  lemma {:induction false} StrictScope(n: nat, stmts: seq<Stmt>, p: seq<Expr>, s: Script)
    requires CoveredStmts(stmts, true, true) && !Steady(stmts, |p|) && Tame(p) && AllDefers(p)
    requires s.todo == WitnessScope(stmts, |p|) && |s.todo| <= n
    ensures Lead(ExecStmts(Stage, Cap, n, stmts, Kept(p), s), ExecStmts(Stage, Unlimited, n, stmts, p, s))
    decreases StmtsSize(stmts), 4, 0
  {
    hide ExecStmt, CoveredStmt, CoveredDefer, Idle, Passes, GoodStmt, Path, Witness, Lead, Tame;
    var st := stmts[0];
    PendedDefers(Unlimited, st, p);
    if st.Defer? && |p| >= MaxDefersPerBlock && !Idle(st.expr) {
      StrictDrop(n, stmts, p, s);
    } else if !GoodStmt(st) {
      StrictRest(n, stmts, p, s);
    } else {
      var k := if st.Defer? then |p| + 1 else |p|;
      CapIdleStmt(Stage, n, st, p, s);
      PathWorks(n, st, p, s, WitnessScope(stmts[1..], k));
      var u := ExecStmt(Stage, Unlimited, n, st, p, s);
      StrictScope(n, stmts[1..], u.pending, u.s);
      PrefixLead(n, stmts, p, s);
    }
  }

  /** The lead of the rest of a scope is the lead of the scope. */
  lemma {:induction false} PrefixLead(n: nat, stmts: seq<Stmt>, p: seq<Expr>, s: Script)
    requires stmts != []
    requires
      var c, u := ExecStmt(Stage, Cap, n, stmts[0], Kept(p), s), ExecStmt(Stage, Unlimited, n, stmts[0], p, s);
      && Agree(c, u) && u.Fin? && u.exit.Normal?
      && Lead(ExecStmts(Stage, Cap, u.left, stmts[1..], Kept(u.pending), u.s),
              ExecStmts(Stage, Unlimited, u.left, stmts[1..], u.pending, u.s))
    ensures Lead(ExecStmts(Stage, Cap, n, stmts, Kept(p), s), ExecStmts(Stage, Unlimited, n, stmts, p, s))
  {
    hide ExecStmt, CoveredDefer, Idle, HasActive, Tame, Kept;
  }

  /** A defer that does something is dropped: the uncapped run will have it to run at the end. */
  lemma {:induction false} StrictDrop(n: nat, stmts: seq<Stmt>, p: seq<Expr>, s: Script)
    requires CoveredStmts(stmts, true, true) && AllDefers(p) && s.todo == []
    requires stmts != [] && stmts[0].Defer? && |p| >= MaxDefersPerBlock && !Idle(stmts[0].expr)
    ensures Lead(ExecStmts(Stage, Cap, n, stmts, Kept(p), s), ExecStmts(Stage, Unlimited, n, stmts, p, s))
  {
    hide ExecStmts, CoveredStmts, CoveredStmt, CoveredDefer, HasActive, Kept, Idle, Lead, RunAll, Pended;
    var e := stmts[0].expr;
    CoveredHead(stmts);
    DropStep(n, stmts, p, s);
    PendedIs(e, p);
    PendedDefers(Unlimited, stmts[0], p);
    LockStmts(n, stmts[1..], p + [e], s, s, 0);
    var c, u := ExecStmts(Stage, Cap, n, stmts[1..], Kept(p), s), ExecStmts(Stage, Unlimited, n, stmts[1..], p + [e], s);
    DroppedThere(p, e, u.pending);
    LeadIs(c, u, ExecStmts(Stage, Cap, n, stmts, Kept(p), s), ExecStmts(Stage, Unlimited, n, stmts, p, s));
  }

  lemma CoveredHead(stmts: seq<Stmt>)
    requires stmts != [] && CoveredStmts(stmts, true, true)
    ensures CoveredStmt(stmts[0], true, true) && CoveredStmts(stmts[1..], true, true)
  {
    hide CoveredStmt;
  }

  lemma PendedIs(e: Expr, p: seq<Expr>)
    ensures Pended(Unlimited, Defer(e), p) == p + [e]
  {
  }

  /** Two outcomes that say the same but for their logs. */
  lemma LeadIs(c: Outcome<Script>, u: Outcome<Script>, c': Outcome<Script>, u': Outcome<Script>)
    requires Ahead(c, u, 0) && c.pending == Kept(u.pending) && AllDefers(u.pending) && HasActive(u.pending[|Kept(u.pending)|..])
    requires c'.Fin? && u'.Fin? && c'.(log := c.log) == c && u'.(log := u.log) == u
    ensures Lead(c', u')
  {
    hide HasActive, Kept, CoveredDefer;
  }

  lemma {:induction false} DropStep(n: nat, stmts: seq<Stmt>, p: seq<Expr>, s: Script)
    requires stmts != [] && stmts[0].Defer? && |p| >= MaxDefersPerBlock
    ensures
      var e := stmts[0].expr;
      && stmts[0] == Defer(e) && Kept(p + [e]) == Kept(p) && Behind(s, s, 0) == (s.todo == [])
      && ExecStmts(Stage, Cap, n, stmts, Kept(p), s) == Prefix([], ExecStmts(Stage, Cap, n, stmts[1..], Kept(p), s))
      && ExecStmts(Stage, Unlimited, n, stmts, p, s)
         == Prefix([Registered(e)], ExecStmts(Stage, Unlimited, n, stmts[1..], p + [e], s))
    ensures forall log, out: Outcome<Script> :: out.Fin? ==> Prefix(log, out).Fin? && Prefix(log, out).(log := out.log) == out
  {
    var q := p + [stmts[0].expr];
    assert q[..MaxDefersPerBlock] == p[..MaxDefersPerBlock];
  }

  lemma DroppedThere(p: seq<Expr>, e: Expr, all: seq<Expr>)
    requires |p| >= MaxDefersPerBlock && p + [e] <= all && !Idle(e)
    ensures HasActive(all[|Kept(all)|..])
  {
    hide Idle;
    assert all[|p|] == e && all[MaxDefersPerBlock..][|p| - MaxDefersPerBlock] == e;
  }

  /** A statement that is not good, and what comes after it. */
  lemma {:induction false} StrictRest(n: nat, stmts: seq<Stmt>, p: seq<Expr>, s: Script)
    requires CoveredStmts(stmts, true, true) && AllDefers(p) && stmts != [] && !GoodStmt(stmts[0])
    requires s.todo == Witness(stmts[0]) && |s.todo| <= n
    ensures Lead(ExecStmts(Stage, Cap, n, stmts, Kept(p), s), ExecStmts(Stage, Unlimited, n, stmts, p, s))
    decreases StmtsSize(stmts), 3, 1
  {
    hide ExecStmt, CoveredStmt, CoveredDefer, Idle, Witness, HasActive, Kept;
    assert !stmts[0].Defer?;
    StrictStmt(n, stmts[0], p, s);
    var c, u := ExecStmt(Stage, Cap, n, stmts[0], Kept(p), s), ExecStmt(Stage, Unlimited, n, stmts[0], p, s);
    if c.exit.Normal? { LockStmts(c.left, stmts[1..], p, c.s, u.s, 1); }
  }

  lemma {:induction false} StrictBlock(n: nat, b: Block, s: Script)
    requires CoveredBlock(b, true, true) && !GoodBlock(b) && s.todo == WitnessBlock(b) && |s.todo| <= n
    ensures Ahead(ExecBlock(Stage, Cap, n, b, s), ExecBlock(Stage, Unlimited, n, b, s), 1)
    decreases BlockSize(b), 3, 0
  {
    hide ExecStmts, CoveredStmts, CoveredExpr, CoveredDefer, PathAll, PathTail, WitnessList, Live, LeaveScope, PassesAll, ExecExpr,
         Steady, GoodDefers, WitnessScope, Idle, Agree, BadTail;
    NoneTame();
    WhichBad(b);
    if !Steady(b.stmts, 0) {
      StrictScope(n, b.stmts, [], s);
      LeadTail(n, b, s);
    } else if BadTail(b) {
      StrictBadTail(n, b, s);
    } else {
      StrictEnds(n, b, s);
    }
  }

  lemma WhichBad(b: Block)
    requires b.Block? && !GoodBlock(b)
    ensures !Steady(b.stmts, 0) || BadTail(b) || !GoodDefers(b.stmts)
  {
    hide Steady, GoodDefers, PassesAll;
  }

  lemma {:induction false} LeadTail(n: nat, b: Block, s: Script)
    requires CoveredBlock(b, true, true)
    requires Lead(ExecStmts(Stage, Cap, n, b.stmts, [], s), ExecStmts(Stage, Unlimited, n, b.stmts, [], s))
    ensures Ahead(ExecBlock(Stage, Cap, n, b, s), ExecBlock(Stage, Unlimited, n, b, s), 1)
  {
    hide ExecStmts, CoveredStmts, CoveredExpr, CoveredDefer, LeaveScope, ExecExpr, HasActive, Kept;
    var oc, ou := ExecStmts(Stage, Cap, n, b.stmts, [], s), ExecStmts(Stage, Unlimited, n, b.stmts, [], s);
    LockTail(oc.left, b, oc, ou, if Ahead(oc, ou, 1) then 1 else 0);
  }

  /** The statements are good, the trailing block is not. */
  lemma {:induction false} StrictBadTail(n: nat, b: Block, s: Script)
    requires CoveredBlock(b, true, true) && Steady(b.stmts, 0) && BadTail(b)
    requires s.todo == PathAll(b.stmts) + WitnessBlock(b.trailing.body) && |s.todo| <= n
    ensures Ahead(ExecBlock(Stage, Cap, n, b, s), ExecBlock(Stage, Unlimited, n, b, s), 1)
    decreases BlockSize(b), 2, 0
  {
    hide ExecStmts, CoveredStmts, CoveredDefer, PathAll, Live, LeaveScope, PassesAll, Steady, Idle, WitnessBlock, ExecBlock,
         GoodBlock, Kept, CoveredBlock;
    CoveredParts(b);
    TailSmaller(b);
    NoneTame();
    CapIdleStmts(Stage, n, b.stmts, [], s);
    PathAllWorks(n, b.stmts, [], s, WitnessBlock(b.trailing.body));
    LiveDefers(b.stmts);
    var c, u := ExecStmts(Stage, Cap, n, b.stmts, [], s), ExecStmts(Stage, Unlimited, n, b.stmts, [], s);
    assert [] + Live(b.stmts) == Live(b.stmts);
    StrictBlock(n, b.trailing.body, u.s);
    var lc, lu := ExecExpr(Stage, Cap, n, b.trailing, c.pending, c.s), ExecExpr(Stage, Unlimited, n, b.trailing, u.pending, u.s);
    LockLeave(lc.left, Prefix(c.log, lc), Prefix(u.log, lu), 1);
    BlockIs(Cap, n, b, s);
    BlockIs(Unlimited, n, b, s);
  }

  lemma CoveredParts(b: Block)
    requires CoveredBlock(b, true, true)
    ensures b.Block? && CoveredStmts(b.stmts, true, true) && CoveredExpr(b.trailing, true, true)
    ensures b.trailing.Unsafe? ==> CoveredBlock(b.trailing.body, true, true)
  {
    hide CoveredStmts, Plain;
  }

  lemma {:induction false} BlockIs(lim: Limit, n: nat, b: Block, s: Script)
    requires b.Block? && ExecStmts(Stage, lim, n, b.stmts, [], s).Fin?
    ensures ExecBlock(Stage, lim, n, b, s) == Tail(lim, b, ExecStmts(Stage, lim, n, b.stmts, [], s))
  {
    hide ExecStmts, LeaveScope, ExecExpr;
  }

  /** Statements and trailing expression are good, but a deferred block is not. */
  lemma {:induction false} StrictEnds(n: nat, b: Block, s: Script)
    requires CoveredBlock(b, true, true) && Steady(b.stmts, 0) && !BadTail(b) && !GoodDefers(b.stmts)
    requires s.todo == PathAll(b.stmts) + PathTail(b) + WitnessList(Reverse(Live(b.stmts))) && |s.todo| <= n
    ensures Ahead(ExecBlock(Stage, Cap, n, b, s), ExecBlock(Stage, Unlimited, n, b, s), 1)
    decreases BlockSize(b), 2, 0
  {
    hide ExecStmts, CoveredStmts, CoveredDefer, PathAll, PathTail, Live, LeaveScope, PassesAll, Steady, Idle, WitnessList,
         GoodBlock, Kept, CoveredBlock, ExecExpr, CoveredExpr, GoodDefers, Tame, PassesBlock, ExecBlock;
    CoveredParts(b);
    NoneTame();
    var ends := WitnessList(Reverse(Live(b.stmts)));
    assert s.todo == PathAll(b.stmts) + (PathTail(b) + ends);
    CapIdleStmts(Stage, n, b.stmts, [], s);
    PathAllWorks(n, b.stmts, [], s, PathTail(b) + ends);
    LiveDefers(b.stmts);
    LiveBad(b.stmts);
    var c, u := ExecStmts(Stage, Cap, n, b.stmts, [], s), ExecStmts(Stage, Unlimited, n, b.stmts, [], s);
    assert [] + Live(b.stmts) == Live(b.stmts);
    PathTailWorks(n, b, u, ends);
    BlockIs(Cap, n, b, s);
    BlockIs(Unlimited, n, b, s);
    if u.exit.Normal? && b.trailing != NoExpr {
      CapIdleExpr(Stage, n, b.trailing, u.pending, u.s);
      var lu := ExecExpr(Stage, Unlimited, n, b.trailing, u.pending, u.s);
      StrictLeave(n, Prefix(c.log, ExecExpr(Stage, Cap, n, b.trailing, c.pending, c.s)), Prefix(u.log, lu));
    } else {
      StrictLeave(n, c, u);
    }
  }

  lemma AllGoodCons(e: Expr, rest: seq<Expr>)
    ensures AllGood([e] + rest) <==> GoodDefer(e) && AllGood(rest)
  {
    hide GoodDefer;
    assert e in [e] + rest;
    assert forall x :: x in rest ==> x in [e] + rest;
  }

  lemma {:induction false} LiveBad(stmts: seq<Stmt>)
    requires CoveredStmts(stmts, true, true)
    ensures GoodDefers(stmts) <==> AllGood(Live(stmts))
  {
    hide CoveredDefer, CoveredBlock, CoveredExpr, Plain, GoodCopy, PassesBlock;
    if stmts != [] {
      LiveBad(stmts[1..]);
      if stmts[0].Defer? {
        assert Live(stmts) == [stmts[0].expr] + Live(stmts[1..]);
        assert CoveredDefer(stmts[0].expr) && GoodRegistration(stmts[0]) == GoodCopy(stmts[0].expr);
        AllGoodCons(stmts[0].expr, Live(stmts[1..]));
      } else {
        assert GoodRegistration(stmts[0]);
        assert Live(stmts) == if Passes(stmts[0]) then Live(stmts[1..]) else [];
      }
    }
  }

  lemma {:induction false} StrictLeave(n: nat, c: Outcome<Script>, u: Outcome<Script>)
    requires Agree(c, u) && u.Fin? && u.left == n && AllDefers(u.pending) && !AllGood(u.pending)
    requires u.s.todo == WitnessList(Reverse(u.pending)) && |u.s.todo| <= n
    ensures Ahead(LeaveScope(Stage, Cap, c), LeaveScope(Stage, Unlimited, u), 1)
    decreases if u.Fin? then Deepest(u.pending) else 0, 2, 0
  {
    hide RunAll, CoveredDefer, Idle, GoodCopy, WitnessList;
    var kept := Kept(u.pending);
    var extra := u.pending[|kept|..];
    assert u.pending == kept + extra;
    ReverseAppend(kept, extra);
    ReverseMembers(extra);
    ReverseMembers(kept);
    DeepestAppend(kept, extra);
    DeepestReverse(kept);
    IdleAllRun(Stage, Unlimited, n, Reverse(extra), u.s);
    RunAllAppend(Stage, Unlimited, n, Reverse(extra), Reverse(kept), u.s);
    WitnessSkips(Reverse(extra), Reverse(kept));
    forall e | e in extra ensures GoodCopy(e) { IdleGood(e); }
    StrictList(n, Reverse(kept), u.s);
  }

  lemma {:induction false} WitnessSkips(a: seq<Expr>, b: seq<Expr>)
    requires AllIdle(a)
    ensures WitnessList(a + b) == WitnessList(b)
  {
    hide Idle, GoodCopy, PathDefer;
    if a == [] {
      assert a + b == b;
    } else {
      assert (a + b)[0] == a[0] && (a + b)[1..] == a[1..] + b;
      IdleGood(a[0]);
      PathIdle(a[0]);
      WitnessSkips(a[1..], b);
    }
  }

  lemma {:induction false} StrictList(n: nat, es: seq<Expr>, s: Script)
    requires AllDefers(es) && !AllGood(es) && s.todo == WitnessList(es) && |s.todo| <= n
    ensures Ahead(RunAll(Stage, Cap, n, es, s), RunAll(Stage, Unlimited, n, es, s), 1)
    decreases Deepest(es), 1, |es|
  {
    hide RunDeferred, CoveredDefer, GoodCopy, PathDefer, WitnessCopy;
    if !GoodCopy(es[0]) {
      StrictOne(n, es[0], s);
      var c, u := RunDeferred(Stage, Cap, n, es[0], s), RunDeferred(Stage, Unlimited, n, es[0], s);
      LockAll(c.left, es[1..], c.s, u.s, 1);
    } else {
      CapOne(Stage, n, es[0], s);
      PathOneWorks(n, es[0], s, WitnessList(es[1..]));
      StrictList(n, es[1..], RunDeferred(Stage, Unlimited, n, es[0], s).s);
    }
  }

  lemma {:induction false} StrictOne(n: nat, e: Expr, s: Script)
    requires CoveredDefer(e) && !GoodCopy(e) && s.todo == WitnessCopy(e) && |s.todo| <= n
    ensures Ahead(RunDeferred(Stage, Cap, n, e, s), RunDeferred(Stage, Unlimited, n, e, s), 1)
    decreases ExprSize(e), 0, 0
  {
    hide ExecBlock, CoveredBlock, GoodBlock, WitnessBlock;
    DeferredCovered(e);
    StrictBlock(n, e.body, s);
  }

  lemma {:induction false} StrictStmt(n: nat, st: Stmt, p: seq<Expr>, s: Script)
    requires CoveredStmt(st, true, true) && !GoodStmt(st) && s.todo == Witness(st) && |s.todo| <= n
    ensures Ahead(ExecStmt(Stage, Cap, n, st, Kept(p), s), ExecStmt(Stage, Unlimited, n, st, p, s), 1)
    decreases StmtSize(st), 3, 0
  {
    hide ExecBlock, CoveredBlock, Plain, CoveredDefer, GoodBlock, WitnessBlock, ExecLoop, Kept;
    match st {
      case ExprStmt(e) =>
        assert ExprSize(e) == 1 + BlockSize(e.body);
        StrictBlock(n, e.body, s);
      case BlockStmt(b) => StrictBlock(n, b, s);
      case If(e, t, els) =>
        var s' := Play(Test(e), s).s;
        if !GoodBlock(t) { StrictBlock(n, t, s'); } else { StrictStmt(n, els, p, s'); }
      case While(e, b) => StrictLoop(n, Test(e), b, None, p, s);
      case For(x, _, iter, b) =>
        StrictLoop(n, ForTest(x, RangeEnd(iter)), b, Some(ForStep(x)), p, Script(s.todo, s.steps + 1));
    }
  }

  lemma {:induction false} StrictLoop(n: nat, test: Action, b: Block, step: Option<Action>, p: seq<Expr>, s: Script)
    requires CoveredBlock(b, true, true) && !GoodBlock(b) && (test.Test? || test.ForTest?)
    requires (step.None? || step.value.ForStep?) && s.todo == [true] + WitnessBlock(b) && |s.todo| <= n
    ensures Ahead(ExecLoop(Stage, Cap, n, test, b, step, Kept(p), s), ExecLoop(Stage, Unlimited, n, test, b, step, p, s), 1)
    decreases BlockSize(b), 4, 0
  {
    hide ExecBlock, CoveredBlock, GoodBlock, WitnessBlock, Kept;
    var s' := Play(test, s).s;
    assert s'.todo == WitnessBlock(b);
    StrictBlock(n - 1, b, s');
  }

  // ---- whole bodies ----

  /** What a function body is left with before its defers run. */
  function Ending(b: Block, out: Outcome<Script>): Outcome<Script>
    requires b.Block?
  {
    if out.Fin? && out.exit.Normal? && b.trailing != NoExpr then out.(exit := Returned(b.trailing)) else out
  }

  lemma ConcludeSteps(out: Outcome<Script>)
    requires out.Fin? && (out.exit.Normal? || out.exit.Returned?)
    ensures
      var final := Conclude(Stage, out);
      && final.Completed?
      && final.s.steps == out.s.steps + if out.exit.Returned? && out.exit.value != NoExpr then 1 else 0
  {
  }

  lemma Differ(x: COutcome<Script, bool>, c: Outcome<Script>, u: Outcome<Script>)
    requires Ahead(c, u, 1) && (c.exit.Normal? || c.exit.Returned?) && Same(x, Conclude(Stage, c))
    ensures !Same(x, Conclude(Stage, u))
  {
    ConcludeSteps(c);
    ConcludeSteps(u);
  }

  /** The emitted code returns before the defers, which take a step. */
  lemma DifferSkip(b: Block, c: Outcome<Script>, u: Outcome<Script>)
    requires b.Block? && b.trailing != NoExpr && c.Fin? && u.Fin? && u.exit == Returned(b.trailing)
    requires u.s.steps > c.s.steps
    ensures !Same(CJumpOut(Stage, c.left, b.trailing, c.s), Conclude(Stage, u))
  {
    ConcludeSteps(u);
  }

  lemma LeadEnds(b: Block, c: Outcome<Script>, u: Outcome<Script>)
    requires b.Block? && Lead(c, u)
    ensures
      var lc, lu := LeaveScope(Stage, Cap, Ending(b, c)), LeaveScope(Stage, Unlimited, Ending(b, u));
      Ahead(lc, lu, 1) && lu.s.steps > c.s.steps && lu.exit == Ending(b, u).exit && lc.exit == Ending(b, c).exit
  {
    hide RunAll, CoveredDefer, LeaveScope, HasActive;
    LockLeave(c.left, Ending(b, c), Ending(b, u), if Ahead(c, u, 1) then 1 else 0);
    ActiveLeave(u.left, Ending(b, u));
    ActiveExtra(u.pending, |c.pending|);
  }

  lemma ActiveExtra(p: seq<Expr>, k: nat)
    requires k <= |p|
    ensures HasActive(p[k..]) ==> HasActive(p)
  {
    hide Idle;
    if HasActive(p[k..]) {
      var e :| e in p[k..] && !Idle(e);
      assert e in p;
    }
  }

  lemma {:induction false} DroppedDefer(b: Block) returns (n: nat, s: Script)
    requires CoveredBody(b) && !Steady(b.stmts, 0)
    ensures !Same(CRun(Stage, n, LowerBody(b), s), ExecBody(Stage, Unlimited, n, b, s))
  {
    hide ExecStmts, CoveredStmts, CoveredDefer, CoveredExpr, LeaveScope, Same, Conclude, LowerBody, WitnessScope, Steady, Lead,
         CJumpOut;
    s := Script(WitnessScope(b.stmts, 0), 0);
    n := |s.todo|;
    CoveredMoreBlock(b, false, true);
    NoneTame();
    StrictScope(n, b.stmts, [], s);
    StayStmts(Stage, Cap, n, b.stmts, false, true, [], s);
    BodyLowering(Stage, n, b, s);
    var c, u := ExecStmts(Stage, Cap, n, b.stmts, [], s), ExecStmts(Stage, Unlimited, n, b.stmts, [], s);
    LeadParts(c, u);
    LeadEnds(b, c, u);
    if SkipsDefers(b, c) {
      DifferSkip(b, c, LeaveScope(Stage, Unlimited, Ending(b, u)));
    } else {
      Differ(CRun(Stage, n, LowerBody(b), s), LeaveScope(Stage, Cap, Ending(b, c)), LeaveScope(Stage, Unlimited, Ending(b, u)));
    }
  }

  lemma LeadParts(c: Outcome<Script>, u: Outcome<Script>)
    requires Lead(c, u)
    ensures c.Fin? && u.Fin? && c.exit == u.exit
  {
  }

  lemma {:induction false} SkippedDefer(b: Block) returns (n: nat, s: Script)
    requires CoveredBody(b) && Steady(b.stmts, 0)
    requires b.trailing != NoExpr && PassesAll(b.stmts) && !Quiet(b.stmts)
    ensures !Same(CRun(Stage, n, LowerBody(b), s), ExecBody(Stage, Unlimited, n, b, s))
  {
    hide ExecStmts, CoveredStmts, CoveredDefer, CoveredExpr, LeaveScope, Same, Conclude, LowerBody, Steady, CJumpOut, PathAll,
         PassesAll, Quiet, Live, Idle;
    s := Script(PathAll(b.stmts), 0);
    n := 0;
    CoveredMoreBlock(b, false, true);
    NoneTame();
    assert s.todo == PathAll(b.stmts) + [];
    PathAllWorks(n, b.stmts, [], s, []);
    CapIdleStmts(Stage, n, b.stmts, [], s);
    BodyLowering(Stage, n, b, s);
    LiveDefers(b.stmts);
    NotQuiet(b.stmts);
    assert [] + Live(b.stmts) == Live(b.stmts);
    var c, u := ExecStmts(Stage, Cap, n, b.stmts, [], s), ExecStmts(Stage, Unlimited, n, b.stmts, [], s);
    ActiveLeave(n, Ending(b, u));
    DifferSkip(b, c, LeaveScope(Stage, Unlimited, Ending(b, u)));
  }

  lemma {:induction false} NotQuiet(stmts: seq<Stmt>)
    requires PassesAll(stmts) && !Quiet(stmts)
    ensures HasActive(Live(stmts)) && Kept(Live(stmts)) != []
  {
    hide Idle, Passes;
    if stmts[0].Defer? && !Idle(stmts[0].expr) {
      assert stmts[0].expr in Live(stmts);
    } else {
      NotQuiet(stmts[1..]);
      var e :| e in Live(stmts[1..]) && !Idle(e);
      assert e in Live(stmts);
    }
  }

  lemma {:induction false} BadDefer(b: Block) returns (n: nat, s: Script)
    requires CoveredBody(b) && Steady(b.stmts, 0) && !GoodDefers(b.stmts)
    requires b.trailing == NoExpr || !PassesAll(b.stmts)
    ensures !Same(CRun(Stage, n, LowerBody(b), s), ExecBody(Stage, Unlimited, n, b, s))
  {
    hide ExecStmts, CoveredStmts, CoveredDefer, CoveredExpr, LeaveScope, Same, Conclude, LowerBody, Steady, CJumpOut, PathAll,
         PassesAll, Live, Idle, WitnessList, GoodDefers, GoodDefer, Kept, Tame;
    var ends := WitnessList(Reverse(Live(b.stmts)));
    s := Script(PathAll(b.stmts) + ends, 0);
    n := |s.todo|;
    CoveredMoreBlock(b, false, true);
    NoneTame();
    PathAllWorks(n, b.stmts, [], s, ends);
    CapIdleStmts(Stage, n, b.stmts, [], s);
    BodyLowering(Stage, n, b, s);
    StayStmts(Stage, Cap, n, b.stmts, false, true, [], s);
    LiveDefers(b.stmts);
    LiveBad(b.stmts);
    assert [] + Live(b.stmts) == Live(b.stmts);
    var c, u := ExecStmts(Stage, Cap, n, b.stmts, [], s), ExecStmts(Stage, Unlimited, n, b.stmts, [], s);
    StrictLeave(n, Ending(b, c), Ending(b, u));
    Differ(CRun(Stage, n, LowerBody(b), s), LeaveScope(Stage, Cap, Ending(b, c)), LeaveScope(Stage, Unlimited, Ending(b, u)));
  }

  /** A body whose defers do nothing has only good ones. */
  lemma {:induction false} QuietGood(stmts: seq<Stmt>)
    requires Quiet(stmts)
    ensures GoodDefers(stmts)
  {
    hide Idle, GoodCopy, Passes;
    if stmts != [] {
      QuietGood(stmts[1..]);
      if stmts[0].Defer? { IdleGood(stmts[0].expr); }
    }
  }

  /** Defer lowering is right under every meaning of the expressions exactly for the good bodies. */
  lemma LoweringExact(b: Block)
    requires CoveredBody(b)
    ensures GoodBody(b) <==>
            forall m: Meaning<Script, bool>, n: nat, s ::
              Same(CRun(m, n, LowerBody(b), s), ExecBody(m, Unlimited, n, b, s))
  {
    if GoodBody(b) {
      forall m: Meaning<Script, bool>, n: nat, s
        ensures Same(CRun(m, n, LowerBody(b), s), ExecBody(m, Unlimited, n, b, s))
      {
        LoweringPreserves(m, n, b, s);
      }
    } else if !Steady(b.stmts, 0) {
      var n, s := DroppedDefer(b);
    } else if b.trailing != NoExpr && PassesAll(b.stmts) && !Quiet(b.stmts) {
      var n, s := SkippedDefer(b);
    } else {
      if b.trailing != NoExpr && PassesAll(b.stmts) { QuietGood(b.stmts); }
      var n, s := BadDefer(b);
    }
  }
}
