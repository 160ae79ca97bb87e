/** What the emitted code does with defers, over whole runs: every registration runs exactly once, the
    latest registration that has not run yet always first, so inner scopes run before outer ones. */
module DeferTrace {
  import opened Ast
  import opened Semantics
  import opened CTarget
  import opened Lowering
  import opened DeferCorrect
  import opened DeferExact

  /** The same meaning, which also writes down every action performed. */
  function Tracing<S, V>(m: Meaning<S, V>): Meaning<(S, seq<Action>), V> {
    Meaning(
      (a: Action, st: (S, seq<Action>)) =>
        match m.run(a, st.0)
        case Done(s, v) => Done((s, st.1 + [a]), v)
        case Halted(s) => Halted((s, st.1 + [a])),
      m.truth, m.arm)
  }

  /** The actions of a log: a registration is not an action, running a defer evaluates it; the actions of a
      deferred block follow by themselves. */
  function Actions(log: seq<Event>): seq<Action> {
    if log == [] then []
    else
      (match log[0]
       case Registered(_) => []
       case Ran(e) => if e.Unsafe? then [] else [Discard(e)]
       case Did(a) => [a])
      + Actions(log[1..])
  }

  /** Reads a log with the stack of registrations that have not run; a run must take the top. */
  function Scan(log: seq<Event>, stack: seq<Expr>): Option<seq<Expr>> {
    if log == [] then Some(stack)
    else
      match log[0]
      case Registered(e) => Scan(log[1..], stack + [e])
      case Did(_) => Scan(log[1..], stack)
      case Ran(e) =>
        if stack != [] && Last(stack) == e then Scan(log[1..], Front(stack)) else None
  }

  function Registrations(log: seq<Event>, e: Expr): nat {
    if log == [] then 0 else (if log[0] == Registered(e) then 1 else 0) + Registrations(log[1..], e)
  }

  function Runs(log: seq<Event>, e: Expr): nat {
    if log == [] then 0 else (if log[0] == Ran(e) then 1 else 0) + Runs(log[1..], e)
  }

  lemma {:induction false} ScanAppend(a: seq<Event>, b: seq<Event>, stack: seq<Expr>)
    ensures Scan(a + b, stack) == var r := Scan(a, stack); if r.Some? then Scan(b, r.value) else None
  {
    if a == [] {
      assert a + b == b;
    } else {
      assert (a + b)[0] == a[0] && (a + b)[1..] == a[1..] + b;
      match a[0] {
        case Registered(e) => ScanAppend(a[1..], b, stack + [e]);
        case Did(_) => ScanAppend(a[1..], b, stack);
        case Ran(e) => if stack != [] { ScanAppend(a[1..], b, Front(stack)); }
      }
    }
  }

  lemma {:induction false} ActionsAppend(a: seq<Event>, b: seq<Event>)
    ensures Actions(a + b) == Actions(a) + Actions(b)
  {
    if a == [] {
      assert a + b == b;
    } else {
      assert (a + b)[0] == a[0] && (a + b)[1..] == a[1..] + b;
      ActionsAppend(a[1..], b);
    }
  }

  /** A stack emptied by a log saw as many runs of each expression as registrations. */
  lemma {:induction false} ScanCounts(log: seq<Event>, stack: seq<Expr>, e: Expr)
    requires Scan(log, stack) == Some([])
    ensures Runs(log, e) == Registrations(log, e) + multiset(stack)[e]
  {
    if log != [] {
      var rest := log[1..];
      if log[0].Registered? {
        assert multiset(stack + [log[0].expr])[e] == multiset(stack)[e] + if log[0].expr == e then 1 else 0;
        ScanCounts(rest, stack + [log[0].expr], e);
      } else if log[0].Did? {
        ScanCounts(rest, stack, e);
      } else {
        assert stack == Front(stack) + [log[0].expr];
        assert multiset(stack)[e] == multiset(Front(stack))[e] + if log[0].expr == e then 1 else 0;
        ScanCounts(rest, Front(stack), e);
      }
    }
  }

  /** Everything a log must say of an outcome: from the stack `base + pending` it leads to
      `base + out.pending`, and it accounts for every traced action. */
  ghost predicate Accounts<S>(out: Outcome<(S, seq<Action>)>, base: seq<Expr>, pending: seq<Expr>, s: (S, seq<Action>)) {
    out.Fin? ==>
      && Scan(out.log, base + pending) == Some(base + out.pending)
      && out.s.1 == s.1 + Actions(out.log)
  }

  lemma Chain<S>(first: Outcome<(S, seq<Action>)>, second: Outcome<(S, seq<Action>)>, base: seq<Expr>, pending: seq<Expr>,
                 s: (S, seq<Action>))
    requires first.Fin? && Accounts(first, base, pending, s) && Accounts(second, base, first.pending, first.s)
    ensures Accounts(Prefix(first.log, second), base, pending, s)
  {
    if second.Fin? {
      ScanAppend(first.log, second.log, base + pending);
      ActionsAppend(first.log, second.log);
    }
  }

  lemma {:induction false} RunAllAccounts<S, V>(m: Meaning<S, V>, lim: Limit, n: nat, pending: seq<Expr>, base: seq<Expr>,
                                                s: (S, seq<Action>))
    requires AllDefers(pending)
    ensures Accounts(RunAll(Tracing(m), lim, n, Reverse(pending), s), base, pending, s)
    decreases n, Deepest(pending), 1, |pending|
  {
    hide Tracing, RunDeferred, Scan, Actions, CoveredDefer;
    var t := Tracing(m);
    if pending == [] {
      NothingAccounts(base, s.1);
    } else {
      var e, rest := Last(pending), Front(pending);
      assert pending == rest + [e];
      DeepestAppend(rest, [e]);
      assert Reverse(pending)[1..] == Reverse(rest);
      RunOneAccounts(m, lim, n, e, base, rest, s);
      var one := RunDeferred(t, lim, n, e, s);
      if one.Fin? {
        RunAllAccounts(m, lim, one.left, rest, base, one.s);
        var first := Fin(Normal, one.s, rest, [Ran(e)] + one.log, one.left);
        Chain(first, RunAll(t, lim, one.left, Reverse(rest), one.s), base, pending, s);
      }
    }
  }

  lemma NothingAccounts(base: seq<Expr>, s: seq<Action>)
    ensures Scan([], base + []) == Some(base + []) && s + Actions([]) == s
  {
  }

  /** Running the latest registration takes it off the stack. */
  lemma {:induction false} RunOneAccounts<S, V>(m: Meaning<S, V>, lim: Limit, n: nat, e: Expr, base: seq<Expr>,
                                                rest: seq<Expr>, s: (S, seq<Action>))
    requires CoveredDefer(e)
    ensures
      var one := RunDeferred(Tracing(m), lim, n, e, s);
      one.Fin? ==> Accounts(Fin(Normal, one.s, rest, [Ran(e)] + one.log, one.left), base, rest + [e], s)
    decreases n, ExprSize(e), 0, 0
  {
    hide ExecBlock, CoveredBlock, Scan, Actions;
    var one := RunDeferred(Tracing(m), lim, n, e, s);
    PopAccounts(e, base, rest);
    if e.Unsafe? {
      assert CoveredExpr(e, false, false);
      CoveredMoreBlock(e.body, false, false);
      BlockAccounts(m, lim, n, e.body, base + rest, s);
      if one.Fin? { PopThen(e, base, rest, one.log); }
    } else {
      assert one.Fin? ==> [Ran(e)] + one.log == [Ran(e)];
    }
  }

  /** The log of a deferred block after the block was taken off the stack. */
  lemma PopThen(e: Expr, base: seq<Expr>, rest: seq<Expr>, log: seq<Event>)
    requires e.Unsafe? && Scan(log, base + rest + []) == Some(base + rest + [])
    ensures Scan([Ran(e)] + log, base + (rest + [e])) == Some(base + rest)
    ensures Actions([Ran(e)] + log) == Actions(log)
  {
    hide Scan, Actions;
    PopAccounts(e, base, rest);
    assert base + rest + [] == base + rest;
    ScanAppend([Ran(e)], log, base + (rest + [e]));
    ActionsAppend([Ran(e)], log);
  }

  lemma PopAccounts(e: Expr, base: seq<Expr>, rest: seq<Expr>)
    ensures Scan([Ran(e)], base + (rest + [e])) == Some(base + rest)
    ensures Actions([Ran(e)]) == if e.Unsafe? then [] else [Discard(e)]
  {
    var stack := base + (rest + [e]);
    assert Front(stack) == base + rest;
    assert [Ran(e)][1..] == [] && Scan([], base + rest) == Some(base + rest) && Actions([]) == [];
  }

  lemma {:induction false} LeaveAccounts<S, V>(m: Meaning<S, V>, lim: Limit, out: Outcome<(S, seq<Action>)>,
                                               base: seq<Expr>, s: (S, seq<Action>))
    requires Accounts(out, base, [], s) && (out.Fin? ==> AllDefers(out.pending))
    ensures Accounts(LeaveScope(Tracing(m), lim, out), base, [], s)
    decreases if out.Fin? then out.left else 0, if out.Fin? then Deepest(out.pending) else 0, 2, 0
  {
    hide Tracing, RunAll, Scan, Actions, CoveredDefer;
    if out.Fin? {
      RunAllAccounts(m, lim, out.left, out.pending, base, out.s);
      Chain(out, RunAll(Tracing(m), lim, out.left, Reverse(out.pending), out.s), base, [], s);
    }
  }

  lemma ActAccounts<S, V>(m: Meaning<S, V>, n: nat, a: Action, base: seq<Expr>, pending: seq<Expr>, s: (S, seq<Action>))
    ensures Accounts(Act(Tracing(m), n, a, pending, s), base, pending, s)
  {
    assert Actions([Did(a)]) == [a] by { assert Actions([]) == []; }
    assert Scan([Did(a)][1..], base + pending) == Some(base + pending);
  }

  /** An inner scope that balances by itself leaves the outer stack alone. */
  lemma NestedAccounts<S>(out: Outcome<(S, seq<Action>)>, base: seq<Expr>, pending: seq<Expr>, s: (S, seq<Action>))
    requires Accounts(out, base + pending, [], s) && (out.Fin? ==> out.pending == [])
    ensures Accounts(WithPending(out, pending), base, pending, s)
  {
    assert base + pending + [] == base + pending;
  }

  lemma {:induction false} PendingDefers<S, V>(m: Meaning<S, V>, lim: Limit, n: nat, stmts: seq<Stmt>, pending: seq<Expr>,
                                               s: S)
    requires CoveredStmts(stmts, true, true) && AllDefers(pending)
    ensures var out := ExecStmts(m, lim, n, stmts, pending, s); out.Fin? ==> AllDefers(out.pending)
    decreases |stmts|
  {
    hide ExecStmt, CoveredDefer, CoveredBlock, CoveredExpr, Plain;
    if stmts != [] {
      var out := ExecStmt(m, lim, n, stmts[0], pending, s);
      if out.Fin? && out.exit.Normal? { PendingDefers(m, lim, out.left, stmts[1..], out.pending, out.s); }
    }
  }

  lemma {:induction false} StmtsAccount<S, V>(m: Meaning<S, V>, lim: Limit, n: nat, stmts: seq<Stmt>, base: seq<Expr>,
                                              pending: seq<Expr>, s: (S, seq<Action>))
    requires CoveredStmts(stmts, true, true)
    ensures Accounts(ExecStmts(Tracing(m), lim, n, stmts, pending, s), base, pending, s)
    decreases n, StmtsSize(stmts), 4, 0
  {
    hide Tracing, ExecStmt, CoveredStmt;
    if stmts != [] {
      StmtAccounts(m, lim, n, stmts[0], base, pending, s);
      var out := ExecStmt(Tracing(m), lim, n, stmts[0], pending, s);
      if out.Fin? && out.exit.Normal? {
        StmtsAccount(m, lim, out.left, stmts[1..], base, out.pending, out.s);
        Chain(out, ExecStmts(Tracing(m), lim, out.left, stmts[1..], out.pending, out.s), base, pending, s);
      }
    }
  }

  lemma {:induction false} BlockAccounts<S, V>(m: Meaning<S, V>, lim: Limit, n: nat, b: Block, base: seq<Expr>,
                                               s: (S, seq<Action>))
    requires CoveredBlock(b, true, true)
    ensures Accounts(ExecBlock(Tracing(m), lim, n, b, s), base, [], s)
    decreases n, BlockSize(b), 3, 0
  {
    hide Tracing, ExecStmts, CoveredStmts, CoveredExpr, ExecExpr, LeaveScope, Scan, Actions, CoveredDefer;
    var t := Tracing(m);
    StmtsAccount(m, lim, n, b.stmts, base, [], s);
    PendingDefers(t, lim, n, b.stmts, [], s);
    var out := ExecStmts(t, lim, n, b.stmts, [], s);
    if out.Fin? && out.exit.Normal? && b.trailing != NoExpr {
      ExprAccounts(m, lim, out.left, b.trailing, base, out.pending, out.s);
      var last := ExecExpr(t, lim, out.left, b.trailing, out.pending, out.s);
      Chain(out, last, base, [], s);
      LeaveAccounts(m, lim, Prefix(out.log, last), base, s);
    } else {
      LeaveAccounts(m, lim, out, base, s);
    }
  }

  lemma {:induction false} ExprAccounts<S, V>(m: Meaning<S, V>, lim: Limit, n: nat, e: Expr, base: seq<Expr>,
                                              pending: seq<Expr>, s: (S, seq<Action>))
    requires CoveredExpr(e, true, true)
    ensures Accounts(ExecExpr(Tracing(m), lim, n, e, pending, s), base, pending, s)
    decreases n, ExprSize(e), 0, 0
  {
    hide Tracing, ExecBlock, CoveredBlock, Scan, Actions, Plain;
    if e.Unsafe? {
      BlockAccounts(m, lim, n, e.body, base + pending, s);
      NestedAccounts(ExecBlock(Tracing(m), lim, n, e.body, s), base, pending, s);
    } else {
      ActAccounts(m, n, Discard(e), base, pending, s);
    }
  }

  lemma {:induction false} DeferAccounts<S>(e: Expr, base: seq<Expr>, pending: seq<Expr>, n: nat, s: (S, seq<Action>))
    ensures Accounts(Fin(Normal, s, pending + [e], [Registered(e)], n), base, pending, s)
    ensures Accounts(Fin(Normal, s, pending, [], n), base, pending, s)
  {
    assert base + pending + [e] == base + (pending + [e]);
    assert Scan([Registered(e)][1..], base + pending + [e]) == Some(base + pending + [e]);
    assert Actions([Registered(e)]) == [] by { assert Actions([]) == []; }
  }

  lemma {:induction false} StmtAccounts<S, V>(m: Meaning<S, V>, lim: Limit, n: nat, st: Stmt, base: seq<Expr>,
                                              pending: seq<Expr>, s: (S, seq<Action>))
    requires CoveredStmt(st, true, true)
    ensures Accounts(ExecStmt(Tracing(m), lim, n, st, pending, s), base, pending, s)
    decreases n, StmtSize(st), 3, 0
  {
    hide Tracing, ExecBlock, CoveredBlock, Scan, Actions, Plain, CoveredDefer, CoveredExpr, ExecExpr, ExecLoop, Act;
    var t := Tracing(m);
    match st {
      case VarDecl(_, _, _, _) => ActAccounts(m, n, Simple(st), base, pending, s);
      case AssignStmt(_, _, _) => ActAccounts(m, n, Simple(st), base, pending, s);
      case ExprStmt(e) => ExprAccounts(m, lim, n, e, base, pending, s);
      case BlockStmt(b) =>
        BlockAccounts(m, lim, n, b, base + pending, s);
        NestedAccounts(ExecBlock(t, lim, n, b, s), base, pending, s);
      case Defer(e) => DeferAccounts(e, base, pending, n, s);
      case If(_, _, _) => IfAccounts(m, lim, n, st, base, pending, s);
      case While(c, b) => LoopAccounts(m, lim, n, Test(c), b, None, base, pending, s);
      case For(_, _, _, _) => ForAccounts(m, lim, n, st, base, pending, s);
      case _ => DeferAccounts(NoExpr, base, pending, n, s);
    }
  }

  lemma {:induction false} IfAccounts<S, V>(m: Meaning<S, V>, lim: Limit, n: nat, st: Stmt, base: seq<Expr>,
                                            pending: seq<Expr>, s: (S, seq<Action>))
    requires st.If? && CoveredStmt(st, true, true)
    ensures Accounts(ExecStmt(Tracing(m), lim, n, st, pending, s), base, pending, s)
    decreases n, StmtSize(st), 2, 0
  {
    hide Tracing, ExecBlock, CoveredBlock, Scan, Actions, Plain;
    var t := Tracing(m);
    ActAccounts(m, n, Test(st.cond), base, pending, s);
    var first := Act(t, n, Test(st.cond), pending, s);
    match t.run(Test(st.cond), s) {
      case Halted(_) =>
      case Done(s', v) =>
        if t.truth(v) {
          BlockAccounts(m, lim, n, st.thn, base + pending, s');
          var out := ExecBlock(t, lim, n, st.thn, s');
          NestedAccounts(out, base, pending, s');
          Chain(first, WithPending(out, pending), base, pending, s);
        } else {
          if !st.els.NoStmt? { StmtAccounts(m, lim, n, st.els, base, pending, s'); }
          else { DeferAccounts(NoExpr, base, pending, n, s'); }
          Chain(first, ExecStmt(t, lim, n, st.els, pending, s'), base, pending, s);
        }
    }
  }

  lemma {:induction false} ForAccounts<S, V>(m: Meaning<S, V>, lim: Limit, n: nat, st: Stmt, base: seq<Expr>,
                                             pending: seq<Expr>, s: (S, seq<Action>))
    requires st.For? && CoveredStmt(st, true, true)
    ensures Accounts(ExecStmt(Tracing(m), lim, n, st, pending, s), base, pending, s)
    decreases n, StmtSize(st), 2, 0
  {
    hide Tracing, ExecBlock, CoveredBlock, Scan, Actions, Plain, ExecLoop;
    var t := Tracing(m);
    var init, test := ForInit(st.name, RangeStart(st.iterable)), ForTest(st.name, RangeEnd(st.iterable));
    ActAccounts(m, n, init, base, pending, s);
    match t.run(init, s) {
      case Halted(_) =>
      case Done(s', _) =>
        LoopAccounts(m, lim, n, test, st.body, Some(ForStep(st.name)), base, pending, s');
        Chain(Act(t, n, init, pending, s),
              ExecLoop(t, lim, n, test, st.body, Some(ForStep(st.name)), pending, s'), base, pending, s);
    }
  }

  lemma {:induction false} LoopAccounts<S, V>(m: Meaning<S, V>, lim: Limit, n: nat, test: Action, b: Block,
                                              step: Option<Action>, base: seq<Expr>, pending: seq<Expr>,
                                              s: (S, seq<Action>))
    requires CoveredBlock(b, true, true)
    ensures Accounts(ExecLoop(Tracing(m), lim, n, test, b, step, pending, s), base, pending, s)
    decreases n, BlockSize(b), 4, 0
  {
    hide Tracing, ExecBlock, CoveredBlock, Scan, Actions;
    var t := Tracing(m);
    ActAccounts(m, n, test, base, pending, s);
    match t.run(test, s) {
      case Halted(_) =>
      case Done(s', v) =>
        if t.truth(v) && n > 0 {
          var out := ExecBlock(t, lim, n - 1, b, s');
          var body := WithPending(out, pending);
          BlockAccounts(m, lim, n - 1, b, base + pending, s');
          NestedAccounts(out, base, pending, s');
          Chain(Act(t, n, test, pending, s), body, base, pending, s);
          if out.Fin? && (out.exit.Normal? || out.exit.Continued?) {
            RoundAccounts(m, lim, n, test, b, step, base, pending, s, out.s, [Did(test)] + out.log, out.left);
          }
        }
    }
  }

  /** After a round that ended in state `s'` with the log so far. */
  lemma {:induction false} RoundAccounts<S, V>(m: Meaning<S, V>, lim: Limit, n: nat, test: Action, b: Block,
                                               step: Option<Action>, base: seq<Expr>, pending: seq<Expr>,
                                               s: (S, seq<Action>), s': (S, seq<Action>), log: seq<Event>, left: nat)
    requires CoveredBlock(b, true, true) && left < n
    requires Accounts(Fin(Normal, s', pending, log, left), base, pending, s)
    ensures step.None? ==>
              Accounts(Prefix(log, ExecLoop(Tracing(m), lim, left, test, b, step, pending, s')), base, pending, s)
    ensures step.Some? ==>
              match Tracing(m).run(step.value, s')
              case Halted(_) => true
              case Done(s'', _) =>
                Accounts(Prefix(log + [Did(step.value)], ExecLoop(Tracing(m), lim, left, test, b, step, pending, s'')),
                         base, pending, s)
    decreases n, BlockSize(b), 3, 0
  {
    hide Tracing, ExecBlock, CoveredBlock, Scan, Actions, ExecLoop;
    var t := Tracing(m);
    var first := Fin(Normal, s', pending, log, left);
    match step {
      case None =>
        LoopAccounts(m, lim, left, test, b, step, base, pending, s');
        Chain(first, ExecLoop(t, lim, left, test, b, step, pending, s'), base, pending, s);
      case Some(a) =>
        ActAccounts(m, left, a, base, pending, s');
        Chain(first, Act(t, left, a, pending, s'), base, pending, s);
        match t.run(a, s') {
          case Halted(_) =>
          case Done(s'', _) =>
            LoopAccounts(m, lim, left, test, b, step, base, pending, s'');
            Chain(Prefix(log, Act(t, left, a, pending, s')), ExecLoop(t, lim, left, test, b, step, pending, s''), base,
                  pending, s);
        }
    }
  }

  /** A log that accounts for an outcome without pending defers accounts for the end of the body. */
  lemma ConcludeAccounts<S, V>(m: Meaning<S, V>, left: Outcome<(S, seq<Action>)>, s: (S, seq<Action>))
    requires Accounts(left, [], [], s) && (left.Fin? ==> left.pending == [])
    ensures
      var final := Conclude(Tracing(m), left);
      final.Completed? ==> Scan(final.log, []) == Some([]) && final.s.1 == s.1 + Actions(final.log)
  {
    hide Tracing, Scan, Actions;
    var t := Tracing(m);
    var none: seq<Expr> := [];
    assert none + none == none;
    if left.Fin? && left.exit.Returned? && left.exit.value != NoExpr {
      var a := Value(left.exit.value);
      var act := Act(t, left.left, a, [], left.s);
      ActAccounts(m, left.left, a, [], [], left.s);
      Chain(left, act, [], [], s);
    }
  }

  /** A whole source body that completes leaves no registration behind. */
  lemma BodyAccounts<S, V>(m: Meaning<S, V>, n: nat, b: Block, s: (S, seq<Action>))
    requires CoveredBody(b)
    ensures
      var final := ExecBody(Tracing(m), Unlimited, n, b, s);
      final.Completed? ==>
        Scan(final.log, []) == Some([]) && final.s.1 == s.1 + Actions(final.log)
  {
    hide Tracing, Scan, Actions, ExecStmts, Conclude, CoveredStmts, CoveredExpr, CoveredDefer, LeaveScope;
    var t := Tracing(m);
    CoveredMoreBlock(b, false, true);
    StmtsAccount(m, Unlimited, n, b.stmts, [], [], s);
    PendingDefers(t, Unlimited, n, b.stmts, [], s);
    var out := ExecStmts(t, Unlimited, n, b.stmts, [], s);
    var out' := if out.Fin? && out.exit.Normal? && b.trailing != NoExpr then out.(exit := Returned(b.trailing)) else out;
    LeaveAccounts(m, Unlimited, out', [], s);
    ConcludeAccounts(m, LeaveScope(t, Unlimited, out'), s);
  }

  /** Every completed run of the emitted code of a good body performs exactly the actions that the log of
      the source run lists; in that log each registration is run once, last registered first, and none
      is left over. */
  lemma EmittedDefersRunOnce<S, V>(m: Meaning<S, V>, n: nat, b: Block, s: S) returns (log: seq<Event>)
    requires CoveredBody(b) && GoodBody(b)
    ensures
      var done := CCall(CRun(Tracing(m), n, LowerBody(b), (s, [])));
      var final := ExecBody(Tracing(m), Unlimited, n, b, (s, []));
      done.Some? ==>
        && final == Completed(done.value.0, done.value.1, log)
        && done.value.0.1 == Actions(log)
        && Scan(log, []) == Some([])
        && (forall e :: Runs(log, e) == Registrations(log, e))
  {
    LoweringPreserves(Tracing(m), n, b, (s, []));
    BodyAccounts(m, n, b, (s, []));
    var final := ExecBody(Tracing(m), Unlimited, n, b, (s, []));
    log := if final.Completed? then final.log else [];
    if final.Completed? {
      assert [] + Actions(log) == Actions(log);
      forall e ensures Runs(log, e) == Registrations(log, e) { ScanCounts(log, [], e); }
    }
  }
}
