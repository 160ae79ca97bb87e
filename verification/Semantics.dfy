/** Meaning of source statements. Expressions and simple statements are opaque actions on a
    state `S`; control flow, scopes and `defer` are given here, for `unsafe` blocks too where they stand as
    statements, at the end of a block or in a `defer`. A run starts with fuel for a number of loop rounds and
    hands on what is left, so `Timeout` is the only effect of too little fuel. */
module Semantics {
  import opened Ast

  /** What a program asks of the machine. */
  datatype Action =
    | Simple(stmt: Stmt)                    // a declaration or an assignment
    | Discard(expr: Expr)                   // an expression evaluated for its effect
    | Test(expr: Expr)                      // a condition
    | Select(expr: Expr)                    // the subject of a match
    | Value(expr: Expr)                     // the operand of a return
    | ForInit(name: string, start: Expr)
    | ForTest(name: string, end: Expr)
    | ForStep(name: string)

  /** An action ends in a new state with a value, or never returns (a `noreturn` call). */
  datatype Result<S, V> = Done(s: S, v: V) | Halted(s: S)

  datatype Meaning<!S, !V> = Meaning(
    run: (Action, S) -> Result<S, V>,
    truth: V -> bool,
    arm: (V, nat) -> nat)

  /** How control leaves a statement. `return v` carries `v` unevaluated: the defers of all
      open scopes run before it (src/codegen_c.c:370-380). */
  datatype Exit = Normal | Broke | Continued | Returned(value: Expr)

  datatype Event = Registered(expr: Expr) | Ran(expr: Expr) | Did(action: Action)

  /** `pending` holds the defers registered so far in the innermost scope, oldest first; `left` is the fuel. */
  datatype Outcome<S> =
    | Timeout
    | Halt(s: S)
    | Fin(exit: Exit, s: S, pending: seq<Expr>, log: seq<Event>, left: nat)

  /** A scope remembers any number of defers, or only its first `count`. */
  datatype Limit = Unlimited | AtMost(count: nat)

  predicate Admits(lim: Limit, pending: seq<Expr>) {
    lim.Unlimited? || |pending| < lim.count
  }

  /** The range of a loop: `a..b`, or a slice without an object (src/codegen_c.c:426-440). The generator
      takes any other binary expression for one as well. */
  predicate IsRange(iter: Expr) {
    (iter.Binary? && iter.op == DotDot) || (iter.Slice? && iter.obj == NoExpr)
  }

  function RangeStart(iter: Expr): Expr {
    if iter.Binary? then iter.left else if iter.Slice? then iter.start else NoExpr
  }

  function RangeEnd(iter: Expr): Expr {
    if iter.Binary? then iter.right else if iter.Slice? then iter.end else NoExpr
  }

  function Reverse<T>(xs: seq<T>): seq<T> {
    if xs == [] then [] else [xs[|xs| - 1]] + Reverse(xs[..|xs| - 1])
  }

  // ---- sizes, by which a deferred block is smaller than the block that defers it ----

  function Max(a: nat, b: nat): nat {
    if a < b then b else a
  }

  function ExprSize(e: Expr): (k: nat)
    ensures k > 0
    decreases e, 0
  {
    if e.Unsafe? then 1 + BlockSize(e.body) else 1
  }

  function BlockSize(b: Block): nat
    decreases b, 0
  {
    if b.NoBlock? then 0 else 1 + StmtsSize(b.stmts) + ExprSize(b.trailing)
  }

  function StmtsSize(stmts: seq<Stmt>): nat
    decreases stmts, 0
  {
    if stmts == [] then 0 else StmtSize(stmts[0]) + StmtsSize(stmts[1..])
  }

  function StmtSize(st: Stmt): (k: nat)
    ensures k > 0
    decreases st, 0
  {
    match st
    case ExprStmt(e) => 1 + ExprSize(e)
    case Defer(e) => 2 + ExprSize(e)
    case BlockStmt(b) => 1 + BlockSize(b)
    case If(_, t, e) => 1 + BlockSize(t) + StmtSize(e)
    case While(_, b) => 1 + BlockSize(b)
    case For(_, _, _, b) => 1 + BlockSize(b)
    case Match(_, arms) => 1 + ExprsSize(arms)
    case _ => 1
  }

  function ExprsSize(es: seq<Expr>): (k: nat)
    ensures forall i :: 0 <= i < |es| ==> ExprSize(es[i]) <= k
    decreases es, 0
  {
    if es == [] then 0 else ExprSize(es[0]) + ExprsSize(es[1..])
  }

  /** More than the size of every expression in the list. */
  function Deepest(es: seq<Expr>): nat {
    if es == [] then 0 else Max(1 + ExprSize(es[0]), Deepest(es[1..]))
  }

  lemma {:induction false} DeepestAppend(a: seq<Expr>, b: seq<Expr>)
    ensures Deepest(a + b) == Max(Deepest(a), Deepest(b))
  {
    if a == [] {
      assert a + b == b;
    } else {
      assert (a + b)[1..] == a[1..] + b;
      DeepestAppend(a[1..], b);
    }
  }

  lemma {:induction false} DeepestReverse(es: seq<Expr>)
    ensures Deepest(Reverse(es)) == Deepest(es)
  {
    if es != [] {
      var front, last := es[..|es| - 1], [es[|es| - 1]];
      DeepestReverse(front);
      assert es == front + last;
      DeepestAppend(front, last);
      DeepestAppend(last, Reverse(front));
    }
  }

  // ---- running ----

  /** Runs deferred expressions one after the other; the log says `Ran` of each. */
  function RunAll<S, V>(m: Meaning<S, V>, lim: Limit, n: nat, es: seq<Expr>, s: S): (out: Outcome<S>)
    ensures out.Fin? ==> out.exit.Normal? && out.pending == [] && out.left <= n
    decreases n, Deepest(es), 1, |es|
  {
    if es == [] then Fin(Normal, s, [], [], n)
    else
      var out := RunDeferred(m, lim, n, es[0], s);
      if out.Fin? then Prefix([Ran(es[0])] + out.log, RunAll(m, lim, out.left, es[1..], out.s)) else out
  }

  /** A deferred `unsafe` block is a scope of its own; no jump leaves it. */
  function RunDeferred<S, V>(m: Meaning<S, V>, lim: Limit, n: nat, e: Expr, s: S): (out: Outcome<S>)
    ensures out.Fin? ==> out.left <= n
    decreases n, ExprSize(e), 0, 0
  {
    if e.Unsafe? then ExecBlock(m, lim, n, e.body, s)
    else
      match m.run(Discard(e), s)
      case Halted(s') => Halt(s')
      case Done(s', _) => Fin(Normal, s', [], [], n)
  }

  function Prefix<S>(log: seq<Event>, out: Outcome<S>): Outcome<S> {
    if out.Fin? then out.(log := log + out.log) else out
  }

  function WithPending<S>(out: Outcome<S>, pending: seq<Expr>): Outcome<S> {
    if out.Fin? then out.(pending := pending) else out
  }

  /** Leaving a scope runs its defers, newest first, whatever the exit. */
  function LeaveScope<S, V>(m: Meaning<S, V>, lim: Limit, out: Outcome<S>): (r: Outcome<S>)
    ensures r.Fin? ==> out.Fin? && r.left <= out.left && r.exit == out.exit && r.pending == []
    decreases if out.Fin? then out.left else 0, if out.Fin? then Deepest(out.pending) else 0, 2, 0
  {
    if !out.Fin? then out
    else
      DeepestReverse(out.pending);
      var ran := RunAll(m, lim, out.left, Reverse(out.pending), out.s);
      if ran.Fin? then Fin(out.exit, ran.s, [], out.log + ran.log, ran.left) else ran
  }

  /** A simple action followed by normal continuation. */
  function Act<S, V>(m: Meaning<S, V>, n: nat, a: Action, pending: seq<Expr>, s: S): Outcome<S> {
    match m.run(a, s)
    case Done(s', _) => Fin(Normal, s', pending, [Did(a)], n)
    case Halted(s') => Halt(s')
  }

  function ExecBlock<S, V>(m: Meaning<S, V>, lim: Limit, n: nat, b: Block, s: S): (out: Outcome<S>)
    ensures out.Fin? ==> out.left <= n && out.pending == []
    decreases n, BlockSize(b), 3, 0
  {
    match b
    case NoBlock => Fin(Normal, s, [], [], n)
    case Block(stmts, trailing) =>
      var out := ExecStmts(m, lim, n, stmts, [], s);
      var out' :=
        if out.Fin? && out.exit.Normal? && trailing != NoExpr
        then Prefix(out.log, ExecExpr(m, lim, out.left, trailing, out.pending, out.s))
        else out;
      LeaveScope(m, lim, out')
  }

  function ExecStmts<S, V>(m: Meaning<S, V>, lim: Limit, n: nat, stmts: seq<Stmt>, pending: seq<Expr>, s: S)
    : (out: Outcome<S>)
    ensures out.Fin? ==> out.left <= n && Deepest(out.pending) <= Max(Deepest(pending), StmtsSize(stmts))
    decreases n, StmtsSize(stmts), 4, 0
  {
    if stmts == [] then Fin(Normal, s, pending, [], n)
    else
      var out := ExecStmt(m, lim, n, stmts[0], pending, s);
      if out.Fin? && out.exit.Normal?
      then Prefix(out.log, ExecStmts(m, lim, out.left, stmts[1..], out.pending, out.s))
      else out
  }

  /** An expression in statement position: an `unsafe` block is a scope of its own. */
  function ExecExpr<S, V>(m: Meaning<S, V>, lim: Limit, n: nat, e: Expr, pending: seq<Expr>, s: S)
    : (out: Outcome<S>)
    ensures out.Fin? ==> out.left <= n && out.pending == pending
    decreases n, ExprSize(e), 0, 0
  {
    if e.Unsafe? then WithPending(ExecBlock(m, lim, n, e.body, s), pending)
    else Act(m, n, Discard(e), pending, s)
  }

  /** The defers of a scope after a statement that completes. */
  function Pended(lim: Limit, st: Stmt, pending: seq<Expr>): (r: seq<Expr>)
    ensures Deepest(r) <= Max(Deepest(pending), StmtSize(st))
  {
    if st.Defer? && Admits(lim, pending) then (DeepestAppend(pending, [st.expr]); pending + [st.expr]) else pending
  }

  function ExecStmt<S, V>(m: Meaning<S, V>, lim: Limit, n: nat, st: Stmt, pending: seq<Expr>, s: S): (out: Outcome<S>)
    ensures out.Fin? ==> out.left <= n && out.pending == Pended(lim, st, pending)
    decreases n, StmtSize(st), 3, 0
  {
    match st
    case NoStmt => Fin(Normal, s, pending, [], n)
    case VarDecl(_, _, _, _) => Act(m, n, Simple(st), pending, s)
    case AssignStmt(_, _, _) => Act(m, n, Simple(st), pending, s)
    case ExprStmt(e) => ExecExpr(m, lim, n, e, pending, s)
    case Return(v) => Fin(Returned(v), s, pending, [], n)
    case Break => Fin(Broke, s, pending, [], n)
    case Continue => Fin(Continued, s, pending, [], n)
    case Defer(e) =>
      if Admits(lim, pending) then Fin(Normal, s, pending + [e], [Registered(e)], n)
      else Fin(Normal, s, pending, [], n)
    case ErrDefer(_) => Fin(Normal, s, pending, [], n)
    case BlockStmt(b) => WithPending(ExecBlock(m, lim, n, b, s), pending)
    case If(c, t, e) =>
      (match m.run(Test(c), s)
       case Halted(s') => Halt(s')
       case Done(s', v) =>
         WithPending(Prefix([Did(Test(c))],
           if m.truth(v) then ExecBlock(m, lim, n, t, s') else ExecStmt(m, lim, n, e, pending, s')), pending))
    case While(c, b) => ExecLoop(m, lim, n, Test(c), b, None, pending, s)
    case For(x, _, iter, b) =>
      (match m.run(ForInit(x, RangeStart(iter)), s)
       case Halted(s') => Halt(s')
       case Done(s', _) =>
         Prefix([Did(ForInit(x, RangeStart(iter)))],
           ExecLoop(m, lim, n, ForTest(x, RangeEnd(iter)), b, Some(ForStep(x)), pending, s')))
    case Match(e, arms) =>
      (match m.run(Select(e), s)
       case Halted(s') => Halt(s')
       case Done(s', v) =>
         var i := m.arm(v, |arms|);
         Prefix([Did(Select(e))],
           if i < |arms| then ExecExpr(m, lim, n, arms[i], pending, s') else Fin(Normal, s', pending, [], n)))
  }

  /** `while` and `for` share this loop; a `for` has a step, which `continue` also performs. */
  function ExecLoop<S, V>(m: Meaning<S, V>, lim: Limit, n: nat, test: Action, body: Block, step: Option<Action>,
                          pending: seq<Expr>, s: S): (out: Outcome<S>)
    ensures out.Fin? ==> out.left <= n && out.pending == pending
    decreases n, BlockSize(body), 4, 0
  {
    match m.run(test, s)
    case Halted(s') => Halt(s')
    case Done(s', v) =>
      if !m.truth(v) then Fin(Normal, s', pending, [Did(test)], n)
      else if n == 0 then Timeout
      else
        var out := ExecBlock(m, lim, n - 1, body, s');
        var log := [Did(test)];
        if !out.Fin? then out
        else if out.exit.Broke? then Fin(Normal, out.s, pending, log + out.log, out.left)
        else if out.exit.Returned? then Fin(out.exit, out.s, pending, log + out.log, out.left)
        else
          match step
          case None => Prefix(log + out.log, ExecLoop(m, lim, out.left, test, body, step, pending, out.s))
          case Some(a) =>
            match m.run(a, out.s)
            case Halted(s'') => Halt(s'')
            case Done(s'', _) =>
              Prefix(log + out.log + [Did(a)], ExecLoop(m, lim, out.left, test, body, step, pending, s''))
  }

  /** What a whole function body does. */
  datatype Final<S, V> =
    | NoAnswer
    | Stopped(s: S)
    | Completed(s: S, value: Option<V>, log: seq<Event>)
    | Escaped(s: S)                          // a break or continue that no loop catches

  function Conclude<S, V>(m: Meaning<S, V>, out: Outcome<S>): Final<S, V> {
    match out
    case Timeout => NoAnswer
    case Halt(s) => Stopped(s)
    case Fin(exit, s, _, log, _) =>
      match exit
      case Normal => Completed(s, None, log)
      case Broke => Escaped(s)
      case Continued => Escaped(s)
      case Returned(v) =>
        if v == NoExpr then Completed(s, None, log)
        else
          match m.run(Value(v), s)
          case Halted(s') => Stopped(s')
          case Done(s', x) => Completed(s', Some(x), log + [Did(Value(v))])
  }

  /** A function body: its trailing expression means `return` of that expression. */
  function ExecBody<S, V>(m: Meaning<S, V>, lim: Limit, n: nat, b: Block, s: S): Final<S, V>
    requires b.Block?
  {
    var out := ExecStmts(m, lim, n, b.stmts, [], s);
    var out' := if out.Fin? && out.exit.Normal? && b.trailing != NoExpr
                then out.(exit := Returned(b.trailing)) else out;
    Conclude(m, LeaveScope(m, lim, out'))
  }
}
