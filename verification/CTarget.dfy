/** The defer-free C that the generator emits: structured statements with the jumps of section 6.8.6
    and the loops of section 6.8.5 of ISO C11, and the tokens that spell them. */
module CTarget {
  import opened Ast
  import opened Semantics

  datatype CStmt =
    | CSimple(stmt: Stmt)
    | CExpr(expr: Expr)
    | CEmpty
    | CBlock(body: seq<CStmt>)
    | CIf(cond: Expr, thn: seq<CStmt>, els: seq<CStmt>)   // els: nothing, a block or another if
    | CWhile(cond: Expr, body: seq<CStmt>)
    | CFor(name: string, start: Expr, end: Expr, body: seq<CStmt>)
    | CReturn(value: Expr)
    | CBreak
    | CContinue

  datatype CExit<V> = CNormal | CBroke | CContinued | CReturned(value: Option<V>)

  /** `left` is the fuel for loop rounds that remains. */
  datatype COutcome<S, V> = CTimeout | CHalt(s: S) | CFin(exit: CExit<V>, s: S, left: nat)

  /** Evaluating one full expression or declaration, then going on. */
  function CAct<S, V>(m: Meaning<S, V>, n: nat, a: Action, s: S): COutcome<S, V> {
    match m.run(a, s)
    case Done(s', _) => CFin(CNormal, s', n)
    case Halted(s') => CHalt(s')
  }

  /** `return v;` evaluates `v` and leaves the function. */
  function CJumpOut<S, V>(m: Meaning<S, V>, n: nat, v: Expr, s: S): COutcome<S, V> {
    if v == NoExpr then CFin(CReturned(None), s, n)
    else
      match m.run(Value(v), s)
      case Done(s', x) => CFin(CReturned(Some(x)), s', n)
      case Halted(s') => CHalt(s')
  }

  function CRun<S, V>(m: Meaning<S, V>, n: nat, cs: seq<CStmt>, s: S): (out: COutcome<S, V>)
    ensures out.CFin? ==> out.left <= n
    decreases n, cs, 0
  {
    if cs == [] then CFin(CNormal, s, n)
    else
      var out := CStep(m, n, cs[0], s);
      if out.CFin? && out.exit.CNormal? then CRun(m, out.left, cs[1..], out.s) else out
  }

  function CStep<S, V>(m: Meaning<S, V>, n: nat, c: CStmt, s: S): (out: COutcome<S, V>)
    ensures out.CFin? ==> out.left <= n
    decreases n, c, 0
  {
    match c
    case CSimple(st) => CAct(m, n, Simple(st), s)
    case CExpr(e) => CAct(m, n, Discard(e), s)
    case CEmpty => CFin(CNormal, s, n)
    case CBlock(body) => CRun(m, n, body, s)
    case CIf(e, thn, els) =>
      (match m.run(Test(e), s)
       case Halted(s') => CHalt(s')
       case Done(s', v) => if m.truth(v) then CRun(m, n, thn, s') else CRun(m, n, els, s'))
    case CWhile(e, body) => CLoop(m, n, Test(e), body, None, s)
    case CFor(x, start, end, body) =>
      (match m.run(ForInit(x, start), s)
       case Halted(s') => CHalt(s')
       case Done(s', _) => CLoop(m, n, ForTest(x, end), body, Some(ForStep(x)), s'))
    case CReturn(v) => CJumpOut(m, n, v, s)
    case CBreak => CFin(CBroke, s, n)
    case CContinue => CFin(CContinued, s, n)
  }

  function CLoop<S, V>(m: Meaning<S, V>, n: nat, test: Action, body: seq<CStmt>, step: Option<Action>, s: S)
    : (out: COutcome<S, V>)
    ensures out.CFin? ==> out.left <= n
    decreases n, body, 1
  {
    match m.run(test, s)
    case Halted(s') => CHalt(s')
    case Done(s', v) =>
      if !m.truth(v) then CFin(CNormal, s', n)
      else if n == 0 then CTimeout
      else
        var out := CRun(m, n - 1, body, s');
        if !out.CFin? || out.exit.CReturned? then out
        else if out.exit.CBroke? then CFin(CNormal, out.s, out.left)
        else
          match step
          case None => CLoop(m, out.left, test, body, step, out.s)
          case Some(a) =>
            match m.run(a, out.s)
            case Halted(s'') => CHalt(s'')
            case Done(s'', _) => CLoop(m, out.left, test, body, step, s'')
  }

  /** Falling off the end of a C function returns without a value. */
  function CCall<S, V>(out: COutcome<S, V>): (s: Option<(S, Option<V>)>)
  {
    if out.CFin? && out.exit.CNormal? then Some((out.s, None))
    else if out.CFin? && out.exit.CReturned? then Some((out.s, out.exit.value))
    else None
  }

  lemma {:induction false} RunAppend<S, V>(m: Meaning<S, V>, n: nat, a: seq<CStmt>, b: seq<CStmt>, s: S)
    ensures CRun(m, n, a + b, s) ==
            var out := CRun(m, n, a, s);
            if out.CFin? && out.exit.CNormal? then CRun(m, out.left, b, out.s) else out
    decreases |a|
  {
    if a == [] {
      assert a + b == b;
    } else {
      assert (a + b)[0] == a[0] && (a + b)[1..] == a[1..] + b;
      var out := CStep(m, n, a[0], s);
      if out.CFin? && out.exit.CNormal? { RunAppend(m, out.left, a[1..], b, out.s); }
    }
  }
}
