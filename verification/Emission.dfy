/** What the generator writes, for every block and every state of its stacks (src/codegen_c.c:243-252,
    src/codegen_c.c:312-553). Pasting a deferred expression generates it anew on top of the levels in use, so
    a deferred `unsafe` block may paste further defers. There is no text where a fixed stack is overrun. */
module Emission {
  import opened Ast
  import opened Semantics
  import opened CText
  import opened Lowering

  type Text = Option<seq<CTok>>

  function Join(a: Text, b: Text): Text {
    if a.Some? && b.Some? then Some(a.value + b.value) else None
  }

  lemma JoinMore(o: seq<CTok>, a: Text, b: Text)
    requires a.Some?
    ensures Join(Some(o), Join(a, b)) == Join(Some(o + a.value), b)
  {
    if b.Some? { assert o + (a.value + b.value) == o + a.value + b.value; }
  }

  function LoopHead(st: Stmt): CTok
    requires st.While? || st.For?
  {
    if st.While? then TWhile(st.cond) else TFor(st.name, RangeStart(st.iterable), RangeEnd(st.iterable))
  }

  function EmitBlock(b: Block, levels: seq<seq<Expr>>, bases: seq<nat>, returning: bool): Text
    requires |levels| <= MaxDeferDepth
    decreases MaxDeferDepth - |levels|, 0, 0
  {
    if b.NoBlock? then Some([])
    else if |levels| == MaxDeferDepth then None
    else
      var inner := levels + [[]];
      var end := AfterAll(b.stmts, inner);
      var stmts := Join(Some([TOpen]), EmitStmts(b.stmts, inner, bases));
      var all := Join(Join(stmts, EmitTrailing(b, returning, end, bases)), EmitDefers(end, bases, |levels|, |end|));
      Join(all, Some([TClose]))
  }

  function EmitTrailing(b: Block, returning: bool, levels: seq<seq<Expr>>, bases: seq<nat>): Text
    requires b.Block? && 0 < |levels| <= MaxDeferDepth
    decreases MaxDeferDepth - |levels|, 2, 0
  {
    if b.trailing == NoExpr then Some([])
    else if returning then Some([TReturn(b.trailing)])
    else EmitExpr(b.trailing, levels, bases)
  }

  function EmitStmts(stmts: seq<Stmt>, levels: seq<seq<Expr>>, bases: seq<nat>): Text
    requires 0 < |levels| <= MaxDeferDepth
    decreases MaxDeferDepth - |levels|, 6, |stmts|
  {
    if stmts == [] then Some([])
    else Join(EmitStmt(stmts[0], levels, bases), EmitStmts(stmts[1..], After(stmts[0], levels), bases))
  }

  function EmitExpr(e: Expr, levels: seq<seq<Expr>>, bases: seq<nat>): Text
    requires 0 < |levels| <= MaxDeferDepth
    decreases MaxDeferDepth - |levels|, 1, 0
  {
    if e.Unsafe? then Join(EmitBlock(e.body, levels, bases, false), Some([TSemicolon])) else Some([TExpr(e)])
  }

  function EmitStmt(st: Stmt, levels: seq<seq<Expr>>, bases: seq<nat>): Text
    requires 0 < |levels| <= MaxDeferDepth
    decreases MaxDeferDepth - |levels|, 5, st, 1
  {
    match st
    case VarDecl(_, _, _, _) => Some([TSimple(st)])
    case AssignStmt(_, _, _) => Some([TSimple(st)])
    case ExprStmt(e) => EmitExpr(e, levels, bases)
    case Return(v) => Join(EmitDefers(levels, bases, 0, |levels|), Some([TReturn(v)]))
    case Break => Join(EmitLoopDefers(levels, bases), Some([TBreak]))
    case Continue => Join(EmitLoopDefers(levels, bases), Some([TContinue]))
    case BlockStmt(b) => EmitBlock(b, levels, bases, false)
    case If(c, t, e) => Join(Join(Some([TIf(c)]), EmitBlock(t, levels, bases, false)), EmitElse(e, levels, bases))
    case While(_, _) => EmitLoop(st, levels, bases)
    case For(_, _, _, _) => EmitLoop(st, levels, bases)
    case _ => Some([])
  }

  /** What the parser puts after `else`. */
  predicate IsElse(els: Stmt) {
    els.If? || els.BlockStmt?
  }

  function EmitElse(els: Stmt, levels: seq<seq<Expr>>, bases: seq<nat>): Text
    requires 0 < |levels| <= MaxDeferDepth
    decreases MaxDeferDepth - |levels|, 5, els, 2
  {
    if IsElse(els) then Join(Some([TElse]), EmitStmt(els, levels, bases)) else Some([])
  }

  function EmitLoop(st: Stmt, levels: seq<seq<Expr>>, bases: seq<nat>): Text
    requires (st.While? || st.For?) && 0 < |levels| <= MaxDeferDepth
    decreases MaxDeferDepth - |levels|, 5, st, 0
  {
    if |bases| + 1 >= MaxDeferDepth then None
    else Join(Some([LoopHead(st)]), EmitBlock(st.body, levels, bases + [|levels| - 1], false))
  }

  /** The defers pasted before `break` and `continue`; outside of loops there are none. */
  function EmitLoopDefers(levels: seq<seq<Expr>>, bases: seq<nat>): Text
    requires 0 < |levels| <= MaxDeferDepth
    decreases MaxDeferDepth - |levels|, 4, 0
  {
    if bases == [] then Some([]) else EmitDefers(levels, bases, Last(bases) + 1, |levels|)
  }

  /** The defers of the levels below `top` down to `down`, innermost level first. */
  function EmitDefers(levels: seq<seq<Expr>>, bases: seq<nat>, down: nat, top: nat): Text
    requires 0 < |levels| <= MaxDeferDepth && top <= |levels|
    decreases MaxDeferDepth - |levels|, 3, top
  {
    if top <= down then Some([])
    else Join(EmitLevel(levels[top - 1], levels, bases), EmitDefers(levels, bases, down, top - 1))
  }

  /** The expressions of one level, newest first. */
  function EmitLevel(es: seq<Expr>, levels: seq<seq<Expr>>, bases: seq<nat>): Text
    requires 0 < |levels| <= MaxDeferDepth
    decreases MaxDeferDepth - |levels|, 2, |es|
  {
    if es == [] then Some([]) else Join(EmitExpr(Last(es), levels, bases), EmitLevel(Front(es), levels, bases))
  }

  function EmitBody(b: Block): Text {
    EmitBlock(b, [], [], true)
  }
}
