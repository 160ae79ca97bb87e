/** The divergence analysis of the semantic pass (src/sema.c:115-163) against the statement semantics. */
module Divergence {
  import opened Ast
  import opened Semantics
  import opened Lowering
  import opened DeferExact
  import opened DeferWitness

  /** `noret` says of a call expression that its type is `noreturn`. */
  predicate BlockDiverges(noret: Expr -> bool, b: Block)
    decreases b, 0
  {
    b.Block? && (SomeDiverges(noret, b.stmts) || (b.trailing != NoExpr && ExprDiverges(noret, b.trailing)))
  }

  predicate SomeDiverges(noret: Expr -> bool, stmts: seq<Stmt>)
    decreases stmts, 0
  {
    stmts != [] && (StmtDiverges(noret, stmts[0]) || SomeDiverges(noret, stmts[1..]))
  }

  predicate StmtDiverges(noret: Expr -> bool, st: Stmt)
    decreases st, 0
  {
    match st
    case Return(_) => true
    case Break => true
    case Continue => true
    case If(_, t, e) => BlockDiverges(noret, t) && e.BlockStmt? && BlockDiverges(noret, e.block)
    case Match(_, arms) => arms != [] && ArmsDiverge(noret, arms)
    case BlockStmt(b) => BlockDiverges(noret, b)
    case ExprStmt(e) => ExprDiverges(noret, e)
    case _ => false
  }

  predicate ArmsDiverge(noret: Expr -> bool, arms: seq<Expr>)
    decreases arms, 0
  {
    arms == [] || (ExprDiverges(noret, arms[0]) && ArmsDiverge(noret, arms[1..]))
  }

  predicate ExprDiverges(noret: Expr -> bool, e: Expr)
    decreases e, 0
  {
    match e
    case Unsafe(b) => BlockDiverges(noret, b)
    case Call(_, _) => noret(e)
    case _ => false
  }

  /** Calls of type `noreturn` never return, and matches are exhaustive. */
  ghost predicate Respects<S(!new), V(!new)>(m: Meaning<S, V>, noret: Expr -> bool) {
    && (forall e: Expr, s :: e.Call? && noret(e) ==> m.run(Discard(e), s).Halted?)
    && (forall v, n: nat :: n > 0 ==> m.arm(v, n) < n)
  }

  predicate FallsOut<S>(out: Outcome<S>) {
    out.Fin? && out.exit.Normal?
  }

  lemma {:induction false} ArmDiverges(noret: Expr -> bool, arms: seq<Expr>, i: nat)
    requires ArmsDiverge(noret, arms) && i < |arms|
    ensures ExprDiverges(noret, arms[i])
  {
    if i > 0 { ArmDiverges(noret, arms[1..], i - 1); }
  }

  /** The analysis is sound: no run falls out of the end of a block it calls diverging. */
  lemma {:induction false} BlockDivergenceSound<S(!new), V(!new)>(m: Meaning<S, V>, noret: Expr -> bool, lim: Limit, n: nat,
                                                                  b: Block, s: S)
    requires Respects(m, noret) && BlockDiverges(noret, b)
    ensures !FallsOut(ExecBlock(m, lim, n, b, s))
    decreases b, 0
  {
    if SomeDiverges(noret, b.stmts) {
      StmtsDivergenceSound(m, noret, lim, n, b.stmts, [], s);
    } else {
      var out := ExecStmts(m, lim, n, b.stmts, [], s);
      if FallsOut(out) { ExprDivergenceSound(m, noret, lim, out.left, b.trailing, out.pending, out.s); }
    }
  }

  lemma {:induction false} StmtsDivergenceSound<S(!new), V(!new)>(m: Meaning<S, V>, noret: Expr -> bool, lim: Limit, n: nat,
                                                                  stmts: seq<Stmt>, pending: seq<Expr>, s: S)
    requires Respects(m, noret) && SomeDiverges(noret, stmts)
    ensures !FallsOut(ExecStmts(m, lim, n, stmts, pending, s))
    decreases stmts, 0
  {
    if StmtDiverges(noret, stmts[0]) {
      StmtDivergenceSound(m, noret, lim, n, stmts[0], pending, s);
    } else {
      var out := ExecStmt(m, lim, n, stmts[0], pending, s);
      if FallsOut(out) { StmtsDivergenceSound(m, noret, lim, out.left, stmts[1..], out.pending, out.s); }
    }
  }

  lemma {:induction false} StmtDivergenceSound<S(!new), V(!new)>(m: Meaning<S, V>, noret: Expr -> bool, lim: Limit, n: nat,
                                                                 st: Stmt, pending: seq<Expr>, s: S)
    requires Respects(m, noret) && StmtDiverges(noret, st)
    ensures !FallsOut(ExecStmt(m, lim, n, st, pending, s))
    decreases st, 0
  {
    match st {
      case If(c, t, e) =>
        match m.run(Test(c), s) {
          case Halted(_) =>
          case Done(s', _) =>
            BlockDivergenceSound(m, noret, lim, n, t, s');
            BlockDivergenceSound(m, noret, lim, n, e.block, s');
        }
      case Match(e, arms) =>
        match m.run(Select(e), s) {
          case Halted(_) =>
          case Done(s', v) =>
            var i := m.arm(v, |arms|);
            ArmDiverges(noret, arms, i);
            ExprDivergenceSound(m, noret, lim, n, arms[i], pending, s');
        }
      case BlockStmt(b) => BlockDivergenceSound(m, noret, lim, n, b, s);
      case ExprStmt(e) => ExprDivergenceSound(m, noret, lim, n, e, pending, s);
      case _ =>
    }
  }

  lemma {:induction false} ExprDivergenceSound<S(!new), V(!new)>(m: Meaning<S, V>, noret: Expr -> bool, lim: Limit, n: nat,
                                                                 e: Expr, pending: seq<Expr>, s: S)
    requires Respects(m, noret) && ExprDiverges(noret, e)
    ensures !FallsOut(ExecExpr(m, lim, n, e, pending, s))
    decreases e, 0
  {
    if e.Unsafe? { BlockDivergenceSound(m, noret, lim, n, e.body, s); }
  }

  // ---- where the analysis is also complete ----

  /** The analysis gives up on `else if`, whose node is not a block. */
  predicate PlainElse(b: Block)
    decreases b, 0
  {
    b.Block? ==> PlainElseAll(b.stmts) && (b.trailing.Unsafe? ==> PlainElse(b.trailing.body))
  }

  predicate PlainElseAll(stmts: seq<Stmt>)
    decreases stmts, 0
  {
    stmts == [] || (PlainElseStmt(stmts[0]) && PlainElseAll(stmts[1..]))
  }

  predicate PlainElseStmt(st: Stmt)
    decreases st, 0
  {
    match st
    case If(_, t, e) => PlainElse(t) && (e.NoStmt? || (e.BlockStmt? && PlainElse(e.block)))
    case BlockStmt(b) => PlainElse(b)
    case ExprStmt(e) => e.Unsafe? ==> PlainElse(e.body)
    case _ => true
  }

  lemma {:induction false} DivergesOrPasses(b: Block)
    requires CoveredBlock(b, true, true) && PlainElse(b)
    ensures BlockDiverges(_ => false, b) == !PassesBlock(b)
    decreases b, 0
  {
    DivergesOrPassesAll(b.stmts);
    if b.trailing.Unsafe? { DivergesOrPasses(b.trailing.body); }
  }

  lemma {:induction false} DivergesOrPassesAll(stmts: seq<Stmt>)
    requires CoveredStmts(stmts, true, true) && PlainElseAll(stmts)
    ensures SomeDiverges(_ => false, stmts) == !PassesAll(stmts)
    decreases stmts, 0
  {
    if stmts != [] {
      DivergesOrPassesStmt(stmts[0]);
      DivergesOrPassesAll(stmts[1..]);
    }
  }

  lemma {:induction false} DivergesOrPassesStmt(st: Stmt)
    requires CoveredStmt(st, true, true) && PlainElseStmt(st)
    ensures StmtDiverges(_ => false, st) == !Passes(st)
    decreases st, 0
  {
    match st {
      case If(_, t, e) =>
        DivergesOrPasses(t);
        if e.BlockStmt? { DivergesOrPasses(e.block); }
      case BlockStmt(b) => DivergesOrPasses(b);
      case ExprStmt(e) => if e.Unsafe? { DivergesOrPasses(e.body); }
      case _ =>
    }
  }

  /** Some meaning of the expressions, some fuel and some state let a run fall out. */
  ghost predicate MayPass(st: Stmt) {
    exists m: Meaning<Script, bool>, n: nat, pending, s :: FallsOut(ExecStmt(m, Unlimited, n, st, pending, s))
  }

  ghost predicate BlockMayPass(b: Block) {
    exists m: Meaning<Script, bool>, n: nat, s :: FallsOut(ExecBlock(m, Unlimited, n, b, s))
  }

  lemma {:induction false} MayPassIff(st: Stmt)
    requires CoveredStmt(st, true, true)
    ensures MayPass(st) <==> Passes(st)
  {
    if Passes(st) {
      var s := Script(Path(st), 0);
      assert s.todo == Path(st) + [];
      PathWorks(0, st, [], s, []);
      assert FallsOut(ExecStmt(Stage, Unlimited, 0, st, [], s));
    } else {
      forall m: Meaning<Script, bool>, n: nat, pending, s ensures !FallsOut(ExecStmt(m, Unlimited, n, st, pending, s)) {
        PassSound(m, Unlimited, n, st, pending, s);
      }
    }
  }

  lemma {:induction false} BlockMayPassIff(b: Block)
    requires CoveredBlock(b, true, true)
    ensures BlockMayPass(b) <==> PassesBlock(b)
  {
    if PassesBlock(b) {
      var s := Script(PathBlock(b), 0);
      assert s.todo == PathBlock(b) + [];
      PathBlockWorks(0, b, s, []);
      assert FallsOut(ExecBlock(Stage, Unlimited, 0, b, s));
    } else {
      forall m: Meaning<Script, bool>, n: nat, s ensures !FallsOut(ExecBlock(m, Unlimited, n, b, s)) {
        PassSoundBlock(m, Unlimited, n, b, s);
      }
    }
  }

  /** Without `else if` and without `noreturn` calls, the analysis answers true exactly for the blocks
      that no meaning of the expressions lets a run fall out of. */
  lemma {:induction false} DivergenceExact(b: Block)
    requires CoveredBlock(b, true, true) && PlainElse(b)
    ensures BlockDiverges(_ => false, b) <==> !BlockMayPass(b)
  {
    hide BlockMayPass;
    DivergesOrPasses(b);
    BlockMayPassIff(b);
  }

  // ---- `else if` ----

  /** An `if` with an `else if` is never called diverging, while some run passes it exactly if some run
      passes one of the two branches; so it is missed exactly when no run passes either. */
  lemma {:induction false} ElseIfMissed(noret: Expr -> bool, st: Stmt)
    requires st.If? && st.els.If? && CoveredStmt(st, true, true)
    ensures !StmtDiverges(noret, st)
    ensures MayPass(st) <==> BlockMayPass(st.thn) || MayPass(st.els)
  {
    hide MayPass, BlockMayPass;
    MayPassIff(st);
    BlockMayPassIff(st.thn);
    MayPassIff(st.els);
  }

  /** The block without its `else if` branches. */
  function Blind(b: Block): Block
    decreases b, 0
  {
    if b == NoBlock then b
    else Block(BlindAll(b.stmts), if b.trailing.Unsafe? then Unsafe(Blind(b.trailing.body)) else b.trailing)
  }

  function BlindAll(stmts: seq<Stmt>): seq<Stmt>
    decreases stmts, 0
  {
    if stmts == [] then [] else [BlindStmt(stmts[0])] + BlindAll(stmts[1..])
  }

  function BlindStmt(st: Stmt): Stmt
    decreases st, 0
  {
    match st
    case If(c, t, e) => If(c, Blind(t), if e.BlockStmt? then BlockStmt(Blind(e.block)) else NoStmt)
    case BlockStmt(b) => BlockStmt(Blind(b))
    case ExprStmt(e) => if e.Unsafe? then ExprStmt(Unsafe(Blind(e.body))) else st
    case _ => st
  }

  lemma {:induction false} BlindSame(b: Block)
    requires CoveredBlock(b, true, true)
    ensures CoveredBlock(Blind(b), true, true) && PlainElse(Blind(b))
    ensures BlockDiverges(_ => false, Blind(b)) == BlockDiverges(_ => false, b)
    decreases b, 0
  {
    BlindSameAll(b.stmts);
    if b.trailing.Unsafe? { BlindSame(b.trailing.body); }
  }

  lemma {:induction false} BlindSameAll(stmts: seq<Stmt>)
    requires CoveredStmts(stmts, true, true)
    ensures CoveredStmts(BlindAll(stmts), true, true) && PlainElseAll(BlindAll(stmts))
    ensures SomeDiverges(_ => false, BlindAll(stmts)) == SomeDiverges(_ => false, stmts)
    decreases stmts, 0
  {
    if stmts != [] {
      BlindSameStmt(stmts[0]);
      BlindSameAll(stmts[1..]);
      assert BlindAll(stmts)[1..] == BlindAll(stmts[1..]);
    }
  }

  lemma {:induction false} BlindSameStmt(st: Stmt)
    requires CoveredStmt(st, true, true)
    ensures CoveredStmt(BlindStmt(st), true, true) && PlainElseStmt(BlindStmt(st))
    ensures StmtDiverges(_ => false, BlindStmt(st)) == StmtDiverges(_ => false, st)
    decreases st, 0
  {
    match st {
      case If(_, t, e) =>
        BlindSame(t);
        if e.BlockStmt? { BlindSame(e.block); }
      case BlockStmt(b) => BlindSame(b);
      case ExprStmt(e) => if e.Unsafe? { BlindSame(e.body); }
      case _ =>
    }
  }

  /** With `else if` anywhere: the analysis answers true exactly when no run falls out of the block that is
      left when all `else if` branches are taken away. */
  lemma {:induction false} DivergenceIgnoresElseIf(b: Block)
    requires CoveredBlock(b, true, true)
    ensures BlockDiverges(_ => false, b) <==> !BlockMayPass(Blind(b))
  {
    BlindSame(b);
    DivergenceExact(Blind(b));
  }
}
