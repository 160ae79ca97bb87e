/** Printing statements and blocks and parsing them back (src/parser.c:450-633). */
module BlockRoundTrip {
  import opened Ast
  import opened Tokens
  import opened ParserSpec
  import opened PrattRoundTrip
  import opened TypeRoundTrip

  // ---- texts ----

  function ShowBlock(full: bool, b: Block): seq<Token>
    decreases b, 0
  {
    if b == NoBlock then [] else [Tok(LBrace)] + ShowItems(full, b.stmts) + Trailing(full, b.trailing) + [Tok(RBrace)]
  }

  function Trailing(full: bool, e: Expr): seq<Token> {
    if e == NoExpr then [] else Show(full, e, 0)
  }

  function ShowItems(full: bool, stmts: seq<Stmt>): seq<Token>
    decreases stmts, 0
  {
    if stmts == [] then [] else ShowStmt(full, stmts[0]) + ShowItems(full, stmts[1..])
  }

  /** An expression and a semicolon. */
  function Ended(full: bool, e: Expr): seq<Token> {
    Show(full, e, 0) + [Tok(Semicolon)]
  }

  function ShowStmt(full: bool, st: Stmt): seq<Token>
    decreases st, 0
  {
    match st
    case VarDecl(c, name, t, init) =>
      [Tok(if c then KwConst else KwVar), Token(IdentTok, name, 0)] + VarTypeText(full, t) + Ended(full, init)
    case Return(v) => [Tok(KwReturn)] + if v == NoExpr then [Tok(Semicolon)] else Ended(full, v)
    case ExprStmt(e) => Ended(full, e)
    case AssignStmt(aop, l, r) => Show(full, l, 0) + [Tok(AssignTok(aop))] + Ended(full, r)
    case BlockStmt(b) => ShowBlock(full, b)
    case If(c, thn, els) => [Tok(KwIf)] + Show(full, c, 0) + ShowBlock(full, thn) + ShowElse(full, els)
    case While(c, b) => [Tok(KwWhile)] + Show(full, c, 0) + ShowBlock(full, b)
    case For(name, t, iter, b) => ForHead(full, name, t) + Show(full, iter, 0) + ShowBlock(full, b)
    case Defer(e) => [Tok(KwDefer)] + Ended(full, e)
    case ErrDefer(b) => [Tok(KwErrdefer)] + ShowBlock(full, b)
    case Break => [Tok(KwBreak), Tok(Semicolon)]
    case Continue => [Tok(KwContinue), Tok(Semicolon)]
    case _ => []
  }

  function VarTypeText(full: bool, t: TypeExpr): seq<Token> {
    (if t == NoType then [] else [Tok(Colon)] + ShowType(full, t)) + [Tok(AssignTok(Assign))]
  }

  function ForHead(full: bool, name: string, t: TypeExpr): seq<Token> {
    [Tok(KwFor), Token(IdentTok, name, 0), Tok(Colon)] + ShowType(full, t) + [Tok(KwIn)]
  }

  function ShowElse(full: bool, els: Stmt): seq<Token>
    decreases els, 1
  {
    if els == NoStmt then [] else [Tok(KwElse)] + ShowStmt(full, els)
  }

  // ---- what has a text ----

  /** A condition before a brace must not end in a capitalised name, which the brace would make a struct
      literal; the capitalised name of a field does no harm. */
  predicate IsCondition(full: bool, e: Expr) {
    Printable(full, e) && !EndsInName(full, e, 0)
  }

  predicate WritableBlock(full: bool, b: Block)
    decreases b, 0
  {
    b.Block? && WritableStmts(full, b.stmts) && (b.trailing == NoExpr || Printable(full, b.trailing))
  }

  predicate WritableStmts(full: bool, stmts: seq<Stmt>)
    decreases stmts, 0
  {
    stmts == [] || (WritableStmt(full, stmts[0]) && WritableStmts(full, stmts[1..]))
  }

  predicate WritableStmt(full: bool, st: Stmt)
    decreases st, 0
  {
    match st
    case VarDecl(_, _, t, init) => (t == NoType || Writable(full, t)) && Printable(full, init)
    case Return(v) => v == NoExpr || Printable(full, v)
    case ExprStmt(e) => Printable(full, e)
    case AssignStmt(_, l, r) => Printable(full, l) && Printable(full, r)
    case BlockStmt(b) => WritableBlock(full, b)
    case If(c, thn, els) =>
      && IsCondition(full, c) && WritableBlock(full, thn)
      && (els == NoStmt || ((els.BlockStmt? || els.If?) && WritableStmt(full, els)))
    case While(c, b) => IsCondition(full, c) && WritableBlock(full, b)
    case For(_, t, iter, b) => Writable(full, t) && IsCondition(full, iter) && WritableBlock(full, b)
    case Defer(e) => Printable(full, e)
    case ErrDefer(b) => WritableBlock(full, b)
    case Break => true
    case Continue => true
    case _ => false
  }

  // ---- expressions inside statements ----

  /** An expression text and its semicolon. */
  lemma EndedReads(full: bool, e: Expr, ts: TokenList, pos: nat)
    requires Printable(full, e) && Holds(ts, pos, Ended(full, e))
    ensures
      var mid := pos + |Show(full, e, 0)|;
      && |Ended(full, e)| == |Show(full, e, 0)| + 1 && mid < |ts| && ts[mid].kind == Semicolon
      && ParseExpr(ts, pos) == P(e, mid, true) && pos < mid && StartsExpr(ts[pos].kind) && e != NoExpr
  {
    hide Holds, Show, Printable, ParseExpr, Readable, Like, Starts, StartsExpr;
    var s := Show(full, e, 0);
    assert s + [Tok(Semicolon)] + [] == Ended(full, e);
    SplitAround(ts, pos, s, Tok(Semicolon), []);
    LikeKind(ts[pos + |s|], Tok(Semicolon));
    ExprReads(full, e, ts, pos);
    ExprStartsAt(full, e, ts, pos);
    PrintableNotNull(full, e);
  }

  lemma {:induction false} ExprStartsAt(full: bool, e: Expr, ts: seq<Token>, pos: nat)
    requires Printable(full, e) && Holds(ts, pos, Show(full, e, 0))
    ensures |Show(full, e, 0)| > 0 && pos < |ts| && StartsExpr(ts[pos].kind)
  {
    hide Holds, Show, Printable, StartsExpr;
    ShowStarts(full, e, 0);
    First(ts, pos, Show(full, e, 0));
  }

  /** A condition before an opening brace is read whole, and no other printed expression is. */
  lemma {:induction false} ConditionReads(full: bool, e: Expr, ts: TokenList, pos: nat)
    requires Printable(full, e) && Holds(ts, pos, Show(full, e, 0)) && pos + |Show(full, e, 0)| < |ts|
    requires ts[pos + |Show(full, e, 0)|].kind == LBrace
    ensures ParseExpr(ts, pos) == P(e, pos + |Show(full, e, 0)|, true) <==> IsCondition(full, e)
  {
    hide Holds, Show, Printable, ParseExpr, Readable, EndsInName;
    BraceExact(full, e, ts, pos);
  }

  lemma ConditionPrintable(full: bool, e: Expr)
    requires IsCondition(full, e)
    ensures Printable(full, e)
  {
    hide Printable, EndsInName;
  }

  /** The first token of a text and the rest. */
  lemma Lead(ts: seq<Token>, pos: nat, t: Token, rest: seq<Token>)
    requires Holds(ts, pos, [t] + rest)
    ensures pos < |ts| && ts[pos].kind == t.kind && (t.kind == IdentTok ==> ts[pos].text == t.text)
    ensures Holds(ts, pos + 1, rest) && pos + 1 + |rest| <= |ts|
  {
    hide Holds;
    Split(ts, pos, [t], rest);
    OneWord(ts, pos, t);
    HoldsInside(ts, pos + 1, rest);
  }

  // ---- single steps of the statement parser ----

  lemma VarStep(ts: TokenList, pos: nat, isConst: bool, name: string, t: TypeExpr, mid: nat, init: Expr, end: nat)
    requires pos + 2 < |ts| && ts[pos].kind == (if isConst then KwConst else KwVar) && ts[pos + 1].kind == IdentTok
    requires ts[pos + 1].text == name && ParseVarType(ts, pos + 2) == P(t, mid, true)
    requires mid < |ts| && ParseExpr(ts, mid) == P(init, end, true) && end < |ts| && ts[end].kind == Semicolon
    ensures ParseStmt(ts, pos) == P(VarDecl(isConst, name, t, init), end + 1, true)
  {
    hide Readable, ParseVarType, ParseExpr, ParseIf, ParseFor, ParseWhile, ParseReturn, ParseJump, ParseBlock, ParseSimple;
  }

  lemma {:induction false} VarTypeStep(ts: TokenList, pos: nat, t: TypeExpr, end: nat)
    requires pos < |ts| && end < |ts| && ts[end].kind == AssignTok(Assign)
    requires if t == NoType then end == pos else pos + 1 < |ts| && ts[pos].kind == Colon && ParseType(ts, pos + 1) == P(t, end, true)
    ensures ParseVarType(ts, pos) == P(t, end + 1, true)
  {
    hide Readable, ParseType;
  }

  lemma ReturnStep(ts: TokenList, pos: nat, v: Expr, end: nat)
    requires pos + 1 < |ts| && ts[pos].kind == KwReturn && end < |ts| && ts[end].kind == Semicolon
    requires if v == NoExpr then end == pos + 1 else ts[pos + 1].kind != Semicolon && ParseExpr(ts, pos + 1) == P(v, end, true)
    ensures ParseStmt(ts, pos) == P(Return(v), end + 1, true)
  {
    hide Readable, ParseVarDecl, ParseExpr, ParseIf, ParseFor, ParseWhile, ParseJump, ParseBlock, ParseSimple;
  }

  lemma {:induction false} JumpStep(ts: TokenList, pos: nat, st: Stmt, end: nat)
    requires pos + 1 < |ts| && end < |ts| && ts[end].kind == Semicolon && (st.Break? || st.Continue? || st.Defer?)
    requires ts[pos].kind == (if st.Break? then KwBreak else if st.Continue? then KwContinue else KwDefer)
    requires if st.Defer? then ParseExpr(ts, pos + 1) == P(st.expr, end, true) else end == pos + 1
    ensures ParseStmt(ts, pos) == P(st, end + 1, true)
  {
    hide *;
    JumpDispatch(ts, pos);
    JumpParts(ts, pos + 1, ts[pos].kind, st, end);
  }

  lemma {:induction false} JumpDispatch(ts: TokenList, pos: nat)
    requires pos + 1 < |ts| && (ts[pos].kind == KwBreak || ts[pos].kind == KwContinue || ts[pos].kind == KwDefer)
    ensures ParseStmt(ts, pos) == ParseJump(ts, pos + 1, ts[pos].kind)
  {
    hide Readable, ParseVarDecl, ParseExpr, ParseIf, ParseFor, ParseWhile, ParseReturn, ParseJump, ParseBlock, ParseSimple;
  }

  lemma {:induction false} JumpParts(ts: TokenList, pos: nat, k: Kind, st: Stmt, end: nat)
    requires pos < |ts| && end < |ts| && ts[end].kind == Semicolon && (st.Break? || st.Continue? || st.Defer?)
    requires k == (if st.Break? then KwBreak else if st.Continue? then KwContinue else KwDefer)
    requires if st.Defer? then ParseExpr(ts, pos) == P(st.expr, end, true) else end == pos
    ensures ParseJump(ts, pos, k) == P(st, end + 1, true)
  {
    hide Readable, ParseExpr;
  }

  lemma BlockStep(ts: TokenList, pos: nat, b: Block, end: nat)
    requires pos < |ts| && b != NoBlock
    ensures ts[pos].kind == LBrace && ParseBlock(ts, pos) == P(b, end, true) ==> ParseStmt(ts, pos) == P(BlockStmt(b), end, true)
    ensures pos + 1 < |ts| && ts[pos].kind == KwErrdefer && ParseBlock(ts, pos + 1) == P(b, end, true) ==>
      ParseStmt(ts, pos) == P(ErrDefer(b), end, true)
  {
    hide Readable, ParseVarDecl, ParseExpr, ParseIf, ParseFor, ParseWhile, ParseReturn, ParseJump, ParseBlock, ParseSimple;
  }

  lemma {:induction false} WhileStep(ts: TokenList, pos: nat, c: Expr, mid: nat, b: Block, end: nat)
    requires pos + 1 < |ts| && ts[pos].kind == KwWhile && mid < |ts|
    requires ParseExpr(ts, pos + 1) == P(c, mid, true) && ParseBlock(ts, mid) == P(b, end, true)
    ensures ParseStmt(ts, pos) == P(While(c, b), end, true)
  {
    hide Readable, ParseVarDecl, ParseExpr, ParseIf, ParseFor, ParseReturn, ParseJump, ParseBlock, ParseSimple;
  }

  lemma ForStep(ts: TokenList, pos: nat, name: string, t: TypeExpr, kw: nat, iter: Expr, mid: nat, b: Block, end: nat)
    requires pos + 3 < |ts| && ts[pos].kind == KwFor && ts[pos + 1].kind == IdentTok && ts[pos + 1].text == name
    requires ts[pos + 2].kind == Colon && ParseType(ts, pos + 3) == P(t, kw, true) && kw + 1 < |ts| && ts[kw].kind == KwIn
    requires mid < |ts| && ParseExpr(ts, kw + 1) == P(iter, mid, true) && ParseBlock(ts, mid) == P(b, end, true)
    ensures ParseStmt(ts, pos) == P(For(name, t, iter, b), end, true)
  {
    hide *;
    ForDispatch(ts, pos);
    NameThenStep(ts, pos + 1);
    ForParts(ts, pos + 1, name, t, kw, iter, mid, b, end);
  }

  lemma {:induction false} ForDispatch(ts: TokenList, pos: nat)
    requires pos + 1 < |ts| && ts[pos].kind == KwFor
    ensures ParseStmt(ts, pos) == ParseFor(ts, pos + 1)
  {
    hide Readable, ParseVarDecl, ParseExpr, ParseIf, ParseFor, ParseWhile, ParseReturn, ParseJump, ParseBlock, ParseSimple;
  }

  lemma NameThenStep(ts: TokenList, pos: nat)
    requires pos + 2 < |ts| && ts[pos].kind == IdentTok && ts[pos + 1].kind == Colon
    ensures ParseNameThen(ts, pos, Colon) == P(ts[pos].text, pos + 2, true)
  {
    hide Readable;
  }

  lemma {:induction false} ForParts(ts: TokenList, pos: nat, name: string, t: TypeExpr, kw: nat, iter: Expr,
      mid: nat, b: Block, end: nat)
    requires pos + 2 < |ts| && ParseNameThen(ts, pos, Colon) == P(name, pos + 2, true)
    requires ParseType(ts, pos + 2) == P(t, kw, true) && kw + 1 < |ts| && ts[kw].kind == KwIn
    requires mid < |ts| && ParseExpr(ts, kw + 1) == P(iter, mid, true) && ParseBlock(ts, mid) == P(b, end, true)
    ensures ParseFor(ts, pos) == P(For(name, t, iter, b), end, true)
  {
    hide Readable, ParseNameThen, ParseType, ParseExpr, ParseBlock;
  }

  lemma IfStep(ts: TokenList, pos: nat, c: Expr, mid: nat, thn: Block, at: nat)
    requires pos + 1 < |ts| && ts[pos].kind == KwIf && mid < |ts| && at < |ts|
    requires ParseExpr(ts, pos + 1) == P(c, mid, true) && ParseBlock(ts, mid) == P(thn, at, true)
    ensures ParseStmt(ts, pos) == ParseIf(ts, pos + 1)
    ensures ts[at].kind != KwElse ==> ParseIf(ts, pos + 1) == P(If(c, thn, NoStmt), at, true)
    ensures ts[at].kind == KwElse && at + 1 < |ts| ==>
      ParseIf(ts, pos + 1) ==
        if ts[at + 1].kind == KwIf then var e := ParseStmt(ts, at + 1); P(If(c, thn, e.value), e.pos, e.ok)
        else var e := ParseBlock(ts, at + 1); P(If(c, thn, AsStmt(e.value)), e.pos, e.ok)
  {
    hide Readable, ParseVarDecl, ParseExpr, ParseFor, ParseWhile, ParseReturn, ParseJump, ParseBlock, ParseSimple;
    assert ParseStmt(ts, pos) == ParseIf(ts, pos + 1);
    hide ParseStmt, AsStmt;
  }

  lemma {:induction false} ItemStep(ts: TokenList, pos: nat, e: Expr, mid: nat)
    requires pos < |ts| && mid < |ts| && e != NoExpr && ParseExpr(ts, pos) == P(e, mid, true)
    ensures ts[mid].kind == Semicolon ==> ParseExprItem(ts, pos) == P((ExprStmt(e), NoExpr), mid + 1, true)
    ensures ts[mid].kind == RBrace ==> ParseExprItem(ts, pos) == P((NoStmt, e), mid, true)
  {
    hide Readable, ParseExpr;
  }

  lemma AssignItemStep(ts: TokenList, pos: nat, l: Expr, mid: nat, aop: AssignOp, r: Expr, end: nat)
    requires pos < |ts| && mid + 1 < |ts| && l != NoExpr && ParseExpr(ts, pos) == P(l, mid, true)
    requires ts[mid].kind == AssignTok(aop) && ParseExpr(ts, mid + 1) == P(r, end, true) && end < |ts| && ts[end].kind == Semicolon
    ensures ParseExprItem(ts, pos) == P((AssignStmt(aop, l, r), NoExpr), end + 1, true)
  {
    hide Readable, ParseExpr;
  }

  lemma {:induction false} BracesStep(ts: TokenList, pos: nat, stmts: seq<Stmt>, e: Expr, close: nat)
    requires pos + 1 < |ts| && ts[pos].kind == LBrace && close < |ts| && ts[close].kind == RBrace
    requires ParseItems(ts, pos + 1) == P((stmts, e), close, true)
    ensures ParseBlock(ts, pos) == P(Block(stmts, e), close + 1, true)
  {
    hide Readable, ParseItems;
  }

  // ---- each statement is read whole ----

  predicate LedByExpr(st: Stmt) {
    st.ExprStmt? || st.AssignStmt?
  }

  /** The first token tells which way an item is read. */
  lemma {:induction false} StmtStarts(full: bool, st: Stmt, ts: seq<Token>, pos: nat)
    requires WritableStmt(full, st) && Holds(ts, pos, ShowStmt(full, st))
    ensures |ShowStmt(full, st)| > 0 && pos < |ts|
    ensures if LedByExpr(st) then StartsExpr(ts[pos].kind) else StartsStmt(ts[pos].kind)
  {
    hide Holds, Show, ShowType, Printable, Writable, WritableBlock, IsCondition, Starts, StartsExpr, Like;
    if LedByExpr(st) {
      var e := if st.ExprStmt? then st.expr else st.lhs;
      var s := Show(full, e, 0);
      ShowStarts(full, e, 0);
      StartsSome(s);
      var rest := ShowStmt(full, st)[|s|..];
      assert ShowStmt(full, st) == s + rest;
      Split(ts, pos, s, rest);
      ExprStartsAt(full, e, ts, pos);
    } else {
      if st.BlockStmt? { WritableNotNull(full, st.block); }
      First(ts, pos, ShowStmt(full, st));
      LikeKind(ts[pos], ShowStmt(full, st)[0]);
    }
  }

  lemma {:induction false} VarTypeReads(full: bool, t: TypeExpr, ts: TokenList, pos: nat)
    requires (t == NoType || Writable(full, t)) && Holds(ts, pos, VarTypeText(full, t))
    requires pos + |VarTypeText(full, t)| < |ts|
    ensures ParseVarType(ts, pos) == P(t, pos + |VarTypeText(full, t)|, true)
  {
    hide Holds, ShowType, Writable, Readable, ParseVarType, ParseType, EndsType;
    var eq := [Tok(AssignTok(Assign))];
    var end := pos + |VarTypeText(full, t)| - 1;
    if t == NoType {
      assert VarTypeText(full, t) == eq;
      OneWord(ts, pos, Tok(AssignTok(Assign)));
    } else {
      var s := ShowType(full, t);
      assert VarTypeText(full, t) == [Tok(Colon)] + (s + eq);
      Lead(ts, pos, Tok(Colon), s + eq);
      Split(ts, pos + 1, s, eq);
      OneWord(ts, pos + 1 + |s|, Tok(AssignTok(Assign)));
      TypeEnds();
      TypeReads(full, t, ts, pos + 1);
    }
    VarTypeStep(ts, pos, t, end);
  }

  lemma {:induction false} VarReads(full: bool, st: Stmt, ts: TokenList, pos: nat)
    requires st.VarDecl? && WritableStmt(full, st) && Holds(ts, pos, ShowStmt(full, st))
    requires pos + |ShowStmt(full, st)| < |ts|
    ensures ParseStmt(ts, pos) == P(st, pos + |ShowStmt(full, st)|, true)
  {
    hide Holds, Show, ShowType, Printable, Writable, Readable, ParseStmt, ParseExpr, ParseVarType, VarTypeText, Ended, StartsExpr;
    var kw, name := Tok(if st.isConst then KwConst else KwVar), Token(IdentTok, st.name, 0);
    var v, x := VarTypeText(full, st.typ), Ended(full, st.init);
    assert ShowStmt(full, st) == [kw] + ([name] + (v + x));
    Lead(ts, pos, kw, [name] + (v + x));
    Lead(ts, pos + 1, name, v + x);
    Split(ts, pos + 2, v, x);
    EndedReads(full, st.init, ts, pos + 2 + |v|);
    VarTypeReads(full, st.typ, ts, pos + 2);
    VarStep(ts, pos, st.isConst, st.name, st.typ, pos + 2 + |v|, st.init, pos + |ShowStmt(full, st)| - 1);
  }

  lemma {:induction false} ReturnReads(full: bool, st: Stmt, ts: TokenList, pos: nat)
    requires st.Return? && WritableStmt(full, st) && Holds(ts, pos, ShowStmt(full, st))
    requires pos + |ShowStmt(full, st)| < |ts|
    ensures ParseStmt(ts, pos) == P(st, pos + |ShowStmt(full, st)|, true)
  {
    hide Holds, Show, Printable, Readable, ParseStmt, ParseExpr, Ended;
    var rest := if st.value == NoExpr then [Tok(Semicolon)] else Ended(full, st.value);
    Lead(ts, pos, Tok(KwReturn), rest);
    if st.value == NoExpr {
      OneWord(ts, pos + 1, Tok(Semicolon));
    } else {
      EndedReads(full, st.value, ts, pos + 1);
    }
    ReturnStep(ts, pos, st.value, pos + |ShowStmt(full, st)| - 1);
  }

  lemma {:induction false} JumpReads(full: bool, st: Stmt, ts: TokenList, pos: nat)
    requires (st.Break? || st.Continue? || st.Defer?) && WritableStmt(full, st) && Holds(ts, pos, ShowStmt(full, st))
    requires pos + |ShowStmt(full, st)| < |ts|
    ensures ParseStmt(ts, pos) == P(st, pos + |ShowStmt(full, st)|, true)
  {
    hide *;
    var kw := Tok(if st.Break? then KwBreak else if st.Continue? then KwContinue else KwDefer);
    var rest := if st.Defer? then Ended(full, st.expr) else [Tok(Semicolon)];
    JumpText(full, st);
    Lead(ts, pos, kw, rest);
    TokKind(if st.Break? then KwBreak else if st.Continue? then KwContinue else KwDefer);
    if st.Defer? {
      EndedReads(full, st.expr, ts, pos + 1);
    } else {
      OneWord(ts, pos + 1, Tok(Semicolon));
      TokKind(Semicolon);
    }
    JumpStep(ts, pos, st, pos + |ShowStmt(full, st)| - 1);
  }

  lemma {:induction false} JumpText(full: bool, st: Stmt)
    requires (st.Break? || st.Continue? || st.Defer?) && WritableStmt(full, st)
    ensures ShowStmt(full, st)
      == [Tok(if st.Break? then KwBreak else if st.Continue? then KwContinue else KwDefer)]
         + (if st.Defer? then Ended(full, st.expr) else [Tok(Semicolon)])
    ensures st.Defer? ==> Printable(full, st.expr)
  {
    hide Ended, Printable;
  }

  /** A condition and the block after it. */
  lemma {:induction false} GuardedReads(full: bool, c: Expr, b: Block, ts: TokenList, pos: nat)
    requires IsCondition(full, c) && WritableBlock(full, b) && Holds(ts, pos, Show(full, c, 0) + ShowBlock(full, b))
    requires pos + |Show(full, c, 0)| + |ShowBlock(full, b)| < |ts|
    ensures
      var mid := pos + |Show(full, c, 0)|;
      && mid < |ts| && ParseExpr(ts, pos) == P(c, mid, true)
      && ParseBlock(ts, mid) == P(b, mid + |ShowBlock(full, b)|, true)
    decreases b, 2
  {
    hide *;
    var s := Show(full, c, 0);
    Split(ts, pos, s, ShowBlock(full, b));
    BlockReads(full, b, ts, pos + |s|);
    assert Printable(full, c) by { ConditionPrintable(full, c); }
    ConditionReads(full, c, ts, pos);
  }

  lemma {:induction false} WhileReads(full: bool, st: Stmt, ts: TokenList, pos: nat)
    requires st.While? && WritableStmt(full, st) && Holds(ts, pos, ShowStmt(full, st))
    requires pos + |ShowStmt(full, st)| < |ts|
    ensures ParseStmt(ts, pos) == P(st, pos + |ShowStmt(full, st)|, true)
    decreases st, 1
  {
    hide Holds, Show, Printable, Readable, ParseStmt, ParseExpr, ParseBlock, ShowBlock, IsCondition, WritableBlock;
    var s, b := Show(full, st.cond, 0), ShowBlock(full, st.body);
    assert ShowStmt(full, st) == [Tok(KwWhile)] + (s + b);
    Lead(ts, pos, Tok(KwWhile), s + b);
    GuardedReads(full, st.cond, st.body, ts, pos + 1);
    WhileStep(ts, pos, st.cond, pos + 1 + |s|, st.body, pos + 1 + |s| + |b|);
  }

  lemma {:induction false} ForSplit(full: bool, st: Stmt, ts: seq<Token>, pos: nat)
    requires st.For? && WritableStmt(full, st) && Holds(ts, pos, ShowStmt(full, st))
    ensures
      var t, s, b := ShowType(full, st.typ), Show(full, st.iterable, 0), ShowBlock(full, st.body);
      var kw := pos + 3 + |t|;
      && |ShowStmt(full, st)| == 4 + |t| + |s| + |b| && kw < |ts|
      && ts[pos].kind == KwFor && ts[pos + 1].kind == IdentTok && ts[pos + 1].text == st.name && ts[pos + 2].kind == Colon
      && Holds(ts, pos + 3, t) && ts[kw].kind == KwIn && Holds(ts, kw + 1, s + b)
      && Writable(full, st.typ) && IsCondition(full, st.iterable) && WritableBlock(full, st.body)
  {
    hide Holds, Show, Printable, ShowBlock, ShowType, IsCondition, Writable, WritableBlock, Like;
    var t, s, b := ShowType(full, st.typ), Show(full, st.iterable, 0), ShowBlock(full, st.body);
    var name := Token(IdentTok, st.name, 0);
    var head, rest := [Tok(KwFor), name, Tok(Colon)], t + ([Tok(KwIn)] + (s + b));
    assert ShowStmt(full, st) == head + rest;
    Split(ts, pos, head, rest);
    ForHeadTokens(ts, pos, name);
    Split(ts, pos + 3, t, [Tok(KwIn)] + (s + b));
    Lead(ts, pos + 3 + |t|, Tok(KwIn), s + b);
  }

  lemma ForHeadTokens(ts: seq<Token>, pos: nat, name: Token)
    requires Holds(ts, pos, [Tok(KwFor), name, Tok(Colon)]) && name.kind == IdentTok
    ensures pos + 3 <= |ts| && ts[pos].kind == KwFor && ts[pos + 1].kind == IdentTok && ts[pos + 1].text == name.text
    ensures ts[pos + 2].kind == Colon
  {
    hide Holds, Like;
    assert [Tok(KwFor), name, Tok(Colon)] == [Tok(KwFor)] + ([name] + [Tok(Colon)]);
    Lead(ts, pos, Tok(KwFor), [name] + [Tok(Colon)]);
    Lead(ts, pos + 1, name, [Tok(Colon)]);
    OneWord(ts, pos + 2, Tok(Colon));
  }

  lemma {:induction false} ForReads(full: bool, st: Stmt, ts: TokenList, pos: nat)
    requires st.For? && WritableStmt(full, st) && Holds(ts, pos, ShowStmt(full, st))
    requires pos + |ShowStmt(full, st)| < |ts|
    ensures ParseStmt(ts, pos) == P(st, pos + |ShowStmt(full, st)|, true)
    decreases st, 1
  {
    hide *;
    var t, s, b := ShowType(full, st.typ), Show(full, st.iterable, 0), ShowBlock(full, st.body);
    var kw := pos + 3 + |t|;
    ForSplit(full, st, ts, pos);
    TypeEnds();
    TypeReads(full, st.typ, ts, pos + 3);
    GuardedReads(full, st.iterable, st.body, ts, kw + 1);
    ForStep(ts, pos, st.name, st.typ, kw, st.iterable, kw + 1 + |s|, st.body, kw + 1 + |s| + |b|);
  }

  lemma {:induction false} IfSplit(full: bool, st: Stmt, ts: seq<Token>, pos: nat)
    requires st.If? && WritableStmt(full, st) && Holds(ts, pos, ShowStmt(full, st))
    ensures
      var s, b, e := Show(full, st.cond, 0), ShowBlock(full, st.thn), ShowElse(full, st.els);
      var at := pos + 1 + |s| + |b|;
      && |ShowStmt(full, st)| == 1 + |s| + |b| + |e| && pos < |ts| && ts[pos].kind == KwIf && at + |e| <= |ts|
      && Holds(ts, pos + 1, s + b) && Holds(ts, at, e) && IsCondition(full, st.cond) && WritableBlock(full, st.thn)
  {
    hide Holds, Show, Printable, ShowBlock, ShowElse, IsCondition, WritableBlock;
    var s, b, e := Show(full, st.cond, 0), ShowBlock(full, st.thn), ShowElse(full, st.els);
    assert ShowStmt(full, st) == [Tok(KwIf)] + (s + b + e);
    Lead(ts, pos, Tok(KwIf), s + b + e);
    Split(ts, pos + 1, s + b, e);
    HoldsInside(ts, pos + 1 + |s| + |b|, e);
  }

  lemma {:induction false} ElseSplit(full: bool, els: Stmt, ts: seq<Token>, pos: nat)
    requires els != NoStmt && Holds(ts, pos, ShowElse(full, els))
    ensures |ShowElse(full, els)| == 1 + |ShowStmt(full, els)| && pos < |ts| && ts[pos].kind == KwElse
    ensures Holds(ts, pos + 1, ShowStmt(full, els))
  {
    hide Holds, ShowStmt;
    Lead(ts, pos, Tok(KwElse), ShowStmt(full, els));
  }

  lemma {:induction false} NoElseText(full: bool)
    ensures ShowElse(full, NoStmt) == []
  {
  }

  lemma {:induction false} ElseForms(full: bool, st: Stmt)
    requires st.If? && WritableStmt(full, st) && st.els != NoStmt
    ensures WritableStmt(full, st.els) && (st.els.BlockStmt? || st.els.If?)
    ensures st.els.BlockStmt? ==>
      && WritableBlock(full, st.els.block) && ShowStmt(full, st.els) == ShowBlock(full, st.els.block)
      && AsStmt(st.els.block) == st.els
  {
    hide WritableBlock, ShowBlock, IsCondition;
    if st.els.BlockStmt? { WritableNotNull(full, st.els.block); }
  }

  lemma {:induction false} WritableNotNull(full: bool, b: Block)
    requires WritableBlock(full, b)
    ensures b != NoBlock
  {
  }

  lemma {:induction false} IfReads(full: bool, st: Stmt, ts: TokenList, pos: nat)
    requires st.If? && WritableStmt(full, st) && Holds(ts, pos, ShowStmt(full, st))
    requires pos + |ShowStmt(full, st)| < |ts| && ts[pos + |ShowStmt(full, st)|].kind != KwElse
    ensures ParseStmt(ts, pos) == P(st, pos + |ShowStmt(full, st)|, true)
    ensures ts[pos].kind == KwIf
    decreases st, 1
  {
    hide *;
    var s, b := Show(full, st.cond, 0), ShowBlock(full, st.thn);
    var at := pos + 1 + |s| + |b|;
    IfSplit(full, st, ts, pos);
    if st.els == NoStmt { NoElseText(full); } else { ElseSplit(full, st.els, ts, at); }
    GuardedReads(full, st.cond, st.thn, ts, pos + 1);
    IfStep(ts, pos, st.cond, pos + 1 + |s|, st.thn, at);
    if st.els != NoStmt {
      ElseForms(full, st);
      if st.els.If? {
        IfReads(full, st.els, ts, at + 1);
      } else {
        BlockReads(full, st.els.block, ts, at + 1);
      }
    }
  }

  lemma {:induction false} BraceStmtReads(full: bool, st: Stmt, ts: TokenList, pos: nat)
    requires (st.BlockStmt? || st.ErrDefer?) && WritableStmt(full, st) && Holds(ts, pos, ShowStmt(full, st))
    requires pos + |ShowStmt(full, st)| < |ts|
    ensures ParseStmt(ts, pos) == P(st, pos + |ShowStmt(full, st)|, true)
    decreases st, 1
  {
    hide Holds, Readable, ParseStmt, ParseBlock, ShowBlock, WritableBlock;
    var b := if st.BlockStmt? then st.block else st.body;
    WritableNotNull(full, b);
    if st.ErrDefer? { Lead(ts, pos, Tok(KwErrdefer), ShowBlock(full, b)); }
    BlockReads(full, b, ts, if st.BlockStmt? then pos else pos + 1);
    BlockStep(ts, pos, b, pos + |ShowStmt(full, st)|);
  }

  lemma {:induction false} StmtReads(full: bool, st: Stmt, ts: TokenList, pos: nat)
    requires !LedByExpr(st) && WritableStmt(full, st) && Holds(ts, pos, ShowStmt(full, st))
    requires pos + |ShowStmt(full, st)| < |ts| && ts[pos + |ShowStmt(full, st)|].kind != KwElse
    ensures ParseStmt(ts, pos) == P(st, pos + |ShowStmt(full, st)|, true)
    decreases st, 2
  {
    hide *;
    Forms(full, st);
    if st.VarDecl? {
      VarReads(full, st, ts, pos);
    } else if st.Return? {
      ReturnReads(full, st, ts, pos);
    } else if st.Break? || st.Continue? || st.Defer? {
      JumpReads(full, st, ts, pos);
    } else if st.While? {
      WhileReads(full, st, ts, pos);
    } else if st.For? {
      ForReads(full, st, ts, pos);
    } else if st.If? {
      IfReads(full, st, ts, pos);
    } else {
      BraceStmtReads(full, st, ts, pos);
    }
  }

  lemma {:induction false} Forms(full: bool, st: Stmt)
    requires WritableStmt(full, st) && !LedByExpr(st)
    ensures st.VarDecl? || st.Return? || st.Break? || st.Continue? || st.Defer? || st.While? || st.For? || st.If?
            || st.BlockStmt? || st.ErrDefer?
  {
    hide WritableBlock, IsCondition, Writable, Printable;
  }

  /** A statement that an expression leads. */
  lemma {:induction false} ExprItemReads(full: bool, st: Stmt, ts: TokenList, pos: nat)
    requires LedByExpr(st) && WritableStmt(full, st) && Holds(ts, pos, ShowStmt(full, st))
    requires pos + |ShowStmt(full, st)| < |ts|
    ensures ParseExprItem(ts, pos) == P((st, NoExpr), pos + |ShowStmt(full, st)|, true)
  {
    hide *;
    LedText(full, st);
    if st.ExprStmt? {
      EndedReads(full, st.expr, ts, pos);
      ItemStep(ts, pos, st.expr, pos + |Show(full, st.expr, 0)|);
    } else {
      AssignReads(full, st.aop, st.lhs, st.rhs, ts, pos);
    }
  }

  lemma {:induction false} LedText(full: bool, st: Stmt)
    requires LedByExpr(st) && WritableStmt(full, st)
    ensures st.ExprStmt? || st.AssignStmt?
    ensures st.ExprStmt? ==> Printable(full, st.expr) && ShowStmt(full, st) == Ended(full, st.expr)
    ensures st.AssignStmt? ==>
              && Printable(full, st.lhs) && Printable(full, st.rhs)
              && ShowStmt(full, st) == Show(full, st.lhs, 0) + [Tok(AssignTok(st.aop))] + Ended(full, st.rhs)
  {
    hide Printable, Show, Ended;
  }

  lemma {:induction false} AssignReads(full: bool, aop: AssignOp, lhs: Expr, rhs: Expr, ts: TokenList, pos: nat)
    requires Printable(full, lhs) && Printable(full, rhs)
    requires Holds(ts, pos, Show(full, lhs, 0) + [Tok(AssignTok(aop))] + Ended(full, rhs))
    ensures
      var end := pos + |Show(full, lhs, 0)| + 1 + |Ended(full, rhs)|;
      ParseExprItem(ts, pos) == P((AssignStmt(aop, lhs, rhs), NoExpr), end, true)
  {
    hide *;
    var l, r := Show(full, lhs, 0), Ended(full, rhs);
    SplitAround(ts, pos, l, Tok(AssignTok(aop)), r);
    LikeKind(ts[pos + |l|], Tok(AssignTok(aop)));
    TokKind(AssignTok(aop));
    EndedReads(full, rhs, ts, pos + |l| + 1);
    ExprEnds();
    ExprReads(full, lhs, ts, pos);
    PrintableNotNull(full, lhs);
    AssignItemStep(ts, pos, lhs, pos + |l|, aop, rhs, pos + |l| + |r|);
  }

  // ---- blocks ----

  lemma KindsApart(k: Kind)
    ensures StartsExpr(k) ==> !StartsStmt(k) && k != RBrace && k != Eof && k != KwElse
    ensures StartsStmt(k) ==> k != RBrace && k != Eof && k != KwElse
  {
  }

  /** What follows an item is not an `else`. */
  lemma {:induction false} RestStarts(full: bool, stmts: seq<Stmt>, e: Expr, ts: seq<Token>, pos: nat)
    requires WritableStmts(full, stmts) && (e == NoExpr || Printable(full, e))
    requires Holds(ts, pos, ShowItems(full, stmts) + Trailing(full, e))
    requires var end := pos + |ShowItems(full, stmts) + Trailing(full, e)|; end < |ts| && ts[end].kind == RBrace
    ensures pos < |ts| && ts[pos].kind != KwElse
  {
    hide Holds, ShowStmt, WritableStmt, Printable, Show, StartsExpr, StartsStmt;
    if stmts != [] {
      var s, rest := ShowStmt(full, stmts[0]), ShowItems(full, stmts[1..]) + Trailing(full, e);
      assert ShowItems(full, stmts) + Trailing(full, e) == s + rest;
      Split(ts, pos, s, rest);
      StmtStarts(full, stmts[0], ts, pos);
      KindsApart(ts[pos].kind);
    } else if e != NoExpr {
      assert ShowItems(full, stmts) + Trailing(full, e) == Show(full, e, 0);
      ExprStartsAt(full, e, ts, pos);
      KindsApart(ts[pos].kind);
    }
  }

  lemma {:induction false} ItemsOfStmt(ts: TokenList, pos: nat, st: Stmt, mid: nat, rest: seq<Stmt>, e: Expr, end: nat)
    requires pos < |ts| && mid < |ts| && st != NoStmt && ts[pos].kind != RBrace && ts[pos].kind != Eof
    requires ParseItems(ts, mid) == P((rest, e), end, true)
    requires if StartsStmt(ts[pos].kind) then ParseStmt(ts, pos) == P(st, mid, true)
             else ParseExprItem(ts, pos) == P((st, NoExpr), mid, true)
    ensures ParseItems(ts, pos) == P(([st] + rest, e), end, true)
  {
    hide Readable, ParseStmt, ParseExprItem, StartsStmt;
    assert MoreItems(ts, P(st, mid, true)) == P(([st] + rest, e), end, true);
    hide MoreItems;
  }

  lemma {:induction false} ItemsAtEnd(ts: TokenList, pos: nat, e: Expr, end: nat)
    requires pos < |ts| && end < |ts| && ts[end].kind == RBrace
    requires if e == NoExpr then end == pos
             else !StartsStmt(ts[pos].kind) && ts[pos].kind != RBrace && ts[pos].kind != Eof
                  && ParseExprItem(ts, pos) == P((NoStmt, e), end, true)
    ensures ParseItems(ts, pos) == P(([], e), end, true)
  {
    hide Readable, ParseStmt, ParseExprItem, StartsStmt, MoreItems;
  }

  lemma {:induction false} ItemsRead(full: bool, stmts: seq<Stmt>, e: Expr, ts: TokenList, pos: nat)
    requires WritableStmts(full, stmts) && (e == NoExpr || Printable(full, e))
    requires Holds(ts, pos, ShowItems(full, stmts) + Trailing(full, e))
    requires var end := pos + |ShowItems(full, stmts) + Trailing(full, e)|; end < |ts| && ts[end].kind == RBrace
    ensures ParseItems(ts, pos) == P((stmts, e), pos + |ShowItems(full, stmts) + Trailing(full, e)|, true)
    decreases stmts, 3
  {
    hide Holds, ShowStmt, WritableStmt, Printable, Show, StartsExpr, StartsStmt, Readable, ParseStmt, ParseExprItem, ParseItems,
         ParseExpr, EndsExpr, LedByExpr;
    var end := pos + |ShowItems(full, stmts) + Trailing(full, e)|;
    if stmts == [] {
      if e != NoExpr {
        assert ShowItems(full, stmts) + Trailing(full, e) == Show(full, e, 0);
        ExprEnds();
        ExprReads(full, e, ts, pos);
        ItemStep(ts, pos, e, end);
        ExprStartsAt(full, e, ts, pos);
        KindsApart(ts[pos].kind);
      }
      ItemsAtEnd(ts, pos, e, end);
    } else {
      var st := stmts[0];
      var s, rest := ShowStmt(full, st), ShowItems(full, stmts[1..]) + Trailing(full, e);
      var mid := pos + |s|;
      assert ShowItems(full, stmts) + Trailing(full, e) == s + rest;
      Split(ts, pos, s, rest);
      StmtStarts(full, st, ts, pos);
      KindsApart(ts[pos].kind);
      RestStarts(full, stmts[1..], e, ts, mid);
      ItemsRead(full, stmts[1..], e, ts, mid);
      if LedByExpr(st) { ExprItemReads(full, st, ts, pos); } else { StmtReads(full, st, ts, pos); }
      StmtNotNull(full, st);
      ItemsOfStmt(ts, pos, st, mid, stmts[1..], e, end);
      assert stmts == [st] + stmts[1..];
    }
  }

  lemma {:induction false} StmtNotNull(full: bool, st: Stmt)
    requires WritableStmt(full, st)
    ensures st != NoStmt
  {
  }

  /** A block text is read whole, and the block comes back. */
  lemma {:induction false} BlockReads(full: bool, b: Block, ts: TokenList, pos: nat)
    requires WritableBlock(full, b) && Holds(ts, pos, ShowBlock(full, b)) && pos + |ShowBlock(full, b)| < |ts|
    ensures ParseBlock(ts, pos) == P(b, pos + |ShowBlock(full, b)|, true)
    ensures ts[pos].kind == LBrace
    decreases b, 1
  {
    hide Holds, ShowItems, Trailing, WritableStmts, Printable, Readable, ParseBlock, ParseItems;
    var s := ShowItems(full, b.stmts) + Trailing(full, b.trailing);
    assert ShowBlock(full, b) == [Tok(LBrace)] + (s + [Tok(RBrace)]);
    Lead(ts, pos, Tok(LBrace), s + [Tok(RBrace)]);
    Split(ts, pos + 1, s, [Tok(RBrace)]);
    OneWord(ts, pos + 1 + |s|, Tok(RBrace));
    ItemsRead(full, b.stmts, b.trailing, ts, pos + 1);
    BracesStep(ts, pos, b.stmts, b.trailing, pos + 1 + |s|);
  }
}
