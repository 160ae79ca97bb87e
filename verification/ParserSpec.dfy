/** What the parser reads, as functions of the token list and the position. Every function moves the
    position forward or leaves it, never past the end-of-file token, and a node that is not null has
    consumed a token; that is also why the recursion ends. */
module ParserSpec {
  import opened Ast
  import opened Tokens

  /** What a parse function returns, where it stops and whether it reported no error. */
  datatype P<T> = P(value: T, pos: nat, ok: bool)

  type TokenList = ts: seq<Token> | Readable(ts) ghost witness [Token(Eof, "", 0)]

  predicate Check(ts: seq<Token>, pos: nat, k: Kind)
    requires pos < |ts|
  {
    ts[pos].kind == k
  }

  /** `parser_match` for a kind other than end of file. */
  function Skip(ts: TokenList, pos: nat, k: Kind): (r: nat)
    requires pos < |ts| && k != Eof
    ensures pos <= r <= pos + 1 && r < |ts| && (r > pos <==> ts[pos].kind == k)
  {
    if ts[pos].kind == k then pos + 1 else pos
  }

  function AndOk<T>(p: P<T>, ok: bool): P<T> {
    p.(ok := p.ok && ok)
  }

  function ExpectAfter<T>(ts: TokenList, p: P<T>, k: Kind): (r: P<T>)
    requires p.pos < |ts| && k != Eof
    ensures p.pos <= r.pos < |ts| && r.value == p.value
  {
    P(p.value, Skip(ts, p.pos, k), p.ok && ts[p.pos].kind == k)
  }

  // ---- expressions ----

  function ParseExpr(ts: TokenList, pos: nat): (r: P<Expr>)
    requires pos < |ts|
    ensures pos <= r.pos < |ts| && (r.value != NoExpr ==> r.pos > pos)
    decreases |ts| - pos, 3
  {
    ParseBp(ts, pos, 0)
  }

  function ParseBp(ts: TokenList, pos: nat, min: nat): (r: P<Expr>)
    requires pos < |ts|
    ensures pos <= r.pos < |ts| && (r.value != NoExpr ==> r.pos > pos)
    decreases |ts| - pos, 2
  {
    var p := ParsePrefix(ts, pos);
    if p.value == NoExpr then p
    else
      var q := ParsePostfix(ts, p.pos, p.value);
      AndOk(ParseInfix(ts, q.pos, q.value, min), p.ok && q.ok)
  }

  /** The operator loop and the optional cast that ends it. */
  function ParseInfix(ts: TokenList, pos: nat, left: Expr, min: nat): (r: P<Expr>)
    requires pos < |ts| && left != NoExpr
    ensures pos <= r.pos < |ts| && r.value != NoExpr
    decreases |ts| - pos, 0
  {
    var bp := BindingPower(ts[pos].kind);
    if bp.Some? && bp.value >= min then
      var right := ParseBp(ts, pos + 1, bp.value + 1);
      if right.value == NoExpr then P(left, right.pos, right.ok)
      else AndOk(ParseInfix(ts, right.pos, Binary(ts[pos].kind.op, left, right.value), min), right.ok)
    else if Check(ts, pos, KwAs) then
      var t := ParseType(ts, pos + 1);
      P(Cast(left, t.value), t.pos, t.ok)
    else P(left, pos, true)
  }

  function ParsePrefix(ts: TokenList, pos: nat): (r: P<Expr>)
    requires pos < |ts|
    ensures pos <= r.pos < |ts| && (r.value != NoExpr ==> r.pos > pos)
    decreases |ts| - pos, 1
  {
    var k := ts[pos].kind;
    if k.OpTok? && IsPrefixOp(k.op) then ParseUnary(ts, pos)
    else if k == KwTry then ParseTry(ts, pos + 1)
    else if k == KwUnsafe then
      var body := ParseBlock(ts, pos + 1);
      P(Unsafe(body.value), body.pos, body.ok)
    else ParsePrimary(ts, pos)
  }

  function ParseUnary(ts: TokenList, pos: nat): (r: P<Expr>)
    requires pos < |ts| && ts[pos].kind.OpTok?
    ensures pos < r.pos < |ts| && r.value != NoExpr
    decreases |ts| - pos, 0
  {
    var op := ts[pos].kind.op;
    var at := if op.Amp? then Skip(ts, pos + 1, KwConst) else pos + 1;
    var operand := ParseBp(ts, at, PrefixPower);
    P(Unary(op, operand.value), operand.pos, operand.ok)
  }

  /** After `try`: the operand and an optional `else |name| block`. */
  function ParseTry(ts: TokenList, pos: nat): (r: P<Expr>)
    requires pos < |ts|
    ensures pos <= r.pos < |ts| && r.value != NoExpr
    decreases |ts| - pos, 3
  {
    var operand := ParseBp(ts, pos, 1);
    if !Check(ts, operand.pos, KwElse) then P(Try(operand.value), operand.pos, operand.ok)
    else AndOk(ParseCapture(ts, operand.pos + 1, Try(operand.value)), operand.ok)
  }

  function ParseCapture(ts: TokenList, pos: nat, tried: Expr): (r: P<Expr>)
    requires pos < |ts|
    ensures pos <= r.pos < |ts| && r.value != NoExpr
    decreases |ts| - pos, 1
  {
    var bar := ExpectAfter(ts, P(tried, pos, true), OpTok(Pipe));
    var name := ParseNameThen(ts, bar.pos, OpTok(Pipe));
    var fallback := ParseBlock(ts, name.pos);
    P(ErrorCapture(tried, name.value, fallback.value), fallback.pos, bar.ok && name.ok && fallback.ok)
  }

  /** An identifier and the token that must follow it. */
  function ParseNameThen(ts: TokenList, pos: nat, k: Kind): (r: P<string>)
    requires pos < |ts| && k != Eof
    ensures pos <= r.pos < |ts|
  {
    ExpectAfter(ts, ExpectAfter(ts, P(ts[pos].text, pos, true), IdentTok), k)
  }

  predicate Upper(text: string) {
    |text| > 0 && 'A' <= text[0] <= 'Z'
  }

  /** The expression that a single token is, if it is one. */
  function OneToken(tok: Token): Expr {
    match tok.kind
    case IntTok => IntLit(tok.value)
    case FloatTok => FloatLit(tok.text)
    case StringTok => StringLit(tok.text)
    case CharTok => CharLit(tok.text)
    case KwTrue => BoolLit(true)
    case KwFalse => BoolLit(false)
    case KwNull => NullLit
    case KwUndefined => UndefinedLit
    case KwSelf => Ident("self")
    case IdentTok => Ident(tok.text)
    case _ => NoExpr
  }

  function ParsePrimary(ts: TokenList, pos: nat): (r: P<Expr>)
    requires pos < |ts|
    ensures pos <= r.pos < |ts| && (r.value != NoExpr ==> r.pos > pos)
    decreases |ts| - pos, 0
  {
    var tok := ts[pos];
    if OneToken(tok) != NoExpr then
      if tok.kind.IdentTok? && Check(ts, pos + 1, LBrace) && Upper(tok.text)
      then ParseStructLit(ts, pos + 1, Named(tok.text, []))
      else P(OneToken(tok), pos + 1, true)
    else if tok.kind.LParen? then ExpectAfter(ts, ParseExpr(ts, pos + 1), RParen)
    else if tok.kind.LBracket? then ParseArrayLit(ts, pos + 1)
    else P(NoExpr, pos, false)
  }

  function ParseStructLit(ts: TokenList, pos: nat, t: TypeExpr): (r: P<Expr>)
    requires pos < |ts|
    ensures pos <= r.pos < |ts| && r.value != NoExpr
    decreases |ts| - pos, 6
  {
    var open := ExpectAfter(ts, P((), pos, true), LBrace);
    var fields := ParseInits(ts, open.pos);
    ExpectAfter(ts, P(StructLit(t, fields.value), fields.pos, open.ok && fields.ok), RBrace)
  }

  function ParseInits(ts: TokenList, pos: nat): (r: P<seq<FieldInit>>)
    requires pos < |ts|
    ensures pos <= r.pos < |ts|
    decreases |ts| - pos, 5
  {
    if Check(ts, pos, RBrace) || Check(ts, pos, Eof) then P([], pos, true) else MoreInits(ts, ParseInit(ts, pos))
  }

  function MoreInits(ts: TokenList, init: P<FieldInit>): (r: P<seq<FieldInit>>)
    requires init.pos < |ts|
    ensures init.pos <= r.pos < |ts|
    decreases |ts| - init.pos, 4
  {
    if !Check(ts, init.pos, Comma) then P([init.value], init.pos, init.ok)
    else
      var rest := ParseInits(ts, init.pos + 1);
      P([init.value] + rest.value, rest.pos, init.ok && rest.ok)
  }

  function ParseInit(ts: TokenList, pos: nat): (r: P<FieldInit>)
    requires pos < |ts|
    ensures pos <= r.pos < |ts|
    decreases |ts| - pos, 4
  {
    var name := ParseNameThen(ts, pos, Colon);
    var value := ParseExpr(ts, name.pos);
    P(FieldInit(name.value, value.value), value.pos, name.ok && value.ok)
  }

  /** After the opening bracket of an array literal. */
  function ParseArrayLit(ts: TokenList, pos: nat): (r: P<Expr>)
    requires pos < |ts|
    ensures pos <= r.pos < |ts| && r.value != NoExpr
    decreases |ts| - pos, 6
  {
    var length := ParseArrayLength(ts, pos);
    var t := ParseType(ts, length.pos);
    var open := ExpectAfter(ts, AndOk(t, length.ok), LBrace);
    var elems := ParseElems(ts, open.pos);
    ExpectAfter(ts, P(ArrayLit(t.value, length.value, elems.value.0, elems.value.1), elems.pos, open.ok && elems.ok), RBrace)
  }

  function ParseArrayLength(ts: TokenList, pos: nat): (r: P<Expr>)
    requires pos < |ts|
    ensures pos <= r.pos < |ts|
    decreases |ts| - pos, 5
  {
    if Check(ts, pos, RBracket) then P(NoExpr, pos + 1, true) else ExpectAfter(ts, ParseExpr(ts, pos), RBracket)
  }

  /** Null elements are dropped; a comma before the closing brace marks a sentinel. */
  function ParseElems(ts: TokenList, pos: nat): (r: P<(seq<Expr>, bool)>)
    requires pos < |ts|
    ensures pos <= r.pos < |ts|
    decreases |ts| - pos, 4
  {
    if Check(ts, pos, RBrace) || Check(ts, pos, Eof) then P(([], false), pos, true)
    else
      var e := ParseExpr(ts, pos);
      var elem := Present(e.value);
      if !Check(ts, e.pos, Comma) then P((elem, false), e.pos, e.ok)
      else if Check(ts, e.pos + 1, RBrace) then P((elem, true), e.pos + 1, e.ok)
      else
        var rest := ParseElems(ts, e.pos + 1);
        P((elem + rest.value.0, rest.value.1), rest.pos, e.ok && rest.ok)
  }

  function Present(e: Expr): seq<Expr> {
    if e == NoExpr then [] else [e]
  }

  function ParsePostfix(ts: TokenList, pos: nat, left: Expr): (r: P<Expr>)
    requires pos < |ts| && left != NoExpr
    ensures pos <= r.pos < |ts| && r.value != NoExpr
    decreases |ts| - pos, 0
  {
    if Check(ts, pos, Dot) then
      if !Check(ts, pos + 1, IdentTok) then P(left, pos + 1, false)
      else
        var name := ts[pos + 1].text;
        if Check(ts, pos + 2, LParen) then
          var args := ParseCallArgs(ts, pos + 3);
          AndOk(ParsePostfix(ts, args.pos, MethodCall(left, name, args.value)), args.ok)
        else ParsePostfix(ts, pos + 2, Field(left, name))
    else if Check(ts, pos, LParen) then
      var args := ParseCallArgs(ts, pos + 1);
      AndOk(ParsePostfix(ts, args.pos, Call(left, args.value)), args.ok)
    else if Check(ts, pos, LBracket) then
      var x := ParseBracket(ts, pos + 1, left);
      AndOk(ParsePostfix(ts, x.pos, x.value), x.ok)
    else P(left, pos, true)
  }

  /** An index or a slice, after the opening bracket, through the closing one. */
  function ParseBracket(ts: TokenList, pos: nat, left: Expr): (r: P<Expr>)
    requires pos < |ts|
    ensures pos <= r.pos < |ts| && r.value != NoExpr
    decreases |ts| - pos, 4
  {
    var first := ParseExpr(ts, pos);
    if Check(ts, first.pos, OpTok(DotDot)) then
      var end := ParseExpr(ts, first.pos + 1);
      ExpectAfter(ts, P(Slice(left, first.value, end.value), end.pos, first.ok && end.ok), RBracket)
    else ExpectAfter(ts, P(Index(left, first.value), first.pos, first.ok), RBracket)
  }

  /** After the opening parenthesis of a call, through the closing one. */
  function ParseCallArgs(ts: TokenList, pos: nat): (r: P<seq<Expr>>)
    requires pos < |ts|
    ensures pos <= r.pos < |ts|
    decreases |ts| - pos, 5
  {
    ExpectAfter(ts, if Check(ts, pos, RParen) then P([], pos, true) else ParseArgs(ts, pos), RParen)
  }

  function ParseArgs(ts: TokenList, pos: nat): (r: P<seq<Expr>>)
    requires pos < |ts|
    ensures pos <= r.pos < |ts|
    decreases |ts| - pos, 4
  {
    var e := ParseExpr(ts, pos);
    if !Check(ts, e.pos, Comma) then P(Present(e.value), e.pos, e.ok)
    else
      var rest := ParseArgs(ts, e.pos + 1);
      P(Present(e.value) + rest.value, rest.pos, e.ok && rest.ok)
  }

  // ---- blocks and statements ----

  function ParseBlock(ts: TokenList, pos: nat): (r: P<Block>)
    requires pos < |ts|
    ensures pos <= r.pos < |ts| && (r.value != NoBlock ==> r.pos > pos)
    decreases |ts| - pos, 0
  {
    if !Check(ts, pos, LBrace) then P(NoBlock, pos, false)
    else
      var items := ParseItems(ts, pos + 1);
      ExpectAfter(ts, P(Block(items.value.0, items.value.1), items.pos, items.ok), RBrace)
  }

  predicate StartsStmt(k: Kind) {
    || k.KwIf? || k.KwWhile? || k.KwFor? || k.KwMatch? || k.KwErrdefer? || k.LBrace?
    || k.KwReturn? || k.KwBreak? || k.KwContinue? || k.KwDefer? || k.KwConst? || k.KwVar?
  }

  /** The statements of a block and its trailing expression. */
  function ParseItems(ts: TokenList, pos: nat): (r: P<(seq<Stmt>, Expr)>)
    requires pos < |ts|
    ensures pos <= r.pos < |ts|
    decreases |ts| - pos, 6
  {
    if Check(ts, pos, RBrace) || Check(ts, pos, Eof) then P(([], NoExpr), pos, true)
    else if StartsStmt(ts[pos].kind) then
      var st := ParseStmt(ts, pos);
      if st.value == NoStmt then P(([], NoExpr), st.pos, st.ok)
      else MoreItems(ts, st)
    else
      var item := ParseExprItem(ts, pos);
      if item.value.0 == NoStmt then P(([], item.value.1), item.pos, item.ok)
      else MoreItems(ts, P(item.value.0, item.pos, item.ok))
  }

  /** An item that starts with an expression: a statement, or nothing more than a trailing expression. */
  function ParseExprItem(ts: TokenList, pos: nat): (r: P<(Stmt, Expr)>)
    requires pos < |ts|
    ensures pos <= r.pos < |ts| && (r.value.0 != NoStmt ==> r.pos > pos)
    decreases |ts| - pos, 4
  {
    var e := ParseExpr(ts, pos);
    if e.value == NoExpr then P((NoStmt, NoExpr), e.pos, e.ok)
    else if ts[e.pos].kind.AssignTok? then
      var rhs := ParseExpr(ts, e.pos + 1);
      ExpectAfter(ts, P((AssignStmt(ts[e.pos].kind.aop, e.value, rhs.value), NoExpr), rhs.pos, e.ok && rhs.ok), Semicolon)
    else if Check(ts, e.pos, Semicolon) then P((ExprStmt(e.value), NoExpr), e.pos + 1, e.ok)
    else if Check(ts, e.pos, RBrace) then P((NoStmt, e.value), e.pos, e.ok)
    else P((NoStmt, NoExpr), e.pos, false)
  }

  function MoreItems(ts: TokenList, st: P<Stmt>): (r: P<(seq<Stmt>, Expr)>)
    requires st.pos < |ts|
    ensures st.pos <= r.pos < |ts|
    decreases |ts| - st.pos, 7
  {
    var rest := ParseItems(ts, st.pos);
    P(([st.value] + rest.value.0, rest.value.1), rest.pos, st.ok && rest.ok)
  }

  function ParseStmt(ts: TokenList, pos: nat): (r: P<Stmt>)
    requires pos < |ts|
    ensures pos <= r.pos < |ts| && (r.value != NoStmt ==> r.pos > pos)
    decreases |ts| - pos, 5
  {
    var k := ts[pos].kind;
    if k == KwConst || k == KwVar then ParseVarDecl(ts, pos + 1, k == KwConst)
    else if k == KwReturn then ParseReturn(ts, pos + 1)
    else if k == KwIf then ParseIf(ts, pos + 1)
    else if k == KwWhile then ParseWhile(ts, pos + 1)
    else if k == KwFor then ParseFor(ts, pos + 1)
    else if k == KwBreak || k == KwContinue || k == KwDefer then ParseJump(ts, pos + 1, k)
    else if k == KwErrdefer then
      var b := ParseBlock(ts, pos + 1);
      P(ErrDefer(b.value), b.pos, b.ok)
    else if k == LBrace then
      var b := ParseBlock(ts, pos);
      P(BlockStmt(b.value), b.pos, b.ok)
    else ParseSimple(ts, pos)
  }

  function ParseReturn(ts: TokenList, pos: nat): (r: P<Stmt>)
    requires pos < |ts|
    ensures pos <= r.pos < |ts| && r.value != NoStmt
    decreases |ts| - pos, 5
  {
    if Check(ts, pos, Semicolon) then P(Return(NoExpr), pos + 1, true)
    else
      var v := ParseExpr(ts, pos);
      ExpectAfter(ts, P(Return(v.value), v.pos, v.ok), Semicolon)
  }

  function ParseWhile(ts: TokenList, pos: nat): (r: P<Stmt>)
    requires pos < |ts|
    ensures pos <= r.pos < |ts| && r.value != NoStmt
    decreases |ts| - pos, 5
  {
    var c := ParseExpr(ts, pos);
    var b := ParseBlock(ts, c.pos);
    P(While(c.value, b.value), b.pos, c.ok && b.ok)
  }

  /** `break`, `continue` and `defer`, after the keyword. */
  function ParseJump(ts: TokenList, pos: nat, k: Kind): (r: P<Stmt>)
    requires pos < |ts|
    ensures pos <= r.pos < |ts| && r.value != NoStmt
    decreases |ts| - pos, 5
  {
    if k == KwDefer then
      var e := ParseExpr(ts, pos);
      ExpectAfter(ts, P(Defer(e.value), e.pos, e.ok), Semicolon)
    else ExpectAfter(ts, P(if k == KwBreak then Break else Continue, pos, true), Semicolon)
  }

  function ParseVarDecl(ts: TokenList, pos: nat, isConst: bool): (r: P<Stmt>)
    requires pos < |ts|
    ensures pos <= r.pos < |ts| && r.value != NoStmt
    decreases |ts| - pos, 5
  {
    var name := ExpectAfter(ts, P(ts[pos].text, pos, true), IdentTok);
    var t := ParseVarType(ts, name.pos);
    var init := ParseExpr(ts, t.pos);
    ExpectAfter(ts, P(VarDecl(isConst, name.value, t.value, init.value), init.pos, name.ok && t.ok && init.ok), Semicolon)
  }

  /** The optional type of a declaration and the `=` after it. */
  function ParseVarType(ts: TokenList, pos: nat): (r: P<TypeExpr>)
    requires pos < |ts|
    ensures pos <= r.pos < |ts|
    decreases |ts| - pos, 4
  {
    ExpectAfter(ts, if Check(ts, pos, Colon) then ParseType(ts, pos + 1) else P(NoType, pos, true), AssignTok(Assign))
  }

  function ParseIf(ts: TokenList, pos: nat): (r: P<Stmt>)
    requires pos < |ts|
    ensures pos <= r.pos < |ts| && r.value != NoStmt
    decreases |ts| - pos, 5
  {
    var c := ParseExpr(ts, pos);
    var t := ParseBlock(ts, c.pos);
    if !Check(ts, t.pos, KwElse) then P(If(c.value, t.value, NoStmt), t.pos, c.ok && t.ok)
    else if Check(ts, t.pos + 1, KwIf) then
      var e := ParseStmt(ts, t.pos + 1);
      P(If(c.value, t.value, e.value), e.pos, c.ok && t.ok && e.ok)
    else
      var e := ParseBlock(ts, t.pos + 1);
      P(If(c.value, t.value, AsStmt(e.value)), e.pos, c.ok && t.ok && e.ok)
  }

  /** A block node in statement position; a null block is a null statement. */
  function AsStmt(b: Block): Stmt {
    if b == NoBlock then NoStmt else BlockStmt(b)
  }

  function ParseFor(ts: TokenList, pos: nat): (r: P<Stmt>)
    requires pos < |ts|
    ensures pos <= r.pos < |ts| && r.value != NoStmt
    decreases |ts| - pos, 5
  {
    var name := ParseNameThen(ts, pos, Colon);
    var t := ParseType(ts, name.pos);
    var kw := ExpectAfter(ts, AndOk(t, name.ok), KwIn);
    var iter := ParseExpr(ts, kw.pos);
    var b := ParseBlock(ts, iter.pos);
    P(For(name.value, t.value, iter.value, b.value), b.pos, kw.ok && iter.ok && b.ok)
  }

  /** An assignment or an expression statement. */
  function ParseSimple(ts: TokenList, pos: nat): (r: P<Stmt>)
    requires pos < |ts|
    ensures pos <= r.pos < |ts| && (r.value != NoStmt ==> r.pos > pos)
    decreases |ts| - pos, 4
  {
    var e := ParseExpr(ts, pos);
    if e.value == NoExpr then P(NoStmt, e.pos, e.ok)
    else if ts[e.pos].kind.AssignTok? then
      var rhs := ParseExpr(ts, e.pos + 1);
      ExpectAfter(ts, P(AssignStmt(ts[e.pos].kind.aop, e.value, rhs.value), rhs.pos, e.ok && rhs.ok), Semicolon)
    else ExpectAfter(ts, P(ExprStmt(e.value), e.pos, e.ok), Semicolon)
  }

  // ---- types ----

  function ParseType(ts: TokenList, pos: nat): (r: P<TypeExpr>)
    requires pos < |ts|
    ensures pos <= r.pos < |ts| && (r.value != NoType ==> r.pos > pos)
    decreases |ts| - pos, 1
  {
    var p := ParsePrimaryType(ts, pos);
    if p.value == NoType then p else ParseTypeSuffix(ts, p)
  }

  function ParseTypeSuffix(ts: TokenList, p: P<TypeExpr>): (r: P<TypeExpr>)
    requires p.pos < |ts| && p.value != NoType
    ensures p.pos <= r.pos < |ts| && r.value != NoType
    decreases |ts| - p.pos, 0
  {
    if Check(ts, p.pos, Question) then P(OptionalType(p.value), p.pos + 1, p.ok)
    else if Check(ts, p.pos, OpTok(Bang)) then
      var s := ParseType(ts, p.pos + 1);
      P(ErrorUnionType(p.value, s.value), s.pos, p.ok && s.ok)
    else p
  }

  /** The tokens a type can start with: `&`, `*`, `[`, `fn`, `type`, `self` and a name. */
  predicate StartsType(k: Kind) {
    (k.OpTok? && (k.op.Amp? || k.op.Star?)) || k.LBracket? || k.KwFn? || k.KwType? || k.KwSelf? || k.IdentTok?
  }

  function ParsePrimaryType(ts: TokenList, pos: nat): (r: P<TypeExpr>)
    requires pos < |ts|
    ensures pos <= r.pos < |ts| && (r.value != NoType ==> r.pos > pos)
    decreases |ts| - pos, 0
  {
    var k := ts[pos].kind;
    if !StartsType(k) then P(NoType, pos, false)
    else if k.OpTok? then ParsePointed(ts, pos + 1, if k.op.Amp? then Ref else Ptr)
    else if k.LBracket? then ParseBracketType(ts, pos + 1)
    else if k.KwFn? then ParseFnType(ts, pos + 1)
    else if k.IdentTok? then ParseNamed(ts, pos + 1, ts[pos].text)
    else P(Named(if k.KwType? then "type" else "Self", []), pos + 1, true)
  }

  function ParseBracketType(ts: TokenList, pos: nat): (r: P<TypeExpr>)
    requires pos < |ts|
    ensures pos <= r.pos < |ts| && r.value != NoType
    decreases |ts| - pos, 4
  {
    if Check(ts, pos, RBracket) then ParsePointed(ts, pos + 1, Sli)
    else
      var length := ExpectAfter(ts, ParseExpr(ts, pos), RBracket);
      var elem := ParseType(ts, length.pos);
      P(ArrayType(length.value, elem.value), elem.pos, length.ok && elem.ok)
  }

  function ParseNamed(ts: TokenList, pos: nat, name: string): (r: P<TypeExpr>)
    requires pos < |ts|
    ensures pos <= r.pos < |ts| && r.value != NoType
    decreases |ts| - pos, 3
  {
    if name == "Self" || !Check(ts, pos, LParen) then P(Named(name, []), pos, true)
    else
      var args := ParseGenericArgs(ts, pos + 1);
      ExpectAfter(ts, P(Named(name, args.value), args.pos, args.ok), RParen)
  }

  datatype PointedKind = Ref | Ptr | Sli

  /** The optional `const` and the type behind a reference, a pointer or a slice. */
  function ParsePointed(ts: TokenList, pos: nat, k: PointedKind): (r: P<TypeExpr>)
    requires pos < |ts|
    ensures pos <= r.pos < |ts| && r.value != NoType
    decreases |ts| - pos, 2
  {
    var at := Skip(ts, pos, KwConst);
    var isConst := at > pos;
    var child := ParseType(ts, at);
    var t := match k
      case Ref => RefType(isConst, child.value)
      case Ptr => PtrType(isConst, child.value)
      case Sli => SliceType(isConst, child.value);
    P(t, child.pos, child.ok)
  }

  function ParseFnType(ts: TokenList, pos: nat): (r: P<TypeExpr>)
    requires pos < |ts|
    ensures pos <= r.pos < |ts| && r.value != NoType
    decreases |ts| - pos, 4
  {
    var params := ParseParamTypes(ts, pos);
    if !Check(ts, params.pos, Arrow) then P(FunctionType(params.value, NoType), params.pos, params.ok)
    else
      var ret := ParseType(ts, params.pos + 1);
      P(FunctionType(params.value, ret.value), ret.pos, params.ok && ret.ok)
  }

  function ParseParamTypes(ts: TokenList, pos: nat): (r: P<seq<TypeExpr>>)
    requires pos < |ts|
    ensures pos <= r.pos < |ts|
    decreases |ts| - pos, 3
  {
    var open := ExpectAfter(ts, P((), pos, true), LParen);
    var params := if Check(ts, open.pos, RParen) then P([], open.pos, true) else ParseTypes(ts, open.pos);
    ExpectAfter(ts, AndOk(params, open.ok), RParen)
  }

  /** Parameter types: at least one, separated by commas. */
  function ParseTypes(ts: TokenList, pos: nat): (r: P<seq<TypeExpr>>)
    requires pos < |ts|
    ensures pos <= r.pos < |ts|
    decreases |ts| - pos, 2
  {
    var t := ParseType(ts, pos);
    if !Check(ts, t.pos, Comma) then P([t.value], t.pos, t.ok)
    else
      var rest := ParseTypes(ts, t.pos + 1);
      P([t.value] + rest.value, rest.pos, t.ok && rest.ok)
  }

  /** Generic arguments: a trailing comma is allowed. */
  function ParseGenericArgs(ts: TokenList, pos: nat): (r: P<seq<TypeExpr>>)
    requires pos < |ts|
    ensures pos <= r.pos < |ts|
    decreases |ts| - pos, 2
  {
    if Check(ts, pos, RParen) || Check(ts, pos, Eof) then P([], pos, true)
    else
      var t := ParseType(ts, pos);
      if !Check(ts, t.pos, Comma) then P([t.value], t.pos, t.ok)
      else
        var rest := ParseGenericArgs(ts, t.pos + 1);
        P([t.value] + rest.value, rest.pos, t.ok && rest.ok)
  }

  // ---- one round of each list: the same lists, as the loops of the parser build them ----

  /** A token that is not the end of file has one after it. */
  lemma More(ts: TokenList, pos: nat)
    requires pos < |ts| && ts[pos].kind != Eof
    ensures pos + 1 < |ts|
  {
  }

  lemma OneTokenMore(ts: TokenList, pos: nat)
    requires pos < |ts| && OneToken(ts[pos]) != NoExpr
    ensures pos + 1 < |ts|
  {
    More(ts, pos);
  }

  /** A list parsed after what has been gathered so far. */
  function Then<T>(acc: seq<T>, ok: bool, rest: P<seq<T>>): P<seq<T>> {
    P(acc + rest.value, rest.pos, ok && rest.ok)
  }

  lemma ThenStart<T>(rest: P<seq<T>>)
    ensures Then([], true, rest) == rest
  {
    assert [] + rest.value == rest.value;
  }

  lemma ThenThen<T>(acc: seq<T>, ok: bool, one: seq<T>, ok': bool, rest: P<seq<T>>)
    ensures Then(acc, ok, Then(one, ok', rest)) == Then(acc + one, ok && ok', rest)
  {
    assert acc + (one + rest.value) == acc + one + rest.value;
  }

  /** An infix operator is an operator token, so it is not the last token. */
  lemma Operators(ts: TokenList, pos: nat)
    requires pos < |ts| && BindingPower(ts[pos].kind).Some?
    ensures pos + 1 < |ts| && ts[pos].kind.OpTok?
  {
    More(ts, pos);
  }

  lemma ArgsRound(ts: TokenList, pos: nat, acc: seq<Expr>, ok: bool)
    requires pos < |ts|
    ensures
      var e := ParseExpr(ts, pos);
      var acc' := acc + Present(e.value);
      Then(acc, ok, ParseArgs(ts, pos))
      == if ts[e.pos].kind == Comma then Then(acc', ok && e.ok, ParseArgs(ts, e.pos + 1)) else P(acc', e.pos, ok && e.ok)
  {
    hide Readable, ParseExpr, Present;
    var e := ParseExpr(ts, pos);
    if ts[e.pos].kind == Comma {
      More(ts, e.pos);
      ThenThen(acc, ok, Present(e.value), e.ok, ParseArgs(ts, e.pos + 1));
    }
  }

  lemma {:induction false} MoreInitsRound(ts: TokenList, e: P<FieldInit>, acc: seq<FieldInit>, ok: bool)
    requires e.pos < |ts|
    ensures Then(acc, ok, MoreInits(ts, e))
      == if ts[e.pos].kind == Comma then Then(acc + [e.value], ok && e.ok, ParseInits(ts, e.pos + 1))
         else P(acc + [e.value], e.pos, ok && e.ok)
  {
    hide Readable, ParseInit, ParseInits;
    if ts[e.pos].kind == Comma {
      More(ts, e.pos);
      ThenThen(acc, ok, [e.value], e.ok, ParseInits(ts, e.pos + 1));
    }
  }

  lemma {:induction false} InitsEnd(ts: TokenList, pos: nat, acc: seq<FieldInit>, ok: bool)
    requires pos < |ts| && (ts[pos].kind == RBrace || ts[pos].kind == Eof)
    ensures Then(acc, ok, ParseInits(ts, pos)) == P(acc, pos, ok)
  {
    hide Readable, ParseInit, MoreInits;
    assert acc + [] == acc;
  }

  lemma {:induction false} InitsRound(ts: TokenList, pos: nat, acc: seq<FieldInit>, ok: bool)
    requires pos < |ts| && ts[pos].kind != RBrace && ts[pos].kind != Eof
    ensures Then(acc, ok, ParseInits(ts, pos)) == Then(acc, ok, MoreInits(ts, ParseInit(ts, pos)))
  {
    hide Readable, ParseInit, MoreInits, Then;
  }

  lemma TypesRound(ts: TokenList, pos: nat, acc: seq<TypeExpr>, ok: bool)
    requires pos < |ts|
    ensures
      var e := ParseType(ts, pos);
      Then(acc, ok, ParseTypes(ts, pos))
      == if ts[e.pos].kind == Comma then Then(acc + [e.value], ok && e.ok, ParseTypes(ts, e.pos + 1))
         else P(acc + [e.value], e.pos, ok && e.ok)
  {
    hide Readable, ParseType;
    var e := ParseType(ts, pos);
    if ts[e.pos].kind == Comma {
      More(ts, e.pos);
      ThenThen(acc, ok, [e.value], e.ok, ParseTypes(ts, e.pos + 1));
    }
  }

  lemma {:induction false} GenericsRound(ts: TokenList, pos: nat, acc: seq<TypeExpr>, ok: bool)
    requires pos < |ts| && ts[pos].kind != RParen && ts[pos].kind != Eof
    ensures
      var e := ParseType(ts, pos);
      Then(acc, ok, ParseGenericArgs(ts, pos))
      == if ts[e.pos].kind == Comma then Then(acc + [e.value], ok && e.ok, ParseGenericArgs(ts, e.pos + 1))
         else P(acc + [e.value], e.pos, ok && e.ok)
  {
    hide Readable, ParseType;
    var e := ParseType(ts, pos);
    if ts[e.pos].kind == Comma {
      More(ts, e.pos);
      ThenThen(acc, ok, [e.value], e.ok, ParseGenericArgs(ts, e.pos + 1));
    }
  }

  lemma {:induction false} GenericsEnd(ts: TokenList, pos: nat, acc: seq<TypeExpr>, ok: bool)
    requires pos < |ts| && (ts[pos].kind == RParen || ts[pos].kind == Eof)
    ensures Then(acc, ok, ParseGenericArgs(ts, pos)) == P(acc, pos, ok)
  {
    hide Readable, ParseType;
    assert acc + [] == acc;
  }

  /** The same for lists that come with a second result. */
  function ThenPair<T, U>(acc: seq<T>, ok: bool, rest: P<(seq<T>, U)>): P<(seq<T>, U)> {
    P((acc + rest.value.0, rest.value.1), rest.pos, ok && rest.ok)
  }

  lemma ThenPairStart<T, U>(rest: P<(seq<T>, U)>)
    ensures ThenPair([], true, rest) == rest
  {
    assert [] + rest.value.0 == rest.value.0;
  }

  lemma ThenThenPair<T, U>(acc: seq<T>, ok: bool, one: seq<T>, ok': bool, rest: P<(seq<T>, U)>)
    ensures ThenPair(acc, ok, ThenPair(one, ok', rest)) == ThenPair(acc + one, ok && ok', rest)
  {
    assert acc + (one + rest.value.0) == acc + one + rest.value.0;
  }

  lemma ElemsRound(ts: TokenList, pos: nat, acc: seq<Expr>, ok: bool)
    requires pos < |ts| && ts[pos].kind != RBrace && ts[pos].kind != Eof
    ensures
      var e := ParseExpr(ts, pos);
      var acc' := acc + Present(e.value);
      ThenPair(acc, ok, ParseElems(ts, pos))
      == if ts[e.pos].kind != Comma then P((acc', false), e.pos, ok && e.ok)
         else if ts[e.pos + 1].kind == RBrace then P((acc', true), e.pos + 1, ok && e.ok)
         else ThenPair(acc', ok && e.ok, ParseElems(ts, e.pos + 1))
  {
    hide Readable, ParseExpr, Present;
    var e := ParseExpr(ts, pos);
    if ts[e.pos].kind == Comma {
      More(ts, e.pos);
      ThenThenPair(acc, ok, Present(e.value), e.ok, ParseElems(ts, e.pos + 1));
    }
  }

  lemma {:induction false} ElemsEnd(ts: TokenList, pos: nat, acc: seq<Expr>, ok: bool)
    requires pos < |ts| && (ts[pos].kind == RBrace || ts[pos].kind == Eof)
    ensures ThenPair(acc, ok, ParseElems(ts, pos)) == P((acc, false), pos, ok)
  {
    hide Readable, ParseExpr;
    assert acc + [] == acc;
  }

  lemma {:induction false} ItemsEnd(ts: TokenList, pos: nat, acc: seq<Stmt>, ok: bool)
    requires pos < |ts| && (ts[pos].kind == RBrace || ts[pos].kind == Eof)
    ensures ThenPair(acc, ok, ParseItems(ts, pos)) == P((acc, NoExpr), pos, ok)
  {
    hide Readable, ParseStmt, StartsStmt, MoreItems, ParseExprItem;
    assert acc + [] == acc;
  }

  lemma {:induction false} MoreRound(ts: TokenList, st: P<Stmt>, acc: seq<Stmt>, ok: bool)
    requires st.pos < |ts|
    ensures ThenPair(acc, ok, MoreItems(ts, st)) == ThenPair(acc + [st.value], ok && st.ok, ParseItems(ts, st.pos))
  {
    hide Readable, ParseItems;
    ThenThenPair(acc, ok, [st.value], st.ok, ParseItems(ts, st.pos));
  }

  lemma {:induction false} StmtRound(ts: TokenList, pos: nat, acc: seq<Stmt>, ok: bool)
    requires pos < |ts| && ts[pos].kind != RBrace && ts[pos].kind != Eof && StartsStmt(ts[pos].kind)
    ensures
      var st := ParseStmt(ts, pos);
      ThenPair(acc, ok, ParseItems(ts, pos))
      == if st.value == NoStmt then P((acc, NoExpr), st.pos, ok && st.ok)
         else ThenPair(acc + [st.value], ok && st.ok, ParseItems(ts, st.pos))
  {
    hide Readable, ParseStmt, StartsStmt, MoreItems;
    assert acc + [] == acc;
    MoreRound(ts, ParseStmt(ts, pos), acc, ok);
  }

  lemma {:induction false} ExprRound(ts: TokenList, pos: nat, acc: seq<Stmt>, ok: bool)
    requires pos < |ts| && ts[pos].kind != RBrace && ts[pos].kind != Eof && !StartsStmt(ts[pos].kind)
    ensures
      var item := ParseExprItem(ts, pos);
      ThenPair(acc, ok, ParseItems(ts, pos))
      == if item.value.0 == NoStmt then P((acc, item.value.1), item.pos, ok && item.ok)
         else ThenPair(acc + [item.value.0], ok && item.ok, ParseItems(ts, item.pos))
  {
    hide Readable, ParseExprItem, StartsStmt, MoreItems;
    assert acc + [] == acc;
    var item := ParseExprItem(ts, pos);
    MoreRound(ts, P(item.value.0, item.pos, item.ok), acc, ok);
  }

  // ---- one round of the operator loop and of the postfix loop ----

  lemma InfixRound(ts: TokenList, pos: nat, left: Expr, min: nat, ok: bool)
    requires pos < |ts| && left != NoExpr && BindingPower(ts[pos].kind).Some? && BindingPower(ts[pos].kind).value >= min
    ensures
      var right := ParseBp(ts, pos + 1, BindingPower(ts[pos].kind).value + 1);
      AndOk(ParseInfix(ts, pos, left, min), ok)
      == if right.value == NoExpr then P(left, right.pos, ok && right.ok)
         else AndOk(ParseInfix(ts, right.pos, Binary(ts[pos].kind.op, left, right.value), min), ok && right.ok)
  {
    hide Readable, ParseBp;
  }

  lemma {:induction false} InfixEnd(ts: TokenList, pos: nat, left: Expr, min: nat, ok: bool)
    requires pos < |ts| && left != NoExpr && !(BindingPower(ts[pos].kind).Some? && BindingPower(ts[pos].kind).value >= min)
    ensures
      AndOk(ParseInfix(ts, pos, left, min), ok)
      == if ts[pos].kind != KwAs then P(left, pos, ok)
         else var t := ParseType(ts, pos + 1); P(Cast(left, t.value), t.pos, ok && t.ok)
  {
    hide Readable, ParseBp, ParseType;
  }

  lemma CallRound(ts: TokenList, pos: nat, left: Expr, ok: bool)
    requires pos < |ts| && left != NoExpr && ts[pos].kind == LParen
    ensures
      var args := ParseCallArgs(ts, pos + 1);
      AndOk(ParsePostfix(ts, pos, left), ok) == AndOk(ParsePostfix(ts, args.pos, Call(left, args.value)), ok && args.ok)
  {
    hide Readable, ParseCallArgs, ParseBracket;
  }

  lemma BracketRound(ts: TokenList, pos: nat, left: Expr, ok: bool)
    requires pos < |ts| && left != NoExpr && ts[pos].kind == LBracket
    ensures
      var x := ParseBracket(ts, pos + 1, left);
      AndOk(ParsePostfix(ts, pos, left), ok) == AndOk(ParsePostfix(ts, x.pos, x.value), ok && x.ok)
  {
    hide Readable, ParseCallArgs, ParseBracket;
  }

  lemma DotRound(ts: TokenList, pos: nat, left: Expr, ok: bool)
    requires pos < |ts| && left != NoExpr && ts[pos].kind == Dot
    ensures pos + 1 < |ts| && (ts[pos + 1].kind == IdentTok ==> pos + 2 < |ts|)
    ensures ts[pos + 1].kind != IdentTok ==> AndOk(ParsePostfix(ts, pos, left), ok) == P(left, pos + 1, false)
    ensures ts[pos + 1].kind == IdentTok && ts[pos + 2].kind != LParen ==>
      AndOk(ParsePostfix(ts, pos, left), ok) == AndOk(ParsePostfix(ts, pos + 2, Field(left, ts[pos + 1].text)), ok)
  {
    More(ts, pos);
    if ts[pos + 1].kind == IdentTok { More(ts, pos + 1); }
    hide Readable, ParseCallArgs, ParseBracket;
  }

  lemma MethodRound(ts: TokenList, pos: nat, left: Expr, ok: bool)
    requires pos + 3 < |ts| && left != NoExpr
    requires ts[pos].kind == Dot && ts[pos + 1].kind == IdentTok && ts[pos + 2].kind == LParen
    ensures
      var args := ParseCallArgs(ts, pos + 3);
      AndOk(ParsePostfix(ts, pos, left), ok)
      == AndOk(ParsePostfix(ts, args.pos, MethodCall(left, ts[pos + 1].text, args.value)), ok && args.ok)
  {
    hide Readable, ParseCallArgs, ParseBracket;
  }

  lemma {:induction false} PostfixEnd(ts: TokenList, pos: nat, left: Expr, ok: bool)
    requires pos < |ts| && left != NoExpr
    requires ts[pos].kind != Dot && ts[pos].kind != LParen && ts[pos].kind != LBracket
    ensures AndOk(ParsePostfix(ts, pos, left), ok) == P(left, pos, ok)
  {
    hide Readable, ParseCallArgs, ParseBracket;
  }
}
