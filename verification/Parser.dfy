/** The parser object: a cursor that moves forward over the tokens and a sticky error flag
    (src/parser.c). Each method does what the function of the same name in ParserSpec says, and its
    measure is the number of tokens left with a rank among the methods. */
module Parser {
  import opened Ast
  import opened Tokens
  import opened ParserSpec

  class Parser {
    const tokens: TokenList
    var pos: nat
    var hadError: bool

    ghost predicate Inside()
      reads this
    {
      pos < |tokens|
    }

    /** The cursor, the result and the error flag are what `p` says. */
    ghost predicate At<T>(p: P<T>, r: T, before: bool)
      reads this
    {
      pos == p.pos && r == p.value && hadError == (before || !p.ok)
    }

    constructor (tokens: TokenList)
      ensures this.tokens == tokens && pos == 0 && !hadError && Inside()
    {
      this.tokens := tokens;
      pos := 0;
      hadError := false;
    }

    function Current(): Kind
      requires Inside()
      reads this
    {
      tokens[pos].kind
    }

    /** Consumes a token of the given kind, or leaves the cursor alone. */
    method Match(k: Kind) returns (found: bool)
      requires Inside() && k != Eof
      modifies this`pos
      ensures Inside() && found == (tokens[old(pos)].kind == k) && pos == Skip(tokens, old(pos), k)
    {
      found := Current() == k;
      if found { pos := pos + 1; }
    }

    method Expect(k: Kind) returns (found: bool)
      requires Inside() && k != Eof
      modifies this
      ensures Inside() && found == (tokens[old(pos)].kind == k) && pos == Skip(tokens, old(pos), k)
      ensures hadError == (old(hadError) || !found)
    {
      found := Match(k);
      if !found { hadError := true; }
    }

    // ---- expressions ----

    method Expression() returns (r: Expr)
      requires Inside()
      modifies this
      ensures Inside() && At(ParseExpr(tokens, old(pos)), r, old(hadError))
      decreases |tokens| - pos, 3
    {
      hide ParseBp;
      r := Bp(0);
    }

    method Bp(min: nat) returns (left: Expr)
      requires Inside()
      modifies this
      ensures Inside() && At(ParseBp(tokens, old(pos), min), left, old(hadError))
      decreases |tokens| - pos, 2
    {
      hide ParsePrefix, ParsePostfix, ParseInfix;
      left := Prefix();
      if left == NoExpr { return; }
      left := Postfix(left);
      left := Infix(left, min);
    }

    /** The operator loop of `parser_parse_expr_bp`, which ends with an optional cast. */
    method Infix(first: Expr, min: nat) returns (left: Expr)
      requires Inside() && first != NoExpr
      modifies this
      ensures Inside() && At(ParseInfix(tokens, old(pos), first, min), left, old(hadError))
      decreases |tokens| - pos, 0
    {
      hide Readable, BindingPower, ParseBp, ParseType, ParseInfix, Skip;
      left := first;
      ghost var goal := ParseInfix(tokens, pos, first, min);
      ghost var ok := true;
      while BindingPower(Current()).Some? && BindingPower(Current()).value >= min
        invariant Inside() && left != NoExpr && old(pos) <= pos
        invariant goal == AndOk(ParseInfix(tokens, pos, left, min), ok)
        invariant hadError == (old(hadError) || !ok)
        decreases |tokens| - pos
      {
        InfixRound(tokens, pos, left, min, ok);
        Operators(tokens, pos);
        var op := Current().op;
        var power := BindingPower(Current()).value + 1;
        ghost var right' := ParseBp(tokens, pos + 1, power);
        pos := pos + 1;
        var right := Bp(power);
        ok := ok && right'.ok;
        if right == NoExpr { return; }
        left := Binary(op, left, right);
      }
      InfixEnd(tokens, pos, left, min, ok);
      var cast := Match(KwAs);
      if cast {
        var t := TypeExpression();
        left := Cast(left, t);
      }
    }

    method Prefix() returns (r: Expr)
      requires Inside()
      modifies this
      ensures Inside() && At(ParsePrefix(tokens, old(pos)), r, old(hadError))
      decreases |tokens| - pos, 1
    {
      hide ParseUnary, ParseBlock, ParsePrimary, ParseTry;
      var k := Current();
      if k.OpTok? && IsPrefixOp(k.op) {
        r := UnaryExpression();
      } else if k == KwTry {
        pos := pos + 1;
        r := TryExpression();
      } else if k == KwUnsafe {
        pos := pos + 1;
        var body := BraceBlock();
        r := Unsafe(body);
      } else {
        r := Primary();
      }
    }

    /** A prefix operator and its operand; the `const` of `&const` is read and dropped. */
    method UnaryExpression() returns (r: Expr)
      requires Inside() && Current().OpTok?
      modifies this
      ensures Inside() && At(ParseUnary(tokens, old(pos)), r, old(hadError))
      decreases |tokens| - pos, 0
    {
      hide Readable, ParseBp;
      More(tokens, pos);
      var op := Current().op;
      pos := pos + 1;
      if op.Amp? { var _ := Match(KwConst); }
      var operand := Bp(PrefixPower);
      r := Unary(op, operand);
    }

    method TryExpression() returns (r: Expr)
      requires Inside()
      modifies this
      ensures Inside() && At(ParseTry(tokens, old(pos)), r, old(hadError))
      decreases |tokens| - pos, 3
    {
      hide ParseBp, ParseCapture;
      var operand := Bp(1);
      r := Try(operand);
      var capture := Match(KwElse);
      if capture { r := Capture(r); }
    }

    /** What follows `else` after a `try`. */
    method Capture(tried: Expr) returns (r: Expr)
      requires Inside()
      modifies this
      ensures Inside() && At(ParseCapture(tokens, old(pos), tried), r, old(hadError))
      decreases |tokens| - pos, 1
    {
      hide Readable, ParseBlock, ParseNameThen;
      var _ := Expect(OpTok(Pipe));
      var name := NameThen(OpTok(Pipe));
      var fallback := BraceBlock();
      r := ErrorCapture(tried, name, fallback);
    }

    /** An identifier and the token that must follow it. */
    method NameThen(k: Kind) returns (name: string)
      requires Inside() && k != Eof
      modifies this
      ensures Inside() && At(ParseNameThen(tokens, old(pos), k), name, old(hadError))
    {
      hide Readable;
      name := tokens[pos].text;
      var _ := Expect(IdentTok);
      var _ := Expect(k);
    }

    method Primary() returns (r: Expr)
      requires Inside()
      modifies this
      ensures Inside() && At(ParsePrimary(tokens, old(pos)), r, old(hadError))
      decreases |tokens| - pos, 0
    {
      hide Readable, OneToken, Upper, ParseExpr, ParseStructLit, ParseArrayLit;
      var tok := tokens[pos];
      r := OneToken(tok);
      if r != NoExpr {
        OneTokenMore(tokens, pos);
        pos := pos + 1;
        if tok.kind.IdentTok? && Current() == LBrace && Upper(tok.text) { r := StructLiteral(Named(tok.text, [])); }
      } else if tok.kind.LParen? {
        More(tokens, pos);
        pos := pos + 1;
        r := Expression();
        var _ := Expect(RParen);
      } else if tok.kind.LBracket? {
        More(tokens, pos);
        pos := pos + 1;
        r := ArrayLiteral();
      } else {
        hadError := true;
      }
    }

    method StructLiteral(t: TypeExpr) returns (r: Expr)
      requires Inside()
      modifies this
      ensures Inside() && At(ParseStructLit(tokens, old(pos), t), r, old(hadError))
      decreases |tokens| - pos, 6
    {
      hide ParseInits;
      var _ := Expect(LBrace);
      var inits := Inits();
      r := StructLit(t, inits);
      var _ := Expect(RBrace);
    }

    method Inits() returns (inits: seq<FieldInit>)
      requires Inside()
      modifies this
      ensures Inside() && At(ParseInits(tokens, old(pos)), inits, old(hadError))
      decreases |tokens| - pos, 5
    {
      hide Readable, ParseInit, ParseInits, MoreInits;
      inits := [];
      ghost var goal := ParseInits(tokens, pos);
      ghost var ok := true;
      ThenStart(goal);
      while Current() != RBrace && Current() != Eof
        invariant Inside() && old(pos) <= pos && hadError == (old(hadError) || !ok)
        invariant goal == Then(inits, ok, ParseInits(tokens, pos))
        decreases |tokens| - pos
      {
        InitsRound(tokens, pos, inits, ok);
        ghost var init' := ParseInit(tokens, pos);
        MoreInitsRound(tokens, init', inits, ok);
        var init := Init();
        inits := inits + [init];
        ok := ok && init'.ok;
        var comma := Match(Comma);
        if !comma { return; }
      }
      InitsEnd(tokens, pos, inits, ok);
    }

    method Init() returns (init: FieldInit)
      requires Inside()
      modifies this
      ensures Inside() && At(ParseInit(tokens, old(pos)), init, old(hadError))
      decreases |tokens| - pos, 4
    {
      hide Readable, ParseExpr, ParseNameThen;
      var name := NameThen(Colon);
      var value := Expression();
      init := FieldInit(name, value);
    }

    method ArrayLiteral() returns (r: Expr)
      requires Inside()
      modifies this
      ensures Inside() && At(ParseArrayLit(tokens, old(pos)), r, old(hadError))
      decreases |tokens| - pos, 6
    {
      hide Readable, ParseArrayLength, ParseType, ParseElems;
      var length := ArrayLength();
      var t := TypeExpression();
      var _ := Expect(LBrace);
      var elems, sentinel := Elems();
      r := ArrayLit(t, length, elems, sentinel);
      var _ := Expect(RBrace);
    }

    /** The length between the brackets, or none, and the closing bracket. */
    method ArrayLength() returns (length: Expr)
      requires Inside()
      modifies this
      ensures Inside() && At(ParseArrayLength(tokens, old(pos)), length, old(hadError))
      decreases |tokens| - pos, 5
    {
      hide ParseExpr;
      length := NoExpr;
      var none := Match(RBracket);
      if !none {
        length := Expression();
        var _ := Expect(RBracket);
      }
    }

    method Elems() returns (elems: seq<Expr>, sentinel: bool)
      requires Inside()
      modifies this
      ensures Inside() && At(ParseElems(tokens, old(pos)), (elems, sentinel), old(hadError))
      decreases |tokens| - pos, 4
    {
      hide Readable, ParseExpr, ParseElems, Present;
      elems, sentinel := [], false;
      ghost var goal := ParseElems(tokens, pos);
      ghost var ok := true;
      ThenPairStart(goal);
      while Current() != RBrace && Current() != Eof
        invariant Inside() && old(pos) <= pos && hadError == (old(hadError) || !ok) && !sentinel
        invariant goal == ThenPair(elems, ok, ParseElems(tokens, pos))
        decreases |tokens| - pos
      {
        ElemsRound(tokens, pos, elems, ok);
        ghost var e' := ParseExpr(tokens, pos);
        var e := Expression();
        elems := elems + Present(e);
        ok := ok && e'.ok;
        var comma := Match(Comma);
        if !comma { return; }
        if Current() == RBrace {
          sentinel := true;
          return;
        }
      }
      ElemsEnd(tokens, pos, elems, ok);
    }

    method Postfix(first: Expr) returns (left: Expr)
      requires Inside() && first != NoExpr
      modifies this
      ensures Inside() && At(ParsePostfix(tokens, old(pos), first), left, old(hadError))
      decreases |tokens| - pos, 0
    {
      hide Readable, ParseCallArgs, ParseBracket, ParsePostfix;
      left := first;
      ghost var goal := ParsePostfix(tokens, pos, first);
      ghost var ok := true;
      var more := true;
      while more && (Current() == Dot || Current() == LParen || Current() == LBracket)
        invariant Inside() && old(pos) <= pos && left != NoExpr && hadError == (old(hadError) || !ok)
        invariant goal == if more then AndOk(ParsePostfix(tokens, pos, left), ok) else P(left, pos, ok)
        decreases more, |tokens| - pos
      {
        ghost var good;
        if Current() == Dot {
          left, more, good := Dotted(left, ok);
        } else if Current() == LParen {
          left, good := Called(left, ok);
        } else {
          left, good := Indexed(left, ok);
        }
        ok := ok && good;
      }
      if more { PostfixEnd(tokens, pos, left, ok); }
    }

    method Called(left: Expr, ghost ok: bool) returns (r: Expr, ghost good: bool)
      requires Inside() && left != NoExpr && Current() == LParen
      modifies this
      ensures Inside() && old(pos) < pos && r != NoExpr && hadError == (old(hadError) || !good)
      ensures AndOk(ParsePostfix(tokens, old(pos), left), ok) == AndOk(ParsePostfix(tokens, pos, r), ok && good)
      decreases |tokens| - pos, -1
    {
      hide Readable, ParseCallArgs, ParsePostfix, AndOk;
      More(tokens, pos);
      CallRound(tokens, pos, left, ok);
      good := ParseCallArgs(tokens, pos + 1).ok;
      pos := pos + 1;
      var args := CallArgs();
      r := Call(left, args);
    }

    method Indexed(left: Expr, ghost ok: bool) returns (r: Expr, ghost good: bool)
      requires Inside() && left != NoExpr && Current() == LBracket
      modifies this
      ensures Inside() && old(pos) < pos && r != NoExpr && hadError == (old(hadError) || !good)
      ensures AndOk(ParsePostfix(tokens, old(pos), left), ok) == AndOk(ParsePostfix(tokens, pos, r), ok && good)
      decreases |tokens| - pos, -1
    {
      hide Readable, ParseBracket, ParsePostfix, AndOk;
      More(tokens, pos);
      BracketRound(tokens, pos, left, ok);
      good := ParseBracket(tokens, pos + 1, left).ok;
      pos := pos + 1;
      r := Bracket(left);
    }

    /** A field or a method call after a dot; without a name the postfix loop ends there. */
    method Dotted(left: Expr, ghost ok: bool) returns (r: Expr, more: bool, ghost good: bool)
      requires Inside() && left != NoExpr && Current() == Dot
      modifies this
      ensures Inside() && old(pos) < pos && r != NoExpr && hadError == (old(hadError) || !good)
      ensures AndOk(ParsePostfix(tokens, old(pos), left), ok)
        == if more then AndOk(ParsePostfix(tokens, pos, r), ok && good) else P(r, pos, ok && good)
      decreases |tokens| - pos, -1
    {
      hide Readable, ParseCallArgs, ParseBracket, ParsePostfix;
      DotRound(tokens, pos, left, ok);
      ghost var at := pos;
      r, good := left, true;
      pos := pos + 1;
      var name := tokens[pos].text;
      more := Expect(IdentTok);
      if !more {
        good := false;
        return;
      }
      if Current() == LParen {
        More(tokens, pos);
        MethodRound(tokens, at, left, ok);
        good := ParseCallArgs(tokens, pos + 1).ok;
        pos := pos + 1;
        var args := CallArgs();
        r := MethodCall(left, name, args);
      } else {
        r := Field(left, name);
      }
    }

    method Bracket(left: Expr) returns (r: Expr)
      requires Inside()
      modifies this
      ensures Inside() && At(ParseBracket(tokens, old(pos), left), r, old(hadError))
      decreases |tokens| - pos, 4
    {
      hide Readable, ParseExpr;
      var first := Expression();
      var range := Match(OpTok(DotDot));
      if range {
        var end := Expression();
        r := Slice(left, first, end);
      } else {
        r := Index(left, first);
      }
      var _ := Expect(RBracket);
    }

    method CallArgs() returns (args: seq<Expr>)
      requires Inside()
      modifies this
      ensures Inside() && At(ParseCallArgs(tokens, old(pos)), args, old(hadError))
      decreases |tokens| - pos, 5
    {
      hide ParseArgs;
      args := [];
      if Current() != RParen { args := Args(); }
      var _ := Expect(RParen);
    }

    /** One argument, then one more for every comma. */
    method Args() returns (args: seq<Expr>)
      requires Inside()
      modifies this
      ensures Inside() && At(ParseArgs(tokens, old(pos)), args, old(hadError))
      decreases |tokens| - pos, 4
    {
      hide Readable, ParseExpr, ParseArgs, Present;
      args := [];
      ghost var goal := ParseArgs(tokens, pos);
      ghost var ok := true;
      ThenStart(goal);
      var more := true;
      while more
        invariant Inside() && old(pos) <= pos && hadError == (old(hadError) || !ok)
        invariant goal == if more then Then(args, ok, ParseArgs(tokens, pos)) else P(args, pos, ok)
        decreases more, |tokens| - pos
      {
        ArgsRound(tokens, pos, args, ok);
        ghost var e' := ParseExpr(tokens, pos);
        var e := Expression();
        args := args + Present(e);
        ok := ok && e'.ok;
        more := Match(Comma);
      }
    }

    // ---- blocks and statements ----

    method BraceBlock() returns (b: Block)
      requires Inside()
      modifies this
      ensures Inside() && At(ParseBlock(tokens, old(pos)), b, old(hadError))
      decreases |tokens| - pos, 0
    {
      hide ParseItems;
      var open := Expect(LBrace);
      if !open { return NoBlock; }
      var stmts, trailing := Items();
      b := Block(stmts, trailing);
      var _ := Expect(RBrace);
    }

    /** The loop of `parser_parse_block`: statements until the closing brace, a trailing expression or an error. */
    method Items() returns (stmts: seq<Stmt>, trailing: Expr)
      requires Inside()
      modifies this
      ensures Inside() && At(ParseItems(tokens, old(pos)), (stmts, trailing), old(hadError))
      decreases |tokens| - pos, 6
    {
      hide Readable, ParseStmt, ParseExprItem, ParseItems, StartsStmt;
      stmts, trailing := [], NoExpr;
      ghost var goal := ParseItems(tokens, pos);
      ghost var ok := true;
      ThenPairStart(goal);
      while Current() != RBrace && Current() != Eof
        invariant Inside() && old(pos) <= pos && hadError == (old(hadError) || !ok) && trailing == NoExpr
        invariant goal == ThenPair(stmts, ok, ParseItems(tokens, pos))
        decreases |tokens| - pos
      {
        var st;
        if StartsStmt(Current()) {
          StmtRound(tokens, pos, stmts, ok);
          ok := ok && ParseStmt(tokens, pos).ok;
          st := Statement();
        } else {
          ExprRound(tokens, pos, stmts, ok);
          ok := ok && ParseExprItem(tokens, pos).ok;
          st, trailing := ExprItem();
        }
        if st == NoStmt { return; }
        stmts := stmts + [st];
      }
      ItemsEnd(tokens, pos, stmts, ok);
    }

    method ExprItem() returns (st: Stmt, trailing: Expr)
      requires Inside()
      modifies this
      ensures Inside() && At(ParseExprItem(tokens, old(pos)), (st, trailing), old(hadError))
      ensures st != NoStmt ==> trailing == NoExpr
      decreases |tokens| - pos, 4
    {
      hide ParseExpr;
      st, trailing := NoStmt, NoExpr;
      var e := Expression();
      if e == NoExpr { return; }
      var k := Current();
      if k.AssignTok? {
        pos := pos + 1;
        var rhs := Expression();
        var _ := Expect(Semicolon);
        st := AssignStmt(k.aop, e, rhs);
        return;
      }
      var plain := Match(Semicolon);
      if plain {
        st := ExprStmt(e);
      } else if k == RBrace {
        trailing := e;
      } else {
        hadError := true;
      }
    }

    method Statement() returns (st: Stmt)
      requires Inside()
      modifies this
      ensures Inside() && At(ParseStmt(tokens, old(pos)), st, old(hadError))
      decreases |tokens| - pos, 5
    {
      hide Readable, ParseExpr, ParseBlock, ParseVarDecl, ParseIf, ParseFor, ParseSimple, ParseWhile, ParseReturn;
      var k := Current();
      if k == LBrace {
        var b := BraceBlock();
        st := BlockStmt(b);
        return;
      }
      if k != KwConst && k != KwVar && k != KwReturn && k != KwIf && k != KwWhile && k != KwFor && k != KwBreak
         && k != KwContinue && k != KwDefer && k != KwErrdefer {
        st := Simple();
        return;
      }
      More(tokens, pos);
      pos := pos + 1;
      if k == KwConst || k == KwVar {
        st := Declaration(k == KwConst);
      } else if k == KwReturn {
        st := ReturnStatement();
      } else if k == KwIf {
        st := IfStatement();
      } else if k == KwWhile {
        st := WhileStatement();
      } else if k == KwFor {
        st := ForStatement();
      } else if k == KwErrdefer {
        var b := BraceBlock();
        st := ErrDefer(b);
      } else {
        st := Jump(k);
      }
    }

    /** The statements that end in a semicolon right after a keyword or one expression. */
    method Jump(k: Kind) returns (st: Stmt)
      requires Inside() && (k == KwBreak || k == KwContinue || k == KwDefer)
      modifies this
      ensures Inside() && At(ParseJump(tokens, old(pos), k), st, old(hadError))
      decreases |tokens| - pos, 5
    {
      hide ParseExpr;
      if k == KwDefer {
        var e := Expression();
        st := Defer(e);
      } else {
        st := if k == KwBreak then Break else Continue;
      }
      var _ := Expect(Semicolon);
    }

    method ReturnStatement() returns (st: Stmt)
      requires Inside()
      modifies this
      ensures Inside() && At(ParseReturn(tokens, old(pos)), st, old(hadError))
      decreases |tokens| - pos, 5
    {
      hide ParseExpr;
      var bare := Match(Semicolon);
      if bare { return Return(NoExpr); }
      var v := Expression();
      st := Return(v);
      var _ := Expect(Semicolon);
    }

    method WhileStatement() returns (st: Stmt)
      requires Inside()
      modifies this
      ensures Inside() && At(ParseWhile(tokens, old(pos)), st, old(hadError))
      decreases |tokens| - pos, 5
    {
      hide ParseExpr, ParseBlock;
      var c := Expression();
      var b := BraceBlock();
      st := While(c, b);
    }

    method Declaration(isConst: bool) returns (st: Stmt)
      requires Inside()
      modifies this
      ensures Inside() && At(ParseVarDecl(tokens, old(pos), isConst), st, old(hadError))
      decreases |tokens| - pos, 5
    {
      hide Readable, ParseExpr, ParseVarType;
      var name := tokens[pos].text;
      var _ := Expect(IdentTok);
      var t := VarType();
      var init := Expression();
      var _ := Expect(Semicolon);
      st := VarDecl(isConst, name, t, init);
    }

    /** The optional type of a declaration and the `=` after it. */
    method VarType() returns (t: TypeExpr)
      requires Inside()
      modifies this
      ensures Inside() && At(ParseVarType(tokens, old(pos)), t, old(hadError))
      decreases |tokens| - pos, 4
    {
      hide ParseType;
      t := NoType;
      var typed := Match(Colon);
      if typed { t := TypeExpression(); }
      var _ := Expect(AssignTok(Assign));
    }

    method IfStatement() returns (st: Stmt)
      requires Inside()
      modifies this
      ensures Inside() && At(ParseIf(tokens, old(pos)), st, old(hadError))
      decreases |tokens| - pos, 5
    {
      hide ParseExpr, ParseBlock, ParseStmt;
      var c := Expression();
      var thn := BraceBlock();
      var els := NoStmt;
      var other := Match(KwElse);
      if other {
        if Current() == KwIf {
          els := Statement();
        } else {
          var b := BraceBlock();
          els := AsStmt(b);
        }
      }
      st := If(c, thn, els);
    }

    method ForStatement() returns (st: Stmt)
      requires Inside()
      modifies this
      ensures Inside() && At(ParseFor(tokens, old(pos)), st, old(hadError))
      decreases |tokens| - pos, 5
    {
      hide Readable, ParseExpr, ParseBlock, ParseType, ParseNameThen;
      var name := NameThen(Colon);
      var t := TypeExpression();
      var _ := Expect(KwIn);
      var iterable := Expression();
      var body := BraceBlock();
      st := For(name, t, iterable, body);
    }

    method Simple() returns (st: Stmt)
      requires Inside()
      modifies this
      ensures Inside() && At(ParseSimple(tokens, old(pos)), st, old(hadError))
      decreases |tokens| - pos, 4
    {
      hide ParseExpr;
      var e := Expression();
      if e == NoExpr { return NoStmt; }
      var k := Current();
      if k.AssignTok? {
        pos := pos + 1;
        var rhs := Expression();
        st := AssignStmt(k.aop, e, rhs);
      } else {
        st := ExprStmt(e);
      }
      var _ := Expect(Semicolon);
    }

    // ---- types ----

    method TypeExpression() returns (t: TypeExpr)
      requires Inside()
      modifies this
      ensures Inside() && At(ParseType(tokens, old(pos)), t, old(hadError))
      decreases |tokens| - pos, 1
    {
      hide Readable, ParsePrimaryType;
      t := PrimaryType();
      if t == NoType { return; }
      var optional := Match(Question);
      if optional { return OptionalType(t); }
      var union := Match(OpTok(Bang));
      if union {
        var success := TypeExpression();
        t := ErrorUnionType(t, success);
      }
    }

    method PrimaryType() returns (t: TypeExpr)
      requires Inside()
      modifies this
      ensures Inside() && At(ParsePrimaryType(tokens, old(pos)), t, old(hadError))
      decreases |tokens| - pos, 0
    {
      hide Readable, ParsePointed, ParseBracketType, ParseFnType, ParseNamed;
      var tok := tokens[pos];
      var k := tok.kind;
      if !StartsType(k) {
        hadError := true;
        return NoType;
      }
      More(tokens, pos);
      pos := pos + 1;
      if k.OpTok? {
        t := PointedType(if k.op.Amp? then Ref else Ptr);
      } else if k.LBracket? {
        t := BracketType();
      } else if k.KwFn? {
        t := FnType();
      } else if k.IdentTok? {
        t := NamedType(tok.text);
      } else {
        t := Named(if k.KwType? then "type" else "Self", []);
      }
    }

    method PointedType(k: PointedKind) returns (t: TypeExpr)
      requires Inside()
      modifies this
      ensures Inside() && At(ParsePointed(tokens, old(pos), k), t, old(hadError))
      decreases |tokens| - pos, 2
    {
      hide ParseType;
      var isConst := Match(KwConst);
      var child := TypeExpression();
      t := if k.Ref? then RefType(isConst, child)
           else if k.Ptr? then PtrType(isConst, child)
           else SliceType(isConst, child);
    }

    /** A slice or array type, after the opening bracket. */
    method BracketType() returns (t: TypeExpr)
      requires Inside()
      modifies this
      ensures Inside() && At(ParseBracketType(tokens, old(pos)), t, old(hadError))
      decreases |tokens| - pos, 4
    {
      hide ParseExpr, ParseType, ParsePointed;
      var slice := Match(RBracket);
      if slice {
        t := PointedType(Sli);
      } else {
        var length := Expression();
        var _ := Expect(RBracket);
        var elem := TypeExpression();
        t := ArrayType(length, elem);
      }
    }

    method FnType() returns (t: TypeExpr)
      requires Inside()
      modifies this
      ensures Inside() && At(ParseFnType(tokens, old(pos)), t, old(hadError))
      decreases |tokens| - pos, 4
    {
      hide ParseParamTypes, ParseType;
      var params := ParamTypes();
      var ret := NoType;
      var arrow := Match(Arrow);
      if arrow { ret := TypeExpression(); }
      t := FunctionType(params, ret);
    }

    method ParamTypes() returns (params: seq<TypeExpr>)
      requires Inside()
      modifies this
      ensures Inside() && At(ParseParamTypes(tokens, old(pos)), params, old(hadError))
      decreases |tokens| - pos, 3
    {
      hide ParseTypes;
      var _ := Expect(LParen);
      params := [];
      if Current() != RParen { params := Types(); }
      var _ := Expect(RParen);
    }

    method Types() returns (types: seq<TypeExpr>)
      requires Inside()
      modifies this
      ensures Inside() && At(ParseTypes(tokens, old(pos)), types, old(hadError))
      decreases |tokens| - pos, 2
    {
      hide Readable, ParseType, ParseTypes;
      types := [];
      ghost var goal := ParseTypes(tokens, pos);
      ghost var ok := true;
      ThenStart(goal);
      var more := true;
      while more
        invariant Inside() && old(pos) <= pos && hadError == (old(hadError) || !ok)
        invariant goal == if more then Then(types, ok, ParseTypes(tokens, pos)) else P(types, pos, ok)
        decreases more, |tokens| - pos
      {
        TypesRound(tokens, pos, types, ok);
        ghost var t' := ParseType(tokens, pos);
        var t := TypeExpression();
        types := types + [t];
        ok := ok && t'.ok;
        more := Match(Comma);
      }
    }

    /** After the name of a named type: its generic arguments, unless the name is `Self`. */
    method NamedType(name: string) returns (t: TypeExpr)
      requires Inside()
      modifies this
      ensures Inside() && At(ParseNamed(tokens, old(pos), name), t, old(hadError))
      decreases |tokens| - pos, 3
    {
      hide ParseGenericArgs;
      t := Named(name, []);
      if name != "Self" {
        var generic := Match(LParen);
        if generic {
          var args := GenericArgs();
          t := Named(name, args);
          var _ := Expect(RParen);
        }
      }
    }

    method GenericArgs() returns (args: seq<TypeExpr>)
      requires Inside()
      modifies this
      ensures Inside() && At(ParseGenericArgs(tokens, old(pos)), args, old(hadError))
      decreases |tokens| - pos, 2
    {
      hide Readable, ParseType, ParseGenericArgs, Skip;
      args := [];
      ghost var goal := ParseGenericArgs(tokens, pos);
      ghost var ok := true;
      ThenStart(goal);
      while Current() != RParen && Current() != Eof
        invariant Inside() && old(pos) <= pos && hadError == (old(hadError) || !ok)
        invariant goal == Then(args, ok, ParseGenericArgs(tokens, pos))
        decreases |tokens| - pos
      {
        GenericsRound(tokens, pos, args, ok);
        ghost var t' := ParseType(tokens, pos);
        var t := TypeExpression();
        args := args + [t];
        ok := ok && t'.ok;
        var comma := Match(Comma);
        if !comma { return; }
      }
      GenericsEnd(tokens, pos, args, ok);
    }
  }
}
