/** Printing an expression and parsing the tokens gives the expression back, both with the fewest
    parentheses and with all of them, as the C generator prints (src/codegen_c.c:633-725). */
module PrattRoundTrip {
  import opened Ast
  import opened Tokens
  import opened ParserSpec

  function Tok(k: Kind): Token {
    Token(k, "", 0)
  }

  function Parens(s: seq<Token>): seq<Token> {
    [Tok(LParen)] + s + [Tok(RParen)]
  }

  function Power(op: Op): nat {
    BindingPower(OpTok(op)).GetOr(0)
  }

  /** The expressions both printers cover. In `full` style, which is the generator's, ranges and calls of
      a field are left out: C has no range, and `o.f(x)` reads as a method call. */
  predicate Printable(full: bool, e: Expr)
    decreases e
  {
    match e
    case IntLit(_) => true
    case FloatLit(_) => !full
    case StringLit(_) => !full
    case CharLit(_) => !full
    case BoolLit(_) => true
    case NullLit => !full
    case UndefinedLit => !full
    case Ident(_) => true
    case Binary(op, l, r) =>
      BindingPower(OpTok(op)).Some? && (full ==> op != DotDot) && Printable(full, l) && Printable(full, r)
    case Unary(op, x) => IsPrefixOp(op) && Printable(full, x)
    case Call(f, args) => Printable(full, f) && (full ==> !f.Field?) && forall a :: a in args ==> Printable(full, a)
    case MethodCall(o, _, args) => !full && Printable(full, o) && forall a :: a in args ==> Printable(full, a)
    case Field(o, _) => Printable(full, o)
    case Index(o, i) => Printable(full, o) && Printable(full, i)
    case _ => false
  }

  /** The text of an expression that must parse where operators of power below `min` end it. */
  function Show(full: bool, e: Expr, min: nat): seq<Token>
    decreases e, 1
  {
    if (e.Binary? && (full || Power(e.op) < min)) || (full && e.Unary?) then Parens(Bare(full, e)) else Bare(full, e)
  }

  /** The text without enclosing parentheses. */
  function Bare(full: bool, e: Expr): seq<Token>
    decreases e, 0
  {
    match e
    case IntLit(v) => [Token(IntTok, "", v)]
    case FloatLit(t) => [Token(FloatTok, t, 0)]
    case StringLit(t) => [Token(StringTok, t, 0)]
    case CharLit(t) => [Token(CharTok, t, 0)]
    case BoolLit(b) => [Tok(if b then KwTrue else KwFalse)]
    case NullLit => [Tok(KwNull)]
    case UndefinedLit => [Tok(KwUndefined)]
    case Ident(x) => [Token(IdentTok, x, 0)]
    case Binary(op, l, r) => Show(full, l, Power(op)) + [Tok(OpTok(op))] + Show(full, r, Power(op) + 1)
    case Unary(op, x) => [Tok(OpTok(op))] + Show(full, x, PrefixPower)
    case Call(f, args) => Head(full, f, true) + ShowArgs(full, args)
    case MethodCall(o, x, args) => Head(full, o, false) + [Tok(Dot), Token(IdentTok, x, 0)] + ShowArgs(full, args)
    case Field(o, x) => Head(full, o, false) + [Tok(Dot), Token(IdentTok, x, 0)]
    case Index(o, i) => Head(full, o, false) + [Tok(LBracket)] + Show(full, i, 0) + [Tok(RBracket)]
    case _ => []
  }

  predicate HeadParens(full: bool, e: Expr, called: bool) {
    (!full && (e.Binary? || e.Unary?)) || (called && e.Field?)
  }

  /** An expression that a postfix follows. */
  function Head(full: bool, e: Expr, called: bool): seq<Token>
    decreases e, 2
  {
    if HeadParens(full, e, called) then Parens(Show(full, e, 0)) else Show(full, e, 0)
  }

  function ShowArgs(full: bool, args: seq<Expr>): seq<Token>
    decreases args, 1
  {
    [Tok(LParen)] + (if args == [] then [] else Listed(full, args)) + [Tok(RParen)]
  }

  function Listed(full: bool, args: seq<Expr>): seq<Token>
    requires args != []
    decreases args, 0
  {
    Show(full, args[0], 0) + if |args| == 1 then [] else [Tok(Comma)] + Listed(full, args[1..])
  }

  // ---- the token list holds a text at a position ----

  /** Tokens that the parser cannot tell apart. */
  predicate Like(t: Token, u: Token) {
    && t.kind == u.kind
    && (t.kind == IntTok ==> t.value == u.value)
    && (t.kind == IdentTok || t.kind == FloatTok || t.kind == StringTok || t.kind == CharTok ==> t.text == u.text)
  }

  predicate Holds(ts: seq<Token>, pos: nat, s: seq<Token>) {
    pos + |s| <= |ts| && forall i :: 0 <= i < |s| ==> Like(ts[pos + i], s[i])
  }

  lemma Split(ts: seq<Token>, pos: nat, a: seq<Token>, b: seq<Token>)
    requires Holds(ts, pos, a + b)
    ensures Holds(ts, pos, a) && Holds(ts, pos + |a|, b)
  {
    forall i | 0 <= i < |a| ensures Like(ts[pos + i], a[i]) { assert a[i] == (a + b)[i]; }
    forall i | 0 <= i < |b| ensures Like(ts[pos + |a| + i], b[i]) { assert b[i] == (a + b)[|a| + i]; }
  }

  lemma SplitAround(ts: seq<Token>, pos: nat, a: seq<Token>, t: Token, b: seq<Token>)
    requires Holds(ts, pos, a + [t] + b)
    ensures Holds(ts, pos, a) && Holds(ts, pos + |a| + 1, b) && pos + |a| + 1 + |b| <= |ts| && Like(ts[pos + |a|], t)
  {
    Split(ts, pos, a + [t], b);
    Split(ts, pos, a, [t]);
    assert Like(ts[pos + |a| + 0], [t][0]);
  }

  lemma SplitParens(ts: seq<Token>, pos: nat, s: seq<Token>)
    requires Holds(ts, pos, Parens(s))
    ensures Holds(ts, pos + 1, s) && ts[pos].kind == LParen && ts[pos + 1 + |s|].kind == RParen
  {
    assert Parens(s) == [Tok(LParen)] + (s + [Tok(RParen)]);
    Split(ts, pos, [Tok(LParen)], s + [Tok(RParen)]);
    Split(ts, pos + 1, s, [Tok(RParen)]);
    assert Like(ts[pos + 0], [Tok(LParen)][0]) && Like(ts[pos + 1 + |s| + 0], [Tok(RParen)][0]);
  }

  /** The token at the start of a text is the text's first, as far as the parser can tell. */
  lemma First(ts: seq<Token>, pos: nat, s: seq<Token>)
    requires Holds(ts, pos, s) && |s| > 0
    ensures pos + |s| <= |ts| && Like(ts[pos], s[0])
  {
    assert Like(ts[pos + 0], s[0]);
  }

  /** No postfix or cast continues the expression here. */
  predicate Calm(ts: seq<Token>, end: nat) {
    && 0 < end < |ts|
    && ts[end].kind != Dot && ts[end].kind != LParen && ts[end].kind != LBracket && ts[end].kind != KwAs
  }

  /** The last leaf of the text is a capitalised name of its own, which a brace after it makes the head of
      a struct literal; the name of a field is no such leaf. */
  predicate EndsInName(full: bool, e: Expr, min: nat)
    decreases e, 1
  {
    !((e.Binary? && (full || Power(e.op) < min)) || (full && e.Unary?)) && BareEndsInName(full, e)
  }

  predicate BareEndsInName(full: bool, e: Expr)
    decreases e, 0
  {
    match e
    case Ident(x) => Upper(x)
    case Binary(op, _, r) => EndsInName(full, r, Power(op) + 1)
    case Unary(_, x) => EndsInName(full, x, PrefixPower)
    case _ => false
  }

  /** No brace follows where it would be read as part of the expression. */
  predicate Unbraced(ts: seq<Token>, end: nat, name: bool)
    requires end < |ts|
  {
    name ==> ts[end].kind != LBrace
  }

  /** The next operator binds no tighter than `power`. */
  predicate Looser(ts: seq<Token>, end: nat, power: nat)
    requires end < |ts|
  {
    var bp := BindingPower(ts[end].kind);
    bp.Some? ==> bp.value <= power
  }

  /** The tokens that expression texts start with. */
  predicate StartsExpr(k: Kind) {
    || k.IntTok? || k.FloatTok? || k.StringTok? || k.CharTok? || k.KwTrue? || k.KwFalse? || k.KwNull? || k.KwUndefined?
    || k.IdentTok? || k.OpTok? || k.LParen?
  }

  predicate Starts(s: seq<Token>) {
    |s| > 0 && StartsExpr(s[0].kind)
  }

  lemma {:induction false} ShowStarts(full: bool, e: Expr, min: nat)
    requires Printable(full, e)
    ensures Starts(Show(full, e, min))
    decreases e, 1
  {
    BareStarts(full, e);
  }

  lemma {:induction false} HeadStarts(full: bool, e: Expr, called: bool)
    requires Printable(full, e)
    ensures Starts(Head(full, e, called))
    decreases e, 2
  {
    ShowStarts(full, e, 0);
  }

  lemma {:induction false} BareStarts(full: bool, e: Expr)
    requires Printable(full, e)
    ensures Starts(Bare(full, e))
    decreases e, 0
  {
    hide Show, Head, BindingPower, ShowArgs, Power, Starts;
    if e.Binary? {
      var l := Show(full, e.left, Power(e.op));
      var r := [Tok(OpTok(e.op))] + Show(full, e.right, Power(e.op) + 1);
      ShowStarts(full, e.left, Power(e.op));
      StartsAppend(l, r);
      assert Bare(full, e) == l + r;
    } else if e.Call? {
      HeadStarts(full, e.callee, true);
      StartsAppend(Head(full, e.callee, true), ShowArgs(full, e.args));
    } else if e.MethodCall? || e.Field? || e.Index? {
      var o := if e.MethodCall? then e.receiver else e.obj;
      HeadStarts(full, o, false);
      DottedStarts(full, e, Head(full, o, false));
    } else {
      AtomStarts(full, e);
    }
  }

  lemma {:induction false} AtomStarts(full: bool, e: Expr)
    requires Printable(full, e)
    requires !e.Binary? && !e.Call? && !e.MethodCall? && !e.Field? && !e.Index?
    ensures Starts(Bare(full, e))
  {
    hide Show;
  }

  lemma {:induction false} DottedStarts(full: bool, e: Expr, h: seq<Token>)
    requires e.MethodCall? || e.Field? || e.Index?
    requires h == Head(full, if e.MethodCall? then e.receiver else e.obj, false) && Starts(h)
    ensures Starts(Bare(full, e))
  {
    hide Show, Head, ShowArgs;
    assert Bare(full, e)[0] == h[0];
  }

  lemma StartsAppend(a: seq<Token>, b: seq<Token>)
    requires Starts(a)
    ensures Starts(a + b)
  {
  }

  // ---- single steps of the parser ----

  /** The prefix parser reads an expression and the postfix loop is left standing after it. */
  ghost predicate ReadsUpTo(ts: TokenList, pos: nat, e: Expr, end: nat)
    requires pos < |ts| && end < |ts| && e != NoExpr
  {
    var p := ParsePrefix(ts, pos);
    p.value != NoExpr && p.ok && ParsePostfix(ts, p.pos, p.value) == ParsePostfix(ts, end, e)
  }

  lemma {:induction false} ReadsOn(ts: TokenList, pos: nat, o: Expr, at: nat, e: Expr, end: nat)
    requires pos < |ts| && at < |ts| && end < |ts| && o != NoExpr && e != NoExpr
    requires ReadsUpTo(ts, pos, o, at) && ParsePostfix(ts, at, o) == ParsePostfix(ts, end, e)
    ensures ReadsUpTo(ts, pos, e, end)
  {
    hide ParsePrefix, ParsePostfix;
  }

  lemma {:induction false} FromReads(ts: TokenList, pos: nat, e: Expr, end: nat, m: nat)
    requires pos < |ts| && e != NoExpr && Calm(ts, end) && ReadsUpTo(ts, pos, e, end)
    ensures ParseBp(ts, pos, m) == ParseInfix(ts, end, e, m)
  {
  }

  /** An expression the prefix parser reads whole. */
  lemma {:induction false} FromPrefix(ts: TokenList, pos: nat, e: Expr, end: nat)
    requires pos < |ts| && end < |ts| && e != NoExpr && ParsePrefix(ts, pos) == P(e, end, true)
    ensures ReadsUpTo(ts, pos, e, end)
  {
  }

  /** After the end of the whole expression the operator loop stops. */
  lemma {:induction false} InfixStops(ts: TokenList, end: nat, e: Expr, m: nat)
    requires e != NoExpr && Calm(ts, end)
    requires BindingPower(ts[end].kind).None? || BindingPower(ts[end].kind).value < m
    ensures ParseInfix(ts, end, e, m) == P(e, end, true)
  {
  }

  lemma {:induction false} InfixStep(ts: TokenList, mid: nat, l: Expr, op: Op, r: Expr, end: nat, m: nat)
    requires mid + 1 < |ts| && end < |ts| && l != NoExpr && r != NoExpr
    requires ts[mid].kind == OpTok(op) && BindingPower(OpTok(op)).Some? && m <= Power(op)
    requires ParseBp(ts, mid + 1, Power(op) + 1) == P(r, end, true)
    ensures ParseInfix(ts, mid, l, m) == ParseInfix(ts, end, Binary(op, l, r), m)
  {
    hide Readable, ParseBp, ParseInfix, BindingPower;
    assert Power(op) == BindingPower(OpTok(op)).value;
    InfixRound(ts, mid, l, m, true);
  }

  lemma UnaryStep(ts: TokenList, pos: nat, op: Op, x: Expr, end: nat)
    requires pos + 1 < |ts| && ts[pos].kind == OpTok(op) && IsPrefixOp(op) && ts[pos + 1].kind != KwConst
    requires ParseBp(ts, pos + 1, PrefixPower) == P(x, end, true)
    ensures ParsePrefix(ts, pos) == P(Unary(op, x), end, true)
  {
  }

  lemma {:induction false} ParensStep(ts: TokenList, pos: nat, e: Expr, close: nat)
    requires pos + 1 < |ts| && close < |ts| && ts[pos].kind == LParen && ts[close].kind == RParen
    requires ParseBp(ts, pos + 1, 0) == P(e, close, true)
    ensures ParsePrefix(ts, pos) == P(e, close + 1, true)
  {
    ExprStep(ts, pos + 1);
    PrimaryStep(ts, pos);
    hide Readable, ParsePrefix, ParseBp, ParseExpr, ParseStructLit, ParseArrayLit;
  }

  lemma {:induction false} PrimaryStep(ts: TokenList, pos: nat)
    requires pos < |ts| && !ts[pos].kind.OpTok? && ts[pos].kind != KwTry && ts[pos].kind != KwUnsafe
    ensures ParsePrefix(ts, pos) == ParsePrimary(ts, pos)
  {
    hide Readable, ParseBp, ParseBlock, ParsePrimary;
  }

  lemma {:induction false} ExprStep(ts: TokenList, pos: nat)
    requires pos < |ts|
    ensures ParseExpr(ts, pos) == ParseBp(ts, pos, 0)
  {
    hide Readable, ParseBp;
  }

  /** A closing token or a comma ends an expression. */
  lemma {:induction false} InfixStopsAt(ts: TokenList, end: nat, e: Expr)
    requires e != NoExpr && 0 < end < |ts| && (ts[end].kind == RParen || ts[end].kind == RBracket || ts[end].kind == Comma)
    ensures Calm(ts, end) && BindingPower(ts[end].kind).None? && forall name :: Unbraced(ts, end, name)
    ensures ParseInfix(ts, end, e, 0) == P(e, end, true)
    ensures forall power: nat :: Looser(ts, end, power)
  {
    hide Readable, ParseBp;
  }

  lemma FieldStep(ts: TokenList, at: nat, o: Expr, name: string)
    requires at + 2 < |ts| && o != NoExpr && ts[at].kind == Dot && ts[at + 1].kind == IdentTok && ts[at + 1].text == name
    requires ts[at + 2].kind != LParen
    ensures ParsePostfix(ts, at, o) == ParsePostfix(ts, at + 2, Field(o, name))
  {
  }

  lemma BracketStep(ts: TokenList, at: nat, o: Expr, i: Expr, close: nat)
    requires at + 1 < |ts| && close < |ts| - 1 && ts[close].kind == RBracket
    requires ParseExpr(ts, at + 1) == P(i, close, true)
    ensures ParseBracket(ts, at + 1, o) == P(Index(o, i), close + 1, true)
  {
    hide Readable, ParseExpr;
  }

  lemma IndexStep(ts: TokenList, at: nat, o: Expr, i: Expr, close: nat)
    requires at + 1 < |ts| && close < |ts| - 1 && o != NoExpr && ts[at].kind == LBracket && ts[close].kind == RBracket
    requires ParseExpr(ts, at + 1) == P(i, close, true)
    ensures ParsePostfix(ts, at, o) == ParsePostfix(ts, close + 1, Index(o, i))
  {
    BracketStep(ts, at, o, i, close);
    hide Readable, ParseExpr, ParseCallArgs, ParseBracket;
  }

  lemma {:induction false} CallStep(ts: TokenList, at: nat, f: Expr, args: seq<Expr>, end: nat)
    requires at + 1 < |ts| && end < |ts| && f != NoExpr && ts[at].kind == LParen
    requires ParseCallArgs(ts, at + 1) == P(args, end, true)
    ensures ParsePostfix(ts, at, f) == ParsePostfix(ts, end, Call(f, args))
  {
  }

  lemma {:induction false} MethodStep(ts: TokenList, at: nat, o: Expr, name: string, args: seq<Expr>, end: nat)
    requires at + 3 < |ts| && end < |ts| && o != NoExpr && ts[at].kind == Dot
    requires ts[at + 1].kind == IdentTok && ts[at + 1].text == name && ts[at + 2].kind == LParen
    requires ParseCallArgs(ts, at + 3) == P(args, end, true)
    ensures ParsePostfix(ts, at, o) == ParsePostfix(ts, end, MethodCall(o, name, args))
  {
  }

  lemma {:induction false} ArgsStep(ts: TokenList, pos: nat, args: seq<Expr>, close: nat)
    requires pos < |ts| && close < |ts| && ts[close].kind == RParen
    requires if args == [] then pos == close else ts[pos].kind != RParen && ParseArgs(ts, pos) == P(args, close, true)
    ensures ParseCallArgs(ts, pos) == P(args, close + 1, true)
  {
  }

  lemma {:induction false} LastArg(ts: TokenList, pos: nat, e: Expr, mid: nat)
    requires pos < |ts| && mid < |ts| && e != NoExpr && ParseExpr(ts, pos) == P(e, mid, true)
    requires ts[mid].kind != Comma
    ensures ParseArgs(ts, pos) == P([e], mid, true)
  {
    hide Readable, ParseExpr;
  }

  lemma MoreArgs(ts: TokenList, pos: nat, e: Expr, rest: seq<Expr>, mid: nat, end: nat)
    requires pos < |ts| && mid + 1 < |ts| && e != NoExpr && ParseExpr(ts, pos) == P(e, mid, true)
    requires ts[mid].kind == Comma && ParseArgs(ts, mid + 1) == P(rest, end, true)
    ensures ParseArgs(ts, pos) == P([e] + rest, end, true)
  {
    hide Readable, ParseExpr;
  }

  lemma {:induction false} AtomToken(full: bool, e: Expr, t: Token)
    requires Printable(full, e) && e != NoExpr
    requires !e.Binary? && !e.Unary? && !e.Call? && !e.MethodCall? && !e.Field? && !e.Index?
    ensures |Bare(full, e)| == 1
    ensures Like(t, Bare(full, e)[0]) ==> OneToken(t) == e && !t.kind.OpTok? && t.kind != KwTry && t.kind != KwUnsafe
    ensures Like(t, Bare(full, e)[0]) && t.kind == IdentTok && Upper(t.text) ==> BareEndsInName(full, e)
  {
    hide Show, Head, ShowArgs, BindingPower;
  }

  /** A name or a literal is one token. */
  lemma {:induction false} AtomReads(full: bool, e: Expr, ts: TokenList, pos: nat)
    requires Printable(full, e) && e != NoExpr
    requires !e.Binary? && !e.Unary? && !e.Call? && !e.MethodCall? && !e.Field? && !e.Index?
    requires Holds(ts, pos, Bare(full, e)) && pos + |Bare(full, e)| < |ts|
    requires Unbraced(ts, pos + |Bare(full, e)|, BareEndsInName(full, e))
    ensures ReadsUpTo(ts, pos, e, pos + |Bare(full, e)|)
  {
    hide Holds, Readable, ParsePrefix, ParsePrimary, ParsePostfix, Printable, Bare, OneToken, Like, Upper, BareEndsInName;
    HoldsInside(ts, pos, Bare(full, e));
    AtomToken(full, e, ts[pos]);
    First(ts, pos, Bare(full, e));
    PrimaryStep(ts, pos);
    OneTokenStep(ts, pos, e);
  }

  lemma HoldsInside(ts: seq<Token>, pos: nat, s: seq<Token>)
    requires Holds(ts, pos, s)
    ensures pos + |s| <= |ts|
  {
  }

  lemma {:induction false} OneTokenStep(ts: TokenList, pos: nat, e: Expr)
    requires pos + 1 < |ts| && e != NoExpr && OneToken(ts[pos]) == e
    requires Unbraced(ts, pos + 1, ts[pos].kind == IdentTok && Upper(ts[pos].text))
    ensures ParsePrimary(ts, pos) == P(e, pos + 1, true)
  {
    hide Readable, OneToken, ParseExpr, ParseStructLit, ParseArrayLit, Upper;
  }

  // ---- reading a printed expression ----

  predicate IsBareBinary(full: bool, e: Expr, min: nat) {
    e.Binary? && !full && Power(e.op) >= min
  }

  /** The parser, called for operators of power at least `m`, reads a text printed for a power of at
      least that, and goes on with its operator loop. */
  lemma {:induction false} ShowReads(full: bool, e: Expr, min: nat, ts: TokenList, pos: nat, m: nat)
    requires Printable(full, e) && m <= min
    requires Holds(ts, pos, Show(full, e, min)) && Calm(ts, pos + |Show(full, e, min)|)
    requires Unbraced(ts, pos + |Show(full, e, min)|, EndsInName(full, e, min))
    requires IsBareBinary(full, e, min) ==> Looser(ts, pos + |Show(full, e, min)|, Power(e.op))
    ensures ParseBp(ts, pos, m) == ParseInfix(ts, pos + |Show(full, e, min)|, e, m)
    decreases e, 3
  {
    hide Holds, Readable, Bare, Printable, Power, BindingPower, ParseBp, ParseInfix, ParsePrefix, ParsePostfix, BareEndsInName;
    var end := pos + |Show(full, e, min)|;
    if IsBareBinary(full, e, min) {
      BinaryReads(full, e, ts, pos, m);
    } else {
      PrintableNotNull(full, e);
      if e.Binary? || (full && e.Unary?) {
        ParensRead(full, e, ts, pos);
        FromPrefix(ts, pos, e, end);
      } else if e.Unary? {
        UnaryReads(full, e, ts, pos);
        FromPrefix(ts, pos, e, end);
      } else {
        ChainReads(full, e, ts, pos);
      }
      FromReads(ts, pos, e, end, m);
    }
  }

  /** A text read to its end, before a token that no operator of power `min` or more begins. */
  lemma {:induction false} ShowParses(full: bool, e: Expr, min: nat, ts: TokenList, pos: nat)
    requires Printable(full, e)
    requires Holds(ts, pos, Show(full, e, min)) && Calm(ts, pos + |Show(full, e, min)|)
    requires Unbraced(ts, pos + |Show(full, e, min)|, EndsInName(full, e, min))
    requires var bp := BindingPower(ts[pos + |Show(full, e, min)|].kind); bp.None? || bp.value < min
    ensures ParseBp(ts, pos, min) == P(e, pos + |Show(full, e, min)|, true)
    decreases e, 4
  {
    hide Holds, Readable, ParseBp, ParseInfix, Show, Printable, EndsInName;
    assert e != NoExpr by { PrintableNotNull(full, e); }
    ShowReads(full, e, min, ts, pos, min);
    InfixStops(ts, pos + |Show(full, e, min)|, e, min);
  }

  lemma {:induction false} PrintableParts(full: bool, e: Expr)
    requires Printable(full, e)
    ensures e.Binary? ==>
              Printable(full, e.left) && Printable(full, e.right) && e.left != NoExpr && e.right != NoExpr
              && BindingPower(OpTok(e.op)) == Some(Power(e.op))
    ensures e.Unary? ==> IsPrefixOp(e.op) && Printable(full, e.operand)
    ensures e.Binary? ==> BareEndsInName(full, e) == EndsInName(full, e.right, Power(e.op) + 1)
    ensures e.Unary? ==> BareEndsInName(full, e) == EndsInName(full, e.operand, PrefixPower)
    ensures e.Index? ==> Printable(full, e.obj) && Printable(full, e.index) && e.obj != NoExpr && e.index != NoExpr
    ensures e.Field? ==> Printable(full, e.obj) && e.obj != NoExpr
    ensures e.Call? ==> Printable(full, e.callee) && e.callee != NoExpr && forall a :: a in e.args ==> Printable(full, a)
    ensures e.MethodCall? ==>
              Printable(full, e.receiver) && e.receiver != NoExpr && forall a :: a in e.args ==> Printable(full, a)
  {
  }

  lemma {:induction false} PrintableNotNull(full: bool, e: Expr)
    requires Printable(full, e)
    ensures e != NoExpr
  {
  }

  lemma {:induction false} BinaryReads(full: bool, e: Expr, ts: TokenList, pos: nat, m: nat)
    requires Printable(full, e) && e.Binary? && m <= Power(e.op)
    requires Holds(ts, pos, Bare(full, e)) && Calm(ts, pos + |Bare(full, e)|)
    requires Unbraced(ts, pos + |Bare(full, e)|, BareEndsInName(full, e))
    requires Looser(ts, pos + |Bare(full, e)|, Power(e.op))
    ensures ParseBp(ts, pos, m) == ParseInfix(ts, pos + |Bare(full, e)|, e, m)
    decreases e, 0
  {
    hide *;
    var b := Power(e.op);
    var mid := pos + |Show(full, e.left, b)|;
    var end := pos + |Bare(full, e)|;
    PrintableParts(full, e);
    BinarySplit(full, e, ts, pos);
    CalmInside(ts, end);
    OperatorFollows(full, e.left, ts, mid, e.op, end);
    ShowReads(full, e.left, b, ts, pos, m);
    ShowParses(full, e.right, b + 1, ts, mid + 1);
    InfixStep(ts, mid, e.left, e.op, e.right, end, m);
  }

  lemma CalmInside(ts: TokenList, end: nat)
    requires Calm(ts, end)
    ensures 0 < end < |ts|
  {
  }

  /** An operator stops no tighter one before it, and what is looser than it stops its right operand. */
  lemma OperatorFollows(full: bool, left: Expr, ts: TokenList, mid: nat, op: Op, end: nat)
    requires 0 < end < |ts| && 0 < mid < |ts| && ts[mid].kind == OpTok(op) && Looser(ts, end, Power(op))
    ensures Calm(ts, mid) && forall name :: Unbraced(ts, mid, name)
    ensures IsBareBinary(full, left, Power(op)) ==> Looser(ts, mid, Power(left.op))
    ensures var bp := BindingPower(ts[end].kind); bp.None? || bp.value < Power(op) + 1
  {
    hide Readable;
  }

  lemma {:induction false} BinarySplit(full: bool, e: Expr, ts: seq<Token>, pos: nat)
    requires e.Binary? && Holds(ts, pos, Bare(full, e)) && Printable(full, e)
    ensures
      var l, r := Show(full, e.left, Power(e.op)), Show(full, e.right, Power(e.op) + 1);
      && |Bare(full, e)| == |l| + |r| + 1 && pos + |Bare(full, e)| <= |ts| && |l| > 0
      && Holds(ts, pos, l) && ts[pos + |l|].kind == OpTok(e.op) && Holds(ts, pos + |l| + 1, r)
  {
    hide Holds, Show, Head, ShowArgs, Power, BindingPower, Printable;
    PrintableParts(full, e);
    ShowStarts(full, e.left, Power(e.op));
    SplitAround(ts, pos, Show(full, e.left, Power(e.op)), Tok(OpTok(e.op)), Show(full, e.right, Power(e.op) + 1));
  }

  lemma {:induction false} UnaryReads(full: bool, e: Expr, ts: TokenList, pos: nat)
    requires Printable(full, e) && e.Unary?
    requires Holds(ts, pos, Bare(full, e)) && Calm(ts, pos + |Bare(full, e)|)
    requires Unbraced(ts, pos + |Bare(full, e)|, BareEndsInName(full, e))
    ensures ParsePrefix(ts, pos) == P(e, pos + |Bare(full, e)|, true)
    decreases e, 0
  {
    hide *;
    var end := pos + |Bare(full, e)|;
    PrintableParts(full, e);
    UnarySplit(full, e, ts, pos);
    NothingTighter(ts, end);
    ShowParses(full, e.operand, PrefixPower, ts, pos + 1);
    UnaryStep(ts, pos, e.op, e.operand, end);
  }

  lemma NothingTighter(ts: TokenList, end: nat)
    requires Calm(ts, end)
    ensures end < |ts| && var bp := BindingPower(ts[end].kind); bp.None? || bp.value < PrefixPower
  {
  }

  lemma {:induction false} UnarySplit(full: bool, e: Expr, ts: seq<Token>, pos: nat)
    requires e.Unary? && Printable(full, e) && Holds(ts, pos, Bare(full, e))
    ensures
      var x := Show(full, e.operand, PrefixPower);
      && |Bare(full, e)| == 1 + |x| && pos + 1 + |x| <= |ts| && |x| > 0
      && ts[pos].kind == OpTok(e.op) && ts[pos + 1].kind != KwConst && Holds(ts, pos + 1, x)
  {
    hide Holds, Show, Printable;
    PrintableParts(full, e);
    ShowStarts(full, e.operand, PrefixPower);
    var o, x := [Tok(OpTok(e.op))], Show(full, e.operand, PrefixPower);
    Split(ts, pos, o, x);
    First(ts, pos, o);
    First(ts, pos + 1, x);
  }

  /** A parenthesised text is one primary expression. */
  lemma {:induction false} ParensRead(full: bool, e: Expr, ts: TokenList, pos: nat)
    requires Printable(full, e) && (e.Binary? || e.Unary?)
    requires Holds(ts, pos, Parens(Bare(full, e))) && pos + |Bare(full, e)| + 2 < |ts|
    ensures ParsePrefix(ts, pos) == P(e, pos + |Bare(full, e)| + 2, true)
    decreases e, 1
  {
    hide *;
    var close := pos + 1 + |Bare(full, e)|;
    SplitParens(ts, pos, Bare(full, e));
    InfixStopsAt(ts, close, e);
    if e.Binary? {
      BinaryReads(full, e, ts, pos + 1, 0);
    } else {
      UnaryReads(full, e, ts, pos + 1);
      FromPrefix(ts, pos + 1, e, close);
      FromReads(ts, pos + 1, e, close, 0);
    }
    ParensStep(ts, pos, e, close);
  }

  /** A field that is called stands in parentheses, so that it is not read as a method call. */
  lemma {:induction false} FieldInParens(full: bool, e: Expr, ts: TokenList, pos: nat)
    requires Printable(full, e) && e != NoExpr && !e.Binary? && !e.Unary?
    requires Holds(ts, pos, Parens(Show(full, e, 0))) && pos + |Parens(Show(full, e, 0))| < |ts|
    ensures ReadsUpTo(ts, pos, e, pos + |Parens(Show(full, e, 0))|)
    decreases e, 4
  {
    hide Printable, Show, Bare, Holds, Readable, ParsePrefix, ParsePostfix, ParseBp, ParseInfix, BindingPower, ReadsUpTo;
    var close := pos + 1 + |Show(full, e, 0)|;
    SplitParens(ts, pos, Show(full, e, 0));
    InfixStopsAt(ts, close, e);
    ShowReads(full, e, 0, ts, pos + 1, 0);
    ParensStep(ts, pos, e, close);
    FromPrefix(ts, pos, e, close + 1);
  }

  lemma {:induction false} HeadReads(full: bool, e: Expr, called: bool, ts: TokenList, pos: nat)
    requires Printable(full, e) && e != NoExpr
    requires Holds(ts, pos, Head(full, e, called)) && pos + |Head(full, e, called)| < |ts|
    requires var k := ts[pos + |Head(full, e, called)|].kind; if called then k == LParen else k == Dot || k == LBracket
    ensures ReadsUpTo(ts, pos, e, pos + |Head(full, e, called)|)
    decreases e, 5
  {
    hide ParseExpr, ParseBp, ParseInfix, ParsePrefix, ParsePostfix, BindingPower, Bare, Holds, Readable, Printable;
    var end := pos + |Head(full, e, called)|;
    if e.Binary? || e.Unary? {
      ParensRead(full, e, ts, pos);
      FromPrefix(ts, pos, e, end);
    } else if HeadParens(full, e, called) {
      FieldInParens(full, e, ts, pos);
    } else {
      BareStarts(full, e);
      ChainReads(full, e, ts, pos);
    }
  }

  /** Names, literals and what postfixes make of them. */
  lemma {:induction false} ChainReads(full: bool, e: Expr, ts: TokenList, pos: nat)
    requires Printable(full, e) && e != NoExpr && !e.Binary? && !e.Unary?
    requires Holds(ts, pos, Bare(full, e)) && pos + |Bare(full, e)| < |ts|
    requires Unbraced(ts, pos + |Bare(full, e)|, BareEndsInName(full, e))
    requires e.Field? ==> ts[pos + |Bare(full, e)|].kind != LParen
    ensures ReadsUpTo(ts, pos, e, pos + |Bare(full, e)|)
    decreases e, 2
  {
    hide Holds, Readable, Bare, Printable, ParsePrefix, ParsePostfix;
    match e {
      case Call(_, _) => CallReads(full, e, ts, pos);
      case MethodCall(_, _, _) => MethodReads(full, e, ts, pos);
      case Field(_, _) => FieldReads(full, e, ts, pos);
      case Index(_, _) => IndexReads(full, e, ts, pos);
      case _ => AtomReads(full, e, ts, pos);
    }
  }

  lemma {:induction false} FieldReads(full: bool, e: Expr, ts: TokenList, pos: nat)
    requires Printable(full, e) && e.Field?
    requires Holds(ts, pos, Bare(full, e)) && pos + |Bare(full, e)| < |ts|
    requires ts[pos + |Bare(full, e)|].kind != LParen
    ensures ReadsUpTo(ts, pos, e, pos + |Bare(full, e)|)
    decreases e, 1
  {
    hide *;
    var at := pos + |Head(full, e.obj, false)|;
    PrintableParts(full, e);
    FieldSplit(full, e, ts, pos);
    HeadReads(full, e.obj, false, ts, pos);
    FieldStep(ts, at, e.obj, e.name);
    ReadsOn(ts, pos, e.obj, at, e, at + 2);
  }

  lemma DotName(ts: seq<Token>, at: nat, name: string)
    requires Holds(ts, at, [Tok(Dot), Token(IdentTok, name, 0)])
    ensures at + 2 <= |ts| && ts[at].kind == Dot && ts[at + 1].kind == IdentTok && ts[at + 1].text == name
  {
    var d := [Tok(Dot), Token(IdentTok, name, 0)];
    assert Like(ts[at + 0], d[0]) && Like(ts[at + 1], d[1]);
  }

  lemma {:induction false} FieldSplit(full: bool, e: Expr, ts: seq<Token>, pos: nat)
    requires e.Field? && Holds(ts, pos, Bare(full, e))
    ensures
      var h := Head(full, e.obj, false);
      var at := pos + |h|;
      && |Bare(full, e)| == |h| + 2 && at + 2 <= |ts| && Holds(ts, pos, h)
      && ts[at].kind == Dot && ts[at + 1].kind == IdentTok && ts[at + 1].text == e.name
  {
    hide Holds, Head;
    Split(ts, pos, Head(full, e.obj, false), [Tok(Dot), Token(IdentTok, e.name, 0)]);
    DotName(ts, pos + |Head(full, e.obj, false)|, e.name);
  }

  lemma {:induction false} IndexSplit(full: bool, e: Expr, ts: seq<Token>, pos: nat)
    requires e.Index? && Holds(ts, pos, Bare(full, e))
    ensures
      var h, i := Head(full, e.obj, false), Show(full, e.index, 0);
      var at := pos + |h|;
      && |Bare(full, e)| == |h| + |i| + 2 && at + |i| + 2 <= |ts|
      && Holds(ts, pos, h) && ts[at].kind == LBracket && Holds(ts, at + 1, i) && ts[at + 1 + |i|].kind == RBracket
  {
    hide Holds, Head, Show, ShowArgs;
    var h, i, close := Head(full, e.obj, false), Show(full, e.index, 0), [Tok(RBracket)];
    Split(ts, pos, h + [Tok(LBracket)] + i, close);
    SplitAround(ts, pos, h, Tok(LBracket), i);
    First(ts, pos + |h| + 1 + |i|, close);
  }

  lemma {:induction false} IndexReads(full: bool, e: Expr, ts: TokenList, pos: nat)
    requires Printable(full, e) && e.Index?
    requires Holds(ts, pos, Bare(full, e)) && pos + |Bare(full, e)| < |ts|
    ensures ReadsUpTo(ts, pos, e, pos + |Bare(full, e)|)
    decreases e, 1
  {
    hide *;
    var at := pos + |Head(full, e.obj, false)|;
    var close := at + 1 + |Show(full, e.index, 0)|;
    PrintableParts(full, e);
    IndexSplit(full, e, ts, pos);
    HeadReads(full, e.obj, false, ts, pos);
    InfixStopsAt(ts, close, e.index);
    ShowReads(full, e.index, 0, ts, at + 1, 0);
    ExprStep(ts, at + 1);
    IndexStep(ts, at, e.obj, e.index, close);
    ReadsOn(ts, pos, e.obj, at, e, close + 1);
  }

  lemma {:induction false} CallSplit(full: bool, e: Expr, ts: seq<Token>, pos: nat)
    requires e.Call? && Holds(ts, pos, Bare(full, e))
    ensures
      var h, a := Head(full, e.callee, true), ShowArgs(full, e.args);
      && |Bare(full, e)| == |h| + |a| && pos + |h| + |a| <= |ts| && |a| >= 2
      && Holds(ts, pos, h) && Holds(ts, pos + |h|, a) && ts[pos + |h|].kind == LParen
  {
    hide Holds, Head, Listed;
    var h, a := Head(full, e.callee, true), ShowArgs(full, e.args);
    Split(ts, pos, h, a);
    First(ts, pos + |h|, a);
  }

  lemma {:induction false} CallReads(full: bool, e: Expr, ts: TokenList, pos: nat)
    requires Printable(full, e) && e.Call?
    requires Holds(ts, pos, Bare(full, e)) && pos + |Bare(full, e)| < |ts|
    ensures ReadsUpTo(ts, pos, e, pos + |Bare(full, e)|)
    decreases e, 1
  {
    hide *;
    var at := pos + |Head(full, e.callee, true)|;
    var end := pos + |Bare(full, e)|;
    PrintableParts(full, e);
    CallSplit(full, e, ts, pos);
    HeadReads(full, e.callee, true, ts, pos);
    ArgsRead(full, e.args, ts, at);
    CallStep(ts, at, e.callee, e.args, end);
    ReadsOn(ts, pos, e.callee, at, e, end);
  }

  lemma {:induction false} MethodSplit(full: bool, e: Expr, ts: seq<Token>, pos: nat)
    requires e.MethodCall? && Holds(ts, pos, Bare(full, e))
    ensures
      var h, a := Head(full, e.receiver, false), ShowArgs(full, e.args);
      var at := pos + |h|;
      && |Bare(full, e)| == |h| + 2 + |a| && at + 2 + |a| <= |ts| && |a| >= 2
      && Holds(ts, pos, h) && Holds(ts, at + 2, a)
      && ts[at].kind == Dot && ts[at + 1].kind == IdentTok && ts[at + 1].text == e.name && ts[at + 2].kind == LParen
  {
    hide Holds, Head, Listed;
    var h, d, a := Head(full, e.receiver, false), [Tok(Dot), Token(IdentTok, e.name, 0)], ShowArgs(full, e.args);
    Split(ts, pos, h + d, a);
    Split(ts, pos, h, d);
    DotName(ts, pos + |h|, e.name);
    First(ts, pos + |h| + 2, a);
  }

  lemma {:induction false} MethodReads(full: bool, e: Expr, ts: TokenList, pos: nat)
    requires Printable(full, e) && e.MethodCall?
    requires Holds(ts, pos, Bare(full, e)) && pos + |Bare(full, e)| < |ts|
    ensures ReadsUpTo(ts, pos, e, pos + |Bare(full, e)|)
    decreases e, 1
  {
    hide *;
    var at := pos + |Head(full, e.receiver, false)|;
    var end := pos + |Bare(full, e)|;
    PrintableParts(full, e);
    MethodSplit(full, e, ts, pos);
    HeadReads(full, e.receiver, false, ts, pos);
    ArgsRead(full, e.args, ts, at + 2);
    MethodStep(ts, at, e.receiver, e.name, e.args, end);
    ReadsOn(ts, pos, e.receiver, at, e, end);
  }

  /** A parenthesised argument list. */
  lemma {:induction false} ArgsRead(full: bool, args: seq<Expr>, ts: TokenList, pos: nat)
    requires forall a :: a in args ==> Printable(full, a)
    requires Holds(ts, pos, ShowArgs(full, args)) && pos + |ShowArgs(full, args)| < |ts|
    ensures ParseCallArgs(ts, pos + 1) == P(args, pos + |ShowArgs(full, args)|, true)
    decreases args, 6
  {
    hide Holds, Readable, Printable, ParseCallArgs, ParseArgs, Listed, Show;
    var list := if args == [] then [] else Listed(full, args);
    assert ShowArgs(full, args) == Parens(list);
    SplitParens(ts, pos, list);
    if args != [] {
      ListStarts(full, args);
      First(ts, pos + 1, list);
      ListReads(full, args, ts, pos + 1);
    }
    ArgsStep(ts, pos + 1, args, pos + 1 + |list|);
  }

  lemma {:induction false} ListStarts(full: bool, args: seq<Expr>)
    requires args != [] && Printable(full, args[0])
    ensures |Listed(full, args)| > 0 && Listed(full, args)[0].kind != RParen
  {
    hide Show, Printable;
    ShowStarts(full, args[0], 0);
  }

  lemma {:induction false} ListReads(full: bool, args: seq<Expr>, ts: TokenList, pos: nat)
    requires args != [] && forall a :: a in args ==> Printable(full, a)
    requires Holds(ts, pos, Listed(full, args)) && pos + |Listed(full, args)| < |ts|
    requires ts[pos + |Listed(full, args)|].kind == RParen
    ensures ParseArgs(ts, pos) == P(args, pos + |Listed(full, args)|, true)
    decreases args, 5
  {
    hide *;
    var mid := pos + |Show(full, args[0], 0)|;
    var end := pos + |Listed(full, args)|;
    ListSplit(full, args, ts, pos);
    PrintableNotNull(full, args[0]);
    InfixStopsAt(ts, mid, args[0]);
    ShowReads(full, args[0], 0, ts, pos, 0);
    ExprStep(ts, pos);
    if |args| == 1 {
      LastArg(ts, pos, args[0], mid);
      assert args == [args[0]];
    } else {
      ListReads(full, args[1..], ts, mid + 1);
      MoreArgs(ts, pos, args[0], args[1..], mid, end);
      assert args == [args[0]] + args[1..];
    }
  }

  lemma {:induction false} ListSplit(full: bool, args: seq<Expr>, ts: seq<Token>, pos: nat)
    requires args != [] && Printable(full, args[0])
    requires Holds(ts, pos, Listed(full, args)) && pos + |Listed(full, args)| < |ts|
    ensures
      var s := Show(full, args[0], 0);
      var mid := pos + |s|;
      && |s| > 0 && Holds(ts, pos, s)
      && (if |args| == 1 then |Listed(full, args)| == |s|
          else
            && |Listed(full, args)| == |s| + 1 + |Listed(full, args[1..])|
            && ts[mid].kind == Comma && Holds(ts, mid + 1, Listed(full, args[1..])))
  {
    hide Holds, Show, Printable, Like, Listed, Starts;
    ListedIs(full, args);
    ShowStarts(full, args[0], 0);
    var s := Show(full, args[0], 0);
    StartsSome(s);
    if |args| > 1 {
      SplitAround(ts, pos, s, Tok(Comma), Listed(full, args[1..]));
      LikeKind(ts[pos + |s|], Tok(Comma));
    }
  }

  lemma {:induction false} ListedIs(full: bool, args: seq<Expr>)
    requires args != []
    ensures
      var s := Show(full, args[0], 0);
      Listed(full, args) == if |args| == 1 then s else s + [Tok(Comma)] + Listed(full, args[1..])
  {
    hide Show;
  }

  lemma StartsSome(s: seq<Token>)
    requires Starts(s)
    ensures |s| > 0
  {
  }

  lemma LikeKind(t: Token, u: Token)
    requires Like(t, u)
    ensures t.kind == u.kind
  {
  }

  /** The round trip: an expression printed for power `min`, in either style, anywhere in a token list,
      parses back to itself without error, and the parser stops at the first token after it. */
  lemma {:induction false} PrintThenParse(full: bool, e: Expr, min: nat, before: seq<Token>, after: seq<Token>)
    requires Printable(full, e) && after != []
    requires Readable(before + Show(full, e, min) + after)
    requires
      var ts := before + Show(full, e, min) + after;
      var bp := BindingPower(after[0].kind);
      Calm(ts, |before| + |Show(full, e, min)|) && (bp.None? || bp.value < min)
    requires after[0].kind == LBrace ==> !EndsInName(full, e, min)
    ensures
      var ts := before + Show(full, e, min) + after;
      ParseBp(ts, |before|, min) == P(e, |before| + |Show(full, e, min)|, true)
  {
    hide Readable, ParseBp, Show, Printable, EndsInName;
    var s := Show(full, e, min);
    var ts := before + s + after;
    assert Holds(ts, |before|, s) by {
      forall i | 0 <= i < |s| ensures ts[|before| + i] == s[i] { }
    }
    assert ts[|before| + |s|] == after[0];
    ShowParses(full, e, min, ts, |before|);
  }

  // ---- the tokens of a text ----

  predicate All(p: Token -> bool, s: seq<Token>) {
    forall t :: t in s ==> p(t)
  }

  /** The tokens every text may use. */
  ghost predicate Marks(p: Token -> bool) {
    && p(Tok(LParen)) && p(Tok(RParen)) && p(Tok(LBracket)) && p(Tok(RBracket)) && p(Tok(Comma)) && p(Tok(Dot))
    && p(Tok(KwTrue)) && p(Tok(KwFalse)) && p(Tok(KwNull)) && p(Tok(KwUndefined))
    && forall op :: p(Tok(OpTok(op)))
  }

  /** The names and literals of an expression. */
  predicate Leaves(p: Token -> bool, e: Expr)
    decreases e
  {
    match e
    case IntLit(v) => p(Token(IntTok, "", v))
    case FloatLit(t) => p(Token(FloatTok, t, 0))
    case StringLit(t) => p(Token(StringTok, t, 0))
    case CharLit(t) => p(Token(CharTok, t, 0))
    case Ident(x) => p(Token(IdentTok, x, 0))
    case Binary(_, l, r) => Leaves(p, l) && Leaves(p, r)
    case Unary(_, x) => Leaves(p, x)
    case Call(f, args) => Leaves(p, f) && forall a :: a in args ==> Leaves(p, a)
    case MethodCall(o, x, args) => Leaves(p, o) && p(Token(IdentTok, x, 0)) && forall a :: a in args ==> Leaves(p, a)
    case Field(o, x) => Leaves(p, o) && p(Token(IdentTok, x, 0))
    case Index(o, i) => Leaves(p, o) && Leaves(p, i)
    case _ => true
  }

  lemma AllAround(p: Token -> bool, a: seq<Token>, t: Token, b: seq<Token>)
    requires All(p, a) && All(p, b) && p(t)
    ensures All(p, a + [t] + b)
  {
  }

  lemma AllAppend(p: Token -> bool, a: seq<Token>, b: seq<Token>)
    requires All(p, a) && All(p, b)
    ensures All(p, a + b)
  {
  }

  lemma AllParens(p: Token -> bool, s: seq<Token>)
    requires All(p, s) && Marks(p)
    ensures All(p, Parens(s))
  {
  }

  lemma {:induction false} ShowAll(p: Token -> bool, full: bool, e: Expr, min: nat)
    requires Marks(p) && Leaves(p, e)
    ensures All(p, Show(full, e, min))
    decreases e, 1
  {
    hide All, Bare, Marks, Leaves;
    BareAll(p, full, e);
    AllParens(p, Bare(full, e));
  }

  lemma {:induction false} HeadAll(p: Token -> bool, full: bool, e: Expr, called: bool)
    requires Marks(p) && Leaves(p, e)
    ensures All(p, Head(full, e, called))
    decreases e, 2
  {
    hide All, Show, Marks, Leaves;
    ShowAll(p, full, e, 0);
    AllParens(p, Show(full, e, 0));
  }

  lemma {:induction false} AtomAll(p: Token -> bool, full: bool, e: Expr)
    requires !e.Binary? && !e.Unary? && !e.Call? && !e.MethodCall? && !e.Field? && !e.Index?
    requires Marks(p) && Leaves(p, e)
    ensures All(p, Bare(full, e))
  {
  }

  lemma {:induction false} BareAll(p: Token -> bool, full: bool, e: Expr)
    requires Marks(p) && Leaves(p, e)
    ensures All(p, Bare(full, e))
    decreases e, 0
  {
    hide Show, Head, BindingPower, ShowArgs, Power, All;
    if e.Binary? {
      ShowAll(p, full, e.left, Power(e.op));
      ShowAll(p, full, e.right, Power(e.op) + 1);
      AllAround(p, Show(full, e.left, Power(e.op)), Tok(OpTok(e.op)), Show(full, e.right, Power(e.op) + 1));
    } else if e.Unary? {
      ShowAll(p, full, e.operand, PrefixPower);
      UnaryAll(p, e.op, Show(full, e.operand, PrefixPower));
    } else if e.Call? {
      HeadAll(p, full, e.callee, true);
      ArgsAll(p, full, e.args);
      AllAppend(p, Head(full, e.callee, true), ShowArgs(full, e.args));
    } else if e.MethodCall? || e.Field? || e.Index? {
      DottedAll(p, full, e);
    } else {
      AtomAll(p, full, e);
    }
  }

  lemma UnaryAll(p: Token -> bool, op: Op, s: seq<Token>)
    requires Marks(p) && All(p, s)
    ensures All(p, [Tok(OpTok(op))] + s)
  {
  }

  lemma {:induction false} DottedAll(p: Token -> bool, full: bool, e: Expr)
    requires e.MethodCall? || e.Field? || e.Index?
    requires Marks(p) && Leaves(p, e)
    ensures All(p, Bare(full, e))
    decreases e, -1
  {
    hide Show, Head, ShowArgs, All;
    if e.Index? {
      HeadAll(p, full, e.obj, false);
      ShowAll(p, full, e.index, 0);
      AllAround(p, Head(full, e.obj, false), Tok(LBracket), Show(full, e.index, 0));
      NoneAll(p);
      var open := Head(full, e.obj, false) + [Tok(LBracket)] + Show(full, e.index, 0);
      AllAround(p, open, Tok(RBracket), []);
      assert open + [Tok(RBracket)] + [] == Bare(full, e);
    } else {
      var o := if e.Field? then e.obj else e.receiver;
      var name := Token(IdentTok, e.name, 0);
      var dotted := Head(full, o, false) + [Tok(Dot), name];
      HeadAll(p, full, o, false);
      NoneAll(p);
      AllAround(p, [], name, []);
      assert [] + [name] + [] == [name];
      AllAround(p, Head(full, o, false), Tok(Dot), [name]);
      assert Head(full, o, false) + [Tok(Dot)] + [name] == dotted;
      if e.MethodCall? {
        ArgsAll(p, full, e.args);
        AllAppend(p, dotted, ShowArgs(full, e.args));
      }
    }
  }

  lemma NoneAll(p: Token -> bool)
    ensures All(p, [])
  {
  }

  lemma {:induction false} ArgsAll(p: Token -> bool, full: bool, args: seq<Expr>)
    requires Marks(p) && forall a :: a in args ==> Leaves(p, a)
    ensures All(p, ShowArgs(full, args))
    decreases args, 2
  {
    hide All, Listed, Marks, Leaves;
    var list := if args == [] then [] else Listed(full, args);
    if args != [] { ListAll(p, full, args); } else { NoneAll(p); }
    AllParens(p, list);
    assert ShowArgs(full, args) == Parens(list);
  }

  lemma {:induction false} ListAll(p: Token -> bool, full: bool, args: seq<Expr>)
    requires args != [] && Marks(p) && forall a :: a in args ==> Leaves(p, a)
    ensures All(p, Listed(full, args))
    decreases args, 1
  {
    hide Show, All, Leaves;
    ShowAll(p, full, args[0], 0);
    if |args| > 1 {
      ListAll(p, full, args[1..]);
      AllAround(p, Show(full, args[0], 0), Tok(Comma), Listed(full, args[1..]));
      assert Listed(full, args) == Show(full, args[0], 0) + [Tok(Comma)] + Listed(full, args[1..]);
    } else {
      assert Listed(full, args) == Show(full, args[0], 0);
    }
  }

  // ---- a text on its own ----

  predicate Ordinary(t: Token) {
    t.kind != Eof && t.kind != KwMatch
  }

  lemma {:induction false} LeavesOrdinary(e: Expr)
    ensures Leaves(Ordinary, e)
  {
    match e {
      case Binary(_, l, r) => LeavesOrdinary(l); LeavesOrdinary(r);
      case Unary(_, x) => LeavesOrdinary(x);
      case Call(f, args) => LeavesOrdinary(f); forall a | a in args ensures Leaves(Ordinary, a) { LeavesOrdinary(a); }
      case MethodCall(o, _, args) => LeavesOrdinary(o); forall a | a in args ensures Leaves(Ordinary, a) { LeavesOrdinary(a); }
      case Field(o, _) => LeavesOrdinary(o);
      case Index(o, i) => LeavesOrdinary(o); LeavesOrdinary(i);
      case _ =>
    }
  }

  /** A list that the parser cannot tell from a text and the end of file after it. */
  predicate LikeText(ts: seq<Token>, s: seq<Token>) {
    |ts| == |s| + 1 && ts[|s|].kind == Eof && forall i :: 0 <= i < |s| ==> Like(ts[i], s[i])
  }

  lemma {:induction false} TextReadable(full: bool, e: Expr, ts: seq<Token>)
    requires LikeText(ts, Show(full, e, 0))
    ensures Readable(ts)
  {
    hide Show, Leaves, LikeText, Readable, All;
    LeavesOrdinary(e);
    assert Marks(Ordinary);
    ShowAll(Ordinary, full, e, 0);
    OrdinaryText(ts, Show(full, e, 0));
  }

  lemma OrdinaryText(ts: seq<Token>, s: seq<Token>)
    requires LikeText(ts, s) && All(Ordinary, s)
    ensures Readable(ts)
  {
    forall i | 0 <= i < |s| ensures ts[i].kind != Eof && ts[i].kind != KwMatch {
      assert Like(ts[i], s[i]) && Ordinary(s[i]);
    }
  }

  /** Both round trips, with no condition on the surroundings: a printed expression before the end of the
      file is read whole, and the same expression comes back. */
  lemma {:induction false} ExpressionRoundTrip(full: bool, e: Expr, ts: seq<Token>)
    requires Printable(full, e) && LikeText(ts, Show(full, e, 0))
    ensures Readable(ts) && ParseExpr(ts, 0) == P(e, |ts| - 1, true)
  {
    hide ParseBp, ParseInfix, Show, Printable, ParseExpr, Readable, Like;
    var s := Show(full, e, 0);
    TextReadable(full, e, ts);
    ShowStarts(full, e, 0);
    assert Holds(ts, 0, s);
    CalmAtEof(ts, |s|, e);
    ShowParses(full, e, 0, ts, 0);
    ExprStep(ts, 0);
  }

  lemma CalmAtEof(ts: TokenList, end: nat, e: Expr)
    requires 0 < end < |ts| && ts[end].kind == Eof
    ensures Calm(ts, end) && BindingPower(ts[end].kind).None? && forall name :: Unbraced(ts, end, name)
  {
  }

  // ---- a capitalised name before a brace ----

  /** The brace after a capitalised name is read as part of the expression. */
  lemma {:induction false} Swallows(full: bool, e: Expr, min: nat, ts: TokenList, pos: nat, m: nat)
    requires Printable(full, e) && m <= min && EndsInName(full, e, min)
    requires Holds(ts, pos, Show(full, e, min)) && pos + |Show(full, e, min)| < |ts|
    requires ts[pos + |Show(full, e, min)|].kind == LBrace
    ensures ParseBp(ts, pos, m).pos > pos + |Show(full, e, min)|
    decreases e
  {
    hide *;
    EndsForms(full, e, min);
    if e.Ident? {
      NameSwallows(ts, pos, e.name);
      PastPrefix(ts, pos, m);
      OneLong(Token(IdentTok, e.name, 0));
    } else if e.Unary? {
      PrintableParts(full, e);
      UnarySplit(full, e, ts, pos);
      Swallows(full, e.operand, PrefixPower, ts, pos + 1, PrefixPower);
      UnarySwallows(ts, pos, e.op);
      PastPrefix(ts, pos, m);
    } else {
      PrintableParts(full, e);
      BinarySplit(full, e, ts, pos);
      var mid := pos + |Show(full, e.left, Power(e.op))|;
      Swallows(full, e.right, Power(e.op) + 1, ts, mid + 1, Power(e.op) + 1);
      BinarySwallows(full, e.left, ts, pos, e.op, m);
    }
  }

  lemma OneLong(t: Token)
    ensures |[t]| == 1
  {
  }

  /** The operator loop passes the end of the right operand. */
  lemma {:induction false} BinarySwallows(full: bool, left: Expr, ts: TokenList, pos: nat, op: Op, m: nat)
    requires Printable(full, left) && Holds(ts, pos, Show(full, left, Power(op))) && m <= Power(op)
    requires |Show(full, left, Power(op))| > 0 && BindingPower(OpTok(op)) == Some(Power(op))
    requires var mid := pos + |Show(full, left, Power(op))|; mid + 1 < |ts| && ts[mid].kind == OpTok(op)
    ensures
      var mid := pos + |Show(full, left, Power(op))|;
      ParseBp(ts, pos, m).pos >= ParseBp(ts, mid + 1, Power(op) + 1).pos
  {
    hide *;
    var mid := pos + |Show(full, left, Power(op))|;
    LeftFollows(full, left, ts, mid, op);
    ShowReads(full, left, Power(op), ts, pos, m);
    PrintableNotNull(full, left);
    InfixSwallows(ts, mid, left, op, m);
  }

  lemma {:induction false} EndsForms(full: bool, e: Expr, min: nat)
    requires EndsInName(full, e, min)
    ensures Show(full, e, min) == Bare(full, e) && (e.Ident? || e.Unary? || e.Binary?)
    ensures e.Ident? ==> Upper(e.name) && Bare(full, e) == [Token(IdentTok, e.name, 0)]
    ensures e.Unary? ==> EndsInName(full, e.operand, PrefixPower)
    ensures e.Binary? ==> Power(e.op) >= min && EndsInName(full, e.right, Power(e.op) + 1)
  {
    hide Upper, Power;
  }

  lemma {:induction false} NameSwallows(ts: TokenList, pos: nat, x: string)
    requires Holds(ts, pos, [Token(IdentTok, x, 0)]) && Upper(x) && pos + 1 < |ts| && ts[pos + 1].kind == LBrace
    ensures ParsePrefix(ts, pos).pos > pos + 1
  {
    hide Holds, Readable, Upper, ParseExpr, ParseBp, ParseInits, ParseArrayLit, ParseBlock, ParseTry, ParseUnary;
    First(ts, pos, [Token(IdentTok, x, 0)]);
    assert ParsePrimary(ts, pos) == ParseStructLit(ts, pos + 1, Named(ts[pos].text, []));
  }

  lemma {:induction false} UnarySwallows(ts: TokenList, pos: nat, op: Op)
    requires pos + 1 < |ts| && ts[pos].kind == OpTok(op) && IsPrefixOp(op) && ts[pos + 1].kind != KwConst
    ensures ParsePrefix(ts, pos).pos == ParseBp(ts, pos + 1, PrefixPower).pos
  {
    hide Readable, ParseBp;
  }

  lemma {:induction false} InfixSwallows(ts: TokenList, mid: nat, l: Expr, op: Op, m: nat)
    requires mid + 1 < |ts| && l != NoExpr && ts[mid].kind == OpTok(op)
    requires BindingPower(OpTok(op)) == Some(Power(op)) && m <= Power(op)
    ensures ParseInfix(ts, mid, l, m).pos >= ParseBp(ts, mid + 1, Power(op) + 1).pos
  {
    hide Readable, ParseBp, BindingPower, Power, ParseType;
  }

  lemma {:induction false} PastPrefix(ts: TokenList, pos: nat, m: nat)
    requires pos < |ts|
    ensures ParseBp(ts, pos, m).pos >= ParsePrefix(ts, pos).pos
  {
    hide Readable, ParsePrefix, ParsePostfix, ParseInfix;
  }

  lemma LeftFollows(full: bool, left: Expr, ts: TokenList, mid: nat, op: Op)
    requires 0 < mid < |ts| && ts[mid].kind == OpTok(op)
    ensures Calm(ts, mid) && forall name :: Unbraced(ts, mid, name)
    ensures IsBareBinary(full, left, Power(op)) ==> Looser(ts, mid, Power(left.op))
  {
    hide Readable;
  }

  /** Before an opening brace a printed expression is read whole exactly if it does not end in a capitalised
      name of its own. */
  lemma {:induction false} BraceExact(full: bool, e: Expr, ts: TokenList, pos: nat)
    requires Printable(full, e) && Holds(ts, pos, Show(full, e, 0)) && pos + |Show(full, e, 0)| < |ts|
    requires ts[pos + |Show(full, e, 0)|].kind == LBrace
    ensures ParseExpr(ts, pos) == P(e, pos + |Show(full, e, 0)|, true) <==> !EndsInName(full, e, 0)
    ensures EndsInName(full, e, 0) ==> ParseExpr(ts, pos).pos > pos + |Show(full, e, 0)|
  {
    hide *;
    var end := pos + |Show(full, e, 0)|;
    ExprStep(ts, pos);
    if EndsInName(full, e, 0) {
      Swallows(full, e, 0, ts, pos, 0);
    } else {
      ShowStarts(full, e, 0);
      StartsSome(Show(full, e, 0));
      BraceCalm(ts, end, EndsInName(full, e, 0));
      ShowParses(full, e, 0, ts, pos);
    }
  }

  lemma BraceCalm(ts: TokenList, end: nat, name: bool)
    requires 0 < end < |ts| && ts[end].kind == LBrace
    ensures Calm(ts, end) && BindingPower(ts[end].kind).None? && Unbraced(ts, end, name) == !name
  {
  }
}
