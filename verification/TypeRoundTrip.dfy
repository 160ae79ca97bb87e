/** Printing types and parsing them back (src/parser.c:695-764). */
module TypeRoundTrip {
  import opened Ast
  import opened Tokens
  import opened ParserSpec
  import opened PrattRoundTrip

  // ---- types ----

  function Const(isConst: bool): seq<Token> {
    if isConst then [Tok(KwConst)] else []
  }

  function ShowType(full: bool, t: TypeExpr): seq<Token>
    decreases t, 0
  {
    match t
    case NoType => []
    case Named(n, args) =>
      if args == [] && n == "type" then [Tok(KwType)]
      else if args == [] && n == "Self" then [Tok(KwSelf)]
      else [Token(IdentTok, n, 0)] + if args == [] then [] else Parens(ShowTypes(full, args))
    case RefType(c, child) => [Tok(OpTok(Amp))] + Const(c) + ShowType(full, child)
    case PtrType(c, child) => [Tok(OpTok(Star))] + Const(c) + ShowType(full, child)
    case SliceType(c, child) => [Tok(LBracket), Tok(RBracket)] + Const(c) + ShowType(full, child)
    case ArrayType(n, elem) => [Tok(LBracket)] + Show(full, n, 0) + [Tok(RBracket)] + ShowType(full, elem)
    case OptionalType(child) => ShowType(full, child) + [Tok(Question)]
    case ErrorUnionType(e, s) => ShowType(full, e) + [Tok(OpTok(Bang))] + ShowType(full, s)
    case FunctionType(params, ret) => [Tok(KwFn)] + Parens(ShowTypes(full, params)) + Result(full, ret)
  }

  function Result(full: bool, ret: TypeExpr): seq<Token>
    decreases ret, 1
  {
    if ret == NoType then [] else [Tok(Arrow)] + ShowType(full, ret)
  }

  function ShowTypes(full: bool, ts: seq<TypeExpr>): seq<Token>
    decreases ts, 0
  {
    if ts == [] then []
    else if |ts| == 1 then ShowType(full, ts[0])
    else ShowType(full, ts[0]) + [Tok(Comma)] + ShowTypes(full, ts[1..])
  }

  /** The text ends in a suffix already, and a type takes only one. */
  predicate Full(t: TypeExpr) {
    t.OptionalType? || (t.ErrorUnionType? && Full(t.success))
  }

  /** A type without a suffix that one may follow: its own text does not end in a type that would take it. */
  predicate Closed(t: TypeExpr) {
    match t
    case Named(_, _) => true
    case RefType(_, child) => Full(child)
    case PtrType(_, child) => Full(child)
    case SliceType(_, child) => Full(child)
    case ArrayType(_, elem) => Full(elem)
    case FunctionType(_, ret) => ret == NoType || Full(ret)
    case _ => false
  }

  /** The types that have a text; there are no parentheses around types. */
  predicate Writable(full: bool, t: TypeExpr)
    decreases t, 0
  {
    match t
    case NoType => false
    case Named(n, args) => (args != [] ==> n != "Self") && AllWritable(full, args)
    case RefType(_, child) => Writable(full, child)
    case PtrType(_, child) => Writable(full, child)
    case SliceType(_, child) => Writable(full, child)
    case ArrayType(n, elem) => Printable(full, n) && Writable(full, elem)
    case OptionalType(child) => Closed(child) && Writable(full, child)
    case ErrorUnionType(e, s) => Closed(e) && Writable(full, e) && Writable(full, s)
    case FunctionType(params, ret) => AllWritable(full, params) && (ret == NoType || Writable(full, ret))
  }

  predicate AllWritable(full: bool, ts: seq<TypeExpr>)
    decreases ts, 0
  {
    ts == [] || (Writable(full, ts[0]) && AllWritable(full, ts[1..]))
  }

  /** No token after the type text is taken into it. */
  predicate EndsType(k: Kind) {
    EndsClosed(k) && k != Question && k != OpTok(Bang)
  }

  predicate EndsClosed(k: Kind) {
    k != LParen && k != Arrow
  }

  predicate TypeStart(s: seq<Token>) {
    |s| > 0 && StartsType(s[0].kind)
  }

  lemma {:induction false} TypeStarts(full: bool, t: TypeExpr)
    requires Writable(full, t)
    ensures TypeStart(ShowType(full, t))
    decreases t
  {
    hide Show, Printable;
    match t {
      case OptionalType(child) => TypeStarts(full, child);
      case ErrorUnionType(e, _) => TypeStarts(full, e);
      case _ =>
    }
  }

  // ---- single steps of the type parser ----

  lemma {:induction false} TypePlain(ts: TokenList, pos: nat, t: TypeExpr, end: nat)
    requires pos < |ts| && end < |ts| && t != NoType && EndsType(ts[end].kind)
    requires ParsePrimaryType(ts, pos) == P(t, end, true)
    ensures ParseType(ts, pos) == P(t, end, true)
  {
    hide Readable, ParsePrimaryType;
  }

  lemma {:induction false} TypeOptional(ts: TokenList, pos: nat, t: TypeExpr, mid: nat)
    requires pos < |ts| && mid < |ts| && t != NoType && ts[mid].kind == Question
    requires ParsePrimaryType(ts, pos) == P(t, mid, true)
    ensures ParseType(ts, pos) == P(OptionalType(t), mid + 1, true)
  {
    hide Readable, ParsePrimaryType;
  }

  lemma TypeUnion(ts: TokenList, pos: nat, e: TypeExpr, mid: nat, s: TypeExpr, end: nat)
    requires pos < |ts| && mid + 1 < |ts| && e != NoType && ts[mid].kind == OpTok(Bang)
    requires ParsePrimaryType(ts, pos) == P(e, mid, true) && ParseType(ts, mid + 1) == P(s, end, true)
    ensures ParseType(ts, pos) == P(ErrorUnionType(e, s), end, true)
  {
    hide Readable, ParsePrimaryType, EndsType;
    assert ParseType(ts, pos) == ParseTypeSuffix(ts, P(e, mid, true));
    hide ParseType;
  }

  lemma {:induction false} PointedStep(ts: TokenList, pos: nat, isConst: bool, child: TypeExpr, end: nat,
      k: PointedKind)
    requires pos < |ts| && (ts[pos].kind == KwConst <==> isConst)
    requires isConst ==> pos + 1 < |ts|
    requires ParseType(ts, if isConst then pos + 1 else pos) == P(child, end, true)
    ensures ParsePointed(ts, pos, k)
      == P(if k.Ref? then RefType(isConst, child) else if k.Ptr? then PtrType(isConst, child) else SliceType(isConst, child), end, true)
  {
    hide Readable, ParseType;
  }

  lemma {:induction false} PrefixTypeStep(ts: TokenList, pos: nat)
    requires pos + 1 < |ts| && (ts[pos].kind == OpTok(Amp) || ts[pos].kind == OpTok(Star))
    ensures ParsePrimaryType(ts, pos) == ParsePointed(ts, pos + 1, if ts[pos].kind == OpTok(Amp) then Ref else Ptr)
  {
    hide Readable, ParsePointed, ParseBracketType, ParseFnType, ParseNamed;
  }

  lemma SliceTypeStep(ts: TokenList, pos: nat)
    requires pos + 2 < |ts| && ts[pos].kind == LBracket && ts[pos + 1].kind == RBracket
    ensures ParsePrimaryType(ts, pos) == ParsePointed(ts, pos + 2, Sli)
  {
    hide Readable, ParsePointed, ParseFnType, ParseNamed, ParseExpr, ParseType;
  }

  lemma ArrayTypeStep(ts: TokenList, pos: nat, n: Expr, mid: nat, elem: TypeExpr, end: nat)
    requires pos + 1 < |ts| && ts[pos].kind == LBracket && ts[pos + 1].kind != RBracket
    requires mid + 1 < |ts| && ts[mid].kind == RBracket
    requires ParseExpr(ts, pos + 1) == P(n, mid, true) && ParseType(ts, mid + 1) == P(elem, end, true)
    ensures ParsePrimaryType(ts, pos) == P(ArrayType(n, elem), end, true)
  {
    hide Readable, ParsePointed, ParseFnType, ParseNamed, ParseExpr, ParseType;
  }

  lemma {:induction false} NamedStep(ts: TokenList, pos: nat)
    requires pos + 1 < |ts| && ts[pos].kind == IdentTok
    ensures ParsePrimaryType(ts, pos) == ParseNamed(ts, pos + 1, ts[pos].text)
  {
    hide Readable, ParsePointed, ParseBracketType, ParseFnType, ParseNamed;
  }

  lemma {:induction false} WordTypeStep(ts: TokenList, pos: nat)
    requires pos + 1 < |ts| && (ts[pos].kind == KwType || ts[pos].kind == KwSelf)
    ensures ParsePrimaryType(ts, pos) == P(Named(if ts[pos].kind == KwType then "type" else "Self", []), pos + 1, true)
  {
    hide Readable, ParsePointed, ParseBracketType, ParseFnType, ParseNamed;
  }

  lemma {:induction false} NamedArgsStep(ts: TokenList, pos: nat, name: string, args: seq<TypeExpr>, close: nat)
    requires pos + 1 < |ts| && ts[pos].kind == LParen && name != "Self"
    requires close < |ts| && ts[close].kind == RParen && ParseGenericArgs(ts, pos + 1) == P(args, close, true)
    ensures ParseNamed(ts, pos, name) == P(Named(name, args), close + 1, true)
  {
    hide Readable, ParseGenericArgs;
  }

  lemma {:induction false} NamedPlainStep(ts: TokenList, pos: nat, name: string)
    requires pos < |ts| && ts[pos].kind != LParen
    ensures ParseNamed(ts, pos, name) == P(Named(name, []), pos, true)
  {
    hide Readable, ParseGenericArgs;
  }

  lemma {:induction false} FnStep(ts: TokenList, pos: nat, params: seq<TypeExpr>, mid: nat)
    requires pos + 1 < |ts| && ts[pos].kind == KwFn && mid < |ts| && ParseParamTypes(ts, pos + 1) == P(params, mid, true)
    ensures ts[mid].kind != Arrow ==> ParsePrimaryType(ts, pos) == P(FunctionType(params, NoType), mid, true)
    ensures ts[mid].kind == Arrow && mid + 1 < |ts| ==>
      var r := ParseType(ts, mid + 1);
      ParsePrimaryType(ts, pos) == P(FunctionType(params, r.value), r.pos, r.ok)
  {
    hide Readable, ParsePointed, ParseBracketType, ParseNamed, ParseParamTypes, ParseType;
    assert ParsePrimaryType(ts, pos) == ParseFnType(ts, pos + 1);
    hide ParsePrimaryType;
  }

  lemma ParamsStep(ts: TokenList, pos: nat, params: seq<TypeExpr>, close: nat)
    requires pos + 1 < |ts| && ts[pos].kind == LParen && close < |ts| && ts[close].kind == RParen
    requires if params == [] then close == pos + 1 else ts[pos + 1].kind != RParen && ParseTypes(ts, pos + 1) == P(params, close, true)
    ensures ParseParamTypes(ts, pos) == P(params, close + 1, true)
  {
    hide Readable, ParseTypes;
  }

  lemma {:induction false} LastType(ts: TokenList, pos: nat, t: TypeExpr, end: nat)
    requires pos < |ts| && end < |ts| && ts[end].kind == RParen && ParseType(ts, pos) == P(t, end, true)
    ensures ParseTypes(ts, pos) == P([t], end, true)
    ensures ts[pos].kind != RParen && ts[pos].kind != Eof ==> ParseGenericArgs(ts, pos) == P([t], end, true)
  {
    hide Readable, ParseType;
  }

  lemma MoreTypes(ts: TokenList, pos: nat, t: TypeExpr, mid: nat, rest: seq<TypeExpr>, end: nat)
    requires pos < |ts| && mid + 1 < |ts| && ts[mid].kind == Comma && ParseType(ts, pos) == P(t, mid, true)
    ensures ParseTypes(ts, mid + 1) == P(rest, end, true) ==> ParseTypes(ts, pos) == P([t] + rest, end, true)
    ensures ts[pos].kind != RParen && ts[pos].kind != Eof && ParseGenericArgs(ts, mid + 1) == P(rest, end, true) ==>
      ParseGenericArgs(ts, pos) == P([t] + rest, end, true)
  {
    hide Readable, ParseType;
  }

  // ---- a type text is read whole ----

  lemma {:induction false} TypeReads(full: bool, t: TypeExpr, ts: TokenList, pos: nat)
    requires Writable(full, t) && Holds(ts, pos, ShowType(full, t)) && pos + |ShowType(full, t)| < |ts|
    requires EndsType(ts[pos + |ShowType(full, t)|].kind)
    ensures ParseType(ts, pos) == P(t, pos + |ShowType(full, t)|, true)
    decreases t, 3
  {
    hide *;
    Ending(t, ts[pos + |ShowType(full, t)|].kind);
    TypeReadsTo(full, t, ts, pos);
  }

  lemma {:induction false} TypeReadsTo(full: bool, t: TypeExpr, ts: TokenList, pos: nat)
    requires Writable(full, t) && Holds(ts, pos, ShowType(full, t)) && pos + |ShowType(full, t)| < |ts|
    requires EndsSuffixed(t, ts[pos + |ShowType(full, t)|].kind)
    ensures ParseType(ts, pos) == P(t, pos + |ShowType(full, t)|, true)
    decreases t, 2
  {
    hide *;
    var end := pos + |ShowType(full, t)|;
    if t.OptionalType? {
      OptionalSplit(full, t, ts, pos);
      PrimaryReads(full, t.child, ts, pos);
      TypeOptional(ts, pos, t.child, end - 1);
    } else if t.ErrorUnionType? {
      var mid := pos + |ShowType(full, t.error)|;
      UnionSplit(full, t, ts, pos);
      PrimaryReads(full, t.error, ts, pos);
      SuffixEnds(t, ts[end].kind);
      TypeReadsTo(full, t.success, ts, mid + 1);
      TypeUnion(ts, pos, t.error, mid, t.success, end);
    } else {
      NoSuffixEnds(t, ts[end].kind);
      Ending(t, ts[end].kind);
      PrimaryReads(full, t, ts, pos);
      NotNoType(full, t);
      TypePlain(ts, pos, t, end);
    }
  }

  lemma {:induction false} NotNoType(full: bool, t: TypeExpr)
    requires Writable(full, t)
    ensures t != NoType
  {
  }

  /** What may follow a type that is not a suffix. */
  predicate Follows(t: TypeExpr, k: Kind) {
    if Closed(t) then EndsClosed(k) else EndsType(k)
  }

  /** What may follow any type. */
  predicate EndsSuffixed(t: TypeExpr, k: Kind) {
    if Full(t) then EndsClosed(k) else EndsType(k)
  }

  lemma Ending(t: TypeExpr, k: Kind)
    requires EndsType(k)
    ensures Follows(t, k) && EndsSuffixed(t, k)
  {
  }

  lemma SuffixEnds(t: TypeExpr, k: Kind)
    requires t.ErrorUnionType? && EndsSuffixed(t, k)
    ensures EndsSuffixed(t.success, k)
  {
  }

  lemma NoSuffixEnds(t: TypeExpr, k: Kind)
    requires !t.OptionalType? && !t.ErrorUnionType? && EndsSuffixed(t, k)
    ensures EndsType(k)
  {
  }

  lemma {:induction false} OptionalSplit(full: bool, t: TypeExpr, ts: seq<Token>, pos: nat)
    requires t.OptionalType? && Writable(full, t) && Holds(ts, pos, ShowType(full, t))
    ensures
      var mid := pos + |ShowType(full, t.child)|;
      && |ShowType(full, t)| == |ShowType(full, t.child)| + 1 && mid < |ts| && ts[mid].kind == Question
      && Holds(ts, pos, ShowType(full, t.child)) && Writable(full, t.child) && Follows(t.child, Question)
      && !t.child.OptionalType? && !t.child.ErrorUnionType? && t.child != NoType
  {
    hide Holds;
    var s := ShowType(full, t.child);
    Split(ts, pos, s, [Tok(Question)]);
    First(ts, pos + |s|, [Tok(Question)]);
  }

  lemma {:induction false} UnionSplit(full: bool, t: TypeExpr, ts: seq<Token>, pos: nat)
    requires t.ErrorUnionType? && Writable(full, t) && Holds(ts, pos, ShowType(full, t))
    ensures
      var e, s := ShowType(full, t.error), ShowType(full, t.success);
      var mid := pos + |e|;
      && |ShowType(full, t)| == |e| + 1 + |s| && mid < |ts| && ts[mid].kind == OpTok(Bang)
      && Holds(ts, pos, e) && Holds(ts, mid + 1, s) && Writable(full, t.error) && Writable(full, t.success)
      && Follows(t.error, OpTok(Bang)) && !t.error.OptionalType? && !t.error.ErrorUnionType? && t.error != NoType
  {
    hide Holds;
    SplitAround(ts, pos, ShowType(full, t.error), Tok(OpTok(Bang)), ShowType(full, t.success));
  }

  lemma {:induction false} PrimaryReads(full: bool, t: TypeExpr, ts: TokenList, pos: nat)
    requires Writable(full, t) && !t.OptionalType? && !t.ErrorUnionType?
    requires Holds(ts, pos, ShowType(full, t)) && pos + |ShowType(full, t)| < |ts|
    requires Follows(t, ts[pos + |ShowType(full, t)|].kind)
    ensures ParsePrimaryType(ts, pos) == P(t, pos + |ShowType(full, t)|, true)
    decreases t, 1
  {
    hide *;
    NotNoType(full, t);
    if t.Named? {
      NamedReads(full, t, ts, pos);
    } else if t.ArrayType? {
      ArrayReads(full, t, ts, pos);
    } else if t.FunctionType? {
      FunctionReads(full, t, ts, pos);
    } else {
      PointedReads(full, t, ts, pos);
    }
  }

  function Opening(t: TypeExpr): seq<Token>
    requires t.RefType? || t.PtrType? || t.SliceType?
  {
    if t.RefType? then [Tok(OpTok(Amp))] else if t.PtrType? then [Tok(OpTok(Star))] else [Tok(LBracket), Tok(RBracket)]
  }

  lemma {:induction false} PointedSplit(full: bool, t: TypeExpr, ts: seq<Token>, pos: nat)
    requires (t.RefType? || t.PtrType? || t.SliceType?) && Writable(full, t) && Holds(ts, pos, ShowType(full, t))
    ensures
      var o, s := |Opening(t)|, ShowType(full, t.child);
      var at := pos + o + if t.isConst then 1 else 0;
      && |ShowType(full, t)| == o + (if t.isConst then 1 else 0) + |s| && Writable(full, t.child)
      && Holds(ts, at, s) && at < |ts| && (ts[pos + o].kind == KwConst <==> t.isConst)
  {
    hide Holds, ShowType, Writable, Opening, Like, Starts;
    PointedText(full, t);
    var open, c, s := Opening(t), Const(t.isConst), ShowType(full, t.child);
    Split(ts, pos, open + c, s);
    Split(ts, pos, open, c);
    TypeStarts(full, t.child);
    StartKind(ts, pos + |open| + |c|, s);
    if t.isConst { ConstKind(ts, pos + |open|); }
  }

  lemma {:induction false} PointedText(full: bool, t: TypeExpr)
    requires (t.RefType? || t.PtrType? || t.SliceType?) && Writable(full, t)
    ensures ShowType(full, t) == Opening(t) + Const(t.isConst) + ShowType(full, t.child) && Writable(full, t.child)
  {
  }

  lemma StartKind(ts: seq<Token>, pos: nat, s: seq<Token>)
    requires Holds(ts, pos, s) && TypeStart(s)
    ensures |s| > 0 && pos < |ts| && StartsType(ts[pos].kind)
  {
    hide StartsType;
    First(ts, pos, s);
  }

  lemma ConstKind(ts: seq<Token>, pos: nat)
    requires Holds(ts, pos, Const(true))
    ensures pos < |ts| && ts[pos].kind == KwConst
  {
    First(ts, pos, Const(true));
  }

  lemma {:induction false} OpeningHolds(full: bool, t: TypeExpr, ts: seq<Token>, pos: nat)
    requires (t.RefType? || t.PtrType? || t.SliceType?) && Holds(ts, pos, ShowType(full, t))
    ensures
      && |Opening(t)| == (if t.SliceType? then 2 else 1) && pos + |Opening(t)| <= |ts|
      && ts[pos].kind == (if t.RefType? then OpTok(Amp) else if t.PtrType? then OpTok(Star) else LBracket)
      && (t.SliceType? ==> ts[pos + 1].kind == RBracket)
  {
    var s := ShowType(full, t);
    assert Like(ts[pos + 0], s[0]);
    if t.SliceType? { assert Like(ts[pos + 1], s[1]); }
  }

  lemma {:induction false} PointedReads(full: bool, t: TypeExpr, ts: TokenList, pos: nat)
    requires Writable(full, t) && (t.RefType? || t.PtrType? || t.SliceType?)
    requires Holds(ts, pos, ShowType(full, t)) && pos + |ShowType(full, t)| < |ts|
    requires Follows(t, ts[pos + |ShowType(full, t)|].kind)
    ensures ParsePrimaryType(ts, pos) == P(t, pos + |ShowType(full, t)|, true)
    decreases t, 0
  {
    hide *;
    var end := pos + |ShowType(full, t)|;
    PointedSplit(full, t, ts, pos);
    OpeningHolds(full, t, ts, pos);
    EndsInside(t, ts[end].kind);
    var at := pos + |Opening(t)|;
    TypeReadsTo(full, t.child, ts, if t.isConst then at + 1 else at);
    PointedStep(ts, at, t.isConst, t.child, end, if t.RefType? then Ref else if t.PtrType? then Ptr else Sli);
    if t.SliceType? { SliceTypeStep(ts, pos); } else { PrefixTypeStep(ts, pos); }
  }

  /** What may follow a type may follow the type its text ends in. */
  lemma EndsInside(t: TypeExpr, k: Kind)
    requires Follows(t, k)
    ensures t.RefType? || t.PtrType? || t.SliceType? ==> EndsSuffixed(t.child, k)
    ensures t.ArrayType? ==> EndsSuffixed(t.elem, k)
    ensures t.FunctionType? && t.ret != NoType ==> EndsSuffixed(t.ret, k)
  {
  }

  lemma {:induction false} ArrayText(full: bool, t: TypeExpr)
    requires t.ArrayType? && Writable(full, t)
    ensures ShowType(full, t) == [Tok(LBracket)] + Show(full, t.length, 0) + [Tok(RBracket)] + ShowType(full, t.elem)
    ensures Printable(full, t.length) && Writable(full, t.elem)
  {
    hide Show, Printable;
  }

  lemma {:induction false} ArraySplit(full: bool, t: TypeExpr, ts: seq<Token>, pos: nat)
    requires t.ArrayType? && Writable(full, t) && Holds(ts, pos, ShowType(full, t))
    ensures
      var n, s := Show(full, t.length, 0), ShowType(full, t.elem);
      var mid := pos + 1 + |n|;
      && |ShowType(full, t)| == |n| + |s| + 2 && mid + 1 <= |ts| && Holds(ts, pos + 1, n) && Holds(ts, mid + 1, s)
      && ts[pos].kind == LBracket && ts[mid].kind == RBracket && Printable(full, t.length) && Writable(full, t.elem)
  {
    hide *;
    ArrayText(full, t);
    TokKind(LBracket);
    TokKind(RBracket);
    var n, s := Show(full, t.length, 0), ShowType(full, t.elem);
    SplitAround(ts, pos, [Tok(LBracket)] + n, Tok(RBracket), s);
    LikeKind(ts[pos + 1 + |n|], Tok(RBracket));
    Split(ts, pos, [Tok(LBracket)], n);
    First(ts, pos, [Tok(LBracket)]);
    LikeKind(ts[pos], Tok(LBracket));
  }

  lemma {:induction false} ArrayReads(full: bool, t: TypeExpr, ts: TokenList, pos: nat)
    requires Writable(full, t) && t.ArrayType?
    requires Holds(ts, pos, ShowType(full, t)) && pos + |ShowType(full, t)| < |ts|
    requires Follows(t, ts[pos + |ShowType(full, t)|].kind)
    ensures ParsePrimaryType(ts, pos) == P(t, pos + |ShowType(full, t)|, true)
    decreases t, 0
  {
    hide *;
    var end := pos + |ShowType(full, t)|;
    var mid := pos + 1 + |Show(full, t.length, 0)|;
    ArraySplit(full, t, ts, pos);
    EndsInside(t, ts[end].kind);
    ExprEnds();
    ExprReads(full, t.length, ts, pos + 1);
    TypeReadsTo(full, t.elem, ts, mid + 1);
    ArrayTypeStep(ts, pos, t.length, mid, t.elem, end);
  }

  /** The tokens that end an expression wherever it stands. */
  predicate EndsExpr(k: Kind) {
    k.RParen? || k.RBracket? || k.Comma? || k.Semicolon? || k.RBrace? || k.AssignTok?
  }

  lemma ExprEnds()
    ensures EndsExpr(RParen) && EndsExpr(RBracket) && EndsExpr(Comma) && EndsExpr(Semicolon) && EndsExpr(RBrace)
    ensures forall aop :: EndsExpr(AssignTok(aop))
  {
  }

  /** An expression text before such a token is read whole, and starts like an expression. */
  lemma ExprReads(full: bool, e: Expr, ts: TokenList, pos: nat)
    requires Printable(full, e) && Holds(ts, pos, Show(full, e, 0)) && pos + |Show(full, e, 0)| < |ts|
    requires EndsExpr(ts[pos + |Show(full, e, 0)|].kind)
    ensures ParseExpr(ts, pos) == P(e, pos + |Show(full, e, 0)|, true)
    ensures pos < |ts| && ts[pos].kind != RBracket && ts[pos].kind != RParen
  {
    hide Holds, Show, Printable, ParseExpr, ParseBp, Readable;
    var end := pos + |Show(full, e, 0)|;
    ShowStarts(full, e, 0);
    StartsKind(ts, pos, Show(full, e, 0));
    EndCalm(ts, end);
    ShowParses(full, e, 0, ts, pos);
    ExprStep(ts, pos);
  }

  lemma StartsKind(ts: seq<Token>, pos: nat, s: seq<Token>)
    requires Holds(ts, pos, s) && Starts(s)
    ensures |s| > 0 && pos < |ts| && ts[pos].kind != RBracket && ts[pos].kind != RParen && ts[pos].kind != KwConst
  {
    First(ts, pos, s);
  }

  lemma EndCalm(ts: TokenList, end: nat)
    requires 0 < end < |ts| && EndsExpr(ts[end].kind)
    ensures Calm(ts, end) && BindingPower(ts[end].kind).None? && forall name :: Unbraced(ts, end, name)
  {
  }

  // ---- lists of types ----

  lemma {:induction false} TypesText(full: bool, list: seq<TypeExpr>)
    requires list != [] && AllWritable(full, list)
    ensures Writable(full, list[0]) && AllWritable(full, list[1..])
    ensures
      var s := ShowType(full, list[0]);
      ShowTypes(full, list) == if |list| == 1 then s else s + [Tok(Comma)] + ShowTypes(full, list[1..])
  {
    hide ShowType, Writable;
  }

  lemma {:induction false} TypesSplit(full: bool, list: seq<TypeExpr>, ts: seq<Token>, pos: nat)
    requires list != [] && AllWritable(full, list)
    requires Holds(ts, pos, ShowTypes(full, list)) && pos + |ShowTypes(full, list)| < |ts|
    ensures
      var s := ShowType(full, list[0]);
      var mid := pos + |s|;
      && |s| > 0 && Holds(ts, pos, s) && StartsType(ts[pos].kind) && Writable(full, list[0]) && AllWritable(full, list[1..])
      && (if |list| == 1 then |ShowTypes(full, list)| == |s|
          else
            && |ShowTypes(full, list)| == |s| + 1 + |ShowTypes(full, list[1..])|
            && ts[mid].kind == Comma && Holds(ts, mid + 1, ShowTypes(full, list[1..])))
  {
    hide Holds, ShowType, ShowTypes, Like, Writable, AllWritable, StartsType, TypeStart;
    TypesText(full, list);
    var s := ShowType(full, list[0]);
    TypeStarts(full, list[0]);
    if |list| > 1 {
      SplitAround(ts, pos, s, Tok(Comma), ShowTypes(full, list[1..]));
      LikeKind(ts[pos + |s|], Tok(Comma));
    }
    StartKind(ts, pos, s);
  }

  lemma {:induction false} TypesRead(full: bool, list: seq<TypeExpr>, ts: TokenList, pos: nat)
    requires list != [] && AllWritable(full, list)
    requires Holds(ts, pos, ShowTypes(full, list)) && pos + |ShowTypes(full, list)| < |ts|
    requires ts[pos + |ShowTypes(full, list)|].kind == RParen
    ensures ParseTypes(ts, pos) == P(list, pos + |ShowTypes(full, list)|, true)
    ensures ParseGenericArgs(ts, pos) == P(list, pos + |ShowTypes(full, list)|, true)
    ensures ts[pos].kind != RParen
    decreases list, 3
  {
    hide *;
    var end := pos + |ShowTypes(full, list)|;
    var mid := pos + |ShowType(full, list[0])|;
    HeadEnds(full, list, ts, pos);
    TypeReads(full, list[0], ts, pos);
    if |list| == 1 {
      LastType(ts, pos, list[0], end);
      assert list == [list[0]];
    } else {
      TypesRead(full, list[1..], ts, mid + 1);
      MoreTypes(ts, pos, list[0], mid, list[1..], end);
      Joined(list);
    }
  }

  /** The first type of the list ends at a comma or at the closing parenthesis. */
  lemma {:induction false} HeadEnds(full: bool, list: seq<TypeExpr>, ts: TokenList, pos: nat)
    requires list != [] && AllWritable(full, list)
    requires Holds(ts, pos, ShowTypes(full, list)) && pos + |ShowTypes(full, list)| < |ts|
    requires ts[pos + |ShowTypes(full, list)|].kind == RParen
    ensures
      var mid := pos + |ShowType(full, list[0])|;
      && mid < |ts| && Holds(ts, pos, ShowType(full, list[0])) && Writable(full, list[0]) && EndsType(ts[mid].kind)
      && ts[pos].kind != RParen && ts[pos].kind != Eof
      && (if |list| == 1 then mid == pos + |ShowTypes(full, list)|
          else
            && AllWritable(full, list[1..]) && ts[mid].kind == Comma && mid + 1 < |ts|
            && Holds(ts, mid + 1, ShowTypes(full, list[1..]))
            && mid + 1 + |ShowTypes(full, list[1..])| == pos + |ShowTypes(full, list)|)
  {
    hide *;
    TypesSplit(full, list, ts, pos);
    NotClosing(ts[pos].kind);
    TypeEnds();
  }

  lemma Joined(list: seq<TypeExpr>)
    requires list != []
    ensures [list[0]] + list[1..] == list
  {
  }

  lemma NotClosing(k: Kind)
    requires StartsType(k)
    ensures k != RParen && k != Eof && k != RBracket && k != KwConst
  {
  }

  lemma TypeEnds()
    ensures EndsType(RParen) && EndsType(Comma) && EndsType(KwIn) && EndsType(Semicolon) && EndsType(AssignTok(Assign))
  {
  }

  // ---- names and function types ----

  lemma {:induction false} NamedText(full: bool, t: TypeExpr)
    requires t.Named? && Writable(full, t)
    ensures t.args == [] && (t.name == "type" || t.name == "Self") ==>
      ShowType(full, t) == [Tok(if t.name == "type" then KwType else KwSelf)]
    ensures t.args == [] && t.name != "type" && t.name != "Self" ==> ShowType(full, t) == [Token(IdentTok, t.name, 0)]
    ensures t.args != [] ==>
      && ShowType(full, t) == [Token(IdentTok, t.name, 0)] + Parens(ShowTypes(full, t.args))
      && t.name != "Self" && AllWritable(full, t.args)
  {
  }

  lemma OneWord(ts: seq<Token>, pos: nat, t: Token)
    requires Holds(ts, pos, [t])
    ensures pos < |ts| && ts[pos].kind == t.kind && (t.kind == IdentTok ==> ts[pos].text == t.text)
  {
    First(ts, pos, [t]);
  }

  lemma {:induction false} GenericReads(full: bool, t: TypeExpr, ts: TokenList, pos: nat)
    requires Writable(full, t) && t.Named? && t.args != []
    requires Holds(ts, pos, ShowType(full, t)) && pos + |ShowType(full, t)| < |ts|
    ensures ParsePrimaryType(ts, pos) == P(t, pos + |ShowType(full, t)|, true)
    decreases t, -1
  {
    hide *;
    var name, list := Token(IdentTok, t.name, 0), ShowTypes(full, t.args);
    NamedText(full, t);
    Split(ts, pos, [name], Parens(list));
    OneWord(ts, pos, name);
    ParensSize(list);
    SplitParens(ts, pos + 1, list);
    TypesRead(full, t.args, ts, pos + 2);
    NamedStep(ts, pos);
    NamedArgsStep(ts, pos + 1, t.name, t.args, pos + 2 + |list|);
  }

  lemma {:induction false} NamedReads(full: bool, t: TypeExpr, ts: TokenList, pos: nat)
    requires Writable(full, t) && t.Named?
    requires Holds(ts, pos, ShowType(full, t)) && pos + |ShowType(full, t)| < |ts|
    requires Follows(t, ts[pos + |ShowType(full, t)|].kind)
    ensures ParsePrimaryType(ts, pos) == P(t, pos + |ShowType(full, t)|, true)
    decreases t, 0
  {
    hide *;
    var end := pos + |ShowType(full, t)|;
    NamedText(full, t);
    var name := Token(IdentTok, t.name, 0);
    FollowsNamed(t, ts[end].kind);
    if t.args != [] {
      GenericReads(full, t, ts, pos);
    } else if t.name == "type" || t.name == "Self" {
      OneWord(ts, pos, Tok(if t.name == "type" then KwType else KwSelf));
      TokKind(if t.name == "type" then KwType else KwSelf);
      WordTypeStep(ts, pos);
    } else {
      OneWord(ts, pos, name);
      NamedStep(ts, pos);
      NamedPlainStep(ts, pos + 1, t.name);
    }
  }

  lemma FollowsNamed(t: TypeExpr, k: Kind)
    requires (t.Named? || (t.FunctionType? && t.ret == NoType)) && Follows(t, k)
    ensures k != LParen && k != Arrow
  {
  }

  lemma ParensSize(s: seq<Token>)
    ensures |Parens(s)| == |s| + 2
  {
  }

  lemma TokKind(k: Kind)
    ensures Tok(k).kind == k && Tok(k) == Token(k, "", 0)
  {
  }

  lemma {:induction false} FunctionSplit(full: bool, t: TypeExpr, ts: seq<Token>, pos: nat)
    requires t.FunctionType? && Writable(full, t) && Holds(ts, pos, ShowType(full, t))
    ensures
      var p := ShowTypes(full, t.params);
      var mid := pos + |p| + 3;
      && |ShowType(full, t)| == |p| + 3 + |Result(full, t.ret)| && mid <= |ts| && AllWritable(full, t.params)
      && ts[pos].kind == KwFn && ts[pos + 1].kind == LParen && ts[mid - 1].kind == RParen && Holds(ts, pos + 2, p)
      && Holds(ts, mid, Result(full, t.ret)) && (t.ret == NoType || Writable(full, t.ret))
  {
    hide Holds, Like, Result, ShowTypes;
    var p := ShowTypes(full, t.params);
    Split(ts, pos, [Tok(KwFn)] + Parens(p), Result(full, t.ret));
    Split(ts, pos, [Tok(KwFn)], Parens(p));
    OneWord(ts, pos, Tok(KwFn));
    SplitParens(ts, pos + 1, p);
  }

  lemma {:induction false} ResultSplit(full: bool, ret: TypeExpr, ts: seq<Token>, pos: nat)
    requires Holds(ts, pos, Result(full, ret))
    ensures ret == NoType ==> |Result(full, ret)| == 0
    ensures ret != NoType ==>
      && |Result(full, ret)| == 1 + |ShowType(full, ret)| && pos < |ts| && ts[pos].kind == Arrow
      && Holds(ts, pos + 1, ShowType(full, ret))
  {
    hide Holds, Like, ShowType;
    if ret != NoType {
      Split(ts, pos, [Tok(Arrow)], ShowType(full, ret));
      OneWord(ts, pos, Tok(Arrow));
    }
  }

  lemma {:induction false} FunctionReads(full: bool, t: TypeExpr, ts: TokenList, pos: nat)
    requires Writable(full, t) && t.FunctionType?
    requires Holds(ts, pos, ShowType(full, t)) && pos + |ShowType(full, t)| < |ts|
    requires Follows(t, ts[pos + |ShowType(full, t)|].kind)
    ensures ParsePrimaryType(ts, pos) == P(t, pos + |ShowType(full, t)|, true)
    decreases t, 0
  {
    hide *;
    var p := ShowTypes(full, t.params);
    var mid, end := pos + |p| + 3, pos + |ShowType(full, t)|;
    FunctionSplit(full, t, ts, pos);
    ResultSplit(full, t.ret, ts, mid);
    if t.params == [] { NoTypesText(full); } else { TypesRead(full, t.params, ts, pos + 2); }
    ParamsStep(ts, pos + 1, t.params, mid - 1);
    FnStep(ts, pos, t.params, mid);
    if t.ret == NoType {
      FollowsNamed(t, ts[mid].kind);
    } else {
      EndsInside(t, ts[end].kind);
      TypeReadsTo(full, t.ret, ts, mid + 1);
    }
  }

  lemma {:induction false} NoTypesText(full: bool)
    ensures ShowTypes(full, []) == []
  {
  }

  // ---- and no other type is read ----

  /** What can be read, whatever the lengths of arrays are. */
  predicate Shaped(t: TypeExpr)
    decreases t, 0
  {
    match t
    case NoType => false
    case Named(n, args) => (args != [] ==> n != "Self") && AllShaped(args)
    case RefType(_, child) => Shaped(child)
    case PtrType(_, child) => Shaped(child)
    case SliceType(_, child) => Shaped(child)
    case ArrayType(_, elem) => Shaped(elem)
    case OptionalType(child) => Closed(child) && Shaped(child)
    case ErrorUnionType(e, s) => Closed(e) && Shaped(e) && Shaped(s)
    case FunctionType(params, ret) => AllShaped(params) && (ret == NoType || Shaped(ret))
  }

  predicate AllShaped(ts: seq<TypeExpr>)
    decreases ts, 0
  {
    ts == [] || (Shaped(ts[0]) && AllShaped(ts[1..]))
  }

  /** All array lengths have a text. */
  predicate Lengths(full: bool, t: TypeExpr)
    decreases t, 0
  {
    match t
    case NoType => true
    case Named(_, args) => AllLengths(full, args)
    case RefType(_, child) => Lengths(full, child)
    case PtrType(_, child) => Lengths(full, child)
    case SliceType(_, child) => Lengths(full, child)
    case ArrayType(n, elem) => Printable(full, n) && Lengths(full, elem)
    case OptionalType(child) => Lengths(full, child)
    case ErrorUnionType(e, s) => Lengths(full, e) && Lengths(full, s)
    case FunctionType(params, ret) => AllLengths(full, params) && Lengths(full, ret)
  }

  predicate AllLengths(full: bool, ts: seq<TypeExpr>)
    decreases ts, 0
  {
    ts == [] || (Lengths(full, ts[0]) && AllLengths(full, ts[1..]))
  }

  lemma {:induction false} WritableIff(full: bool, t: TypeExpr)
    ensures Writable(full, t) <==> Shaped(t) && Lengths(full, t)
    decreases t, 0
  {
    hide Printable, Closed;
    match t {
      case Named(_, args) => AllWritableIff(full, args);
      case RefType(_, child) => WritableIff(full, child);
      case PtrType(_, child) => WritableIff(full, child);
      case SliceType(_, child) => WritableIff(full, child);
      case ArrayType(_, elem) => WritableIff(full, elem);
      case OptionalType(child) => WritableIff(full, child);
      case ErrorUnionType(e, s) => WritableIff(full, e); WritableIff(full, s);
      case FunctionType(params, ret) => AllWritableIff(full, params); WritableIff(full, ret);
      case _ =>
    }
  }

  lemma {:induction false} AllWritableIff(full: bool, list: seq<TypeExpr>)
    ensures AllWritable(full, list) <==> AllShaped(list) && AllLengths(full, list)
    decreases list, 0
  {
    hide Writable, Shaped, Lengths;
    if list != [] {
      WritableIff(full, list[0]);
      AllWritableIff(full, list[1..]);
    }
  }

  predicate IsSuffix(k: Kind) {
    k == Question || k == OpTok(Bang)
  }

  /** Every type that is read without an error has the shape of a type with a text, and where a suffix
      follows it, it takes no more. */
  lemma {:induction false} ParsedType(ts: TokenList, pos: nat)
    requires pos < |ts| && ParseType(ts, pos).ok
    ensures var r := ParseType(ts, pos); Shaped(r.value) && (IsSuffix(ts[r.pos].kind) ==> Full(r.value))
    decreases |ts| - pos, 1
  {
    hide Readable, ParsePrimaryType;
    ParsedPrimary(ts, pos);
    var p := ParsePrimaryType(ts, pos);
    if Check(ts, p.pos, OpTok(Bang)) { ParsedType(ts, p.pos + 1); }
  }

  lemma {:induction false} ParsedPrimary(ts: TokenList, pos: nat)
    requires pos < |ts| && (ParsePrimaryType(ts, pos).ok || ParseType(ts, pos).ok)
    ensures
      var r := ParsePrimaryType(ts, pos);
      r.ok && Shaped(r.value) && !IsSuffixed(r.value) && (IsSuffix(ts[r.pos].kind) ==> Closed(r.value))
    decreases |ts| - pos, 0
  {
    hide Readable, ParsePointed, ParseBracketType, ParseFnType, ParseNamed, IsSuffix, Closed, Shaped;
    PrimaryOk(ts, pos);
    var k := ts[pos].kind;
    if k.OpTok? {
      ParsedPointed(ts, pos + 1, if k.op.Amp? then Ref else Ptr);
    } else if k.LBracket? {
      ParsedBracket(ts, pos + 1);
    } else if k.KwFn? {
      ParsedFn(ts, pos + 1);
    } else if k.IdentTok? {
      ParsedNamed(ts, pos + 1, ts[pos].text);
    } else {
      WordShaped();
    }
  }

  predicate IsSuffixed(t: TypeExpr) {
    t.OptionalType? || t.ErrorUnionType? || t == NoType
  }

  lemma WordShaped()
    ensures forall n :: Shaped(Named(n, [])) && Closed(Named(n, []))
  {
  }

  lemma {:induction false} PrimaryOk(ts: TokenList, pos: nat)
    requires pos < |ts| && (ParsePrimaryType(ts, pos).ok || ParseType(ts, pos).ok)
    ensures ParsePrimaryType(ts, pos).ok && StartsType(ts[pos].kind)
  {
    hide Readable, ParsePointed, ParseBracketType, ParseFnType, ParseNamed;
  }

  lemma {:induction false} ParsedPointed(ts: TokenList, pos: nat, k: PointedKind)
    requires pos < |ts| && ParsePointed(ts, pos, k).ok
    ensures
      var r := ParsePointed(ts, pos, k);
      Shaped(r.value) && !IsSuffixed(r.value) && (IsSuffix(ts[r.pos].kind) ==> Closed(r.value))
    decreases |ts| - pos, 2
  {
    hide Readable, ParseType, IsSuffix;
    ParsedType(ts, Skip(ts, pos, KwConst));
  }

  lemma {:induction false} ParsedBracket(ts: TokenList, pos: nat)
    requires pos < |ts| && ParseBracketType(ts, pos).ok
    ensures
      var r := ParseBracketType(ts, pos);
      Shaped(r.value) && !IsSuffixed(r.value) && (IsSuffix(ts[r.pos].kind) ==> Closed(r.value))
    decreases |ts| - pos, 4
  {
    hide Readable, ParseType, ParsePointed, ParseExpr, IsSuffix;
    if Check(ts, pos, RBracket) {
      ParsedPointed(ts, pos + 1, Sli);
    } else {
      ParsedType(ts, ExpectAfter(ts, ParseExpr(ts, pos), RBracket).pos);
    }
  }

  lemma {:induction false} ParsedNamed(ts: TokenList, pos: nat, name: string)
    requires pos < |ts| && ParseNamed(ts, pos, name).ok
    ensures
      var r := ParseNamed(ts, pos, name);
      Shaped(r.value) && !IsSuffixed(r.value) && Closed(r.value)
    decreases |ts| - pos, 3
  {
    hide Readable, ParseGenericArgs;
    if name != "Self" && Check(ts, pos, LParen) { ParsedArgs(ts, pos + 1); }
  }

  lemma {:induction false} ParsedFn(ts: TokenList, pos: nat)
    requires pos < |ts| && ParseFnType(ts, pos).ok
    ensures
      var r := ParseFnType(ts, pos);
      Shaped(r.value) && !IsSuffixed(r.value) && (IsSuffix(ts[r.pos].kind) ==> Closed(r.value))
    decreases |ts| - pos, 4
  {
    hide Readable, ParseType, ParseParamTypes, IsSuffix;
    ParsedParams(ts, pos);
    var params := ParseParamTypes(ts, pos);
    if Check(ts, params.pos, Arrow) { ParsedType(ts, params.pos + 1); }
  }

  lemma {:induction false} ParsedParams(ts: TokenList, pos: nat)
    requires pos < |ts| && ParseParamTypes(ts, pos).ok
    ensures AllShaped(ParseParamTypes(ts, pos).value)
    decreases |ts| - pos, 3
  {
    hide Readable, ParseTypes;
    if !Check(ts, pos + 1, RParen) { ParsedTypes(ts, pos + 1); }
  }

  lemma {:induction false} ParsedTypes(ts: TokenList, pos: nat)
    requires pos < |ts| && ParseTypes(ts, pos).ok
    ensures AllShaped(ParseTypes(ts, pos).value)
    decreases |ts| - pos, 2
  {
    hide Readable, ParseType, Shaped;
    var t := ParseType(ts, pos);
    ParsedType(ts, pos);
    OneShaped(t.value, []);
    if Check(ts, t.pos, Comma) {
      ParsedTypes(ts, t.pos + 1);
      OneShaped(t.value, ParseTypes(ts, t.pos + 1).value);
    }
  }

  lemma {:induction false} ArgsUnfold(ts: TokenList, pos: nat)
    requires pos < |ts|
    ensures
      ParseGenericArgs(ts, pos) ==
        if ts[pos].kind == RParen || ts[pos].kind == Eof then P([], pos, true)
        else
          var t := ParseType(ts, pos);
          if ts[t.pos].kind != Comma then P([t.value], t.pos, t.ok)
          else
            var rest := ParseGenericArgs(ts, t.pos + 1);
            P([t.value] + rest.value, rest.pos, t.ok && rest.ok)
    ensures var t := ParseType(ts, pos); ts[t.pos].kind == Comma ==> t.pos + 1 < |ts|
  {
    hide ParseType;
  }

  lemma {:induction false} ParsedArgs(ts: TokenList, pos: nat)
    requires pos < |ts| && ParseGenericArgs(ts, pos).ok
    ensures AllShaped(ParseGenericArgs(ts, pos).value)
    decreases |ts| - pos, 2
  {
    hide *;
    ArgsUnfold(ts, pos);
    NoneShaped();
    if ts[pos].kind != RParen && ts[pos].kind != Eof {
      var t := ParseType(ts, pos);
      ParsedType(ts, pos);
      if ts[t.pos].kind == Comma {
        ParsedArgs(ts, t.pos + 1);
        OneShaped(t.value, ParseGenericArgs(ts, t.pos + 1).value);
      } else {
        OneShaped(t.value, []);
        assert [t.value] + [] == [t.value];
      }
    }
  }

  lemma NoneShaped()
    ensures AllShaped([])
  {
  }

  lemma {:induction false} OneShaped(t: TypeExpr, rest: seq<TypeExpr>)
    requires Shaped(t) && AllShaped(rest)
    ensures AllShaped([t] + rest)
  {
    hide Shaped;
    assert ([t] + rest)[1..] == rest;
  }

  /** So a type with printable lengths that has no text here is the result of no successful parse at all. */
  lemma {:induction false} NoOtherType(full: bool, t: TypeExpr, ts: TokenList, pos: nat)
    requires Lengths(full, t) && !Writable(full, t) && pos < |ts|
    ensures !(ParseType(ts, pos).ok && ParseType(ts, pos).value == t)
  {
    hide *;
    WritableIff(full, t);
    if ParseType(ts, pos).ok { ParsedType(ts, pos); }
  }
}
