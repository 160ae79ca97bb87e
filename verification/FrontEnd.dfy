/** Lexer and parser together: the source text of an expression is read back to the expression. */
module FrontEnd {
  import opened Ast
  import opened Tokens
  import opened ParserSpec
  import Lexing
  import Relexing
  import PrattRoundTrip

  const MaxInt64: int := 0x7FFF_FFFF_FFFF_FFFF

  // ---- decimal integers ----

  function Digit(d: nat): char
    requires d < 10
  {
    ('0' as int + d) as char
  }

  function Digits(n: nat): (r: string)
    ensures |r| > 0
  {
    if n < 10 then [Digit(n)] else Digits(n / 10) + [Digit(n % 10)]
  }

  predicate AllDigits(t: string) {
    forall i :: 0 <= i < |t| ==> Lexing.IsDigit(t[i])
  }

  function Decimal(t: string): nat
    requires AllDigits(t)
  {
    if t == "" then 0 else 10 * Decimal(t[..|t| - 1]) + (t[|t| - 1] as int - '0' as int)
  }

  /** The value of a decimal integer token, which saturates; other bases are not covered. */
  function IntValue(t: string): int {
    if !AllDigits(t) then 0 else if Decimal(t) > MaxInt64 then MaxInt64 else Decimal(t)
  }

  lemma {:induction false} DigitsRead(n: nat)
    ensures AllDigits(Digits(n)) && Decimal(Digits(n)) == n
  {
    if n < 10 {
      assert [Digit(n)][..0] == "";
      assert Decimal("") == 0;
    } else {
      DigitsRead(n / 10);
      var t := Digits(n / 10) + [Digit(n % 10)];
      assert t[..|t| - 1] == Digits(n / 10);
    }
  }

  // ---- tokens as text ----

  function TokenOf(l: Lexing.Lexeme): Token {
    Token(l.kind, l.text, if l.kind.IntTok? then IntValue(l.text) else 0)
  }

  function TokensOf(ls: seq<Lexing.Lexeme>): (r: seq<Token>)
    ensures |r| == |ls| && forall i :: 0 <= i < |ls| ==> r[i] == TokenOf(ls[i])
  {
    if ls == [] then [] else [TokenOf(ls[0])] + TokensOf(ls[1..])
  }

  function WordText(t: Token): string {
    match t.kind
    case IntTok => if t.value >= 0 then Digits(t.value) else ""
    case IdentTok => t.text
    case StringTok => t.text
    case KwTrue => "true"
    case KwFalse => "false"
    case KwNull => "null"
    case KwUndefined => "undefined"
    case _ => Relexing.Spelling(t.kind)
  }

  function WordOf(t: Token): Relexing.Word {
    Relexing.Word(t.kind, WordText(t))
  }

  function Words(ts: seq<Token>): (r: seq<Relexing.Word>)
    ensures |r| == |ts| && forall i :: 0 <= i < |ts| ==> r[i] == WordOf(ts[i])
  {
    if ts == [] then [] else [WordOf(ts[0])] + Words(ts[1..])
  }

  /** Tokens whose text the lexer reads back: 64-bit integers, names, closed strings and fixed spellings. */
  predicate Writable(t: Token) {
    match t.kind
    case IntTok => 0 <= t.value <= MaxInt64
    case IdentTok => Relexing.IsName(Relexing.Word(IdentTok, t.text))
    case StringTok => Relexing.IsString(Relexing.Word(StringTok, t.text))
    case KwTrue => true
    case KwFalse => true
    case KwNull => true
    case KwUndefined => true
    case _ => Relexing.Spelling(t.kind) != ""
  }

  lemma LiteralName(t: Token)
    requires t.kind.KwTrue? || t.kind.KwFalse? || t.kind.KwNull? || t.kind.KwUndefined?
    ensures Relexing.IsName(WordOf(t))
  {
  }

  lemma WritablePrintable(t: Token)
    requires Writable(t)
    ensures Relexing.Printable(WordOf(t))
  {
    hide Relexing.IsName, Relexing.IsString, Relexing.Inside, Relexing.Spelling, Decimal, Digits;
    if t.kind.IntTok? {
      DigitsRead(t.value);
      assert Relexing.IsDecimal(WordOf(t));
    } else if t.kind.KwTrue? || t.kind.KwFalse? || t.kind.KwNull? || t.kind.KwUndefined? {
      LiteralName(t);
    } else if !t.kind.IdentTok? && !t.kind.StringTok? {
      assert Relexing.IsOperator(WordOf(t));
    }
  }

  /** A token that was written and lexed is the same to the parser. */
  lemma WrittenLike(t: Token, l: Lexing.Lexeme)
    requires Writable(t) && l.kind == t.kind && l.text == WordText(t)
    ensures PrattRoundTrip.Like(TokenOf(l), t)
  {
    hide Relexing.IsName, Relexing.IsString, Relexing.Spelling;
    NotSpelled();
    if t.kind.IntTok? { DigitsRead(t.value); }
  }

  lemma NotSpelled()
    ensures Relexing.Spelling(FloatTok) == "" && Relexing.Spelling(CharTok) == ""
  {
  }

  lemma OpWritable(op: Op)
    ensures Writable(PrattRoundTrip.Tok(OpTok(op)))
  {
    hide Relexing.IsName, Relexing.IsString, Relexing.AssignSpelling;
  }

  lemma MarkWritable(k: Kind)
    requires k.LParen? || k.RParen? || k.LBracket? || k.RBracket? || k.Comma? || k.Dot? || k.KwTrue? || k.KwFalse?
             || k.KwNull? || k.KwUndefined?
    ensures Writable(PrattRoundTrip.Tok(k))
  {
    hide Relexing.IsName, Relexing.IsString, Relexing.OpSpelling, Relexing.AssignSpelling;
  }

  lemma MarksWritable()
    ensures PrattRoundTrip.Marks(Writable)
  {
    hide Writable;
    MarkWritable(LParen);
    MarkWritable(RParen);
    MarkWritable(LBracket);
    MarkWritable(RBracket);
    MarkWritable(Comma);
    MarkWritable(Dot);
    MarkWritable(KwTrue);
    MarkWritable(KwFalse);
    MarkWritable(KwNull);
    MarkWritable(KwUndefined);
    forall op ensures Writable(PrattRoundTrip.Tok(OpTok(op))) { OpWritable(op); }
  }

  /** The main result: an expression printed as source text, in either style, with its tokens apart, is
      lexed and parsed back to itself. */
  lemma {:induction false} SourceRoundTrip(full: bool, e: Expr)
    requires PrattRoundTrip.Printable(full, e) && PrattRoundTrip.Leaves(Writable, e)
    ensures
      var source := Relexing.Lay(Words(PrattRoundTrip.Show(full, e, 0)));
      var ts := TokensOf(Lexing.Stream(source, 0));
      Readable(ts) && ParseExpr(ts, 0) == P(e, |ts| - 1, true)
  {
    hide *;
    var s := PrattRoundTrip.Show(full, e, 0);
    var source := Relexing.Lay(Words(s));
    MarksWritable();
    PrattRoundTrip.ShowAll(Writable, full, e, 0);
    WordsPrintable(s);
    Relexing.Relexes(Words(s));
    TextRead(s, Lexing.Stream(source, 0));
    PrattRoundTrip.ExpressionRoundTrip(full, e, TokensOf(Lexing.Stream(source, 0)));
  }

  lemma {:induction false} WordsPrintable(s: seq<Token>)
    requires PrattRoundTrip.All(Writable, s)
    ensures forall w :: w in Words(s) ==> Relexing.Printable(w)
  {
    hide Writable, Relexing.Printable, WordText;
    forall w | w in Words(s) ensures Relexing.Printable(w) {
      var i :| 0 <= i < |s| && Words(s)[i] == w;
      assert s[i] in s;
      WritablePrintable(s[i]);
    }
  }

  lemma {:induction false} TextRead(s: seq<Token>, ls: seq<Lexing.Lexeme>)
    requires PrattRoundTrip.All(Writable, s) && Relexing.Matches(ls, Words(s))
    ensures PrattRoundTrip.LikeText(TokensOf(ls), s)
  {
    hide Writable, WordText, PrattRoundTrip.Like;
    var ts := TokensOf(ls);
    forall i | 0 <= i < |s| ensures PrattRoundTrip.Like(ts[i], s[i]) {
      assert s[i] in s && Words(s)[i] == WordOf(s[i]);
      WrittenLike(s[i], ls[i]);
    }
  }

  // ---- whatever the lexer returns ----

  lemma {:induction false} StreamEnds(s: string, pos: nat)
    requires pos <= |s|
    ensures
      var ls := Lexing.Stream(s, pos);
      ls[|ls| - 1].kind == Eof && forall i :: 0 <= i < |ls| - 1 ==> ls[i].kind != Eof
    decreases |s| - pos
  {
    hide Lexing.NextLexeme;
    var t := Lexing.NextLexeme(s, pos);
    if t.kind != Eof {
      StreamEnds(s, t.end);
      assert Lexing.Stream(s, pos) == [t] + Lexing.Stream(s, t.end);
    }
  }

  /** The tokens of every source text without the word `match` are a list the parser can read, so every
      such text is parsed to its end. */
  lemma {:induction false} LexedReadable(s: string)
    requires forall l :: l in Lexing.Stream(s, 0) ==> l.kind != KwMatch
    ensures Readable(TokensOf(Lexing.Stream(s, 0)))
  {
    hide *;
    StreamEnds(s, 0);
    KindsReadable(Lexing.Stream(s, 0), TokensOf(Lexing.Stream(s, 0)));
  }

  lemma {:induction false} KindsReadable(ls: seq<Lexing.Lexeme>, ts: seq<Token>)
    requires |ls| > 0 && ts == TokensOf(ls) && ls[|ls| - 1].kind == Eof
    requires forall l :: l in ls ==> l.kind != KwMatch
    requires forall i :: 0 <= i < |ls| - 1 ==> ls[i].kind != Eof
    ensures Readable(ts)
  {
    hide TokensOf;
    forall i | 0 <= i < |ts| ensures ts[i].kind == ls[i].kind && ls[i] in ls {
      assert ts[i] == TokenOf(ls[i]);
    }
  }

  /** The lexer makes `Self` a keyword that no type starts with, so the parser's branch for a type named
      `Self` is never taken by lexed text. */
  lemma {:induction false} SelfTypeRejected(ts: TokenList, pos: nat)
    requires pos < |ts| && ts[pos].kind == Lexing.Keyword("Self")
    ensures ParseType(ts, pos) == P(NoType, pos, false)
  {
    hide Readable, Lexing.Keyword;
    SelfKeyword();
  }

  lemma SelfKeyword()
    ensures Lexing.Keyword("Self") == KwCapSelf
  {
  }
}
