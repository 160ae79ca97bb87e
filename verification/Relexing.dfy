/** Maximal munch, and printing tokens apart and lexing them again (src/lexer.c:44-59, 145-346). */
module Relexing {
  import opened Ast
  import opened Tokens
  import opened Lexing
  import opened LexTiling

  // ---- operators ----

  /** How each operator and punctuation mark is written; other kinds have no fixed spelling. */
  function Spelling(k: Kind): string {
    match k
    case OpTok(op) => OpSpelling(op)
    case AssignTok(aop) => AssignSpelling(aop)
    case Dot => "."
    case Arrow => "->"
    case FatArrow => "=>"
    case ColonColon => "::"
    case Hash => "#"
    case LParen => "("
    case RParen => ")"
    case LBracket => "["
    case RBracket => "]"
    case LBrace => "{"
    case RBrace => "}"
    case Comma => ","
    case Semicolon => ";"
    case Colon => ":"
    case Question => "?"
    case _ => ""
  }

  function OpSpelling(op: Op): string {
    match op
    case Plus => "+"
    case Minus => "-"
    case Star => "*"
    case Slash => "/"
    case Percent => "%"
    case EqEq => "=="
    case NotEq => "!="
    case Lt => "<"
    case Gt => ">"
    case Le => "<="
    case Ge => ">="
    case AndAnd => "&&"
    case OrOr => "||"
    case Amp => "&"
    case Pipe => "|"
    case Caret => "^"
    case Shl => "<<"
    case Shr => ">>"
    case Bang => "!"
    case Tilde => "~"
    case DotDot => ".."
  }

  function AssignSpelling(aop: AssignOp): string {
    match aop
    case Assign => "="
    case AddAssign => "+="
    case SubAssign => "-="
    case MulAssign => "*="
    case DivAssign => "/="
    case RemAssign => "%="
    case AndAssign => "&="
    case OrAssign => "|="
    case XorAssign => "^="
    case ShlAssign => "<<="
    case ShrAssign => ">>="
  }

  /** The spelling of a kind stands in the three characters. */
  predicate Spells(k: Kind, c: char, d: char, e: char) {
    var t := Spelling(k);
    1 <= |t| <= 3 && t[0] == c && (|t| > 1 ==> t[1] == d) && (|t| > 2 ==> t[2] == e)
  }

  /** What the lexer reads is spelled there. */
  lemma OperatorSpelled(c: char, d: char, e: char)
    ensures
      var r := Operator(c, d, e);
      r.0 != ErrorTok ==> Spells(r.0, c, d, e) && |Spelling(r.0)| == r.1
  {
    if Single(c) != ErrorTok {
      SingleSpelled(c);
      hide Operator, Single;
    } else if c == '<' || c == '>' || c == '=' || c == '!' || c == '-' {
      ComparisonSpelled(c, d, e);
      hide Operator;
    } else {
      OtherSpelled(c, d, e);
      hide Operator;
    }
  }

  lemma ComparisonSpelled(c: char, d: char, e: char)
    requires c == '<' || c == '>' || c == '=' || c == '!' || c == '-'
    ensures var r := Operator(c, d, e); Spells(r.0, c, d, e) && |Spelling(r.0)| == r.1
  {
    hide Single;
  }

  lemma OtherSpelled(c: char, d: char, e: char)
    requires c != '<' && c != '>' && c != '=' && c != '!' && c != '-' && Single(c) == ErrorTok
    ensures var r := Operator(c, d, e); r.0 != ErrorTok ==> Spells(r.0, c, d, e) && |Spelling(r.0)| == r.1
  {
    hide Single;
  }

  lemma SingleSpelled(c: char)
    requires Single(c) != ErrorTok
    ensures Spelling(Single(c)) == [c]
    ensures forall d, e :: Operator(c, d, e) == (Single(c), 1)
  {
  }

  /** Maximal munch: every operator that the next characters spell is at most as long as the one read. */
  lemma LongestOperator(c: char, d: char, e: char, k: Kind)
    requires Spells(k, c, d, e)
    ensures
      var r := Operator(c, d, e);
      r.0 != ErrorTok && |Spelling(k)| <= r.1 && (|Spelling(k)| == r.1 ==> r.0 == k)
  {
    if k.OpTok? {
      LongestOp(c, d, e, k.op);
    } else if k.AssignTok? {
      LongestAssign(c, d, e, k.aop);
    } else {
      hide OpSpelling, AssignSpelling;
    }
  }

  lemma LongestOp(c: char, d: char, e: char, op: Op)
    requires Spells(OpTok(op), c, d, e)
    ensures
      var r := Operator(c, d, e);
      r.0 != ErrorTok && |OpSpelling(op)| <= r.1 && (|OpSpelling(op)| == r.1 ==> r.0 == OpTok(op))
  {
    hide AssignSpelling;
  }

  lemma LongestAssign(c: char, d: char, e: char, aop: AssignOp)
    requires Spells(AssignTok(aop), c, d, e)
    ensures
      var r := Operator(c, d, e);
      r.0 != ErrorTok && |AssignSpelling(aop)| <= r.1 && (|AssignSpelling(aop)| == r.1 ==> r.0 == AssignTok(aop))
  {
    hide OpSpelling, Single;
  }

  // ---- tokens printed apart ----

  datatype Word = Word(kind: Kind, text: string)

  predicate IsName(w: Word) {
    && |w.text| > 0 && IsIdentStart(w.text[0]) && (forall i :: 0 <= i < |w.text| ==> IsIdentChar(w.text[i]))
    && w.kind == Keyword(w.text)
  }

  predicate IsDecimal(w: Word) {
    |w.text| > 0 && (forall i :: 0 <= i < |w.text| ==> IsDigit(w.text[i])) && w.kind == IntTok
  }

  predicate IsOperator(w: Word) {
    w.text != "" && w.text == Spelling(w.kind)
  }

  /** The inside of a string: escaped pairs, and characters other than quotes and newlines. */
  predicate Inside(t: string) {
    t == ""
    || (t[0] == '\\' && |t| >= 2 && Inside(t[2..]))
    || (t[0] != '\\' && t[0] != '"' && t[0] != '\n' && Inside(t[1..]))
  }

  predicate IsString(w: Word) {
    && |w.text| >= 2 && w.text[0] == '"' && w.text[|w.text| - 1] == '"' && Inside(w.text[1..|w.text| - 1])
    && w.kind == StringTok
  }

  predicate Printable(w: Word) {
    IsName(w) || IsDecimal(w) || IsOperator(w) || IsString(w)
  }

  function Lay(ws: seq<Word>): string {
    if ws == [] then "" else if |ws| == 1 then ws[0].text else ws[0].text + " " + Lay(ws[1..])
  }

  /** The tokens are the words, then the end of file. */
  predicate Matches(ts: seq<Lexeme>, ws: seq<Word>) {
    && |ts| == |ws| + 1 && ts[|ws|].kind == Eof
    && (forall i :: 0 <= i < |ws| ==> ts[i].kind == ws[i].kind && ts[i].text == ws[i].text)
  }

  /** A word at a position, before a space or the end. */
  predicate Stands(s: string, pos: nat, x: string) {
    && pos + |x| <= |s| && s[pos..pos + |x|] == x
    && (pos + |x| < |s| ==> s[pos + |x|] == ' ')
  }

  lemma StandsAt(s: string, pos: nat, x: string, k: nat)
    requires Stands(s, pos, x) && k < |x|
    ensures pos + k < |s| && s[pos + k] == x[k]
  {
    assert s[pos..pos + |x|][k] == s[pos + k];
  }

  // ---- each kind of word ----

  lemma {:induction false} IdentRun(s: string, i: nat, end: nat)
    requires i <= end <= |s| && (forall k :: i <= k < end ==> IsIdentChar(s[k])) && (end < |s| ==> s[end] == ' ')
    ensures IdentEnd(s, i) == end
    decreases end - i
  {
    if i < end { IdentRun(s, i + 1, end); }
  }

  lemma {:induction false} DigitRun(s: string, i: nat, end: nat)
    requires i <= end <= |s| && (forall k :: i <= k < end ==> IsDigit(s[k])) && (end < |s| ==> s[end] == ' ')
    ensures NumberEnd(s, i, 10, false) == (end, false)
    decreases end - i
  {
    if i < end { DigitRun(s, i + 1, end); }
  }

  lemma {:induction false} StringRun(s: string, i: nat, t: string)
    requires Inside(t) && i + |t| < |s| && s[i..i + |t|] == t && s[i + |t|] == '"'
    ensures StringBody(s, i) == Reach(i + |t|, 0)
    decreases |t|
  {
    if t != "" {
      assert s[i..i + |t|][0] == t[0];
      var n := if t[0] == '\\' then 2 else 1;
      assert s[i + n..i + |t|] == t[n..];
      StringRun(s, i + n, t[n..]);
    }
  }

  lemma NameReads(s: string, pos: nat, w: Word)
    requires IsName(w) && Stands(s, pos, w.text)
    ensures pos < |s| && ReadToken(s, pos) == Read(w.kind, pos + |w.text|, 0)
  {
    hide Keyword;
    var end := pos + |w.text|;
    StandsAt(s, pos, w.text, 0);
    forall k | pos + 1 <= k < end ensures IsIdentChar(s[k]) { StandsAt(s, pos, w.text, k - pos); }
    IdentRun(s, pos + 1, end);
    assert s[pos..end] == w.text;
  }

  lemma DecimalReads(s: string, pos: nat, w: Word)
    requires IsDecimal(w) && Stands(s, pos, w.text)
    ensures pos < |s| && ReadToken(s, pos) == Read(IntTok, pos + |w.text|, 0)
  {
    var end := pos + |w.text|;
    StandsAt(s, pos, w.text, 0);
    forall k | pos + 1 <= k < end ensures IsDigit(s[k]) { StandsAt(s, pos, w.text, k - pos); }
    DigitRun(s, pos + 1, end);
    assert NumberBase(s, pos) == (10, pos + 1);
  }

  lemma StringReads(s: string, pos: nat, w: Word)
    requires IsString(w) && Stands(s, pos, w.text)
    ensures pos < |s| && ReadToken(s, pos) == Read(StringTok, pos + |w.text|, 0)
  {
    var n := |w.text|;
    StandsAt(s, pos, w.text, 0);
    StandsAt(s, pos, w.text, n - 1);
    SliceInside(s, pos, w.text);
    StringRun(s, pos + 1, w.text[1..n - 1]);
    hide StringBody, Inside;
  }

  lemma SliceInside(s: string, pos: nat, x: string)
    requires Stands(s, pos, x) && |x| >= 2
    ensures pos + |x| <= |s| && s[pos + 1..pos + |x| - 1] == x[1..|x| - 1]
  {
    var a, b := s[pos + 1..pos + |x| - 1], x[1..|x| - 1];
    assert |a| == |b|;
    forall k | 0 <= k < |a| ensures a[k] == b[k] { StandsAt(s, pos, x, k + 1); }
  }

  /** No operator starts like another token, and none contains a blank. */
  lemma SpellingPlain(k: Kind)
    requires Spelling(k) != ""
    ensures
      var c := Spelling(k)[0];
      !IsIdentStart(c) && !IsDigit(c) && c != '"' && c != '\'' && !IsSpace(c) && c != '\0'
    ensures 1 <= |Spelling(k)| <= 3
    ensures |Spelling(k)| > 1 ==> Spelling(k)[1] != ' ' && Spelling(k)[1] != '\0' && Spelling(k)[1] != '*' && !IsDigit(Spelling(k)[1])
    ensures |Spelling(k)| > 1 && Spelling(k)[0] == '/' ==> Spelling(k)[1] != '/'
    ensures |Spelling(k)| > 2 ==> Spelling(k)[2] != ' ' && Spelling(k)[2] != '\0'
  {
  }

  lemma OperatorReads(s: string, pos: nat, w: Word)
    requires IsOperator(w) && Stands(s, pos, w.text)
    ensures pos < |s| && ReadToken(s, pos) == Read(w.kind, pos + |w.text|, 0)
  {
    hide Operator, Spelling, IdentEnd, NumberEnd, StringEnd, CharEnd, Keyword;
    SpellingPlain(w.kind);
    StandsAt(s, pos, w.text, 0);
    var c, d, e := s[pos], CharAt(s, pos + 1), CharAt(s, pos + 2);
    if |w.text| > 1 { StandsAt(s, pos, w.text, 1); }
    if |w.text| > 2 { StandsAt(s, pos, w.text, 2); }
    LongestOperator(c, d, e, w.kind);
    OperatorSpelled(c, d, e);
    var r := Operator(c, d, e);
    SpellingPlain(r.0);
  }

  lemma WordReads(s: string, pos: nat, w: Word)
    requires Printable(w) && Stands(s, pos, w.text)
    ensures pos < |s| && ReadToken(s, pos) == Read(w.kind, pos + |w.text|, 0)
  {
    hide ReadToken, IsName, IsDecimal, IsString, IsOperator, Stands;
    if IsName(w) {
      NameReads(s, pos, w);
    } else if IsDecimal(w) {
      DecimalReads(s, pos, w);
      assert w.kind == IntTok by { DecimalKind(w); }
    } else if IsOperator(w) {
      OperatorReads(s, pos, w);
    } else {
      StringReads(s, pos, w);
      assert w.kind == StringTok by { StringKind(w); }
    }
  }

  lemma DecimalKind(w: Word)
    requires IsDecimal(w)
    ensures w.kind == IntTok
  {
  }

  lemma StringKind(w: Word)
    requires IsString(w)
    ensures w.kind == StringTok
  {
  }

  /** No gap starts at a word. */
  lemma {:induction false} NoGapAt(s: string, pos: nat, w: Word)
    requires Printable(w) && Stands(s, pos, w.text) && w.text != ""
    ensures GapEnd(s, pos) == Reach(pos, 0)
  {
    hide Keyword, Spelling, Inside;
    StandsAt(s, pos, w.text, 0);
    if |w.text| > 1 { StandsAt(s, pos, w.text, 1); }
    if IsOperator(w) { SpellingPlain(w.kind); }
  }

  lemma WordNotEmpty(w: Word)
    requires Printable(w)
    ensures w.text != ""
  {
    hide Keyword, Spelling, Inside;
  }

  lemma KindNotEof(w: Word)
    requires Printable(w)
    ensures w.kind != Eof
  {
    hide Inside;
  }

  // ---- the whole text ----

  lemma SpaceSkipped(s: string, pos: nat)
    requires pos < |s| && s[pos] == ' '
    ensures Stream(s, pos) == Stream(s, pos + 1)
  {
    hide ReadToken, LineAt;
    assert GapEnd(s, pos) == GapEnd(s, pos + 1);
    assert NextLexeme(s, pos) == NextLexeme(s, pos + 1);
  }

  lemma {:induction false} LaySplits(s: string, pos: nat, ws: seq<Word>)
    requires pos <= |s| && ws != [] && s[pos..] == Lay(ws)
    ensures
      var end := pos + |ws[0].text|;
      && Stands(s, pos, ws[0].text) && end <= |s|
      && (if |ws| == 1 then end == |s| else end < |s| && s[end] == ' ' && s[end + 1..] == Lay(ws[1..]))
  {
    var x := ws[0].text;
    var end := pos + |x|;
    if |ws| == 1 {
      assert s[pos..end] == x;
    } else {
      var rest := " " + Lay(ws[1..]);
      assert Lay(ws) == x + rest;
      assert s[pos..end] == (x + rest)[..|x|] == x;
      assert s[end..] == s[pos..][|x|..] == rest;
      assert s[end] == s[end..][0] == ' ';
      assert s[end + 1..] == rest[1..];
    }
  }

  /** The next token at a word is the word. */
  lemma WordNext(s: string, pos: nat, w: Word)
    requires Printable(w) && Stands(s, pos, w.text) && pos <= |s|
    ensures
      var t := NextLexeme(s, pos);
      t.kind == w.kind && t.text == w.text && t.end == pos + |w.text| && t.kind != Eof
  {
    hide GapEnd, ReadToken, LineAt, Printable, Stands;
    WordNotEmpty(w);
    KindNotEof(w);
    NoGapAt(s, pos, w);
    WordReads(s, pos, w);
    StandsText(s, pos, w.text);
  }

  lemma MatchesMore(t: Lexeme, ts: seq<Lexeme>, w: Word, ws: seq<Word>)
    requires t.kind == w.kind && t.text == w.text && Matches(ts, ws)
    ensures Matches([t] + ts, [w] + ws)
  {
  }

  lemma {:induction false} LaidLexes(s: string, pos: nat, ws: seq<Word>)
    requires pos <= |s| && s[pos..] == Lay(ws) && (forall w :: w in ws ==> Printable(w))
    ensures Matches(Stream(s, pos), ws)
    decreases |ws|
  {
    hide NextLexeme, Lay, Printable, Stands, LineAt, GapEnd, ReadToken, Matches;
    if ws == [] {
      LayNone();
      EndOnly(s);
    } else {
      var w := ws[0];
      var end := pos + |w.text|;
      LaySplits(s, pos, ws);
      WordNext(s, pos, w);
      if |ws| == 1 {
        EndOnly(s);
        assert ws == [w] + [];
        MatchesMore(NextLexeme(s, pos), Stream(s, |s|), w, []);
      } else {
        SpaceSkipped(s, end);
        LaidLexes(s, end + 1, ws[1..]);
        assert ws == [w] + ws[1..];
        MatchesMore(NextLexeme(s, pos), Stream(s, end), w, ws[1..]);
      }
    }
  }

  lemma StandsText(s: string, pos: nat, x: string)
    requires Stands(s, pos, x)
    ensures pos + |x| <= |s| && s[pos..pos + |x|] == x
  {
  }

  lemma LayNone()
    ensures Lay([]) == ""
  {
  }

  lemma {:induction false} EndOnly(s: string)
    ensures Matches(Stream(s, |s|), [])
  {
    hide ReadToken, LineAt;
    assert GapEnd(s, |s|) == Reach(|s|, 0);
  }

  /** Names, keywords, operators, decimal integers and closed strings, printed with single spaces between
      them, are lexed to the same kinds and texts: nothing is joined and nothing is split. */
  lemma {:induction false} Relexes(ws: seq<Word>)
    requires forall w :: w in ws ==> Printable(w)
    ensures Matches(Stream(Lay(ws), 0), ws)
  {
    hide Lay, Printable, Stream;
    assert Lay(ws)[0..] == Lay(ws);
    LaidLexes(Lay(ws), 0, ws);
  }
}
