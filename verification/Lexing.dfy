/** What the lexer reads at a position, as functions of the source text (src/lexer.c:44-346). */
module Lexing {
  import opened Ast
  import opened Tokens

  // ---- characters ----

  predicate IsSpace(c: char) {
    c == ' ' || c == '\t' || c == '\n' || c == '\r' || c == '\U{0C}' || c == '\U{0B}'
  }

  predicate IsDigit(c: char) {
    '0' <= c <= '9'
  }

  predicate IsHexDigit(c: char) {
    IsDigit(c) || 'a' <= c <= 'f' || 'A' <= c <= 'F'
  }

  predicate IsIdentStart(c: char) {
    'a' <= c <= 'z' || 'A' <= c <= 'Z' || c == '_'
  }

  predicate IsIdentChar(c: char) {
    IsIdentStart(c) || IsDigit(c)
  }

  /** The character at a position, or NUL past the end. */
  function CharAt(s: string, i: nat): char {
    if i < |s| then s[i] else '\0'
  }

  function Newlines(s: string): nat {
    if s == "" then 0 else Newlines(s[..|s| - 1]) + if s[|s| - 1] == '\n' then 1 else 0
  }

  function LineAt(s: string, pos: nat): nat
    requires pos <= |s|
  {
    1 + Newlines(s[..pos])
  }

  // ---- gaps ----

  datatype Reach = Reach(pos: nat, errors: nat)

  function LineEnd(s: string, i: nat): (r: nat)
    requires i <= |s|
    ensures i <= r <= |s|
    decreases |s| - i
  {
    if i == |s| || s[i] == '\n' then i else LineEnd(s, i + 1)
  }

  predicate Opens(s: string, i: nat) {
    i + 1 < |s| && s[i] == '/' && s[i + 1] == '*'
  }

  predicate Closes(s: string, i: nat) {
    i + 1 < |s| && s[i] == '*' && s[i + 1] == '/'
  }

  const MaxNesting := 16

  /** One step through a block comment: where it leads and the depth there. */
  function CommentStep(s: string, i: nat, depth: nat): (r: (nat, nat))
    requires i < |s| && depth > 0
    ensures i < r.0 <= |s|
  {
    if Opens(s, i) then (i + 2, depth + 1) else if Closes(s, i) then (i + 2, depth - 1) else (i + 1, depth)
  }

  /** The end of a block comment: depth zero, one nesting too many, or the end of the source. */
  function CommentEnd(s: string, i: nat, depth: nat): (r: Reach)
    requires i <= |s|
    ensures i <= r.pos <= |s|
    decreases |s| - i
  {
    if i == |s| || depth == 0 then Reach(i, 0)
    else
      var next := CommentStep(s, i, depth);
      if next.1 > MaxNesting then Reach(next.0, 1) else CommentEnd(s, next.0, next.1)
  }

  function GapEnd(s: string, i: nat): (r: Reach)
    requires i <= |s|
    ensures i <= r.pos <= |s|
    decreases |s| - i
  {
    if i == |s| then Reach(i, 0)
    else if IsSpace(s[i]) then GapEnd(s, i + 1)
    else if i + 1 < |s| && s[i] == '/' && s[i + 1] == '/' then
      assert LineEnd(s, i) == LineEnd(s, i + 1);
      GapEnd(s, LineEnd(s, i))
    else if Opens(s, i) then
      var end := CommentEnd(s, i + 2, 1);
      var rest := GapEnd(s, end.pos);
      Reach(rest.pos, end.errors + rest.errors)
    else Reach(i, 0)
  }

  // ---- tokens ----

  function IdentEnd(s: string, i: nat): (r: nat)
    requires i <= |s|
    ensures i <= r <= |s|
    decreases |s| - i
  {
    if i < |s| && IsIdentChar(s[i]) then IdentEnd(s, i + 1) else i
  }

  function Keyword(text: string): Kind {
    if text == "break" then KwBreak else if text == "comptime" then KwComptime
    else if text == "const" then KwConst else if text == "continue" then KwContinue
    else if text == "defer" then KwDefer else if text == "else" then KwElse
    else if text == "errdefer" then KwErrdefer else if text == "extend" then KwExtend
    else if text == "false" then KwFalse else if text == "fn" then KwFn
    else if text == "for" then KwFor else if text == "if" then KwIf
    else if text == "in" then KwIn else if text == "import" then KwImport
    else if text == "match" then KwMatch else if text == "module" then KwModule
    else if text == "noreturn" then KwNoreturn else if text == "null" then KwNull
    else if text == "pub" then KwPub else if text == "return" then KwReturn
    else if text == "struct" then KwStruct else if text == "test" then KwTest
    else if text == "traits" then KwTraits else if text == "true" then KwTrue
    else if text == "try" then KwTry else if text == "type" then KwType
    else if text == "union" then KwUnion else if text == "unsafe" then KwUnsafe
    else if text == "var" then KwVar else if text == "while" then KwWhile
    else if text == "enum" then KwEnum else if text == "as" then KwAs
    else if text == "with" then KwWith else if text == "undefined" then KwUndefined
    else if text == "self" then KwSelf else if text == "Self" then KwCapSelf
    else IdentTok
  }

  /** The base a number announces, and where its digits start. */
  function NumberBase(s: string, i: nat): (r: (nat, nat))
    requires i < |s|
    ensures i < r.1 <= |s|
  {
    if s[i] != '0' || i + 1 == |s| then (10, i + 1)
    else if s[i + 1] == 'x' || s[i + 1] == 'X' then (16, i + 2)
    else if s[i + 1] == 'o' || s[i + 1] == 'O' then (8, i + 2)
    else if s[i + 1] == 'b' || s[i + 1] == 'B' then (2, i + 2)
    else (10, i + 1)
  }

  /** One step through a number: how far it reads, and whether that makes it a float. */
  function NumberStep(s: string, i: nat, base: nat, isFloat: bool): (r: (nat, bool))
    requires i < |s|
    ensures i <= r.0 <= |s|
  {
    if (if base == 16 then IsHexDigit(s[i]) else IsDigit(s[i])) then (i + 1, isFloat)
    else if s[i] == '.' && !isFloat then
      if base != 10 || CharAt(s, i + 1) == '.' then (i, isFloat) else (i + 1, true)
    else if (s[i] == 'e' || s[i] == 'E') && base == 10 then
      (if CharAt(s, i + 1) == '+' || CharAt(s, i + 1) == '-' then i + 2 else i + 1, true)
    else (i, isFloat)
  }

  function NumberEnd(s: string, i: nat, base: nat, isFloat: bool): (r: (nat, bool))
    requires i <= |s|
    ensures i <= r.0 <= |s|
    decreases |s| - i
  {
    if i == |s| then (i, isFloat)
    else
      var next := NumberStep(s, i, base, isFloat);
      if next.0 == i then (i, isFloat) else NumberEnd(s, next.0, base, next.1)
  }

  /** The end of the text inside a string: the closing quote, a newline, which is an error, or the end. */
  function StringBody(s: string, i: nat): (r: Reach)
    requires i <= |s|
    ensures i <= r.pos <= |s|
    decreases |s| - i
  {
    if i == |s| || s[i] == '"' then Reach(i, 0)
    else if s[i] == '\\' then if i + 1 < |s| then StringBody(s, i + 2) else Reach(i + 1, 0)
    else if s[i] == '\n' then Reach(i, 1)
    else StringBody(s, i + 1)
  }

  function StringEnd(s: string, i: nat): (r: Reach)
    requires i <= |s|
    ensures i <= r.pos <= |s|
  {
    var body := StringBody(s, i);
    if CharAt(s, body.pos) == '"' then Reach(body.pos + 1, body.errors) else body
  }

  function CharEnd(s: string, i: nat): (r: Reach)
    requires i <= |s|
    ensures i <= r.pos <= |s|
  {
    var body := if i == |s| || s[i] == '\'' then i
                else if s[i] == '\\' && i + 1 < |s| then i + 2
                else i + 1;
    if CharAt(s, body) == '\'' then Reach(body + 1, 0) else Reach(body, 1)
  }

  /** The operator that starts with `c`, given the two characters after it, and its length. */
  function Operator(c: char, d: char, e: char): (r: (Kind, nat))
    ensures 1 <= r.1 <= 3
  {
    if c == '=' then
      if d == '=' then (OpTok(EqEq), 2) else if d == '>' then (FatArrow, 2) else (AssignTok(Assign), 1)
    else if c == '!' then if d == '=' then (OpTok(NotEq), 2) else (OpTok(Bang), 1)
    else if c == '<' then
      if d == '=' then (OpTok(Le), 2)
      else if d == '<' then if e == '=' then (AssignTok(ShlAssign), 3) else (OpTok(Shl), 2)
      else (OpTok(Lt), 1)
    else if c == '>' then
      if d == '=' then (OpTok(Ge), 2)
      else if d == '>' then if e == '=' then (AssignTok(ShrAssign), 3) else (OpTok(Shr), 2)
      else (OpTok(Gt), 1)
    else if c == '&' then
      if d == '&' then (OpTok(AndAnd), 2) else if d == '=' then (AssignTok(AndAssign), 2) else (OpTok(Amp), 1)
    else if c == '|' then
      if d == '|' then (OpTok(OrOr), 2) else if d == '=' then (AssignTok(OrAssign), 2) else (OpTok(Pipe), 1)
    else if c == '+' then if d == '=' then (AssignTok(AddAssign), 2) else (OpTok(Plus), 1)
    else if c == '-' then
      if d == '=' then (AssignTok(SubAssign), 2) else if d == '>' then (Arrow, 2) else (OpTok(Minus), 1)
    else if c == '*' then if d == '=' then (AssignTok(MulAssign), 2) else (OpTok(Star), 1)
    else if c == '/' then if d == '=' then (AssignTok(DivAssign), 2) else (OpTok(Slash), 1)
    else if c == '%' then if d == '=' then (AssignTok(RemAssign), 2) else (OpTok(Percent), 1)
    else if c == '^' then if d == '=' then (AssignTok(XorAssign), 2) else (OpTok(Caret), 1)
    else if c == '.' then if d == '.' then (OpTok(DotDot), 2) else (Dot, 1)
    else if c == ':' then if d == ':' then (ColonColon, 2) else (Colon, 1)
    else (Single(c), 1)
  }

  function Single(c: char): Kind {
    if c == '(' then LParen else if c == ')' then RParen
    else if c == '[' then LBracket else if c == ']' then RBracket
    else if c == '{' then LBrace else if c == '}' then RBrace
    else if c == ',' then Comma else if c == ';' then Semicolon
    else if c == '?' then Question else if c == '~' then OpTok(Tilde)
    else if c == '#' then Hash
    else ErrorTok
  }

  /** The kind of the token at a position, its end and the errors it causes. */
  datatype Read = Read(kind: Kind, end: nat, errors: nat)

  function ReadToken(s: string, i: nat): (r: Read)
    requires i < |s|
    ensures i < r.end <= |s|
  {
    var c := s[i];
    if IsIdentStart(c) then
      var end := IdentEnd(s, i + 1);
      Read(Keyword(s[i..end]), end, 0)
    else if IsDigit(c) || (c == '.' && IsDigit(CharAt(s, i + 1))) then
      var base := NumberBase(s, i);
      var end := NumberEnd(s, base.1, base.0, false);
      Read(if end.1 then FloatTok else IntTok, end.0, 0)
    else if c == '"' then
      var end := StringEnd(s, i + 1);
      Read(StringTok, end.pos, end.errors)
    else if c == '\'' then
      var end := CharEnd(s, i + 1);
      Read(CharTok, end.pos, end.errors)
    else
      OperatorFits(s, i);
      var op := Operator(c, CharAt(s, i + 1), CharAt(s, i + 2));
      Read(op.0, i + op.1, if op.0 == ErrorTok then 1 else 0)
  }

  /** No operator reaches past the end of the source. */
  lemma OperatorFits(s: string, i: nat)
    requires i < |s|
    ensures i + Operator(s[i], CharAt(s, i + 1), CharAt(s, i + 2)).1 <= |s|
  {
  }

  /** A token with its place in the source. */
  datatype Lexeme = Lexeme(kind: Kind, start: nat, end: nat, text: string, line: nat)

  /** What `lexer_next` returns from a position. */
  function NextLexeme(s: string, pos: nat): (r: Lexeme)
    requires pos <= |s|
    ensures pos <= r.start <= r.end <= |s| && r.text == s[r.start..r.end] && r.line == LineAt(s, r.start)
    ensures r.kind == Eof <==> r.start == |s|
    ensures r.kind != Eof ==> r.start < r.end
  {
    var start := GapEnd(s, pos).pos;
    if start == |s| then Lexeme(Eof, start, start, "", LineAt(s, start))
    else
      NoEof(s, start);
      var r := ReadToken(s, start);
      Lexeme(r.kind, start, r.end, s[start..r.end], LineAt(s, start))
  }

  lemma NoEof(s: string, i: nat)
    requires i < |s|
    ensures ReadToken(s, i).kind != Eof
  {
  }

  function NextErrors(s: string, pos: nat): nat
    requires pos <= |s|
  {
    var gap := GapEnd(s, pos);
    gap.errors + if gap.pos == |s| then 0 else ReadToken(s, gap.pos).errors
  }

  /** All tokens from a position, the end of file last. */
  function Stream(s: string, pos: nat): (r: seq<Lexeme>)
    requires pos <= |s|
    ensures |r| > 0
    decreases |s| - pos
  {
    var t := NextLexeme(s, pos);
    if t.kind == Eof then [t] else [t] + Stream(s, t.end)
  }
}
