/** The lexer object: a cursor with a line counter and one token of lookahead (src/lexer.c:59-364). */
module Lexer {
  import opened Ast
  import opened Tokens
  import opened Lexing

  lemma LineStep(s: string, pos: nat)
    requires pos < |s|
    ensures LineAt(s, pos + 1) == LineAt(s, pos) + if s[pos] == '\n' then 1 else 0
  {
    assert s[..pos + 1][..pos] == s[..pos];
  }

  /** Text without newlines does not change the line. */
  lemma {:induction false} SameLine(s: string, from: nat, end: nat)
    requires from <= end <= |s| && forall i :: from <= i < end ==> s[i] != '\n'
    ensures LineAt(s, end) == LineAt(s, from)
    decreases end - from
  {
    if from < end {
      SameLine(s, from, end - 1);
      LineStep(s, end - 1);
    }
  }

  class Lexer {
    const source: string
    var pos: nat
    var line: nat
    var errors: nat
    var current: Lexeme
    var hasCurrent: bool
    ghost var mark: nat       // where the lookahead token was read from, or the cursor

    /** The line counter is right wherever the cursor is. */
    ghost predicate Placed()
      reads this
    {
      pos <= |source| && line == LineAt(source, pos)
    }

    ghost predicate Valid()
      reads this
    {
      && Placed() && mark <= |source|
      && (if hasCurrent then current == NextLexeme(source, mark) && pos == current.end else mark == pos)
    }

    /** The tokens still to come. */
    ghost function Rest(): seq<Lexeme>
      requires Valid()
      reads this
    {
      Stream(source, mark)
    }

    constructor (source: string)
      ensures this.source == source && Valid() && errors == 0 && Rest() == Stream(source, 0)
    {
      this.source := source;
      pos := 0;
      line := 1;
      errors := 0;
      current := Lexeme(Eof, 0, 0, "", 1);
      hasCurrent := false;
      mark := 0;
    }

    method Advance()
      requires Placed() && pos < |source|
      modifies this`pos, this`line
      ensures Placed() && pos == old(pos) + 1
    {
      LineStep(source, pos);
      if source[pos] == '\n' { line := line + 1; }
      pos := pos + 1;
    }

    // ---- gaps ----

    method Skip()
      requires Placed()
      modifies this`pos, this`line, this`errors
      ensures Placed() && var r := GapEnd(source, old(pos)); pos == r.pos && errors == old(errors) + r.errors
    {
      ghost var goal := GapEnd(source, pos);
      var more := true;
      while more && pos < |source|
        invariant Placed() && errors >= old(errors)
        invariant
          if more then var r := GapEnd(source, pos); goal == Reach(r.pos, errors - old(errors) + r.errors)
          else goal == Reach(pos, errors - old(errors))
        decreases more, |source| - pos
      {
        if IsSpace(source[pos]) {
          Advance();
        } else if source[pos] == '/' && CharAt(source, pos + 1) == '/' {
          SkipLine();
        } else if Opens(source, pos) {
          SkipComment();
        } else {
          more := false;
        }
      }
    }

    method SkipLine()
      requires Placed() && pos < |source| && source[pos] != '\n'
      modifies this`pos, this`line
      ensures Placed() && pos == LineEnd(source, old(pos)) && pos > old(pos)
    {
      ghost var start := pos;
      while pos < |source| && source[pos] != '\n'
        invariant Placed() && start <= pos && LineEnd(source, start) == LineEnd(source, pos)
      {
        LineStep(source, pos);
        pos := pos + 1;
      }
    }

    /** Past the two characters that open or close a comment. */
    method SkipTwo()
      requires Placed() && (Opens(source, pos) || Closes(source, pos))
      modifies this`pos
      ensures Placed() && pos == old(pos) + 2
    {
      SameLine(source, pos, pos + 2);
      pos := pos + 2;
    }

    /** Nested comments are counted; more than 16 levels are an error and end the comment there. */
    method SkipComment()
      requires Placed() && Opens(source, pos)
      modifies this`pos, this`line, this`errors
      ensures Placed() && pos > old(pos)
      ensures var r := CommentEnd(source, old(pos) + 2, 1); pos == r.pos && errors == old(errors) + r.errors
    {
      SkipTwo();
      ghost var goal := CommentEnd(source, pos, 1);
      var depth := 1;
      while pos < |source| && depth > 0
        invariant Placed() && pos > old(pos) && errors == old(errors)
        invariant goal == CommentEnd(source, pos, depth)
        decreases |source| - pos
      {
        if Opens(source, pos) {
          depth := depth + 1;
          SkipTwo();
        } else if Closes(source, pos) {
          depth := depth - 1;
          SkipTwo();
        } else {
          Advance();
        }
        if depth > MaxNesting {
          errors := errors + 1;
          break;
        }
      }
    }

    // ---- tokens ----

    method Ident()
      requires Placed() && pos < |source|
      modifies this`pos, this`line
      ensures Placed() && pos == IdentEnd(source, old(pos) + 1)
    {
      Advance();
      ghost var goal := IdentEnd(source, pos);
      while pos < |source| && IsIdentChar(source[pos])
        invariant Placed() && goal == IdentEnd(source, pos)
      {
        Advance();
      }
    }

    method Number() returns (isFloat: bool)
      requires Placed() && pos < |source|
      modifies this`pos, this`line
      ensures Placed()
      ensures var base := NumberBase(source, old(pos)); (pos, isFloat) == NumberEnd(source, base.1, base.0, false)
    {
      var base := NumberPrefix();
      isFloat := false;
      ghost var goal := NumberEnd(source, pos, base, false);
      var more := true;
      while more && pos < |source|
        invariant Placed()
        invariant goal == if more then NumberEnd(source, pos, base, isFloat) else (pos, isFloat)
        decreases more, |source| - pos
      {
        var c := source[pos];
        if base == 16 && IsHexDigit(c) {
          Advance();
        } else if base != 16 && IsDigit(c) {
          Advance();
        } else if c == '.' && !isFloat {
          if base != 10 || CharAt(source, pos + 1) == '.' {
            more := false;
          } else {
            isFloat := true;
            Advance();
          }
        } else if (c == 'e' || c == 'E') && base == 10 {
          isFloat := true;
          Advance();
          if CharAt(source, pos) == '+' || CharAt(source, pos) == '-' { Advance(); }
        } else {
          more := false;
        }
      }
    }

    /** The first digit, and the base if it is announced after a zero. */
    method NumberPrefix() returns (base: nat)
      requires Placed() && pos < |source|
      modifies this`pos, this`line
      ensures Placed() && (base, pos) == NumberBase(source, old(pos))
    {
      var c := source[pos];
      Advance();
      base := 10;
      if c == '0' && pos < |source| {
        var next := source[pos];
        if next == 'x' || next == 'X' {
          base := 16;
          Advance();
        } else if next == 'o' || next == 'O' {
          base := 8;
          Advance();
        } else if next == 'b' || next == 'B' {
          base := 2;
          Advance();
        }
      }
    }

    method String()
      requires Placed() && pos < |source|
      modifies this`pos, this`line, this`errors
      ensures Placed() && var r := StringEnd(source, old(pos) + 1); pos == r.pos && errors == old(errors) + r.errors
    {
      Advance();
      ghost var goal := StringBody(source, pos);
      var more := true;
      while more && pos < |source| && source[pos] != '"'
        invariant Placed() && errors >= old(errors)
        invariant
          if more then var r := StringBody(source, pos); goal == Reach(r.pos, errors - old(errors) + r.errors)
          else goal == Reach(pos, errors - old(errors))
        decreases more, |source| - pos
      {
        if source[pos] == '\\' {
          Advance();
          if pos < |source| { Advance(); }
        } else if source[pos] == '\n' {
          errors := errors + 1;
          more := false;
        } else {
          Advance();
        }
      }
      if CharAt(source, pos) == '"' { Advance(); }
    }

    method Character()
      requires Placed() && pos < |source|
      modifies this`pos, this`line, this`errors
      ensures Placed() && var r := CharEnd(source, old(pos) + 1); pos == r.pos && errors == old(errors) + r.errors
    {
      Advance();
      if CharAt(source, pos) == '\\' {
        Advance();
        if pos < |source| { Advance(); }
      } else if pos < |source| && source[pos] != '\'' {
        Advance();
      }
      if CharAt(source, pos) == '\'' { Advance(); } else { errors := errors + 1; }
    }

    /** Consumes the next character if it is the asked one. */
    method Then(c: char) returns (yes: bool)
      requires Placed() && c != '\0'
      modifies this`pos, this`line
      ensures Placed() && yes == (CharAt(source, old(pos)) == c) && pos == old(pos) + if yes then 1 else 0
    {
      yes := CharAt(source, pos) == c;
      if yes { Advance(); }
    }

    /** The rest of an operator that starts with `<` or `>`. */
    method Angle(c: char) returns (kind: Kind)
      requires Placed() && (c == '<' || c == '>')
      modifies this`pos, this`line
      ensures Placed()
      ensures
        var op := Operator(c, CharAt(source, old(pos)), CharAt(source, old(pos) + 1));
        kind == op.0 && pos == old(pos) + op.1 - 1
    {
      var eq := Then('=');
      if eq { return OpTok(if c == '<' then Le else Ge); }
      var twice := Then(c);
      if !twice { return OpTok(if c == '<' then Lt else Gt); }
      var assign := Then('=');
      if c == '<' {
        kind := if assign then AssignTok(ShlAssign) else OpTok(Shl);
      } else {
        kind := if assign then AssignTok(ShrAssign) else OpTok(Shr);
      }
    }

    /** The rest of an operator that starts with `=`, `!`, `&`, `|`, `.` or `:`. */
    method Paired(c: char) returns (kind: Kind)
      requires Placed() && (c == '=' || c == '!' || c == '&' || c == '|' || c == '.' || c == ':')
      modifies this`pos, this`line
      ensures Placed()
      ensures
        var op := Operator(c, CharAt(source, old(pos)), CharAt(source, old(pos) + 1));
        kind == op.0 && pos == old(pos) + op.1 - 1
    {
      if c == '=' {
        var eq := Then('=');
        if eq { return OpTok(EqEq); }
        var gt := Then('>');
        kind := if gt then FatArrow else AssignTok(Assign);
      } else if c == '!' {
        var eq := Then('=');
        kind := OpTok(if eq then NotEq else Bang);
      } else if c == '.' {
        var dot := Then('.');
        kind := if dot then OpTok(DotDot) else Dot;
      } else if c == ':' {
        var colon := Then(':');
        kind := if colon then ColonColon else Colon;
      } else {
        var twice := Then(c);
        if twice { return OpTok(if c == '&' then AndAnd else OrOr); }
        var eq := Then('=');
        if c == '&' {
          kind := if eq then AssignTok(AndAssign) else OpTok(Amp);
        } else {
          kind := if eq then AssignTok(OrAssign) else OpTok(Pipe);
        }
      }
    }

    /** The rest of an operator that starts with `+`, `-`, `*`, `/`, `%` or `^`. */
    method Arithmetic(c: char) returns (kind: Kind)
      requires Placed() && (c == '+' || c == '-' || c == '*' || c == '/' || c == '%' || c == '^')
      modifies this`pos, this`line
      ensures Placed()
      ensures
        var op := Operator(c, CharAt(source, old(pos)), CharAt(source, old(pos) + 1));
        kind == op.0 && pos == old(pos) + op.1 - 1
    {
      var eq := Then('=');
      if c == '+' {
        kind := if eq then AssignTok(AddAssign) else OpTok(Plus);
      } else if c == '-' {
        if eq { return AssignTok(SubAssign); }
        var gt := Then('>');
        kind := if gt then Arrow else OpTok(Minus);
      } else if c == '*' {
        kind := if eq then AssignTok(MulAssign) else OpTok(Star);
      } else if c == '/' {
        kind := if eq then AssignTok(DivAssign) else OpTok(Slash);
      } else if c == '%' {
        kind := if eq then AssignTok(RemAssign) else OpTok(Percent);
      } else {
        kind := if eq then AssignTok(XorAssign) else OpTok(Caret);
      }
    }

    method Punctuation() returns (kind: Kind)
      requires Placed() && pos < |source|
      modifies this`pos, this`line, this`errors
      ensures Placed()
      ensures
        var op := Operator(source[old(pos)], CharAt(source, old(pos) + 1), CharAt(source, old(pos) + 2));
        && kind == op.0 && pos == old(pos) + op.1
        && errors == old(errors) + if op.0 == ErrorTok then 1 else 0
    {
      var c := source[pos];
      Advance();
      if c == '<' || c == '>' {
        kind := Angle(c);
      } else if c == '=' || c == '!' || c == '&' || c == '|' || c == '.' || c == ':' {
        kind := Paired(c);
      } else if c == '+' || c == '-' || c == '*' || c == '/' || c == '%' || c == '^' {
        kind := Arithmetic(c);
      } else {
        match c
        case '(' => kind := LParen;
        case ')' => kind := RParen;
        case '[' => kind := LBracket;
        case ']' => kind := RBracket;
        case '{' => kind := LBrace;
        case '}' => kind := RBrace;
        case ',' => kind := Comma;
        case ';' => kind := Semicolon;
        case '?' => kind := Question;
        case '~' => kind := OpTok(Tilde);
        case '#' => kind := Hash;
        case _ => errors := errors + 1; kind := ErrorTok;
      }
    }

    method ReadOne() returns (kind: Kind)
      requires Placed() && pos < |source|
      modifies this`pos, this`line, this`errors
      ensures Placed()
      ensures var r := ReadToken(source, old(pos)); kind == r.kind && pos == r.end && errors == old(errors) + r.errors
    {
      hide Operator, IdentEnd, NumberEnd, NumberBase, StringEnd, CharEnd, Keyword, LineAt;
      var start := pos;
      var c := source[pos];
      if IsIdentStart(c) {
        Ident();
        kind := Keyword(source[start..pos]);
      } else if IsDigit(c) || (c == '.' && IsDigit(CharAt(source, pos + 1))) {
        var isFloat := Number();
        kind := if isFloat then FloatTok else IntTok;
      } else if c == '"' {
        String();
        kind := StringTok;
      } else if c == '\'' {
        Character();
        kind := CharTok;
      } else {
        kind := Punctuation();
      }
    }

    /** The next token of the stream; the end of file comes again and again. */
    method Next() returns (t: Lexeme)
      requires Valid()
      modifies this
      ensures Valid() && !hasCurrent && t == NextLexeme(source, old(mark)) == old(Rest())[0] && pos == t.end
      ensures Rest() == if t.kind == Eof then old(Rest()) else old(Rest())[1..]
      ensures errors == old(errors) + if old(hasCurrent) then 0 else NextErrors(source, old(pos))
    {
      hide GapEnd, ReadToken, LineAt;
      ghost var from := mark;
      if hasCurrent {
        hasCurrent := false;
        t := current;
      } else {
        Skip();
        var start, startLine := pos, line;
        if pos == |source| {
          t := Lexeme(Eof, start, start, "", line);
        } else {
          NoEof(source, start);
          var kind := ReadOne();
          t := Lexeme(kind, start, pos, source[start..pos], startLine);
        }
      }
      mark := pos;
      StreamStep(source, from, t);
    }

    /** Looking ahead any number of times changes neither the token nor the stream. */
    method Peek() returns (t: Lexeme)
      requires Valid()
      modifies this
      ensures Valid() && hasCurrent && t == current == old(Rest())[0] && Rest() == old(Rest())
    {
      hide NextLexeme, Stream, LineAt;
      ghost var from := mark;
      if hasCurrent {
        StreamStep(source, from, current);
      } else {
        var next := Next();
        current := next;
        hasCurrent := true;
        mark := from;
      }
      t := current;
    }

    /** `lexer_advance`: drops one token. */
    method Drop()
      requires Valid()
      modifies this
      ensures Valid() && !hasCurrent
      ensures Rest() == if old(Rest())[0].kind == Eof then old(Rest()) else old(Rest())[1..]
    {
      ghost var from := mark;
      var t := Peek();
      hasCurrent := false;
      mark := pos;
      StreamStep(source, from, t);
    }

    /** Reading until the end of file ends, and gives the whole stream. */
    method All() returns (tokens: seq<Lexeme>)
      requires Valid()
      modifies this
      ensures Valid() && tokens == old(Rest())
    {
      tokens := [];
      ghost var goal := Rest();
      var more := true;
      while more
        invariant Valid() && goal == if more then tokens + Rest() else tokens
        decreases more, |Rest()|
      {
        var t := Next();
        tokens := tokens + [t];
        more := t.kind != Eof;
      }
    }
  }

  lemma {:induction false} StreamStep(s: string, pos: nat, t: Lexeme)
    requires pos <= |s| && t == NextLexeme(s, pos)
    ensures Stream(s, pos)[0] == t
    ensures Stream(s, t.end) == if t.kind == Eof then Stream(s, pos) else Stream(s, pos)[1..]
  {
    hide ReadToken, LineAt;
    if t.kind == Eof { assert GapEnd(s, |s|) == Reach(|s|, 0); }
  }
}
