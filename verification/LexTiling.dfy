/** The tokens and the gaps between them cover the source, in order, and gaps hold nothing but white space
    and comments. */
module LexTiling {
  import opened Ast
  import opened Tokens
  import opened Lexing

  // ---- what a gap is, read on its own ----

  /** The depth at the end of a comment text, when it is between 1 and 16 at every step before. */
  function DepthAtEnd(t: string, i: nat, depth: nat): Option<nat>
    requires i <= |t|
    decreases |t| - i
  {
    if i == |t| then Some(depth)
    else if depth == 0 || depth > MaxNesting then None
    else
      var next := CommentStep(t, i, depth);
      DepthAtEnd(t, next.0, next.1)
  }

  predicate SpacePiece(p: string) {
    |p| == 1 && IsSpace(p[0])
  }

  predicate LinePiece(p: string) {
    |p| >= 2 && p[0] == '/' && p[1] == '/' && '\n' !in p
  }

  /** A block comment ends where its depth first is zero, or at the seventeenth level, or it is the end of
      the source. */
  predicate BlockPiece(p: string, last: bool) {
    && Opens(p, 0)
    && var d := DepthAtEnd(p, 2, 1);
       d.Some? && (d.value == 0 || d.value == MaxNesting + 1 || (last && d.value <= MaxNesting))
  }

  predicate Piece(p: string, last: bool) {
    SpacePiece(p) || LinePiece(p) || BlockPiece(p, last)
  }

  /** The text is the pieces one after the other; `final` says that the source ends after it. */
  predicate Made(g: string, pieces: seq<string>, final: bool)
    decreases |pieces|
  {
    if pieces == [] then g == ""
    else
      var p := pieces[0];
      && |p| <= |g| && p == g[..|p|]
      && Piece(p, final && |p| == |g|) && Made(g[|p|..], pieces[1..], final)
  }

  ghost predicate IsGap(g: string, final: bool) {
    exists pieces :: Made(g, pieces, final)
  }

  // ---- the gaps the lexer skips ----

  /** Where the first piece at a position ends; without one, the position itself. */
  function PieceEnd(s: string, i: nat): (r: nat)
    requires i <= |s|
    ensures i <= r <= |s|
  {
    if i == |s| then i
    else if IsSpace(s[i]) then i + 1
    else if i + 1 < |s| && s[i] == '/' && s[i + 1] == '/' then LineEnd(s, i)
    else if Opens(s, i) then CommentEnd(s, i + 2, 1).pos
    else i
  }

  function Pieces(s: string, i: nat): seq<string>
    requires i <= |s|
    decreases |s| - i
  {
    var j := PieceEnd(s, i);
    if j == i then [] else [s[i..j]] + Pieces(s, j)
  }

  lemma {:induction false} GapStep(s: string, i: nat)
    requires i <= |s|
    ensures var j := PieceEnd(s, i); GapEnd(s, i).pos == if j == i then i else GapEnd(s, j).pos
  {
    hide CommentEnd, LineEnd;
    if i + 1 < |s| && !IsSpace(s[i]) && s[i] == '/' && s[i + 1] == '/' { LineMoves(s, i); }
  }

  lemma {:induction false} LineMoves(s: string, i: nat)
    requires i < |s| && s[i] != '\n'
    ensures LineEnd(s, i) > i
  {
    assert LineEnd(s, i) == LineEnd(s, i + 1);
  }

  lemma {:induction false} LineHasNoNewline(s: string, i: nat)
    requires i <= |s|
    ensures '\n' !in s[i..LineEnd(s, i)]
    decreases |s| - i
  {
    if i < |s| && s[i] != '\n' {
      LineHasNoNewline(s, i + 1);
      assert s[i..LineEnd(s, i)] == [s[i]] + s[i + 1..LineEnd(s, i)];
    }
  }

  /** Cutting a text out of the source changes no step that stays inside it. */
  lemma StepInside(s: string, start: nat, k: nat, j: nat, depth: nat)
    requires start <= k < j <= |s| && depth > 0
    requires CommentStep(s, k, depth).0 <= j && (k + 1 < j || j == |s|)
    ensures
      var a, b := CommentStep(s, k, depth), CommentStep(s[start..j], k - start, depth);
      b == (a.0 - start, a.1)
  {
    var t := s[start..j];
    assert t[k - start] == s[k];
    if k + 1 < j { assert t[k - start + 1] == s[k + 1]; }
  }

  lemma {:induction false} CommentDepth(s: string, start: nat, k: nat, depth: nat)
    requires start <= k <= |s| && depth <= MaxNesting
    ensures
      var r := CommentEnd(s, k, depth);
      var d := DepthAtEnd(s[start..r.pos], k - start, depth);
      && d.Some? && (d.value == 0 || d.value == MaxNesting + 1 || r.pos == |s|) && d.value <= MaxNesting + 1
      && r.errors == if d.value == MaxNesting + 1 then 1 else 0
    decreases |s| - k
  {
    hide CommentStep;
    var r := CommentEnd(s, k, depth);
    if k < |s| && depth > 0 {
      var next := CommentStep(s, k, depth);
      Reaches(s, k, depth);
      StepInside(s, start, k, r.pos, depth);
      if next.1 <= MaxNesting { CommentDepth(s, start, next.0, next.1); }
    }
  }

  /** The end of a comment lies past its steps, and one character more before a plain last step. */
  lemma {:induction false} Reaches(s: string, k: nat, depth: nat)
    requires k < |s| && 0 < depth <= MaxNesting
    ensures
      var r := CommentEnd(s, k, depth);
      CommentStep(s, k, depth).0 <= r.pos && (k + 1 < r.pos || r.pos == |s|) && CommentStep(s, k, depth).1 <= MaxNesting + 1
  {
    var next := CommentStep(s, k, depth);
    if next.0 == k + 1 && k + 1 < |s| {
      assert CommentStep(s, k + 1, depth).0 > k + 1;
    }
  }

  lemma PieceHolds(s: string, i: nat)
    requires i <= |s| && PieceEnd(s, i) > i
    ensures Piece(s[i..PieceEnd(s, i)], PieceEnd(s, i) == |s|)
  {
    hide CommentEnd, LineEnd, DepthAtEnd;
    var j := PieceEnd(s, i);
    var p := s[i..j];
    if IsSpace(s[i]) {
      assert SpacePiece(p);
    } else if s[i + 1] == '/' {
      LineHasNoNewline(s, i);
      LineHasTwo(s, i);
      assert LinePiece(p);
    } else {
      CommentDepth(s, i, i + 2, 1);
      assert BlockPiece(p, j == |s|);
    }
  }

  lemma LineHasTwo(s: string, i: nat)
    requires i + 1 < |s| && s[i] == '/' && s[i + 1] == '/'
    ensures LineEnd(s, i) >= i + 2
  {
    assert LineEnd(s, i) == LineEnd(s, i + 1) == LineEnd(s, i + 2);
  }

  /** What the lexer skips is a gap. */
  lemma {:induction false} SkippedIsMade(s: string, i: nat)
    requires i <= |s|
    ensures var j := GapEnd(s, i).pos; Made(s[i..j], Pieces(s, i), j == |s|)
    decreases |s| - i
  {
    hide GapEnd, PieceEnd, Piece;
    var j := PieceEnd(s, i);
    var end := GapEnd(s, i).pos;
    GapStep(s, i);
    if j > i {
      PieceHolds(s, i);
      SkippedIsMade(s, j);
      assert s[i..end][..j - i] == s[i..j];
      assert s[i..end][j - i..] == s[j..end];
      assert Pieces(s, i)[1..] == Pieces(s, j);
      PieceAny(s[i..j], j == |s|, end == |s|);
    }
  }

  /** A comment cut off by the end of the source is the last piece. */
  lemma PieceAny(p: string, atEnd: bool, final: bool)
    requires Piece(p, atEnd) && (atEnd ==> final)
    ensures Piece(p, final && atEnd)
  {
  }

  /** The gap is as long as can be: no white space or comment starts where it ends. */
  lemma {:induction false} GapStops(s: string, i: nat)
    requires i <= |s|
    ensures
      var j := GapEnd(s, i).pos;
      j < |s| ==> !IsSpace(s[j]) && !Opens(s, j) && !(j + 1 < |s| && s[j] == '/' && s[j + 1] == '/')
    decreases |s| - i
  {
    hide CommentEnd, LineEnd;
    GapStep(s, i);
    var j := PieceEnd(s, i);
    if j > i {
      GapStops(s, j);
    } else if i + 1 < |s| && !IsSpace(s[i]) && s[i] == '/' && s[i + 1] == '/' {
      LineMoves(s, i);
    }
  }

  // ---- tiling ----

  /** From a position the source is a gap, a token, and so on, up to the end of file. */
  ghost predicate Tiled(s: string, pos: nat, ts: seq<Lexeme>)
    requires pos <= |s|
    decreases |ts|
  {
    && ts != []
    && var t := ts[0];
       && pos <= t.start <= t.end <= |s| && t.text == s[t.start..t.end] && t.line == LineAt(s, t.start)
       && IsGap(s[pos..t.start], t.start == |s|)
       && (if t.kind == Eof then |ts| == 1 && t.start == |s| else t.start < t.end && Tiled(s, t.end, ts[1..]))
  }

  /** Gaps and token texts, one after the other. */
  function Rebuilt(s: string, pos: nat, ts: seq<Lexeme>): string
    requires pos <= |s|
    decreases |ts|
  {
    if ts == [] || !(pos <= ts[0].start <= ts[0].end <= |s|) then ""
    else s[pos..ts[0].start] + ts[0].text + Rebuilt(s, ts[0].end, ts[1..])
  }

  /** The main result: the stream tiles every source. */
  lemma {:induction false} StreamTiles(s: string, pos: nat)
    requires pos <= |s|
    ensures Tiled(s, pos, Stream(s, pos))
    decreases |s| - pos
  {
    hide GapEnd, ReadToken, LineAt, Made;
    var t := NextLexeme(s, pos);
    SkippedIsMade(s, pos);
    assert t.start == GapEnd(s, pos).pos;
    assert IsGap(s[pos..t.start], t.start == |s|);
    if t.kind != Eof {
      StreamTiles(s, t.end);
      assert Stream(s, pos)[1..] == Stream(s, t.end);
    }
  }

  /** Tiles put together are the source. */
  lemma {:induction false} TilesRebuild(s: string, pos: nat, ts: seq<Lexeme>)
    requires pos <= |s| && Tiled(s, pos, ts)
    ensures Rebuilt(s, pos, ts) == s[pos..]
    decreases |ts|
  {
    hide IsGap, LineAt;
    var t := ts[0];
    if t.kind == Eof {
      assert ts[1..] == [];
      assert s[pos..] == s[pos..t.start] + t.text;
    } else {
      TilesRebuild(s, t.end, ts[1..]);
      assert s[pos..] == s[pos..t.start] + s[t.start..t.end] + s[t.end..];
    }
  }
}
