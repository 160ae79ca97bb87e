/** The text of emitted C as a list of pieces, and its unambiguous reading. */
module CText {
  import opened Ast
  import opened CTarget

  datatype CTok =
    | TSimple(stmt: Stmt)
    | TExpr(expr: Expr)
    | TSemicolon
    | TOpen
    | TClose
    | TIf(cond: Expr)
    | TElse
    | TWhile(cond: Expr)
    | TFor(name: string, start: Expr, end: Expr)
    | TReturn(value: Expr)
    | TBreak
    | TContinue

  function Print(cs: seq<CStmt>): seq<CTok>
    decreases cs, 0
  {
    if cs == [] then [] else PrintOne(cs[0]) + Print(cs[1..])
  }

  function Braced(body: seq<CStmt>): seq<CTok>
    decreases body, 1
  {
    [TOpen] + Print(body) + [TClose]
  }

  function PrintOne(c: CStmt): (r: seq<CTok>)
    ensures r != [] && !r[0].TElse? && !r[0].TClose?
    decreases c, 0
  {
    match c
    case CSimple(st) => [TSimple(st)]
    case CExpr(e) => [TExpr(e)]
    case CEmpty => [TSemicolon]
    case CBlock(body) => Braced(body)
    case CIf(e, thn, els) => [TIf(e)] + Braced(thn) + (if els == [] then [] else [TElse] + Print(els))
    case CWhile(e, body) => [TWhile(e)] + Braced(body)
    case CFor(x, start, end, body) => [TFor(x, start, end)] + Braced(body)
    case CReturn(v) => [TReturn(v)]
    case CBreak => [TBreak]
    case CContinue => [TContinue]
  }

  lemma {:induction false} PrintAppend(a: seq<CStmt>, b: seq<CStmt>)
    ensures Print(a + b) == Print(a) + Print(b)
  {
    if a == [] {
      assert a + b == b;
    } else {
      assert (a + b)[0] == a[0] && (a + b)[1..] == a[1..] + b;
      PrintAppend(a[1..], b);
    }
  }

  // ---- reading the text back ----

  datatype Read<T> = Fail | Got(value: T, rest: seq<CTok>)

  /** Statements up to a closing brace or the end of the text. */
  function ReadAll(ts: seq<CTok>): (r: Read<seq<CStmt>>)
    ensures r.Got? ==> |r.rest| <= |ts|
    decreases |ts|, 2
  {
    if ts == [] || ts[0].TClose? then Got([], ts)
    else
      var first := ReadOne(ts);
      if first.Fail? then Fail
      else
        var others := ReadAll(first.rest);
        if others.Fail? then Fail else Got([first.value] + others.value, others.rest)
  }

  function ReadBraced(ts: seq<CTok>): (r: Read<seq<CStmt>>)
    ensures r.Got? ==> |r.rest| < |ts|
    decreases |ts|, 0
  {
    if ts == [] || !ts[0].TOpen? then Fail
    else
      var body := ReadAll(ts[1..]);
      if body.Fail? || body.rest == [] || !body.rest[0].TClose? then Fail else Got(body.value, body.rest[1..])
  }

  function ReadOne(ts: seq<CTok>): (r: Read<CStmt>)
    requires ts != []
    ensures r.Got? ==> |r.rest| < |ts|
    decreases |ts|, 1
  {
    match ts[0]
    case TSimple(st) => Got(CSimple(st), ts[1..])
    case TExpr(e) => Got(CExpr(e), ts[1..])
    case TSemicolon => Got(CEmpty, ts[1..])
    case TReturn(v) => Got(CReturn(v), ts[1..])
    case TBreak => Got(CBreak, ts[1..])
    case TContinue => Got(CContinue, ts[1..])
    case TOpen => var body := ReadBraced(ts); if body.Fail? then Fail else Got(CBlock(body.value), body.rest)
    case TWhile(e) => var body := ReadBraced(ts[1..]); if body.Fail? then Fail else Got(CWhile(e, body.value), body.rest)
    case TFor(x, start, end) =>
      var body := ReadBraced(ts[1..]);
      if body.Fail? then Fail else Got(CFor(x, start, end, body.value), body.rest)
    case TIf(e) =>
      var thn := ReadBraced(ts[1..]);
      if thn.Fail? then Fail
      else if thn.rest == [] || !thn.rest[0].TElse? then Got(CIf(e, thn.value, []), thn.rest)
      else if |thn.rest| == 1 || !(thn.rest[1].TOpen? || thn.rest[1].TIf?) then Fail
      else
        var els := ReadOne(thn.rest[1..]);
        if els.Fail? then Fail else Got(CIf(e, thn.value, [els.value]), els.rest)
    case TElse => Fail
    case TClose => Fail
  }

  /** An else branch is one block or one if. */
  predicate Proper(cs: seq<CStmt>)
    decreases cs, 0
  {
    cs == [] || (ProperOne(cs[0]) && Proper(cs[1..]))
  }

  predicate ProperOne(c: CStmt)
    decreases c, 0
  {
    match c
    case CBlock(body) => Proper(body)
    case CIf(_, thn, els) =>
      Proper(thn) && (els == [] || (|els| == 1 && (els[0].CBlock? || els[0].CIf?) && ProperOne(els[0])))
    case CWhile(_, body) => Proper(body)
    case CFor(_, _, _, body) => Proper(body)
    case _ => true
  }

  predicate NoElse(rest: seq<CTok>) {
    rest == [] || !rest[0].TElse?
  }

  /** The printed text determines the tree, whatever follows it. */
  lemma {:induction false} ReadPrintOne(c: CStmt, rest: seq<CTok>)
    requires ProperOne(c) && NoElse(rest)
    ensures ReadOne(PrintOne(c) + rest) == Got(c, rest)
    decreases c, 0
  {
    var ts := PrintOne(c) + rest;
    assert |PrintOne(c)| == 1 ==> ts[1..] == rest;
    match c {
      case CBlock(body) => ReadPrintBraced(body, rest);
      case CWhile(e, body) =>
        ReadPrintBraced(body, rest);
        assert ts[1..] == Braced(body) + rest;
      case CFor(x, start, end, body) =>
        ReadPrintBraced(body, rest);
        assert ts[1..] == Braced(body) + rest;
      case CIf(e, thn, els) => ReadPrintIf(c, rest);
      case _ =>
    }
  }

  lemma {:induction false} ReadPrintIf(c: CStmt, rest: seq<CTok>)
    requires c.CIf? && ProperOne(c) && NoElse(rest)
    ensures ReadOne(PrintOne(c) + rest) == Got(c, rest)
    decreases c, -1
  {
    var ts := PrintOne(c) + rest;
    var tail := (if c.els == [] then [] else [TElse] + Print(c.els)) + rest;
    ReadPrintBraced(c.thn, tail);
    assert ts[1..] == Braced(c.thn) + tail;
    if c.els == [] {
      assert tail == rest;
    } else {
      ReadPrintOne(c.els[0], rest);
      assert Print(c.els) == PrintOne(c.els[0]) by { assert Print(c.els[1..]) == []; }
      assert tail[1..] == PrintOne(c.els[0]) + rest;
      assert tail[1] == PrintOne(c.els[0])[0];
      assert c.els == [c.els[0]];
    }
  }

  lemma {:induction false} ReadPrintBraced(body: seq<CStmt>, rest: seq<CTok>)
    requires Proper(body)
    ensures ReadBraced(Braced(body) + rest) == Got(body, rest)
    decreases body, 1
  {
    ReadPrint(body, [TClose] + rest);
    assert (Braced(body) + rest)[1..] == Print(body) + ([TClose] + rest);
    assert ([TClose] + rest)[1..] == rest;
  }

  lemma {:induction false} ReadPrint(cs: seq<CStmt>, rest: seq<CTok>)
    requires Proper(cs) && (rest == [] || rest[0].TClose?)
    ensures ReadAll(Print(cs) + rest) == Got(cs, rest)
    decreases cs, 0
  {
    if cs == [] {
      assert Print(cs) + rest == rest;
    } else {
      var tail := Print(cs[1..]) + rest;
      assert Print(cs) + rest == PrintOne(cs[0]) + tail;
      ReadPrint(cs[1..], rest);
      ReadPrintOne(cs[0], tail);
      assert (PrintOne(cs[0]) + tail)[0] == PrintOne(cs[0])[0];
      assert [cs[0]] + cs[1..] == cs;
    }
  }
}
