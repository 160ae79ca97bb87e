/** The C generator's expression output, as tokens (src/codegen_c.c:585-725), for the forms that the
    language's own parser shares with C. */
module ExprText {
  import opened Ast
  import opened Tokens
  import opened ParserSpec
  import opened PrattRoundTrip

  class Writer {
    var out: seq<Token>

    constructor ()
      ensures out == []
    {
      out := [];
    }

    method Emit(t: Token)
      modifies this
      ensures out == old(out) + [t]
    {
      out := out + [t];
    }

    /** `cg_emit_expr`: operators in parentheses, everything else as it stands. */
    method EmitExpr(e: Expr)
      requires Printable(true, e)
      modifies this
      ensures out == old(out) + Show(true, e, 0)
      decreases e, 1
    {
      hide Show, Printable, Bare;
      ghost var o := out;
      FullText(e);
      if e.Binary? || e.Unary? {
        Emit(Tok(LParen));
        EmitOperator(e);
        Emit(Tok(RParen));
        Regroup(o, [Tok(LParen)], Bare(true, e), [Tok(RParen)]);
      } else if e.Call? {
        EmitCall(e);
      } else if e.Field? || e.Index? {
        EmitPart(e);
      } else {
        AtomText(e);
        Emit(Atom(e));
      }
    }

    method EmitOperator(e: Expr)
      requires (e.Binary? || e.Unary?) && Printable(true, e)
      modifies this
      ensures out == old(out) + Bare(true, e)
      decreases e, 0
    {
      hide Show, Power;
      ghost var o := out;
      if e.Unary? {
        FullSame(e.operand, 0, PrefixPower);
        Emit(Tok(OpTok(e.op)));
        EmitExpr(e.operand);
        Regroup(o, [Tok(OpTok(e.op))], Show(true, e.operand, 0), []);
      } else {
        FullSame(e.left, 0, Power(e.op));
        FullSame(e.right, 0, Power(e.op) + 1);
        EmitExpr(e.left);
        Emit(Tok(OpTok(e.op)));
        EmitExpr(e.right);
        Regroup(o, Show(true, e.left, 0), [Tok(OpTok(e.op))], Show(true, e.right, 0));
      }
    }

    method EmitCall(e: Expr)
      requires e.Call? && Printable(true, e)
      modifies this
      ensures out == old(out) + Bare(true, e)
      decreases e, 0
    {
      hide Show;
      ghost var o := out;
      EmitExpr(e.callee);
      EmitArgs(e.args);
      Regroup(o, Show(true, e.callee, 0), ShowArgs(true, e.args), []);
    }

    /** The arguments in parentheses, separated by commas. */
    method EmitArgs(args: seq<Expr>)
      requires forall a :: a in args ==> Printable(true, a)
      modifies this
      ensures out == old(out) + ShowArgs(true, args)
      decreases args
    {
      hide Show, Printable, Listed;
      ghost var o := out;
      Emit(Tok(LParen));
      ghost var start := out;
      var i := 0;
      while i < |args|
        invariant 0 <= i <= |args| && out == start + Before(args, i)
      {
        ghost var now := out;
        if i > 0 { Emit(Tok(Comma)); }
        EmitExpr(args[i]);
        BeforeStep(args, i);
        Regroup(now, if i > 0 then [Tok(Comma)] else [], Show(true, args[i], 0), []);
        Regroup(start, Before(args, i), if i > 0 then [Tok(Comma)] else [], Show(true, args[i], 0));
        i := i + 1;
      }
      Emit(Tok(RParen));
      BeforeAll(args);
      Regroup(o, [Tok(LParen)], Before(args, |args|), [Tok(RParen)]);
    }

    method EmitPart(e: Expr)
      requires (e.Field? || e.Index?) && Printable(true, e)
      modifies this
      ensures out == old(out) + Bare(true, e)
      decreases e, 0
    {
      hide Show;
      ghost var o := out;
      EmitExpr(e.obj);
      if e.Field? {
        Emit(Tok(Dot));
        Emit(Token(IdentTok, e.name, 0));
        Regroup(o, Show(true, e.obj, 0), [Tok(Dot)], [Token(IdentTok, e.name, 0)]);
        assert [Tok(Dot)] + [Token(IdentTok, e.name, 0)] == [Tok(Dot), Token(IdentTok, e.name, 0)];
        Regroup(o, Show(true, e.obj, 0), [Tok(Dot), Token(IdentTok, e.name, 0)], []);
      } else {
        Emit(Tok(LBracket));
        EmitExpr(e.index);
        Emit(Tok(RBracket));
        ghost var h, x := Show(true, e.obj, 0), Show(true, e.index, 0);
        assert o + h + [Tok(LBracket)] + x + [Tok(RBracket)] == o + (h + [Tok(LBracket)] + x + [Tok(RBracket)]);
      }
    }
  }

  lemma Regroup(o: seq<Token>, a: seq<Token>, b: seq<Token>, c: seq<Token>)
    ensures o + a + b + c == o + (a + b + c) && o + a + b == o + (a + b)
    ensures o + a + b + [] == o + a + b && a + b + [] == a + b && o + a + b + c == o + a + (b + c)
  {
  }

  /** In the generator's style the text does not depend on what is around it. */
  lemma {:induction false} FullSame(e: Expr, m: nat, n: nat)
    ensures Show(true, e, m) == Show(true, e, n)
  {
    hide Bare;
  }

  lemma {:induction false} FullText(e: Expr)
    ensures Show(true, e, 0) == if e.Binary? || e.Unary? then [Tok(LParen)] + Bare(true, e) + [Tok(RParen)] else Bare(true, e)
  {
    hide Bare;
  }

  /** The single token of a literal or a name. */
  function Atom(e: Expr): Token {
    match e
    case IntLit(v) => Token(IntTok, "", v)
    case BoolLit(b) => Tok(if b then KwTrue else KwFalse)
    case Ident(x) => Token(IdentTok, x, 0)
    case _ => Tok(Eof)
  }

  lemma {:induction false} AtomText(e: Expr)
    requires Printable(true, e) && !e.Binary? && !e.Unary? && !e.Call? && !e.Field? && !e.Index?
    ensures Bare(true, e) == [Atom(e)]
  {
    hide Show, Head, ShowArgs;
  }

  // ---- the argument loop ----

  /** What the loop has written before argument `i`. */
  ghost function Before(args: seq<Expr>, i: nat): seq<Token>
    requires i <= |args|
  {
    if i == 0 then [] else Before(args, i - 1) + (if i > 1 then [Tok(Comma)] else []) + Show(true, args[i - 1], 0)
  }

  lemma BeforeStep(args: seq<Expr>, i: nat)
    requires i < |args|
    ensures Before(args, i + 1) == Before(args, i) + (if i > 0 then [Tok(Comma)] else []) + Show(true, args[i], 0)
  {
    hide Show;
  }

  /** The list written from the front is the list as it is read. */
  lemma {:induction false} BeforeRest(args: seq<Expr>, i: nat)
    requires i < |args|
    ensures Before(args, |args|) == Before(args, i) + (if i > 0 then [Tok(Comma)] else []) + Listed(true, args[i..])
    decreases |args| - i
  {
    hide Show;
    var comma: seq<Token> := if i > 0 then [Tok(Comma)] else [];
    var s := Show(true, args[i], 0);
    BeforeStep(args, i);
    assert args[i..][0] == args[i] && args[i..][1..] == args[i + 1..];
    if i + 1 < |args| {
      BeforeRest(args, i + 1);
      var rest := [Tok(Comma)] + Listed(true, args[i + 1..]);
      assert Listed(true, args[i..]) == s + rest;
      assert Before(args, i) + comma + s + [Tok(Comma)] + Listed(true, args[i + 1..]) == Before(args, i) + comma + (s + rest);
    } else {
      assert Listed(true, args[i..]) == s + [] == s;
    }
  }

  lemma {:induction false} BeforeAll(args: seq<Expr>)
    ensures Before(args, |args|) == if args == [] then [] else Listed(true, args)
  {
    hide Show, Listed;
    if args != [] {
      BeforeRest(args, 0);
      assert args[0..] == args;
      assert Before(args, 0) == [];
    }
  }
}
