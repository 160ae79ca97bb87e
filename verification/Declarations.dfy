/** Declarations, the top-level loop and its error recovery (src/parser.c:104-138, 770-1273). What a
    declaration holds is left out here, except for bodies and names; what is proved is that every
    parse ends, at the end-of-file token, and that tokens are skipped only after an error. */
module Declarations {
  import opened Ast
  import opened Tokens
  import opened ParserSpec
  import opened Parser

  datatype Decl =
    | NoDecl
    | FnDecl(name: string, body: Block)
    | MembersDecl(keyword: Kind, name: string, members: seq<string>)
    | ExtendDecl(target: string, methods: seq<Decl>)
    | AliasDecl(name: string, typ: TypeExpr)
    | TestDecl(name: string, body: Block)
    | GlobalDecl(decl: Stmt)

  /** The cursor has not moved back and no error has been forgotten. */
  twostate predicate Onward(p: Parser)
    reads p
  {
    p.Inside() && old(p.pos) <= p.pos && (old(p.hadError) ==> p.hadError)
  }

  /** `parser_peek`: past the end it is the last token. */
  function Peek(p: Parser, offset: nat): Kind
    reads p
  {
    if p.pos + offset < |p.tokens| then p.tokens[p.pos + offset].kind else Eof
  }

  method AnyExpr(p: Parser) returns (e: Expr)
    requires p.Inside()
    modifies p
    ensures Onward(p)
  {
    hide ParseExpr;
    e := p.Expression();
  }

  method AnyType(p: Parser) returns (t: TypeExpr)
    requires p.Inside()
    modifies p
    ensures Onward(p)
  {
    hide ParseType;
    t := p.TypeExpression();
  }

  method AnyBlock(p: Parser) returns (b: Block)
    requires p.Inside()
    modifies p
    ensures Onward(p)
  {
    hide ParseBlock;
    b := p.BraceBlock();
  }

  method Must(p: Parser, k: Kind) returns (found: bool)
    requires p.Inside() && k != Eof
    modifies p
    ensures Onward(p) && found == (old(p.Current()) == k) && (found ==> old(p.pos) < p.pos) && (!found ==> p.hadError)
  {
    hide Readable;
    found := p.Expect(k);
  }

  method May(p: Parser, k: Kind) returns (found: bool)
    requires p.Inside() && k != Eof
    modifies p`pos
    ensures Onward(p) && found == (old(p.Current()) == k) && (found ==> old(p.pos) < p.pos)
  {
    hide Readable;
    found := p.Match(k);
  }

  method Name(p: Parser) returns (name: string)
    requires p.Inside()
    modifies p
    ensures Onward(p)
  {
    name := p.tokens[p.pos].text;
    var _ := Must(p, IdentTok);
  }

  /** `#[name(args)]` any number of times. */
  method Attributes(p: Parser) returns (names: seq<string>)
    requires p.Inside()
    modifies p
    ensures Onward(p)
  {
    names := [];
    while p.Current() == Hash
      invariant Onward(p)
      decreases |p.tokens| - p.pos
    {
      var name := Attribute(p);
      names := names + [name];
    }
  }

  method Attribute(p: Parser) returns (name: string)
    requires p.Inside() && p.Current() == Hash
    modifies p
    ensures Onward(p) && old(p.pos) < p.pos
  {
    var _ := Must(p, Hash);
    var _ := Must(p, LBracket);
    name := Name(p);
    var args := May(p, LParen);
    if args { AttributeArgs(p); }
    var _ := Must(p, RBracket);
  }

  method AttributeArgs(p: Parser)
    requires p.Inside()
    modifies p
    ensures Onward(p)
  {
    var more := true;
    while more
      invariant Onward(p)
      decreases more, |p.tokens| - p.pos
    {
      var _ := AnyExpr(p);
      more := May(p, Comma);
    }
    var _ := Must(p, RParen);
  }

  /** Names separated by commas: the traits of a constraint or of an extension. */
  method Traits(p: Parser) returns (names: seq<string>)
    requires p.Inside()
    modifies p
    ensures Onward(p)
  {
    names := [];
    var more := true;
    while more
      invariant Onward(p)
      decreases more, |p.tokens| - p.pos
    {
      var name := Name(p);
      names := names + [name];
      more := May(p, Comma);
    }
  }

  method GenericParams(p: Parser)
    requires p.Inside()
    modifies p
    ensures Onward(p)
  {
    if p.Current() != LParen || Peek(p, 1) != IdentTok || Peek(p, 2) != Colon || Peek(p, 3) != KwType { return; }
    var more := Must(p, LParen);
    while more
      invariant Onward(p)
      decreases more, |p.tokens| - p.pos
    {
      GenericParam(p);
      more := May(p, Comma);
    }
    var _ := Must(p, RParen);
  }

  method GenericParam(p: Parser)
    requires p.Inside()
    modifies p
    ensures Onward(p)
  {
    var _ := Name(p);
    var _ := Must(p, Colon);
    var _ := Must(p, KwType);
    var constrained := May(p, KwWith);
    if constrained { var _ := Traits(p); }
  }

  method Param(p: Parser) returns (name: string)
    requires p.Inside()
    modifies p
    ensures Onward(p)
  {
    if p.Current() == OpTok(Amp) || p.Current() == KwSelf {
      name := "self";
      SelfParam(p);
    } else {
      name := Name(p);
      var _ := Must(p, Colon);
      var _ := AnyType(p);
    }
    var default := May(p, AssignTok(Assign));
    if default { var _ := AnyExpr(p); }
  }

  method SelfParam(p: Parser)
    requires p.Inside()
    modifies p
    ensures Onward(p)
  {
    var ref := May(p, OpTok(Amp));
    if ref { var _ := May(p, KwConst); }
    var _ := Must(p, KwSelf);
    var typed := May(p, Colon);
    if typed { var _ := AnyType(p); }
  }

  /** The parameters in parentheses and the optional result type. */
  method Signature(p: Parser) returns (params: seq<string>)
    requires p.Inside()
    modifies p
    ensures Onward(p)
  {
    params := [];
    var _ := Must(p, LParen);
    var more := p.Current() != RParen;
    while more
      invariant Onward(p)
      decreases more, |p.tokens| - p.pos
    {
      var param := Param(p);
      params := params + [param];
      more := May(p, Comma);
    }
    var _ := Must(p, RParen);
    var arrow := May(p, Arrow);
    if arrow { var _ := AnyType(p); }
  }

  /** A function after `fn`. */
  method Function(p: Parser) returns (d: Decl)
    requires p.Inside()
    modifies p
    ensures Onward(p) && d != NoDecl
  {
    var name := Name(p);
    GenericParams(p);
    var _ := Signature(p);
    var body := NoBlock;
    var bodiless := May(p, Semicolon);
    if !bodiless { body := AnyBlock(p); }
    d := FnDecl(name, body);
  }

  /** A field of a struct or union, or a variant of an enum. */
  method Member(p: Parser, variant: bool) returns (name: string)
    requires p.Inside()
    modifies p
    ensures Onward(p)
  {
    if variant {
      name := Name(p);
      var payload := May(p, LParen);
      if payload {
        var _ := AnyType(p);
        var _ := Must(p, RParen);
      }
    } else {
      var _ := Attributes(p);
      var _ := May(p, KwPub);
      name := Name(p);
      var _ := Must(p, Colon);
      var _ := AnyType(p);
    }
    var valued := May(p, AssignTok(Assign));
    if valued { var _ := AnyExpr(p); }
  }

  /** A struct, union or enum. */
  method Members(p: Parser, keyword: Kind) returns (d: Decl)
    requires p.Inside() && p.Current() == keyword && keyword != Eof
    modifies p
    ensures Onward(p) && d != NoDecl && old(p.pos) < p.pos
  {
    var _ := Must(p, keyword);
    var name := Name(p);
    if keyword != KwEnum { GenericParams(p); }
    var _ := Must(p, LBrace);
    var members := [];
    var more := true;
    while more && p.Current() != RBrace && p.Current() != Eof
      invariant Onward(p) && old(p.pos) < p.pos
      decreases more, |p.tokens| - p.pos
    {
      var member := Member(p, keyword == KwEnum);
      members := members + [member];
      more := May(p, Comma);
    }
    var _ := Must(p, RBrace);
    d := MembersDecl(keyword, name, members);
  }

  method TraitDecl(p: Parser) returns (d: Decl, skipped: nat)
    requires p.Inside() && p.Current() == KwTraits
    modifies p
    ensures Onward(p) && d != NoDecl && skipped < p.pos - old(p.pos) && (skipped > 0 ==> p.hadError)
  {
    skipped := 0;
    var _ := Must(p, KwTraits);
    var name := Name(p);
    var _ := Must(p, LBrace);
    var members := [];
    while p.Current() != RBrace && p.Current() != Eof
      invariant Onward(p) && skipped < p.pos - old(p.pos) && (skipped > 0 ==> p.hadError)
      decreases |p.tokens| - p.pos
    {
      var member, one := TraitMethod(p);
      members, skipped := members + member, skipped + one;
    }
    var _ := Must(p, RBrace);
    d := MembersDecl(KwTraits, name, members);
  }

  /** A method of a trait; one token is skipped where no `fn` stands. */
  method TraitMethod(p: Parser) returns (names: seq<string>, skipped: nat)
    requires p.Inside() && p.Current() != Eof
    modifies p
    ensures Onward(p) && old(p.pos) < p.pos && skipped <= p.pos - old(p.pos) && (skipped > 0 ==> p.hadError)
  {
    names, skipped := [], 0;
    var _ := May(p, KwPub);
    var fn := Must(p, KwFn);
    if fn {
      var name := Name(p);
      var _ := Signature(p);
      var _ := Must(p, Semicolon);
      names := [name];
    } else {
      skipped := SkipOne(p);
    }
  }

  /** Skips a token after an error, unless it is the last. */
  method SkipOne(p: Parser) returns (skipped: nat)
    requires p.Inside() && p.hadError
    modifies p`pos
    ensures p.Inside() && skipped == (if p.tokens[old(p.pos)].kind == Eof then 0 else 1) && p.pos == old(p.pos) + skipped
  {
    skipped := 0;
    if p.Current() != Eof { p.pos, skipped := p.pos + 1, 1; }
  }

  method Extend(p: Parser) returns (d: Decl, skipped: nat)
    requires p.Inside() && p.Current() == KwExtend
    modifies p
    ensures Onward(p) && d != NoDecl && skipped < p.pos - old(p.pos) && (skipped > 0 ==> p.hadError)
  {
    skipped := 0;
    var _ := Must(p, KwExtend);
    var target := Name(p);
    GenericParams(p);
    var with := May(p, KwWith);
    if with { var _ := Traits(p); }
    var _ := Must(p, LBrace);
    var methods := [];
    while p.Current() != RBrace && p.Current() != Eof
      invariant Onward(p) && skipped < p.pos - old(p.pos) && (skipped > 0 ==> p.hadError)
      decreases |p.tokens| - p.pos
    {
      var m, one := ExtendMethod(p);
      methods, skipped := methods + m, skipped + one;
    }
    var _ := Must(p, RBrace);
    d := ExtendDecl(target, methods);
  }

  /** What may stand before the `fn` of a method. */
  method Modifiers(p: Parser)
    requires p.Inside()
    modifies p
    ensures Onward(p)
  {
    var _ := Attributes(p);
    var _ := May(p, KwPub);
    var _ := May(p, KwComptime);
    var _ := May(p, KwUnsafe);
  }

  method ExtendMethod(p: Parser) returns (methods: seq<Decl>, skipped: nat)
    requires p.Inside() && p.Current() != Eof
    modifies p
    ensures Onward(p) && old(p.pos) < p.pos && skipped <= p.pos - old(p.pos) && (skipped > 0 ==> p.hadError)
  {
    methods, skipped := [], 0;
    Modifiers(p);
    var fn := Must(p, KwFn);
    if fn {
      var m := Function(p);
      methods := [m];
    } else {
      skipped := SkipOne(p);
    }
  }

  method Small(p: Parser) returns (d: Decl)
    requires p.Inside()
    requires p.Current() == KwType || p.Current() == KwTest || p.Current() == KwConst || p.Current() == KwVar
    modifies p
    ensures Onward(p) && d != NoDecl && old(p.pos) < p.pos
  {
    hide ParseVarDecl;
    var k := p.Current();
    var _ := Must(p, k);
    if k == KwType {
      var name := Name(p);
      var _ := Must(p, AssignTok(Assign));
      var t := AnyType(p);
      var _ := Must(p, Semicolon);
      d := AliasDecl(name, t);
    } else if k == KwTest {
      var name := p.tokens[p.pos].text;
      var _ := Must(p, StringTok);
      var body := AnyBlock(p);
      d := TestDecl(name, body);
    } else {
      var global := p.Declaration(k == KwConst);
      d := GlobalDecl(global);
    }
  }

  /** A declaration has consumed a token that was not dropped; without one an error has been reported. */
  method TopLevel(p: Parser) returns (d: Decl, skipped: nat)
    requires p.Inside()
    modifies p
    ensures Onward(p) && if d == NoDecl then p.hadError && skipped == 0 else skipped < p.pos - old(p.pos)
    ensures skipped > 0 ==> p.hadError
  {
    skipped := 0;
    var _ := Attributes(p);
    var _ := May(p, KwPub);
    d, skipped := Item(p);
  }

  /** A function after its modifiers. */
  method FunctionItem(p: Parser) returns (d: Decl)
    requires p.Inside() && (p.Current() == KwFn || p.Current() == KwUnsafe)
    modifies p
    ensures Onward(p) && d != NoDecl && old(p.pos) < p.pos
  {
    var _ := May(p, KwUnsafe);
    var _ := Must(p, KwFn);
    d := Function(p);
  }

  method Item(p: Parser) returns (d: Decl, skipped: nat)
    requires p.Inside()
    modifies p
    ensures Onward(p) && if d == NoDecl then p.hadError && skipped == 0 else skipped < p.pos - old(p.pos)
    ensures skipped > 0 ==> p.hadError
  {
    skipped := 0;
    var k := p.Current();
    if k == KwFn || (k == KwUnsafe && Peek(p, 1) == KwFn) {
      d := FunctionItem(p);
    } else if k == KwStruct || k == KwUnion || k == KwEnum {
      d := Members(p, k);
    } else if k == KwTraits {
      d, skipped := TraitDecl(p);
    } else if k == KwExtend {
      d, skipped := Extend(p);
    } else if k == KwType || k == KwTest || k == KwConst || k == KwVar {
      d := Small(p);
    } else {
      p.hadError := true;
      d := NoDecl;
    }
  }

  method Header(p: Parser)
    requires p.Inside()
    modifies p
    ensures Onward(p)
  {
    var named := May(p, KwModule);
    if named {
      var _ := Name(p);
      var _ := Must(p, Semicolon);
    }
    var more := May(p, KwImport);
    while more
      invariant Onward(p)
      decreases more, |p.tokens| - p.pos
    {
      Import(p);
      more := May(p, KwImport);
    }
  }

  method Import(p: Parser)
    requires p.Inside()
    modifies p
    ensures Onward(p)
  {
    var _ := Name(p);
    var more := May(p, Dot);
    while more
      invariant Onward(p)
      decreases more, |p.tokens| - p.pos
    {
      var _ := Name(p);
      more := May(p, Dot);
    }
    var renamed := May(p, KwAs);
    if renamed { var _ := Name(p); }
    var _ := Must(p, Semicolon);
  }

  /** Every parse ends, and only at the end of the file; `skipped` counts the tokens that recovery dropped,
      between declarations and inside of traits and extensions. */
  method Unit(p: Parser) returns (decls: seq<Decl>, skipped: nat)
    requires p.Inside()
    modifies p
    ensures Onward(p) && p.pos == |p.tokens| - 1
    ensures skipped > 0 ==> p.hadError
    ensures |decls| + skipped <= p.pos - old(p.pos)
  {
    decls, skipped := [], 0;
    Header(p);
    while p.Current() != Eof
      invariant Onward(p) && (skipped > 0 ==> p.hadError) && |decls| + skipped <= p.pos - old(p.pos)
      decreases |p.tokens| - p.pos
    {
      var d, inside := TopLevel(p);
      skipped := skipped + inside;
      if d != NoDecl {
        decls := decls + [d];
      } else if p.Current() != Eof {
        p.pos := p.pos + 1;
        skipped := skipped + 1;
      }
    }
  }
}
