/** Token kinds (src/lexer.h:9-27) and the tokens the parser reads. */
module Tokens {
  import opened Ast

  datatype Kind =
    | KwModule | KwImport | KwFn | KwPub | KwConst | KwVar | KwComptime | KwDefer | KwErrdefer | KwTest
    | KwReturn | KwIf | KwElse | KwWhile | KwFor | KwTry | KwBreak | KwContinue | KwUnion | KwStruct
    | KwUnsafe | KwNoreturn | KwIn | KwType | KwTraits | KwExtend | KwMatch | KwEnum | KwAs | KwWith
    | KwUndefined | KwSelf | KwCapSelf | KwTrue | KwFalse | KwNull
    | IntTok | FloatTok | StringTok | CharTok | IdentTok | UnderscoreTok
    | OpTok(op: Op)
    | AssignTok(aop: AssignOp)
    | Dot | Arrow | FatArrow | ColonColon | Hash
    | LParen | RParen | LBracket | RBracket | LBrace | RBrace
    | Comma | Semicolon | Colon | Question
    | Eof | ErrorTok

  /** `value` is the value of an integer literal. */
  datatype Token = Token(kind: Kind, text: string, value: int)

  /** Left binding power of an infix operator; the right one is one more (src/parser.c:146-174). */
  function BindingPower(k: Kind): Option<nat> {
    if !k.OpTok? then None
    else
      match k.op
      case OrOr => Some(10)
      case AndAnd => Some(20)
      case EqEq => Some(30)
      case NotEq => Some(30)
      case Lt => Some(40)
      case Gt => Some(40)
      case Le => Some(40)
      case Ge => Some(40)
      case DotDot => Some(45)
      case Pipe => Some(50)
      case Caret => Some(60)
      case Amp => Some(70)
      case Shl => Some(80)
      case Shr => Some(80)
      case Plus => Some(90)
      case Minus => Some(90)
      case Star => Some(100)
      case Slash => Some(100)
      case Percent => Some(100)
      case Bang => None
      case Tilde => None
  }

  const PrefixPower: nat := 110

  predicate IsPrefixOp(op: Op) {
    op.Amp? || op.Star? || op.Minus? || op.Bang? || op.Tilde?
  }

  /** A token list as the lexer leaves it: it ends in its only end-of-file token. Match statements are
      kept out: their arm loop need not consume a token (src/parser.c:604-611). */
  ghost predicate Readable(ts: seq<Token>) {
    && |ts| > 0 && ts[|ts| - 1].kind == Eof
    && (forall i :: 0 <= i < |ts| - 1 ==> ts[i].kind != Eof)
    && (forall i :: 0 <= i < |ts| ==> ts[i].kind != KwMatch)
  }
}
