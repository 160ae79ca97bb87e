/** The abstract syntax shared by the parser, the semantic analyser and the C generator.
    A null node pointer of the source program is the constructor `NoExpr`, `NoBlock`,
    `NoStmt` or `NoType` of its kind. */
module Ast {
  datatype Option<+T> = None | Some(value: T) {
    function GetOr(default: T): T {
      if Some? then value else default
    }
  }

  datatype Op =
    | Plus | Minus | Star | Slash | Percent
    | EqEq | NotEq | Lt | Gt | Le | Ge
    | AndAnd | OrOr
    | Amp | Pipe | Caret | Shl | Shr
    | Bang | Tilde
    | DotDot

  datatype AssignOp =
    | Assign | AddAssign | SubAssign | MulAssign | DivAssign | RemAssign
    | AndAssign | OrAssign | XorAssign | ShlAssign | ShrAssign

  datatype TypeExpr =
    | NoType
    | Named(name: string, args: seq<TypeExpr>)
    | RefType(isConst: bool, child: TypeExpr)
    | PtrType(isConst: bool, child: TypeExpr)
    | SliceType(isConst: bool, child: TypeExpr)
    | ArrayType(length: Expr, elem: TypeExpr)
    | OptionalType(child: TypeExpr)
    | ErrorUnionType(error: TypeExpr, success: TypeExpr)
    | FunctionType(params: seq<TypeExpr>, ret: TypeExpr)

  datatype Expr =
    | NoExpr
    | IntLit(value: int)
    | FloatLit(text: string)
    | StringLit(text: string)
    | CharLit(text: string)
    | BoolLit(b: bool)
    | NullLit
    | UndefinedLit
    | Ident(name: string)
    | Binary(op: Op, left: Expr, right: Expr)
    | Unary(op: Op, operand: Expr)
    | Call(callee: Expr, args: seq<Expr>)
    | MethodCall(receiver: Expr, name: string, args: seq<Expr>)
    | Field(obj: Expr, name: string)
    | Index(obj: Expr, index: Expr)
    | Slice(obj: Expr, start: Expr, end: Expr)
    | Cast(expr: Expr, target: TypeExpr)
    | Try(expr: Expr)
    | ErrorCapture(expr: Expr, name: string, fallback: Block)
    | Unsafe(body: Block)
    | ArrayLit(elemType: TypeExpr, length: Expr, elems: seq<Expr>, sentinel: bool)
    | StructLit(typ: TypeExpr, inits: seq<FieldInit>)

  datatype FieldInit = FieldInit(name: string, value: Expr)

  datatype Block =
    | NoBlock
    | Block(stmts: seq<Stmt>, trailing: Expr)

  datatype Stmt =
    | NoStmt
    | VarDecl(isConst: bool, name: string, typ: TypeExpr, init: Expr)
    | Return(value: Expr)
    | ExprStmt(expr: Expr)
    | BlockStmt(block: Block)
    | If(cond: Expr, thn: Block, els: Stmt)
    | While(cond: Expr, body: Block)
    | For(name: string, typ: TypeExpr, iterable: Expr, body: Block)
    | Defer(expr: Expr)
    | ErrDefer(body: Block)
    | Break
    | Continue
    | Match(expr: Expr, arms: seq<Expr>)   // the result of each arm
    | AssignStmt(aop: AssignOp, lhs: Expr, rhs: Expr)
}
