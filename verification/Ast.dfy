// The abstract syntax the parser builds and the later phases walk.
module Ast {
  import opened Common

  datatype BinaryOp =
    | Add | Sub | Mul | Div | Mod
    | Eq | NotEq | Lt | Gt | LtEq | GtEq
    | And | Or
    | BitAnd | BitOr | BitXor
    | Shl | Shr

  datatype UnaryOp = Neg | Not | BitNot | Deref | AddrOf

  datatype AssignOp =
    | Assign
    | AddAssign | SubAssign | MulAssign | DivAssign | ModAssign
    | BitAndAssign | BitOrAssign | BitXorAssign

  // Integer literals carry their decoded value; float, string and type names keep their text.
  datatype Expr =
    | IntLit(value: int)
    | FloatLit(text: string)
    | StringLit(text: string)
    | CharLit(code: nat)
    | BoolLit(truth: bool)
    | NilLit
    | Ident(name: string)
    | Binary(op: BinaryOp, lhs: Expr, rhs: Expr)
    | Unary(uop: UnaryOp, operand: Expr)
    | AssignExpr(aop: AssignOp, target: Expr, rvalue: Expr)
    | Call(callee: Expr, args: seq<Expr>)
    | Index(base: Expr, index: Expr)
    | Member(object_: Expr, field: string)
    | Cast(inner: Expr, ty: TypeNode)
    | ArrayLit(elements: seq<Expr>)

  datatype TypeNode =
    | NamedType(path: string)
    | PointerType(pointee: TypeNode, isMut: bool)
    | SliceType(element: TypeNode)
    | ArrayType(element: TypeNode, size: Expr)
    | FunctionType(params: seq<TypeNode>, ret: Option<TypeNode>)

  datatype VarKind = Let | Var | Const

  datatype Stmt =
    | Block(stmts: seq<Stmt>)
    | ExprStmt(expr: Expr)
    | VarDecl(kind: VarKind, name: string, init: Option<Expr>)
    | Return(result: Option<Expr>)
    | If(cond: Expr, thenBranch: Stmt, elseBranch: Option<Stmt>)
    | While(cond: Expr, body: Stmt)
    | Vloop(cond: Expr, body: Stmt)
    | For(variable: string, iterable: Expr, body: Stmt)
    | Break
    | Continue
    | Match(subject: Expr, arms: seq<MatchArm>)

  // A missing pattern is the wildcard `_`.
  datatype MatchArm = MatchArm(pattern: Option<Expr>, body: Stmt)

  datatype FunctionDecl = FunctionDecl(name: string, params: seq<string>, body: Option<Stmt>)

  // A type declaration is a structure or an enumeration.
  datatype Decl =
    | Function(fn: FunctionDecl)
    | Global(variable: Stmt)
    | Alias(name: string, ty: TypeNode)
    | Import(path: string, alias: Option<string>)
    | TypeDecl(name: string)

  datatype Module = Module(name: string, decls: seq<Decl>)

  // A bare `exit`, `escape` or `wait` is a call, whatever has been declared.
  predicate IsBareCall(x: string) {
    x == "exit" || x == "escape" || x == "wait"
  }
}
