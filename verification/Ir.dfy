// The three-address intermediate representation.
module Ir {
  // Register identifiers are handed out from 1; 0 means "no register".
  type RegID = nat
  const NO_REG: RegID := 0

  datatype Opcode =
    | Add | Sub | Mul | Div | Mod | Neg
    | BitAnd | BitOr | BitXor | BitNot | Shl | Shr
    | CmpEq | CmpNe | CmpLt | CmpGt | CmpLe | CmpGe
    | LogAnd | LogOr | LogNot
    | Alloca | Load | Store
    | Ret | Branch | CondBranch
    | Call | Param | Copy | Cast | Phi

  datatype Operand =
    | Reg(reg: RegID)
    | IntImm(value: int)
    | FloatImm(text: string)
    | StringRef(text: string)
    | BoolImm(truth: bool)

  datatype Instr = Instr(op: Opcode, dest: RegID, operands: seq<Operand>, tag: string)

  datatype BasicBlock = BasicBlock(name: string, instrs: seq<Instr>)

  predicate IsTerminator(i: Instr) {
    i.op.Ret? || i.op.Branch? || i.op.CondBranch?
  }

  predicate IsTerminated(code: seq<Instr>) {
    code != [] && IsTerminator(code[|code| - 1])
  }
}
