// The containers of the intermediate representation and the builder that appends to them.
module IrBuilder {
  import opened Ir
  import opened Labels
  import opened Codegen

  class IRBasicBlock {
    const name: string
    var instrs: seq<Instr>

    constructor (name: string)
      ensures this.name == name && instrs == []
    {
      this.name := name;
      instrs := [];
    }

    ghost function View(): BasicBlock
      reads this
    {
      BasicBlock(name, instrs)
    }

    method Append(i: Instr)
      modifies this
      ensures instrs == old(instrs) + [i]
    {
      instrs := instrs + [i];
    }

    predicate Terminated()
      reads this
      ensures Terminated() <==> IsTerminated(View().instrs)
    {
      |instrs| > 0 && IsTerminator(instrs[|instrs| - 1])
    }
  }

  ghost function ViewOf(blocks: seq<IRBasicBlock>): (v: seq<BasicBlock>)
    reads blocks
    ensures |v| == |blocks|
  {
    if blocks == [] then [] else ViewOf(blocks[..|blocks| - 1]) + [blocks[|blocks| - 1].View()]
  }

  lemma {:induction false} ViewAt(blocks: seq<IRBasicBlock>, i: nat)
    requires i < |blocks|
    ensures ViewOf(blocks)[i] == blocks[i].View()
  {
    if i < |blocks| - 1 {
      ViewAt(blocks[..|blocks| - 1], i);
    }
  }

  class IRFunction {
    const name: string
    var blocks: seq<IRBasicBlock>
    var regCounter: nat

    constructor (name: string)
      ensures this.name == name && blocks == [] && regCounter == 0
    {
      this.name := name;
      blocks := [];
      regCounter := 0;
    }

    method AddBlock(label_: string) returns (b: IRBasicBlock)
      modifies this`blocks
      ensures fresh(b) && b.name == label_ && b.instrs == []
      ensures blocks == old(blocks) + [b]
    {
      b := new IRBasicBlock(label_);
      blocks := blocks + [b];
    }

    // Registers are numbered from 1.
    method NextReg() returns (r: RegID)
      modifies this`regCounter
      ensures r == regCounter == old(regCounter) + 1
    {
      regCounter := regCounter + 1;
      r := regCounter;
    }
  }

  // The insert point is `bb` inside `fn`. `gen` is the emission so far as a value (its slot
  // map stays empty; the slots belong to IRGen).
  class IRBuilder {
    var fn: IRFunction?
    var bb: IRBasicBlock?
    var labelCounter: nat
    ghost var gen: Gen
    ghost var Repr: set<object>

    ghost predicate Valid()
      reads this, Repr
      ensures Valid() ==> this in Repr
    {
      && this in Repr && fn != null && bb != null && fn in Repr
      && (forall b :: b in fn.blocks ==> b in Repr)
      && (forall i, j :: 0 <= i < j < |fn.blocks| ==> fn.blocks[i] != fn.blocks[j])
      && |fn.blocks| == |gen.done| + 1 && bb == fn.blocks[|gen.done|]
      && (forall i {:trigger gen.done[i]} :: 0 <= i < |gen.done| ==> gen.done[i] == fn.blocks[i].View())
      && gen == Gen(gen.done, bb.name, bb.instrs, fn.regCounter, labelCounter, map[])
    }

    // The blocks of the function are the value kept in `gen`.
    lemma ViewIsGen()
      requires Valid()
      ensures ViewOf(fn.blocks) == gen.Blocks()
    {
      forall i | 0 <= i < |fn.blocks| ensures ViewOf(fn.blocks)[i] == gen.Blocks()[i] {
        ViewAt(fn.blocks, i);
        if i < |gen.done| {
          assert gen.done[i] == fn.blocks[i].View();
        }
      }
    }

    constructor ()
      ensures fn == null && bb == null
    {
      fn, bb, labelCounter := null, null, 0;
      gen := EMPTY;
      Repr := {};
    }

    // Attach to a function whose only block is `entry`.
    method Reset(f: IRFunction, entry: IRBasicBlock)
      requires f.blocks == [entry] && f.regCounter == 0 && entry.instrs == [] && entry.name == ENTRY
      modifies this
      ensures Valid() && fn == f && bb == entry && Repr == {this, f, entry} && gen == EMPTY
    {
      fn, bb, labelCounter := f, entry, 0;
      gen := EMPTY;
      Repr := {this, f, entry};
    }

    method Detach()
      modifies this
      ensures fn == null && bb == null
    {
      fn, bb, labelCounter := null, null, 0;
    }

    predicate Terminated()
      requires Valid()
      reads this, Repr
      ensures Terminated() <==> IsTerminated(gen.code)
    {
      bb.Terminated()
    }

    method NewLabel(k: LabelKind) returns (s: string)
      requires Valid()
      modifies Repr
      ensures Valid() && Repr == old(Repr) && fn == old(fn)
      ensures s == MakeLabel(k, old(gen).labels) && gen == TakeLabels(old(gen), 1)
    {
      s := Prefix(k) + "_" + Decimal(labelCounter);
      labelCounter := labelCounter + 1;
      gen := TakeLabels(gen, 1);
    }

    // A block has been added but the insert point is still in the one before it.
    ghost predicate Added(b: IRBasicBlock)
      reads this, Repr
    {
      && this in Repr && fn != null && bb != null && fn in Repr
      && (forall x :: x in fn.blocks ==> x in Repr)
      && (forall i, j :: 0 <= i < j < |fn.blocks| ==> fn.blocks[i] != fn.blocks[j])
      && |fn.blocks| == |gen.done| + 2 && bb == fn.blocks[|gen.done|] && b == fn.blocks[|gen.done| + 1]
      && b.instrs == []
      && (forall i {:trigger gen.done[i]} :: 0 <= i < |gen.done| ==> gen.done[i] == fn.blocks[i].View())
      && gen == Gen(gen.done, bb.name, bb.instrs, fn.regCounter, labelCounter, map[])
    }

    method AddBlock(label_: string) returns (b: IRBasicBlock)
      requires Valid()
      modifies Repr
      ensures Added(b) && b.name == label_ && fresh(Repr - old(Repr)) && fn == old(fn)
      ensures gen == old(gen)
    {
      b := fn.AddBlock(label_);
      Repr := Repr + {b};
    }

    method SetBlock(b: IRBasicBlock)
      requires Added(b)
      modifies this
      ensures Valid() && Repr == old(Repr) && fn == old(fn)
      ensures gen == StartBlock(old(gen), b.name)
    {
      bb := b;
      gen := StartBlock(gen, b.name);
    }

    method AppendInstr(i: Instr)
      requires Valid()
      modifies Repr
      ensures Valid() && Repr == old(Repr) && fn == old(fn)
      ensures gen == Append(old(gen), i)
    {
      bb.Append(i);
      gen := Append(gen, i);
    }

    // Every build function that yields a value: a fresh register, then the instruction.
    method BuildValue(op: Opcode, operands: seq<Operand>, tag: string) returns (r: RegID)
      requires Valid()
      modifies Repr
      ensures Valid() && Repr == old(Repr) && fn == old(fn)
      ensures ExprGen(gen, r) == Build(old(gen), op, operands, tag)
    {
      r := fn.NextReg();
      gen := gen.(regs := r);
      AppendInstr(Instr(op, r, operands, tag));
    }

    method BuildStore(value: RegID, ptr: RegID)
      requires Valid()
      modifies Repr
      ensures Valid() && Repr == old(Repr) && fn == old(fn)
      ensures gen == EmitStore(old(gen), value, ptr)
    {
      AppendInstr(Instr(Store, NO_REG, [Reg(value), Reg(ptr)], ""));
    }

    method BuildRet(value: RegID)
      requires Valid()
      modifies Repr
      ensures Valid() && Repr == old(Repr) && fn == old(fn)
      ensures gen == EmitRet(old(gen), value)
    {
      if value == NO_REG {
        AppendInstr(Instr(Ret, NO_REG, [], ""));
      } else {
        AppendInstr(Instr(Ret, NO_REG, [Reg(value)], ""));
      }
    }

    method BuildBranch(target: string)
      requires Valid()
      modifies Repr
      ensures Valid() && Repr == old(Repr) && fn == old(fn)
      ensures gen == EmitBranch(old(gen), target)
    {
      AppendInstr(Instr(Branch, NO_REG, [], target));
    }

    method BuildCondBranch(cond: RegID, t: string, f: string)
      requires Valid()
      modifies Repr
      ensures Valid() && Repr == old(Repr) && fn == old(fn)
      ensures gen == EmitCondBranch(old(gen), cond, t, f)
    {
      AppendInstr(Instr(CondBranch, NO_REG, [Reg(cond)], t + "," + f));
    }

    method BuildBranchIfOpen(target: string)
      requires Valid()
      modifies Repr
      ensures Valid() && Repr == old(Repr) && fn == old(fn)
      ensures gen == BranchIfOpen(old(gen), target)
    {
      if !Terminated() {
        BuildBranch(target);
      }
    }
  }
}
