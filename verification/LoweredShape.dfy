// The shape of lowered functions: their arity, and which of them have a terminator at the
// end of every block.
module LoweredShape {
  import opened Common
  import opened Ast
  import opened Ir
  import opened Codegen
  import opened BlockNumbers
  import opened CfgNames
  import opened Lowering
  import L = Llvm

  // A function returns a value when one of its returns does.

  lemma {:induction false} ReturnsInAt(instrs: seq<Instr>)
    ensures ReturnsIn(instrs) <==> exists i :: 0 <= i < |instrs| && CarriesValue(instrs[i])
    decreases |instrs|
  {
    if instrs != [] {
      var init := instrs[..|instrs| - 1];
      ReturnsInAt(init);
      if ReturnsIn(init) {
        var i :| 0 <= i < |init| && CarriesValue(init[i]);
        assert CarriesValue(instrs[i]);
      }
      if i :| 0 <= i < |instrs| && CarriesValue(instrs[i]) {
        if i < |init| {
          assert CarriesValue(init[i]);
        }
      }
    }
  }

  lemma {:induction false} ReturnsValueAt(code: seq<BasicBlock>, b: nat, i: nat)
    requires b < |code| && i < |code[b].instrs| && CarriesValue(code[b].instrs[i])
    ensures ReturnsValue(code)
    decreases |code|
  {
    var init := code[..|code| - 1];
    if b < |init| {
      assert init[b] == code[b];
      ReturnsValueAt(init, b, i);
    } else {
      ReturnsInAt(code[b].instrs);
    }
  }

  // Terminators.

  // Only the current target block changes.
  ghost predicate Elsewhere(s: Low, t: Low) {
    && t.cur == s.cur && |t.lowered| == |s.lowered|
    && forall k :: 0 <= k < |s.lowered| && k != s.cur ==> t.lowered[k] == s.lowered[k]
  }

  lemma {:induction false} ResolveAllElsewhere(os: seq<Operand>, s: Low)
    ensures Elsewhere(s, ResolveAll(os, s).0)
  {
    if os != [] {
      ResolveAllElsewhere(os[1..], Resolve(os[0], s).s);
    }
  }

  lemma LowerCallElsewhere(i: Instr, f: Fixed, s: Low)
    ensures Elsewhere(s, LowerCall(i, f, s))
  {
    ResolveAllElsewhere(i.operands, s);
    ResolveAllElsewhere(if i.operands == [] then [] else [i.operands[0]], s);
  }

  lemma LowerInstrElsewhere(i: Instr, f: Fixed, s: Low)
    ensures Elsewhere(s, LowerInstr(i, f, s))
  {
    if i.op.Alloca? || i.op.Load? || i.op.Store? {
      MemoryElsewhere(i, s);
    } else if IsTerminator(i) {
      JumpElsewhere(i, f, s);
    } else if i.op.Call? {
      LowerCallElsewhere(i, f, s);
    } else if IsBinary(i.op) {
      BinaryElsewhere(i, s);
    } else {
      UnaryElsewhere(i, s);
    }
  }

  lemma MemoryElsewhere(i: Instr, s: Low)
    ensures Elsewhere(s, LowerMemory(i, s))
  {
  }

  lemma JumpElsewhere(i: Instr, f: Fixed, s: Low)
    ensures Elsewhere(s, LowerJump(i, f, s))
  {
    if i.op.CondBranch? && i.operands != [] {
      var a := Resolve(i.operands[0], s);
      var c := ToI1(a.v, a.s);
      assert Elsewhere(s, a.s) && Elsewhere(a.s, c.s);
    } else if i.op.Ret? && i.operands != [] {
      assert Elsewhere(s, Resolve(i.operands[0], s).s);
    }
  }

  lemma UnaryElsewhere(i: Instr, s: Low)
    ensures Elsewhere(s, LowerUnary(i, s))
  {
    var a := ResolveAt(i, 0, s);
    var x := ToI1(a.v, a.s);
    assert Elsewhere(s, a.s) && Elsewhere(a.s, x.s);
    WidenElsewhere(Built(Put(Take(x.s), L.Not(x.s.next, x.v)), L.Inst(x.s.next, L.I1)));
  }

  lemma WidenElsewhere(b: Built)
    ensures Elsewhere(b.s, Widen(b).s)
  {
  }

  lemma BinaryElsewhere(i: Instr, s: Low)
    ensures Elsewhere(s, LowerBinary(i, s))
  {
    var a := ResolveAt(i, 0, s);
    var b := ResolveAt(i, 1, a.s);
    assert Elsewhere(s, a.s) && Elsewhere(a.s, b.s);
    if ArithmeticOp(i.op).None? {
      if ComparePred(i.op).Some? {
        CompareElsewhere(ComparePred(i.op).value, a.v, b.v, b.s);
      } else {
        LogicalElsewhere(if i.op.LogAnd? then L.And else L.Or, a.v, b.v, b.s);
      }
    }
  }

  lemma CompareElsewhere(pred: L.Pred, a: L.Value, b: L.Value, s: Low)
    ensures Elsewhere(s, Compare(pred, a, b, s).s)
  {
    WidenElsewhere(Built(Put(Take(s), L.ICmp(s.next, pred, a, b)), L.Inst(s.next, L.I1)));
  }

  lemma LogicalElsewhere(op: L.BinOp, a: L.Value, b: L.Value, s: Low)
    ensures Elsewhere(s, Logical(op, a, b, s).s)
  {
    var l := ToI1(a, s);
    var r := ToI1(b, l.s);
    assert Elsewhere(s, l.s) && Elsewhere(l.s, r.s);
    WidenElsewhere(Arithmetic(op, l.v, r.v, r.s));
  }

  lemma {:induction false} LowerCodeElsewhere(code: seq<Instr>, f: Fixed, s: Low)
    ensures Elsewhere(s, LowerCode(code, f, s))
    ensures Ended(s) ==> LowerCode(code, f, s) == s
    decreases code
  {
    if code != [] {
      LowerCodeElsewhere(code[..|code| - 1], f, s);
      LowerInstrElsewhere(code[|code| - 1], f, LowerCode(code[..|code| - 1], f, s));
    }
  }

  // The blocks lowered so far have a terminator, the others are empty.
  ghost predicate Done(code: seq<BasicBlock>, f: Fixed, b: nat, s: Low)
    requires b <= |code|
  {
    && |s.lowered| == |code|
    && forall k :: 0 <= k < |code| ==>
         if (exists j :: 0 <= j < b && Goes(code, f, j, k)) then L.IsTerminated(s.lowered[k]) else s.lowered[k] == []
  }

  // Block j is lowered into target block k.
  ghost predicate Goes(code: seq<BasicBlock>, f: Fixed, j: nat, k: nat)
    requires j < |code|
  {
    code[j].name in f.blocks && f.blocks[code[j].name] == k
  }

  lemma LowerBlockDone(code: seq<BasicBlock>, f: Fixed, b: nat, s: Low)
    requires b < |code| && Done(code, f, b, s) && code[b].name in f.blocks && f.blocks[code[b].name] < |code|
    ensures Done(code, f, b + 1, LowerBlock(code[b], f, s))
  {
    var k := f.blocks[code[b].name];
    assert Goes(code, f, b, k);
    var at := Enter(code[b], f, s);
    LowerCodeElsewhere(code[b].instrs, f, at);
    var t := LowerBlock(code[b], f, s);
    OneMoreDone(code, f, b, k, s, t);
  }

  // One more block goes to k, and only the block it goes to has changed.
  lemma OneMoreDone(code: seq<BasicBlock>, f: Fixed, b: nat, k: nat, s: Low, t: Low)
    requires b < |code| && Done(code, f, b, s) && k < |code| && Goes(code, f, b, k)
    requires |t.lowered| == |s.lowered| && L.IsTerminated(t.lowered[k])
    requires forall l :: 0 <= l < |code| && l != k ==> t.lowered[l] == s.lowered[l]
    requires forall l :: Goes(code, f, b, l) ==> l == k
    ensures Done(code, f, b + 1, t)
  {
    forall l | 0 <= l < |code|
      ensures if (exists j :: 0 <= j < b + 1 && Goes(code, f, j, l)) then L.IsTerminated(t.lowered[l])
        else t.lowered[l] == []
    {
      if l != k {
        assert t.lowered[l] == s.lowered[l];
      }
    }
  }

  lemma {:induction false} LowerBlocksDone(code: seq<BasicBlock>, f: Fixed, b: nat)
    requires b <= |code| && f.blocks == BlockMap(code)
    ensures Done(code, f, b, LowerBlocks(code[..b], f, Begin(code)))
    decreases b
  {
    if b > 0 {
      LowerBlocksDone(code, f, b - 1);
      assert code[..b][..b - 1] == code[..b - 1];
      LastOfName(code, b - 1);
      LowerBlockDone(code, f, b - 1, LowerBlocks(code[..b - 1], f, Begin(code)));
    }
  }

  // A name stands for the last block that has it.
  lemma {:induction false} LastOfName(code: seq<BasicBlock>, b: nat)
    requires b < |code|
    ensures var n := code[b].name;
            n in BlockMap(code) && b <= BlockMap(code)[n] < |code| && code[BlockMap(code)[n]].name == n
    decreases |code|
  {
    var init := code[..|code| - 1];
    if b < |init| {
      LastOfName(init, b);
      assert init[b] == code[b];
    }
  }

  ghost predicate AllTerminated(lowered: seq<seq<L.LInstr>>) {
    forall b :: 0 <= b < |lowered| ==> L.IsTerminated(lowered[b])
  }

  // Every block of a lowered function ends in a terminator if and only if no two blocks of
  // the representation share a name.
  lemma TerminatedIffNamesUnique(code: seq<BasicBlock>, voids: set<string>)
    ensures |Lower(code, voids).lowered| == |code|
    ensures AllTerminated(Lower(code, voids).lowered) <==> UniqueNames(code)
  {
    var f := FixedFor(code, voids);
    LowerBlocksDone(code, f, |code|);
    assert code[..|code|] == code;
    if UniqueNames(code) {
      forall b | 0 <= b < |code| ensures L.IsTerminated(Lower(code, voids).lowered[b]) {
        LastOfName(code, b);
        assert Goes(code, f, b, b);
      }
    } else {
      var i, j :| 0 <= i < j < |code| && code[i].name == code[j].name;
      LastOfName(code, j);
      forall k | 0 <= k < |code| ensures !Goes(code, f, k, i) {
        LastOfName(code, k);
      }
      assert Lower(code, voids).lowered[i] == [];
    }
  }

  // So a source function lowers to a target function whose blocks all end properly exactly
  // when each match that is lowered has a wildcard arm or no arms.
  lemma TerminatedIffMatchesClosed(f: FunctionDecl, voids: set<string>)
    ensures |Lower(GenFunction(f), voids).lowered| == |GenFunction(f)|
    ensures AllTerminated(Lower(GenFunction(f), voids).lowered) <==> (f.body.Some? ==> ClosedMatches(f.body.value))
  {
    TerminatedIffNamesUnique(GenFunction(f), voids);
    NamesUniqueIffMatchesClosed(f);
  }

  // `match 0 { 1 => {} }` leaves a block without a terminator.
  lemma MatchWithoutWildcardLeavesBlockOpen(f: FunctionDecl, voids: set<string>)
    requires f == FunctionDecl("f", [], Some(Match(IntLit(0), [MatchArm(Some(IntLit(1)), Block([]))])))
    ensures !AllTerminated(Lower(GenFunction(f), voids).lowered)
  {
    var arms := f.body.value.arms;
    assert arms[1..] == [] && !ClosedArms(arms[1..]);
    TerminatedIffMatchesClosed(f, voids);
  }
}
