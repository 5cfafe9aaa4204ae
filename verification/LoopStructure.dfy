// Where branches go back, and why code without loops always comes to an end.
module LoopStructure {
  import opened Ast
  import opened Ir
  import opened Labels
  import opened Codegen
  import opened Cfg
  import opened BlockNumbers
  import opened CfgNames
  import opened IrMachine

  lemma CodeGoesForward(f: FunctionDecl, loops: bool)
    requires f.body.Some? ==> ClosedMatches(f.body.value) && (loops || LoopFree(f.body.value))
    ensures GoesForward(GenFunction(f), loops)
  {
    BodyPlanned(f, loops);
    BlocksAreClosed(f);
    var i := Instr(Opcode.Ret, NO_REG, [], "");
    assert Append(GenBody(f), i).Blocks() == GenFunction(f);
    ForwardOneMore(loops, GenBody(f), i, {});
  }

  // A branch to the same block or to an earlier one goes to the block that tests the
  // condition of a loop.
  lemma BackBranchesGoToLoopHeads(f: FunctionDecl, a: nat, b: nat)
    requires f.body.Some? ==> ClosedMatches(f.body.value)
    requires b <= a < |GenFunction(f)| && Leads(GenFunction(f), a, b)
    ensures IsLoopHead(GenFunction(f)[b].name)
  {
    var code := GenFunction(f);
    CodeGoesForward(f, true);
    var x :| x in code[a].instrs && code[b].name in Targets(x);
    BackBranch(code, true, b, a, x);
  }

  function TotalLength(code: seq<BasicBlock>): nat {
    if code == [] then 0 else TotalLength(code[..|code| - 1]) + |code[|code| - 1].instrs|
  }

  // The number of instructions in front of a place.
  function Place(code: seq<BasicBlock>, b: nat, pc: nat): nat
    requires b <= |code|
  {
    TotalLength(code[..b]) + pc
  }

  lemma {:induction false} PlaceWithin(code: seq<BasicBlock>, b: nat)
    requires b < |code|
    ensures Place(code, b, |code[b].instrs|) == Place(code, b + 1, 0)
    ensures Place(code, b + 1, 0) <= TotalLength(code)
    decreases |code|
  {
    var init := code[..|code| - 1];
    assert code[..b + 1][..b] == code[..b] && code[..b + 1][b] == code[b];
    if b + 1 == |code| {
      assert code[..b + 1] == code;
    } else {
      PlaceWithin(init, b);
      assert init[..b + 1] == code[..b + 1];
    }
  }

  lemma {:induction false} PlaceLater(code: seq<BasicBlock>, a: nat, b: nat)
    requires a <= b <= |code|
    ensures Place(code, a, 0) <= Place(code, b, 0)
    decreases b - a
  {
    if a < b {
      PlaceLater(code, a, b - 1);
      PlaceWithin(code, b - 1);
    }
  }

  ghost predicate AllClosed(code: seq<BasicBlock>) {
    forall b :: 0 <= b < |code| ==> IsClosed(code[b].instrs)
  }

  // A run is inside a block.
  ghost predicate Inside(code: seq<BasicBlock>, c: Config) {
    c.Running? ==> c.block < |code| && c.pc < |code[c.block].instrs|
  }

  ghost predicate Later(code: seq<BasicBlock>, c: Config, d: Config)
    requires c.Running? && Inside(code, c) && Inside(code, d)
  {
    d.Running? ==> Place(code, c.block, c.pc) < Place(code, d.block, d.pc)
  }

  lemma JumpLater(p: Program, i: Instr, c: Config, name: string)
    requires c.Running? && Inside(p.code, c) && AllClosed(p.code) && GoesForward(p.code, false)
    requires i == p.code[c.block].instrs[c.pc] && name in Targets(i)
    ensures var d := Goto(p, c, name);
            Inside(p.code, d) && Later(p.code, c, d)
  {
    var d := Goto(p, c, name);
    if d.Running? {
      assert p.code[d.block].name == name && IsClosed(p.code[d.block].instrs);
      if d.block <= c.block {
        BackBranch(p.code, false, d.block, c.block, i);
      }
      PlaceWithin(p.code, c.block);
      PlaceLater(p.code, c.block + 1, d.block);
    }
  }

  // An instruction that is no terminator is not the last of its block.
  lemma NotLast(code: seq<BasicBlock>, b: nat, pc: nat)
    requires AllClosed(code) && b < |code| && pc < |code[b].instrs| && !IsTerminator(code[b].instrs[pc])
    ensures pc + 1 < |code[b].instrs|
  {
    assert IsClosed(code[b].instrs);
  }

  lemma StraightOn(p: Program, i: Instr, c: Config)
    requires c.Running? && !IsTerminator(i)
    ensures var d := Exec(p, i, c);
            d.Running? ==> d.block == c.block && d.pc == c.pc + 1
  {
  }

  lemma JumpTargets(p: Program, i: Instr, c: Config)
    requires c.Running? && IsTerminator(i)
    ensures var d := Exec(p, i, c);
            d.Running? ==> exists name :: name in Targets(i) && d == Goto(p, c, name)
  {
    if i.op.Branch? {
      assert i.tag in Targets(i);
    } else if i.op.CondBranch? && Exec(p, i, c).Running? {
      var (t, f) := SplitTargets(i.tag).value;
      assert t in Targets(i) && f in Targets(i);
    }
  }

  lemma StepLater(p: Program, c: Config)
    requires c.Running? && Inside(p.code, c) && AllClosed(p.code) && GoesForward(p.code, false)
    ensures Inside(p.code, Step(p, c)) && Later(p.code, c, Step(p, c))
  {
    var i := p.code[c.block].instrs[c.pc];
    if IsTerminator(i) {
      JumpTargets(p, i, c);
      if Step(p, c).Running? {
        var name :| name in Targets(i) && Step(p, c) == Goto(p, c, name);
        JumpLater(p, i, c, name);
      }
    } else {
      StraightOn(p, i, c);
      NotLast(p.code, c.block, c.pc);
    }
  }

  lemma {:induction false} RunLater(m: Machine, c: Config, n: nat)
    requires Inside(m.p.code, c) && AllClosed(m.p.code) && GoesForward(m.p.code, false)
    requires c.Running? ==> TotalLength(m.p.code) <= Place(m.p.code, c.block, c.pc) + n
    ensures !Run(m, c, n).Running?
    decreases n
  {
    if c.Running? {
      PlaceWithin(m.p.code, c.block);
      StepLater(m.p, c);
      assert m.next(c) == Step(m.p, c);
      RunLater(m, m.next(c), n - 1);
    } else {
      RunEnded(m, c, n);
    }
  }

  // A body without loops whose matches are closed ends within as many steps as it has
  // instructions, whatever the arguments and the world.
  lemma LoopFreeCodeEnds(f: FunctionDecl, m: Machine)
    requires f.body.Some? ==> ClosedMatches(f.body.value) && LoopFree(f.body.value)
    requires m.p.code == GenFunction(f)
    ensures !Run(m, START, TotalLength(GenFunction(f))).Running?
  {
    var code := GenFunction(f);
    CodeGoesForward(f, false);
    BlocksAreClosed(f);
    assert IsClosed(code[0].instrs) && code[..0] == [];
    RunLater(m, START, TotalLength(code));
  }
}
