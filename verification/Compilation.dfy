// Whole runs: lowered code gives the results of the intermediate representation, and so of
// the source function.
module Compilation {
  import opened Common
  import opened Ast
  import opened Ir
  import opened Labels
  import opened Runtime
  import opened Source
  import opened Codegen
  import opened Cfg
  import opened CfgNames
  import opened Dataflow
  import opened Fragment
  import opened Preservation
  import opened Lowering
  import opened LoweringStates
  import opened LoweringSteps
  import opened LoweringSimulation
  import opened LoweredShape
  import IrMachine
  import L = Llvm

  // The machine for a function and the machine for its lowering, given the same arguments.
  ghost predicate Pair(u: Subject, m: IrMachine.Machine, lm: L.Machine) {
    && Sound(u) && u.code != []
    && m.p.code == u.code && lm.p.code == Final(u).lowered
    && lm.p.args == m.p.args && lm.p.world == m.p.world
  }

  ghost predicate Mirrors(u: Subject, lm: L.Machine, c: IrMachine.Config, d: L.Config) {
    && c.Running? && c.block < |u.code| && c.pc < |u.code[c.block].instrs|
    && Mirror(Final(u).regs, lm, Within(u, c.block, c.pc), c, d)
  }

  // A bare return from a function that returns values elsewhere becomes undefined
  // behaviour, and so does an arithmetic trap.
  ghost predicate Agrees(u: Subject, lm: L.Machine, c: IrMachine.Config, d: L.Config) {
    match c
    case Running(_, _, _, _, _) => Mirrors(u, lm, c, d)
    case Halted(r, t) => d == if r.Some? || !ReturnsValue(u.code) then L.Halted(r, t) else L.Undefined
    case Trapped(t) => d == L.Trapped(t) || d == L.Undefined
    case Stuck => true
  }

  lemma BlockStart(u: Subject, b: nat)
    requires Sound(u) && b < |u.code|
    ensures var s := Within(u, b, 0);
            s.cur == b && |s.lowered| == |u.code| && s.lowered[b] == []
  {
    AtOk(u, b);
    WithinOk(u, b, 0);
    BlockNumber(u, b);
  }

  lemma BlockNonempty(u: Subject, b: nat)
    requires Sound(u) && b < |u.code|
    ensures u.code[b].instrs != []
  {
    assert IsClosed(u.code[b].instrs);
  }

  // Both machines jump to block b.
  lemma JumpMirrors(u: Subject, lm: L.Machine, c: IrMachine.Config, d: L.Config, b: nat)
    requires Sound(u) && c.Running? && d.Running? && b < |u.code| && c.block == d.block == b && c.pc == d.pc == 0
    requires d.mem == c.mem && d.trace == c.trace && SameValues(c.regs, Final(u).regs, lm.p.args, d.env)
    ensures Mirrors(u, lm, c, d)
  {
    BlockStart(u, b);
    BlockNonempty(u, b);
  }

  lemma JumpFollows(u: Subject, m: IrMachine.Machine, lm: L.Machine, i: Instr, s: Low, t: Low, c: IrMachine.Config,
                    d: L.Config)
      returns (k: nat)
    requires Pair(u, m, lm) && Mirrors(u, lm, c, d) && i == u.code[c.block].instrs[c.pc] && IsTerminator(i) && Shaped(i)
    requires s == Within(u, c.block, c.pc) && t == LowerJump(i, Consts(u), s) && Settled(Final(u).regs, i, s, t) &&
      Ahead(lm, t)
    requires !IrMachine.ExecJump(m.p, i, c).Stuck?
    ensures Agrees(u, lm, IrMachine.ExecJump(m.p, i, c), L.Run(lm, d, k))
    ensures k > 0
  {
    k := 1;
    var fin := Final(u).regs;
    var c' := IrMachine.ExecJump(m.p, i, c);
    AtOk(u, |u.code|);
    match i.op
    case Ret =>
      if i.operands != [] {
        ReturnsValueAt(u.code, c.block, c.pc);
      }
      ReturnFollows(fin, lm, i, Consts(u), s, t, m.p, c, d);
    case Branch =>
      var b := TargetsFound(u, c.block, c.pc, i.tag);
      BlockMapFinds(u.code, i.tag);
      BranchFollows(lm, i, Consts(u), s, t, d, b);
      JumpMirrors(u, lm, c', L.Run(lm, d, 1), b);
    case CondBranch =>
      k := 2;
      var (x, y) := SplitTargets(i.tag).value;
      var a := TargetsFound(u, c.block, c.pc, x);
      var b := TargetsFound(u, c.block, c.pc, y);
      BlockMapFinds(u.code, x);
      BlockMapFinds(u.code, y);
      CondBranchFollows(fin, lm, i, Consts(u), s, t, c, d, a, b);
      JumpMirrors(u, lm, c', L.Run(lm, d, 2), if IrMachine.NumIn(c, i.operands[0]).value != 0 then a else b);
  }

  lemma ExecNext(p: IrMachine.Program, i: Instr, c: IrMachine.Config)
    requires c.Running? && !IsTerminator(i)
    ensures var c' := IrMachine.Exec(p, i, c);
            && (c'.Running? ==> c'.block == c.block && c'.pc == c.pc + 1)
            && !c'.Halted?
  {
  }

  // An instruction that is not a terminator.
  lemma StraightFollows(u: Subject, m: IrMachine.Machine, lm: L.Machine, i: Instr, s: Low, t: Low, c: IrMachine.Config,
                        d: L.Config)
      returns (k: nat)
    requires Pair(u, m, lm) && Mirrors(u, lm, c, d) && i == u.code[c.block].instrs[c.pc] && !IsTerminator(i)
    requires c.pc + 1 < |u.code[c.block].instrs|
    requires s == Within(u, c.block, c.pc) && t == Within(u, c.block, c.pc + 1) && t == LowerInstr(i, Consts(u), s)
    requires Settled(Final(u).regs, i, s, t) && Ahead(lm, t) && Shaped(i)
    requires i.op.Call? ==> i.tag !in {"exit", "escape", "wait"}
    requires !IrMachine.Exec(m.p, i, c).Stuck?
    ensures var c' := IrMachine.Exec(m.p, i, c);
            && Agrees(u, lm, c', L.Run(lm, d, k))
            && (c'.Running? ==> c'.pc == c.pc + 1)
  {
    FreshDest(u, c.block, c.pc);
    k := InstrFollows(Final(u).regs, m.p, lm, i, Consts(u), s, t, c, d);
    ExecNext(m.p, i, c);
  }

  // One step of the representation is some steps of the target, at least one unless only
  // the position in the block moves.
  lemma StepFollows(u: Subject, m: IrMachine.Machine, lm: L.Machine, c: IrMachine.Config, d: L.Config) returns (k: nat)
    requires Pair(u, m, lm) && Mirrors(u, lm, c, d) && !IrMachine.Step(m.p, c).Stuck?
    ensures var c' := IrMachine.Step(m.p, c);
            && Agrees(u, lm, c', L.Run(lm, d, k))
            && (c'.Running? ==> k > 0 || c'.pc == c.pc + 1)
  {
    var i := u.code[c.block].instrs[c.pc];
    var s, t := Within(u, c.block, c.pc), Within(u, c.block, c.pc + 1);
    SettledAt(u, c.block, c.pc);
    FitsAt(u, c.block, c.pc);
    if IsTerminator(i) {
      k := JumpFollows(u, m, lm, i, s, t, c, d);
    } else {
      k := StraightFollows(u, m, lm, i, s, t, c, d);
    }
  }

  // The destination has no value before, and none later unless it gets one here.
  lemma FreshDest(u: Subject, b: nat, k: nat)
    requires Sound(u) && b < |u.code| && k < |u.code[b].instrs| && !IsTerminator(u.code[b].instrs[k])
    ensures var i := u.code[b].instrs[k];
            i.dest in Final(u).regs ==> i.dest in Within(u, b, k + 1).regs && i.dest !in Within(u, b, k).regs
  {
    var i := u.code[b].instrs[k];
    var instrs := u.code[b].instrs;
    FitsAt(u, b, k);
    WithinOk(u, b, k);
    FinalLater(u, b, k + 1);
    AtOk(u, |u.code|);
    assert instrs[..k + 1][..k] == instrs[..k] && instrs[..k + 1][k] == i;
  }

  function Longest(code: seq<BasicBlock>): (n: nat)
    ensures forall b :: b in code ==> |b.instrs| <= n
  {
    if code == [] then 0
    else
      var n := Longest(code[1..]);
      assert code == [code[0]] + code[1..];
      if |code[0].instrs| > n then |code[0].instrs| else n
  }

  lemma StartsMirrored(u: Subject, m: IrMachine.Machine, lm: L.Machine)
    requires Pair(u, m, lm)
    ensures Mirrors(u, lm, IrMachine.START, L.START)
  {
    JumpMirrors(u, lm, IrMachine.START, L.START, 0);
  }

  // How many steps k blocks can take.
  function Budget(k: nat, longest: nat): nat {
    if k == 0 then 0 else Budget(k - 1, longest) + longest + 1
  }

  lemma {:induction false} BudgetGrows(k: nat, j: nat, longest: nat)
    ensures Budget(k + j, longest) >= Budget(k, longest)
    ensures j > 0 ==> Budget(k + j, longest) >= Budget(k, longest) + longest + 1
    decreases j
  {
    if j > 0 {
      BudgetGrows(k, j - 1, longest);
    }
  }

  // Two machines and a relation that every step of the first keeps.
  datatype Link = Link(m: IrMachine.Machine, lm: L.Machine, longest: nat,
                       ghost rel: (IrMachine.Config, L.Config) -> bool)

  ghost predicate Along(l: Link, c: IrMachine.Config, d: L.Config, k: nat) {
    var c' := IrMachine.Step(l.m.p, c);
    l.rel(c', L.Run(l.lm, d, k)) && (c'.Running? && c.Running? ==> k > 0 || c'.pc == c.pc + 1)
  }

  ghost predicate Simulates(l: Link) {
    && l.rel(IrMachine.START, L.START)
    && (forall c, d :: l.rel(c, d) && c.Running? ==> d.Running? && c.pc < l.longest)
    && forall c, d :: l.rel(c, d) && c.Running? && !IrMachine.Step(l.m.p, c).Stuck? ==>
      exists k: nat :: Along(l, c, d, k)
  }

  // A run of any length is followed, and the target keeps running with it: it cannot fall
  // behind by more than the length of a block per step of its own.
  lemma {:induction false} RunFollows(l: Link, n: nat) returns (k: nat)
    requires Simulates(l) && !IrMachine.Run(l.m, IrMachine.START, n).Stuck?
    ensures var c := IrMachine.Run(l.m, IrMachine.START, n);
            && l.rel(c, L.Run(l.lm, L.START, k))
            && (c.Running? ==> c.pc < l.longest && Budget(k, l.longest) + c.pc >= n)
    decreases n
  {
    if n == 0 {
      k := 0;
    } else {
      var c := IrMachine.Run(l.m, IrMachine.START, n - 1);
      IrMachine.RunAdd(l.m, IrMachine.START, n - 1, 1);
      IrMachine.OneStep(l.m, c);
      k := RunFollows(l, n - 1);
      if c.Running? {
        var d := L.Run(l.lm, L.START, k);
        assert l.rel(c, d);
        var j: nat :| Along(l, c, d, j);
        L.RunAdd(l.lm, L.START, k, j);
        BudgetGrows(k, j, l.longest);
        k := k + j;
      }
    }
  }

  // A run that never ends is followed by one that never ends.
  lemma NeverEnds(l: Link, k: nat)
    requires Simulates(l) && forall n: nat :: IrMachine.Run(l.m, IrMachine.START, n).Running?
    ensures L.Run(l.lm, L.START, k).Running?
  {
    var n := Budget(k, l.longest) + l.longest;
    assert IrMachine.Run(l.m, IrMachine.START, n).Running?;
    var j := RunFollows(l, n);
    if j < k {
      BudgetGrows(j, k - j, l.longest);
    }
    if !L.Run(l.lm, L.START, k).Running? {
      L.EndedAt(l.lm, L.START, k, j);
    }
  }

  ghost function LinkOf(u: Subject, m: IrMachine.Machine, lm: L.Machine): Link {
    Link(m, lm, Longest(u.code), (c, d) => Agrees(u, lm, c, d))
  }

  lemma LoweringSimulates(u: Subject, m: IrMachine.Machine, lm: L.Machine)
    requires Pair(u, m, lm)
    ensures Simulates(LinkOf(u, m, lm))
  {
    var l := LinkOf(u, m, lm);
    StartsMirrored(u, m, lm);
    forall c, d | l.rel(c, d) && c.Running? ensures d.Running? && c.pc < l.longest {
      assert u.code[c.block] in u.code;
    }
    forall c, d | l.rel(c, d) && c.Running? && !IrMachine.Step(l.m.p, c).Stuck?
      ensures exists k: nat :: Along(l, c, d, k)
    {
      assert Agrees(u, lm, c, d);
      var k := StepFollows(u, m, lm, c, d);
      assert Along(l, c, d, k);
    }
  }

  // From source functions to the target.

  // exit, escape and wait do not occur, and no use is made of the results of print, of
  // println and of the callees in `voids`.
  predicate Lowerable(f: FunctionDecl, voids: set<string>) {
    HeardFunction(f, Rules(voids + {"print", "println"}, {"exit", "escape", "wait"}, 2 * |f.params|, false))
  }

  ghost function Compiled(f: FunctionDecl, voids: set<string>, args: seq<int>, w: World): L.Machine {
    L.Boot(L.Program(Lower(GenFunction(f), voids).lowered, args, w))
  }

  lemma SubjectOf(f: FunctionDecl, voids: set<string>) returns (u: Subject)
    requires OkFunction(f) && Lowerable(f, voids)
    ensures Sound(u) && u.code == GenFunction(f) && u.voids == voids && Final(u) == Lower(GenFunction(f), voids)
    ensures u.code != []
  {
    var rules := Rules(voids + {"print", "println"}, {"exit", "escape", "wait"}, 2 * |f.params|, false);
    FragmentTraced(f);
    var din := FunctionFlow(f, rules);
    u := Subject(GenFunction(f), voids, din, rules);
    UniquelyNamed(f);
    BlocksAreClosed(f);
    assert u.code[..|u.code|] == u.code;
  }

  lemma UniquelyNamed(f: FunctionDecl)
    requires OkFunction(f)
    ensures UniqueNames(GenFunction(f))
  {
    FunctionShape(f);
  }

  // How the target ends when the source function ends with r. A function that returns
  // values somewhere must not end without one, and arithmetic must not trap.
  ghost predicate TargetEnds(f: FunctionDecl, r: StmtResult, d: L.Config) {
    match r
    case Returned(v, t) => d == if v.Some? || !ReturnsValue(GenFunction(f)) then L.Halted(v, t) else L.Undefined
    case Trapped(t) => d == L.Trapped(t) || d == L.Undefined
    case _ => false
  }

  lemma PairOf(f: FunctionDecl, voids: set<string>, args: seq<int>, w: World) returns (u: Subject)
    requires OkFunction(f) && Lowerable(f, voids)
    ensures u.code == GenFunction(f) && Pair(u, Loading(f, args, w), Compiled(f, voids, args, w))
    ensures Simulates(LinkOf(u, Loading(f, args, w), Compiled(f, voids, args, w)))
  {
    u := SubjectOf(f, voids);
    LoweringSimulates(u, Loading(f, args, w), Compiled(f, voids, args, w));
  }

  lemma CompiledForward(f: FunctionDecl, voids: set<string>, args: seq<int>, w: World, fuel: nat) returns (k: nat)
    requires OkFunction(f) && Lowerable(f, voids) && |args| == |f.params|
    requires !EvalFunction(f, args, w, fuel).OutOfFuel?
    ensures TargetEnds(f, EvalFunction(f, args, w, fuel), L.Run(Compiled(f, voids, args, w), L.START, k))
  {
    var m, lm := Loading(f, args, w), Compiled(f, voids, args, w);
    var u := PairOf(f, voids, args, w);
    var n := Forward(f, args, w, fuel);
    k := RunFollows(LinkOf(u, m, lm), n);
    assert Agrees(u, lm, IrMachine.Run(m, IrMachine.START, n), L.Run(lm, L.START, k));
  }

  lemma CompiledDiverges(f: FunctionDecl, voids: set<string>, args: seq<int>, w: World, k: nat)
    requires OkFunction(f) && Lowerable(f, voids) && |args| == |f.params|
    requires forall fuel: nat :: EvalFunction(f, args, w, fuel).OutOfFuel?
    ensures L.Run(Compiled(f, voids, args, w), L.START, k).Running?
  {
    var u := PairOf(f, voids, args, w);
    LoweringPreservesDivergence(f, args, w);
    NeverEnds(LinkOf(u, Loading(f, args, w), Compiled(f, voids, args, w)), k);
  }

  ghost predicate TargetReaches(m: L.Machine, d: L.Config) {
    exists k: nat :: L.Run(m, L.START, k) == d
  }

  // Compiled code returns v after a history of calls exactly when the source function does;
  // for a return without a value the function must have no return with one.
  lemma CompilationPreservesReturns(f: FunctionDecl, voids: set<string>, args: seq<int>, w: World, v: Option<int>,
                                    t: Trace)
    requires OkFunction(f) && Lowerable(f, voids) && |args| == |f.params|
    requires v.Some? || !ReturnsValue(GenFunction(f))
    ensures TargetReaches(Compiled(f, voids, args, w), L.Halted(v, t)) <==> Evaluates(f, args, w, Returned(v, t))
  {
    var lm := Compiled(f, voids, args, w);
    if Evaluates(f, args, w, Returned(v, t)) {
      var fuel: nat :| EvalFunction(f, args, w, fuel) == Returned(v, t);
      var k := CompiledForward(f, voids, args, w, fuel);
      assert L.Run(lm, L.START, k) == L.Halted(v, t);
    }
    if TargetReaches(lm, L.Halted(v, t)) {
      var k: nat :| L.Run(lm, L.START, k) == L.Halted(v, t);
      if forall fuel: nat :: EvalFunction(f, args, w, fuel).OutOfFuel? {
        CompiledDiverges(f, voids, args, w, k);
        assert false;
      }
      var fuel: nat :| !EvalFunction(f, args, w, fuel).OutOfFuel?;
      var j := CompiledForward(f, voids, args, w, fuel);
      L.SameEnd(lm, L.START, k, j);
      assert EvalFunction(f, args, w, fuel) == Returned(v, t);
    }
  }

  ghost predicate TargetRunsOn(m: L.Machine) {
    forall k: nat :: L.Run(m, L.START, k).Running?
  }

  // It runs forever exactly when the source function does.
  lemma CompilationPreservesDivergence(f: FunctionDecl, voids: set<string>, args: seq<int>, w: World)
    requires OkFunction(f) && Lowerable(f, voids) && |args| == |f.params|
    ensures TargetRunsOn(Compiled(f, voids, args, w)) <==> forall fuel: nat :: EvalFunction(f, args, w, fuel).OutOfFuel?
  {
    var lm := Compiled(f, voids, args, w);
    if exists fuel: nat :: !EvalFunction(f, args, w, fuel).OutOfFuel? {
      var fuel: nat :| !EvalFunction(f, args, w, fuel).OutOfFuel?;
      var k := CompiledForward(f, voids, args, w, fuel);
      assert !L.Run(lm, L.START, k).Running?;
    } else {
      forall k: nat ensures L.Run(lm, L.START, k).Running? {
        CompiledDiverges(f, voids, args, w, k);
      }
    }
  }
}
