// The states the lowering of a generated function goes through, instruction by instruction.
module LoweringStates {
  import opened Common
  import opened Ir
  import opened Cfg
  import opened CfgNames
  import opened Dataflow
  import opened Numbering
  import opened Dominance
  import opened Lowering
  import opened LoweringFrame
  import Llvm
  import IrMachine

  // A function together with the certificate for it and the names of the callees known to
  // return nothing.
  datatype Subject = Subject(code: seq<BasicBlock>, voids: set<string>, ghost din: Arrivals, rules: Rules)

  ghost predicate Sound(u: Subject) {
    && UniqueNames(u.code) && ClosedTowards(u.code, Names(u.code))
    && Chain(u.code, u.din, u.rules)
    && u.rules.silent == u.voids + {"print", "println"}
    && u.rules.banned == {"exit", "escape", "wait"} && !u.rules.wide
  }

  function Consts(u: Subject): Fixed {
    FixedFor(u.code, u.voids)
  }

  // Before block b.
  function At(u: Subject, b: nat): Low
    requires b <= |u.code|
  {
    LowerBlocks(u.code[..b], Consts(u), Begin(u.code))
  }

  // After the first i instructions of block b.
  function Within(u: Subject, b: nat, i: nat): Low
    requires b < |u.code| && i <= |u.code[b].instrs|
  {
    LowerCode(u.code[b].instrs[..i], Consts(u), Enter(u.code[b], Consts(u), At(u, b)))
  }

  function Final(u: Subject): Low {
    At(u, |u.code|)
  }

  // The map of target blocks answers as a search for the last block of a name does.
  lemma {:induction false} BlockMapFinds(code: seq<BasicBlock>, n: string)
    ensures n in BlockMap(code) <==> IrMachine.FindBlock(code, n).Some?
    ensures n in BlockMap(code) ==> IrMachine.FindBlock(code, n) == Some(BlockMap(code)[n])
  {
    if code != [] {
      BlockMapFinds(code[..|code| - 1], n);
    }
  }

  lemma BlockNumber(u: Subject, b: nat)
    requires Sound(u) && b < |u.code|
    ensures u.code[b].name in Consts(u).blocks && Consts(u).blocks[u.code[b].name] == b
  {
    BlockMapFinds(u.code, u.code[b].name);
    IrMachine.FindUnique(u.code, b);
  }

  ghost predicate Bounds(regs: map<RegID, Llvm.Value>, n: nat, given: set<RegID>) {
    (forall r :: r in regs ==> 1 <= r <= n) && given <= regs.Keys
  }

  // A value that does not come from an instruction yet to be emitted.
  ghost predicate Old(v: Llvm.Value, s: Low) {
    v.Inst? ==> v.id < s.next
  }

  ghost predicate AllOld(s: Low) {
    forall r :: r in s.regs ==> Old(s.regs[r], s)
  }

  // Nothing has been lowered from block b on.
  ghost predicate Untouched(s: Low, b: nat, size: nat) {
    |s.lowered| == size && forall k :: b <= k < size ==> s.lowered[k] == []
  }

  lemma JumpEmits(i: Instr, f: Fixed, s: Low)
    requires s.cur < |s.lowered| && IsTerminator(i)
    ensures Emits(s, LowerJump(i, f, s).(failed := s.failed)) && LowerJump(i, f, s).regs == s.regs
  {
    if i.op.CondBranch? {
      CondBranchEmits(i, f, s);
    } else if i.op.Ret? {
      RetEmits(i, f, s);
    }
  }

  lemma RetEmits(i: Instr, f: Fixed, s: Low)
    requires s.cur < |s.lowered| && i.op.Ret?
    ensures Emits(s, LowerJump(i, f, s)) && LowerJump(i, f, s).failed == s.failed
  {
    if i.operands != [] {
      ResolveStraight(i.operands[0], s);
    }
  }

  lemma CondBranchEmits(i: Instr, f: Fixed, s: Low)
    requires s.cur < |s.lowered| && i.op.CondBranch?
    ensures Emits(s, LowerJump(i, f, s).(failed := s.failed)) && LowerJump(i, f, s).regs == s.regs
  {
    if i.operands != [] {
      var a := Resolve(i.operands[0], s);
      ResolveStraight(i.operands[0], s);
      ToI1Straight(a.v, a.s);
      StraightTrans(s, a.s, ToI1(a.v, a.s).s);
    }
  }

  // What is known after i instructions of block b.
  ghost predicate Progress(u: Subject, b: nat, i: nat, s: Low)
    requires b < |u.code| && i <= |u.code[b].instrs|
  {
    && s.cur == b && Untouched(s, b + 1, |u.code|) && AllOld(s)
    && Bounds(s.regs, Top(u.code[b].instrs[..i], TopIn(u.code[..b])),
              GivenIn(u.code[..b], u.rules.silent) + Given(u.code[b].instrs[..i], u.rules.silent))
    && (i < |u.code[b].instrs| ==> !Ended(s))
  }

  ghost predicate AtBlock(u: Subject, b: nat, s: Low)
    requires b <= |u.code|
  {
    Untouched(s, b, |u.code|) && AllOld(s) && Bounds(s.regs, TopIn(u.code[..b]), GivenIn(u.code[..b], u.rules.silent))
  }

  lemma LeaveKeeps(f: Fixed, s: Low)
    ensures var t := Leave(f, s);
            && t.regs == s.regs && t.next == s.next && |t.lowered| == |s.lowered|
            && (s.cur < |s.lowered| ==> s.lowered[s.cur] <= t.lowered[s.cur])
            && forall k :: 0 <= k < |s.lowered| && k != s.cur ==> t.lowered[k] == s.lowered[k]
  {
  }

  lemma LeftBlock(u: Subject, b: nat, s: Low)
    requires b < |u.code| && Progress(u, b, |u.code[b].instrs|, s)
    ensures AtBlock(u, b + 1, Leave(Consts(u), s))
  {
    var instrs := u.code[b].instrs;
    assert instrs[..|instrs|] == instrs;
    assert u.code[..b + 1][..b] == u.code[..b];
    LeaveKeeps(Consts(u), s);
  }

  lemma AfterBlock(u: Subject, b: nat)
    requires b < |u.code|
    ensures At(u, b + 1) == Leave(Consts(u), Within(u, b, |u.code[b].instrs|))
  {
    var instrs := u.code[b].instrs;
    assert instrs[..|instrs|] == instrs;
    assert u.code[..b + 1][..b] == u.code[..b];
  }

  lemma AtStart(u: Subject)
    ensures AtBlock(u, 0, At(u, 0))
  {
    assert u.code[..0] == [];
  }

  lemma {:induction false} AtOk(u: Subject, b: nat)
    requires Sound(u) && b <= |u.code|
    ensures AtBlock(u, b, At(u, b))
    decreases b, 0
  {
    if b == 0 {
      AtStart(u);
    } else {
      AtNext(u, b - 1);
    }
  }

  lemma {:induction false} AtNext(u: Subject, b: nat)
    requires Sound(u) && b < |u.code|
    ensures AtBlock(u, b + 1, At(u, b + 1))
    decreases b, 2 + |u.code[b].instrs|
  {
    var s := Within(u, b, |u.code[b].instrs|);
    WithinOk(u, b, |u.code[b].instrs|);
    AfterBlock(u, b);
    LeftBlock(u, b, s);
  }

  lemma FitsAt(u: Subject, b: nat, i: nat)
    requires Sound(u) && b < |u.code| && i < |u.code[b].instrs|
    ensures var avail := GivenIn(u.code[..b], u.rules.silent) + Given(u.code[b].instrs[..i], u.rules.silent);
            Fits(u.code[b].instrs[i], Top(u.code[b].instrs[..i], TopIn(u.code[..b])), avail, u.rules)
    ensures IsTerminator(u.code[b].instrs[i]) <==> i == |u.code[b].instrs| - 1
  {
    ChainAt(u.code, u.din, u.rules, b);
    InOrderAt(u.code[b].instrs, TopIn(u.code[..b]), u.din[u.code[b].name], u.rules, i);
    assert IsClosed(u.code[b].instrs);
    OneTerminator(u.code[b].instrs, i);
    FitsMore(u.code[b].instrs[i], Top(u.code[b].instrs[..i], TopIn(u.code[..b])),
             u.din[u.code[b].name] + Given(u.code[b].instrs[..i], u.rules.silent),
             GivenIn(u.code[..b], u.rules.silent) + Given(u.code[b].instrs[..i], u.rules.silent), u.rules);
  }

  lemma FitsMore(i: Instr, n: nat, avail: set<RegID>, more: set<RegID>, rules: Rules)
    requires Fits(i, n, avail, rules) && avail <= more
    ensures Fits(i, n, more, rules)
  {
  }

  lemma OneTerminator(code: seq<Instr>, i: nat)
    requires IsClosed(code) && i < |code|
    ensures IsTerminator(code[i]) <==> i == |code| - 1
  {
    if i < |code| - 1 {
      assert code[..|code| - 1][i] == code[i];
    }
  }

  lemma Entered(u: Subject, b: nat)
    requires Sound(u) && b < |u.code| && AtBlock(u, b, At(u, b))
    ensures Progress(u, b, 0, Within(u, b, 0))
  {
    BlockNumber(u, b);
  }

  lemma {:induction false} WithinOk(u: Subject, b: nat, i: nat)
    requires Sound(u) && b < |u.code| && i <= |u.code[b].instrs|
    ensures Progress(u, b, i, Within(u, b, i))
    decreases b, 1 + i
  {
    if i == 0 {
      AtOk(u, b);
      Entered(u, b);
    } else {
      WithinOk(u, b, i - 1);
      NextState(u, b, i - 1, Within(u, b, i - 1));
      NextProgress(u, b, i - 1, Within(u, b, i - 1));
    }
  }

  // The next instruction is lowered.
  lemma NextState(u: Subject, b: nat, i: nat, s: Low)
    requires b < |u.code| && i < |u.code[b].instrs| && s == Within(u, b, i) && !Ended(s)
    ensures Within(u, b, i + 1) == LowerInstr(u.code[b].instrs[i], Consts(u), s)
  {
    var instrs := u.code[b].instrs;
    assert instrs[..i + 1][..i] == instrs[..i];
  }

  lemma NextProgress(u: Subject, b: nat, i: nat, s: Low)
    requires Sound(u) && b < |u.code| && i < |u.code[b].instrs| && Progress(u, b, i, s)
    ensures Progress(u, b, i + 1, LowerInstr(u.code[b].instrs[i], Consts(u), s))
  {
    var instr := u.code[b].instrs[i];
    var instrs := u.code[b].instrs;
    FitsAt(u, b, i);
    assert instrs[..i + 1][..i] == instrs[..i] && instrs[..i + 1][i] == instr;
    var n := Top(instrs[..i], TopIn(u.code[..b]));
    var given := GivenIn(u.code[..b], u.rules.silent) + Given(instrs[..i], u.rules.silent);
    NextRegs(instr, u, n, given, s);
  }

  // What is known of the registers and the blocks after one more instruction.
  ghost predicate Advances(i: Instr, n: nat, given: set<RegID>, silent: set<string>, s: Low, t: Low) {
    && t.cur == s.cur && |t.lowered| == |s.lowered| && AllOld(t)
    && (forall k :: 0 <= k < |s.lowered| && k != s.cur ==> t.lowered[k] == s.lowered[k])
    && Bounds(t.regs, if i.dest != NO_REG then i.dest else n, given + if Yields(i, silent) then {i.dest} else {})
    && (!IsTerminator(i) ==> !Ended(t))
  }

  lemma NextRegs(i: Instr, u: Subject, n: nat, given: set<RegID>, s: Low)
    requires Bounds(s.regs, n, given) && AllOld(s) && Fits(i, n, given, u.rules) && s.cur < |s.lowered| && !Ended(s)
    requires u.rules.silent == u.voids + {"print", "println"} && u.rules.banned == {"exit", "escape", "wait"} &&
      !u.rules.wide
    ensures Advances(i, n, given, u.rules.silent, s, LowerInstr(i, Consts(u), s))
  {
    if IsTerminator(i) {
      JumpEmits(i, Consts(u), s);
    } else {
      var e := InstrLowers(i, Consts(u), s);
      EffectAdvances(i, n, given, u.rules, s, e, LowerInstr(i, Consts(u), s));
    }
  }

  lemma EffectAdvances(i: Instr, n: nat, given: set<RegID>, rules: Rules, s: Low, e: Effect, t: Low)
    requires Bounds(s.regs, n, given) && AllOld(s) && Fits(i, n, given, rules) && !Ended(s) && !IsTerminator(i)
    requires Lowers(i, s, e, t) && (Yields(i, rules.silent) ==> e.Sets?)
    ensures Advances(i, n, given, rules.silent, s, t)
  {
    assert Straight(s, if e.Nothing? then e.s else e.b.s);
  }

  // Registers keep their values, and those that get one later use later identifiers.
  ghost predicate Grew(s: Low, t: Low) {
    && s.next <= t.next && |t.lowered| == |s.lowered|
    && (forall r :: r in s.regs ==> r in t.regs && t.regs[r] == s.regs[r])
    && (forall r :: r in t.regs && r !in s.regs && t.regs[r].Inst? ==> s.next <= t.regs[r].id < t.next)
    && forall k :: 0 <= k < |s.lowered| ==> s.lowered[k] <= t.lowered[k]
  }

  lemma GrewTrans(s: Low, t: Low, u: Low)
    requires Grew(s, t) && Grew(t, u)
    ensures Grew(s, u)
  {
    forall r | r in u.regs && r !in s.regs && u.regs[r].Inst?
      ensures s.next <= u.regs[r].id < u.next
    {
      if r in t.regs {
        assert u.regs[r] == t.regs[r];
      }
    }
    forall k | 0 <= k < |s.lowered| ensures s.lowered[k] <= u.lowered[k] {
      assert s.lowered[k] <= t.lowered[k] <= u.lowered[k];
    }
  }

  lemma InstrGrew(u: Subject, b: nat, i: nat, s: Low)
    requires Sound(u) && b < |u.code| && i < |u.code[b].instrs| && Progress(u, b, i, s)
    ensures Grew(s, LowerInstr(u.code[b].instrs[i], Consts(u), s))
  {
    var instr := u.code[b].instrs[i];
    FitsAt(u, b, i);
    if IsTerminator(instr) {
      JumpEmits(instr, Consts(u), s);
    } else {
      var e := InstrLowers(instr, Consts(u), s);
      var t := if e.Nothing? then e.s else e.b.s;
      assert Straight(s, t);
    }
  }

  lemma NextGrew(u: Subject, b: nat, i: nat)
    requires Sound(u) && b < |u.code| && i < |u.code[b].instrs|
    ensures Grew(Within(u, b, i), Within(u, b, i + 1))
  {
    WithinOk(u, b, i);
    NextState(u, b, i, Within(u, b, i));
    InstrGrew(u, b, i, Within(u, b, i));
  }

  // Leaving a block.
  lemma BlockGrew(u: Subject, b: nat)
    requires Sound(u) && b < |u.code|
    ensures Grew(Within(u, b, |u.code[b].instrs|), At(u, b + 1))
  {
    var instrs := u.code[b].instrs;
    assert instrs[..|instrs|] == instrs && u.code[..b + 1][..b] == u.code[..b];
    WithinOk(u, b, |instrs|);
    AfterBlock(u, b);
    LeaveKeeps(Consts(u), Within(u, b, |instrs|));
  }

  // To the end of the block.
  lemma {:induction false} RestGrew(u: Subject, b: nat, i: nat)
    requires Sound(u) && b < |u.code| && i <= |u.code[b].instrs|
    ensures Grew(Within(u, b, i), At(u, b + 1))
    decreases |u.code[b].instrs| - i
  {
    if i == |u.code[b].instrs| {
      BlockGrew(u, b);
    } else {
      NextGrew(u, b, i);
      RestGrew(u, b, i + 1);
      GrewTrans(Within(u, b, i), Within(u, b, i + 1), At(u, b + 1));
    }
  }

  lemma EnterGrew(u: Subject, b: nat)
    requires Sound(u) && b < |u.code|
    ensures Grew(At(u, b), Within(u, b, 0))
  {
    BlockNumber(u, b);
    AtOk(u, b);
    assert u.code[b].instrs[..0] == [];
  }

  lemma {:induction false} AtGrew(u: Subject, b: nat)
    requires Sound(u) && b <= |u.code|
    ensures Grew(At(u, b), Final(u))
    decreases |u.code| - b
  {
    if b < |u.code| {
      EnterGrew(u, b);
      RestGrew(u, b, 0);
      AtGrew(u, b + 1);
      GrewTrans(At(u, b), Within(u, b, 0), At(u, b + 1));
      GrewTrans(At(u, b), At(u, b + 1), Final(u));
    }
  }

  lemma FinalGrew(u: Subject, b: nat, i: nat)
    requires Sound(u) && b < |u.code| && i <= |u.code[b].instrs|
    ensures Grew(Within(u, b, i), Final(u))
  {
    RestGrew(u, b, i);
    AtGrew(u, b + 1);
    GrewTrans(Within(u, b, i), At(u, b + 1), Final(u));
  }

  // Registers that get a value later have later numbers.
  ghost predicate Later(s: Low, t: Low, n: nat) {
    forall r :: r in t.regs && r !in s.regs ==> r > n
  }

  // The highest register before an instruction and after it.
  lemma TopNext(code: seq<Instr>, i: nat, n: nat)
    requires i < |code|
    ensures Top(code[..i + 1], n) == if code[i].dest != NO_REG then code[i].dest else Top(code[..i], n)
  {
    assert code[..i + 1][..i] == code[..i];
  }

  lemma {:induction false} FinalLater(u: Subject, b: nat, i: nat)
    requires Sound(u) && b < |u.code| && i <= |u.code[b].instrs|
    ensures Later(Within(u, b, i), Final(u), Top(u.code[b].instrs[..i], TopIn(u.code[..b])))
    decreases |u.code| - b, 1, |u.code[b].instrs| - i
  {
    var instrs, n := u.code[b].instrs, TopIn(u.code[..b]);
    if i < |instrs| {
      FinalLater(u, b, i + 1);
      TopNext(instrs, i, n);
      LaterStep(u, b, i, Within(u, b, i), Within(u, b, i + 1), Top(instrs[..i], n));
    } else {
      AtLater(u, b + 1);
      LaterAtEnd(u, b);
    }
  }

  lemma LaterAtEnd(u: Subject, b: nat)
    requires Sound(u) && b < |u.code| && Later(At(u, b + 1), Final(u), TopIn(u.code[..b + 1]))
    ensures var i := |u.code[b].instrs|;
            Later(Within(u, b, i), Final(u), Top(u.code[b].instrs[..i], TopIn(u.code[..b])))
  {
    var instrs := u.code[b].instrs;
    assert instrs[..|instrs|] == instrs && u.code[..b + 1][..b] == u.code[..b];
    WithinOk(u, b, |instrs|);
    AfterBlock(u, b);
    LeaveKeeps(Consts(u), Within(u, b, |instrs|));
  }

  lemma LaterStep(u: Subject, b: nat, i: nat, s: Low, t: Low, n: nat)
    requires Sound(u) && b < |u.code| && i < |u.code[b].instrs| && s == Within(u, b, i) && t == Within(u, b, i + 1)
    requires n == Top(u.code[b].instrs[..i], TopIn(u.code[..b]))
    requires Later(t, Final(u), if u.code[b].instrs[i].dest != NO_REG then u.code[b].instrs[i].dest else n)
    ensures Later(s, Final(u), n)
  {
    WithinOk(u, b, i);
    NextState(u, b, i, s);
    FitsAt(u, b, i);
    OnlyDest(u.code[b].instrs[i], u, s);
    WithinOk(u, b, i + 1);
    LaterNext(s, t, Final(u), u.code[b].instrs[i].dest, n);
  }

  lemma LaterNext(s: Low, t: Low, fin: Low, dest: RegID, n: nat)
    requires forall r :: r in t.regs && r != dest ==> r in s.regs
    requires dest in t.regs ==> dest != NO_REG
    requires dest == NO_REG || dest == n + 1
    requires Later(t, fin, if dest != NO_REG then dest else n)
    ensures Later(s, fin, n)
  {
    forall r | r in fin.regs && r !in s.regs ensures r > n {
      if r in t.regs {
        assert r == dest;
      }
    }
  }

  lemma {:induction false} AtLater(u: Subject, b: nat)
    requires Sound(u) && b <= |u.code|
    ensures Later(At(u, b), Final(u), TopIn(u.code[..b]))
    decreases |u.code| - b, 2
  {
    if b < |u.code| {
      assert u.code[b].instrs[..0] == [];
      FinalLater(u, b, 0);
    }
  }

  // Nothing but the destination gets a value.
  lemma OnlyDest(i: Instr, u: Subject, s: Low)
    requires s.cur < |s.lowered| && Shaped(i) && (i.op.Call? ==> i.tag !in {"exit", "escape", "wait"})
    ensures forall r :: r in LowerInstr(i, Consts(u), s).regs && r != i.dest ==> r in s.regs
    ensures forall r :: r in s.regs ==> r in LowerInstr(i, Consts(u), s).regs
  {
    if IsTerminator(i) {
      JumpEmits(i, Consts(u), s);
    } else {
      var e := InstrLowers(i, Consts(u), s);
      assert Straight(s, if e.Nothing? then e.s else e.b.s);
    }
  }

  // Lowering never falls back to an undefined value for a register that is used, and never
  // fails to find a branch target.

  // A register an instruction uses has its final value by the time it is lowered.
  lemma UsesResolved(u: Subject, b: nat, i: nat, r: RegID)
    requires Sound(u) && b < |u.code| && i < |u.code[b].instrs| && Reg(r) in u.code[b].instrs[i].operands
    ensures r in Within(u, b, i).regs && r in Final(u).regs && Within(u, b, i).regs[r] == Final(u).regs[r]
  {
    FitsAt(u, b, i);
    WithinOk(u, b, i);
    FinalGrew(u, b, i);
    assert exists o :: o in u.code[b].instrs[i].operands && o.Reg? && o.reg == r;
  }

  lemma TargetsFound(u: Subject, b: nat, i: nat, n: string) returns (k: nat)
    requires Sound(u) && b < |u.code| && i < |u.code[b].instrs| && n in Targets(u.code[b].instrs[i])
    ensures k < |u.code| && u.code[k].name == n && n in Consts(u).blocks && Consts(u).blocks[n] == k
  {
    FitsAt(u, b, i);
    assert n in Names(u.code);
    k :| 0 <= k < |u.code| && u.code[k].name == n;
    BlockNumber(u, k);
  }
}
