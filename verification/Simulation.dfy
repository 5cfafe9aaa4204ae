// The machine state that corresponds to a source state while generated code runs.
module Simulation {
  import opened Common
  import opened Ir
  import opened Runtime
  import opened ScopeStack
  import opened Source
  import opened Codegen
  import opened CodegenFrame
  import opened IrMachine

  // The address of every variable, scope by scope.
  type Addrs = seq<map<string, nat>>

  // Variable x of scope i lives at address a.
  ghost predicate Lives(addrs: Addrs, i: int, x: string, a: nat) {
    0 <= i < |addrs| && x in addrs[i] && addrs[i][x] == a
  }

  ghost predicate Owns(addrs: Addrs, a: nat) {
    exists i, x :: Lives(addrs, i, x, a)
  }

  ghost predicate Apart(addrs: Addrs) {
    forall i, x, j, y, a :: Lives(addrs, i, x, a) && Lives(addrs, j, y, a) ==> i == j && x == y
  }

  ghost predicate Bound<T>(scopes: seq<map<string, T>>, i: int, x: string) {
    0 <= i < |scopes| && x in scopes[i]
  }

  // The cell at address a holds the value of variable x of scope i.
  ghost predicate Holds(scopes: Scopes, mem: seq<Option<int>>, i: int, x: string, a: nat) {
    Bound(scopes, i, x) && a < |mem| && mem[a] == Some(scopes[i][x])
  }

  // Every variable has a cell of its own holding its value.
  ghost predicate Synced(addrs: Addrs, scopes: Scopes, mem: seq<Option<int>>) {
    && |addrs| == |scopes| > 0
    && (forall i, x :: Bound(addrs, i, x) <==> Bound(scopes, i, x))
    && (forall i, x, a {:trigger Lives(addrs, i, x, a)} :: Lives(addrs, i, x, a) ==> Holds(scopes, mem, i, x, a))
    && Apart(addrs)
  }

  // The slot register of a live name holds the address of its innermost declaration.
  ghost predicate Linked(addrs: Addrs, slots: map<string, RegID>, regs: map<RegID, Val>, k: nat, live: set<string>) {
    forall x :: x in live ==>
      && x in slots && 1 <= slots[x] <= k && slots[x] in regs
      && Lookup(addrs, x).Some? && regs[slots[x]] == Ptr(Lookup(addrs, x).value)
  }

  // The machine is at the end of the code generated so far.
  ghost predicate At(g: Gen, c: Config, trace: Trace) {
    c.Running? && c.block == |g.done| && c.pc == |g.code| && c.trace == trace
  }

  // What code generated from register number k on leaves alone: earlier registers, and
  // cells that belong to no variable.
  ghost predicate Keeps(c: Config, d: Config, k: nat, addrs: Addrs)
    requires c.Running? && d.Running?
  {
    && (forall r :: r in c.regs && r <= k ==> r in d.regs && d.regs[r] == c.regs[r])
    && |c.mem| <= |d.mem|
    && (forall a :: 0 <= a < |c.mem| && !Owns(addrs, a) ==> d.mem[a] == c.mem[a])
  }

  lemma KeepsTrans(c: Config, d: Config, e: Config, k: nat, l: nat, addrs: Addrs)
    requires c.Running? && d.Running? && e.Running? && k <= l
    requires Keeps(c, d, k, addrs) && Keeps(d, e, l, addrs)
    ensures Keeps(c, e, k, addrs)
  {
  }

  lemma DepthSame<S, T>(a: seq<map<string, S>>, b: seq<map<string, T>>, x: string)
    requires |a| == |b| && forall i :: Bound(a, i, x) <==> Bound(b, i, x)
    ensures Depth(a, x) == Depth(b, x)
  {
    var d, e := Depth(a, x), Depth(b, x);
    assert Bound(a, d, x) <==> Bound(b, d, x);
    assert Bound(a, e, x) <==> Bound(b, e, x);
  }

  lemma LinkedKeeps(addrs: Addrs, slots: map<string, RegID>, c: Config, d: Config, k: nat, l: nat, live: set<string>)
    requires c.Running? && d.Running? && k <= l
    requires Linked(addrs, slots, c.regs, k, live) && Keeps(c, d, k, addrs)
    ensures Linked(addrs, slots, d.regs, l, live)
  {
  }

  lemma LinkedFewer(addrs: Addrs, slots: map<string, RegID>, regs: map<RegID, Val>, k: nat, live: set<string>,
                    slots': map<string, RegID>, fewer: set<string>)
    requires Linked(addrs, slots, regs, k, live) && fewer <= live
    requires forall x :: x in fewer && x in slots ==> x in slots' && slots'[x] == slots[x]
    ensures Linked(addrs, slots', regs, k, fewer)
  {
  }

  // Writing the cell of the innermost x is the assignment to x, and touches nothing else.
  lemma SyncedAssign(addrs: Addrs, scopes: Scopes, mem: seq<Option<int>>, x: string, v: int)
    requires Synced(addrs, scopes, mem) && Lookup(addrs, x).Some?
    ensures Depth(scopes, x) >= 0
    ensures Lookup(addrs, x).value < |mem|
    ensures Owns(addrs, Lookup(addrs, x).value)
    ensures Synced(addrs, Update(scopes, x, v), mem[Lookup(addrs, x).value := Some(v)])
  {
    DepthSame(addrs, scopes, x);
    var d := Depth(addrs, x);
    var a := addrs[d][x];
    assert Lives(addrs, d, x, a);
    var scopes' := Update(scopes, x, v);
    var mem' := mem[a := Some(v)];
    forall i, y ensures Bound(addrs, i, y) <==> Bound(scopes', i, y) {
      assert Bound(addrs, i, y) <==> Bound(scopes, i, y);
    }
    forall i, y, b | Lives(addrs, i, y, b) ensures Holds(scopes', mem', i, y, b) {
      assert Holds(scopes, mem, i, y, b);
    }
  }

  lemma SyncedLookup(addrs: Addrs, scopes: Scopes, mem: seq<Option<int>>, x: string)
    requires Synced(addrs, scopes, mem) && Lookup(addrs, x).Some?
    ensures Lookup(scopes, x).Some?
    ensures Lookup(addrs, x).value < |mem| && mem[Lookup(addrs, x).value] == Lookup(scopes, x)
  {
    DepthSame(addrs, scopes, x);
    assert Lives(addrs, Depth(addrs, x), x, Lookup(addrs, x).value);
  }

  // Cells outside the variables may change and memory may grow.
  lemma SyncedOther(addrs: Addrs, scopes: Scopes, mem: seq<Option<int>>, mem': seq<Option<int>>)
    requires Synced(addrs, scopes, mem) && |mem| <= |mem'|
    requires forall a :: 0 <= a < |mem| && Owns(addrs, a) ==> mem'[a] == mem[a]
    ensures Synced(addrs, scopes, mem')
  {
    forall i, x, a | Lives(addrs, i, x, a) ensures Holds(scopes, mem', i, x, a) {
      assert Holds(scopes, mem, i, x, a) && Owns(addrs, a);
    }
  }

  lemma ApartDeclare(addrs: Addrs, x: string, a: nat)
    requires Apart(addrs) && addrs != [] && !Owns(addrs, a)
    ensures Apart(Declare(addrs, x, a))
  {
    var d := |addrs| - 1;
    var addrs' := Declare(addrs, x, a);
    forall i, y, b | Lives(addrs', i, y, b)
      ensures if i == d && y == x then b == a else Lives(addrs, i, y, b)
    {
    }
  }

  // Declaring x in the innermost scope, with a cell that belongs to no variable.
  lemma SyncedDeclare(addrs: Addrs, scopes: Scopes, mem: seq<Option<int>>, x: string, a: nat, v: int)
    requires Synced(addrs, scopes, mem) && a < |mem| && !Owns(addrs, a) && mem[a] == Some(v)
    ensures Synced(Declare(addrs, x, a), Declare(scopes, x, v), mem)
  {
    var d := |addrs| - 1;
    var addrs' := Declare(addrs, x, a);
    var scopes' := Declare(scopes, x, v);
    forall i, y ensures Bound(addrs', i, y) <==> Bound(scopes', i, y) {
      assert Bound(addrs, i, y) <==> Bound(scopes, i, y);
    }
    forall i, y, b | Lives(addrs', i, y, b) ensures Holds(scopes', mem, i, y, b) {
      if !(i == d && y == x) {
        assert Lives(addrs, i, y, b) && Holds(scopes, mem, i, y, b);
      }
    }
    ApartDeclare(addrs, x, a);
  }

  lemma SyncedPush(addrs: Addrs, scopes: Scopes, mem: seq<Option<int>>)
    requires Synced(addrs, scopes, mem)
    ensures Synced(addrs + [map[]], scopes + [map[]], mem)
    ensures forall a :: Owns(addrs + [map[]], a) ==> Owns(addrs, a)
  {
    var addrs' := addrs + [map[]];
    var scopes' := scopes + [map[]];
    forall i, x ensures Bound(addrs', i, x) <==> Bound(scopes', i, x) {
      assert Bound(addrs, i, x) <==> Bound(scopes, i, x);
    }
    forall i, x, a | Lives(addrs', i, x, a) ensures Lives(addrs, i, x, a) && Holds(scopes', mem, i, x, a) {
      assert Lives(addrs, i, x, a) && Holds(scopes, mem, i, x, a);
    }
    forall a | Owns(addrs', a) ensures Owns(addrs, a) {
      var i, x :| Lives(addrs', i, x, a);
      assert Lives(addrs, i, x, a);
    }
  }

  lemma SyncedPop(addrs: Addrs, inner: Addrs, scopes: Scopes, mem: seq<Option<int>>)
    requires Synced(inner, scopes, mem) && |inner| == |addrs| + 1 && inner[..|addrs|] == addrs && addrs != []
    ensures Synced(addrs, scopes[..|scopes| - 1], mem)
  {
    var scopes' := scopes[..|scopes| - 1];
    forall i, x ensures Bound(addrs, i, x) <==> Bound(scopes', i, x) {
      if 0 <= i < |addrs| {
        assert inner[..|addrs|][i] == inner[i];
        assert Bound(inner, i, x) <==> Bound(scopes, i, x);
      }
    }
    forall i, x, a | Lives(addrs, i, x, a) ensures Lives(inner, i, x, a) && Holds(scopes', mem, i, x, a) {
      assert inner[..|addrs|][i] == inner[i];
      assert Lives(inner, i, x, a) && Holds(scopes, mem, i, x, a);
    }
  }

  lemma LookupPush(addrs: Addrs, x: string)
    ensures Lookup(addrs + [map[]], x) == Lookup(addrs, x)
  {
    assert (addrs + [map[]])[..|addrs|] == addrs;
  }

  // A variable is found under its innermost declaration: a new one hides older ones and
  // leaves other names alone.
  lemma LookupDeclare(addrs: Addrs, x: string, a: nat, y: string)
    requires addrs != []
    ensures Lookup(Declare(addrs, x, a), y) == if y == x then Some(a) else Lookup(addrs, y)
  {
    var addrs' := Declare(addrs, x, a);
    assert addrs'[..|addrs| - 1] == addrs[..|addrs| - 1];
    var d, e := Depth(addrs, y), Depth(addrs', y);
    if y != x {
      if d < |addrs| - 1 && e < |addrs| - 1 {
        assert y !in addrs[|addrs| - 1] && y !in addrs'[|addrs| - 1];
      }
    }
  }

  // Code in the current block can be fetched from the finished function.
  lemma Fetch(g: Gen, i: Instr, code: seq<BasicBlock>)
    requires Extends(Append(g, i), code)
    ensures |g.done| < |code| && |g.code| < |code[|g.done|].instrs| && code[|g.done|].instrs[|g.code|] == i
  {
    assert Append(g, i).code[|g.code|] == i;
  }

  lemma StepAt(m: Machine, g: Gen, i: Instr, c: Config)
    requires Extends(Append(g, i), m.p.code) && c.Running? && At(g, c, c.trace)
    ensures Run(m, c, 1) == Exec(m.p, i, c)
  {
    Fetch(g, i, m.p.code);
    OneStep(m, c);
  }

  lemma ExtendsSame(g: Gen, h: Gen, code: seq<BasicBlock>)
    requires h.done == g.done && h.here == g.here && g.code <= h.code && Extends(h, code)
    ensures Extends(g, code)
  {
  }
}
