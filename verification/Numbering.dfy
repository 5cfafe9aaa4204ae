// Register numbers: code whose destinations count upwards, one instruction at a time.
module Numbering {
  import opened Ir

  // The register assigned last, or n.
  function Top(code: seq<Instr>, n: nat): nat {
    if code == [] then n
    else if code[|code| - 1].dest != NO_REG then code[|code| - 1].dest
    else Top(code[..|code| - 1], n)
  }

  function TopIn(blocks: seq<BasicBlock>): nat {
    if blocks == [] then 0 else Top(blocks[|blocks| - 1].instrs, TopIn(blocks[..|blocks| - 1]))
  }

  // Every destination is the next number after n.
  predicate InRow(code: seq<Instr>, n: nat) {
    code == [] ||
    (var init, last := code[..|code| - 1], code[|code| - 1];
     InRow(init, n) && (last.dest == NO_REG || last.dest == Top(init, n) + 1))
  }

  predicate Numbered(blocks: seq<BasicBlock>) {
    blocks == [] ||
    (var init := blocks[..|blocks| - 1];
     Numbered(init) && InRow(blocks[|blocks| - 1].instrs, TopIn(init)))
  }

  ghost predicate Assigns(code: seq<BasicBlock>, b: nat, i: nat, r: RegID) {
    b < |code| && i < |code[b].instrs| && r != NO_REG && code[b].instrs[i].dest == r
  }

  lemma {:induction false} RowPrefix(code: seq<Instr>, n: nat, k: nat)
    requires InRow(code, n) && k <= |code|
    ensures InRow(code[..k], n)
    decreases |code|
  {
    if k == |code| {
      assert code[..k] == code;
    } else {
      RowPrefix(code[..|code| - 1], n, k);
      assert code[..|code| - 1][..k] == code[..k];
    }
  }

  lemma {:induction false} NumberedPrefix(blocks: seq<BasicBlock>, k: nat)
    requires Numbered(blocks) && k <= |blocks|
    ensures Numbered(blocks[..k])
    decreases |blocks|
  {
    if k == |blocks| {
      assert blocks[..k] == blocks;
    } else {
      NumberedPrefix(blocks[..|blocks| - 1], k);
      assert blocks[..|blocks| - 1][..k] == blocks[..k];
    }
  }

  // The number of an assigned register is one more than the number before it.
  lemma RowAt(code: seq<Instr>, n: nat, i: nat)
    requires InRow(code, n) && i < |code| && code[i].dest != NO_REG
    ensures code[i].dest == Top(code[..i], n) + 1
  {
    RowPrefix(code, n, i + 1);
    assert code[..i + 1][..i] == code[..i] && code[..i + 1][i] == code[i];
  }

  lemma {:induction false} TopGrows(code: seq<Instr>, n: nat, i: nat)
    requires InRow(code, n) && i <= |code|
    ensures n <= Top(code[..i], n) <= Top(code, n)
    decreases |code|
  {
    if i == |code| {
      assert code[..i] == code;
      if code != [] {
        TopGrows(code[..|code| - 1], n, |code| - 1);
      }
    } else {
      var init := code[..|code| - 1];
      TopGrows(init, n, i);
      assert init[..i] == code[..i];
    }
  }

  lemma {:induction false} TopInGrows(blocks: seq<BasicBlock>, k: nat)
    requires Numbered(blocks) && k <= |blocks|
    ensures TopIn(blocks[..k]) <= TopIn(blocks)
    decreases |blocks|
  {
    if k == |blocks| {
      assert blocks[..k] == blocks;
    } else {
      var init := blocks[..|blocks| - 1];
      TopInGrows(init, k);
      assert init[..k] == blocks[..k];
      TopGrows(blocks[|blocks| - 1].instrs, TopIn(init), 0);
    }
  }

  lemma BlockRow(blocks: seq<BasicBlock>, b: nat)
    requires Numbered(blocks) && b < |blocks|
    ensures InRow(blocks[b].instrs, TopIn(blocks[..b]))
    ensures TopIn(blocks[..b + 1]) == Top(blocks[b].instrs, TopIn(blocks[..b]))
  {
    NumberedPrefix(blocks, b + 1);
    assert blocks[..b + 1][..b] == blocks[..b] && blocks[..b + 1][b] == blocks[b];
  }

  // Where the number of an assignment lies.
  lemma AssignedNext(blocks: seq<BasicBlock>, b: nat, i: nat, r: RegID)
    requires Numbered(blocks) && Assigns(blocks, b, i, r)
    ensures r == Top(blocks[b].instrs[..i], TopIn(blocks[..b])) + 1
    ensures TopIn(blocks[..b]) < r <= TopIn(blocks[..b + 1]) <= TopIn(blocks)
  {
    var code, n := blocks[b].instrs, TopIn(blocks[..b]);
    BlockRow(blocks, b);
    RowAt(code, n, i);
    TopGrows(code, n, i);
    TopGrows(code, n, i + 1);
    assert code[..i + 1][i] == code[i];
    TopInGrows(blocks, b + 1);
  }

  // Of two different places, the earlier one assigns the smaller register.
  lemma OrderedAssignments(blocks: seq<BasicBlock>, b: nat, i: nat, r: RegID, c: nat, j: nat, s: RegID)
    requires Numbered(blocks) && Assigns(blocks, b, i, r) && Assigns(blocks, c, j, s)
    requires b < c || (b == c && i < j)
    ensures r < s
  {
    AssignedNext(blocks, b, i, r);
    AssignedNext(blocks, c, j, s);
    if b < c {
      NumberedPrefix(blocks, c);
      TopInGrows(blocks[..c], b + 1);
      assert blocks[..c][..b + 1] == blocks[..b + 1];
    } else {
      BlockRow(blocks, b);
      LaterTop(blocks[b].instrs, TopIn(blocks[..b]), i, j);
    }
  }

  lemma LaterTop(code: seq<Instr>, n: nat, i: nat, j: nat)
    requires InRow(code, n) && i < j <= |code| && code[i].dest != NO_REG
    ensures code[i].dest <= Top(code[..j], n)
  {
    RowPrefix(code, n, j);
    TopGrows(code[..j], n, i + 1);
    assert code[..j][..i + 1] == code[..i + 1] && code[..i + 1][i] == code[i];
  }

  // Every number up to the last one is assigned.
  lemma {:induction false} AssignedIn(blocks: seq<BasicBlock>, r: RegID) returns (b: nat, i: nat)
    requires Numbered(blocks) && 1 <= r <= TopIn(blocks)
    ensures Assigns(blocks, b, i, r)
    decreases |blocks|
  {
    var init := blocks[..|blocks| - 1];
    if r <= TopIn(init) {
      b, i := AssignedIn(init, r);
      assert init[b] == blocks[b];
    } else {
      b := |init|;
      i := AssignedBy(blocks[b].instrs, TopIn(init), r);
    }
  }

  lemma {:induction false} AssignedBy(code: seq<Instr>, n: nat, r: RegID) returns (i: nat)
    requires InRow(code, n) && n < r <= Top(code, n)
    ensures i < |code| && code[i].dest == r
    decreases |code|
  {
    var init := code[..|code| - 1];
    if r <= Top(init, n) {
      i := AssignedBy(init, n, r);
      assert init[i] == code[i];
    } else {
      i := |init|;
    }
  }
}
