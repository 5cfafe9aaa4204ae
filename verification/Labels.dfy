// Block labels: how fresh ones are spelled, and how the two targets of a
// conditional branch share one label string.
module Labels {
  import opened Common

  // The prefixes handed to newLabel.
  datatype LabelKind =
    | Then | Else | Merge | AfterRet
    | WhileCond | WhileBody | WhileExit
    | VloopCounter | VloopCond | VloopBody | VloopExit
    | ForCond | ForBody | ForExit
    | MatchExit | ArmBody | ArmNext

  function Prefix(k: LabelKind): string {
    match k
    case Then => "then"
    case Else => "else"
    case Merge => "merge"
    case AfterRet => "after_ret"
    case WhileCond => "while_cond"
    case WhileBody => "while_body"
    case WhileExit => "while_exit"
    case VloopCounter => "vloop_counter"
    case VloopCond => "vloop_cond"
    case VloopBody => "vloop_body"
    case VloopExit => "vloop_exit"
    case ForCond => "for_cond"
    case ForBody => "for_body"
    case ForExit => "for_exit"
    case MatchExit => "match_exit"
    case ArmBody => "match_arm"
    case ArmNext => "match_next"
  }

  const ENTRY := "entry"

  function Digit(d: nat): char
    requires d < 10
  {
    '0' + d as char
  }

  // std::to_string on a non-negative number.
  function Decimal(n: nat): string {
    if n < 10 then [Digit(n)] else Decimal(n / 10) + [Digit(n % 10)]
  }

  function MakeLabel(k: LabelKind, n: nat): string {
    Prefix(k) + "_" + Decimal(n)
  }

  function JoinTargets(t: string, f: string): string {
    t + "," + f
  }

  // Position of the first comma, or the length when there is none.
  function FirstComma(s: string): (i: nat)
    ensures i <= |s|
    ensures i < |s| ==> s[i] == ','
    ensures forall j :: 0 <= j < i ==> s[j] != ','
  {
    if s == [] || s[0] == ',' then 0 else 1 + FirstComma(s[1..])
  }

  function SplitTargets(s: string): Option<(string, string)> {
    var i := FirstComma(s);
    if i == |s| then None else Some((s[..i], s[i + 1..]))
  }

  predicate IsDigit(c: char) {
    48 <= c as int <= 57
  }

  lemma {:induction false} DecimalDigits(n: nat)
    ensures |Decimal(n)| > 0
    ensures forall i :: 0 <= i < |Decimal(n)| ==> IsDigit(Decimal(n)[i])
  {
    if n >= 10 {
      DecimalDigits(n / 10);
    }
  }

  // Reading a digit string back.
  function Value(s: string): nat
    requires forall i :: 0 <= i < |s| ==> IsDigit(s[i])
  {
    if s == [] then 0
    else
      var last := s[|s| - 1];
      assert IsDigit(last);
      Value(s[..|s| - 1]) * 10 + (last as int - '0' as int)
  }

  lemma {:induction false} DecimalRoundTrip(n: nat)
    ensures forall i :: 0 <= i < |Decimal(n)| ==> IsDigit(Decimal(n)[i])
    ensures Value(Decimal(n)) == n
  {
    DecimalDigits(n);
    var s := Decimal(n);
    if n < 10 {
      assert s[..|s| - 1] == [];
    } else {
      assert s[..|s| - 1] == Decimal(n / 10);
      DecimalRoundTrip(n / 10);
    }
  }

  // The longest digit-only suffix. It stops at the underscore, so it is the number
  // of a generated label whatever the prefix was.
  function DigitSuffix(s: string): (r: string)
    ensures forall i :: 0 <= i < |r| ==> IsDigit(r[i])
  {
    if s == [] || !IsDigit(s[|s| - 1]) then []
    else DigitSuffix(s[..|s| - 1]) + [s[|s| - 1]]
  }

  function LabelNumber(s: string): int {
    var d := DigitSuffix(s);
    if d == [] then -1 else Value(d)
  }

  lemma {:induction false} DigitSuffixOf(p: string, d: string)
    requires p == [] || !IsDigit(p[|p| - 1])
    requires forall i :: 0 <= i < |d| ==> IsDigit(d[i])
    ensures DigitSuffix(p + d) == d
  {
    if d == [] {
      assert p + d == p;
    } else {
      var s := p + d;
      assert s[..|s| - 1] == p + d[..|d| - 1];
      DigitSuffixOf(p, d[..|d| - 1]);
      assert d == d[..|d| - 1] + [d[|d| - 1]];
    }
  }

  lemma LabelNumberOfLabel(k: LabelKind, n: nat)
    ensures LabelNumber(MakeLabel(k, n)) == n
  {
    DecimalRoundTrip(n);
    DecimalDigits(n);
    DigitSuffixOf(Prefix(k) + "_", Decimal(n));
  }

  lemma LabelNumberOfEntry()
    ensures LabelNumber(ENTRY) == -1
  {
    assert ENTRY[|ENTRY| - 1] == 'y';
  }

  // Labels made from different counter values differ, for every pair of prefixes, and
  // none of them is the entry label.
  lemma LabelsDiffer(k: LabelKind, n: nat, j: LabelKind, m: nat)
    requires n != m
    ensures MakeLabel(k, n) != MakeLabel(j, m)
    ensures MakeLabel(k, n) != ENTRY
  {
    LabelNumberOfLabel(k, n);
    LabelNumberOfLabel(j, m);
    LabelNumberOfEntry();
  }

  lemma LabelHasNoComma(k: LabelKind, n: nat)
    ensures ',' !in MakeLabel(k, n)
  {
    DecimalDigits(n);
    assert ',' !in Prefix(k);
    assert ',' !in "_";
  }

  // Splitting the label of a conditional branch recovers the pair it was made from
  // exactly when the first target holds no comma.
  lemma SplitJoin(t: string, f: string)
    ensures SplitTargets(JoinTargets(t, f)) == Some((t, f)) <==> ',' !in t
  {
    var s := JoinTargets(t, f);
    assert s[|t|] == ',' && s[..|t|] == t && s[|t| + 1..] == f;
    var i := FirstComma(s);
    if ',' in t {
      var j :| 0 <= j < |t| && t[j] == ',';
      assert s[j] == ',';
      assert |s[..i]| != |t|;
    } else {
      assert forall j :: 0 <= j < |t| ==> s[j] == t[j] && t[j] in t;
    }
  }
}
