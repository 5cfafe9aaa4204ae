// Lines and columns of a source text, and the line a diagnostic shows.
module Coordinates {
  // Both count from 1.

  function LineOf(s: string, p: nat): (n: nat)
    requires p <= |s|
    ensures 1 <= n <= p + 1
  {
    if p == 0 then 1 else LineOf(s, p - 1) + if s[p - 1] == '\n' then 1 else 0
  }

  function ColumnOf(s: string, p: nat): (n: nat)
    requires p <= |s|
    ensures 1 <= n <= p + 1
  {
    if p == 0 || s[p - 1] == '\n' then 1 else ColumnOf(s, p - 1) + 1
  }

  predicate NoNewline(s: string) {
    forall i :: 0 <= i < |s| ==> s[i] != '\n'
  }

  // Along a stretch without a newline only the column changes.
  lemma {:induction false} SameLine(s: string, p: nat, q: nat)
    requires p <= q <= |s| && NoNewline(s[p..q])
    ensures LineOf(s, q) == LineOf(s, p) && ColumnOf(s, q) == ColumnOf(s, p) + (q - p)
    decreases q - p
  {
    if p < q {
      assert s[p..q][q - 1 - p] == s[q - 1];
      assert s[p..q - 1] == s[p..q][..q - 1 - p];
      SameLine(s, p, q - 1);
    }
  }

  lemma {:induction false} LinesGrow(s: string, p: nat, q: nat)
    requires p <= q <= |s|
    ensures LineOf(s, p) <= LineOf(s, q)
    ensures !NoNewline(s[p..q]) ==> LineOf(s, p) < LineOf(s, q)
    decreases q - p
  {
    if p < q {
      LinesGrow(s, p, q - 1);
      if !NoNewline(s[p..q]) && s[q - 1] != '\n' {
        var i :| 0 <= i < q - p && s[p..q][i] == '\n';
        assert s[p..q - 1][i] == '\n';
      }
    }
  }

  // Where the line around p starts.
  function LineStart(s: string, p: nat): (a: nat)
    requires p <= |s|
    ensures a <= p && (a == 0 || s[a - 1] == '\n') && NoNewline(s[a..p])
  {
    if p == 0 || s[p - 1] == '\n' then p
    else
      var a := LineStart(s, p - 1);
      assert s[a..p] == s[a..p - 1] + [s[p - 1]];
      a
  }

  // The first newline from p on, or the end.
  function LineEnd(s: string, p: nat): (b: nat)
    requires p <= |s|
    ensures p <= b <= |s| && (b < |s| ==> s[b] == '\n') && NoNewline(s[p..b])
    decreases |s| - p
  {
    if p == |s| || s[p] == '\n' then p
    else
      var b := LineEnd(s, p + 1);
      assert s[p..b] == [s[p]] + s[p + 1..b];
      b
  }

  lemma StartColumn(s: string, p: nat)
    requires p <= |s|
    ensures ColumnOf(s, p) == p - LineStart(s, p) + 1 && LineOf(s, LineStart(s, p)) == LineOf(s, p)
  {
    var a := LineStart(s, p);
    SameLine(s, a, p);
  }

  lemma {:induction false} SameEnd(s: string, a: nat, p: nat)
    requires a <= p <= |s| && NoNewline(s[a..p])
    ensures LineEnd(s, a) == LineEnd(s, p)
    decreases p - a
  {
    if a < p {
      assert s[a] == s[a..p][0];
      assert s[a + 1..p] == s[a..p][1..];
      SameEnd(s, a + 1, p);
    }
  }

  // Positions on the same line have the same line start.
  lemma StartOfLine(s: string, p: nat, q: nat)
    requires p <= |s| && q <= |s| && LineOf(s, p) == LineOf(s, q)
    ensures LineStart(s, p) == LineStart(s, q)
  {
    var a, b := LineStart(s, p), LineStart(s, q);
    StartColumn(s, p);
    StartColumn(s, q);
    if a < b {
      LaterStart(s, a, b);
    } else if b < a {
      LaterStart(s, b, a);
    }
  }

  lemma LaterStart(s: string, a: nat, b: nat)
    requires a < b <= |s| && s[b - 1] == '\n'
    ensures LineOf(s, a) < LineOf(s, b)
  {
    LinesGrow(s, a, b);
    assert s[a..b][b - 1 - a] == '\n';
  }

  // The text of the line around p.
  function LineAround(s: string, p: nat): string
    requires p <= |s|
  {
    s[LineStart(s, p)..LineEnd(s, p)]
  }

  // The text of line n; nothing if there is no such line.
  ghost function LineText(s: string, n: nat): string {
    if p: nat :| p <= |s| && LineOf(s, p) == n then LineAround(s, p) else ""
  }

  lemma LineTextAround(s: string, p: nat)
    requires p <= |s|
    ensures LineText(s, LineOf(s, p)) == LineAround(s, p)
  {
    forall q: nat | q <= |s| && LineOf(s, q) == LineOf(s, p) ensures LineAround(s, q) == LineAround(s, p) {
      SameAround(s, p, q);
    }
  }

  lemma SameAround(s: string, p: nat, q: nat)
    requires p <= |s| && q <= |s| && LineOf(s, p) == LineOf(s, q)
    ensures LineAround(s, p) == LineAround(s, q)
  {
    StartOfLine(s, p, q);
    SameEnd(s, LineStart(s, p), p);
    SameEnd(s, LineStart(s, q), q);
  }

  // The last line has the greatest number.
  lemma NoLaterLine(s: string, a: nat, n: nat)
    requires a <= |s| && LineEnd(s, a) == |s| && LineOf(s, a) < n
    ensures LineText(s, n) == ""
  {
    SameLine(s, a, |s|);
    forall p: nat | p <= |s| ensures LineOf(s, p) < n {
      LinesGrow(s, p, |s|);
    }
  }

  lemma NextLine(s: string, a: nat)
    requires a <= |s| && LineStart(s, a) == a && LineEnd(s, a) < |s|
    ensures var b := LineEnd(s, a); LineStart(s, b + 1) == b + 1 && LineOf(s, b + 1) == LineOf(s, a) + 1
  {
    SameLine(s, a, LineEnd(s, a));
  }

  method FindNewline(s: string, from: nat) returns (b: nat)
    requires from <= |s|
    ensures b == LineEnd(s, from)
  {
    b := from;
    while b < |s| && s[b] != '\n'
      invariant from <= b <= |s| && LineEnd(s, b) == LineEnd(s, from)
    {
      b := b + 1;
    }
  }

  method ExtractLine(source: string, n: nat) returns (text: string)
    ensures text == LineText(source, n)
  {
    var line, pos := 1, 0;
    while true
      invariant pos <= |source| && line == LineOf(source, pos) && LineStart(source, pos) == pos
      invariant line <= n || n == 0
      decreases |source| - pos
    {
      var nl := FindNewline(source, pos);
      if line == n {
        LineTextAround(source, pos);
        return source[pos..nl];
      }
      if nl == |source| {
        if line < n {
          NoLaterLine(source, pos, n);
        }
        return "";
      }
      NextLine(source, pos);
      line, pos := line + 1, nl + 1;
    }
  }

  // Cutting the shown line at the column gives the text at that place: a caret of the
  // lexeme's length stands under the lexeme.
  lemma CaretUnderText(s: string, p: nat, q: nat)
    requires p <= q <= |s| && NoNewline(s[p..q])
    ensures ColumnOf(s, p) - 1 + (q - p) <= |LineAround(s, p)|
    ensures LineAround(s, p)[ColumnOf(s, p) - 1..][..q - p] == s[p..q]
  {
    StartColumn(s, p);
    SameEnd(s, p, q);
    Cut(s, LineStart(s, p), LineEnd(s, p), p, q);
  }

  lemma Cut(s: string, a: nat, b: nat, p: nat, q: nat)
    requires a <= p <= q <= b <= |s|
    ensures s[a..b][p - a..][..q - p] == s[p..q]
  {
  }
}
