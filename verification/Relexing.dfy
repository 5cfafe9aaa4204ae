// Lexing is stable: the lexemes of a text, joined with blanks, lex to the same tokens.
module Relexing {
  import opened Common
  import opened Tokens
  import opened Scanning
  import opened Lexing

  // The character of s at p + k is that of t at u + k.
  predicate Alike(s: string, p: nat, t: string, u: nat, k: nat) {
    p + k < |s| && u + k < |t| && s[p + k] == t[u + k]
  }

  // The n characters of s from p on are also those of t from u on, and a blank follows there.
  predicate Copied(s: string, p: nat, t: string, u: nat, n: nat) {
    p + n <= |s| && u + n < |t| && t[u + n] == ' ' && forall k: nat :: k < n ==> Alike(s, p, t, u, k)
  }

  lemma CopiedAt(s: string, p: nat, t: string, u: nat, n: nat, i: nat)
    requires Copied(s, p, t, u, n) && i <= n
    ensures i < n ==> Alike(s, p, t, u, i) && Peek(t, u + i) == Peek(s, p + i)
    ensures i == n ==> Peek(t, u + i) == ' '
  {
  }

  // A run that ends inside the copy, or at its end, does so in the copy too.
  lemma {:induction false} RunAgain(s: string, p: nat, t: string, u: nat, n: nat, i: nat, r: Run)
    requires Copied(s, p, t, u, n) && i <= n && RunEnd(s, p + i, r) <= p + n
    requires RunEnd(s, p + i, r) == p + n ==> !r.Line? && !r.Quoted?
    ensures RunEnd(t, u + i, r) == u + (RunEnd(s, p + i, r) - p)
    decreases n - i
  {
    CopiedAt(s, p, t, u, n, i);
    if i < n && Runs(r, s[p + i]) {
      RunAgain(s, p, t, u, n, i + 1, r);
    }
  }

  lemma SameText(s: string, p: nat, t: string, u: nat, n: nat)
    requires Copied(s, p, t, u, n)
    ensures s[p..p + n] == t[u..u + n]
  {
    forall k | 0 <= k < n ensures s[p..p + n][k] == t[u..][k] {
      CopiedAt(s, p, t, u, n, k);
    }
    assert t[u..u + n] == t[u..][..n];
  }

  lemma SameWord(s: string, p: nat, t: string, u: nat, n: nat)
    requires p < |s| && IsWordChar(s[p]) && u < |t| && IsWordChar(t[u])
    requires RunEnd(s, p, Word) == p + n && RunEnd(t, u, Word) == u + n && s[p..p + n] == t[u..u + n]
    ensures ScanWord(t, u) == Good(ScanWord(s, p).kind, u + n)
  {
  }

  lemma WordAgain(s: string, p: nat, t: string, u: nat, n: nat)
    requires p < |s| && IsWordChar(s[p]) && p + n == RunEnd(s, p, Word) && Copied(s, p, t, u, n)
    ensures IsWordChar(t[u]) && ScanWord(t, u) == Good(ScanWord(s, p).kind, u + n)
  {
    CopiedAt(s, p, t, u, n, 0);
    RunAgain(s, p, t, u, n, 0, Word);
    SameText(s, p, t, u, n);
    SameWord(s, p, t, u, n);
  }

  lemma ExponentAgain(s: string, p: nat, t: string, u: nat, n: nat, i: nat, isFloat: bool)
    requires i <= n && p + i <= |s| && ScanExponent(s, p + i, isFloat).end == p + n && Copied(s, p, t, u, n)
    ensures ScanExponent(t, u + i, isFloat) == Good(ScanExponent(s, p + i, isFloat).kind, u + n)
  {
    CopiedAt(s, p, t, u, n, i);
    if i < n {
      CopiedAt(s, p, t, u, n, i + 1);
      var d := ExponentDigits(s, p + i) - p;
      RunAgain(s, p, t, u, n, d, Decimal);
    }
  }

  lemma FractionAgain(s: string, p: nat, t: string, u: nat, n: nat, i: nat)
    requires i <= n && p + i <= |s| && ScanFraction(s, p + i).end == p + n && Copied(s, p, t, u, n)
    ensures ScanFraction(t, u + i) == Good(ScanFraction(s, p + i).kind, u + n)
  {
    CopiedAt(s, p, t, u, n, i);
    if Peek(s, p + i) == '.' && IsDigit(Peek(s, p + i + 1)) {
      PointAgain(s, p, t, u, n, i, RunEnd(s, p + i + 1, Decimal) - p);
    } else {
      if i < n {
        CopiedAt(s, p, t, u, n, i + 1);
      }
      ExponentAgain(s, p, t, u, n, i, false);
    }
  }

  // With digits behind the point, up to d.
  lemma PointAgain(s: string, p: nat, t: string, u: nat, n: nat, i: nat, d: nat)
    requires i < n && Copied(s, p, t, u, n) && Peek(s, p + i) == '.' && IsDigit(Peek(s, p + i + 1))
    requires p + d == RunEnd(s, p + i + 1, Decimal) && ScanExponent(s, p + d, true).end == p + n
    ensures ScanFraction(t, u + i) == Good(ScanFraction(s, p + i).kind, u + n)
  {
    assert d > i + 1;
    CopiedAt(s, p, t, u, n, i);
    CopiedAt(s, p, t, u, n, i + 1);
    RunAgain(s, p, t, u, n, i + 1, Decimal);
    ExponentAgain(s, p, t, u, n, d, true);
  }

  lemma RadixAgain(s: string, p: nat, t: string, u: nat, n: nat, r: Run)
    requires p < |s| && s[p] == '0' && Radix(Peek(s, p + 1)) == Some(r)
    requires p + n == RunEnd(s, p + 2, r) && Copied(s, p, t, u, n)
    ensures t[u] == '0' && ScanNumber(t, u) == Good(IntLiteral, u + n)
  {
    CopiedAt(s, p, t, u, n, 0);
    CopiedAt(s, p, t, u, n, 1);
    RunAgain(s, p, t, u, n, 2, r);
  }

  // No prefix after a leading 0.
  predicate StartsDecimal(s: string, p: nat) {
    IsDigit(Peek(s, p)) && (Peek(s, p) != '0' || Radix(Peek(s, p + 1)).None?)
  }

  lemma NumberIs(t: string, u: nat, e: nat)
    requires u < |t| && StartsDecimal(t, u) && e == RunEnd(t, u + 1, Decimal)
    ensures ScanNumber(t, u) == ScanFraction(t, e)
  {
  }

  lemma DecimalAgain(s: string, p: nat, t: string, u: nat, n: nat, d: nat)
    requires p < |s| && 1 <= d <= n && StartsDecimal(s, p) && p + d == RunEnd(s, p + 1, Decimal)
    requires Copied(s, p, t, u, n)
    ensures StartsDecimal(t, u) && RunEnd(t, u + 1, Decimal) == u + d
  {
    CopiedAt(s, p, t, u, n, 0);
    CopiedAt(s, p, t, u, n, 1);
    RunAgain(s, p, t, u, n, 1, Decimal);
  }

  lemma NumberAgain(s: string, p: nat, t: string, u: nat, n: nat)
    requires p < |s| && IsDigit(s[p]) && n == ScanNumber(s, p).end - p && Copied(s, p, t, u, n)
    ensures IsDigit(t[u]) && ScanNumber(t, u) == Good(ScanNumber(s, p).kind, u + n)
  {
    if StartsDecimal(s, p) {
      var d := RunEnd(s, p + 1, Decimal) - p;
      NumberIs(s, p, p + d);
      DecimalAgain(s, p, t, u, n, d);
      FractionAgain(s, p, t, u, n, d);
      NumberIs(t, u, u + d);
    } else {
      RadixAgain(s, p, t, u, n, Radix(Peek(s, p + 1)).value);
    }
  }

  lemma {:induction false} StringAgain(s: string, p: nat, t: string, u: nat, n: nat, i: nat)
    requires i <= n && p + i <= |s| && ScanString(s, p + i) == Good(StringLiteral, p + n) && Copied(s, p, t, u, n)
    ensures ScanString(t, u + i) == Good(StringLiteral, u + n)
    decreases n - i
  {
    CopiedAt(s, p, t, u, n, i);
    if s[p + i] == '"' {
    } else if s[p + i] == '\\' {
      StringAgain(s, p, t, u, n, if p + i + 1 < |s| then i + 2 else i + 1);
    } else {
      StringAgain(s, p, t, u, n, i + 1);
    }
  }

  lemma CharAgain(s: string, p: nat, t: string, u: nat, n: nat)
    requires p < |s| && ScanChar(s, p + 1) == Good(CharLiteral, p + n) && Copied(s, p, t, u, n)
    ensures ScanChar(t, u + 1) == Good(CharLiteral, u + n)
  {
    CopiedAt(s, p, t, u, n, 1);
    CopiedAt(s, p, t, u, n, CharEnd(s, p + 1) - p);
  }

  lemma OperatorAgain(s: string, p: nat, t: string, u: nat, n: nat)
    requires p < |s| && s[p] != '#' && ScanOperator(s, p).fault.None? && n == ScanOperator(s, p).end - p
    requires Copied(s, p, t, u, n)
    ensures ScanOperator(t, u) == Good(ScanOperator(s, p).kind, u + n)
  {
    CopiedAt(s, p, t, u, n, 0);
    CopiedAt(s, p, t, u, n, 1);
    if n > 1 {
      CopiedAt(s, p, t, u, n, 2);
    }
    assert PairKind(s[p], ' ').None?;
  }

  // A token is read again wherever its text stands before a blank.
  lemma TokenAgain(s: string, p: nat, t: string, u: nat, n: nat)
    requires p < |s| && !Skippable(s, p) && s[p] != '#' && ScanToken(s, p).fault.None?
    requires n == ScanToken(s, p).end - p && Copied(s, p, t, u, n)
    ensures !Skippable(t, u) && ScanToken(t, u) == Good(ScanToken(s, p).kind, u + n)
  {
    CopiedAt(s, p, t, u, n, 0);
    if IsAlpha(s[p]) || s[p] == '_' {
      WordAgain(s, p, t, u, n);
    } else if IsDigit(s[p]) {
      NumberAgain(s, p, t, u, n);
    } else if s[p] == '"' {
      StringAgain(s, p, t, u, n, 1);
    } else if s[p] == '\'' {
      CharAgain(s, p, t, u, n);
    } else {
      OperatorAgain(s, p, t, u, n);
      CopiedAt(s, p, t, u, n, 1);
    }
  }

  // What a token is, wherever it stands.
  datatype Shape = Shape(kind: Kind, lexeme: string)

  // A shape that lexes to itself when it stands before a blank.
  predicate Stable(x: Shape) {
    var t := x.lexeme + " ";
    x.lexeme != "" && !x.kind.Eof? && !x.kind.Hash? && !Skippable(t, 0) && t[0] != '#' &&
    ScanToken(t, 0) == Good(x.kind, |x.lexeme|)
  }

  predicate AllStable(xs: seq<Shape>) {
    xs == [] || (Stable(xs[0]) && AllStable(xs[1..]))
  }

  // Every token that is not in error has such a shape.
  lemma TokenStable(s: string, p: nat, x: Shape)
    requires p < |s| && !Skippable(s, p) && s[p] != '#' && p + |x.lexeme| <= |s|
    requires ScanToken(s, p) == Good(x.kind, p + |x.lexeme|) && s[p..p + |x.lexeme|] == x.lexeme
    ensures Stable(x)
  {
    var w := x.lexeme;
    var t := w + " ";
    forall k: nat | k < |w| ensures Alike(s, p, t, 0, k) {
      assert s[p..p + |w|][k] == w[k] == t[k];
    }
    TokenAgain(s, p, t, 0, |w|);
    CopiedAt(s, p, t, 0, |w|, 0);
  }

  // A stable shape in a text, before a blank.
  lemma StableAgain(x: Shape, t: string, u: nat)
    requires Stable(x) && Copied(x.lexeme + " ", 0, t, u, |x.lexeme|)
    ensures !Skippable(t, u) && ScanToken(t, u) == Good(x.kind, u + |x.lexeme|) && t[u..u + |x.lexeme|] == x.lexeme
  {
    var w := x.lexeme;
    assert (w + " ")[0..0 + |w|] == w;
    TokenAgain(w + " ", 0, t, u, |w|);
    SameText(w + " ", 0, t, u, |w|);
  }

  function ShapeOf(k: LexToken): Shape {
    Shape(k.kind, k.lexeme)
  }

  // The shapes of a list of tokens, without its Eof.
  function Shapes(ts: seq<LexToken>): seq<Shape> {
    if ts == [] || ts[0].kind.Eof? then [] else [ShapeOf(ts[0])] + Shapes(ts[1..])
  }

  // The lexemes with a blank behind each.
  function Joined(xs: seq<Shape>): string {
    if xs == [] then "" else xs[0].lexeme + " " + Joined(xs[1..])
  }

  // The shapes a text lexes to.
  function Lexed(t: string, u: nat): Option<seq<Shape>>
    requires u <= |t|
  {
    if PastEnd(t, u) then None else Some(Shapes(TokensFrom(t, u)))
  }

  lemma LexedUnfold(t: string, u: nat, n: Step)
    requires u <= |t| && n == NextFrom(t, u)
    ensures n.token.kind.Eof? ==> Lexed(t, u) == Some([])
    ensures !n.token.kind.Eof? ==>
      Lexed(t, u) == if n.token.kind.Hash? || Lexed(t, n.end).None? then None
                     else Some([ShapeOf(n.token)] + Lexed(t, n.end).value)
  {
    TokensUnfold(t, u, n);
    if !n.token.kind.Eof? {
      assert TokensFrom(t, u)[1..] == TokensFrom(t, n.end);
    }
  }

  lemma BlankSkipped(t: string, i: nat)
    requires i < |t| && t[i] == ' '
    ensures Lexed(t, i) == Lexed(t, i + 1)
  {
    assert NextFrom(t, i) == NextFrom(t, i + 1);
    LexedUnfold(t, i, NextFrom(t, i));
    LexedUnfold(t, i + 1, NextFrom(t, i + 1));
  }

  lemma NextIs(t: string, u: nat, x: Shape, n: Step)
    requires u + |x.lexeme| <= |t| && !Skippable(t, u) && x.lexeme != "" && n == NextFrom(t, u)
    requires ScanToken(t, u) == Good(x.kind, u + |x.lexeme|) && t[u..u + |x.lexeme|] == x.lexeme
    ensures ShapeOf(n.token) == x && n.end == u + |x.lexeme|
  {
  }

  lemma FirstLexes(x: Shape, t: string, u: nat, ys: Option<seq<Shape>>)
    requires Stable(x) && Copied(x.lexeme + " ", 0, t, u, |x.lexeme|) && ys == Lexed(t, u + |x.lexeme| + 1)
    ensures Lexed(t, u) == if ys.None? then None else Some([x] + ys.value)
  {
    StableAgain(x, t, u);
    NextIs(t, u, x, NextFrom(t, u));
    LexedAfter(t, u, NextFrom(t, u), x, ys);
  }

  lemma LexedAfter(t: string, u: nat, n: Step, x: Shape, ys: Option<seq<Shape>>)
    requires u <= |t| && n == NextFrom(t, u) && ShapeOf(n.token) == x && !x.kind.Eof? && !x.kind.Hash?
    requires n.end < |t| && t[n.end] == ' ' && ys == Lexed(t, n.end + 1)
    ensures Lexed(t, u) == if ys.None? then None else Some([x] + ys.value)
  {
    BlankSkipped(t, n.end);
    LexedUnfold(t, u, n);
  }

  lemma MoreLexes(x: Shape, t: string, u: nat, v: nat, ys: seq<Shape>)
    requires Stable(x) && Copied(x.lexeme + " ", 0, t, u, |x.lexeme|)
    requires v == u + |x.lexeme| + 1 && Lexed(t, v) == Some(ys)
    ensures Lexed(t, u) == Some([x] + ys)
  {
    FirstLexes(x, t, u, Some(ys));
  }

  lemma Whole<T>(xs: seq<T>)
    requires xs != []
    ensures [xs[0]] + xs[1..] == xs
  {
  }

  // Stable shapes, joined, lex to themselves.
  lemma {:induction false} JoinedLexes(done: string, xs: seq<Shape>, t: string)
    requires t == done + Joined(xs) && AllStable(xs)
    ensures Lexed(t, |done|) == Some(xs)
    decreases xs
  {
    if xs == [] {
      NothingLeft(t, |done|);
    } else {
      var x, next, rest := xs[0], done + xs[0].lexeme + " ", Joined(xs[1..]);
      Behind(done, x.lexeme, rest, t);
      JoinedLexes(next, xs[1..], t);
      MoreLexes(x, t, |done|, |next|, xs[1..]);
      Whole(xs);
    }
  }

  lemma NothingLeft(t: string, u: nat)
    requires u == |t|
    ensures Lexed(t, u) == Some([])
  {
    LexedUnfold(t, u, NextFrom(t, u));
  }

  lemma Behind(done: string, w: string, rest: string, t: string)
    requires t == done + (w + " " + rest)
    ensures t == (done + w + " ") + rest && |done + w + " "| == |done| + |w| + 1
    ensures Copied(w + " ", 0, t, |done|, |w|)
  {
  }

  predicate NoErrors(xs: seq<Shape>) {
    forall i :: 0 <= i < |xs| ==> !xs[i].kind.Error?
  }

  // What the next token of a text is, if it is neither Eof nor in error.
  lemma NextScanned(s: string, p: nat, n: Step)
    requires p <= |s| && n == NextFrom(s, p) && !n.token.kind.Eof? && !n.token.kind.Error? && !n.token.kind.Hash?
    ensures var j := Skip(s, p);
      && j < |s| && s[j] != '#' && n.end == j + |n.token.lexeme|
      && ScanToken(s, j) == Good(n.token.kind, n.end) && s[j..n.end] == n.token.lexeme
  {
  }

  lemma {:induction false} LexedStable(s: string, p: nat, xs: seq<Shape>)
    requires p <= |s| && Lexed(s, p) == Some(xs) && NoErrors(xs)
    ensures AllStable(xs)
    decreases |s| - p
  {
    var n := NextFrom(s, p);
    LexedUnfold(s, p, n);
    if !n.token.kind.Eof? {
      var rest := Lexed(s, n.end).value;
      assert xs == [ShapeOf(n.token)] + rest && xs[0] == ShapeOf(n.token) && xs[1..] == rest;
      NextScanned(s, p, n);
      TokenStable(s, Skip(s, p), xs[0]);
      LexedStable(s, n.end, rest);
    }
  }

  // Joining the lexemes of a text that lexes without errors gives a text with the same tokens.
  lemma LexedAgain(s: string, xs: seq<Shape>)
    requires Lexed(s, 0) == Some(xs) && NoErrors(xs)
    ensures Lexed(Joined(xs), 0) == Some(xs)
  {
    var t := Joined(xs);
    assert t == "" + t;
    LexedStable(s, 0, xs);
    JoinedLexes("", xs, t);
  }
}
