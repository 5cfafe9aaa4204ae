// The lexer itself: a position that moves over the source text together with its line and
// column. Every method does what the scanning functions say.
module Lexing {
  import opened Common
  import opened Tokens
  import opened Scanning
  import C = Coordinates

  // Locations are 32-bit numbers.
  const WRAP := 0x1_0000_0000

  datatype LexToken = LexToken(kind: Kind, lexeme: string, line: nat, column: int)

  datatype Report = Report(line: nat, column: nat, fault: Fault)

  function ReportAt(s: string, p: nat, f: Fault): Report
    requires p <= |s|
  {
    Report(C.LineOf(s, p), C.ColumnOf(s, p), f)
  }

  // A token that ends where the lexer stands: its column is counted back from there.
  function MakeToken(s: string, k: Kind, start: nat, end: nat): LexToken
    requires start <= end <= |s|
  {
    LexToken(k, s[start..end], C.LineOf(s, end), (C.ColumnOf(s, end) - (end - start)) % WRAP)
  }

  // The token at a position that is not skipped. An unexpected character is located behind
  // itself.
  function TokenAt(s: string, p: nat): LexToken
    requires p < |s|
  {
    var r := ScanToken(s, p);
    if r.fault == Some(UnexpectedChar) then LexToken(Error, [s[p]], C.LineOf(s, p + 1), C.ColumnOf(s, p + 1))
    else MakeToken(s, r.kind, p, r.end)
  }

  function FaultsAt(s: string, p: nat): seq<Report>
    requires p < |s|
  {
    var r := ScanToken(s, p);
    if r.fault.Some? then [ReportAt(s, p + 1, r.fault.value)] else []
  }

  // What is reported while skipping.
  function SkipFaults(s: string, p: nat): seq<Report>
    requires p <= |s|
  {
    var c := OpenComment(s, p);
    if c.Some? then [ReportAt(s, c.value, UnterminatedComment)] else []
  }

  function StretchFaults(s: string, p: nat): seq<Report>
    requires Skippable(s, p)
  {
    if s[p] == '/' && Peek(s, p + 1) == '*' && CommentOpen(s, p + 2, 1) then [ReportAt(s, p, UnterminatedComment)]
      else []
  }

  lemma SkipFaultsStep(s: string, p: nat)
    requires Skippable(s, p)
    ensures SkipFaults(s, p) == StretchFaults(s, p) + SkipFaults(s, SkipOne(s, p))
  {
    if StretchFaults(s, p) != [] {
      OpenToEnd(s, p + 2, 1);
    }
  }

  // What is reported on the way to the next token and in it.
  function StepFaults(s: string, p: nat): seq<Report>
    requires p <= |s|
  {
    var j := Skip(s, p);
    SkipFaults(s, p) + if j == |s| then [] else FaultsAt(s, j)
  }

  // The next token from a position on, and where it ends.
  datatype Step = Step(token: LexToken, end: nat)

  function NextFrom(s: string, p: nat): (n: Step)
    requires p <= |s|
    ensures p <= n.end <= |s| && (n.token.kind.Eof? || p < n.end)
  {
    var j := Skip(s, p);
    if j == |s| then Step(MakeToken(s, Eof, j, j), j) else Step(TokenAt(s, j), ScanToken(s, j).end)
  }

  // All tokens from a position on.
  function TokensFrom(s: string, p: nat): (ts: seq<LexToken>)
    requires p <= |s|
    ensures ts != [] && ts[|ts| - 1].kind.Eof?
    decreases |s| - p
  {
    var n := NextFrom(s, p);
    if n.token.kind.Eof? then [n.token] else [n.token] + TokensFrom(s, n.end)
  }

  // A `#` starts a comment with two characters: the last character of a text cannot. The
  // lexer would read past the end of the text.
  predicate PastEnd(s: string, p: nat)
    requires p <= |s|
    decreases |s| - p
  {
    var n := NextFrom(s, p);
    !n.token.kind.Eof? && (n.token.kind.Hash? || PastEnd(s, n.end))
  }

  function Tokenized(s: string, p: nat): Option<seq<LexToken>>
    requires p <= |s|
  {
    if PastEnd(s, p) then None else Some(TokensFrom(s, p))
  }

  lemma TokensUnfold(s: string, p: nat, n: Step)
    requires p <= |s| && n == NextFrom(s, p)
    ensures TokensFrom(s, p) == if n.token.kind.Eof? then [n.token] else [n.token] + TokensFrom(s, n.end)
    ensures PastEnd(s, p) == (!n.token.kind.Eof? && (n.token.kind.Hash? || PastEnd(s, n.end)))
  {
  }

  lemma ListStep<T>(done: seq<T>, t: T, rest: seq<T>)
    ensures done + ([t] + rest) == done + [t] + rest && done + [t] + [] == done + [t]
  {
  }

  lemma Regroup<T>(a: seq<T>, b: seq<T>, c: seq<T>)
    ensures (a + b) + c == a + (b + c)
  {
  }

  lemma NoFaultsAhead(s: string, p: nat)
    requires p <= |s| && !Skippable(s, p)
    ensures SkipFaults(s, p) == []
  {
  }

  class Lexer {
    const source: string
    var pos: nat
    var line: nat
    var column: nat
    var reports: seq<Report>

    ghost predicate Valid()
      reads this
    {
      pos <= |source| && line == C.LineOf(source, pos) && column == C.ColumnOf(source, pos)
    }

    constructor (source: string)
      ensures Valid() && this.source == source && pos == 0 && reports == []
    {
      this.source := source;
      pos, line, column := 0, 1, 1;
      reports := [];
    }

    method Advance()
      requires Valid() && pos < |source|
      modifies this`pos, this`line, this`column
      ensures Valid() && pos == old(pos) + 1
    {
      if source[pos] == '\n' {
        line, column := line + 1, 1;
      } else {
        column := column + 1;
      }
      pos := pos + 1;
    }

    method AdvanceBy(n: nat)
      requires Valid() && pos + n <= |source|
      modifies this`pos, this`line, this`column
      ensures Valid() && pos == old(pos) + n
    {
      for i := 0 to n
        invariant Valid() && pos == old(pos) + i
      {
        Advance();
      }
    }

    method Match(c: char) returns (found: bool)
      requires Valid()
      modifies this`pos, this`line, this`column
      ensures Valid() && found == (old(pos) < |source| && source[old(pos)] == c)
      ensures pos == if found then old(pos) + 1 else old(pos)
    {
      found := pos < |source| && source[pos] == c;
      if found {
        Advance();
      }
    }

    method Complain(f: Fault, line: nat, column: nat)
      requires Valid()
      modifies this`reports
      ensures Valid() && reports == old(reports) + [Report(line, column, f)]
    {
      reports := reports + [Report(line, column, f)];
    }

    // A run of characters.
    method AdvanceRun(r: Run)
      requires Valid()
      modifies this`pos, this`line, this`column
      ensures Valid() && pos == RunEnd(source, old(pos), r)
    {
      while pos < |source| && Runs(r, source[pos])
        invariant Valid() && old(pos) <= pos && RunEnd(source, pos, r) == RunEnd(source, old(pos), r)
        decreases |source| - pos
      {
        Advance();
      }
    }

    method SkipWhitespaceAndComments()
      requires Valid()
      modifies this
      ensures Valid() && pos == Skip(source, old(pos)) && reports == old(reports) + SkipFaults(source, old(pos))
    {
      ghost var all := reports + SkipFaults(source, pos);
      while Skippable(source, pos)
        invariant Valid() && Skip(source, pos) == Skip(source, old(pos))
        invariant reports + SkipFaults(source, pos) == all
        decreases |source| - pos
      {
        ghost var before, stretch := reports, StretchFaults(source, pos);
        SkipFaultsStep(source, pos);
        SkipOneStretch();
        Regroup(before, stretch, SkipFaults(source, pos));
      }
      NoFaultsAhead(source, pos);
      assert reports + [] == reports;
    }

    method SkipOneStretch()
      requires Valid() && Skippable(source, pos)
      modifies this
      ensures Valid() && pos == SkipOne(source, old(pos)) && reports == old(reports) + StretchFaults(source, old(pos))
    {
      if IsBlank(source[pos]) {
        Advance();
      } else if source[pos] == '#' || source[pos + 1] == '/' {
        AdvanceBy(2);
        AdvanceRun(Line);
      } else {
        SkipBlockComment();
      }
    }

    method SkipBlockComment()
      requires Valid() && Skippable(source, pos) && source[pos] == '/' && Peek(source, pos + 1) == '*'
      modifies this
      ensures Valid() && pos == CommentEnd(source, old(pos) + 2, 1)
      ensures reports == old(reports) +
        if CommentOpen(source, old(pos) + 2, 1) then [ReportAt(source, old(pos), UnterminatedComment)] else []
    {
      var startLine, startColumn := line, column;
      AdvanceBy(2);
      var depth := 1;
      while pos < |source| && depth > 0
        invariant Valid() && old(pos) + 2 <= pos && reports == old(reports)
        invariant CommentEnd(source, pos, depth) == CommentEnd(source, old(pos) + 2, 1)
        invariant CommentOpen(source, pos, depth) == CommentOpen(source, old(pos) + 2, 1)
        decreases |source| - pos
      {
        if source[pos] == '*' && Peek(source, pos + 1) == '/' {
          AdvanceBy(2);
          depth := depth - 1;
        } else if source[pos] == '/' && Peek(source, pos + 1) == '*' {
          AdvanceBy(2);
          depth := depth + 1;
        } else {
          Advance();
        }
      }
      if depth > 0 {
        Complain(UnterminatedComment, startLine, startColumn);
      }
    }

    // The token that ends here.
    method Finish(k: Kind, start: nat) returns (t: LexToken)
      requires Valid() && start <= pos
      ensures t == MakeToken(source, k, start, pos)
    {
      t := LexToken(k, source[start..pos], line, (column - (pos - start)) % WRAP);
    }

    // The next token, with its first character still to be read. Nothing, where the text
    // would be read past its end.
    method NextToken() returns (t: Option<LexToken>)
      requires Valid()
      modifies this
      ensures Valid()
      ensures NextFrom(source, old(pos)).token.kind.Hash? ==> t.None?
      ensures !NextFrom(source, old(pos)).token.kind.Hash? ==>
        t.Some? && Step(t.value, pos) == NextFrom(source, old(pos)) &&
        reports == old(reports) + StepFaults(source, old(pos))
    {
      SkipWhitespaceAndComments();
      if pos == |source| {
        var end := Finish(Eof, pos);
        t := Some(end);
      } else if source[pos] == '#' {
        t := None;
      } else {
        var token := ScanNext();
        t := Some(token);
      }
    }

    method ScanNext() returns (t: LexToken)
      requires Valid() && pos < |source| && source[pos] != '#'
      modifies this
      ensures Valid() && pos == ScanToken(source, old(pos)).end
      ensures t == TokenAt(source, old(pos)) && reports == old(reports) + FaultsAt(source, old(pos))
    {
      var ch := source[pos];
      if IsAlpha(ch) || ch == '_' {
        t := LexIdentifierOrKeyword();
      } else if IsDigit(ch) {
        t := LexNumber();
      } else if ch == '"' {
        t := LexString();
      } else if ch == '\'' {
        t := LexChar();
      } else {
        t := LexOperator();
      }
    }

    method LexIdentifierOrKeyword() returns (t: LexToken)
      requires Valid() && pos < |source| && IsWordChar(source[pos])
      modifies this`pos, this`line, this`column
      ensures Valid() && Made(t, old(pos), ScanWord(source, old(pos)))
    {
      var start := pos;
      AdvanceRun(Word);
      t := Finish(WordKind(source[start..pos]), start);
    }

    // The token of a scan, and the position behind it.
    ghost predicate Made(t: LexToken, start: nat, r: Scan)
      reads this
    {
      pos == r.end && start <= pos <= |source| && t == MakeToken(source, r.kind, start, pos)
    }

    method LexNumber() returns (t: LexToken)
      requires Valid() && pos < |source| && IsDigit(source[pos])
      modifies this`pos, this`line, this`column
      ensures Valid() && Made(t, old(pos), ScanNumber(source, old(pos)))
    {
      var start := pos;
      if source[pos] == '0' {
        Advance();
        var radix := Radix(Peek(source, pos));
        if radix.Some? {
          Advance();
          AdvanceRun(radix.value);
          t := Finish(IntLiteral, start);
          return;
        }
      }
      AdvanceRun(Decimal);
      t := LexFraction(start);
    }

    // Behind the decimal digits; `start` is where the token begins.
    method LexFraction(start: nat) returns (t: LexToken)
      requires Valid() && start <= pos
      modifies this`pos, this`line, this`column
      ensures Valid() && Made(t, start, ScanFraction(source, old(pos)))
    {
      var isFloat := Peek(source, pos) == '.' && IsDigit(Peek(source, pos + 1));
      if isFloat {
        Advance();
        AdvanceRun(Decimal);
      }
      t := LexExponent(start, isFloat);
    }

    method LexExponent(start: nat, isFloat: bool) returns (t: LexToken)
      requires Valid() && start <= pos
      modifies this`pos, this`line, this`column
      ensures Valid() && Made(t, start, ScanExponent(source, old(pos), isFloat))
    {
      var kind := if isFloat then FloatLiteral else IntLiteral;
      if Peek(source, pos) == 'e' || Peek(source, pos) == 'E' {
        kind := FloatLiteral;
        Advance();
        if Peek(source, pos) == '+' || Peek(source, pos) == '-' {
          Advance();
        }
        AdvanceRun(Decimal);
      }
      t := Finish(kind, start);
    }

    method LexString() returns (t: LexToken)
      requires Valid() && pos < |source|
      modifies this
      ensures Valid() && Made(t, old(pos), ScanString(source, old(pos) + 1))
      ensures var r := ScanString(source, old(pos) + 1);
              reports == old(reports) + if r.fault.Some? then [ReportAt(source, old(pos) + 1, r.fault.value)] else []
    {
      var start := pos;
      Advance();
      var openLine, openColumn := line, column;
      while pos < |source|
        invariant Valid() && start < pos && reports == old(reports)
        invariant ScanString(source, pos) == ScanString(source, start + 1)
        decreases |source| - pos
      {
        var ch := source[pos];
        Advance();
        if ch == '"' {
          t := Finish(StringLiteral, start);
          return;
        }
        if ch == '\\' && pos < |source| {
          Advance();
        }
        if ch == '\n' {
          Complain(UnterminatedString, openLine, openColumn);
          t := Finish(Error, start);
          return;
        }
      }
      Complain(UnterminatedString, openLine, openColumn);
      t := Finish(Error, start);
    }

    method LexChar() returns (t: LexToken)
      requires Valid() && pos < |source|
      modifies this
      ensures Valid() && Made(t, old(pos), ScanChar(source, old(pos) + 1))
      ensures var r := ScanChar(source, old(pos) + 1);
              reports == old(reports) + if r.fault.Some? then [ReportAt(source, old(pos) + 1, r.fault.value)] else []
    {
      var start := pos;
      Advance();
      var openLine, openColumn := line, column;
      if pos == |source| {
        Complain(UnterminatedChar, openLine, openColumn);
        t := Finish(Error, start);
        return;
      }
      if source[pos] == '\\' {
        Advance();
      }
      if pos < |source| {
        Advance();
      }
      t := CloseChar(start, openLine, openColumn);
    }

    // Behind the character.
    method CloseChar(start: nat, openLine: nat, openColumn: nat) returns (t: LexToken)
      requires Valid() && start <= pos
      modifies this
      ensures Valid() && Made(t, start, ScanCharEnd(source, old(pos)))
      ensures var r := ScanCharEnd(source, old(pos));
              reports == old(reports) + if r.fault.Some? then [Report(openLine, openColumn, r.fault.value)] else []
    {
      var closed := Match('\'');
      if closed {
        t := Finish(CharLiteral, start);
      } else {
        Complain(LongChar, openLine, openColumn);
        AdvanceRun(Quoted);
        var _ := Match('\'');
        t := Finish(Error, start);
      }
    }

    method LexOperator() returns (t: LexToken)
      requires Valid() && pos < |source| && source[pos] != '#'
      modifies this
      ensures Valid() && pos == ScanOperator(source, old(pos)).end
      ensures var r := ScanOperator(source, old(pos));
              && t == (if r.fault.Some? then LexToken(Error, [source[old(pos)]], line, column)
                       else MakeToken(source, r.kind, old(pos), pos))
              && reports == old(reports) + if r.fault.Some? then [Report(line, column, r.fault.value)] else []
    {
      var start := pos;
      var ch := source[pos];
      var pair := PairKind(ch, Peek(source, pos + 1));
      if pair == Some(DotDot) && Peek(source, pos + 2) == '.' {
        AdvanceBy(3);
        t := Finish(DotDotDot, start);
      } else if pair.Some? {
        AdvanceBy(2);
        t := Finish(pair.value, start);
      } else {
        Advance();
        if SingleKind(ch).Some? {
          t := Finish(SingleKind(ch).value, start);
        } else {
          Complain(UnexpectedChar, line, column);
          t := LexToken(Error, [ch], line, column);
        }
      }
    }

    // All tokens, up to and including Eof.
    method Tokenize() returns (ts: Option<seq<LexToken>>)
      requires Valid()
      modifies this
      ensures Valid() && ts == Tokenized(source, old(pos))
    {
      var tokens := [];
      ghost var whole := TokensFrom(source, pos);
      ghost var rest := whole;
      var more := true;
      while more
        invariant Valid() && whole == tokens + rest && rest == if more then TokensFrom(source, pos) else []
        invariant PastEnd(source, old(pos)) == (more && PastEnd(source, pos))
        decreases more, |source| - pos
      {
        TokensUnfold(source, pos, NextFrom(source, pos));
        var t := NextToken();
        if t.None? {
          return None;
        }
        more := !t.value.kind.Eof?;
        rest := if more then TokensFrom(source, pos) else [];
        ListStep(tokens, t.value, rest);
        tokens := tokens + [t.value];
      }
      assert tokens + [] == tokens;
      ts := Some(tokens);
    }
  }
}
