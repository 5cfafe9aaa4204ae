// Where tokens are said to be, and what a diagnostic shows for them.
module TokenLocations {
  import opened Common
  import opened Scanning
  import opened Lexing
  import opened C = Coordinates

  // The location is counted back from the end of the token: it is the token's start
  // exactly when the token lies on one line, and is not an unexpected character.
  lemma LocatedAtStart(s: string, p: nat)
    requires p < |s| < WRAP && !Skippable(s, p)
    ensures var t := TokenAt(s, p);
      (t.line == LineOf(s, p) && t.column == ColumnOf(s, p)) <==>
      (NoNewline(t.lexeme) && ScanToken(s, p).fault != Some(UnexpectedChar))
  {
    var q := ScanToken(s, p).end;
    if ScanToken(s, p).fault == Some(UnexpectedChar) {
      assert s[p] != '\n';
    } else if NoNewline(s[p..q]) {
      SameLine(s, p, q);
    } else {
      LinesGrow(s, p, q);
    }
  }

  predicate OneLine(s: string, p: nat, q: nat)
    requires p <= q <= |s|
  {
    forall k :: p <= k < q ==> s[k] != '\n'
  }

  lemma ExponentOnOneLine(s: string, p: nat, i: nat, isFloat: bool)
    requires p <= i <= |s| && OneLine(s, p, i)
    ensures OneLine(s, p, ScanExponent(s, i, isFloat).end)
  {
  }

  lemma NumberOnOneLine(s: string, p: nat)
    requires p < |s| && IsDigit(s[p])
    ensures OneLine(s, p, ScanNumber(s, p).end)
  {
    if s[p] != '0' || Radix(Peek(s, p + 1)).None? {
      FractionOnOneLine(s, p, RunEnd(s, p + 1, Decimal));
    }
  }

  lemma FractionOnOneLine(s: string, p: nat, i: nat)
    requires p <= i <= |s| && OneLine(s, p, i)
    ensures OneLine(s, p, ScanFraction(s, i).end)
  {
    if Peek(s, i) == '.' && IsDigit(Peek(s, i + 1)) {
      ExponentOnOneLine(s, p, RunEnd(s, i + 1, Decimal), true);
    } else {
      ExponentOnOneLine(s, p, i, false);
    }
  }

  lemma OperatorOnOneLine(s: string, p: nat)
    requires p < |s| && s[p] != '\n'
    ensures OneLine(s, p, ScanOperator(s, p).end)
  {
    assert PairKind(s[p], '\n').None?;
  }

  // Only text in quotes spans lines.
  lemma NewlineOnlyInQuotes(s: string, p: nat)
    requires p < |s| && !Skippable(s, p) && s[p] != '"' && s[p] != '\''
    ensures OneLine(s, p, ScanToken(s, p).end) && NoNewline(TokenAt(s, p).lexeme)
  {
    if IsAlpha(s[p]) || s[p] == '_' {
    } else if IsDigit(s[p]) {
      NumberOnOneLine(s, p);
    } else {
      OperatorOnOneLine(s, p);
    }
  }

  // The line at a token's location, cut at its column for the length of the lexeme, is the
  // lexeme: a caret and its tildes stand under the token.
  lemma CaretUnderToken(s: string, p: nat)
    requires p < |s| < WRAP && !Skippable(s, p) && ScanToken(s, p).fault != Some(UnexpectedChar)
    requires NoNewline(TokenAt(s, p).lexeme)
    ensures var t := TokenAt(s, p); var shown := LineText(s, t.line);
      && 1 <= t.column && t.column - 1 + |t.lexeme| <= |shown|
      && shown[t.column - 1..][..|t.lexeme|] == t.lexeme
  {
    LocatedAtStart(s, p);
    LineTextAround(s, p);
    CaretUnderText(s, p, ScanToken(s, p).end);
  }
}
