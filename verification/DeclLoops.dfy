// The loops over the fields of a structure and over the variants of an enumeration. On some
// tokens a round of the loop reads nothing, and then the parser never gets past them.
module DeclLoops {
  import opened Tokens
  import opened Grammar

  datatype Which = Fields | Variants

  // One round.
  function Round(w: Which, ts: Stream, c: Cursor): (d: Cursor)
    requires In(ts, c)
    ensures In(ts, d) && c.pos <= d.pos
  {
    if w.Fields? then Field(ts, c) else Variant(ts, c)
  }

  function Field(ts: Stream, c: Cursor): (d: Cursor)
    requires In(ts, c)
    ensures In(ts, d) && c.pos <= d.pos
  {
    var name := Expect(ts, Optional(ts, c, KwPub), Identifier, "expected field name");
    Optional(ts, Type(Pratt, ts, Expect(ts, name, Colon, "expected ':' after field name")).c, Comma)
  }

  function Variant(ts: Stream, c: Cursor): (d: Cursor)
    requires In(ts, c)
    ensures In(ts, d) && c.pos <= d.pos
  {
    var name := Expect(ts, c, Identifier, "expected variant name");
    var end := if Current(ts, name).LParen?
               then Expect(ts, Types(Pratt, ts, Advance(ts, name)).c, RParen, "expected ')' after variant fields")
               else name;
    Optional(ts, end, Comma)
  }

  // The loop goes on here.
  predicate GoesOn(ts: Stream, c: Cursor) {
    In(ts, c) && !Current(ts, c).RBrace? && !Current(ts, c).Eof?
  }

  predicate Readable(w: Which, k: Kind) {
    if w.Fields? then k in {KwPub, Identifier, Colon, Star, LBracket, KwFn, KwFun, ColonColon, Comma}
    else k in {Identifier, LParen, Comma}
  }

  lemma TypeMoves(ts: Stream, c: Cursor)
    requires In(ts, c) && !Current(ts, c).Eof?
    ensures c.pos < Type(Pratt, ts, c).c.pos <==>
      Current(ts, c) in {Star, LBracket, KwFn, KwFun, Identifier, ColonColon}
  {
    if Current(ts, c) !in {Star, LBracket, KwFn, KwFun, Identifier, ColonColon} {
      assert Type(Pratt, ts, c) == NamedType(ts, c);
    }
  }

  // A round gets on exactly at one of these tokens.
  lemma RoundMoves(w: Which, ts: Stream, c: Cursor)
    requires GoesOn(ts, c)
    ensures c.pos < Round(w, ts, c).pos <==> Readable(w, Current(ts, c))
  {
    if w.Fields? {
      FieldMoves(ts, c);
    } else {
      VariantMoves(ts, c);
    }
  }

  lemma FieldMoves(ts: Stream, c: Cursor)
    requires GoesOn(ts, c)
    ensures c.pos < Field(ts, c).pos <==> Readable(Fields, Current(ts, c))
  {
    var k := Current(ts, c);
    var start := Optional(ts, c, KwPub);
    var name := Expect(ts, start, Identifier, "expected field name");
    var typed := Expect(ts, name, Colon, "expected ':' after field name");
    if !k.KwPub? && !k.Identifier? && !k.Colon? {
      assert start.pos == name.pos == typed.pos == c.pos;
      TypeMoves(ts, typed);
    }
  }

  lemma VariantMoves(ts: Stream, c: Cursor)
    requires GoesOn(ts, c)
    ensures c.pos < Variant(ts, c).pos <==> Readable(Variants, Current(ts, c))
  {
    var name := Expect(ts, c, Identifier, "expected variant name");
    if !Current(ts, c).Identifier? {
      assert name.pos == c.pos;
    }
  }

  // A loop as the step it takes from a cursor, and the kinds of token it can get past.
  ghost predicate Steps(ts: Stream, step: Cursor -> Cursor, passes: Kind -> bool) {
    forall c {:trigger step(c)} :: GoesOn(ts, c) ==>
      In(ts, step(c)) && c.pos <= step(c).pos && (c.pos < step(c).pos <==> passes(Current(ts, c)))
  }

  // After n rounds.
  ghost function Rounds(ts: Stream, step: Cursor -> Cursor, c: Cursor, n: nat): Cursor
    decreases n
  {
    if n == 0 || !GoesOn(ts, c) then c else Rounds(ts, step, step(c), n - 1)
  }

  ghost predicate StuckAfter(ts: Stream, step: Cursor -> Cursor, passes: Kind -> bool, c: Cursor, n: nat) {
    GoesOn(ts, Rounds(ts, step, c, n)) && !passes(Current(ts, Rounds(ts, step, c, n)))
  }

  // At a token it cannot get past the loop stays for ever.
  lemma {:induction false} Stays(ts: Stream, step: Cursor -> Cursor, passes: Kind -> bool, c: Cursor, n: nat, m: nat)
    requires Steps(ts, step, passes) && StuckAfter(ts, step, passes, c, n)
    ensures GoesOn(ts, Rounds(ts, step, c, m))
    decreases n + m
  {
    if m > 0 {
      if n == 0 {
        assert step(c).pos == c.pos;
        Stays(ts, step, passes, step(c), 0, m - 1);
      } else {
        Stays(ts, step, passes, step(c), n - 1, m - 1);
      }
    }
  }

  // Elsewhere every round reads a token.
  lemma {:induction false} Reads(ts: Stream, step: Cursor -> Cursor, passes: Kind -> bool, c: Cursor, n: nat)
    requires Steps(ts, step, passes) && In(ts, c) && GoesOn(ts, Rounds(ts, step, c, n))
    requires forall i :: 0 <= i < n ==> !StuckAfter(ts, step, passes, c, i)
    ensures In(ts, Rounds(ts, step, c, n)) && c.pos + n <= Rounds(ts, step, c, n).pos
    decreases n
  {
    if n > 0 {
      assert !StuckAfter(ts, step, passes, c, 0);
      assert c.pos < step(c).pos;
      forall i | 0 <= i < n - 1 ensures !StuckAfter(ts, step, passes, step(c), i) {
        assert !StuckAfter(ts, step, passes, c, i + 1);
      }
      Reads(ts, step, passes, step(c), n - 1);
    }
  }

  // One of the two loops.
  ghost function StepOf(w: Which, ts: Stream): Cursor -> Cursor {
    (c: Cursor) => if In(ts, c) then Round(w, ts, c) else c
  }

  ghost function PassesOf(w: Which): Kind -> bool {
    k => Readable(w, k)
  }

  lemma LoopSteps(w: Which, ts: Stream)
    ensures Steps(ts, StepOf(w, ts), PassesOf(w))
  {
    var step := StepOf(w, ts);
    forall c | GoesOn(ts, c)
      ensures In(ts, step(c)) && c.pos <= step(c).pos && (c.pos < step(c).pos <==> PassesOf(w)(Current(ts, c)))
    {
      RoundMoves(w, ts, c);
    }
  }

  // The loop runs for ever if and only if it comes, within as many rounds as there are
  // tokens, to one it cannot read.
  lemma LoopHangsIff(w: Which, ts: Stream, c: Cursor)
    requires In(ts, c)
    ensures (forall n: nat :: GoesOn(ts, Rounds(ts, StepOf(w, ts), c, n)))
       <==> exists n: nat :: n <= |ts| && StuckAfter(ts, StepOf(w, ts), PassesOf(w), c, n)
  {
    LoopSteps(w, ts);
    HangsIff(ts, StepOf(w, ts), PassesOf(w), c);
  }

  lemma HangsIff(ts: Stream, step: Cursor -> Cursor, passes: Kind -> bool, c: Cursor)
    requires Steps(ts, step, passes) && In(ts, c)
    ensures (forall n: nat :: GoesOn(ts, Rounds(ts, step, c, n)))
       <==> exists n: nat :: n <= |ts| && StuckAfter(ts, step, passes, c, n)
  {
    if n: nat :| n <= |ts| && StuckAfter(ts, step, passes, c, n) {
      forall m: nat ensures GoesOn(ts, Rounds(ts, step, c, m)) {
        Stays(ts, step, passes, c, n, m);
      }
    } else {
      EndsSomewhere(ts, step, passes, c);
    }
  }

  lemma EndsSomewhere(ts: Stream, step: Cursor -> Cursor, passes: Kind -> bool, c: Cursor)
    requires Steps(ts, step, passes) && In(ts, c)
    requires forall n: nat :: n <= |ts| ==> !StuckAfter(ts, step, passes, c, n)
    ensures !GoesOn(ts, Rounds(ts, step, c, |ts|))
  {
    if GoesOn(ts, Rounds(ts, step, c, |ts|)) {
      Reads(ts, step, passes, c, |ts|);
    }
  }

  // `struct S { ; }`: the parser never gets past the semicolon.
  lemma SemicolonAmongFields(name: Token, ts: Stream)
    requires ts == [Token(KwStruct, "struct", 0), name, Token(LBrace, "{", 0), Token(Semicolon, ";", 0),
                    Token(RBrace, "}", 0), Token(Eof, "", 0)]
    ensures forall n: nat :: GoesOn(ts, Rounds(ts, StepOf(Fields, ts), Cursor(3, []), n))
  {
    var c := Cursor(3, []);
    assert Rounds(ts, StepOf(Fields, ts), c, 0) == c && Current(ts, c).Semicolon?;
    assert StuckAfter(ts, StepOf(Fields, ts), PassesOf(Fields), c, 0);
    LoopHangsIff(Fields, ts, c);
  }
}
