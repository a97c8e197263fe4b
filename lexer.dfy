/** The lexer of lexer/lexer.go: a cursor over the input's characters that
    hands out one token per NextToken call.

    The class keeps the Go fields and updates them in place; the functions
    below the class say, position by position, what each method computes.
    A position may run past the end of the input: reading there yields the
    NUL character, as in the Go code. */
module Lexer {
  import opened Token
  import opened Wrappers

  const NUL: char := '\0'

  predicate IsWhitespace(c: char) {
    c == ' ' || c == '\t' || c == '\n' || c == '\r'
  }

  predicate IsDigit(c: char) {
    '0' <= c <= '9'
  }

  /** Characters that may continue an identifier: anything that is not a
      digit, whitespace or NUL (so operator characters are included). */
  predicate IsIdentifier(c: char) {
    !IsDigit(c) && !IsWhitespace(c) && c != NUL
  }

  function NewToken(kind: Kind, c: char): (t: Token)
    ensures t.kind == kind && |t.literal| == 1 && t.literal[0] == c
  {
    Token(kind, [c])
  }

  /** The character at position p, NUL at and after the end. */
  function CharAt(cs: seq<char>, p: nat): char {
    if p < |cs| then cs[p] else NUL
  }

  /** The text between two positions, empty when they are not a range of
      the input. */
  function Sub(cs: seq<char>, p: nat, q: nat): (s: seq<char>)
    ensures p <= q <= |cs| ==> s == cs[p..q]
  {
    if p <= q <= |cs| then cs[p..q] else []
  }

  /** The first position at or after p that is not whitespace. */
  function SkipFrom(cs: seq<char>, p: nat): (q: nat)
    ensures p <= q && !IsWhitespace(CharAt(cs, q))
    ensures forall k | p <= k < q :: IsWhitespace(CharAt(cs, k))
    decreases |cs| - p
  {
    if IsWhitespace(CharAt(cs, p)) then SkipFrom(cs, p + 1) else p
  }

  /** The end of the run of digits that starts at p. */
  function DigitsEnd(cs: seq<char>, p: nat): (q: nat)
    ensures p <= q && !IsDigit(CharAt(cs, q))
    ensures forall k | p <= k < q :: IsDigit(CharAt(cs, k))
    ensures q == p || q <= |cs|
    decreases |cs| - p
  {
    if IsDigit(CharAt(cs, p)) then DigitsEnd(cs, p + 1) else p
  }

  /** The end of the run of identifier characters that starts at p. */
  function IdentEnd(cs: seq<char>, p: nat): (q: nat)
    ensures p <= q && !IsIdentifier(CharAt(cs, q))
    ensures forall k | p <= k < q :: IsIdentifier(CharAt(cs, k))
    ensures q == p || q <= |cs|
    decreases |cs| - p
  {
    if IsIdentifier(CharAt(cs, p)) then IdentEnd(cs, p + 1) else p
  }

  predicate AllDigits(s: seq<char>) {
    forall k | 0 <= k < |s| :: IsDigit(s[k])
  }

  /** An unsigned literal: digits, optionally followed by a point and more
      digits. */
  predicate Unsigned(s: seq<char>) {
    (|s| > 0 && AllDigits(s)) || exists i | 0 < i < |s| - 1 :: PointAt(s, i)
  }

  /** `s` is digits, a point at position i, and digits. */
  predicate PointAt(s: seq<char>, i: int) {
    0 < i < |s| - 1 && s[i] == '.' && AllDigits(s[..i]) && AllDigits(s[i + 1..])
  }

  /** The literal of a NUMBER token: an unsigned literal, optionally after a
      minus sign. */
  predicate NumberLiteral(s: seq<char>) {
    Unsigned(s) || (|s| > 1 && s[0] == '-' && Unsigned(s[1..]))
  }

  lemma RunIsDigits(cs: seq<char>, p: nat, q: nat)
    requires p <= q <= |cs|
    requires forall k | p <= k < q :: IsDigit(CharAt(cs, k))
    ensures AllDigits(cs[p..q])
  {
    forall k | 0 <= k < q - p ensures IsDigit(cs[p..q][k]) {
      assert CharAt(cs, p + k) == cs[p..q][k];
    }
  }

  /** What readDecimal reads from position p: the literal and the position
      after it. The fraction is taken only when a digit follows the point. */
  function Decimal(cs: seq<char>, p: nat): (r: (string, nat))
    ensures p <= r.1
    ensures r.1 == p || r.1 <= |cs|
    ensures IsDigit(CharAt(cs, p)) ==> p < r.1 && r.0 == Sub(cs, p, r.1)
    ensures !IsDigit(CharAt(cs, r.1))
  {
    var i := DigitsEnd(cs, p);
    if CharAt(cs, i) == '.' && IsDigit(CharAt(cs, i + 1)) then
      var j := DigitsEnd(cs, i + 1);
      var lit := Sub(cs, p, i) + "." + Sub(cs, i + 1, j);
      assert IsDigit(CharAt(cs, p)) ==> lit == Sub(cs, p, j) by {
        if IsDigit(CharAt(cs, p)) {
          assert cs[p..j] == cs[p..i] + [cs[i]] + cs[i + 1..j];
        }
      }
      (lit, j)
    else
      (Sub(cs, p, i), i)
  }

  /** Digits, a point and digits make an unsigned literal. */
  lemma PointedUnsigned(a: seq<char>, b: seq<char>)
    requires |a| > 0 && AllDigits(a) && |b| > 0 && AllDigits(b)
    ensures Unsigned(a + "." + b)
  {
    var lit := a + "." + b;
    assert lit[..|a|] == a && lit[|a| + 1..] == b;
    assert PointAt(lit, |a|);
  }

  /** What readDecimal reads from a digit is an unsigned literal. */
  lemma DecimalUnsigned(cs: seq<char>, p: nat)
    requires IsDigit(CharAt(cs, p))
    ensures Unsigned(Decimal(cs, p).0)
  {
    var i := DigitsEnd(cs, p);
    if CharAt(cs, i) == '.' && IsDigit(CharAt(cs, i + 1)) {
      DecimalPointed(cs, p, i);
    } else {
      DecimalWhole(cs, p, i);
    }
  }

  /** DecimalUnsigned for a literal without a point. */
  lemma DecimalWhole(cs: seq<char>, p: nat, i: nat)
    requires IsDigit(CharAt(cs, p)) && i == DigitsEnd(cs, p)
    requires !(CharAt(cs, i) == '.' && IsDigit(CharAt(cs, i + 1)))
    ensures Unsigned(Decimal(cs, p).0)
  {
    RunIsDigits(cs, p, i);
    assert Decimal(cs, p).0 == cs[p..i];
  }

  /** DecimalUnsigned for a literal with a point. */
  lemma DecimalPointed(cs: seq<char>, p: nat, i: nat)
    requires IsDigit(CharAt(cs, p)) && i == DigitsEnd(cs, p)
    requires CharAt(cs, i) == '.' && IsDigit(CharAt(cs, i + 1))
    ensures Unsigned(Decimal(cs, p).0)
  {
    var j := DigitsEnd(cs, i + 1);
    RunIsDigits(cs, p, i);
    RunIsDigits(cs, i + 1, j);
    PointedUnsigned(cs[p..i], cs[i + 1..j]);
    assert Decimal(cs, p).0 == Sub(cs, p, i) + "." + Sub(cs, i + 1, j);
  }

  /** The NUMBER token that starts at s, with the position after it: a
      minus sign directly before a digit belongs to the literal, and after a
      signed number the character that follows it is skipped as well. */
  function NumberStep(cs: seq<char>, s: nat): (r: (Token, nat))
    requires IsDigit(CharAt(cs, s)) || (CharAt(cs, s) == '-' && IsDigit(CharAt(cs, s + 1)))
    ensures r.0.kind == NUMBER && |r.0.literal| > 0
    ensures r.0.literal == Sub(cs, s, s + |r.0.literal|)
    ensures r.1 == s + |r.0.literal| + (if r.0.literal[0] == '-' then 1 else 0)
    ensures s < r.1 <= |cs| + 1
  {
    if CharAt(cs, s) == '-' then
      var d := Decimal(cs, s + 1);
      SignedNumber(cs, s);
      (Token(NUMBER, "-" + d.0), d.1 + 1)
    else
      var d := Decimal(cs, s);
      UnsignedNumber(cs, s);
      (Token(NUMBER, d.0), d.1)
  }

  /** The literal of the NUMBER token that starts at s is a well-formed
      number. */
  lemma NumberStepLiteral(cs: seq<char>, s: nat)
    requires IsDigit(CharAt(cs, s)) || (CharAt(cs, s) == '-' && IsDigit(CharAt(cs, s + 1)))
    ensures NumberLiteral(NumberStep(cs, s).0.literal)
  {
    if CharAt(cs, s) == '-' {
      NumberStepSigned(cs, s);
      DecimalUnsigned(cs, s + 1);
      var m := Decimal(cs, s + 1).0;
      assert ("-" + m)[1..] == m;
    } else {
      NumberStepUnsigned(cs, s);
      DecimalUnsigned(cs, s);
    }
  }

  /** The facts NumberToken states, for the step r taken at a number. */
  lemma NumberStepFacts(cs: seq<char>, s: nat, r: (Token, nat))
    requires IsDigit(CharAt(cs, s)) || (CharAt(cs, s) == '-' && IsDigit(CharAt(cs, s + 1)))
    requires r == NumberStep(cs, s)
    ensures NumberLiteral(r.0.literal)
    ensures r.0.literal == Sub(cs, s, s + |r.0.literal|)
    ensures r.1 == s + |r.0.literal| + (if r.0.literal[0] == '-' then 1 else 0)
  {
    NumberStepLiteral(cs, s);
  }

  lemma NumberStepSigned(cs: seq<char>, s: nat)
    requires CharAt(cs, s) == '-' && IsDigit(CharAt(cs, s + 1))
    ensures NumberStep(cs, s) == (Token(NUMBER, "-" + Decimal(cs, s + 1).0), Decimal(cs, s + 1).1 + 1)
  {
  }

  lemma NumberStepUnsigned(cs: seq<char>, s: nat)
    requires IsDigit(CharAt(cs, s))
    ensures NumberStep(cs, s) == (Token(NUMBER, Decimal(cs, s).0), Decimal(cs, s).1)
  {
  }

  /** What NextToken returns when the cursor is at position p, together with
      the cursor position afterwards. */
  function Step(cs: seq<char>, p: nat): (r: (Token, nat))
    ensures r.0.kind == EOF <==> CharAt(cs, SkipFrom(cs, p)) == NUL
    ensures p < r.1 <= |cs| + 1 || (r.0.kind == EOF && r.1 == SkipFrom(cs, p) + 1)
  {
    var s := SkipFrom(cs, p);
    var c := CharAt(cs, s);
    assert c != NUL ==> p <= s < |cs|;
    if c == '+' then (NewToken(PLUS, c), s + 1)
    else if c == '%' then (NewToken(MOD, c), s + 1)
    else if c == '^' then (NewToken(POWER, c), s + 1)
    else if c == '-' then
      if IsDigit(CharAt(cs, s + 1)) then NumberStep(cs, s)
      else (NewToken(MINUS, c), s + 1)
    else if c == '/' then (NewToken(SLASH, c), s + 1)
    else if c == '*' then (NewToken(ASTERISK, c), s + 1)
    else if c == NUL then (Token(EOF, ""), s + 1)
    else if IsDigit(c) then NumberStep(cs, s)
    else WordStep(cs, s)
  }

  /** The token for the identifier run that starts at s, with the position
      after it: the run is classified by the keyword table, and the character
      that follows it is skipped as well. */
  function WordStep(cs: seq<char>, s: nat): (r: (Token, nat))
  {
    var q := IdentEnd(cs, s);
    var lit := Sub(cs, s, q);
    var kind := LookupIdentifier(lit);
    (Token(kind, if kind == ERROR then "Unknown token " + lit else lit), q + 1)
  }

  /** The tokens a fresh lexer hands out from position p up to and including
      the first EOF. */
  function Tokens(cs: seq<char>, p: nat): (ts: seq<Token>)
    ensures |ts| > 0 && ts[|ts| - 1].kind == EOF
    decreases |cs| + 1 - p
  {
    var (t, q) := Step(cs, p);
    if t.kind == EOF then [t] else [t] + Tokens(cs, q)
  }

  /** The single-character operators and the kind each one yields. */
  function OperatorKind(c: char): (k: Option<Kind>)
    ensures k.Some? <==> c in "+-*/%^"
  {
    if c == '+' then Some(PLUS)
    else if c == '-' then Some(MINUS)
    else if c == '*' then Some(ASTERISK)
    else if c == '/' then Some(SLASH)
    else if c == '%' then Some(MOD)
    else if c == '^' then Some(POWER)
    else None
  }

  /** An operator token is produced exactly for an operator character, except
      a minus sign directly followed by a digit; it carries that character
      and the cursor moves just past it. */
  lemma OperatorToken(cs: seq<char>, p: nat)
    ensures var s := SkipFrom(cs, p); var c := CharAt(cs, s); var (t, q) := Step(cs, p);
      && (t.kind in {PLUS, MINUS, ASTERISK, SLASH, MOD, POWER} <==>
            (OperatorKind(c).Some? && !(c == '-' && IsDigit(CharAt(cs, s + 1)))))
      && (t.kind in {PLUS, MINUS, ASTERISK, SLASH, MOD, POWER} ==>
            (t == Token(OperatorKind(c).value, [c]) && q == s + 1))
  {
    var s := SkipFrom(cs, p);
    var c := CharAt(cs, s);
    if IsDigit(c) || (c == '-' && IsDigit(CharAt(cs, s + 1))) {
      StepAtNumber(cs, p, s);
    } else if OperatorKind(c).Some? {
      StepAtOperator(cs, p, s, OperatorKind(c).value);
    } else if c == NUL {
      StepAtEnd(cs, p, s);
    } else {
      StepAtIdentifier(cs, p, s);
      LookupNeverOperator(Sub(cs, s, IdentEnd(cs, s)));
    }
  }

  lemma SignedNumber(cs: seq<char>, s: nat)
    requires CharAt(cs, s) == '-' && IsDigit(CharAt(cs, s + 1))
    ensures var d := Decimal(cs, s + 1); var l := "-" + d.0;
      && l == Sub(cs, s, s + |l|) && d.1 == s + |l|
      && l[0] == '-' && d.1 <= |cs|
  {
    var d := Decimal(cs, s + 1);
    assert s + 1 < d.1 <= |cs|;
    assert d.0 == cs[s + 1..d.1];
    assert "-" + d.0 == cs[s..d.1];
  }

  /** A NUMBER token's literal is a well-formed number copied from the input
      where the token starts; after a signed number the cursor has also
      stepped over the character that follows it. */
  lemma NumberToken(cs: seq<char>, p: nat)
    ensures NumberShaped(cs, SkipFrom(cs, p), Step(cs, p))
  {
    var s := SkipFrom(cs, p);
    var c := CharAt(cs, s);
    if IsDigit(c) || (c == '-' && IsDigit(CharAt(cs, s + 1))) {
      NumberTokenAt(cs, p, s, Step(cs, p));
    } else {
      StepElsewhere(cs, p);
    }
  }

  /** What NumberToken states about the step r whose token starts at s. */
  predicate NumberShaped(cs: seq<char>, s: nat, r: (Token, nat))
  {
    r.0.kind == NUMBER ==>
      && NumberLiteral(r.0.literal)
      && r.0.literal == Sub(cs, s, s + |r.0.literal|)
      && r.1 == s + |r.0.literal| + (if r.0.literal[0] == '-' then 1 else 0)
  }

  /** NumberToken at a position where a number starts. */
  lemma NumberTokenAt(cs: seq<char>, p: nat, s: nat, r: (Token, nat))
    requires s == SkipFrom(cs, p) && r == Step(cs, p)
    requires IsDigit(CharAt(cs, s)) || (CharAt(cs, s) == '-' && IsDigit(CharAt(cs, s + 1)))
    ensures NumberShaped(cs, s, r)
  {
    StepAtNumber(cs, p, s);
    NumberStepFacts(cs, s, r);
  }

  /** A single-character operator, other than a minus sign before a digit,
      is a token of its own. */
  lemma StepAtOperator(cs: seq<char>, p: nat, s: nat, k: Kind)
    requires s == SkipFrom(cs, p) && OperatorKind(CharAt(cs, s)) == Some(k)
    requires !(CharAt(cs, s) == '-' && IsDigit(CharAt(cs, s + 1)))
    ensures Step(cs, p) == (NewToken(k, CharAt(cs, s)), s + 1)
  {
  }

  /** NUL, read at or past the end of the input, is the end of the input. */
  lemma StepAtEnd(cs: seq<char>, p: nat, s: nat)
    requires s == SkipFrom(cs, p) && CharAt(cs, s) == NUL
    ensures Step(cs, p) == (Token(EOF, ""), s + 1)
  {
  }

  /** Every other character starts an identifier run. */
  lemma StepAtIdentifier(cs: seq<char>, p: nat, s: nat)
    requires s == SkipFrom(cs, p)
    requires OperatorKind(CharAt(cs, s)).None? && CharAt(cs, s) != NUL && !IsDigit(CharAt(cs, s))
    ensures Step(cs, p) == WordStep(cs, s)
  {
  }

  /** A digit, or a minus sign before a digit, starts a number. */
  lemma StepAtNumber(cs: seq<char>, p: nat, s: nat)
    requires s == SkipFrom(cs, p)
    requires IsDigit(CharAt(cs, s)) || (CharAt(cs, s) == '-' && IsDigit(CharAt(cs, s + 1)))
    ensures Step(cs, p) == NumberStep(cs, s)
  {
  }

  /** Any other character yields no number. */
  lemma StepElsewhere(cs: seq<char>, p: nat)
    requires var s := SkipFrom(cs, p); var c := CharAt(cs, s);
      !(IsDigit(c) || (c == '-' && IsDigit(CharAt(cs, s + 1))))
    ensures Step(cs, p).0.kind != NUMBER
  {
    var s := SkipFrom(cs, p);
    LookupNeverOperator(Sub(cs, s, IdentEnd(cs, s)));
  }

  lemma UnsignedNumber(cs: seq<char>, s: nat)
    requires IsDigit(CharAt(cs, s))
    ensures var d := Decimal(cs, s);
      && d.0 == Sub(cs, s, s + |d.0|) && d.1 == s + |d.0|
      && d.0[0] != '-' && s < d.1 <= |cs|
  {
    var d := Decimal(cs, s);
    assert s < d.1 <= |cs|;
    assert d.0 == cs[s..d.1];
    assert d.0[0] == cs[s];
  }

  /** Any other character starts an identifier: the maximal run of
      identifier characters, classified by the keyword table. An unknown run
      becomes an ERROR token whose literal names it; either way the
      character after the run is skipped as well. */
  lemma IdentifierToken(cs: seq<char>, p: nat)
    ensures var s := SkipFrom(cs, p); var e := IdentEnd(cs, s); var run := Sub(cs, s, e);
      var r := Step(cs, p);
      (r.0.kind == ERROR || r.0.kind.IsKeyword()) ==>
        && |run| > 0
        && r.1 == e + 1
        && (r.0.kind.IsKeyword() ==> r.0.literal == run == Spelling(r.0.kind))
        && (r.0.kind == ERROR ==> r.0.literal == "Unknown token " + run && run !in Keywords)
  {
    var s := SkipFrom(cs, p);
    var r := Step(cs, p);
    LookupIsTable(Sub(cs, s, IdentEnd(cs, s)));
    if r.0.kind.IsKeyword() {
      LookupSpelling(Sub(cs, s, IdentEnd(cs, s)), r.0.kind);
    }
  }

  /** The lexer yields no IDENT and no FACTORIAL tokens. */
  lemma NoIdentOrFactorial(cs: seq<char>, p: nat)
    ensures Step(cs, p).0.kind !in {IDENT, FACTORIAL}
  {
    var s := SkipFrom(cs, p);
    LookupNeverOperator(Sub(cs, s, IdentEnd(cs, s)));
  }

  /** On input without NUL characters, EOF comes exactly when only
      whitespace is left. */
  lemma EofAtEnd(cs: seq<char>, p: nat)
    requires NUL !in cs
    ensures Step(cs, p).0.kind == EOF <==> forall k | p <= k < |cs| :: IsWhitespace(cs[k])
  {
    var s := SkipFrom(cs, p);
    assert forall k | 0 <= k < |cs| :: cs[k] != NUL;
    if Step(cs, p).0.kind == EOF {
      forall k | p <= k < |cs| ensures IsWhitespace(cs[k]) {
        assert CharAt(cs, k) == cs[k];
      }
    } else {
      assert s < |cs| && !IsWhitespace(cs[s]);
    }
  }

  /** Only the last token of a run is EOF. */
  lemma {:induction false} TokensEndAtFirstEof(cs: seq<char>, p: nat)
    ensures forall i | 0 <= i < |Tokens(cs, p)| - 1 :: Tokens(cs, p)[i].kind != EOF
    decreases |cs| + 1 - p
  {
    var (t, q) := Step(cs, p);
    if t.kind != EOF {
      TokensEndAtFirstEof(cs, q);
      assert Tokens(cs, p) == [t] + Tokens(cs, q);
    }
  }

  /** Draining a lexer from position p takes at most one call per
      remaining character, plus the call that returns EOF. */
  lemma {:induction false} DrainBound(cs: seq<char>, p: nat)
    ensures |Tokens(cs, p)| <= if p < |cs| then |cs| + 1 - p else 1
    decreases |cs| + 1 - p
  {
    var (t, q) := Step(cs, p);
    if t.kind != EOF {
      DrainBound(cs, q);
    }
  }

  /** The number test of lexer_test.go. */
  lemma NumbersExample()
    ensures Tokens(NumbersInput, 0) ==
      [Token(NUMBER, "3"), Token(NUMBER, "43"), Token(NUMBER, "-17"), Token(NUMBER, "-3"), Token(EOF, "")]
  {
    NumbersFirst();
    NumbersAfterFirst();
    TokensThen(NumbersInput, 0, Token(NUMBER, "3"), 1,
      [Token(NUMBER, "43"), Token(NUMBER, "-17"), Token(NUMBER, "-3"), Token(EOF, "")]);
  }

  /** The number test after its first number. */
  lemma NumbersAfterFirst()
    ensures Tokens(NumbersInput, 1) ==
      [Token(NUMBER, "43"), Token(NUMBER, "-17"), Token(NUMBER, "-3"), Token(EOF, "")]
  {
    NumbersSecond();
    NumbersSigned();
    TokensThen(NumbersInput, 1, Token(NUMBER, "43"), 4,
      [Token(NUMBER, "-17"), Token(NUMBER, "-3"), Token(EOF, "")]);
  }

  /** The two signed numbers at the end of the number test. */
  lemma NumbersSigned()
    ensures Tokens(NumbersInput, 4) == [Token(NUMBER, "-17"), Token(NUMBER, "-3"), Token(EOF, "")]
  {
    NumbersThird();
    NumbersFourth();
    NumbersEnd();
    TokensThen(NumbersInput, 9, Token(NUMBER, "-3"), 12, [Token(EOF, "")]);
    TokensThen(NumbersInput, 4, Token(NUMBER, "-17"), 9, [Token(NUMBER, "-3"), Token(EOF, "")]);
  }

  lemma TokensCons(cs: seq<char>, p: nat, t: Token, q: nat)
    requires Step(cs, p) == (t, q) && t.kind != EOF
    ensures Tokens(cs, p) == [t] + Tokens(cs, q)
  {
  }

  const NumbersInput := "3 43 -17 -3"

  lemma NumbersFirst()
    ensures Step(NumbersInput, 0) == (Token(NUMBER, "3"), 1)
  {
    var cs := NumbersInput;
    assert SkipFrom(cs, 0) == 0;
    assert DigitsEnd(cs, 0) == 1 by {
      assert CharAt(cs, 1) == ' ';
    }
    assert cs[0..1] == "3";
    assert Decimal(cs, 0) == ("3", 1);
    assert NumberStep(cs, 0) == (Token(NUMBER, "3"), 1);
  }

  lemma NumbersSecond()
    ensures Step(NumbersInput, 1) == (Token(NUMBER, "43"), 4)
  {
    var cs := NumbersInput;
    assert SkipFrom(cs, 1) == 2;
    assert DigitsEnd(cs, 2) == 4;
    assert cs[2..4] == "43";
    assert Decimal(cs, 2) == ("43", 4);
    assert NumberStep(cs, 2) == (Token(NUMBER, "43"), 4);
  }

  lemma NumbersThird()
    ensures Step(NumbersInput, 4) == (Token(NUMBER, "-17"), 9)
  {
    var cs := NumbersInput;
    assert cs[6..8] == "17";
    assert SkipFrom(cs, 4) == 5;
    assert DigitsEnd(cs, 6) == 8;
    assert Decimal(cs, 6) == ("17", 8);
    assert "-" + "17" == "-17";
  }

  lemma NumbersFourth()
    ensures Step(NumbersInput, 9) == (Token(NUMBER, "-3"), 12)
  {
    assert NumbersInput[10..11] == "3";
    assert "-" + "3" == "-3";
  }

  lemma NumbersEnd()
    ensures Step(NumbersInput, 12) == (Token(EOF, ""), 13)
    ensures Tokens(NumbersInput, 12) == [Token(EOF, "")]
  {
  }

  /** Once the cursor is at or past the end of the input, every call
      returns EOF with an empty literal and moves one step further on, so
      the next call is past the end as well. */
  lemma EofForever(cs: seq<char>, p: nat)
    requires p >= |cs|
    ensures Step(cs, p) == (Token(EOF, ""), p + 1)
    ensures Tokens(cs, p) == [Token(EOF, "")]
  {
    assert SkipFrom(cs, p) == p;
  }

  /** A lone digit, not followed by a digit or a point, is a NUMBER token
      by itself, and the cursor stops right after it. */
  lemma DigitStep(cs: seq<char>, p: nat, s: nat)
    requires s == SkipFrom(cs, p) && IsDigit(CharAt(cs, s))
    requires !IsDigit(CharAt(cs, s + 1)) && CharAt(cs, s + 1) != '.'
    ensures Step(cs, p) == (Token(NUMBER, [cs[s]]), s + 1)
  {
    StepAtNumber(cs, p, s);
    NumberStepUnsigned(cs, s);
    assert DigitsEnd(cs, s + 1) == s + 1;
    assert DigitsEnd(cs, s) == s + 1;
    assert cs[s..s + 1] == [cs[s]];
  }

  /** A signed number takes the character after it along: in `-3+` the
      plus sign is never seen. */
  lemma SignedSwallowsNext()
    ensures Tokens("-3+", 0) == [Token(NUMBER, "-3"), Token(EOF, "")]
  {
    var cs := "-3+";
    assert SkipFrom(cs, 0) == 0;
    assert DigitsEnd(cs, 1) == 2;
    assert cs[1..2] == "3";
    assert Decimal(cs, 1) == ("3", 2);
    assert "-" + "3" == "-3";
    assert Step(cs, 0) == (Token(NUMBER, "-3"), 3);
    EofForever(cs, 3);
    TokensCons(cs, 0, Token(NUMBER, "-3"), 3);
  }

  /** The operator test of lexer_test.go: a minus sign before a space or
      at the end is the operator. */
  lemma OperatorsExample()
    ensures Tokens(OperatorsInput, 0) ==
      [Token(PLUS, "+"), Token(MINUS, "-"), Token(ASTERISK, "*"), Token(SLASH, "/"),
       Token(MOD, "%"), Token(POWER, "^"), Token(MINUS, "-"), Token(EOF, "")]
  {
    OperatorsRun(OperatorsInput);
  }

  const OperatorsInput := "+ - * / % ^ -"

  /** The operator test, stated for any input spelled like OperatorsInput. */
  lemma OperatorsRun(cs: seq<char>)
    requires OperatorsSpelling(cs)
    ensures Tokens(cs, 0) ==
      [Token(PLUS, "+"), Token(MINUS, "-"), Token(ASTERISK, "*"), Token(SLASH, "/"),
       Token(MOD, "%"), Token(POWER, "^"), Token(MINUS, "-"), Token(EOF, "")]
  {
    var ops := OperatorsRunTokens(cs);
    SpacedOperatorsTokens(cs, 1);
    assert SkipFrom(cs, 0) == 0;
    StepAtOperator(cs, 0, 0, PLUS);
    TokensThen(cs, 0, Token(PLUS, "+"), 1, ops + [Token(EOF, "")]);
  }

  /** The characters of OperatorsInput, one by one. */
  predicate OperatorsSpelling(cs: seq<char>)
  {
    && |cs| == 13
    && cs[0] == '+' && cs[2] == '-' && cs[4] == '*' && cs[6] == '/'
    && cs[8] == '%' && cs[10] == '^' && cs[12] == '-'
    && cs[1] == ' ' && cs[3] == ' ' && cs[5] == ' ' && cs[7] == ' ' && cs[9] == ' ' && cs[11] == ' '
  }

  /** After its first character, OperatorsInput is six spaced operators. */
  lemma OperatorsRunTokens(cs: seq<char>) returns (ops: seq<Token>)
    requires OperatorsSpelling(cs)
    ensures SpacedOperators(cs, 1) && OperatorTokens(cs, 1) == ops
    ensures ops == [Token(MINUS, "-"), Token(ASTERISK, "*"), Token(SLASH, "/"),
                    Token(MOD, "%"), Token(POWER, "^"), Token(MINUS, "-")]
  {
    assert [cs[12]] == "-" && [cs[10]] == "^" && [cs[8]] == "%";
    assert [cs[6]] == "/" && [cs[4]] == "*" && [cs[2]] == "-";
    assert SpacedOperators(cs, 13) && OperatorTokens(cs, 13) == [];
    assert SpacedOperators(cs, 11) && OperatorTokens(cs, 11) == [Token(MINUS, "-")];
    assert SpacedOperators(cs, 9) && OperatorTokens(cs, 9) == [Token(POWER, "^"), Token(MINUS, "-")];
    assert SpacedOperators(cs, 7) && OperatorTokens(cs, 7) == [Token(MOD, "%"), Token(POWER, "^"), Token(MINUS, "-")];
    assert SpacedOperators(cs, 5) && OperatorTokens(cs, 5) ==
      [Token(SLASH, "/"), Token(MOD, "%"), Token(POWER, "^"), Token(MINUS, "-")];
    assert SpacedOperators(cs, 3) && OperatorTokens(cs, 3) ==
      [Token(ASTERISK, "*"), Token(SLASH, "/"), Token(MOD, "%"), Token(POWER, "^"), Token(MINUS, "-")];
    assert SpacedOperators(cs, 1);
    ops := [Token(MINUS, "-"), Token(ASTERISK, "*"), Token(SLASH, "/"),
            Token(MOD, "%"), Token(POWER, "^"), Token(MINUS, "-")];
  }

  /** From p to the end, the input is pairs of a space and an operator
      character. */
  predicate SpacedOperators(cs: seq<char>, p: nat)
    decreases |cs| - p
  {
    p == |cs| || (p + 1 < |cs| && cs[p] == ' ' && OperatorKind(cs[p + 1]).Some? && SpacedOperators(cs, p + 2))
  }

  /** One token per spaced operator. */
  function OperatorTokens(cs: seq<char>, p: nat): (ts: seq<Token>)
    requires SpacedOperators(cs, p)
    decreases |cs| - p
  {
    if p == |cs| then []
    else [Token(OperatorKind(cs[p + 1]).value, [cs[p + 1]])] + OperatorTokens(cs, p + 2)
  }

  /** Spaced operators are one token each, a minus sign included, since
      no digit follows it. */
  lemma {:induction false} SpacedOperatorsTokens(cs: seq<char>, p: nat)
    requires SpacedOperators(cs, p)
    ensures Tokens(cs, p) == OperatorTokens(cs, p) + [Token(EOF, "")]
    decreases |cs| - p
  {
    if p == |cs| {
      EofForever(cs, p);
    } else {
      var k := OperatorKind(cs[p + 1]).value;
      var t := Token(k, [cs[p + 1]]);
      SpacedOperator(cs, p, k);
      SpacedOperatorsTokens(cs, p + 2);
      TokensThen(cs, p, t, p + 2, OperatorTokens(cs, p + 2) + [Token(EOF, "")]);
    }
  }

  /** A space followed by an operator character that stands alone is that
      operator, and the cursor ends up past it. */
  lemma SpacedOperator(cs: seq<char>, p: nat, k: Kind)
    requires p + 1 < |cs| && cs[p] == ' ' && OperatorKind(cs[p + 1]) == Some(k)
    requires p + 2 == |cs| || cs[p + 2] == ' '
    ensures Step(cs, p) == (Token(k, [cs[p + 1]]), p + 2)
  {
    assert SkipFrom(cs, p + 1) == p + 1;
    assert SkipFrom(cs, p) == p + 1;
    StepAtOperator(cs, p, p + 1, k);
  }

  /** One token in front of a known rest of the run. */
  lemma TokensThen(cs: seq<char>, p: nat, t: Token, q: nat, rest: seq<Token>)
    requires Step(cs, p) == (t, q) && t.kind != EOF && Tokens(cs, q) == rest
    ensures Tokens(cs, p) == [t] + rest
  {
    TokensCons(cs, p, t, q);
  }

  /** An unknown word is one ERROR token naming the whole run, not one
      token per character; the space after it is skipped with it. */
  lemma BogusExample()
    ensures Tokens(BogusInput, 0) ==
      [Token(ERROR, "Unknown token steve"), Token(NUMBER, "3"), Token(EOF, "")]
  {
    BogusWord();
    BogusNumber();
    TokensThen(BogusInput, 0, Token(ERROR, "Unknown token steve"), 6, [Token(NUMBER, "3"), Token(EOF, "")]);
  }

  const BogusInput := "steve 3"

  /** The unknown word and the space after it are one step. */
  lemma BogusWord()
    ensures Step(BogusInput, 0) == (Token(ERROR, "Unknown token steve"), 6)
  {
    var cs := BogusInput;
    assert SkipFrom(cs, 0) == 0;
    assert IdentEnd(cs, 0) == 5;
    assert cs[0..5] == "steve";
    assert LookupIdentifier("steve") == ERROR;
    StepAtIdentifier(cs, 0, 0);
    assert Sub(cs, 0, 5) == "steve";
    assert "Unknown token " + "steve" == "Unknown token steve";
  }

  /** The number after it, then the end. */
  lemma BogusNumber()
    ensures Tokens(BogusInput, 6) == [Token(NUMBER, "3"), Token(EOF, "")]
  {
    var cs := BogusInput;
    assert SkipFrom(cs, 6) == 6;
    assert DigitsEnd(cs, 6) == 7;
    assert cs[6..7] == "3";
    assert Decimal(cs, 6) == ("3", 7);
    assert Step(cs, 6) == (Token(NUMBER, "3"), 7);
    EofForever(cs, 7);
    TokensCons(cs, 6, Token(NUMBER, "3"), 7);
  }

  /** The lexer object. Between calls `ch` is the character at `position`
      and `readPosition` is one further on. */
  class Lexer {
    var position: nat
    var readPosition: nat
    var ch: char
    var characters: seq<char>

    ghost predicate Valid()
      reads this
    {
      readPosition == position + 1 && ch == CharAt(characters, position)
    }

    /** Stores the input and reads its first character. */
    constructor(input: string)
      ensures Valid() && characters == input && position == 0
    {
      characters := input;
      position := 0;
      readPosition := 0;
      ch := NUL;
      new;
      ReadChar();
    }

    /** Moves the cursor one step, reading NUL past the end. */
    method ReadChar()
      modifies this
      ensures characters == old(characters)
      ensures position == old(readPosition) && readPosition == position + 1
      ensures ch == CharAt(characters, position)
    {
      if readPosition >= |characters| {
        ch := NUL;
      } else {
        ch := characters[readPosition];
      }
      position := readPosition;
      readPosition := readPosition + 1;
    }

    /** The character after the current one, without moving. */
    method PeekChar() returns (c: char)
      requires Valid()
      ensures c == CharAt(characters, position + 1)
    {
      if readPosition >= |characters| {
        return NUL;
      }
      return characters[readPosition];
    }

    method SkipWhitespace()
      requires Valid()
      modifies this
      ensures Valid() && characters == old(characters)
      ensures position == SkipFrom(characters, old(position))
    {
      while IsWhitespace(ch)
        invariant Valid() && characters == old(characters)
        invariant old(position) <= position
        invariant SkipFrom(characters, old(position)) == SkipFrom(characters, position)
        decreases |characters| - position
      {
        ReadChar();
      }
    }

    /** Reads the run of digits at the cursor. */
    method ReadNumber() returns (str: string)
      requires Valid()
      modifies this
      ensures Valid() && characters == old(characters)
      ensures position == DigitsEnd(characters, old(position))
      ensures str == Sub(characters, old(position), position)
    {
      str := "";
      while IsDigit(ch)
        invariant Valid() && characters == old(characters)
        invariant old(position) <= position
        invariant position == old(position) || position <= |characters|
        invariant DigitsEnd(characters, old(position)) == DigitsEnd(characters, position)
        invariant str == Sub(characters, old(position), position)
        decreases |characters| - position
      {
        assert characters[old(position)..position + 1] == characters[old(position)..position] + [ch];
        str := str + [ch];
        ReadChar();
      }
    }

    /** Reads an integer or, when a point and a digit follow, a fraction. */
    method ReadDecimal() returns (tok: Token)
      requires Valid()
      modifies this
      ensures Valid() && characters == old(characters)
      ensures (tok.literal, position) == Decimal(characters, old(position))
      ensures tok.kind == NUMBER
    {
      var integer := ReadNumber();
      var next := PeekChar();
      if ch == '.' && IsDigit(next) {
        ReadChar();
        var fraction := ReadNumber();
        return Token(NUMBER, integer + "." + fraction);
      }
      return Token(NUMBER, integer);
    }

    /** Reads the run of identifier characters at the cursor. */
    method ReadIdentifier() returns (id: string)
      requires Valid()
      modifies this
      ensures Valid() && characters == old(characters)
      ensures position == IdentEnd(characters, old(position))
      ensures id == Sub(characters, old(position), position)
    {
      id := "";
      while IsIdentifier(ch)
        invariant Valid() && characters == old(characters)
        invariant old(position) <= position
        invariant position == old(position) || position <= |characters|
        invariant IdentEnd(characters, old(position)) == IdentEnd(characters, position)
        invariant id == Sub(characters, old(position), position)
        decreases |characters| - position
      {
        assert characters[old(position)..position + 1] == characters[old(position)..position] + [ch];
        id := id + [ch];
        ReadChar();
      }
    }

    /** Skips whitespace and returns the next token. */
    method NextToken() returns (tok: Token)
      requires Valid()
      modifies this
      ensures Valid() && characters == old(characters)
      ensures (tok, position) == Step(characters, old(position))
    {
      ghost var cs, p := characters, position;
      SkipWhitespace();
      ghost var s := position;
      if ch == '+' {
        StepAtOperator(cs, p, s, PLUS);
        tok := NewToken(PLUS, ch);
      } else if ch == '%' {
        StepAtOperator(cs, p, s, MOD);
        tok := NewToken(MOD, ch);
      } else if ch == '^' {
        StepAtOperator(cs, p, s, POWER);
        tok := NewToken(POWER, ch);
      } else if ch == '-' {
        tok := ReadMinus(p);
      } else if ch == '/' {
        StepAtOperator(cs, p, s, SLASH);
        tok := NewToken(SLASH, ch);
      } else if ch == '*' {
        StepAtOperator(cs, p, s, ASTERISK);
        tok := NewToken(ASTERISK, ch);
      } else if ch == NUL {
        StepAtEnd(cs, p, s);
        tok := Token(EOF, "");
      } else {
        if IsDigit(ch) {
          StepAtNumber(cs, p, s);
          NumberStepUnsigned(cs, s);
          tok := ReadDecimal();
          return;
        }
        tok := ReadWord(p);
      }
      ReadChar();
    }

    /** The minus case of NextToken, up to its final ReadChar: a signed
        number when a digit follows, the operator otherwise. */
    method ReadMinus(ghost p: nat) returns (tok: Token)
      requires Valid() && ch == '-' && position == SkipFrom(characters, p)
      modifies this
      ensures Valid() && characters == old(characters)
      ensures Step(characters, p) == (tok, position + 1)
    {
      ghost var cs, s := characters, position;
      var next := PeekChar();
      if IsDigit(next) {
        StepAtNumber(cs, p, s);
        NumberStepSigned(cs, s);
        ReadChar();
        tok := ReadDecimal();
        tok := tok.(literal := "-" + tok.literal);
      } else {
        StepAtOperator(cs, p, s, MINUS);
        tok := NewToken(MINUS, ch);
      }
    }

    /** The default case of NextToken for a character that does not start a
        number, up to its final ReadChar: an identifier run, classified by
        the keyword table. */
    method ReadWord(ghost p: nat) returns (tok: Token)
      requires Valid() && position == SkipFrom(characters, p)
      requires OperatorKind(ch).None? && ch != NUL && !IsDigit(ch)
      modifies this
      ensures Valid() && characters == old(characters)
      ensures Step(characters, p) == (tok, position + 1)
    {
      StepAtIdentifier(characters, p, position);
      var lit := ReadIdentifier();
      var kind := LookupIdentifier(lit);
      if kind == ERROR {
        tok := Token(kind, "Unknown token " + lit);
      } else {
        tok := Token(kind, lit);
      }
    }
  }
}
