/** escapeConstant of compiler/generator.go: the data-section symbol under
    which a numeric literal is stored. */
module Escape {
  import opened Strings
  import Lexer

  predicate HasNonzeroDigit(s: string) {
    exists k | 0 <= k < |s| :: '1' <= s[k] <= '9'
  }

  /** The sign test: the literal's value is below zero. For the literals the
      lexer produces this holds exactly when there is a minus sign and some
      digit is not zero; text that is not a literal does not parse and counts
      as zero. */
  predicate IsNegative(lit: string) {
    Lexer.NumberLiteral(lit) && |lit| > 0 && lit[0] == '-' && HasNonzeroDigit(lit)
  }

  /** The literal without its sign. */
  function Magnitude(lit: string): string {
    if |lit| > 0 && lit[0] == '-' then lit[1..] else lit
  }

  function SymbolPrefix(lit: string): string {
    if IsNegative(lit) then "const_neg_" else "const_"
  }

  /** The symbol for a literal: a sign-dependent prefix, then the literal
      with every point turned into an underscore and every minus sign
      dropped. */
  function EscapeConstant(input: string): (sym: string)
    ensures '.' !in sym && '-' !in sym
  {
    var val := if IsNegative(input) then "const_neg_" + input else "const_" + input;
    var dotless := ReplaceAll(val, ".", "_");
    var result := ReplaceAll(dotless, "-", "");
    assert '.' !in result by {
      ReplaceCharRemoves(val, '.', "_");
      ReplaceCharKeeps(dotless, '-', "", '.');
    }
    ReplaceCharRemoves(dotless, '-', "");
    result
  }

  /** Replacing a character never introduces a character that was neither in
      the text nor in the replacement. */
  lemma {:induction false} ReplaceCharKeeps(s: string, c: char, rep: string, x: char)
    requires x !in s && x !in rep
    ensures x !in ReplaceAll(s, [c], rep)
    decreases |s|
  {
    if s != [] {
      assert s[..1] == [s[0]];
      assert s[0] in s;
      assert forall y | y in s[1..] :: y in s;
      ReplaceCharKeeps(s[1..], c, rep, x);
    }
  }

  /** A character absent from the literal and from the prefixes and the
      underscore is absent from its symbol. */
  lemma EscapeKeeps(input: string, x: char)
    requires x !in input && x !in "const_neg_"
    ensures x !in EscapeConstant(input)
  {
    var val := if IsNegative(input) then "const_neg_" + input else "const_" + input;
    assert x !in val;
    ReplaceCharKeeps(val, '.', "_", x);
    ReplaceCharKeeps(ReplaceAll(val, ".", "_"), '-', "", x);
  }

  /** The characters of an unsigned literal are digits and points, and it
      starts with a digit. */
  lemma UnsignedChars(s: string)
    requires Lexer.Unsigned(s)
    ensures |s| > 0 && Lexer.IsDigit(s[0])
    ensures forall k | 0 <= k < |s| :: Lexer.IsDigit(s[k]) || s[k] == '.'
  {
    if !(|s| > 0 && Lexer.AllDigits(s)) {
      var i :| 0 < i < |s| - 1 && Lexer.PointAt(s, i);
      assert s[..i][0] == s[0];
      forall k | 0 <= k < |s| ensures Lexer.IsDigit(s[k]) || s[k] == '.' {
        if k < i {
          assert s[..i][k] == s[k];
        } else if k > i {
          assert s[i + 1..][k - i - 1] == s[k];
        }
      }
    }
  }

  /** A number literal is its magnitude, after a minus sign when it has one;
      the magnitude is unsigned. */
  lemma MagnitudeOf(lit: string)
    requires Lexer.NumberLiteral(lit)
    ensures Lexer.Unsigned(Magnitude(lit))
    ensures lit == Magnitude(lit) || lit == "-" + Magnitude(lit)
  {
    if Lexer.Unsigned(lit) {
      UnsignedChars(lit);
    }
  }

  /** Points become underscores, character by character. */
  function Dotless(m: string): string {
    ReplaceAll(m, ".", "_")
  }

  lemma DotlessOfUnsigned(m: string)
    requires Lexer.Unsigned(m)
    ensures |Dotless(m)| == |m| && Lexer.IsDigit(Dotless(m)[0])
    ensures '-' !in Dotless(m)
    ensures forall k | 0 <= k < |m| :: Dotless(m)[k] == if m[k] == '.' then '_' else m[k]
  {
    UnsignedChars(m);
    ReplaceCharPointwise(m, '.', '_');
    assert '-' !in m by {
      forall k | 0 <= k < |m| ensures m[k] != '-' {
      }
    }
    ReplaceCharKeeps(m, '.', "_", '-');
  }

  /** The symbol of a literal is the sign-dependent prefix followed by the
      magnitude with its point turned into an underscore. */
  lemma EscapeShape(lit: string)
    requires Lexer.NumberLiteral(lit)
    ensures EscapeConstant(lit) == SymbolPrefix(lit) + Dotless(Magnitude(lit))
  {
    var p := SymbolPrefix(lit);
    var m := Magnitude(lit);
    MagnitudeOf(lit);
    DotlessOfUnsigned(m);
    assert '.' !in p && '-' !in p;
    ReplaceAfterFree(p, lit, ".", "_");
    ReplaceAfterFree(p, Dotless(lit), "-", "");
    if lit == m {
      ReplaceAbsent(Dotless(m), "-", "");
    } else {
      SignedDotless(m);
    }
  }

  lemma SignedDotless(m: string)
    requires '-' !in Dotless(m)
    ensures ReplaceAll(Dotless("-" + m), "-", "") == Dotless(m)
  {
    ReplaceAfterFree("-", m, ".", "_");
    ReplaceAtFront(Dotless(m), "-", "");
    ReplaceAbsent(Dotless(m), "-", "");
  }

  /** The symbol starts with `const_neg_` exactly when the literal is
      negative, and with `const_` otherwise. */
  lemma EscapePrefix(lit: string)
    requires Lexer.NumberLiteral(lit)
    ensures var sym := EscapeConstant(lit);
      && (IsNegative(lit) <==> |sym| >= 10 && sym[..10] == "const_neg_")
      && |sym| >= 6 && sym[..6] == "const_"
  {
    EscapeShape(lit);
    var m := Magnitude(lit);
    MagnitudeOf(lit);
    DotlessOfUnsigned(m);
    var sym := EscapeConstant(lit);
    if IsNegative(lit) {
      assert sym[..10] == "const_neg_";
    } else {
      assert sym[6] == Dotless(m)[0];
      assert sym[..6] == "const_";
      if |sym| >= 10 {
        assert sym[..10][6] == sym[6];
      }
    }
  }

  /** The dotless form is reversible on unsigned literals. */
  lemma DotlessInjective(m1: string, m2: string)
    requires Lexer.Unsigned(m1) && Lexer.Unsigned(m2)
    requires Dotless(m1) == Dotless(m2)
    ensures m1 == m2
  {
    DotlessOfUnsigned(m1);
    DotlessOfUnsigned(m2);
    UnsignedChars(m1);
    UnsignedChars(m2);
    forall k | 0 <= k < |m1| ensures m1[k] == m2[k] {
      assert Dotless(m1)[k] == Dotless(m2)[k];
    }
  }

  /** `a` is a minus sign before the zero-valued literal `b`. */
  predicate NegativeZeroOf(a: string, b: string) {
    a == "-" + b && !HasNonzeroDigit(b)
  }

  lemma NonzeroUnderSign(b: string)
    ensures HasNonzeroDigit("-" + b) <==> HasNonzeroDigit(b)
  {
    if HasNonzeroDigit(b) {
      var k :| 0 <= k < |b| && '1' <= b[k] <= '9';
      assert ("-" + b)[k + 1] == b[k];
    }
    if HasNonzeroDigit("-" + b) {
      var k :| 0 <= k < |"-" + b| && '1' <= ("-" + b)[k] <= '9';
      assert b[k - 1] == ("-" + b)[k];
    }
  }

  /** The two prefixes cannot be confused when a digit follows them. */
  lemma PrefixesAgree(l1: string, l2: string, d1: string, d2: string)
    requires |d1| > 0 && |d2| > 0 && Lexer.IsDigit(d1[0]) && Lexer.IsDigit(d2[0])
    requires SymbolPrefix(l1) + d1 == SymbolPrefix(l2) + d2
    ensures SymbolPrefix(l1) == SymbolPrefix(l2) && d1 == d2
  {
    var p1, p2 := SymbolPrefix(l1), SymbolPrefix(l2);
    var s := p1 + d1;
    assert s[6] == if |p1| == 6 then d1[0] else 'n';
    assert s[6] == if |p2| == 6 then d2[0] else 'n';
    assert s[|p1|..] == d1 && (p2 + d2)[|p2|..] == d2;
  }

  /** Two literals share a symbol exactly when they are equal, or one is a
      negative zero and the other the same zero without its sign. */
  lemma EscapeInjective(l1: string, l2: string)
    requires Lexer.NumberLiteral(l1) && Lexer.NumberLiteral(l2)
    ensures EscapeConstant(l1) == EscapeConstant(l2)
      <==> l1 == l2 || NegativeZeroOf(l1, l2) || NegativeZeroOf(l2, l1)
  {
    if EscapeConstant(l1) == EscapeConstant(l2) {
      SameSymbolSameLiteral(l1, l2);
    }
    if NegativeZeroOf(l1, l2) {
      NegativeZeroSameSymbol(l1, l2);
    }
    if NegativeZeroOf(l2, l1) {
      NegativeZeroSameSymbol(l2, l1);
    }
  }

  lemma SameSymbolSameLiteral(l1: string, l2: string)
    requires Lexer.NumberLiteral(l1) && Lexer.NumberLiteral(l2)
    requires EscapeConstant(l1) == EscapeConstant(l2)
    ensures l1 == l2 || NegativeZeroOf(l1, l2) || NegativeZeroOf(l2, l1)
  {
    EscapeShape(l1);
    EscapeShape(l2);
    var m1, m2 := Magnitude(l1), Magnitude(l2);
    MagnitudeOf(l1);
    MagnitudeOf(l2);
    DotlessOfUnsigned(m1);
    DotlessOfUnsigned(m2);
    PrefixesAgree(l1, l2, Dotless(m1), Dotless(m2));
    DotlessInjective(m1, m2);
    UnsignedChars(m1);
    NonzeroUnderSign(m1);
  }

  lemma NegativeZeroSameSymbol(a: string, b: string)
    requires Lexer.NumberLiteral(a) && Lexer.NumberLiteral(b)
    requires NegativeZeroOf(a, b)
    ensures EscapeConstant(a) == EscapeConstant(b)
  {
    EscapeShape(a);
    EscapeShape(b);
    MagnitudeOf(b);
    assert a[1..] == b;
    assert Magnitude(a) == b;
    NonzeroUnderSign(b);
    UnsignedChars(b);
  }

  /** The collision: "-0" and "0" are stored under the same symbol. */
  lemma NegativeZeroCollides()
    ensures EscapeConstant("-0") == EscapeConstant("0") == "const_0"
  {
    assert Lexer.AllDigits("0");
    assert "-0"[1..] == "0";
    assert !HasNonzeroDigit("0");
    assert "-0" == "-" + "0";
    EscapeInjective("-0", "0");
    EscapeShape("0");
    ReplaceAbsent("0", ".", "_");
  }

  /** The vectors of generator_test.go. */
  lemma EscapeUnsignedExamples()
    ensures EscapeConstant("3") == "const_3"
    ensures EscapeConstant("0.03") == "const_0_03"
  {
    assert Lexer.AllDigits("3");
    EscapeShape("3");
    ReplaceAbsent("3", ".", "_");

    assert "0.03"[..1] == "0" && "0.03"[2..] == "03";
    assert Lexer.AllDigits("0") && Lexer.AllDigits("03");
    assert Lexer.PointAt("0.03", 1);
    EscapeShape("0.03");
    ReplaceCharPointwise("0.03", '.', '_');
    assert Dotless("0.03") == "0_03";
  }

  lemma EscapeSignedExamples()
    ensures EscapeConstant("-3") == "const_neg_3"
    ensures EscapeConstant("-3.3") == "const_neg_3_3"
  {
    assert "-3"[1..] == "3";
    assert "-3"[1] == '3';
    assert Lexer.AllDigits("3");
    assert IsNegative("-3");
    EscapeShape("-3");
    ReplaceAbsent("3", ".", "_");

    assert "-3.3"[1..] == "3.3";
    assert "3.3"[..1] == "3" && "3.3"[2..] == "3";
    assert Lexer.PointAt("3.3", 1);
    assert "-3.3"[1] == '3';
    assert IsNegative("-3.3");
    EscapeShape("-3.3");
    ReplaceCharPointwise("3.3", '.', '_');
    assert Dotless("3.3") == "3_3";
  }
}
