/** The two library string operations the generator relies on:
    `strings.Replace(s, old, new, -1)` and `fmt.Sprintf("%d", n)` for a
    non-negative n. */
module Strings {
  import Lexer

  /** Replaces every non-overlapping occurrence of `pat`, scanning from the
      left, as `strings.Replace` with a count of -1 does. */
  function ReplaceAll(s: string, pat: string, rep: string): string
    requires pat != []
    decreases |s|
  {
    if |s| < |pat| then s
    else if s[..|pat|] == pat then rep + ReplaceAll(s[|pat|..], pat, rep)
    else [s[0]] + ReplaceAll(s[1..], pat, rep)
  }

  /** Text that does not contain the pattern's first character is left
      alone. */
  lemma {:induction false} ReplaceAbsent(s: string, pat: string, rep: string)
    requires pat != [] && pat[0] !in s
    ensures ReplaceAll(s, pat, rep) == s
    decreases |s|
  {
    if |s| >= |pat| {
      assert s[..|pat|][0] == s[0];
      assert s[0] in s;
      ReplaceAbsent(s[1..], pat, rep);
      assert [s[0]] + s[1..] == s;
    }
  }

  /** A prefix without the pattern's first character passes through
      unchanged and the rest is replaced on its own. */
  lemma {:induction false} ReplaceAfterFree(a: string, b: string, pat: string, rep: string)
    requires pat != [] && pat[0] !in a
    ensures ReplaceAll(a + b, pat, rep) == a + ReplaceAll(b, pat, rep)
    decreases |a|
  {
    if a == [] {
      assert a + b == b;
    } else {
      var s := a + b;
      ReplaceSkipsFirst(s, pat, rep);
      assert s[1..] == a[1..] + b;
      assert pat[0] !in a[1..] by {
        assert forall x | x in a[1..] :: x in a;
      }
      ReplaceAfterFree(a[1..], b, pat, rep);
      var t := ReplaceAll(b, pat, rep);
      assert [a[0]] + (a[1..] + t) == a + t by {
        assert [a[0]] + a[1..] == a;
      }
    }
  }

  /** A first character that does not start the pattern is kept. */
  lemma ReplaceSkipsFirst(s: string, pat: string, rep: string)
    requires pat != [] && s != [] && s[0] != pat[0]
    ensures ReplaceAll(s, pat, rep) == [s[0]] + ReplaceAll(s[1..], pat, rep)
  {
    if |s| >= |pat| {
      assert s[..|pat|][0] == s[0];
    }
  }

  /** An occurrence at the front is replaced. */
  lemma ReplaceAtFront(b: string, pat: string, rep: string)
    requires pat != []
    ensures ReplaceAll(pat + b, pat, rep) == rep + ReplaceAll(b, pat, rep)
  {
    var s := pat + b;
    assert s[..|pat|] == pat;
    assert s[|pat|..] == b;
  }

  /** When the last character of `a` cannot be part of the pattern, no
      occurrence straddles the join, so the two sides are replaced
      separately. */
  lemma {:induction false} ReplaceSplit(a: string, b: string, pat: string, rep: string)
    requires pat != [] && a != [] && a[|a| - 1] !in pat
    ensures ReplaceAll(a + b, pat, rep) == ReplaceAll(a, pat, rep) + ReplaceAll(b, pat, rep)
    decreases |a|, 1
  {
    var s := a + b;
    if |s| < |pat| {
      assert ReplaceAll(a, pat, rep) == a && ReplaceAll(b, pat, rep) == b;
    } else if s[..|pat|] == pat {
      ReplaceSplitAtMatch(a, b, pat, rep);
    } else {
      ReplaceSplitNoMatch(a, b, pat, rep);
    }
  }

  lemma {:induction false} ReplaceSplitAtMatch(a: string, b: string, pat: string, rep: string)
    requires pat != [] && a != [] && a[|a| - 1] !in pat
    requires |a + b| >= |pat| && (a + b)[..|pat|] == pat
    ensures ReplaceAll(a + b, pat, rep) == ReplaceAll(a, pat, rep) + ReplaceAll(b, pat, rep)
    decreases |a|, 0
  {
    var s := a + b;
    if |a| <= |pat| {
      ShortPrefixInPattern(a, b, pat);
      assert false;
    }
    assert a[..|pat|] == pat;
    assert s[|pat|..] == a[|pat|..] + b;
    ReplaceSplit(a[|pat|..], b, pat, rep);
  }

  /** If a match at the front covers all of `a`, `a`'s last character is
      part of the pattern. */
  lemma ShortPrefixInPattern(a: string, b: string, pat: string)
    requires a != [] && |a| <= |pat| <= |a + b| && (a + b)[..|pat|] == pat
    ensures a[|a| - 1] in pat
  {
    assert (a + b)[..|pat|][|a| - 1] == a[|a| - 1];
  }

  lemma {:induction false} ReplaceSplitNoMatch(a: string, b: string, pat: string, rep: string)
    requires pat != [] && a != [] && a[|a| - 1] !in pat
    requires |a + b| >= |pat| && (a + b)[..|pat|] != pat
    ensures ReplaceAll(a + b, pat, rep) == ReplaceAll(a, pat, rep) + ReplaceAll(b, pat, rep)
    decreases |a|, 0
  {
    var s := a + b;
    assert s[1..] == a[1..] + b;
    var rs := ReplaceAll(a[1..] + b, pat, rep);
    assert ReplaceAll(s, pat, rep) == [a[0]] + rs;
    var rb := ReplaceAll(b, pat, rep);
    if |a| == 1 {
      assert a[1..] + b == b;
      assert ReplaceAll(a, pat, rep) == a;
      assert a == [a[0]];
    } else {
      ReplaceSplit(a[1..], b, pat, rep);
      var r1 := ReplaceAll(a[1..], pat, rep);
      assert rs == r1 + rb;
      if |a| < |pat| {
        assert r1 == a[1..];
        assert ReplaceAll(a, pat, rep) == a;
        assert [a[0]] + (a[1..] + rb) == a + rb by {
          assert [a[0]] + a[1..] == a;
        }
      } else {
        assert a[..|pat|] == s[..|pat|];
        assert ReplaceAll(a, pat, rep) == [a[0]] + r1;
        assert [a[0]] + (r1 + rb) == ([a[0]] + r1) + rb;
      }
    }
  }


  /** A one-character pattern never straddles a join. */
  lemma {:induction false} ReplaceCharSplit(a: string, b: string, c: char, rep: string)
    ensures ReplaceAll(a + b, [c], rep) == ReplaceAll(a, [c], rep) + ReplaceAll(b, [c], rep)
    decreases |a|
  {
    if a == [] {
      assert a + b == b;
    } else {
      var s := a + b;
      assert s[..1] == a[..1];
      assert s[1..] == a[1..] + b;
      ReplaceCharSplit(a[1..], b, c, rep);
    }
  }

  /** Replacing one character by another is a character-by-character map. */
  lemma {:induction false} ReplaceCharPointwise(s: string, c: char, d: char)
    ensures |ReplaceAll(s, [c], [d])| == |s|
    ensures forall k | 0 <= k < |s| :: ReplaceAll(s, [c], [d])[k] == if s[k] == c then d else s[k]
    decreases |s|
  {
    if s != [] {
      ReplaceCharPointwise(s[1..], c, d);
      assert s[..1] == [s[0]];
    }
  }

  /** After replacing a character by text without it, the character is gone. */
  lemma {:induction false} ReplaceCharRemoves(s: string, c: char, rep: string)
    requires c !in rep
    ensures c !in ReplaceAll(s, [c], rep)
    decreases |s|
  {
    if s != [] {
      ReplaceCharRemoves(s[1..], c, rep);
      assert s[..1] == [s[0]];
    }
  }

  function DigitChar(d: nat): (c: char)
    requires d < 10
    ensures Lexer.IsDigit(c)
  {
    (48 + d) as char
  }

  /** The decimal spelling of n, without sign or leading zeros. */
  function Dec(n: nat): (s: string)
    ensures |s| > 0 && Lexer.AllDigits(s)
    decreases n
  {
    if n < 10 then [DigitChar(n)] else Dec(n / 10) + [DigitChar(n % 10)]
  }

  /** The value of a string of decimal digits. */
  function ParseDec(s: string): nat
    requires Lexer.AllDigits(s)
    decreases |s|
  {
    if s == [] then 0 else ParseDec(s[..|s| - 1]) * 10 + (s[|s| - 1] as int - 48)
  }

  /** Reading the decimal spelling of n gives n back. */
  lemma {:induction false} DecRoundTrip(n: nat)
    ensures ParseDec(Dec(n)) == n
    decreases n
  {
    if n >= 10 {
      DecRoundTrip(n / 10);
      var s := Dec(n);
      assert s[..|s| - 1] == Dec(n / 10);
    }
  }

  /** Distinct numbers have distinct spellings. */
  lemma DecInjective(m: nat, n: nat)
    ensures Dec(m) == Dec(n) <==> m == n
  {
    if Dec(m) == Dec(n) {
      DecRoundTrip(m);
      DecRoundTrip(n);
    }
  }
}
