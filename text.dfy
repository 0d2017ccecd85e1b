/**
 * The string operations of Python's `str` that the renaming script relies
 * on: `upper()` and `lower()` (ASCII case folding only), `startswith`,
 * `endswith` and `replace` (every non-overlapping occurrence, scanned left
 * to right).
 */
module Text {

  /** `c.upper()` restricted to ASCII letters. */
  function UpperChar(c: char): char
  {
    if 'a' <= c <= 'z' then (c as int - 32) as char else c
  }

  /** `c.lower()` restricted to ASCII letters. */
  function LowerChar(c: char): char
  {
    if 'A' <= c <= 'Z' then (c as int + 32) as char else c
  }

  function Upper(s: string): (r: string)
    ensures |r| == |s|
    ensures forall i :: 0 <= i < |s| ==> r[i] == UpperChar(s[i])
  {
    if s == [] then [] else [UpperChar(s[0])] + Upper(s[1..])
  }

  function Lower(s: string): (r: string)
    ensures |r| == |s|
    ensures forall i :: 0 <= i < |s| ==> r[i] == LowerChar(s[i])
  {
    if s == [] then [] else [LowerChar(s[0])] + Lower(s[1..])
  }

  /** Text without lower-case letters is its own upper case. */
  lemma {:induction false} UpperOfUpper(s: string)
    requires forall i :: 0 <= i < |s| ==> !('a' <= s[i] <= 'z')
    ensures Upper(s) == s
  {
    assert forall i :: 0 <= i < |s| ==> Upper(s)[i] == s[i];
  }

  /** `s.startswith(p)`, one character at a time. */
  predicate IsPrefix(p: string, s: string)
    ensures IsPrefix(p, s) ==> |p| <= |s|
  {
    p == [] || (s != [] && p[0] == s[0] && IsPrefix(p[1..], s[1..]))
  }

  /** `s.endswith(suffix)`. */
  predicate EndsWith(s: string, suffix: string)
  {
    |suffix| <= |s| && s[|s| - |suffix|..] == suffix
  }

  /** No character of `s` is one of `cs`. */
  predicate Avoids(s: string, cs: set<char>)
  {
    forall i :: 0 <= i < |s| ==> s[i] !in cs
  }

  /**
   * Python's `s.replace(pat, rep)`: every occurrence of `pat`, found left to
   * right without overlap, is replaced by `rep`; an empty `pat` inserts `rep`
   * before every character and at the end.
   */
  function ReplaceAll(s: string, pat: string, rep: string): string
    decreases |s|
  {
    if pat == [] then
      if s == [] then rep else rep + [s[0]] + ReplaceAll(s[1..], pat, rep)
    else if s == [] then []
    else if IsPrefix(pat, s) then rep + ReplaceAll(s[|pat|..], pat, rep)
    else [s[0]] + ReplaceAll(s[1..], pat, rep)
  }

  /** `s` with every `c` dropped: the independent meaning of `s.replace(c, '')`. */
  function Without(s: string, c: char): (r: string)
    ensures c !in r
    ensures |r| <= |s|
  {
    if s == [] then []
    else if s[0] == c then Without(s[1..], c)
    else [s[0]] + Without(s[1..], c)
  }

  // ---------------------------------------------------------------------
  // Prefixes
  // ---------------------------------------------------------------------

  /** The recursive prefix test agrees with slicing. */
  lemma {:induction false} PrefixMeaning(p: string, s: string)
    ensures IsPrefix(p, s) <==> |p| <= |s| && s[..|p|] == p
    decreases |p|
  {
    if p != [] && s != [] {
      PrefixMeaning(p[1..], s[1..]);
      if |p| <= |s| {
        assert s[..|p|] == [s[0]] + s[1..][..|p| - 1];
        assert p == [p[0]] + p[1..];
      }
    }
  }

  /** Whether `p` begins `a + b` is decided inside `a` when `a` is long enough, and otherwise the rest of `p` meets `b`. */
  lemma {:induction false} PrefixOfConcat(p: string, a: string, b: string)
    ensures |p| <= |a| ==> (IsPrefix(p, a + b) <==> IsPrefix(p, a))
    ensures |a| < |p| && IsPrefix(p, a + b) ==> b != [] && p[|a|] == b[0]
  {
    PrefixMeaning(p, a + b);
    PrefixMeaning(p, a);
    if |p| <= |a| {
      assert (a + b)[..|p|] == a[..|p|];
    } else if IsPrefix(p, a + b) {
      assert (a + b)[..|p|][|a|] == b[0];
    }
  }

  // ---------------------------------------------------------------------
  // Properties of ReplaceAll
  // ---------------------------------------------------------------------

  /** A pattern whose first character does not occur is never found. */
  lemma {:induction false} ReplaceAbsent(s: string, pat: string, rep: string)
    requires pat != [] && pat[0] !in s
    ensures ReplaceAll(s, pat, rep) == s
    decreases |s|
  {
    if s != [] {
      ReplaceAbsent(s[1..], pat, rep);
      assert [s[0]] + s[1..] == s;
    }
  }

  /** Replacing never brings in a character that neither `s` nor `rep` has. */
  lemma {:induction false} ReplaceAvoids(s: string, pat: string, rep: string, cs: set<char>)
    requires Avoids(s, cs) && Avoids(rep, cs)
    ensures Avoids(ReplaceAll(s, pat, rep), cs)
    decreases |s|
  {
    if s != [] {
      if pat != [] && IsPrefix(pat, s) {
        ReplaceAvoids(s[|pat|..], pat, rep, cs);
      } else {
        ReplaceAvoids(s[1..], pat, rep, cs);
      }
    }
  }

  /**
   * Replacing a single character by a text without it removes that
   * character, and keeps out every character already absent.
   */
  lemma {:induction false} ReplaceCharRemoves(s: string, c: char, rep: string, cs: set<char>)
    requires Avoids(s, cs) && Avoids(rep, cs + {c})
    ensures Avoids(ReplaceAll(s, [c], rep), cs + {c})
    decreases |s|
  {
    if s != [] {
      ReplaceCharRemoves(s[1..], c, rep, cs);
      assert IsPrefix([c], s) <==> s[0] == c by {
        assert [c][1..] == [];
      }
    }
  }

  /** Deleting one character with `replace(c, '')` filters it out. */
  lemma {:induction false} ReplaceCharByNothing(s: string, c: char)
    ensures ReplaceAll(s, [c], "") == Without(s, c)
    decreases |s|
  {
    if s != [] {
      ReplaceCharByNothing(s[1..], c);
      assert IsPrefix([c], s) <==> s[0] == c by {
        assert [c][1..] == [];
      }
    }
  }

  /** On a one-character text, a one-character pattern is either that character or absent. */
  lemma {:induction false} ReplaceChar(c: char, d: char, rep: string)
    ensures ReplaceAll([c], [d], rep) == if c == d then rep else [c]
  {
    assert [d][1..] == [] && [c][1..] == [];
    assert IsPrefix([d], [c]) <==> c == d;
    assert ReplaceAll([], [d], rep) == [];
    assert rep + [] == rep && [c] + [] == [c];
  }

  /**
   * Replacing works piece by piece when no occurrence can straddle the
   * seam: the pattern is one character, or the second piece does not start
   * with a character of the pattern.
   */
  lemma {:induction false} ReplaceConcat(a: string, b: string, pat: string, rep: string)
    requires pat != []
    requires |pat| == 1 || b == [] || b[0] !in pat
    ensures ReplaceAll(a + b, pat, rep) == ReplaceAll(a, pat, rep) + ReplaceAll(b, pat, rep)
    decreases |a|
  {
    if a == [] {
      assert a + b == b;
    } else {
      var s := a + b;
      var rb := ReplaceAll(b, pat, rep);
      PrefixOfConcat(pat, a, b);
      assert s[0] == a[0];
      if IsPrefix(pat, a) {
        var ra := ReplaceAll(a[|pat|..], pat, rep);
        assert s[|pat|..] == a[|pat|..] + b;
        ReplaceConcat(a[|pat|..], b, pat, rep);
        calc {
          ReplaceAll(s, pat, rep);
          rep + ReplaceAll(a[|pat|..] + b, pat, rep);
          rep + (ra + rb);
          (rep + ra) + rb;
        }
      } else {
        var ra := ReplaceAll(a[1..], pat, rep);
        assert !IsPrefix(pat, s);
        assert s[1..] == a[1..] + b;
        ReplaceConcat(a[1..], b, pat, rep);
        calc {
          ReplaceAll(s, pat, rep);
          [s[0]] + ReplaceAll(a[1..] + b, pat, rep);
          [a[0]] + (ra + rb);
          ([a[0]] + ra) + rb;
        }
      }
    }
  }

  // Unfolding steps of ReplaceAll, used to evaluate it on literal texts.

  /** A first character where the pattern does not start is copied. */
  lemma {:induction false} ReplaceNotHere(s: string, pat: string, rep: string)
    requires pat != [] && s != [] && !IsPrefix(pat, s)
    ensures ReplaceAll(s, pat, rep) == [s[0]] + ReplaceAll(s[1..], pat, rep)
  {
  }

  /** Text without the pattern's first character is copied as it is. */
  lemma {:induction false} ReplaceSkip(a: string, b: string, pat: string, rep: string)
    requires pat != [] && pat[0] !in a
    ensures ReplaceAll(a + b, pat, rep) == a + ReplaceAll(b, pat, rep)
    decreases |a|
  {
    if a == [] {
      assert a + b == b;
    } else {
      var s := a + b;
      var t := ReplaceAll(b, pat, rep);
      assert s[0] == a[0] && s[1..] == a[1..] + b;
      assert !IsPrefix(pat, s);
      ReplaceNotHere(s, pat, rep);
      ReplaceSkip(a[1..], b, pat, rep);
      calc {
        ReplaceAll(s, pat, rep);
        [a[0]] + ReplaceAll(a[1..] + b, pat, rep);
        [a[0]] + (a[1..] + t);
        { assert a == [a[0]] + a[1..]; }
        a + t;
      }
    }
  }

  /** An occurrence at the front is replaced. */
  lemma {:induction false} ReplaceHere(b: string, pat: string, rep: string)
    requires pat != []
    ensures ReplaceAll(pat + b, pat, rep) == rep + ReplaceAll(b, pat, rep)
  {
    var s := pat + b;
    PrefixMeaning(pat, s);
    assert s[..|pat|] == pat && s[|pat|..] == b;
  }

  /** A single occurrence, with the pattern's first character nowhere else. */
  lemma {:induction false} ReplaceOnly(a: string, b: string, pat: string, rep: string)
    requires pat != [] && pat[0] !in a && pat[0] !in b
    ensures ReplaceAll(a + pat + b, pat, rep) == a + rep + b
  {
    assert a + pat + b == a + (pat + b);
    ReplaceSkip(a, pat + b, pat, rep);
    ReplaceHere(b, pat, rep);
    ReplaceAbsent(b, pat, rep);
    assert a + (rep + b) == a + rep + b;
  }

  lemma {:induction false} AvoidsConcat(a: string, b: string, cs: set<char>)
    requires Avoids(a, cs) && Avoids(b, cs)
    ensures Avoids(a + b, cs)
  {
    assert forall i :: |a| <= i < |a + b| ==> (a + b)[i] == b[i - |a|];
  }
}
