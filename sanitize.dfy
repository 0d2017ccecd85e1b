/**
 * The title sanitization of pkg_rename.py:69-71: a fixed chain of nine
 * `replace` calls that rewrites the characters a file name may not hold.
 * Besides the chain itself, this module gives an independent one-pass
 * reading of it and proves the two agree.
 */
module Sanitizer {
  import opened Text

  /** The characters the chain rewrites. */
  const Forbidden := {':', '|', '?', '/', '\\', '*', '<', '>'}

  /** Line 69: colons, bars and question marks, with `: ` handled before a bare `:`. */
  function SanitizePunctuation(t: string): string
  {
    ReplaceAll(ReplaceAll(ReplaceAll(ReplaceAll(t, ": ", " - "), ":", "-"), "|", "l"), "?", "")
  }

  /** Line 70: slashes, backslashes and stars become underscores. */
  function SanitizeSlashes(t: string): string
  {
    ReplaceAll(ReplaceAll(ReplaceAll(t, "/", "_"), "\\", "_"), "*", "_")
  }

  /** Line 71: angle brackets become parentheses. */
  function SanitizeBrackets(t: string): string
  {
    ReplaceAll(ReplaceAll(t, "<", "("), ">", ")")
  }

  /** The whole chain, as applied to every title-class value. */
  function Sanitize(title: string): string
  {
    SanitizeBrackets(SanitizeSlashes(SanitizePunctuation(title)))
  }

  // ---------------------------------------------------------------------
  // A one-pass reading of the chain
  // ---------------------------------------------------------------------

  /** What a single character becomes, once `: ` pairs are dealt with. */
  function CharRewrite(c: char): string
  {
    match c
    case ':' => "-"
    case '|' => "l"
    case '?' => ""
    case '/' => "_"
    case '\\' => "_"
    case '*' => "_"
    case '<' => "("
    case '>' => ")"
    case _ => [c]
  }

  /**
   * One left-to-right pass: `: ` becomes ` - ` and every other character is
   * rewritten on its own. No replacement text holds a character a later
   * replacement looks for, which is why this pass equals the chain.
   */
  function SanitizeRef(t: string): string
    decreases |t|
  {
    if t == [] then []
    else if IsPrefix(": ", t) then " - " + SanitizeRef(t[2..])
    else CharRewrite(t[0]) + SanitizeRef(t[1..])
  }

  /** The eight one-character replacements that follow the first one. */
  function SanitizeRest(x: string): string
  {
    SanitizeBrackets(SanitizeSlashes(ReplaceAll(ReplaceAll(ReplaceAll(x, ":", "-"), "|", "l"), "?", "")))
  }

  lemma {:induction false} SanitizeUnfold(t: string)
    ensures Sanitize(t) == SanitizeRest(ReplaceAll(t, ": ", " - "))
  {
  }

  /** One-character replacements work piece by piece. */
  lemma {:induction false} RestConcat(a: string, b: string)
    ensures SanitizeRest(a + b) == SanitizeRest(a) + SanitizeRest(b)
  {
    var a1, b1 := ReplaceAll(a, ":", "-"), ReplaceAll(b, ":", "-");
    ReplaceConcat(a, b, ":", "-");
    var a2, b2 := ReplaceAll(a1, "|", "l"), ReplaceAll(b1, "|", "l");
    ReplaceConcat(a1, b1, "|", "l");
    var a3, b3 := ReplaceAll(a2, "?", ""), ReplaceAll(b2, "?", "");
    ReplaceConcat(a2, b2, "?", "");
    var a4, b4 := ReplaceAll(a3, "/", "_"), ReplaceAll(b3, "/", "_");
    ReplaceConcat(a3, b3, "/", "_");
    var a5, b5 := ReplaceAll(a4, "\\", "_"), ReplaceAll(b4, "\\", "_");
    ReplaceConcat(a4, b4, "\\", "_");
    var a6, b6 := ReplaceAll(a5, "*", "_"), ReplaceAll(b5, "*", "_");
    ReplaceConcat(a5, b5, "*", "_");
    var a7, b7 := ReplaceAll(a6, "<", "("), ReplaceAll(b6, "<", "(");
    ReplaceConcat(a6, b6, "<", "(");
    ReplaceConcat(a7, b7, ">", ")");
  }

  lemma {:induction false} RestEmpty()
    ensures SanitizeRest([]) == []
  {
    ReplaceAbsent([], ":", "-"); ReplaceAbsent([], "|", "l"); ReplaceAbsent([], "?", ""); ReplaceAbsent([], "/", "_");
    ReplaceAbsent([], "\\", "_"); ReplaceAbsent([], "*", "_"); ReplaceAbsent([], "<", "("); ReplaceAbsent([], ">", ")");
  }

  lemma {:induction false} RestClean(x: string)
    requires Avoids(x, Forbidden)
    ensures SanitizeRest(x) == x
  {
    assert ':' !in x && '|' !in x && '?' !in x && '/' !in x;
    assert '\\' !in x && '*' !in x && '<' !in x && '>' !in x;
    ReplaceAbsent(x, ":", "-"); ReplaceAbsent(x, "|", "l"); ReplaceAbsent(x, "?", ""); ReplaceAbsent(x, "/", "_");
    ReplaceAbsent(x, "\\", "_"); ReplaceAbsent(x, "*", "_"); ReplaceAbsent(x, "<", "("); ReplaceAbsent(x, ">", ")");
  }

  lemma {:induction false} RestSpaced()
    ensures SanitizeRest(" - ") == " - "
  {
    RestClean(" - ");
  }

  /** On one character the eight replacements act as CharRewrite. */
  lemma {:induction false} RestChar(c: char)
    ensures SanitizeRest([c]) == CharRewrite(c)
  {
    ReplaceChar(c, ':', "-");
    if c == ':' {
      ReplaceAbsent("-", "|", "l"); ReplaceAbsent("-", "?", ""); ReplaceAbsent("-", "/", "_");
      ReplaceAbsent("-", "\\", "_"); ReplaceAbsent("-", "*", "_"); ReplaceAbsent("-", "<", "("); ReplaceAbsent("-", ">", ")");
    } else {
      ReplaceChar(c, '|', "l");
      if c == '|' {
        ReplaceAbsent("l", "?", ""); ReplaceAbsent("l", "/", "_");
        ReplaceAbsent("l", "\\", "_"); ReplaceAbsent("l", "*", "_"); ReplaceAbsent("l", "<", "("); ReplaceAbsent("l", ">", ")");
      } else {
        ReplaceChar(c, '?', "");
        if c == '?' {
          ReplaceAbsent("", "/", "_");
          ReplaceAbsent("", "\\", "_"); ReplaceAbsent("", "*", "_"); ReplaceAbsent("", "<", "("); ReplaceAbsent("", ">", ")");
        } else {
          SlashesBracketsChar(c);
        }
      }
    }
  }

  lemma {:induction false} SlashesBracketsChar(c: char)
    requires c != ':' && c != '|' && c != '?'
    ensures SanitizeBrackets(SanitizeSlashes([c])) == CharRewrite(c)
  {
    ReplaceChar(c, '/', "_");
    if c == '/' {
      ReplaceAbsent("_", "\\", "_"); ReplaceAbsent("_", "*", "_"); ReplaceAbsent("_", "<", "("); ReplaceAbsent("_", ">", ")");
    } else {
      ReplaceChar(c, '\\', "_");
      if c == '\\' {
        ReplaceAbsent("_", "*", "_"); ReplaceAbsent("_", "<", "("); ReplaceAbsent("_", ">", ")");
      } else {
        ReplaceChar(c, '*', "_");
        if c == '*' {
          ReplaceAbsent("_", "<", "("); ReplaceAbsent("_", ">", ")");
        } else {
          ReplaceChar(c, '<', "(");
          if c == '<' {
            ReplaceAbsent("(", ">", ")");
          } else {
            ReplaceChar(c, '>', ")");
          }
        }
      }
    }
  }

  /** The chain of nine replaces is the one-pass rewrite. */
  lemma {:induction false} SanitizeMatchesRef(t: string)
    ensures Sanitize(t) == SanitizeRef(t)
    decreases |t|
  {
    SanitizeUnfold(t);
    if t == [] {
      RestEmpty();
    } else if IsPrefix(": ", t) {
      var v := ReplaceAll(t[2..], ": ", " - ");
      RestConcat(" - ", v);
      RestSpaced();
      SanitizeUnfold(t[2..]);
      SanitizeMatchesRef(t[2..]);
    } else {
      var v := ReplaceAll(t[1..], ": ", " - ");
      RestConcat([t[0]], v);
      RestChar(t[0]);
      SanitizeUnfold(t[1..]);
      SanitizeMatchesRef(t[1..]);
    }
  }

  // ---------------------------------------------------------------------
  // Properties of the chain
  // ---------------------------------------------------------------------

  /** Line 69 leaves no colon, bar or question mark. */
  lemma {:induction false} PunctuationRemoves(title: string)
    ensures Avoids(SanitizePunctuation(title), {':', '|', '?'})
  {
    var t1 := ReplaceAll(title, ": ", " - ");
    var t2 := ReplaceAll(t1, ":", "-");
    ReplaceCharRemoves(t1, ':', "-", {});
    var t3 := ReplaceAll(t2, "|", "l");
    ReplaceCharRemoves(t2, '|', "l", {':'});
    ReplaceCharRemoves(t3, '?', "", {':', '|'});
    assert {':', '|'} + {'?'} == {':', '|', '?'};
  }

  /** Line 70 leaves no slash, backslash or star, and brings in none of line 69's characters. */
  lemma {:induction false} SlashesRemoves(t: string)
    requires Avoids(t, {':', '|', '?'})
    ensures Avoids(SanitizeSlashes(t), {':', '|', '?', '/', '\\', '*'})
  {
    var t5 := ReplaceAll(t, "/", "_");
    ReplaceCharRemoves(t, '/', "_", {':', '|', '?'});
    var t6 := ReplaceAll(t5, "\\", "_");
    ReplaceCharRemoves(t5, '\\', "_", {':', '|', '?', '/'});
    ReplaceCharRemoves(t6, '*', "_", {':', '|', '?', '/', '\\'});
    assert {':', '|', '?', '/', '\\'} + {'*'} == {':', '|', '?', '/', '\\', '*'};
  }

  /** Line 71 leaves no angle bracket, and brings in none of the earlier characters. */
  lemma {:induction false} BracketsRemoves(t: string)
    requires Avoids(t, {':', '|', '?', '/', '\\', '*'})
    ensures Avoids(SanitizeBrackets(t), Forbidden)
  {
    var t8 := ReplaceAll(t, "<", "(");
    ReplaceCharRemoves(t, '<', "(", {':', '|', '?', '/', '\\', '*'});
    ReplaceCharRemoves(t8, '>', ")", {':', '|', '?', '/', '\\', '*', '<'});
    assert {':', '|', '?', '/', '\\', '*', '<'} + {'>'} == Forbidden;
  }

  /** A sanitized title holds none of `: | ? / \ * < >`. */
  lemma {:induction false} SanitizeRemovesForbidden(title: string)
    ensures Avoids(Sanitize(title), Forbidden)
  {
    PunctuationRemoves(title);
    SlashesRemoves(SanitizePunctuation(title));
    BracketsRemoves(SanitizeSlashes(SanitizePunctuation(title)));
  }

  /** A title without any of the rewritten characters passes through unchanged. */
  lemma {:induction false} SanitizeKeepsClean(title: string)
    requires Avoids(title, Forbidden)
    ensures Sanitize(title) == title
  {
    assert ':' !in title && '|' !in title && '?' !in title && '/' !in title;
    assert '\\' !in title && '*' !in title && '<' !in title && '>' !in title;
    ReplaceAbsent(title, ": ", " - ");
    RestClean(title);
  }

  /** Sanitizing twice is sanitizing once. */
  lemma {:induction false} SanitizeIdempotent(title: string)
    ensures Sanitize(Sanitize(title)) == Sanitize(title)
  {
    SanitizeRemovesForbidden(title);
    SanitizeKeepsClean(Sanitize(title));
  }

  // ---------------------------------------------------------------------
  // The one-pass rewrite, piece by piece
  // ---------------------------------------------------------------------

  /** No `: ` pair straddles the seam between `a` and `b`. */
  predicate NoColonSpaceSeam(a: string, b: string)
  {
    a == [] || b == [] || a[|a| - 1] != ':' || b[0] != ' '
  }

  lemma {:induction false} RefConcat(a: string, b: string)
    requires NoColonSpaceSeam(a, b)
    ensures SanitizeRef(a + b) == SanitizeRef(a) + SanitizeRef(b)
    decreases |a|
  {
    if a == [] {
      assert a + b == b;
    } else {
      var s := a + b;
      PrefixOfConcat(": ", a, b);
      assert s[0] == a[0];
      if IsPrefix(": ", a) {
        assert s[2..] == a[2..] + b;
        RefConcat(a[2..], b);
      } else {
        assert !IsPrefix(": ", s);
        assert s[1..] == a[1..] + b;
        RefConcat(a[1..], b);
      }
    }
  }

  lemma {:induction false} RefClean(x: string)
    requires Avoids(x, Forbidden)
    ensures SanitizeRef(x) == x
    decreases |x|
  {
    if x != [] {
      assert x[0] !in Forbidden;
      RefClean(x[1..]);
      assert [x[0]] + x[1..] == x;
    }
  }

  lemma {:induction false} RefColonSpace(b: string)
    ensures SanitizeRef(": " + b) == " - " + SanitizeRef(b)
  {
    var s := ": " + b;
    assert s[..2] == ": " && s[2..] == b;
    PrefixMeaning(": ", s);
  }

  lemma {:induction false} RefStep(c: char, b: string)
    requires c != ':'
    ensures SanitizeRef([c] + b) == CharRewrite(c) + SanitizeRef(b)
  {
    var s := [c] + b;
    assert s[0] == c && s[1..] == b;
  }

  /**
   * The shape of `Foo: Bar/Baz*Qux?`: `: ` becomes ` - ` before a bare `:`
   * could become `-`, `/` and `*` become `_`, and `?` is dropped.
   */
  lemma {:induction false} SanitizeShape(foo: string, bar: string, baz: string, qux: string)
    requires Avoids(foo, Forbidden) && Avoids(bar, Forbidden) && Avoids(baz, Forbidden) && Avoids(qux, Forbidden)
    ensures Sanitize(foo + (": " + (bar + ("/" + (baz + ("*" + (qux + "?")))))))
         == foo + (" - " + (bar + ("_" + (baz + ("_" + qux)))))
  {
    RefClean(foo); RefClean(bar); RefClean(baz); RefClean(qux);
    var t6 := "?";
    RefStep('?', []);
    assert SanitizeRef(t6) == [] by {
      assert t6 == ['?'] + [];
      assert SanitizeRef([]) == [];
    }
    var t5 := qux + t6;
    RefConcat(qux, t6);
    var t4 := "*" + t5;
    RefStep('*', t5);
    var t3 := baz + t4;
    RefConcat(baz, t4);
    var t2 := "/" + t3;
    RefStep('/', t3);
    var t1 := bar + t2;
    RefConcat(bar, t2);
    RefColonSpace(t1);
    RefConcat(foo, ": " + t1);
    SanitizeMatchesRef(foo + (": " + t1));
  }

  lemma {:induction false} SanitizeExampleParts()
    ensures Sanitize("Foo" + (": " + ("Bar" + ("/" + ("Baz" + ("*" + ("Qux" + "?")))))))
         == "Foo" + (" - " + ("Bar" + ("_" + ("Baz" + ("_" + "Qux")))))
  {
    assert Avoids("Foo", Forbidden) && Avoids("Bar", Forbidden);
    assert Avoids("Baz", Forbidden) && Avoids("Qux", Forbidden);
    SanitizeShape("Foo", "Bar", "Baz", "Qux");
  }

  lemma {:induction false} SanitizeExample()
    ensures Sanitize("Foo: Bar/Baz*Qux?") == "Foo - Bar_Baz_Qux"
  {
    SanitizeExampleParts();
    assert "Foo" + (": " + ("Bar" + ("/" + ("Baz" + ("*" + ("Qux" + "?")))))) == "Foo: Bar/Baz*Qux?";
    assert "Foo" + (" - " + ("Bar" + ("_" + ("Baz" + ("_" + "Qux"))))) == "Foo - Bar_Baz_Qux";
  }
}
