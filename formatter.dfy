/**
 * The template formatter `doDictFormat` of pkg_rename.py: placeholders are
 * written `%NAME%`; each one found is matched case-insensitively against
 * the metadata keys, title-class values are made safe for file names, the
 * placeholder text is replaced by a positional `{}` slot, and the slots are
 * finally filled left to right as Python's `str.format(*values)` does.
 */
module Formatter {
  import opened Wrappers
  import opened Text
  import opened Sanitizer

  /** The Python exceptions the formatter and the renamer can raise. */
  datatype Exc =
    | KeyError(key: string)      // `dict[key]` on an absent key
    | IndexError                 // `format` has more `{}` slots than values
    | ValueError                 // `format` meets a brace outside a `{}` slot
    | FileNotFound               // `os.rename` of a path that is not there
    | OtherException(name: string)

  /** The readable template used with `-n`, `%TITLE% (%TITLE_ID%) [v%VER%]` (see NameFormatText). */
  const NameFormat: string := Layout(Placeholder("TITLE"), Placeholder("TITLE_ID"), Placeholder("VER"))

  predicate NoBraces(s: string)
  {
    Avoids(s, {'{', '}'})
  }

  // ---------------------------------------------------------------------
  // Scan: re.findall('%(.*?)%', s)
  // ---------------------------------------------------------------------

  /**
   * Where the lazy `(.*?)%` that follows an opening `%` stops in `t`: at the
   * first `%`, provided no newline (which `.` does not match) comes before it.
   */
  function CloseAt(t: string): (r: Option<nat>)
    ensures r.Some? ==> r.value < |t| && t[r.value] == '%'
    ensures r.Some? ==> forall i :: 0 <= i < r.value ==> t[i] != '%' && t[i] != '\n'
    ensures r.None? ==> forall j :: 0 <= j < |t| && t[j] == '%' ==> exists i :: 0 <= i < j && t[i] == '\n'
  {
    if t == [] then None
    else if t[0] == '%' then Some(0)
    else if t[0] == '\n' then None
    else
      match CloseAt(t[1..])
      case Some(k) => Some(k + 1)
      case None =>
        assert forall j :: 1 <= j < |t| && t[j] == '%' ==> t[1..][j - 1] == '%';
        None
  }

  /**
   * The tokens `re.findall('%(.*?)%', s)` returns, in order: at a `%` with a
   * matching close the text between is a token and the scan resumes after
   * the close; otherwise the scan moves on one character.
   */
  function Scan(s: string): (tokens: seq<string>)
    ensures forall k :: 0 <= k < |tokens| ==> '%' !in tokens[k] && '\n' !in tokens[k]
    ensures forall k, i :: 0 <= k < |tokens| && 0 <= i < |tokens[k]| ==> tokens[k][i] in s
    decreases |s|
  {
    if s == [] then []
    else if s[0] == '%' then
      match CloseAt(s[1..])
      case Some(k) =>
        var token := s[1..k + 1];
        assert forall i :: 0 <= i < |token| ==> token[i] == s[1..][i];
        var rest := Scan(s[k + 2..]);
        assert forall k', i :: 0 <= k' < |rest| && 0 <= i < |rest[k']| ==> rest[k'][i] in s;
        [token] + rest
      case None => Scan(s[1..])
    else Scan(s[1..])
  }

  /** Without any `%` the scan finds nothing. */
  lemma {:induction false} ScanWithoutPercent(s: string)
    requires '%' !in s
    ensures Scan(s) == []
    decreases |s|
  {
    if s != [] {
      ScanWithoutPercent(s[1..]);
    }
  }

  /** A close right after a name without `%` or newline. */
  lemma {:induction false} CloseAfterName(n: string, rest: string)
    requires '%' !in n && '\n' !in n
    ensures CloseAt(n + ("%" + rest)) == Some(|n|)
    decreases |n|
  {
    if n != [] {
      assert (n + ("%" + rest))[1..] == n[1..] + ("%" + rest);
      CloseAfterName(n[1..], rest);
    }
  }

  /** A placeholder `%NAME%` at the front yields the token NAME, and the scan resumes after it. */
  lemma {:induction false} ScanPlaceholder(n: string, rest: string)
    requires '%' !in n && '\n' !in n
    ensures Scan(Placeholder(n) + rest) == [n] + Scan(rest)
  {
    var s := Placeholder(n) + rest;
    assert s[0] == '%' && s[1..] == n + ("%" + rest);
    CloseAfterName(n, rest);
    assert s[1..|n| + 1] == n;
    assert s[|n| + 2..] == rest;
  }

  /** A newline in `t` stops the close search before anything after it is seen. */
  lemma {:induction false} CloseSplit(t: string, b: string)
    ensures CloseAt(t + ("\n" + b)) == CloseAt(t)
    decreases |t|
  {
    if t != [] {
      assert (t + ("\n" + b))[1..] == t[1..] + ("\n" + b);
      CloseSplit(t[1..], b);
    }
  }

  /**
   * No token runs across a newline: an opening `%` without a close before
   * the newline is passed over one character at a time, so the scan of the
   * text after the newline is unaffected.
   */
  lemma {:induction false} ScanNewline(a: string, b: string)
    ensures Scan(a + ("\n" + b)) == Scan(a) + Scan(b)
    decreases |a|
  {
    if a == [] {
      var s := "\n" + b;
      assert a + s == s;
      ScanSkip(s);
      assert s[1..] == b;
    } else if a[0] == '%' && CloseAt(a[1..]).Some? {
      var k := CloseAt(a[1..]).value;
      ScanToken(a, k);
      ScanNewline(a[k + 2..], b);
      NewlineAfterToken(a, b, k);
    } else {
      ScanNewline(a[1..], b);
      NewlineAfterSkip(a, b);
    }
  }

  /** ScanNewline's step over a closed placeholder. */
  lemma {:induction false} NewlineAfterToken(a: string, b: string, k: nat)
    requires a != [] && a[0] == '%' && CloseAt(a[1..]) == Some(k)
    requires k + 2 <= |a| && Scan(a) == [a[1..k + 1]] + Scan(a[k + 2..])
    requires Scan(a[k + 2..] + ("\n" + b)) == Scan(a[k + 2..]) + Scan(b)
    ensures Scan(a + ("\n" + b)) == Scan(a) + Scan(b)
  {
    var c := "\n" + b;
    var s := a + c;
    TokenSeam(a, c, k);
    CloseSplit(a[1..], b);
    ScanToken(s, k);
    var t, x := a[1..k + 1], a[k + 2..];
    assert Scan(s) == [t] + Scan(x + c);
    SeqAssoc([t], Scan(x), Scan(b));
  }

  lemma {:induction false} SeqAssoc(x: seq<string>, y: seq<string>, z: seq<string>)
    ensures x + (y + z) == (x + y) + z
  {
  }

  /** Slicing `a + c` within `a`, and after position `k + 2` of `a`. */
  lemma {:induction false} TokenSeam(a: string, c: string, k: nat)
    requires 0 < k + 2 <= |a|
    ensures (a + c)[0] == a[0] && (a + c)[1..] == a[1..] + c
    ensures (a + c)[1..k + 1] == a[1..k + 1] && (a + c)[k + 2..] == a[k + 2..] + c
  {
  }

  /** ScanNewline's step over a character that opens no closed placeholder. */
  lemma {:induction false} NewlineAfterSkip(a: string, b: string)
    requires a != [] && (a[0] != '%' || CloseAt(a[1..]).None?)
    requires Scan(a[1..] + ("\n" + b)) == Scan(a[1..]) + Scan(b)
    ensures Scan(a + ("\n" + b)) == Scan(a) + Scan(b)
  {
    var c := "\n" + b;
    var s := a + c;
    assert s[0] == a[0] && s[1..] == a[1..] + c;
    CloseSplit(a[1..], b);
    ScanSkip(a);
    ScanSkip(s);
    assert Scan(s) == Scan(a[1..] + c);
  }

  /** A `%` with a close at `k` yields the token before it and the scan resumes after it. */
  lemma {:induction false} ScanToken(s: string, k: nat)
    requires s != [] && s[0] == '%' && CloseAt(s[1..]) == Some(k)
    ensures k + 2 <= |s| && Scan(s) == [s[1..k + 1]] + Scan(s[k + 2..])
  {
  }

  /** A character that does not open a closed placeholder is passed over. */
  lemma {:induction false} ScanSkip(s: string)
    requires s != [] && (s[0] != '%' || CloseAt(s[1..]).None?)
    ensures Scan(s) == Scan(s[1..])
  {
  }

  /**
   * An opening `%` whose close would lie past a newline yields no token, and
   * the placeholder after the newline is still found.
   */
  lemma {:induction false} UnclosedBeforeNewline(x: string, n: string)
    requires '%' !in x && '%' !in n && '\n' !in n
    ensures Scan("%" + x + ("\n" + Placeholder(n))) == [n]
  {
    var a := "%" + x;
    assert a[0] == '%' && a[1..] == x;
    assert CloseAt(x).None?;
    ScanWithoutPercent(x);
    assert Scan(a) == [];
    ScanNewline(a, Placeholder(n));
    ScanPlaceholder(n, []);
    ScanWithoutPercent([]);
    assert Placeholder(n) + [] == Placeholder(n);
  }

  /** `findall` on `%x`, newline, `%TITLE%` finds TITLE only. */
  lemma UnclosedExample()
    ensures Scan("%x\n%TITLE%") == ["TITLE"]
  {
    UnclosedBeforeNewline("x", "TITLE");
    assert "%" + "x" + ("\n" + Placeholder("TITLE")) == "%x\n%TITLE%";
  }

  /** Text without `%` yields no token. */
  lemma {:induction false} ScanText(a: string, rest: string)
    requires '%' !in a
    ensures Scan(a + rest) == Scan(rest)
    decreases |a|
  {
    if a != [] {
      assert (a + rest)[1..] == a[1..] + rest;
      ScanText(a[1..], rest);
    } else {
      assert a + rest == rest;
    }
  }

  // ---------------------------------------------------------------------
  // Substitution (pkg_rename.py:65-77)
  // ---------------------------------------------------------------------

  /** The evolving string `s_f` and the list `format_val_arr`. */
  datatype Acc = Acc(formatted: string, values: seq<string>)

  /** Title-class names start with TITLE but are not TITLE_ID. */
  predicate IsTitleClass(key: string)
  {
    IsPrefix("TITLE", key) && key != "TITLE_ID"
  }

  /** A title-class token whose key the metadata lacks. */
  predicate MissingTitle(token: string, fields: map<string, string>)
  {
    IsTitleClass(Upper(token)) && Upper(token) !in fields
  }

  /** The text `'%' + val + '%'` that is replaced by a slot. */
  function Placeholder(token: string): string
  {
    "%" + (token + "%")
  }

  /** One iteration of the loop over the scanned tokens. */
  function SubstituteOne(acc: Acc, token: string, fields: map<string, string>): Result<Acc, Exc>
  {
    var key := Upper(token);
    if IsTitleClass(key) then
      if key in fields then
        Ok(Acc(ReplaceAll(acc.formatted, Placeholder(token), "{}"), acc.values + [Sanitize(fields[key])]))
      else
        Err(KeyError(key))
    else if key in fields then
      Ok(Acc(ReplaceAll(acc.formatted, Placeholder(token), "{}"), acc.values + [fields[key]]))
    else
      Ok(acc)
  }

  /** The loop over the scanned tokens, from state `acc` on. */
  function Substitute(acc: Acc, tokens: seq<string>, fields: map<string, string>): Result<Acc, Exc>
    decreases |tokens|
  {
    if tokens == [] then Ok(acc)
    else
      match SubstituteOne(acc, tokens[0], fields)
      case Err(e) => Err(e)
      case Ok(next) => Substitute(next, tokens[1..], fields)
  }

  // ---------------------------------------------------------------------
  // Positional fill: s_f.format(*values)
  // ---------------------------------------------------------------------

  /** Each `{}` takes the next value; too few values is an IndexError. */
  function Fill(formatted: string, values: seq<string>): Result<string, Exc>
    decreases |formatted|
  {
    if formatted == [] then Ok([])
    else if |formatted| >= 2 && formatted[0] == '{' && formatted[1] == '}' then
      if values == [] then Err(IndexError)
      else
        match Fill(formatted[2..], values[1..])
        case Ok(t) => Ok(values[0] + t)
        case Err(e) => Err(e)
    else if formatted[0] == '{' || formatted[0] == '}' then Err(ValueError)
    else
      match Fill(formatted[1..], values)
      case Ok(t) => Ok([formatted[0]] + t)
      case Err(e) => Err(e)
  }

  /** Every brace of `f` belongs to a `{}` slot. */
  predicate OnlySlots(f: string)
    decreases |f|
  {
    f == []
    || (|f| >= 2 && f[0] == '{' && f[1] == '}' && OnlySlots(f[2..]))
    || (f[0] != '{' && f[0] != '}' && OnlySlots(f[1..]))
  }

  /** The number of `{}` slots in `f`. */
  function Slots(f: string): nat
    decreases |f|
  {
    if f == [] then 0
    else if |f| >= 2 && f[0] == '{' && f[1] == '}' then 1 + Slots(f[2..])
    else Slots(f[1..])
  }

  /**
   * On a text whose braces all form `{}` slots, `format` succeeds exactly
   * when there are at least as many values as slots; too few values is an
   * IndexError.
   */
  lemma {:induction false} FillCountsSlots(f: string, values: seq<string>)
    requires OnlySlots(f)
    ensures Fill(f, values).Ok? <==> Slots(f) <= |values|
    ensures Fill(f, values).Err? ==> Fill(f, values) == Err(IndexError)
    decreases |f|
  {
    if f == [] {
    } else if |f| >= 2 && f[0] == '{' && f[1] == '}' {
      if values != [] {
        FillCountsSlots(f[2..], values[1..]);
      }
    } else {
      FillCountsSlots(f[1..], values);
    }
  }

  /** A brace-free text has no brace outside a slot. */
  lemma {:induction false} BraceFreeOnlySlots(f: string)
    requires NoBraces(f)
    ensures OnlySlots(f)
    decreases |f|
  {
    if f != [] {
      assert f[0] !in {'{', '}'};
      assert forall i :: 0 <= i < |f| - 1 ==> f[1..][i] == f[i + 1];
      BraceFreeOnlySlots(f[1..]);
    }
  }

  /** Dropping a brace-free prefix keeps every brace in a slot. */
  lemma {:induction false} OnlySlotsDrop(f: string, k: nat)
    requires OnlySlots(f) && k <= |f| && NoBraces(f[..k])
    ensures OnlySlots(f[k..])
    decreases k
  {
    if k > 0 {
      assert f[..k][0] == f[0];
      assert f[1..][..k - 1] == f[1..k];
      assert forall i :: 0 <= i < k - 1 ==> f[1..k][i] == f[..k][i + 1];
      OnlySlotsDrop(f[1..], k - 1);
      assert f[1..][k - 1..] == f[k..];
    }
  }

  /**
   * Replacing a brace-free, non-empty placeholder by a `{}` slot keeps every
   * brace of the template inside a slot.
   */
  lemma {:induction false} ReplaceKeepsSlots(f: string, pat: string)
    requires pat != [] && NoBraces(pat) && OnlySlots(f)
    ensures OnlySlots(ReplaceAll(f, pat, "{}"))
    decreases |f|
  {
    assert pat[0] !in {'{', '}'};
    if f == [] {
    } else if |f| >= 2 && f[0] == '{' && f[1] == '}' {
      ReplaceNotHere(f, pat, "{}");
      ReplaceNotHere(f[1..], pat, "{}");
      assert f[1..][1..] == f[2..];
      ReplaceKeepsSlots(f[2..], pat);
      var r := ReplaceAll(f[2..], pat, "{}");
      calc {
        ReplaceAll(f, pat, "{}");
        [f[0]] + ReplaceAll(f[1..], pat, "{}");
        [f[0]] + ([f[1]] + r);
      }
      assert ([f[0]] + ([f[1]] + r))[2..] == r;
    } else if IsPrefix(pat, f) {
      PrefixMeaning(pat, f);
      OnlySlotsDrop(f, |pat|);
      ReplaceKeepsSlots(f[|pat|..], pat);
      var r := ReplaceAll(f[|pat|..], pat, "{}");
      assert ("{}" + r)[2..] == r;
    } else {
      ReplaceNotHere(f, pat, "{}");
      ReplaceKeepsSlots(f[1..], pat);
      assert ([f[0]] + ReplaceAll(f[1..], pat, "{}"))[1..] == ReplaceAll(f[1..], pat, "{}");
    }
  }

  /** The token loop keeps every brace in a slot when the tokens are brace-free. */
  lemma {:induction false} SubstituteKeepsSlots(acc: Acc, tokens: seq<string>, fields: map<string, string>)
    requires OnlySlots(acc.formatted)
    requires forall k :: 0 <= k < |tokens| ==> NoBraces(tokens[k])
    ensures Substitute(acc, tokens, fields).Ok? ==> OnlySlots(Substitute(acc, tokens, fields).value.formatted)
    decreases |tokens|
  {
    if tokens != [] {
      match SubstituteOne(acc, tokens[0], fields)
      case Err(e) =>
      case Ok(next) =>
        if Upper(tokens[0]) in fields {
          PlaceholderNoBraces(tokens[0]);
          ReplaceKeepsSlots(acc.formatted, Placeholder(tokens[0]));
        }
        assert forall k :: 0 <= k < |tokens| - 1 ==> tokens[1..][k] == tokens[k + 1];
        SubstituteKeepsSlots(next, tokens[1..], fields);
    }
  }

  /** What `doDictFormat(s, fields)` returns or raises. */
  function DictFormat(s: string, fields: map<string, string>): Result<string, Exc>
  {
    match Substitute(Acc(s, []), Scan(s), fields)
    case Err(e) => Err(e)
    case Ok(acc) => Fill(acc.formatted, acc.values)
  }

  /**
   * The formatter as the script runs it: a loop over the scanned tokens that
   * rewrites the template and collects the values, then the positional fill.
   */
  method DoDictFormat(s: string, fields: map<string, string>) returns (r: Result<string, Exc>)
    requires NoBraces(s)
    ensures r == DictFormat(s, fields)
  {
    var formatted := s;
    var values: seq<string> := [];
    var tokens := Scan(s);
    var i := 0;
    while i < |tokens|
      invariant 0 <= i <= |tokens|
      invariant Substitute(Acc(formatted, values), tokens[i..], fields) == Substitute(Acc(s, []), tokens, fields)
    {
      var token := tokens[i];
      assert tokens[i..][0] == token && tokens[i..][1..] == tokens[i + 1..];
      var key := Upper(token);
      if IsTitleClass(key) {
        if key !in fields {
          return Err(KeyError(key));
        }
        var title := Sanitize(fields[key]);
        formatted := ReplaceAll(formatted, Placeholder(token), "{}");
        values := values + [title];
      } else if key in fields {
        formatted := ReplaceAll(formatted, Placeholder(token), "{}");
        values := values + [fields[key]];
      }
      i := i + 1;
    }
    r := Fill(formatted, values);
  }

  // ---------------------------------------------------------------------
  // Properties of the formatter
  // ---------------------------------------------------------------------

  /** Formatting fails exactly when some title-class token lacks its key, and then with a KeyError. */
  lemma {:induction false} SubstituteFailsOnMissingTitle(acc: Acc, tokens: seq<string>, fields: map<string, string>)
    ensures Substitute(acc, tokens, fields).Err? <==> exists k :: 0 <= k < |tokens| && MissingTitle(tokens[k], fields)
    ensures Substitute(acc, tokens, fields).Err? ==> Substitute(acc, tokens, fields).error.KeyError?
    decreases |tokens|
  {
    if tokens != [] {
      match SubstituteOne(acc, tokens[0], fields)
      case Err(e) =>
        assert MissingTitle(tokens[0], fields);
      case Ok(next) =>
        assert !MissingTitle(tokens[0], fields);
        SubstituteFailsOnMissingTitle(next, tokens[1..], fields);
        assert forall k :: 1 <= k < |tokens| ==> tokens[k] == tokens[1..][k - 1];
    }
  }

  /**
   * On a brace-free template `doDictFormat` fails only with a KeyError for a
   * missing key or with an IndexError when the slots outnumber the values;
   * once the token loop has finished, it fails exactly when they do.
   */
  lemma {:induction false} DictFormatFailures(s: string, fields: map<string, string>)
    requires NoBraces(s)
    ensures DictFormat(s, fields).Err? ==> DictFormat(s, fields).error.KeyError? || DictFormat(s, fields).error == IndexError
    ensures Substitute(Acc(s, []), Scan(s), fields).Ok? ==>
      (DictFormat(s, fields).Ok? <==> Slots(Substitute(Acc(s, []), Scan(s), fields).value.formatted) <= |Substitute(Acc(s, []), Scan(s), fields).value.values|)
  {
    var tokens := Scan(s);
    assert forall k :: 0 <= k < |tokens| ==> NoBraces(tokens[k]) by {
      forall k | 0 <= k < |tokens|
        ensures NoBraces(tokens[k])
      {
        forall i | 0 <= i < |tokens[k]|
          ensures tokens[k][i] !in {'{', '}'}
        {
          assert tokens[k][i] in s;
        }
      }
    }
    BraceFreeOnlySlots(s);
    SubstituteKeepsSlots(Acc(s, []), tokens, fields);
    SubstituteFailsOnMissingTitle(Acc(s, []), tokens, fields);
    match Substitute(Acc(s, []), tokens, fields)
    case Err(e) =>
    case Ok(acc) =>
      FillCountsSlots(acc.formatted, acc.values);
  }

  /** A brace-free text fills to itself, whatever the values. */
  lemma {:induction false} FillBraceFree(formatted: string, values: seq<string>)
    requires NoBraces(formatted)
    ensures Fill(formatted, values) == Ok(formatted)
    decreases |formatted|
  {
    if formatted != [] {
      assert formatted[0] !in {'{', '}'};
      FillBraceFree(formatted[1..], values);
      assert [formatted[0]] + formatted[1..] == formatted;
    }
  }

  /** A brace-free template in which the scan finds no token comes back unchanged. */
  lemma {:induction false} NoTokensUnchanged(s: string, fields: map<string, string>)
    requires NoBraces(s) && Scan(s) == []
    ensures DictFormat(s, fields) == Ok(s)
  {
    FillBraceFree(s, []);
  }

  /** A single `%NAME%` whose NAME is neither title-class nor a key is left as it is. */
  lemma {:induction false} UnmatchedPlaceholderVerbatim(n: string, fields: map<string, string>)
    requires '%' !in n && '\n' !in n && NoBraces(n)
    requires !IsTitleClass(Upper(n)) && Upper(n) !in fields
    ensures DictFormat(Placeholder(n), fields) == Ok(Placeholder(n))
  {
    var s := Placeholder(n);
    ScanPlaceholder(n, []);
    assert s + [] == s;
    ScanWithoutPercent([]);
    assert Substitute(Acc(s, []), [n], fields) == Ok(Acc(s, [])) by {
      assert SubstituteOne(Acc(s, []), n, fields) == Ok(Acc(s, []));
      assert [n][1..] == [];
    }
    assert NoBraces(s) by {
      AvoidsConcat(n, "%", {'{', '}'});
      AvoidsConcat("%", n + "%", {'{', '}'});
    }
    FillBraceFree(s, []);
  }

  /**
   * A template that is one placeholder, written in any case, whose
   * upper-cased name is a key formats to that key's value, sanitized when
   * the name is title-class: the placeholder is replaced as it was written.
   */
  lemma {:induction false} SinglePlaceholderFound(n: string, fields: map<string, string>)
    requires '%' !in n && '\n' !in n && NoBraces(n) && Upper(n) in fields
    ensures DictFormat(Placeholder(n), fields)
      == Ok(if IsTitleClass(Upper(n)) then Sanitize(fields[Upper(n)]) else fields[Upper(n)])
  {
    var s := Placeholder(n);
    var v := if IsTitleClass(Upper(n)) then Sanitize(fields[Upper(n)]) else fields[Upper(n)];
    ScanPlaceholder(n, []);
    ScanWithoutPercent([]);
    assert s + [] == s;
    ReplaceHere([], s, "{}");
    assert ReplaceAll(s, s, "{}") == "{}";
    assert SubstituteOne(Acc(s, []), n, fields) == Ok(Acc("{}", [v])) by {
      assert [] + [v] == [v];
      if IsTitleClass(Upper(n)) {
        assert v == Sanitize(fields[Upper(n)]);
      } else {
        assert v == fields[Upper(n)];
      }
    }
    assert Substitute(Acc(s, []), [n], fields) == Ok(Acc("{}", [v])) by {
      assert [n][1..] == [];
    }
    FillSlot([], v, [], []);
    assert "{}" + [] == "{}" && [v] + [] == [v] && v + [] == v;
  }

  /** `%title%` is looked up as TITLE and, when TITLE is present, gives the sanitized title. */
  lemma LowerCaseTitleFound(fields: map<string, string>)
    requires "TITLE" in fields
    ensures DictFormat("%title%", fields) == Ok(Sanitize(fields["TITLE"]))
  {
    assert Upper("title") == "TITLE";
    assert IsTitleClass("TITLE") by {
      assert IsPrefix("TITLE", "TITLE");
    }
    assert Placeholder("title") == "%title%";
    assert NoBraces("title");
    SinglePlaceholderFound("title", fields);
  }

  /** A title-class token whose key is absent makes the formatter raise a KeyError. */
  lemma {:induction false} MissingTitleRaises(s: string, fields: map<string, string>, k: nat)
    requires k < |Scan(s)| && MissingTitle(Scan(s)[k], fields)
    ensures DictFormat(s, fields).Err? && DictFormat(s, fields).error.KeyError?
  {
    SubstituteFailsOnMissingTitle(Acc(s, []), Scan(s), fields);
  }

  /** A template that is one title-class placeholder whose key is absent raises KeyError for the upper-cased name. */
  lemma {:induction false} SingleMissingTitle(n: string, fields: map<string, string>)
    requires '%' !in n && '\n' !in n && MissingTitle(n, fields)
    ensures DictFormat(Placeholder(n), fields) == Err(KeyError(Upper(n)))
  {
    var s := Placeholder(n);
    ScanPlaceholder(n, []);
    ScanWithoutPercent([]);
    assert s + [] == s;
    assert Scan(s) == [n];
    assert SubstituteOne(Acc(s, []), n, fields) == Err(KeyError(Upper(n)));
  }

  /** `%title%` is title-class once upper-cased, so a map without TITLE makes it raise. */
  lemma LowerCaseTitleRaises(fields: map<string, string>)
    requires "TITLE" !in fields
    ensures DictFormat("%title%", fields) == Err(KeyError("TITLE"))
  {
    assert MissingTitle("title", fields) && Upper("title") == "TITLE" by {
      assert Upper("title") == "TITLE";
      assert IsPrefix("TITLE", "TITLE");
    }
    assert Placeholder("title") == "%title%";
    SingleMissingTitle("title", fields);
  }

  /** `TITLE_<lang>` for an upper-case `lang` other than ID is an upper-case title-class name. */
  lemma {:induction false} LocalizedKey(lang: string)
    requires forall i :: 0 <= i < |lang| ==> 'A' <= lang[i] <= 'Z'
    requires lang != "ID"
    ensures var n := "TITLE_" + lang;
      Upper(n) == n && IsTitleClass(n) && '%' !in n && '\n' !in n
  {
    var n := "TITLE_" + lang;
    assert Avoids(n, {'%', '\n'}) && forall i :: 0 <= i < |n| ==> !('a' <= n[i] <= 'z') by {
      assert Avoids("TITLE_", {'%', '\n'}) && Avoids(lang, {'%', '\n'});
      AvoidsConcat("TITLE_", lang, {'%', '\n'});
      forall i | 0 <= i < |n|
        ensures !('a' <= n[i] <= 'z')
      {
        if i >= 6 {
          assert n[i] == lang[i - 6];
        }
      }
    }
    UpperOfUpper(n);
    assert IsPrefix("TITLE", n) by {
      PrefixMeaning("TITLE", n);
      assert n[..5] == "TITLE";
    }
    assert n != "TITLE_ID" by {
      assert n[6..] == lang;
      assert "TITLE_ID"[6..] == "ID";
    }
  }

  /**
   * Localized title keys such as `%TITLE_EN%` are title-class as well (only
   * TITLE_ID is not): when the key is absent, formatting raises KeyError
   * instead of skipping the placeholder.
   */
  lemma {:induction false} LocalizedTitleRaises(lang: string, fields: map<string, string>)
    requires forall i :: 0 <= i < |lang| ==> 'A' <= lang[i] <= 'Z'
    requires lang != "ID" && "TITLE_" + lang !in fields
    ensures DictFormat(Placeholder("TITLE_" + lang), fields) == Err(KeyError("TITLE_" + lang))
  {
    LocalizedKey(lang);
    SingleMissingTitle("TITLE_" + lang, fields);
  }

  // ---------------------------------------------------------------------
  // The readable template NAME_FORMAT (pkg_rename.py:11)
  // ---------------------------------------------------------------------

  /** The layout of NAME_FORMAT around its three placeholders. */
  function Layout(x: string, y: string, z: string): string
  {
    x + (" (" + (y + (") [v" + (z + "]"))))
  }

  lemma {:induction false} NameFormatLayout()
    ensures NameFormat == Layout(Placeholder("TITLE"), Placeholder("TITLE_ID"), Placeholder("VER"))
  {
  }

  /** The readable template can go through the formatter loop. */
  lemma {:induction false} NameFormatNoBraces()
    ensures NoBraces(NameFormat)
  {
    PlaceholderNoBraces("TITLE");
    PlaceholderNoBraces("TITLE_ID");
    PlaceholderNoBraces("VER");
    LayoutNoBraces(Placeholder("TITLE"), Placeholder("TITLE_ID"), Placeholder("VER"));
  }

  lemma {:induction false} PlaceholderNoBraces(k: string)
    requires NoBraces(k)
    ensures NoBraces(Placeholder(k))
  {
    var b := {'{', '}'};
    AvoidsConcat(k, "%", b);
    AvoidsConcat("%", k + "%", b);
  }

  lemma {:induction false} LayoutNoBraces(x: string, y: string, z: string)
    requires NoBraces(x) && NoBraces(y) && NoBraces(z)
    ensures NoBraces(Layout(x, y, z))
  {
    var b := {'{', '}'};
    AvoidsConcat(z, "]", b);
    AvoidsConcat(") [v", z + "]", b);
    AvoidsConcat(y, ") [v" + (z + "]"), b);
    AvoidsConcat(" (", y + (") [v" + (z + "]")), b);
    AvoidsConcat(x, " (" + (y + (") [v" + (z + "]"))), b);
  }

  /** The template as the script writes it. */
  lemma NameFormatText()
    ensures NameFormat == "%TITLE% (%TITLE_ID%) [v%VER%]"
  {
  }

  /** A placeholder is not the start of a different placeholder. */
  lemma {:induction false} PlaceholderNotPrefix(m: string, n: string, rest: string)
    requires '%' !in m && '%' !in n && m != n
    ensures !IsPrefix(Placeholder(n), Placeholder(m) + rest)
  {
    var s := Placeholder(m) + rest;
    var p := Placeholder(n);
    PrefixMeaning(p, s);
    if |n| < |m| {
      assert p[|n| + 1] == '%' && s[|n| + 1] == m[|n|];
    } else if |m| < |n| {
      assert s[|m| + 1] == '%' && p[|m| + 1] == n[|m|];
    } else {
      assert p[1..|n| + 1] == n;
      assert Placeholder(m)[1..|m| + 1] == m;
      assert s[..|p|] == Placeholder(m);
    }
  }

  /** What stands before a piece of text in the template being rewritten: a slot or a placeholder. */
  function Lead(slot: bool, m: string): string
  {
    if slot then "{}" else Placeholder(m)
  }

  /** A `%` followed by text that does not start with `n` does not start `%n%`. */
  lemma {:induction false} PercentNotPlaceholder(n: string, tail: string)
    requires n != [] && tail != [] && tail[0] != n[0]
    ensures !IsPrefix(Placeholder(n), "%" + tail)
  {
    var p := Placeholder(n);
    var u := "%" + tail;
    assert u[1] == tail[0];
    assert p[1] == n[0];
    PrefixMeaning(p, u);
    assert |p| <= |u| ==> u[..|p|][1] == u[1];
  }

  /** A different placeholder in front of text that cannot continue `%n%` is kept. */
  lemma {:induction false} ReplaceOtherLead(m: string, t: string, rest: string, n: string)
    requires '%' !in m && '%' !in n && n != [] && m != n
    requires '%' !in t && t != [] && t[0] != n[0]
    ensures ReplaceAll(Placeholder(m) + (t + rest), Placeholder(n), "{}")
         == Placeholder(m) + ReplaceAll(t + rest, Placeholder(n), "{}")
  {
    var p := Placeholder(n);
    var tail := t + rest;
    var s := Placeholder(m) + tail;
    var u := "%" + tail;
    var r := ReplaceAll(tail, p, "{}");
    PlaceholderNotPrefix(m, n, tail);
    assert s[0] == '%' && s[1..] == m + u;
    ReplaceNotHere(s, p, "{}");
    ReplaceSkip(m, u, p, "{}");
    assert tail[0] == t[0];
    PercentNotPlaceholder(n, tail);
    assert u[0] == '%' && u[1..] == tail;
    calc {
      ReplaceAll(s, p, "{}");
      "%" + ReplaceAll(m + u, p, "{}");
      "%" + (m + ReplaceAll(u, p, "{}"));
      "%" + (m + ("%" + r));
      Placeholder(m) + r;
    }
  }

  /** Replacing `%n%` in front of text that cannot continue it touches only that lead. */
  lemma {:induction false} ReplaceLead(slot: bool, m: string, t: string, rest: string, n: string)
    requires '%' !in m && '%' !in n && n != []
    requires '%' !in t && t != [] && t[0] != n[0]
    ensures ReplaceAll(Lead(slot, m) + (t + rest), Placeholder(n), "{}")
         == Lead(slot || m == n, m) + (t + ReplaceAll(rest, Placeholder(n), "{}"))
  {
    var p := Placeholder(n);
    var tail := t + rest;
    ReplaceSkip(t, rest, p, "{}");
    if slot {
      ReplaceSkip("{}", tail, p, "{}");
    } else if m == n {
      ReplaceHere(tail, p, "{}");
    } else {
      ReplaceOtherLead(m, t, rest, n);
    }
  }

  /** Replacing `%n%` in the layout rewrites exactly the lead that is `%n%`. */
  lemma {:induction false} ReplaceInLayout(s1: bool, m1: string, s2: bool, m2: string, s3: bool, m3: string, n: string)
    requires '%' !in m1 && '%' !in m2 && '%' !in m3 && '%' !in n && n != []
    requires n[0] != ' ' && n[0] != ')' && n[0] != ']'
    ensures ReplaceAll(Layout(Lead(s1, m1), Lead(s2, m2), Lead(s3, m3)), Placeholder(n), "{}")
         == Layout(Lead(s1 || m1 == n, m1), Lead(s2 || m2 == n, m2), Lead(s3 || m3 == n, m3))
  {
    var p := Placeholder(n);
    var l1, l2, l3 := Lead(s1 || m1 == n, m1), Lead(s2 || m2 == n, m2), Lead(s3 || m3 == n, m3);
    var z := Lead(s3, m3) + "]";
    assert ReplaceAll(z, p, "{}") == l3 + "]" by {
      ReplaceLead(s3, m3, "]", [], n);
      assert "]" + [] == "]";
      assert ReplaceAll([], p, "{}") == [];
    }
    var y := Lead(s2, m2) + (") [v" + z);
    assert ReplaceAll(y, p, "{}") == l2 + (") [v" + (l3 + "]")) by {
      ReplaceLead(s2, m2, ") [v", z, n);
    }
    assert ReplaceAll(Lead(s1, m1) + (" (" + y), p, "{}") == l1 + (" (" + (l2 + (") [v" + (l3 + "]")))) by {
      ReplaceLead(s1, m1, " (", y, n);
    }
  }

  lemma {:induction false} NameFormatTokens()
    ensures Scan(NameFormat) == ["TITLE", "TITLE_ID", "VER"]
  {
    NameFormatLayout();
    var z := Placeholder("VER") + "]";
    assert Scan(z) == ["VER"] by {
      ScanPlaceholder("VER", "]");
      ScanWithoutPercent("]");
    }
    var y := Placeholder("TITLE_ID") + (") [v" + z);
    assert Scan(y) == ["TITLE_ID", "VER"] by {
      ScanText(") [v", z);
      ScanPlaceholder("TITLE_ID", ") [v" + z);
    }
    ScanText(" (", y);
    ScanPlaceholder("TITLE", " (" + y);
  }

  lemma KeyTitle()
    ensures Upper("TITLE") == "TITLE" && IsTitleClass("TITLE")
  {
    UpperOfUpper("TITLE");
    assert IsPrefix("TITLE", "TITLE");
  }

  lemma KeyTitleId()
    ensures Upper("TITLE_ID") == "TITLE_ID" && !IsTitleClass("TITLE_ID")
  {
    UpperOfUpper("TITLE_ID");
  }

  lemma KeyVer()
    ensures Upper("VER") == "VER" && !IsTitleClass("VER")
  {
    UpperOfUpper("VER");
    assert !IsPrefix("TITLE", "VER");
  }

  /** Names that can stand in the layout's three placeholders without disturbing one another. */
  predicate LayoutNames(n1: string, n2: string, n3: string)
  {
    && '%' !in n1 && '%' !in n2 && '%' !in n3
    && n1 != [] && n2 != [] && n3 != []
    && n1[0] !in {' ', ')', ']'} && n2[0] !in {' ', ')', ']'} && n3[0] !in {' ', ')', ']'}
    && n1 != n2 && n1 != n3 && n2 != n3
  }

  /** One substitution in the layout: the placeholder `%n%` becomes a slot and `v` is collected. */
  lemma {:induction false} LayoutStep(s1: bool, m1: string, s2: bool, m2: string, s3: bool, m3: string,
                                      n: string, values: seq<string>, fields: map<string, string>, v: string)
    requires '%' !in m1 && '%' !in m2 && '%' !in m3 && '%' !in n && n != []
    requires n[0] !in {' ', ')', ']'}
    requires Upper(n) == n && n in fields
    requires v == if IsTitleClass(n) then Sanitize(fields[n]) else fields[n]
    ensures SubstituteOne(Acc(Layout(Lead(s1, m1), Lead(s2, m2), Lead(s3, m3)), values), n, fields)
         == Ok(Acc(Layout(Lead(s1 || m1 == n, m1), Lead(s2 || m2 == n, m2), Lead(s3 || m3 == n, m3)), values + [v]))
  {
    ReplaceInLayout(s1, m1, s2, m2, s3, m3, n);
  }

  lemma {:induction false} SubstituteCons(acc: Acc, token: string, rest: seq<string>, fields: map<string, string>, next: Acc)
    requires SubstituteOne(acc, token, fields) == Ok(next)
    ensures Substitute(acc, [token] + rest, fields) == Substitute(next, rest, fields)
  {
    assert ([token] + rest)[0] == token && ([token] + rest)[1..] == rest;
  }

  /**
   * A layout whose first name is title-class and whose other two are plain
   * keys goes through three substitutions.
   */
  lemma {:induction false} LayoutSubstitute(n1: string, n2: string, n3: string, fields: map<string, string>)
    requires LayoutNames(n1, n2, n3)
    requires Upper(n1) == n1 && Upper(n2) == n2 && Upper(n3) == n3
    requires IsTitleClass(n1) && !IsTitleClass(n2) && !IsTitleClass(n3)
    requires n1 in fields && n2 in fields && n3 in fields
    ensures Substitute(Acc(Layout(Placeholder(n1), Placeholder(n2), Placeholder(n3)), []), [n1, n2, n3], fields)
         == Ok(Acc(Layout("{}", "{}", "{}"), [Sanitize(fields[n1]), fields[n2], fields[n3]]))
  {
    var v1, v2, v3 := Sanitize(fields[n1]), fields[n2], fields[n3];
    var a0 := Acc(Layout(Lead(false, n1), Lead(false, n2), Lead(false, n3)), []);
    var a1 := Acc(Layout(Lead(true, n1), Lead(false, n2), Lead(false, n3)), [v1]);
    var a2 := Acc(Layout(Lead(true, n1), Lead(true, n2), Lead(false, n3)), [v1, v2]);
    var a3 := Acc(Layout(Lead(true, n1), Lead(true, n2), Lead(true, n3)), [v1, v2, v3]);
    assert SubstituteOne(a0, n1, fields) == Ok(a1) by {
      LayoutStep(false, n1, false, n2, false, n3, n1, [], fields, v1);
      assert [] + [v1] == [v1];
    }
    assert SubstituteOne(a1, n2, fields) == Ok(a2) by {
      LayoutStep(true, n1, false, n2, false, n3, n2, [v1], fields, v2);
      assert [v1] + [v2] == [v1, v2];
    }
    assert SubstituteOne(a2, n3, fields) == Ok(a3) by {
      LayoutStep(true, n1, true, n2, false, n3, n3, [v1, v2], fields, v3);
      assert [v1, v2] + [v3] == [v1, v2, v3];
    }
    SubstituteThree(a0, n1, n2, n3, fields, a1, a2, a3);
  }

  /** Three tokens, each substituted successfully, in turn. */
  lemma {:induction false} SubstituteThree(a0: Acc, n1: string, n2: string, n3: string, fields: map<string, string>,
                                           a1: Acc, a2: Acc, a3: Acc)
    requires SubstituteOne(a0, n1, fields) == Ok(a1)
    requires SubstituteOne(a1, n2, fields) == Ok(a2)
    requires SubstituteOne(a2, n3, fields) == Ok(a3)
    ensures Substitute(a0, [n1, n2, n3], fields) == Ok(a3)
  {
    SubstituteCons(a0, n1, [n2, n3], fields, a1);
    SubstituteCons(a1, n2, [n3], fields, a2);
    SubstituteCons(a2, n3, [], fields, a3);
    assert [n1] + [n2, n3] == [n1, n2, n3] && [n2] + [n3] == [n2, n3] && [n3] + [] == [n3];
    assert Substitute(a3, [], fields) == Ok(a3);
  }

  lemma {:induction false} FillText(t: string, tail: string, values: seq<string>, r: string)
    requires NoBraces(t) && Fill(tail, values) == Ok(r)
    ensures Fill(t + tail, values) == Ok(t + r)
    decreases |t|
  {
    if t == [] {
      assert t + tail == tail && t + r == r;
    } else {
      var s := t + tail;
      assert s[0] == t[0] && s[1..] == t[1..] + tail;
      assert t[0] !in {'{', '}'};
      FillText(t[1..], tail, values, r);
      assert [t[0]] + (t[1..] + r) == t + r;
    }
  }

  lemma {:induction false} FillSlot(tail: string, v: string, values: seq<string>, r: string)
    requires Fill(tail, values) == Ok(r)
    ensures Fill("{}" + tail, [v] + values) == Ok(v + r)
  {
    var s := "{}" + tail;
    assert s[0] == '{' && s[1] == '}' && s[2..] == tail;
    assert ([v] + values)[0] == v && ([v] + values)[1..] == values;
  }

  /** Three slots in the layout take three values in order. */
  lemma {:induction false} FillLayout(a: string, b: string, c: string)
    ensures Fill(Layout("{}", "{}", "{}"), [a, b, c]) == Ok(Layout(a, b, c))
  {
    assert Fill([], []) == Ok([]);
    FillText("]", [], [], []);
    assert "]" + [] == "]";
    FillSlot("]", c, [], "]");
    assert [c] + [] == [c];
    FillText(") [v", "{}" + "]", [c], c + "]");
    FillSlot(") [v" + ("{}" + "]"), b, [c], ") [v" + (c + "]"));
    FillText(" (", "{}" + (") [v" + ("{}" + "]")), [b, c], b + (") [v" + (c + "]")));
    FillSlot(" (" + ("{}" + (") [v" + ("{}" + "]"))), a, [b, c], " (" + (b + (") [v" + (c + "]"))));
    assert [b] + [c] == [b, c] && [a] + [b, c] == [a, b, c];
  }

  lemma NameFormatNames()
    ensures LayoutNames("TITLE", "TITLE_ID", "VER")
  {
  }

  lemma {:induction false} NameFormatSubstitute(fields: map<string, string>)
    requires "TITLE" in fields && "TITLE_ID" in fields && "VER" in fields
    ensures Substitute(Acc(NameFormat, []), Scan(NameFormat), fields)
         == Ok(Acc(Layout("{}", "{}", "{}"), [Sanitize(fields["TITLE"]), fields["TITLE_ID"], fields["VER"]]))
  {
    NameFormatLayout();
    NameFormatTokens();
    KeyTitle();
    KeyTitleId();
    KeyVer();
    NameFormatNames();
    LayoutSubstitute("TITLE", "TITLE_ID", "VER", fields);
  }

  lemma {:induction false} LayoutFlat(a: string, b: string, c: string)
    ensures Layout(a, b, c) == a + " (" + b + ") [v" + c + "]"
  {
  }

  /**
   * The readable template yields `TITLE (TITLE_ID) [vVER]`: the title is
   * sanitized, TITLE_ID and VER are used as they are.
   */
  lemma {:induction false} ReadableFormat(fields: map<string, string>)
    requires "TITLE" in fields && "TITLE_ID" in fields && "VER" in fields
    ensures DictFormat(NameFormat, fields)
         == Ok(Sanitize(fields["TITLE"]) + " (" + fields["TITLE_ID"] + ") [v" + fields["VER"] + "]")
  {
    NameFormatSubstitute(fields);
    var a, b, c := Sanitize(fields["TITLE"]), fields["TITLE_ID"], fields["VER"];
    FillLayout(a, b, c);
    LayoutFlat(a, b, c);
  }
}
