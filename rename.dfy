/**
 * `renamePkg` of pkg_rename.py: choose the new file name for one package
 * (custom template, readable template or the default Sony name), print the
 * `Renaming` line, and then preview, skip, refuse or rename. Every error is
 * caught and printed; none escapes.
 *
 * The filesystem is a set of paths, the console a sequence of lines, and the
 * parsed metadata of the package an input.
 */
module Rename {
  import opened Wrappers
  import opened Text
  import opened Sanitizer
  import opened Formatter

  /** The parsed command-line options. An empty custom template counts as not given, as in Python. */
  datatype Config = Config(
    testRun: bool,        // -t
    customFormat: string, // -c, "" when absent
    nameFormat: bool,     // -n
    dirMode: bool,        // -d
    recursive: bool)      // -r

  /** A file, as the directory holding it and its base name. */
  datatype Path = Path(dir: string, name: string)

  /** The path text as the script builds it, joined with a backslash. */
  function PathText(p: Path): string
  {
    p.dir + "\\" + p.name
  }

  /** What `getPkgInfo` gives back: no metadata, a map of values, or one of the two kinds of exception. */
  datatype PkgInfo =
    | NoInfo                    // `None`: nothing is done
    | Info(fields: map<string, string>)
    | ParseError(msg: string)   // raises `MyError`
    | ParserCrash(exc: Exc)     // raises anything else

  /** The two handlers at lines 112-116. */
  datatype Error =
    | MyError(msg: string)
    | Unexpected(exc: Exc)

  datatype Outcome =
    | Ignored                   // metadata falsy: nothing printed, nothing renamed
    | Previewed(newName: string)
    | Skipped
    | Renamed(dst: Path)
    | Failed(err: Error)

  /** The outcome, the printed lines and the filesystem afterwards. */
  datatype Step = Step(outcome: Outcome, lines: seq<string>, files: set<Path>)

  const ParamSfoFailed := "parsing of param.sfo failed"

  /** The class name `sys.exc_info()[0]` shows for an exception. */
  function ExcName(e: Exc): string
  {
    match e
    case KeyError(_) => "KeyError"
    case IndexError => "IndexError"
    case ValueError => "ValueError"
    case FileNotFound => "FileNotFoundError"
    case OtherException(name) => name
  }

  /** The line each handler prints (the traceback after the unexpected one is not modelled). */
  function ErrorLine(err: Error, src: Path): string
  {
    match err
    case MyError(msg) => "ERROR: " + msg
    case Unexpected(e) => "ERROR: unexpected error:  <class '" + ExcName(e) + "'> (" + PathText(src) + ")"
  }

  function RenamingLine(oldName: string, newName: string): string
  {
    "Renaming '" + oldName + "' to '" + newName + "'"
  }

  const SkippedLine := "  Skipped, same filename already set."

  function ConflictError(dst: Path): Error
  {
    MyError("file '" + PathText(dst) + "' already exists!")
  }

  /**
   * The default Sony name of line 96. The guard at line 95 reads the three
   * keys with `[...]` from left to right and stops at the first empty value,
   * so an absent key is a KeyError and an empty value the param.sfo error.
   */
  function DefaultName(fields: map<string, string>): Result<string, Error>
  {
    if "CONTENT_ID" !in fields then Err(Unexpected(KeyError("CONTENT_ID")))
    else if fields["CONTENT_ID"] == "" then Err(MyError(ParamSfoFailed))
    else if "APP_VER" !in fields then Err(Unexpected(KeyError("APP_VER")))
    else if fields["APP_VER"] == "" then Err(MyError(ParamSfoFailed))
    else if "VERSION" !in fields then Err(Unexpected(KeyError("VERSION")))
    else if fields["VERSION"] == "" then Err(MyError(ParamSfoFailed))
    else Ok(fields["CONTENT_ID"] + "-A" + ReplaceAll(fields["APP_VER"], ".", "")
            + "-V" + ReplaceAll(fields["VERSION"], ".", ""))
  }

  /**
   * The guard at line 95 meets an empty value before it reads any absent key:
   * CONTENT_ID, APP_VER and VERSION are read in order, and the first one that
   * is not a non-empty value is present and empty.
   */
  predicate EmptyBeforeAbsent(fields: map<string, string>)
  {
    "CONTENT_ID" in fields
    && (fields["CONTENT_ID"] == ""
        || ("APP_VER" in fields
            && (fields["APP_VER"] == "" || ("VERSION" in fields && fields["VERSION"] == ""))))
  }

  /** A formatter exception reaches the generic handler. */
  function Raised(r: Result<string, Exc>): Result<string, Error>
  {
    match r
    case Ok(s) => Ok(s)
    case Err(e) => Err(Unexpected(e))
  }

  /** The name chosen at lines 86-98: the custom template, else `-n`, else the default. */
  function BaseName(config: Config, fields: map<string, string>): Result<string, Error>
  {
    if config.customFormat != "" then Raised(DictFormat(config.customFormat, fields))
    else if config.nameFormat then Raised(DictFormat(NameFormat, fields))
    else DefaultName(fields)
  }

  /** The file name: the base name with `.pkg` appended (line 99). */
  function NewName(config: Config, fields: map<string, string>): Result<string, Error>
  {
    match BaseName(config, fields)
    case Ok(s) => Ok(s + ".pkg")
    case Err(e) => Err(e)
  }

  /** Lines 101-110 once the new name is known. */
  function Decide(config: Config, src: Path, name: string, files: set<Path>): Step
  {
    var head := [RenamingLine(src.name, name)];
    if config.testRun then Step(Previewed(name), head, files)
    else if src.name == name then Step(Skipped, head + [SkippedLine], files)
    else
      var dst := Path(src.dir, name);
      if dst in files then
        Step(Failed(ConflictError(dst)), head + [ErrorLine(ConflictError(dst), src)], files)
      else if src !in files then
        Step(Failed(Unexpected(FileNotFound)), head + [ErrorLine(Unexpected(FileNotFound), src)], files)
      else
        Step(Renamed(dst), head, files - {src} + {dst})
  }

  function Fail(err: Error, src: Path, files: set<Path>): Step
  {
    Step(Failed(err), [ErrorLine(err, src)], files)
  }

  /** One call of `renamePkg` on `src`, whose metadata is `info`. */
  function Process(config: Config, src: Path, info: PkgInfo, files: set<Path>): Step
  {
    match info
    case NoInfo => Step(Ignored, [], files)
    case ParseError(msg) => Fail(MyError(msg), src, files)
    case ParserCrash(e) => Fail(Unexpected(e), src, files)
    case Info(fields) =>
      if fields == map[] then Step(Ignored, [], files)
      else
        match NewName(config, fields)
        case Err(err) => Fail(err, src, files)
        case Ok(name) => Decide(config, src, name, files)
  }

  /** The script's state while it runs: the filesystem it renames in and what it has printed. */
  class Renamer {
    const config: Config
    var files: set<Path>
    var log: seq<string>

    constructor (config: Config, files: set<Path>)
      ensures this.config == config && this.files == files && log == []
    {
      this.config := config;
      this.files := files;
      log := [];
    }

    /** Lines 86-98: the template in force, run through the formatter loop, or the default name. */
    method ChooseBaseName(fields: map<string, string>) returns (r: Result<string, Error>)
      requires NoBraces(config.customFormat)
      ensures r == BaseName(config, fields)
    {
      if config.customFormat != "" {
        var f := DoDictFormat(config.customFormat, fields);
        r := Raised(f);
      } else if config.nameFormat {
        NameFormatNoBraces();
        var f := DoDictFormat(NameFormat, fields);
        r := Raised(f);
      } else {
        r := DefaultName(fields);
      }
    }

    /** `renamePkg(src)`, with `info` what `getPkgInfo(src)` returns. */
    method RenamePkg(src: Path, info: PkgInfo) returns (outcome: Outcome)
      requires NoBraces(config.customFormat)
      modifies this
      ensures var st := Process(config, src, info, old(files));
        outcome == st.outcome && files == st.files && log == old(log) + st.lines
    {
      if info.ParseError? || info.ParserCrash? {
        var err := if info.ParseError? then MyError(info.msg) else Unexpected(info.exc);
        log := log + [ErrorLine(err, src)];
        return Failed(err);
      }
      if info.NoInfo? || info.fields == map[] {
        return Ignored;
      }
      var formatOut := ChooseBaseName(info.fields);
      if formatOut.Err? {
        log := log + [ErrorLine(formatOut.error, src)];
        return Failed(formatOut.error);
      }
      var name := formatOut.value + ".pkg";
      assert Process(config, src, info, files) == Decide(config, src, name, files);
      outcome := RenameTo(src, name);
    }

    /** Lines 101-110: announce the new name, then preview, skip, refuse or move. */
    method RenameTo(src: Path, name: string) returns (outcome: Outcome)
      modifies this
      ensures var st := Decide(config, src, name, old(files));
        outcome == st.outcome && files == st.files && log == old(log) + st.lines
    {
      log := log + [RenamingLine(src.name, name)];
      if config.testRun {
        return Previewed(name);
      }
      if src.name == name {
        log := log + [SkippedLine];
        return Skipped;
      }
      var dst := Path(src.dir, name);
      if dst in files {
        var err := ConflictError(dst);
        log := log + [ErrorLine(err, src)];
        return Failed(err);
      }
      if src !in files {
        log := log + [ErrorLine(Unexpected(FileNotFound), src)];
        return Failed(Unexpected(FileNotFound));
      }
      files := files - {src} + {dst};
      outcome := Renamed(dst);
    }
  }

  // ---------------------------------------------------------------------
  // Properties of one call
  // ---------------------------------------------------------------------

  /** Moving one file to a free name beside it keeps the number of files. */
  lemma {:induction false} MoveKeepsCount(files: set<Path>, src: Path, dst: Path)
    requires src in files && dst !in files
    ensures |files - {src} + {dst}| == |files|
  {
    var rest := files - {src};
    assert files == rest + {src};
    assert |files| == |rest| + 1;
    assert dst !in rest;
  }

  /**
   * The filesystem changes exactly when the outcome is a rename; then the
   * source was present, the destination lies in the same directory and was
   * free, and nothing but those two paths differs.
   */
  lemma {:induction false} OnlyRenameChangesFiles(config: Config, src: Path, info: PkgInfo, files: set<Path>)
    ensures var st := Process(config, src, info, files);
      st.files != files <==> st.outcome.Renamed?
    ensures Process(config, src, info, files).outcome.Renamed? <==>
      !config.testRun && info.Info? && info.fields != map[] && NewName(config, info.fields).Ok?
      && NewName(config, info.fields).value != src.name
      && Path(src.dir, NewName(config, info.fields).value) !in files && src in files
    ensures var st := Process(config, src, info, files);
      st.outcome.Renamed? ==>
        var dst := st.outcome.dst;
        src in files && dst !in files && dst.dir == src.dir && dst.name != src.name
        && st.files == files - {src} + {dst} && |st.files| == |files|
  {
    match info
    case Info(fields) =>
      if fields != map[] {
        match NewName(config, fields)
        case Ok(name) =>
          DecideChangesFiles(config, src, name, files);
          assert Process(config, src, info, files) == Decide(config, src, name, files);
        case Err(err) =>
          assert Process(config, src, info, files) == Fail(err, src, files);
      }
    case NoInfo =>
    case ParseError(msg) =>
    case ParserCrash(e) =>
  }

  /**
   * OnlyRenameChangesFiles once the new name is known: outside a test run, a
   * different name whose destination is free and a source that is there
   * always give a real rename, and nothing else does.
   */
  lemma {:induction false} DecideChangesFiles(config: Config, src: Path, name: string, files: set<Path>)
    ensures var st := Decide(config, src, name, files);
      st.files != files <==> st.outcome.Renamed?
    ensures Decide(config, src, name, files).outcome.Renamed? <==>
      !config.testRun && name != src.name && Path(src.dir, name) !in files && src in files
    ensures var st := Decide(config, src, name, files);
      st.outcome.Renamed? ==>
        var dst := st.outcome.dst;
        src in files && dst !in files && dst.dir == src.dir && dst.name != src.name
        && st.files == files - {src} + {dst} && |st.files| == |files|
  {
    var st := Decide(config, src, name, files);
    if st.outcome.Renamed? {
      var dst := st.outcome.dst;
      assert src !in st.files;
      MoveKeepsCount(files, src, dst);
    }
  }

  /**
   * A package whose metadata gives a new name outside a test run, with the
   * source present and the destination free, is moved to that name in its
   * own directory, and only its `Renaming` line is printed.
   */
  lemma {:induction false} RenamesWhenFree(config: Config, src: Path, fields: map<string, string>, files: set<Path>, name: string)
    requires !config.testRun && fields != map[] && NewName(config, fields) == Ok(name)
    requires name != src.name && Path(src.dir, name) !in files && src in files
    ensures var dst := Path(src.dir, name);
      Process(config, src, Info(fields), files) == Step(Renamed(dst), [RenamingLine(src.name, name)], files - {src} + {dst})
  {
    assert Process(config, src, Info(fields), files) == Decide(config, src, name, files);
  }

  /** With `-t` nothing is renamed or skipped: a computed name is only previewed after its `Renaming` line. */
  lemma {:induction false} TestRunChangesNothing(config: Config, src: Path, info: PkgInfo, files: set<Path>)
    requires config.testRun
    ensures var st := Process(config, src, info, files);
      st.files == files && (st.outcome.Ignored? || st.outcome.Previewed? || st.outcome.Failed?)
    ensures var st := Process(config, src, info, files);
      st.outcome.Previewed? ==>
        info.Info? && NewName(config, info.fields) == Ok(st.outcome.newName)
        && st.lines == [RenamingLine(src.name, st.outcome.newName)]
  {
  }

  /** A package whose new name is its current name is skipped and left alone. */
  lemma {:induction false} SameNameSkipped(config: Config, src: Path, fields: map<string, string>, files: set<Path>)
    requires !config.testRun && fields != map[] && NewName(config, fields) == Ok(src.name)
    ensures Process(config, src, Info(fields), files)
         == Step(Skipped, [RenamingLine(src.name, src.name), SkippedLine], files)
  {
  }

  /** An occupied destination is refused with a MyError naming it; the source stays where it is. */
  lemma {:induction false} ConflictKeepsSource(config: Config, src: Path, fields: map<string, string>, files: set<Path>, name: string)
    requires !config.testRun && fields != map[] && NewName(config, fields) == Ok(name)
    requires name != src.name && Path(src.dir, name) in files
    ensures var st := Process(config, src, Info(fields), files);
      var msg := "file '" + src.dir + "\\" + name + "' already exists!";
      st.outcome == Failed(MyError(msg)) && st.files == files
      && st.lines == [RenamingLine(src.name, name), "ERROR: " + msg]
  {
  }

  /**
   * The `Renaming` line is the first line printed whenever a new name was
   * computed, before the test-run, same-name and conflict checks; when no
   * name was computed at most the error line is printed and nothing moves.
   */
  lemma {:induction false} RenamingLineFirst(config: Config, src: Path, info: PkgInfo, files: set<Path>)
    ensures var st := Process(config, src, info, files);
      info.Info? && info.fields != map[] && NewName(config, info.fields).Ok? ==>
        |st.lines| >= 1 && st.lines[0] == RenamingLine(src.name, NewName(config, info.fields).value)
        && (st.outcome.Failed? ==> |st.lines| == 2)
    ensures var st := Process(config, src, info, files);
      !(info.Info? && info.fields != map[] && NewName(config, info.fields).Ok?) ==>
        st.files == files && |st.lines| <= 1 && (st.outcome.Ignored? || st.outcome.Failed?)
  {
  }

  /** Every failure is printed as the handler's line, last, and leaves the filesystem as it was. */
  lemma {:induction false} FailuresReported(config: Config, src: Path, info: PkgInfo, files: set<Path>)
    ensures var st := Process(config, src, info, files);
      st.outcome.Failed? ==>
        st.files == files && |st.lines| >= 1 && st.lines[|st.lines| - 1] == ErrorLine(st.outcome.err, src)
    ensures var st := Process(config, src, info, files);
      st.outcome.Ignored? <==> info.NoInfo? || (info.Info? && info.fields == map[])
    ensures var st := Process(config, src, info, files);
      st.outcome.Ignored? ==> st.lines == [] && st.files == files
  {
    match info
    case Info(fields) =>
      if fields != map[] {
        match NewName(config, fields)
        case Ok(name) =>
          DecideFailuresReported(config, src, name, files);
          assert Process(config, src, info, files) == Decide(config, src, name, files);
        case Err(err) =>
          assert Process(config, src, info, files) == Fail(err, src, files);
      }
    case NoInfo =>
    case ParseError(msg) =>
    case ParserCrash(e) =>
  }

  /**
   * The metadata parser's own errors inside the `try`: a MyError it raises is
   * printed as `ERROR: <message>`, any other exception as the unexpected-error
   * line naming its class and the path; neither changes the files.
   */
  lemma {:induction false} ParserErrorsReported(config: Config, src: Path, msg: string, e: Exc, files: set<Path>)
    ensures Process(config, src, ParseError(msg), files) == Step(Failed(MyError(msg)), ["ERROR: " + msg], files)
    ensures Process(config, src, ParserCrash(e), files)
         == Step(Failed(Unexpected(e)), ["ERROR: unexpected error:  <class '" + ExcName(e) + "'> (" + PathText(src) + ")"], files)
  {
  }

  /** FailuresReported once the new name is known: that renaming never ignores the file. */
  lemma {:induction false} DecideFailuresReported(config: Config, src: Path, name: string, files: set<Path>)
    ensures var st := Decide(config, src, name, files);
      st.outcome.Failed? ==>
        st.files == files && |st.lines| >= 1 && st.lines[|st.lines| - 1] == ErrorLine(st.outcome.err, src)
    ensures !Decide(config, src, name, files).outcome.Ignored?
  {
  }

  // ---------------------------------------------------------------------
  // The name
  // ---------------------------------------------------------------------

  /**
   * The default name exists exactly when CONTENT_ID, APP_VER and VERSION are
   * all present and non-empty; it is `CONTENT_ID-A<APP_VER>-V<VERSION>` with
   * the dots of both versions dropped. An absent key (met before any empty
   * value) is a KeyError for that key; the error is the param.sfo one exactly
   * when an empty value is met first (EmptyBeforeAbsent).
   */
  lemma {:induction false} DefaultNameMeaning(fields: map<string, string>)
    ensures DefaultName(fields).Ok? <==>
      "CONTENT_ID" in fields && "APP_VER" in fields && "VERSION" in fields
      && fields["CONTENT_ID"] != "" && fields["APP_VER"] != "" && fields["VERSION"] != ""
    ensures DefaultName(fields).Ok? ==>
      DefaultName(fields).value
      == fields["CONTENT_ID"] + "-A" + Without(fields["APP_VER"], '.') + "-V" + Without(fields["VERSION"], '.')
    ensures DefaultName(fields).Ok? ==> '.' !in DefaultName(fields).value[|fields["CONTENT_ID"]|..]
    ensures DefaultName(fields).Err? && DefaultName(fields).error.Unexpected? ==>
      DefaultName(fields).error.exc.KeyError? && DefaultName(fields).error.exc.key !in fields
    ensures "CONTENT_ID" !in fields ==> DefaultName(fields) == Err(Unexpected(KeyError("CONTENT_ID")))
    ensures "CONTENT_ID" in fields && fields["CONTENT_ID"] != "" && "APP_VER" !in fields ==>
      DefaultName(fields) == Err(Unexpected(KeyError("APP_VER")))
    ensures ("CONTENT_ID" in fields && fields["CONTENT_ID"] != "" && "APP_VER" in fields && fields["APP_VER"] != ""
             && "VERSION" !in fields) ==> DefaultName(fields) == Err(Unexpected(KeyError("VERSION")))
    ensures "CONTENT_ID" in fields && fields["CONTENT_ID"] == "" ==> DefaultName(fields) == Err(MyError(ParamSfoFailed))
    ensures "CONTENT_ID" in fields && fields["CONTENT_ID"] != "" && "APP_VER" in fields && fields["APP_VER"] == "" ==>
      DefaultName(fields) == Err(MyError(ParamSfoFailed))
    ensures DefaultName(fields) == Err(MyError(ParamSfoFailed)) <==> EmptyBeforeAbsent(fields)
    ensures "CONTENT_ID" in fields && "APP_VER" in fields && "VERSION" in fields && DefaultName(fields).Err? ==>
      DefaultName(fields) == Err(MyError(ParamSfoFailed))
  {
    if DefaultName(fields).Ok? {
      DefaultNameValue(fields);
    }
  }

  /** The dot-free versions after the `-A` and `-V` markers hold no dot. */
  lemma {:induction false} DefaultTailNoDot(a: string, v: string)
    ensures '.' !in "-A" + Without(a, '.') + "-V" + Without(v, '.')
  {
    assert "-A" + Without(a, '.') + "-V" + Without(v, '.') == "-A" + (Without(a, '.') + ("-V" + Without(v, '.')));
  }

  lemma {:induction false} DefaultNameValue(fields: map<string, string>)
    requires DefaultName(fields).Ok?
    ensures DefaultName(fields).value
      == fields["CONTENT_ID"] + "-A" + Without(fields["APP_VER"], '.') + "-V" + Without(fields["VERSION"], '.')
    ensures '.' !in DefaultName(fields).value[|fields["CONTENT_ID"]|..]
  {
    var cid, a, v := fields["CONTENT_ID"], fields["APP_VER"], fields["VERSION"];
    ReplaceCharByNothing(a, '.');
    ReplaceCharByNothing(v, '.');
    var tail := "-A" + Without(a, '.') + "-V" + Without(v, '.');
    assert DefaultName(fields).value == cid + tail;
    assert (cid + tail)[|cid|..] == tail;
    DefaultTailNoDot(a, v);
  }

  /** In default mode an empty field reports the param.sfo error and renames nothing. */
  lemma {:induction false} EmptyFieldNoRename(config: Config, src: Path, fields: map<string, string>, files: set<Path>)
    requires config.customFormat == "" && !config.nameFormat
    requires EmptyBeforeAbsent(fields)
    ensures Process(config, src, Info(fields), files)
         == Step(Failed(MyError(ParamSfoFailed)), ["ERROR: " + ParamSfoFailed], files)
  {
    assert fields != map[] by {
      assert "CONTENT_ID" in fields;
    }
  }

  /** A custom template decides the name whatever `-n` says. */
  lemma {:induction false} CustomFormatWins(config: Config, fields: map<string, string>)
    requires config.customFormat != ""
    ensures NewName(config, fields) == NewName(config.(nameFormat := !config.nameFormat), fields)
    ensures NewName(config, fields).Ok? <==> DictFormat(config.customFormat, fields).Ok?
    ensures NewName(config, fields).Ok? ==> NewName(config, fields).value == DictFormat(config.customFormat, fields).value + ".pkg"
  {
  }

  /** In readable mode the name is the sanitized title, then the raw TITLE_ID and VER, then `.pkg`. */
  lemma {:induction false} ReadableName(config: Config, fields: map<string, string>)
    requires config.customFormat == "" && config.nameFormat
    requires "TITLE" in fields && "TITLE_ID" in fields && "VER" in fields
    ensures NewName(config, fields)
         == Ok(Sanitize(fields["TITLE"]) + " (" + fields["TITLE_ID"] + ") [v" + fields["VER"] + "]" + ".pkg")
  {
    ReadableFormat(fields);
  }

  /**
   * A title-class placeholder of the custom template whose key the metadata
   * lacks goes to the unexpected-error handler as a KeyError: one line, no
   * `Renaming` line, no rename.
   */
  lemma {:induction false} CustomMissingTitle(config: Config, src: Path, fields: map<string, string>, files: set<Path>, k: nat)
    requires config.customFormat != "" && fields != map[]
    requires k < |Scan(config.customFormat)| && MissingTitle(Scan(config.customFormat)[k], fields)
    ensures var st := Process(config, src, Info(fields), files);
      st.outcome.Failed? && st.outcome.err.Unexpected? && st.outcome.err.exc.KeyError?
      && st.files == files && st.lines == [ErrorLine(st.outcome.err, src)]
  {
    MissingTitleRaises(config.customFormat, fields, k);
  }

  /** With `-n` and no TITLE, the unexpected-error handler reports a KeyError for TITLE. */
  lemma {:induction false} ReadableMissingTitle(config: Config, src: Path, fields: map<string, string>, files: set<Path>)
    requires config.customFormat == "" && config.nameFormat && fields != map[] && "TITLE" !in fields
    ensures Process(config, src, Info(fields), files)
         == Fail(Unexpected(KeyError("TITLE")), src, files)
  {
    NameFormatTokens();
    KeyTitle();
    SubstituteFailsOnMissingTitle(Acc(NameFormat, []), Scan(NameFormat), fields);
  }

  // ---------------------------------------------------------------------
  // The two worked examples
  // ---------------------------------------------------------------------

  lemma {:induction false} DotsDropped()
    ensures ReplaceAll("1.00", ".", "") == "100"
  {
    ReplaceCharByNothing("1.00", '.');
    assert "1.00" == "1" + ("." + "00");
  }

  lemma {:induction false} DefaultLiteral()
    ensures "CUSA01234" + "-A" + "100" + "-V" + "100" + ".pkg" == "CUSA01234-A100-V100.pkg"
  {
  }

  /** Default mode: `CUSA01234-A100-V100.pkg`. */
  lemma {:induction false} DefaultExample(config: Config, f: map<string, string>)
    requires config.customFormat == "" && !config.nameFormat
    requires "CONTENT_ID" in f && "APP_VER" in f && "VERSION" in f
    requires f["CONTENT_ID"] == "CUSA01234" && f["APP_VER"] == "1.00" && f["VERSION"] == "1.00"
    ensures NewName(config, f) == Ok("CUSA01234-A100-V100.pkg")
  {
    DotsDropped();
    assert DefaultName(f) == Ok("CUSA01234" + "-A" + "100" + "-V" + "100");
    DefaultLiteral();
  }

  lemma {:induction false} ReadableLiteral()
    ensures "Great Game" + " (" + "CUSA01234" + ") [v" + "1.00" + "]" + ".pkg" == "Great Game (CUSA01234) [v1.00].pkg"
  {
  }

  lemma {:induction false} GreatGameClean()
    ensures Avoids("Great Game", Forbidden)
  {
  }

  /** A readable name whose title needs no sanitizing. */
  lemma {:induction false} ReadableCleanTitle(config: Config, f: map<string, string>, t: string, id: string, v: string)
    requires config.customFormat == "" && config.nameFormat
    requires "TITLE" in f && "TITLE_ID" in f && "VER" in f
    requires f["TITLE"] == t && f["TITLE_ID"] == id && f["VER"] == v && Avoids(t, Forbidden)
    ensures NewName(config, f) == Ok(t + " (" + id + ") [v" + v + "]" + ".pkg")
  {
    ReadableName(config, f);
    SanitizeKeepsClean(t);
  }

  /** Readable mode: `Great Game (CUSA01234) [v1.00].pkg`. */
  lemma {:induction false} ReadableExample(config: Config, f: map<string, string>)
    requires config.customFormat == "" && config.nameFormat
    requires "TITLE" in f && "TITLE_ID" in f && "VER" in f
    requires f["TITLE"] == "Great Game" && f["TITLE_ID"] == "CUSA01234" && f["VER"] == "1.00"
    ensures NewName(config, f) == Ok("Great Game (CUSA01234) [v1.00].pkg")
  {
    GreatGameClean();
    ReadableCleanTitle(config, f, "Great Game", "CUSA01234", "1.00");
    ReadableLiteral();
  }
}
