/**
 * The top level of pkg_rename.py: one `renamePkg` call for a single file, or
 * in directory mode a walk over the levels `os.walk` yields, calling
 * `renamePkg` on every name ending in `.pkg` (compared in lower case) and
 * stopping after the first level unless `-r` was given.
 *
 * The directory tree is given as the sequence of levels the walk yields,
 * each a directory and the file names in it. A run is stated for any step
 * function; the script's step is `Renaming`, one `renamePkg` call.
 */
module Batch {
  import opened Text
  import opened Formatter
  import opened Rename

  /** One `(root, directories, files)` of the walk, without the sub-directory names. */
  datatype Level = Level(dir: string, names: seq<string>)

  /** `name.lower().endswith('.pkg')`. */
  predicate IsPkgName(name: string)
  {
    EndsWith(Lower(name), ".pkg")
  }

  /** `p` is a `.pkg` file listed at `level`. */
  predicate Listed(level: Level, p: Path)
  {
    p.dir == level.dir && p.name in level.names && IsPkgName(p.name)
  }

  /** The files of one level handed to `renamePkg`, in the order listed. */
  function Matching(dir: string, names: seq<string>): seq<Path>
    decreases |names|
  {
    if names == [] then []
    else
      var last := names[|names| - 1];
      Matching(dir, names[..|names| - 1]) + (if IsPkgName(last) then [Path(dir, last)] else [])
  }

  /** The files of every level, level after level. */
  function AllCandidates(levels: seq<Level>): seq<Path>
    decreases |levels|
  {
    if levels == [] then []
    else
      var last := levels[|levels| - 1];
      AllCandidates(levels[..|levels| - 1]) + Matching(last.dir, last.names)
  }

  /** The files directory mode processes: the first level only, or every level with `-r`. */
  function Candidates(levels: seq<Level>, recursive: bool): seq<Path>
  {
    if recursive then AllCandidates(levels)
    else if levels == [] then []
    else Matching(levels[0].dir, levels[0].names)
  }

  /** What the script processes: its one target, or the candidates of the walk in directory mode. */
  function Targets(config: Config, target: Path, levels: seq<Level>): seq<Path>
  {
    if config.dirMode then Candidates(levels, config.recursive) else [target]
  }

  /** The outcomes and printed lines of a run, with the filesystem at its end. */
  datatype Trace = Trace(outcomes: seq<Outcome>, lines: seq<string>, files: set<Path>)

  /** One `renamePkg` call: `meta(p)` is what the parser yields for `p`. */
  function Renaming(config: Config, meta: Path -> PkgInfo): (Path, set<Path>) -> Step
  {
    (p: Path, fs: set<Path>) => Process(config, p, meta(p), fs)
  }

  /** `step` on each path in turn, every call seeing the filesystem the earlier ones left. */
  function RunSteps(step: (Path, set<Path>) -> Step, paths: seq<Path>, files: set<Path>): (r: Trace)
    ensures |r.outcomes| == |paths|
    decreases |paths|
  {
    if paths == [] then Trace([], [], files)
    else
      var before := RunSteps(step, paths[..|paths| - 1], files);
      var st := step(paths[|paths| - 1], before.files);
      Trace(before.outcomes + [st.outcome], before.lines + st.lines, st.files)
  }

  // ---------------------------------------------------------------------
  // Which files are processed
  // ---------------------------------------------------------------------

  lemma {:induction false} MatchingSnoc(dir: string, names: seq<string>, name: string)
    ensures Matching(dir, names + [name]) == Matching(dir, names) + (if IsPkgName(name) then [Path(dir, name)] else [])
  {
    assert (names + [name])[..|names|] == names;
  }

  lemma {:induction false} AllCandidatesSnoc(levels: seq<Level>, level: Level)
    ensures AllCandidates(levels + [level]) == AllCandidates(levels) + Matching(level.dir, level.names)
  {
    assert (levels + [level])[..|levels|] == levels;
  }

  /** A level hands on exactly its `.pkg` files. */
  lemma {:induction false} MatchingMeaning(level: Level, p: Path)
    ensures p in Matching(level.dir, level.names) <==> Listed(level, p)
    decreases |level.names|
  {
    var names := level.names;
    if names != [] {
      var n := |names| - 1;
      var front := names[..n];
      MatchingMeaning(Level(level.dir, front), p);
      assert names == front + [names[n]];
      assert Matching(level.dir, names)
          == Matching(level.dir, front) + (if IsPkgName(names[n]) then [Path(level.dir, names[n])] else []);
      assert p.name in names <==> p.name in front || p.name == names[n];
    }
  }

  lemma {:induction false} AllCandidatesMeaning(levels: seq<Level>, p: Path)
    ensures p in AllCandidates(levels) <==> exists i :: 0 <= i < |levels| && Listed(levels[i], p)
    decreases |levels|
  {
    if levels != [] {
      var n := |levels| - 1;
      var front := levels[..n];
      AllCandidatesMeaning(front, p);
      assert AllCandidates(levels) == AllCandidates(front) + Matching(levels[n].dir, levels[n].names);
      if p in AllCandidates(levels) {
        if p in AllCandidates(front) {
          var i :| 0 <= i < n && Listed(front[i], p);
          assert front[i] == levels[i];
        } else {
          MatchingMeaning(levels[n], p);
        }
      }
      if exists i :: 0 <= i < |levels| && Listed(levels[i], p) {
        var i :| 0 <= i < |levels| && Listed(levels[i], p);
        if i < n {
          assert Listed(front[i], p);
        } else {
          MatchingMeaning(levels[n], p);
        }
      }
    }
  }

  /**
   * Directory mode processes a file exactly when its name ends in `.pkg` in
   * any case and it is listed at the first level, or at any level with `-r`.
   */
  lemma {:induction false} CandidatesMeaning(levels: seq<Level>, recursive: bool, p: Path)
    ensures p in Candidates(levels, recursive) <==>
      exists i :: 0 <= i < |levels| && (recursive || i == 0) && Listed(levels[i], p)
  {
    AllCandidatesMeaning(levels, p);
    if levels != [] {
      MatchingMeaning(levels[0], p);
    }
  }

  // ---------------------------------------------------------------------
  // Runs
  // ---------------------------------------------------------------------

  /** The last step of a run. */
  lemma {:induction false} RunSnoc(step: (Path, set<Path>) -> Step, paths: seq<Path>, p: Path, files: set<Path>)
    ensures var before := RunSteps(step, paths, files);
      var st := step(p, before.files);
      RunSteps(step, paths + [p], files) == Trace(before.outcomes + [st.outcome], before.lines + st.lines, st.files)
  {
    assert (paths + [p])[..|paths|] == paths;
  }

  /** A run over a prefix of the paths is the prefix of the run. */
  lemma {:induction false} RunPrefix(step: (Path, set<Path>) -> Step, paths: seq<Path>, files: set<Path>, k: nat)
    requires k <= |paths|
    ensures RunSteps(step, paths, files).outcomes[..k] == RunSteps(step, paths[..k], files).outcomes
    decreases |paths|
  {
    if k == |paths| {
      assert paths[..k] == paths;
    } else {
      var n := |paths| - 1;
      var front := RunSteps(step, paths[..n], files).outcomes;
      assert RunSteps(step, paths, files).outcomes[..k] == front[..k];
      RunPrefix(step, paths[..n], files, k);
      assert paths[..n][..k] == paths[..k];
    }
  }

  /**
   * No call stops the others: the k-th outcome is that of the step on the
   * k-th path, on the filesystem the first k calls left, and its lines
   * follow theirs.
   */
  lemma {:induction false} EveryPathProcessed(step: (Path, set<Path>) -> Step, paths: seq<Path>, files: set<Path>, k: nat)
    requires k < |paths|
    ensures var before := RunSteps(step, paths[..k], files);
      var st := step(paths[k], before.files);
      RunSteps(step, paths, files).outcomes[k] == st.outcome
      && RunSteps(step, paths[..k + 1], files).lines == before.lines + st.lines
  {
    RunPrefix(step, paths, files, k + 1);
    RunSnoc(step, paths[..k], paths[k], files);
    assert paths[..k] + [paths[k]] == paths[..k + 1];
    assert RunSteps(step, paths, files).outcomes[k] == RunSteps(step, paths, files).outcomes[..k + 1][k];
  }

  /** One `renamePkg` call as a step. */
  lemma {:induction false} RenamingStep(config: Config, meta: Path -> PkgInfo, p: Path, fs: set<Path>)
    ensures Renaming(config, meta)(p, fs) == Process(config, p, meta(p), fs)
  {
  }

  /** In a run of the script a failed file leaves the filesystem as the files before it left it. */
  lemma {:induction false} FailureChangesNothing(config: Config, meta: Path -> PkgInfo, paths: seq<Path>, files: set<Path>, k: nat)
    requires k < |paths| && RunSteps(Renaming(config, meta), paths, files).outcomes[k].Failed?
    ensures RunSteps(Renaming(config, meta), paths[..k + 1], files).files
         == RunSteps(Renaming(config, meta), paths[..k], files).files
  {
    var step := Renaming(config, meta);
    EveryPathProcessed(step, paths, files, k);
    var before := RunSteps(step, paths[..k], files);
    RenamingStep(config, meta, paths[k], before.files);
    FailuresReported(config, paths[k], meta(paths[k]), before.files);
    RunSnoc(step, paths[..k], paths[k], files);
    assert paths[..k] + [paths[k]] == paths[..k + 1];
  }

  /** Renaming moves files but never creates or loses one. */
  lemma {:induction false} RunKeepsCount(config: Config, meta: Path -> PkgInfo, paths: seq<Path>, files: set<Path>)
    ensures |RunSteps(Renaming(config, meta), paths, files).files| == |files|
    decreases |paths|
  {
    if paths != [] {
      var n := |paths| - 1;
      RunKeepsCount(config, meta, paths[..n], files);
      var before := RunSteps(Renaming(config, meta), paths[..n], files);
      RenamingStep(config, meta, paths[n], before.files);
      OnlyRenameChangesFiles(config, paths[n], meta(paths[n]), before.files);
    }
  }

  /** A test run of the whole walk leaves the filesystem as it was and renames nothing. */
  lemma {:induction false} TestRunKeepsFiles(config: Config, meta: Path -> PkgInfo, paths: seq<Path>, files: set<Path>)
    requires config.testRun
    ensures RunSteps(Renaming(config, meta), paths, files).files == files
    ensures forall k :: 0 <= k < |paths| ==> !RunSteps(Renaming(config, meta), paths, files).outcomes[k].Renamed?
    decreases |paths|
  {
    if paths != [] {
      var n := |paths| - 1;
      TestRunKeepsFiles(config, meta, paths[..n], files);
      RenamingStep(config, meta, paths[n], files);
      TestRunChangesNothing(config, paths[n], meta(paths[n]), files);
    }
  }

  /** A single-file target is processed whatever its name; the `.pkg` filter belongs to directory mode. */
  lemma {:induction false} SingleFileProcessed(config: Config, meta: Path -> PkgInfo, target: Path, levels: seq<Level>, files: set<Path>)
    requires !config.dirMode
    ensures RunSteps(Renaming(config, meta), Targets(config, target, levels), files)
         == var st := Process(config, target, meta(target), files); Trace([st.outcome], st.lines, st.files)
  {
    assert [target][..0] == [];
    RenamingStep(config, meta, target, files);
  }

  // ---------------------------------------------------------------------
  // The loop of the script
  // ---------------------------------------------------------------------

  /** Running `step` over `done` from `files0` and `log0` has left `files` and `log`, collecting `outcomes`. */
  ghost predicate Traced(step: (Path, set<Path>) -> Step, files: set<Path>, log: seq<string>, done: seq<Path>,
                         outcomes: seq<Outcome>, files0: set<Path>, log0: seq<string>)
  {
    var run := RunSteps(step, done, files0);
    outcomes == run.outcomes && files == run.files && log == log0 + run.lines
  }

  /** A trace extended by one more step. */
  lemma {:induction false} TracedStep(step: (Path, set<Path>) -> Step, files: set<Path>, log: seq<string>, done: seq<Path>,
                                      outcomes: seq<Outcome>, p: Path, files0: set<Path>, log0: seq<string>)
    requires Traced(step, files, log, done, outcomes, files0, log0)
    ensures var st := step(p, files);
      Traced(step, st.files, log + st.lines, done + [p], outcomes + [st.outcome], files0, log0)
  {
    var before := RunSteps(step, done, files0);
    var st := step(p, files);
    RunSnoc(step, done, p, files0);
    assert log0 + (before.lines + st.lines) == (log0 + before.lines) + st.lines;
  }

  /** Line 122: `renamePkg` on one path, extending the trace by its step. */
  method Visit(r: Renamer, p: Path, meta: Path -> PkgInfo, outcomes0: seq<Outcome>,
               ghost done: seq<Path>, ghost files0: set<Path>, ghost log0: seq<string>)
    returns (outcomes: seq<Outcome>)
    requires NoBraces(r.config.customFormat)
    requires Traced(Renaming(r.config, meta), r.files, r.log, done, outcomes0, files0, log0)
    modifies r
    ensures Traced(Renaming(r.config, meta), r.files, r.log, done + [p], outcomes, files0, log0)
  {
    TracedStep(Renaming(r.config, meta), r.files, r.log, done, outcomes0, p, files0, log0);
    RenamingStep(r.config, meta, p, r.files);
    var outcome := r.RenamePkg(p, meta(p));
    outcomes := outcomes0 + [outcome];
  }

  /** Lines 121-122: one listed name, handed to `renamePkg` when it ends in `.pkg`. */
  method VisitName(r: Renamer, dir: string, names: seq<string>, name: string, meta: Path -> PkgInfo,
                   outcomes0: seq<Outcome>, ghost done0: seq<Path>, ghost files0: set<Path>, ghost log0: seq<string>)
    returns (outcomes: seq<Outcome>, ghost done: seq<Path>)
    requires NoBraces(r.config.customFormat)
    requires Traced(Renaming(r.config, meta), r.files, r.log, done0 + Matching(dir, names), outcomes0, files0, log0)
    modifies r
    ensures done == done0 + Matching(dir, names + [name])
    ensures Traced(Renaming(r.config, meta), r.files, r.log, done, outcomes, files0, log0)
  {
    MatchingSnoc(dir, names, name);
    outcomes, done := outcomes0, done0 + Matching(dir, names);
    if IsPkgName(name) {
      var p := Path(dir, name);
      outcomes := Visit(r, p, meta, outcomes, done, files0, log0);
      done := done + [p];
    }
  }

  /** Lines 120-122: every `.pkg` name of one level, in the order listed. */
  method WalkLevel(r: Renamer, level: Level, meta: Path -> PkgInfo, outcomes0: seq<Outcome>,
                   ghost done0: seq<Path>, ghost files0: set<Path>, ghost log0: seq<string>)
    returns (outcomes: seq<Outcome>, ghost done: seq<Path>)
    requires NoBraces(r.config.customFormat)
    requires Traced(Renaming(r.config, meta), r.files, r.log, done0, outcomes0, files0, log0)
    modifies r
    ensures done == done0 + Matching(level.dir, level.names)
    ensures Traced(Renaming(r.config, meta), r.files, r.log, done, outcomes, files0, log0)
  {
    outcomes, done := outcomes0, done0;
    assert done0 + Matching(level.dir, []) == done0;
    var j := 0;
    while j < |level.names|
      invariant 0 <= j <= |level.names|
      invariant done == done0 + Matching(level.dir, level.names[..j])
      invariant Traced(Renaming(r.config, meta), r.files, r.log, done, outcomes, files0, log0)
    {
      assert level.names[..j + 1] == level.names[..j] + [level.names[j]];
      outcomes, done := VisitName(r, level.dir, level.names[..j], level.names[j], meta, outcomes, done0, files0, log0);
      j := j + 1;
    }
    assert level.names[..j] == level.names;
  }

  /** Lines 119-124: each level in turn, and `break` after the first unless recursive. */
  method Walk(r: Renamer, levels: seq<Level>, meta: Path -> PkgInfo) returns (outcomes: seq<Outcome>)
    requires NoBraces(r.config.customFormat)
    modifies r
    ensures var run := RunSteps(Renaming(r.config, meta), Candidates(levels, r.config.recursive), old(r.files));
      outcomes == run.outcomes && r.files == run.files && r.log == old(r.log) + run.lines
  {
    ghost var done: seq<Path> := [];
    outcomes := [];
    var i := 0;
    while i < |levels|
      invariant 0 <= i <= |levels|
      invariant done == AllCandidates(levels[..i])
      invariant r.config.recursive || i == 0
      invariant Traced(Renaming(r.config, meta), r.files, r.log, done, outcomes, old(r.files), old(r.log))
    {
      var level := levels[i];
      AllCandidatesSnoc(levels[..i], level);
      assert levels[..i + 1] == levels[..i] + [level];
      outcomes, done := WalkLevel(r, level, meta, outcomes, done, old(r.files), old(r.log));
      if !r.config.recursive {
        assert done == Candidates(levels, false);
        return;
      }
      i := i + 1;
    }
    assert levels[..i] == levels;
  }

  /** Lines 118-126: directory mode walks, otherwise the one target is renamed. */
  method Run(r: Renamer, target: Path, levels: seq<Level>, meta: Path -> PkgInfo) returns (outcomes: seq<Outcome>)
    requires NoBraces(r.config.customFormat)
    modifies r
    ensures var run := RunSteps(Renaming(r.config, meta), Targets(r.config, target, levels), old(r.files));
      outcomes == run.outcomes && r.files == run.files && r.log == old(r.log) + run.lines
  {
    if r.config.dirMode {
      outcomes := Walk(r, levels, meta);
    } else {
      SingleFileProcessed(r.config, meta, target, levels, r.files);
      var outcome := r.RenamePkg(target, meta(target));
      outcomes := [outcome];
    }
  }
}
