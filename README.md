# pkg_rename in Dafny

A model of `pkg_rename.py` from pkg_tools. The script renames PS4 `.pkg` files after the
metadata in their `param.sfo`. It has three name formats:

- a custom template (`-c`), in which `%NAME%` placeholders are replaced by metadata values;
- the readable template `%TITLE% (%TITLE_ID%) [v%VER%]` (`-n`);
- the default Sony name `CONTENT_ID-A<APP_VER>-V<VERSION>`, with the dots of both versions dropped.

It can preview the changes (`-t`) and can work on a whole directory (`-d`), optionally with its
subdirectories (`-r`).

The project has six modules:

- `Wrappers` (`wrappers.dfy`): `Option` and `Result`.
- `Text` (`text.dfy`): the parts of Python's `str` the script uses:
  - ASCII `upper`/`lower`;
  - `startswith`/`endswith`;
  - `replace`, which replaces every non-overlapping occurrence, left to right.
- `Sanitizer` (`sanitize.dfy`): the chain of nine `replace` calls that makes a title safe for a
  file name (lines 69-71). It also has an independent one-pass reading of the chain (`SanitizeRef`),
  proved equal to it.
- `Formatter` (`formatter.dfy`): `doDictFormat` in four steps:
  - the `re.findall('%(.*?)%', s)` scan (`Scan`);
  - the classification of each token, with the global replace of `%val%` by `{}` and the collected
    values (`SubstituteOne`, `Substitute`);
  - the positional `str.format` fill (`Fill`).

  `DoDictFormat` is the loop itself as a method, proved equal to the function `DictFormat`.
- `Rename` (`rename.dfy`): `renamePkg`.
  - `Process` is the specification of one call. It covers:
    - the mode precedence (`BaseName`);
    - the default name;
    - `.pkg` (`NewName`);
    - the `Renaming` line and the preview/skip/conflict/rename decision (`Decide`);
    - the two exception handlers.
  - The class `Renamer` holds the filesystem (a set of paths) and the printed lines. Its method
    `RenamePkg` follows the source statement by statement and is proved to perform `Process`.
- `Batch` (`batch.dfy`): the top level (lines 118-126).
  - `RunSteps` runs a step function over a sequence of paths, each call seeing the filesystem the
    earlier ones left. `Renaming` is the script's step, one `renamePkg` call.
  - `Candidates` is the set of files the directory walk hands to `renamePkg`.
  - The methods `Walk` and `Run` are the loops of the script, proved to perform
    `RunSteps(Renaming(...), Candidates(...), ...)`.

The inputs are given rather than computed:

- The parsed options are a `Config` value.
- What `pkg_parser.getPkgInfo` returns for a path is a `PkgInfo`: nothing, a map of strings, a
  `MyError` message, or another exception. The walk receives it as a function `meta`.
- The walk receives the levels `os.walk` yields as a sequence of `(dir, names)` pairs.

The default name reads CONTENT_ID, APP_VER and VERSION with `pkgInfo[...]`, left to right, and
stops at the first empty value. An absent key met before any empty value raises `KeyError` for
that key, which the unexpected-error handler reports. An empty value raises
`MyError('parsing of param.sfo failed')` (`Rename.DefaultName`, `Rename.DefaultNameMeaning`).

## Model

| member | source | states |
|---|---|---|
| Text.Upper | pkg_rename.py:66 | `val.upper()`: same length, every character upper-cased (ASCII) |
| Text.Lower | pkg_rename.py:121 | `file.lower()`: same length, every character lower-cased (ASCII) |
| Text.UpperOfUpper | pkg_rename.py:66 | a name without lower-case letters is its own `upper()` |
| Text.IsPrefix | pkg_rename.py:66 | `startswith` never holds for a prefix longer than the text |
| Text.PrefixMeaning | pkg_rename.py:66 | the recursive `startswith` agrees with comparing the first `\|p\|` characters |
| Text.PrefixOfConcat | pkg_rename.py:73 | whether a pattern starts `a + b` is decided inside `a` when `a` is long enough; otherwise its next character is `b`'s first |
| Text.Without | pkg_rename.py:96 | the reference removal of one character: the result lacks it and is no longer |
| Text.ReplaceCharByNothing | pkg_rename.py:96 | `replace('.', '')` is the same as dropping every dot |
| Text.ReplaceAbsent | pkg_rename.py:69-71 | `replace` of a pattern whose first character does not occur changes nothing |
| Text.ReplaceAvoids | pkg_rename.py:69-71 | `replace` brings in no character found in neither the text nor the replacement |
| Text.ReplaceCharRemoves | pkg_rename.py:69-71 | replacing one character by a text without it leaves none of it, and keeps out every character already absent |
| Text.ReplaceChar | pkg_rename.py:69-71 | on a one-character text, a one-character `replace` rewrites it exactly when the characters are equal |
| Text.ReplaceConcat | pkg_rename.py:69-71 | `replace` works piece by piece when no occurrence can straddle the seam |
| Text.ReplaceNotHere | pkg_rename.py:73 | where the pattern does not start, `replace` copies one character and goes on |
| Text.ReplaceSkip | pkg_rename.py:73 | text without the pattern's first character is copied by `replace` unchanged |
| Text.ReplaceHere | pkg_rename.py:73 | an occurrence at the front is replaced and the scan resumes after it |
| Text.ReplaceOnly | pkg_rename.py:73 | a single occurrence, whose first character appears nowhere else, is the only thing replaced |
| Text.AvoidsConcat | pkg_rename.py:69-71 | two texts without any of a set of characters join into one without them |
| Sanitizer.SanitizeMatchesRef | pkg_rename.py:69-71 | the nine chained `replace` calls equal the one-pass rewrite: `: ` becomes ` - `, then each character is mapped on its own |
| Sanitizer.RestConcat | pkg_rename.py:69-71 | the eight one-character replacements after the first work piece by piece |
| Sanitizer.RestChar | pkg_rename.py:69-71 | on one character the eight one-character replacements act as the single-character rewrite |
| Sanitizer.SlashesBracketsChar | pkg_rename.py:70-71 | lines 70-71 rewrite one character (other than `: \| ?`) as the single-character rewrite does |
| Sanitizer.RestClean | pkg_rename.py:69-71 | the eight one-character replacements keep a text without forbidden characters as it is |
| Sanitizer.RestSpaced | pkg_rename.py:69-71 | the ` - ` produced by the first replace survives the later replacements |
| Sanitizer.SanitizeUnfold | pkg_rename.py:69-71 | the chain is `: ` → ` - ` followed by the eight one-character replacements |
| Sanitizer.RestEmpty | pkg_rename.py:69-71 | the one-character replacements keep the empty text empty |
| Sanitizer.PunctuationRemoves | pkg_rename.py:69 | after line 69 no `:`, `\|` or `?` is left |
| Sanitizer.SlashesRemoves | pkg_rename.py:70 | line 70 removes `/`, `\` and `*` and brings back none of line 69's characters |
| Sanitizer.BracketsRemoves | pkg_rename.py:71 | line 71 removes `<` and `>`, after which none of the eight characters is left |
| Sanitizer.SanitizeRemovesForbidden | pkg_rename.py:69-71 | a sanitized title holds none of `: \| ? / \ * < >` |
| Sanitizer.SanitizeKeepsClean | pkg_rename.py:69-71 | a title without those characters passes through unchanged |
| Sanitizer.SanitizeIdempotent | pkg_rename.py:69-71 | sanitizing twice is sanitizing once |
| Sanitizer.RefConcat | pkg_rename.py:69-71 | the one-pass rewrite works piece by piece when no `: ` straddles the seam |
| Sanitizer.RefClean | pkg_rename.py:69-71 | the one-pass rewrite keeps clean text as it is |
| Sanitizer.RefColonSpace | pkg_rename.py:69 | the one-pass rewrite turns a leading `: ` into ` - ` |
| Sanitizer.RefStep | pkg_rename.py:69-71 | the one-pass rewrite maps a leading character other than `:` on its own |
| Sanitizer.SanitizeShape | pkg_rename.py:69-71 | `foo: bar/baz*qux?` with clean parts becomes `foo - bar_baz_qux`, because `: ` is replaced before the bare `:` |
| Sanitizer.SanitizeExampleParts | pkg_rename.py:69-71 | the example title, written in parts, sanitizes to `Foo - Bar_Baz_Qux` |
| Sanitizer.SanitizeExample | pkg_rename.py:69-71 | `Foo: Bar/Baz*Qux?` becomes `Foo - Bar_Baz_Qux` |
| Formatter.CloseAt | pkg_rename.py:64 | the lazy `(.*?)%` stops at the first `%` and contains no `%` or newline; with no close it holds that a newline comes before every later `%` |
| Formatter.Scan | pkg_rename.py:64 | every token found holds neither `%` nor a newline, and every character of a token comes from the template |
| Formatter.ScanWithoutPercent | pkg_rename.py:64 | a template without `%` yields no token |
| Formatter.CloseAfterName | pkg_rename.py:64 | a name without `%` or newline is closed by the `%` right after it |
| Formatter.ScanPlaceholder | pkg_rename.py:64 | a leading `%NAME%` yields NAME, and the scan resumes after its closing `%` |
| Formatter.ScanText | pkg_rename.py:64 | text without `%` before the rest adds no tokens |
| Formatter.ScanToken | pkg_rename.py:64 | a `%` with a close yields the text between as a token and resumes after the close |
| Formatter.ScanSkip | pkg_rename.py:64 | a character that opens no closed placeholder is passed over and the scan goes on with the next one |
| Formatter.CloseSplit | pkg_rename.py:64 | the close search for `(.*?)%` never looks past a newline |
| Formatter.ScanNewline | pkg_rename.py:64 | no token spans a newline: an unclosed `%` is passed over one character at a time, so the scan of the text after a newline is unaffected |
| Formatter.UnclosedBeforeNewline | pkg_rename.py:64 | `%x`, a newline, then `%NAME%` yields exactly [NAME] |
| Formatter.UnclosedExample | pkg_rename.py:64 | `re.findall` on `%x`, newline, `%TITLE%` gives [TITLE] |
| Formatter.DoDictFormat | pkg_rename.py:61-78 | the loop over the scanned tokens (title-class lookup that fails on an absent key, sanitize, replace, append; key lookup; otherwise nothing), then the positional fill, computes `DictFormat` |
| Formatter.SubstituteFailsOnMissingTitle | pkg_rename.py:65-67 | the token loop fails exactly when some token is title-class and its upper-cased key is absent, and then with a KeyError |
| Formatter.FillBraceFree | pkg_rename.py:78 | `format` with no slots gives the text back, whatever the values |
| Formatter.FillCountsSlots | pkg_rename.py:78 | on a text whose braces all form `{}` slots, `format` succeeds iff there are at least as many values as slots; with too few it raises IndexError |
| Formatter.BraceFreeOnlySlots | pkg_rename.py:78 | a brace-free template has no brace outside a slot |
| Formatter.OnlySlotsDrop | pkg_rename.py:73 | dropping a brace-free prefix keeps every brace inside a slot |
| Formatter.ReplaceKeepsSlots | pkg_rename.py:73 | replacing a brace-free placeholder by `{}` keeps every brace inside a slot |
| Formatter.SubstituteKeepsSlots | pkg_rename.py:65-77 | the token loop keeps every brace inside a slot when the tokens are brace-free |
| Formatter.DictFormatFailures | pkg_rename.py:61-78 | on a brace-free template the formatter fails only with a KeyError or an IndexError, and after the loop it fails exactly when the slots outnumber the values |
| Formatter.NoTokensUnchanged | pkg_rename.py:64-78 | a brace-free template in which the scan finds no token comes back unchanged |
| Formatter.UnmatchedPlaceholderVerbatim | pkg_rename.py:65-78 | a single `%NAME%`, where NAME is neither title-class nor a key, is left in the output as it is (there is no else branch) |
| Formatter.MissingTitleRaises | pkg_rename.py:66-67 | any scanned title-class token whose key is absent makes `doDictFormat` raise a KeyError |
| Formatter.SingleMissingTitle | pkg_rename.py:66-67 | a template that is one title-class placeholder with an absent key raises KeyError for the upper-cased name |
| Formatter.LowerCaseTitleRaises | pkg_rename.py:66-67 | `%title%` is looked up as TITLE, so without TITLE it raises KeyError("TITLE") |
| Formatter.SinglePlaceholderFound | pkg_rename.py:65-78 | a template that is one placeholder in any case, whose upper-cased name is a key, formats to that key's value, sanitized when title-class: the placeholder is replaced as written |
| Formatter.LowerCaseTitleFound | pkg_rename.py:66-78 | `%title%` with TITLE present formats to the sanitized title |
| Formatter.LocalizedKey | pkg_rename.py:66 | `TITLE_<lang>`, for an upper-case `lang` other than ID, is upper case and title-class |
| Formatter.LocalizedTitleRaises | pkg_rename.py:66-67 | `%TITLE_EN%` and every other `%TITLE_<lang>%` raises KeyError for that key when it is absent |
| Formatter.NameFormatText | pkg_rename.py:11 | NAME_FORMAT is `%TITLE% (%TITLE_ID%) [v%VER%]` |
| Formatter.NameFormatLayout | pkg_rename.py:11 | NAME_FORMAT is the fixed layout around the placeholders TITLE, TITLE_ID and VER |
| Formatter.NameFormatNoBraces | pkg_rename.py:11 | NAME_FORMAT holds no brace, so it can go through the formatter |
| Formatter.PlaceholderNoBraces | pkg_rename.py:73 | `'%' + val + '%'` has no brace when `val` has none |
| Formatter.LayoutNoBraces | pkg_rename.py:11 | the NAME_FORMAT layout has no brace when its three parts have none |
| Formatter.NameFormatTokens | pkg_rename.py:11 | the scan of NAME_FORMAT finds TITLE, TITLE_ID and VER, in that order |
| Formatter.KeyTitle | pkg_rename.py:66 | TITLE is upper case and title-class |
| Formatter.KeyTitleId | pkg_rename.py:66 | TITLE_ID is upper case and not title-class: it is substituted raw |
| Formatter.KeyVer | pkg_rename.py:66 | VER is upper case and not title-class |
| Formatter.PlaceholderNotPrefix | pkg_rename.py:73 | one placeholder never begins with a different placeholder |
| Formatter.PercentNotPlaceholder | pkg_rename.py:73 | a `%` followed by a character other than the name's first is not the start of that placeholder |
| Formatter.ReplaceOtherLead | pkg_rename.py:73 | replacing `%n%` keeps a different placeholder standing before text that cannot continue `%n%` |
| Formatter.ReplaceLead | pkg_rename.py:73 | replacing `%n%` touches only the lead of the piece of text that follows it |
| Formatter.ReplaceInLayout | pkg_rename.py:73 | replacing `%n%` in the NAME_FORMAT layout turns exactly the lead that is `%n%` into a slot |
| Formatter.LayoutStep | pkg_rename.py:66-77 | one loop iteration on the layout: the placeholder becomes `{}`, and the value (sanitized when title-class) is appended |
| Formatter.SubstituteCons | pkg_rename.py:65-77 | after a successful iteration the loop goes on with the remaining tokens from the new state |
| Formatter.SubstituteThree | pkg_rename.py:65-77 | three successful iterations in turn are the loop over those three tokens |
| Formatter.LayoutSubstitute | pkg_rename.py:65-77 | three placeholders, only the first title-class, turn into three slots with the sanitized first value and the other two raw |
| Formatter.FillText | pkg_rename.py:78 | `format` copies brace-free text in front |
| Formatter.FillSlot | pkg_rename.py:78 | a leading `{}` takes the first value |
| Formatter.FillLayout | pkg_rename.py:78 | the three slots of the layout take three values in order |
| Formatter.NameFormatNames | pkg_rename.py:11 | the three names of NAME_FORMAT are distinct and cannot disturb one another's placeholders |
| Formatter.NameFormatSubstitute | pkg_rename.py:64-77 | the token loop on NAME_FORMAT yields three slots and the values sanitized TITLE, raw TITLE_ID, raw VER |
| Formatter.LayoutFlat | pkg_rename.py:11 | the layout is `x (y) [vz]` |
| Formatter.ReadableFormat | pkg_rename.py:11-78 | with TITLE, TITLE_ID and VER present, the readable template formats to `Sanitize(TITLE) (TITLE_ID) [vVER]` |
| Rename.Renamer.ChooseBaseName | pkg_rename.py:86-98 | the custom template if set, else NAME_FORMAT with `-n`, each through the formatter loop, else the default name; as `BaseName` |
| Rename.Renamer.RenamePkg | pkg_rename.py:81-116 | one call: the outcome, the new filesystem and the printed lines are those of `Process` on the old filesystem |
| Rename.Renamer.RenameTo | pkg_rename.py:101-110 | print `Renaming`, then preview, skip, refuse an existing destination or move, as `Decide` |
| Rename.MoveKeepsCount | pkg_rename.py:110 | moving a present file to a free name keeps the number of files |
| Rename.OnlyRenameChangesFiles | pkg_rename.py:81-116 | the filesystem changes iff the outcome is a rename; the outcome is a rename iff this is not a test run, the metadata is non-empty, a new name is computed, it differs from the old one, its destination is free and the source is present; then only those two paths differ |
| Rename.DecideChangesFiles | pkg_rename.py:101-110 | once the name is known, the files change iff the outcome is a rename, and the outcome is a rename iff this is not a test run, the name differs, the destination is free and the source is present |
| Rename.RenamesWhenFree | pkg_rename.py:105-110 | outside a test run, a new name that differs, a free destination and a present source give exactly the move of the source to that name in its directory, with only the `Renaming` line printed |
| Rename.TestRunChangesNothing | pkg_rename.py:101-102 | with `-t` the filesystem is unchanged and nothing is renamed or skipped; a preview comes from the computed name and prints only the `Renaming` line |
| Rename.SameNameSkipped | pkg_rename.py:103-104 | a new name equal to the current one prints `Renaming` and the skip line and changes nothing |
| Rename.ConflictKeepsSource | pkg_rename.py:106-113 | an existing destination is a MyError `file '<dir>\<name>' already exists!`, printed after `Renaming`; the filesystem is unchanged |
| Rename.RenamingLineFirst | pkg_rename.py:99-110 | when a name was computed, the `Renaming` line is printed first, before the test-run, same-name and conflict checks; otherwise at most an error line is printed and nothing moves |
| Rename.FailuresReported | pkg_rename.py:112-116 | every failure prints its handler's line last and leaves the filesystem as it was; a file is ignored silently iff the metadata is falsy |
| Rename.ParserErrorsReported | pkg_rename.py:83-116 | a MyError from the metadata parser prints `ERROR: <message>`, any other parser exception prints the unexpected-error line with its class and the path; both leave the files unchanged |
| Rename.DecideFailuresReported | pkg_rename.py:101-116 | once a name exists a failure prints its handler's line last, and the file is never ignored |
| Rename.DefaultNameMeaning | pkg_rename.py:95-98 | the default name exists iff CONTENT_ID, APP_VER and VERSION are present and non-empty; it is `CONTENT_ID-A<APP_VER without dots>-V<VERSION without dots>`; an absent CONTENT_ID, an absent APP_VER after a non-empty CONTENT_ID, and an absent VERSION after two non-empty values each raise KeyError for that key; the error is the param.sfo MyError exactly when, reading the keys in order, an empty value is met before any absent key (an empty CONTENT_ID, or an empty APP_VER after a non-empty CONTENT_ID, whatever VERSION is); every unexpected error is a KeyError for an absent key |
| Rename.DefaultNameValue | pkg_rename.py:96 | the default name is CONTENT_ID followed by a dot-free tail |
| Rename.DefaultTailNoDot | pkg_rename.py:96 | the `-A`/`-V` tail built from the dot-free versions holds no dot |
| Rename.EmptyFieldNoRename | pkg_rename.py:95-113 | in default mode an empty value met before any absent key prints `ERROR: parsing of param.sfo failed` and renames nothing |
| Rename.CustomFormatWins | pkg_rename.py:87-99 | a custom template decides the name whatever `-n` says: the name is its formatting plus `.pkg`, and fails when it fails |
| Rename.ReadableName | pkg_rename.py:90-99 | with `-n` the name is the sanitized TITLE, then the raw TITLE_ID and VER in the layout, then `.pkg` |
| Rename.CustomMissingTitle | pkg_rename.py:81-116 | a title-class placeholder of the custom template with an absent key goes to the unexpected-error handler as a KeyError: one line, no `Renaming` line, no rename |
| Rename.ReadableMissingTitle | pkg_rename.py:81-116 | with `-n` and no TITLE, the call fails as an unexpected KeyError("TITLE") |
| Rename.DotsDropped | pkg_rename.py:96 | `'1.00'.replace('.', '')` is `100` |
| Rename.DefaultLiteral | pkg_rename.py:96-99 | the default parts join into `CUSA01234-A100-V100.pkg` |
| Rename.DefaultExample | pkg_rename.py:95-99 | CONTENT_ID=CUSA01234, APP_VER=1.00 and VERSION=1.00 give `CUSA01234-A100-V100.pkg` |
| Rename.ReadableLiteral | pkg_rename.py:99 | the readable parts join into `Great Game (CUSA01234) [v1.00].pkg` |
| Rename.GreatGameClean | pkg_rename.py:69-71 | `Great Game` holds no character the sanitizer rewrites |
| Rename.ReadableCleanTitle | pkg_rename.py:87-99 | with `-n` and a title needing no sanitizing, the name is `t (id) [vv].pkg` |
| Rename.ReadableExample | pkg_rename.py:87-99 | TITLE=Great Game, TITLE_ID=CUSA01234 and VER=1.00 give `Great Game (CUSA01234) [v1.00].pkg` |
| Batch.RunSteps | pkg_rename.py:119-122 | a run yields one outcome per path |
| Batch.MatchingSnoc | pkg_rename.py:120-122 | one more listed name adds its path exactly when it ends in `.pkg` |
| Batch.AllCandidatesSnoc | pkg_rename.py:119-122 | one more level adds its matching files after the earlier ones |
| Batch.MatchingMeaning | pkg_rename.py:120-121 | a level hands on exactly the listed names that end in `.pkg` under `lower()` |
| Batch.AllCandidatesMeaning | pkg_rename.py:119-122 | the whole walk hands on a path iff some level lists it with a `.pkg` name |
| Batch.CandidatesMeaning | pkg_rename.py:119-124 | directory mode processes a file iff its name ends in `.pkg` in any case and it is listed at the first level, or at any level with `-r` |
| Batch.RunSnoc | pkg_rename.py:119-122 | the last call of a run is the step on the filesystem the earlier calls left |
| Batch.RunPrefix | pkg_rename.py:119-122 | the outcomes of a run over a prefix of the paths are a prefix of the outcomes |
| Batch.EveryPathProcessed | pkg_rename.py:112-124 | no call stops the others: the k-th outcome is that of `renamePkg` on the k-th path over the filesystem the first k calls left, and its lines follow theirs |
| Batch.RenamingStep | pkg_rename.py:122 | the step of the script is one `renamePkg` call on the file's metadata |
| Batch.FailureChangesNothing | pkg_rename.py:112-122 | a file that fails leaves the filesystem as the files before it left it |
| Batch.RunKeepsCount | pkg_rename.py:110-122 | a whole run never creates or loses a file |
| Batch.TestRunKeepsFiles | pkg_rename.py:102-122 | a test run of the whole walk leaves the filesystem as it was and renames nothing |
| Batch.SingleFileProcessed | pkg_rename.py:125-126 | without `-d` the one target is processed, whatever its name |
| Batch.TracedStep | pkg_rename.py:119-122 | running one more path extends the outcomes, the filesystem and the printed lines by that step |
| Batch.Visit | pkg_rename.py:122 | one `renamePkg` call extends the run by the step of `Renaming` |
| Batch.VisitName | pkg_rename.py:120-122 | one listed name extends the run by its path exactly when it ends in `.pkg` |
| Batch.WalkLevel | pkg_rename.py:120-122 | the names of one level, in order, extend the run by that level's matching files |
| Batch.Walk | pkg_rename.py:119-124 | directory mode produces the outcomes, filesystem and lines of running `renamePkg` over the candidates, stopping after the first level unless `-r` |
| Batch.Run | pkg_rename.py:118-126 | the script produces the outcomes, filesystem and lines of running `renamePkg` over its targets: the candidates with `-d`, else the one path |

## Left out

- Argument parsing, the file/directory validation and `sys.exit` (lines 13-51): command-line glue. The parsed options are the `Config` record.
- Console reconfiguration and the banner (lines 7-10): console I/O.
- `pkg_parser.getPkgInfo` and `AVAILABLE_VALUES` (lines 5, 23, 83): binary parsing in `lib/pkg_parser.py`, which is not part of this model. What it returns is an input (`PkgInfo`).
- `getReadableString` (lines 54-59): values are taken as already decoded strings.
- Unicode case mapping in `upper()`/`lower()`: only ASCII letters change case.
- Formatter.DoDictFormat: requires a template without `{` or `}`, because `Fill` models only positional `{}` slots of `str.format`, not escaped braces, indices, names or format specs.
- Rename.Renamer.RenamePkg: requires a custom template without braces, for the same reason.
- Rename.Renamer.ChooseBaseName: requires a custom template without braces, for the same reason.
- Batch.Visit: requires a custom template without braces, for the same reason.
- Batch.VisitName: requires a custom template without braces, for the same reason.
- Batch.WalkLevel: requires a custom template without braces, for the same reason.
- Batch.Walk: requires a custom template without braces, for the same reason.
- Batch.Run: requires a custom template without braces, for the same reason.
- Rename.ErrorLine: prints the path as directory, backslash and name, where the script prints the path exactly as it was given.
- Rename.ConflictError: the destination directory is that of the modelled path; `os.path.abspath`/`dirname` are not modelled.
- The `'\\'` join of lines 106-108 is modelled as a path in the source's directory whose last part is the new name. On Windows that is its effect only when the new name holds no `\` or `/`; what it does on a POSIX system is not modelled.
- Rename.Decide: a new name that holds a path separator is treated as a plain name in the source's directory. That name can come from the literal text of a custom template or from a raw, unsanitized value (lines 75-77), e.g. `-c "%TITLE_ID%\%TITLE%"`. The script would then move the file into another directory, or fail when that directory is missing, and under `-r` the moved file could be met again at a later level. So `dst.dir == src.dir` in Rename.OnlyRenameChangesFiles holds of the model only.
- `os.path.exists` and `os.rename` (lines 107, 110) are a membership test and an update of the path set. The model does not cover directories at the destination, case-insensitive file systems, or rename failures other than a missing source.
- `traceback.print_exc` (line 116): only the unexpected-error line is recorded.
- `e.message` (line 113) is the message the `MyError` was raised with.
- `os.walk` (line 119): the levels and their order are an input; subdirectory names are not modelled.
