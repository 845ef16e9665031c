# encoding-converter, modelled in Dafny

`index.js` walks a directory tree depth-first and keeps two global counters,
`totalFoundCount` and `nowScannedPosition`:

- Names starting with `.` are skipped. They advance the position and print
  nothing.
- Directories are entered. They advance the position and print a `cd->:` line
  without a tally.
- Any other entry whose lower-cased name does not contain `.txt` advances the
  position and prints one line with the tally.
- Every remaining entry is read, and a detector (chardet) is asked for its
  encoding. If the read fails or the detector's answer is unusable, the run
  stops before the position moves or anything is printed. Otherwise the
  position advances and one line with the tally announces the branch of the
  detected label. The file is then handled as that branch dictates:
  - A UTF-8 file without the bytes `EF BB BF` is not written.
  - A UTF-8 file with them is written back without them. If the buffer fails
    the `is-utf8` check, it is written back unchanged, BOM included.
  - On the other branches the file is decoded and rewritten as BOM-free UTF-8.
  - If the last branch cannot decode the file, it adds an error line and leaves
    the file alone.

This project models that program and proves properties of the model:

- the branch table that maps a detected label to an action;
- what each action does to the file's bytes;
- the classifier adapter that reduces the detector's answer to one label;
- the walk: filter order, how the counters move, which files can change, and
  how deep the indentation goes.

## Layout

| file | module | what it holds |
|---|---|---|
| `wrappers.dfy` | `Wrappers` | `Option`, for a call that may return nothing or throw |
| `text.dfy` | `Text` | bytes, `includes` (`Contains`), ASCII `toLowerCase` |
| `decision.dfy` | `Decision` | the foreign collaborators as a `Codecs` value, the classifier adapter, BOM stripping, the branch table `BranchOf`, the decision engine `Decide` |
| `tree.dfy` | `Tree` | the directory tree as `readdirSync`/`stat` report it, and the name filters `Hidden`, `Join`, `IsTextName` |
| `walk.dfy` | `Walk` | the pure specification of `main` (`WalkDir`, `WalkEntries`, `WalkEntry`, `FileStep`) over a `State`, and the lemmas about it |
| `converter.dfy` | `Converter` | class `Walker`: the globals, the file map and the console as fields; `Progress`, `WriteFile`, `Convert`, `Visit` and `ScanDir` as methods proved equal to the specification; `Run`, the top-level call |
| `scenario.dfy` | `Scenario` | a worked directory, and per-branch facts about one walk step |

How the model is built:

- **Filesystem.** The directory structure is an immutable tree. A `Dir` node
  holds the listing in `readdirSync` order; every other entry is `NonDir`. This
  tree is what `stat` would report. File bytes live in a `map<string, Bytes>`
  keyed by `dir + "/" + name`. That map is the only thing the program writes.
- **Foreign code.** These are the five fields of `Codecs`, and nothing is
  assumed about them:
  - chardet;
  - iconv-lite;
  - the `is-utf8` check that `strip-bom-buf` makes before it strips;
  - the UTF-8 encoding that `writeFile` applies to a string;
  - whether `fs.promises.writeFile` resolves or rejects.
- **Uncaught exceptions.** Some failures escape `main` and stop the whole run
  (the async rejection reaches the top):
  - a `null` result or an empty ranked list from the detector;
  - a missing file at `readFile`;
  - a decode failure on the GBK or UTF-16 branch;
  - a rejected `writeFile` on any branch (index.js:72, 77, 81, 93), which no
    `try` covers.

  The specification records them as `State.aborted`; the methods return
  `ok == false`. Every exception thrown after the announce line leaves the
  position bumped.
- **The log.** Each printed line is one `Line` value. It carries the entry's
  path so that a line identifies its entry. The program prints only the name.

## Where this follows the code rather than a tidier design

- There is no `ISO-8859-1`/`ASCII` skip branch. Such labels fall into the last
  branch and are decoded and rewritten.
- There is no `node_modules` rule, no dry-run mode and no user-supplied
  extension.
- The extension test is `toLowerCase().includes('.txt')`, a substring test.
  `A.TXT` and `x.txt.bak` both qualify.
- The UTF-8 comparison is exact and case-sensitive: `utf-8` is not UTF-8.
- `Big5` and `GB18030` are decoded as `GBK`. `GB2312` and `GBK` are not part of
  that branch.
- A `null` detector answer throws; it is not read as UTF-8.
- A decode error is caught only on the last branch. On the GBK and UTF-16
  branches it escapes.
- `nowScannedPosition <= totalFoundCount` does hold at every step in the code,
  because a listing's length is added before any of its entries is handled.
  This is proved (`WalkDirCounts`, `ShownWithinTotal`).
- Hidden entries are counted but print nothing: their log line is commented
  out.

## Model

| member | source | states |
|---|---|---|
| `Text.Contains` | index.js:79 | `s.includes(t)` is true exactly when some window `s[i..i+|t|]` equals `t` |
| `Tree.Hidden` | index.js:41 | `fn[0] === '.'` holds exactly when the name starts with `.`; the empty name is not hidden |
| `Tree.JoinInjective` | index.js:47 | `${targetDir}/${fn}` determines `fn`: two names of one directory give the same path only when they are equal |
| `Tree.TextNameAnyCase` | index.js:61 | `fn.toLowerCase().includes('.txt')` holds exactly when `.txt` occurs somewhere in `fn` with each letter in either case |
| `Tree.TextNameExamples` | index.js:61 | `a.txt`, `A.TXT` and `x.txt.bak` pass the name filter; `readme.md`, `txt` and `a.tx` do not |
| `Decision.MostPossibleEncoding` | index.js:23-26 | a string answer is returned unchanged; a ranked list yields its first candidate's name; `null` or an empty list is the TypeError the code throws |
| `Decision.TopCandidateIsMostConfident` | index.js:25 | with a best-first ranking, the adapter's label belongs to a candidate that no other candidate beats |
| `Decision.HasBom` | index.js:71 | the three byte tests hold exactly when the buffer starts with `EF BB BF`; a buffer shorter than three bytes fails them |
| `Decision.StripBomBuffer` | index.js:72 | with a leading `EF BB BF` and valid UTF-8, the result is the buffer minus exactly those three bytes; otherwise the buffer is unchanged |
| `Decision.StripBomBufferAfterBom` | index.js:72 | prefixing valid UTF-8 bytes with the BOM and then stripping gives back those bytes |
| `Decision.StripBom` | index.js:77 | one leading U+FEFF is removed from decoded text, and nothing else changes |
| `Decision.BranchOf` | index.js:68-83 | the branch table: UTF-8 iff the label is exactly `UTF-8`; GBK iff it is `Big5` or `GB18030`; UTF-16 iff it contains `UTF-16`; otherwise the try branch |
| `Decision.Decide` | index.js:68-94 | UTF-8: written iff the buffer starts with the BOM, then without those three bytes when the buffer is valid UTF-8 and unchanged otherwise. Other labels: written iff decoding succeeds (with `GBK` on the GBK branch, the label elsewhere), with the UTF-8 of the BOM-less text. A failed decode is caught only on the try branch and escapes on GBK/UTF-16 |
| `Decision.UnicodeLabels` | index.js:68-79 | `UTF-8` takes the UTF-8 branch and `utf-8` does not; `UTF-16LE` and `UTF-16BE` take the UTF-16 branch |
| `Decision.OtherLabels` | index.js:75-83 | `Big5` and `GB18030` take the GBK branch; `ISO-8859-1` and `Shift_JIS` take the try branch |
| `Walk.Announce` | index.js:69-84 | each branch prints its own kind of line, with the indentation `blk`, the entry and the shown tally |
| `Walk.FileStep` | index.js:64-94 | only the file itself can change. The position advances by one unless the run stops first. An unreadable file stops the run untouched. At most two lines are printed: branch lines indented `blk` and showing `position+1 / total`, and the unindented error line |
| `Walk.FileStepDecides` | index.js:64-94 | for the label the adapter returns: an unusable answer stops the run untouched. Otherwise the position is bumped and the label's branch is announced, then the error line follows exactly when the try branch caught a decode error. The file becomes `Decide`'s content exactly when `Decide` rewrites and the write resolves. The run stops exactly on an escaping decode error or a rejected write |
| `Walk.WalkDir` | index.js:32-36 | `main` never removes files, never shortens the log and never decreases a counter; a stopped run stays unchanged |
| `Walk.WalkEntries` | index.js:37-100 | the same for the first `n` iterations of the loop |
| `Walk.WalkEntry` | index.js:41-63 | a hidden entry only advances the position by one; a non-directory name without `.txt` advances it by one and prints one line, with no read or write |
| `Walk.WalkDirCounts` | index.js:32-101 | the position never overtakes the total, and every printed `k / n` has `k <= n`. A run that does not stop adds `Visited(t)`, the entries of every directory entered, to both counters |
| `Walk.WalkEntriesCounts` | index.js:35-100 | after `n` iterations the position has advanced by `n` plus what the directories entered listed |
| `Walk.WalkEntryCounts` | index.js:41-94 | each entry advances the position exactly once on every branch, including a caught decode error, plus its subtree's entries for a directory |
| `Walk.CountersMeetAfterWalk` | index.js:28-35 | after `main(root)` from zero counters, both counters are equal to the number of entries listed, when no exception escapes |
| `Walk.AbortedEntriesStay` | index.js:37-100 | once an iteration has thrown, no later iteration runs |
| `Walk.WalkDirWritesOnlyTargets` | index.js:41-65 | files outside `Targets` keep their bytes: hidden entries, names without `.txt`, and everything under a hidden directory |
| `Walk.WalkEntriesWritesOnlyTargets` | index.js:37-65 | the same for the loop's first `n` iterations |
| `Walk.WalkEntryWritesOnlyTargets` | index.js:41-65 | one entry changes at most its own file, or files under the directory it enters |
| `Walk.JoinAddsOneLevel` | index.js:47 | `${targetDir}/${fn}` is exactly one level below `targetDir` |
| `Walk.WalkDirIndents` | index.js:59 | a file `d` directories below the directory `main(dir, blk)` is run on is indented by `blk + 2*d` |
| `Walk.WalkEntriesIndents` | index.js:37-100 | the same for the loop's first `n` iterations |
| `Walk.WalkEntryIndents` | index.js:55-94 | one entry's lines are indented by depth; a directory is entered with `blk + 2` |
| `Walk.RootIndentIsTwiceDepth` | index.js:32 | from the root call (`blk = 0`), a file `d` directories deep is indented by `2*d` spaces |
| `Converter.Walker.constructor` | index.js:20-21 | both counters start at 0, and nothing has been printed |
| `Converter.Walker.Progress` | index.js:28-30 | `progress()` bumps the position by one and shows the new position over the current total, changing nothing else |
| `Converter.Walker.WriteFile` | index.js:72 | `fs.promises.writeFile`: the file gets the data when the write resolves; a rejected write changes nothing and reports failure |
| `Converter.Walker.Convert` | index.js:64-94 | the read–detect–announce–rewrite sequence for one file computes exactly `FileStep`; a rejected write stops the run |
| `Converter.Walker.Visit` | index.js:37-63 | one loop iteration computes exactly `WalkEntry`. Hidden: count only. Directory: print `cd`, count, recurse with `blk + 2`. No `.txt`: count and report |
| `Converter.Walker.ScanDir` | index.js:32-101 | `main` computes exactly `WalkDir`: total first, then the entries in listing order, returning when an exception escapes |
| `Converter.Run` | index.js:103 | the top-level `main(dir)`: position `<=` total; the two are equal to `Visited(t)` when no exception escapes; every shown tally is within its total; no file outside `Targets` changes |
| `Scenario.Utf8FileKept` | index.js:68-74 | a UTF-8 file without a BOM is counted once and not written |
| `Scenario.BomFileStripped` | index.js:71-72 | a valid UTF-8 file `BOM + rest` becomes exactly `rest` |
| `Scenario.RejectedWriteStops` | index.js:69-72 | a BOM file whose write is rejected is announced and counted, keeps its bytes, and stops the run |
| `Scenario.GbFileConverted` | index.js:75-78 | a GB18030 file becomes the UTF-8 of its GBK decoding without the BOM |
| `Scenario.GbDecodeErrorStops` | index.js:75-77 | a Big5 file whose GBK decoding throws is announced and counted, keeps its bytes, and stops the run |
| `Scenario.Utf16FileConverted` | index.js:79-81 | a UTF-16LE file is decoded with its own label and becomes the UTF-8 of the BOM-less text |
| `Scenario.TriedFileConverted` | index.js:83-93 | a Shift_JIS file that decodes becomes the UTF-8 of the BOM-less text |
| `Scenario.TriedFileSkipped` | index.js:83-91 | a Shift_JIS file that fails to decode gets the try line and the error line, keeps its bytes, and the run goes on |
| `Scenario.TwoFiles` | index.js:64-74 | the first two text files of the worked directory: the UTF-8 file is kept and the BOM file stripped |
| `Scenario.ThreeFiles` | index.js:64-94 | the three text files of the worked directory, in order |
| `Scenario.OneRun` | index.js:32-101 | the worked directory. The UTF-8 file and the non-`.txt` file are kept; the BOM file loses its BOM; the GB18030 file is converted; the hidden directory is not entered; both counters end at 5 |
| `Scenario.RejectedWriteStopsRun` | index.js:32-101 | the worked directory with the BOM file read-only: the run stops at position 2 of 5 and no file changes |

## Left out

- Console colouring (`chalk`) and size formatting (`human-size`), index.js:6-7,
  14-18, 39, 49-53: presentation only. A line records its kind, entry,
  indentation and tally, not its text. The file size on the `proc` lines is
  not recorded.
- `console.error(err)` after a caught decode error, index.js:90: the model
  records one `ConvertError` line for lines 89-90.
- The internals of chardet, iconv-lite, `strip-bom`, `strip-bom-buf` and
  `is-utf8` are foreign code, and none is part of this model. Detection,
  decoding, the UTF-8 check and UTF-8 encoding are opaque fields of `Codecs`.
- `StripBomBuffer` follows `strip-bom-buf` as package code, not as the call
  site: the three bytes go only when the whole buffer also passes `is-utf8`.
  Otherwise the buffer is written back unchanged.
- `StripBom`: removes one leading U+FEFF.
- `FileStep`: a rejected `writeFile` is modelled as a stop that leaves the file
  as it was. A write that fails after truncating the file is not modelled.
- `async`/`await` and `fs.promises`: every call is awaited inside the loop, so
  effects are modelled as sequential updates.
- `readdirSync` and `stat` failures, index.js:33 and 48: these throw out of
  `main` unhandled. `ScanDir` requires a directory, and the tree gives what `stat`
  reports. A `readFile` failure is modelled as a stopped run.
- `process.argv` and the `working dir` line, index.js:12-14: command-line
  plumbing. `Run` takes the root path and its tree as parameters.
- The commented-out `temp` function, index.js:105-121: dead code.
- `Text.ToLower`: lower-cases only `A`–`Z`, one character for one, through
  `Text.LowerChar`. JavaScript's `toLowerCase` also maps other letters, and
  can change the length: `'İ'` becomes two code units. The `.txt` test could
  differ only where some other character lower-cases to `.`, `t` or `x`. The
  model takes `T` and `X` to be the only such characters.
- The stat cache and file identity: symbolic links, hard links, and files
  changing outside the program between listing and reading are not modelled.
  The file map holds at most one content per path.
