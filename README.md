# Capture-folder migration, modelled in Dafny

This project models the migration engine of `index.mjs`. The engine moves the output of a capture tool out of a
source root and into a destination root. The source root holds one folder per capture session, such as a game.
The engine looks at each entry of each session folder and does one of four things:

- it moves a **project** folder whole into `<destination>/<session>/<projects label>/`;
- it moves a **screenshot** (`.png`, `.jpeg`, `.jpg`) into `<destination>/<session>/<screenshots label>/`;
- it moves a **footage** file (`.mp4`) into `<destination>/<session>/<footages label>/<YYYY.MM.DD>/`, where the date
  bucket is the leftmost `\d{4}\.\d{2}\.\d{2}` in the file name;
- it leaves anything else in place with a warning.

The model is organised by component:

- `Paths`: paths as segment lists. `Join` drops an empty segment, as `path.join("a", "")` does.
- `DateToken`: the date bucket, computed by a scanning function and specified with the predicate `IsDateAt`.
- `Classifier`: the rules, tried in the source's order, first match wins. The suffix tests are case-sensitive and
  never look at the entry's kind.
- `Destination`: the session, entry and footages paths.
- `Plan`: a run as a value. A `Run` is the list of actions performed (`EnsureDir`, `MoveTree`, `MoveFile`, `Skip`)
  and an outcome (`Completed`, or `Aborted` with the fatal error). A run that throws keeps the actions done before
  the throw. The specification is the function `Migration`.
- `Driver`: the configuration checks and the two nested loops of `initiate`, written as methods with loops.
  They append to an action list, and `Migrate` is proved to compute `Migration`.
- `Properties`: what a run promises, proved about `Migration`.

Where the code departs from what it evidently intends, the model follows the code:

- A directory is classified by its name whenever no projects label is set. A directory named `a.png` is sent down
  the screenshot branch (`Classifier.DirectoryNamedLikeImage`), and one named `x.mp4` down the footage branch (the
  `Footage` clause of `Classifier.Classify`). An undated footage name such as `x.mp4` is only reported after its
  footages folder is made sure of, in the source as in the model. The screenshot branch and the dated footage branch
  (a directory named `2024.01.05.mp4`, say) end in the stream-based `rename`. Reading a directory as a stream always
  fails (`EISDIR` on the first read), so in the source such an entry ends the whole run. The model plans a `MoveFile`
  for it and carries on, because moves are not executed (see "Left out").
- Only an empty root listing is fatal (`index.mjs:21`). A root that holds only files completes, with one
  not-a-directory report per file. The evident intent was to fail when there are no subdirectories.
- The footages test at `index.mjs:98` uses `||`. For every string label the join branch is taken. Because joining
  `""` adds nothing, this gives the same folder as the evidently intended `&&` for every string
  (`Destination.FootagesDirAsIntendedForStrings`). For an unset (`undefined`) label, reading `length` throws a
  `TypeError`. This ends the whole run at the first `.mp4` that reaches the test (`FootagesLabelUnreadable`). The
  evident intent was to fall back to the session folder.
- The footages folder is made sure of before the date is looked for. So an `.mp4` without a date still creates that
  folder.
- Nothing in `initiate` catches an error. A failed `mkdir`, copy or stream ends the whole run, not just that entry.

## Model

| member | source | states |
|---|---|---|
| Paths.JoinExtends | index.mjs:45-46 | `path.join` with `""` leaves a path unchanged; with any other segment it adds exactly one segment at the end |
| Paths.ParentOfJoin | index.mjs:57 | joining a non-empty name puts that name last, and `Parent` gives back the folder it was joined to |
| DateToken.FindDateFrom | index.mjs:109 | the scan returns the first position at or after `from` where `\d{4}\.\d{2}\.\d{2}` matches, or None when no later position matches |
| DateToken.ExtractDate | index.mjs:109-110 | None exactly when no substring matches the pattern; otherwise the ten-character leftmost match, shaped `DDDD.DD.DD` |
| DateToken.LeftmostDateUnique | index.mjs:109 | the leftmost match is unique, so `match(...)[0]` is determined by the name |
| DateToken.BucketAfterNonDigits | index.mjs:106-109 | a name whose bucket is preceded only by non-digits yields that bucket, whatever follows it |
| DateToken.ShadowplayNameExample | index.mjs:108-109 | `Valorant 2024.01.05 - 21.11.01.02.mp4` gives `2024.01.05` |
| Classifier.VideoIsNotImage | index.mjs:75 | no name ends in both `.mp4` and one of `.png`, `.jpeg`, `.jpg` |
| Classifier.Classify | index.mjs:50-95 | Project exactly for a directory with a non-empty projects label; Footage exactly for a `.mp4` name that is not a project; Screenshot only for an image name with a non-empty screenshots label; NotVideo only for a name not ending in `.mp4` |
| Classifier.ImageRule | index.mjs:75-95 | an image name that is not a project is a screenshot exactly when the screenshots label is a non-empty string, and is otherwise skipped as not a video |
| Classifier.UpperCaseVideoIsSkipped | index.mjs:92 | `X.MP4` is not a video: the suffix tests are case-sensitive |
| Classifier.DirectoryNamedLikeImage | index.mjs:50-75 | with no projects label, a directory named `a.png` is classified as a screenshot |
| Destination.SessionPath | index.mjs:46 | for non-empty names the session folder is `[root, session]` |
| Destination.EntryPath | index.mjs:45 | for non-empty names the entry's path is `[root, session, name]` |
| Destination.FootagesDir | index.mjs:98-100 | None (the throw) exactly for an unset label; otherwise a folder with the session folder as prefix, adding the label when it is non-empty and nothing for `""` |
| Destination.IntendedFootagesDir | index.mjs:98-100 | the folder the `&&` reading of the test gives: the label's subfolder for a non-empty string, else the session folder |
| Destination.FootagesDirAsIntendedForStrings | index.mjs:98-100 | the `\|\|` test gives the intended folder exactly when the label is a string |
| Plan.EntriesAbortIsFinal | index.mjs:44-124 | once an entry throws, the session's later entries are never reached |
| Plan.SessionsAbortIsFinal | index.mjs:26-125 | once a session throws, the later sessions are never reached |
| Driver.ProcessSession | index.mjs:26-124 | the body of the session loop skips a non-directory or empty session and otherwise walks its entries in order, stopping at a throw |
| Driver.Migrate | index.mjs:9-127 | the configuration checks followed by `initiate` compute exactly `Migration(cfg, root)` |
| Properties.EntriesThrowOnlyOnUnsetFootages | index.mjs:44-124 | the only error raised inside a session is `FootagesLabelUnreadable`, only with an unset footages label; with a string label a session always completes |
| Properties.SessionsThrowOnlyOnUnsetFootages | index.mjs:26-125 | the same holds for the walk over all sessions |
| Properties.ConfigurationCheckedFirst | index.mjs:9-23 | a missing or empty source root, a missing or empty destination root, and an empty listing each end the run with no action; each error arises exactly in its own case, with the source checked first |
| Properties.SkippedSession | index.mjs:29-41 | a root item that is not a directory, or an empty directory, yields one warning and no other action |
| Properties.ProjectRule | index.mjs:50-71 | a directory with a projects label `p` gives `EnsureDir([dest, session, p])` and a tree move to `[dest, session, p, name]`, and nothing else |
| Properties.ScreenshotRule | index.mjs:75-88 | an image name with a screenshots label `s`, not taken by the projects rule, gives `EnsureDir([dest, session, s])` and a file move to `[dest, session, s, name]` |
| Properties.NotVideoRule | index.mjs:92-95 | any remaining name that does not end in `.mp4` is only reported and stays in place |
| Properties.UpperCaseVideoStays | index.mjs:92-95 | an entry `X.MP4` is reported as not a video and not moved |
| Properties.UndatedFootageRule | index.mjs:97-113 | an `.mp4` without a date is reported and not moved, after its footages folder has been made sure of |
| Properties.DatedFootageRule | index.mjs:98-123 | a dated `.mp4` goes to `[dest, session, footages, bucket, name]`, after making sure of the footages folder and then, without `recursive`, the bucket folder; with `footages == ""` it goes to `[dest, session, bucket, name]` |
| Properties.UnsetFootagesThrows | index.mjs:98 | with an unset footages label the first video throws before anything is done for it |
| Properties.WriteAfterEnsure | index.mjs:52-57 | a folder made sure of, then a write into it, satisfies `DirectoriesFirst` |
| Properties.WriteAfterEnsureTwice | index.mjs:102-120 | a folder, then a non-recursive subfolder of it, then a write into the subfolder, satisfies `DirectoriesFirst` |
| Properties.EntryDirectoriesFirst | index.mjs:50-123 | within one entry's steps, every move and non-recursive `mkdir` follows a step that made sure of its parent folder |
| Properties.EntriesDirectoriesFirst | index.mjs:44-124 | in the steps for a session's entries, every move and non-recursive `mkdir` follows a step that made sure of its parent folder |
| Properties.SessionsDirectoriesFirst | index.mjs:26-125 | the same holds across the walk over all sessions |
| Properties.MigrationDirectoriesFirst | index.mjs:26-125 | in every run, complete or aborted, every move and every non-recursive `mkdir` targets a folder made sure of earlier |
| Properties.EntryRelocates | index.mjs:45-120 | every move for an entry goes from `[src, session, name]` to a path that starts with `[dest, session]` and ends with `name` |
| Properties.EntriesRelocate | index.mjs:44-124 | every move made for a session's entries is the move of one of its listed entries into `[dest, session]`, keeping the name |
| Properties.SessionsRelocate | index.mjs:26-125 | every move made over the sessions belongs to a listed entry of a listed session directory |
| Properties.MigrationRelocates | index.mjs:26-125 | every move of a run takes a listed entry of a listed session directory to a place under `[dest, session]` that keeps its name |
| Properties.EntryOneDecision | index.mjs:44-124 | an entry that does not throw is moved or reported exactly once |
| Properties.EntriesOneDecisionEach | index.mjs:44-124 | a completed session has exactly one move or report per listed entry |
| Properties.SessionsDecisions | index.mjs:26-125 | a completed walk over the sessions makes exactly `ExpectedDecisions` moves and reports: one per root item that is skipped, one per entry of the others |
| Properties.MigrationDecisions | index.mjs:17-127 | a completed run has one move or report per entry of each non-empty session directory, and one report per skipped root item |
| Properties.EntriesIndependent | index.mjs:44-124 | splitting a session's listing anywhere gives the same run: an entry's steps depend only on that entry |
| Properties.EmptiedSessionsOnlyReported | index.mjs:37-41 | sessions that are all empty directories complete with one empty-directory report each and nothing else |
| Properties.RerunMovesNothing | index.mjs:37-41 | once every session folder is empty, a further run completes, moves nothing, makes no folder, and reports each session as empty |
| Properties.FourEntriesInOrder | index.mjs:44-124 | a project folder, a screenshot, a dated clip and another file give, in listing order, the tree move, the screenshot move, the footage move into its bucket, and a report |
| Properties.FourEntrySessionScenario | index.mjs:17-127 | a whole run over a session holding a project folder, a screenshot, a dated clip and another file, with all labels set, gives exactly the expected actions |

## Left out

- File system calls are not modelled. The outcomes of `readdir` and `stat` are the input listing (`Session`, `Entry`). The `existsSync` check plus `mkdir` pair is the `EnsureDir` action. A root listing that cannot be read, a `stat` or session `readdir` that throws during the walk (`index.mjs:30`, `:37`, `:49`; a dangling link in a session folder, say), and `existsSync` finding a file where a folder is expected, are not modelled. In the source each of these ends the run.
- The moves are planned, not performed. `ncp` (no clobbering, stop on the first error, 16 copies at a time) followed by `rimraf` is the `MoveTree` action. Their behaviour belongs to foreign libraries.
- The stream-based `rename` (exclusive `wx` create, unlink on `close`, listener removal on error) is the `MoveFile` action. Its guarantees rest on Node stream events.
- A failed `mkdir`, copy, `rename` or `unlink` ends the whole run in the source. The model does not capture this, because moves are not executed.
- A directory entry named like an image, or like a video whose name holds a date (a directory named `a.png` or `2024.01.05.mp4` with no projects label), is planned as a `MoveFile`. In the source, `rename` fails on the first read of the stream (`EISDIR`), the run ends, and the exclusive write stream may leave an empty file at the destination.
- Properties.EntriesThrowOnlyOnUnsetFootages: promises `Completed` for a listing with a directory named like an image, or like a video whose name holds a date. That holds only because moves are not executed; the source ends the run there.
- Properties.SessionsThrowOnlyOnUnsetFootages: the same restriction as the line above, for the walk over all sessions.
- Timing with `performance.now()` and all console output are left out. The warnings survive as `Skip` reasons.
- `config.mjs` is not part of this model. The two roots and the three labels are inputs. A label is either a string or unset (`undefined`/`null`). Other non-string values, such as numbers or arrays, are not modelled.
- Paths are not normalised. A root, label or name is one opaque segment. Separators inside them, `.`, `..` and trailing slashes are not interpreted.
- Properties.MigrationRelocates, Properties.EntryRelocates and Properties.MigrationDirectoriesFirst assume non-empty names. `readdir` never lists an empty name, and the roots are non-empty after the configuration checks.
