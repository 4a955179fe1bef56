/**
 * What a migration run does, as a value: the configuration checks, the
 * walk over the sessions of the source root and, per entry, the folders
 * it makes sure of and the move or skip it performs. A run that throws
 * keeps the actions performed before the throw.
 */
module Plan {
  import opened Wrappers
  import opened Paths
  import opened Classifier
  import opened DateToken
  import opened Destination

  /** One item of a session folder, with what `stat` says of it. */
  datatype Entry = Entry(name: string, kind: Kind)

  /**
   * One item of the source root; `entries` is what `readdir` lists in it
   * and is only read when it is a directory.
   */
  datatype Session = Session(name: string, kind: Kind, entries: seq<Entry>)

  /** The two roots and the subfolder labels, as the configuration supplies them. */
  datatype Config = Config(source: Setting, destination: Setting, labels: Labels)

  /** Why something was left in place (the warnings of the source). */
  datatype Reason = NotADirectory | EmptyDirectory | NotAVideo | NoDate

  datatype Action =
    | EnsureDir(dir: Path, recursive: bool)  // mkdir unless it exists
    | MoveTree(from: Path, to: Path)         // copy a folder without clobbering, then delete it
    | MoveFile(from: Path, to: Path)         // stream into a new file, then unlink the source
    | Skip(at: Path, reason: Reason)
  {
    predicate IsMove() {
      MoveTree? || MoveFile?
    }
  }

  /** The errors that end a run. */
  datatype Fatal =
    | SourceMissing            // "SOURCE folder is mandatory."
    | TargetMissing            // "TARGET folder is mandatory."
    | NoDirectories            // "No directories available."
    | FootagesLabelUnreadable  // TypeError reading `length` of an unset footages label

  datatype Outcome = Completed | Aborted(error: Fatal)

  datatype Run = Run(actions: seq<Action>, outcome: Outcome)

  /** Runs `next` after `first`, unless `first` threw. */
  function Then(first: Run, next: Run): (r: Run)
    ensures first.actions <= r.actions
    ensures first.outcome.Aborted? ==> r == first
    ensures first.outcome.Completed? ==> r.actions == first.actions + next.actions && r.outcome == next.outcome
  {
    if first.outcome.Aborted? then first else Run(first.actions + next.actions, next.outcome)
  }

  /** The steps taken for one entry of session `session`. */
  function EntryPlan(source: string, destination: string, labels: Labels, session: string, e: Entry): Run {
    var from := EntryPath(source, session, e.name);
    var sessionDir := SessionPath(destination, session);
    match Classify(e.name, e.kind, labels)
    case Project =>
      var dir := Join(sessionDir, labels.projects.value);
      Run([EnsureDir(dir, true), MoveTree(from, Join(dir, e.name))], Completed)
    case Screenshot =>
      var dir := Join(sessionDir, labels.screenshots.value);
      Run([EnsureDir(dir, true), MoveFile(from, Join(dir, e.name))], Completed)
    case NotVideo =>
      Run([Skip(from, NotAVideo)], Completed)
    case Footage =>
      match FootagesDir(sessionDir, labels.footages)
      case None => Run([], Aborted(FootagesLabelUnreadable))
      case Some(dir) =>
        match ExtractDate(e.name)
        case None => Run([EnsureDir(dir, true), Skip(from, NoDate)], Completed)
        case Some(bucket) =>
          var bucketDir := Join(dir, bucket);
          Run([EnsureDir(dir, true), EnsureDir(bucketDir, false), MoveFile(from, Join(bucketDir, e.name))], Completed)
  }

  /** The entries of one session, in listing order. */
  function EntriesPlan(source: string, destination: string, labels: Labels, session: string, es: seq<Entry>): Run
  {
    if es == [] then Run([], Completed)
    else
      Then(EntriesPlan(source, destination, labels, session, es[..|es| - 1]),
           EntryPlan(source, destination, labels, session, es[|es| - 1]))
  }

  /** One item of the source root: skipped unless it is a non-empty directory. */
  function SessionPlan(source: string, destination: string, labels: Labels, s: Session): Run {
    if s.kind != Directory then Run([Skip(SessionPath(source, s.name), NotADirectory)], Completed)
    else if s.entries == [] then Run([Skip(SessionPath(source, s.name), EmptyDirectory)], Completed)
    else EntriesPlan(source, destination, labels, s.name, s.entries)
  }

  /** The items of the source root, in listing order. */
  function SessionsPlan(source: string, destination: string, labels: Labels, ss: seq<Session>): Run
  {
    if ss == [] then Run([], Completed)
    else
      Then(SessionsPlan(source, destination, labels, ss[..|ss| - 1]),
           SessionPlan(source, destination, labels, ss[|ss| - 1]))
  }

  /** A whole run: the configuration checks, the listing check, then the walk. */
  function Migration(cfg: Config, root: seq<Session>): Run {
    if !Enabled(cfg.source) then Run([], Aborted(SourceMissing))
    else if !Enabled(cfg.destination) then Run([], Aborted(TargetMissing))
    else if root == [] then Run([], Aborted(NoDirectories))
    else SessionsPlan(cfg.source.value, cfg.destination.value, cfg.labels, root)
  }

  /** Listing one more entry runs that entry after the others. */
  lemma EntriesPlanSnoc(source: string, destination: string, labels: Labels, session: string, es: seq<Entry>, k: nat)
    requires k < |es|
    ensures EntriesPlan(source, destination, labels, session, es[..k + 1])
         == Then(EntriesPlan(source, destination, labels, session, es[..k]), EntryPlan(source, destination, labels, session, es[k]))
  {
    assert es[..k + 1][..k] == es[..k];
  }

  /** Listing one more session runs that session after the others. */
  lemma SessionsPlanSnoc(source: string, destination: string, labels: Labels, ss: seq<Session>, k: nat)
    requires k < |ss|
    ensures SessionsPlan(source, destination, labels, ss[..k + 1])
         == Then(SessionsPlan(source, destination, labels, ss[..k]), SessionPlan(source, destination, labels, ss[k]))
  {
    assert ss[..k + 1][..k] == ss[..k];
  }

  /** Once an entry throws, the rest of the session's entries are never reached. */
  lemma {:induction false} EntriesAbortIsFinal(source: string, destination: string, labels: Labels, session: string, es: seq<Entry>, k: nat)
    requires k <= |es|
    requires EntriesPlan(source, destination, labels, session, es[..k]).outcome.Aborted?
    ensures EntriesPlan(source, destination, labels, session, es) == EntriesPlan(source, destination, labels, session, es[..k])
    decreases |es| - k
  {
    if k < |es| {
      assert es[..k + 1][..k] == es[..k];
      EntriesAbortIsFinal(source, destination, labels, session, es, k + 1);
    } else {
      assert es[..k] == es;
    }
  }

  /** Once a session throws, the remaining sessions are never reached. */
  lemma {:induction false} SessionsAbortIsFinal(source: string, destination: string, labels: Labels, ss: seq<Session>, k: nat)
    requires k <= |ss|
    requires SessionsPlan(source, destination, labels, ss[..k]).outcome.Aborted?
    ensures SessionsPlan(source, destination, labels, ss) == SessionsPlan(source, destination, labels, ss[..k])
    decreases |ss| - k
  {
    if k < |ss| {
      assert ss[..k + 1][..k] == ss[..k];
      SessionsAbortIsFinal(source, destination, labels, ss, k + 1);
    } else {
      assert ss[..k] == ss;
    }
  }
}
