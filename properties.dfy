/**
 * What a migration run promises, proved about the specification in
 * module Plan (and so about the driver, which computes it).
 */
module Properties {
  import opened Wrappers
  import opened Paths
  import opened Classifier
  import opened DateToken
  import opened Destination
  import opened Plan

  /** `readdir` never lists an empty name. */
  ghost predicate WellFormed(root: seq<Session>) {
    forall s :: s in root ==> s.name != "" && forall e :: e in s.entries ==> e.name != ""
  }

  // ---------------------------------------------------------------------
  // Fatal errors

  /** The only error raised while walking the sessions is the unset footages label. */
  lemma {:induction false} EntriesThrowOnlyOnUnsetFootages(source: string, destination: string, labels: Labels, session: string, es: seq<Entry>)
    ensures EntriesPlan(source, destination, labels, session, es).outcome.Aborted? ==>
              labels.footages.Unset? && EntriesPlan(source, destination, labels, session, es).outcome == Aborted(FootagesLabelUnreadable)
    ensures labels.footages.Text? ==> EntriesPlan(source, destination, labels, session, es).outcome == Completed
  {
    if es != [] {
      EntriesThrowOnlyOnUnsetFootages(source, destination, labels, session, es[..|es| - 1]);
    }
  }

  lemma {:induction false} SessionsThrowOnlyOnUnsetFootages(source: string, destination: string, labels: Labels, ss: seq<Session>)
    ensures SessionsPlan(source, destination, labels, ss).outcome.Aborted? ==>
              labels.footages.Unset? && SessionsPlan(source, destination, labels, ss).outcome == Aborted(FootagesLabelUnreadable)
    ensures labels.footages.Text? ==> SessionsPlan(source, destination, labels, ss).outcome == Completed
  {
    if ss != [] {
      SessionsThrowOnlyOnUnsetFootages(source, destination, labels, ss[..|ss| - 1]);
      var s := ss[|ss| - 1];
      EntriesThrowOnlyOnUnsetFootages(source, destination, labels, s.name, s.entries);
    }
  }

  /**
   * A source or destination root that is not a non-empty string, and an
   * empty source root, end the run before anything is done; each error is
   * raised exactly in its own case, source checked first.
   */
  lemma ConfigurationCheckedFirst(cfg: Config, root: seq<Session>)
    ensures !Enabled(cfg.source) || !Enabled(cfg.destination) || root == [] ==> Migration(cfg, root).actions == []
    ensures Migration(cfg, root).outcome == Aborted(SourceMissing) <==> !Enabled(cfg.source)
    ensures Migration(cfg, root).outcome == Aborted(TargetMissing) <==> Enabled(cfg.source) && !Enabled(cfg.destination)
    ensures Migration(cfg, root).outcome == Aborted(NoDirectories) <==> Enabled(cfg.source) && Enabled(cfg.destination) && root == []
  {
    if Enabled(cfg.source) && Enabled(cfg.destination) {
      SessionsThrowOnlyOnUnsetFootages(cfg.source.value, cfg.destination.value, cfg.labels, root);
    }
  }

  // ---------------------------------------------------------------------
  // Sessions

  /** A root item that is not a directory, or an empty one, is only reported. */
  lemma SkippedSession(source: string, destination: string, labels: Labels, s: Session)
    requires source != "" && s.name != ""
    requires s.kind == File || s.entries == []
    ensures SessionPlan(source, destination, labels, s)
         == Run([Skip([source, s.name], if s.kind == File then NotADirectory else EmptyDirectory)], Completed)
  {
  }

  // ---------------------------------------------------------------------
  // One entry

  /** A directory, when a projects label is set, is moved whole under it, and nothing else happens to it. */
  lemma ProjectRule(source: string, destination: string, labels: Labels, session: string, e: Entry)
    requires source != "" && destination != "" && session != "" && e.name != ""
    requires e.kind == Directory && Enabled(labels.projects)
    ensures EntryPlan(source, destination, labels, session, e)
         == Run([EnsureDir([destination, session, labels.projects.value], true),
                 MoveTree([source, session, e.name], [destination, session, labels.projects.value, e.name])], Completed)
  {
    assert Classify(e.name, e.kind, labels) == Project;
    var dir := Join(SessionPath(destination, session), labels.projects.value);
    assert dir == [destination, session, labels.projects.value];
    assert Join(dir, e.name) == [destination, session, labels.projects.value, e.name];
  }

  /** An image name, when a screenshots label is set and the projects rule does not apply, is moved under it. */
  lemma ScreenshotRule(source: string, destination: string, labels: Labels, session: string, e: Entry)
    requires source != "" && destination != "" && session != "" && e.name != ""
    requires !IsProject(e.kind, labels) && IsImageName(e.name) && Enabled(labels.screenshots)
    ensures EntryPlan(source, destination, labels, session, e)
         == Run([EnsureDir([destination, session, labels.screenshots.value], true),
                 MoveFile([source, session, e.name], [destination, session, labels.screenshots.value, e.name])], Completed)
  {
    assert Classify(e.name, e.kind, labels) == Screenshot;
    var dir := Join(SessionPath(destination, session), labels.screenshots.value);
    assert dir == [destination, session, labels.screenshots.value];
    assert Join(dir, e.name) == [destination, session, labels.screenshots.value, e.name];
  }

  /** Whatever is left that does not end in `.mp4` stays where it is. */
  lemma NotVideoRule(source: string, destination: string, labels: Labels, session: string, e: Entry)
    requires source != "" && session != "" && e.name != ""
    requires !IsProject(e.kind, labels) && !(IsImageName(e.name) && Enabled(labels.screenshots)) && !IsVideoName(e.name)
    ensures EntryPlan(source, destination, labels, session, e) == Run([Skip([source, session, e.name], NotAVideo)], Completed)
  {
  }

  /** `X.MP4` is not a video: the suffix test is case-sensitive. */
  lemma UpperCaseVideoStays(source: string, destination: string, labels: Labels, session: string)
    requires source != "" && session != ""
    ensures EntryPlan(source, destination, labels, session, Entry("X.MP4", File))
         == Run([Skip([source, session, "X.MP4"], NotAVideo)], Completed)
  {
    UpperCaseVideoIsSkipped(labels);
  }

  /**
   * A video without a date is left in place, but only after the footages
   * folder has been made sure of.
   */
  lemma UndatedFootageRule(source: string, destination: string, labels: Labels, session: string, e: Entry)
    requires source != "" && destination != "" && session != "" && e.name != ""
    requires !IsProject(e.kind, labels) && IsVideoName(e.name) && labels.footages.Text?
    requires ExtractDate(e.name) == None
    ensures EntryPlan(source, destination, labels, session, e)
         == Run([EnsureDir(IntendedFootagesDir([destination, session], labels.footages), true),
                 Skip([source, session, e.name], NoDate)], Completed)
  {
    VideoIsNotImage(e.name);
  }

  /**
   * A dated video moves to `<destination>/<session>/<footages>/<bucket>/<name>`,
   * the footages segment vanishing when the label is the empty string.
   */
  lemma DatedFootageRule(source: string, destination: string, labels: Labels, session: string, e: Entry, bucket: string)
    requires source != "" && destination != "" && session != "" && e.name != ""
    requires !IsProject(e.kind, labels) && IsVideoName(e.name) && labels.footages.Text?
    requires ExtractDate(e.name) == Some(bucket)
    ensures Enabled(labels.footages) ==>
              var f := labels.footages.value;
              EntryPlan(source, destination, labels, session, e)
                == Run([EnsureDir([destination, session, f], true),
                        EnsureDir([destination, session, f, bucket], false),
                        MoveFile([source, session, e.name], [destination, session, f, bucket, e.name])], Completed)
    ensures labels.footages == Text("") ==>
              EntryPlan(source, destination, labels, session, e)
                == Run([EnsureDir([destination, session], true),
                        EnsureDir([destination, session, bucket], false),
                        MoveFile([source, session, e.name], [destination, session, bucket, e.name])], Completed)
  {
    var sessionDir := SessionPath(destination, session);
    var dir := Join(sessionDir, labels.footages.value);
    var from := EntryPath(source, session, e.name);
    assert EntryPlan(source, destination, labels, session, e)
        == Run([EnsureDir(dir, true), EnsureDir(Join(dir, bucket), false), MoveFile(from, Join(Join(dir, bucket), e.name))], Completed)
    by {
      VideoIsNotImage(e.name);
      assert Classify(e.name, e.kind, labels) == Footage;
    }
    assert bucket != "" by {
      assert IsBucket(bucket);
    }
    assert dir == IntendedFootagesDir([destination, session], labels.footages);
    assert Join(dir, bucket) == dir + [bucket];
    assert Join(dir + [bucket], e.name) == dir + [bucket, e.name];
    if Enabled(labels.footages) {
      var f := labels.footages.value;
      assert dir == [destination, session, f];
      assert dir + [bucket] == [destination, session, f, bucket];
      assert dir + [bucket, e.name] == [destination, session, f, bucket, e.name];
    } else {
      assert dir == [destination, session];
      assert dir + [bucket] == [destination, session, bucket];
      assert dir + [bucket, e.name] == [destination, session, bucket, e.name];
    }
  }

  /** An unset footages label throws at the first video, before anything is done for it. */
  lemma UnsetFootagesThrows(source: string, destination: string, labels: Labels, session: string, e: Entry)
    requires !IsProject(e.kind, labels) && IsVideoName(e.name) && labels.footages.Unset?
    ensures EntryPlan(source, destination, labels, session, e) == Run([], Aborted(FootagesLabelUnreadable))
  {
    VideoIsNotImage(e.name);
  }

  // ---------------------------------------------------------------------
  // Folders are made sure of before anything is written into them

  /** The path an action writes to, when it needs its parent folder to exist. */
  predicate NeedsParent(a: Action) {
    a.MoveTree? || a.MoveFile? || (a.EnsureDir? && !a.recursive)
  }

  function Target(a: Action): Path
    requires NeedsParent(a)
  {
    if a.EnsureDir? then a.dir else a.to
  }

  /** Some action before position `k` makes sure of the folder that holds `acts[k]`'s target. */
  ghost predicate ParentReadyAt(acts: seq<Action>, k: nat)
    requires k < |acts| && NeedsParent(acts[k])
  {
    Target(acts[k]) != [] &&
    exists m :: 0 <= m < k && acts[m].EnsureDir? && acts[m].dir == Parent(Target(acts[k]))
  }

  /**
   * Every move and every non-recursive `mkdir` comes after a step that
   * made sure of its parent folder.
   */
  ghost predicate DirectoriesFirst(acts: seq<Action>) {
    forall k :: 0 <= k < |acts| && NeedsParent(acts[k]) ==> ParentReadyAt(acts, k)
  }

  lemma DirectoriesFirstAppend(a: seq<Action>, b: seq<Action>)
    requires DirectoriesFirst(a) && DirectoriesFirst(b)
    ensures DirectoriesFirst(a + b)
  {
    var ab := a + b;
    forall k | 0 <= k < |ab| && NeedsParent(ab[k]) ensures ParentReadyAt(ab, k) {
      if k < |a| {
        assert ab[k] == a[k] && ParentReadyAt(a, k);
        var m :| 0 <= m < k && a[m].EnsureDir? && a[m].dir == Parent(Target(a[k]));
        assert ab[m] == a[m];
      } else {
        assert ab[k] == b[k - |a|] && ParentReadyAt(b, k - |a|);
        var m :| 0 <= m < k - |a| && b[m].EnsureDir? && b[m].dir == Parent(Target(b[k - |a|]));
        assert ab[|a| + m] == b[m];
      }
    }
  }

  /** One folder made sure of, then a write into it. */
  lemma WriteAfterEnsure(dir: Path, a: Action)
    requires a.IsMove() && a.to != [] && Parent(a.to) == dir
    ensures DirectoriesFirst([EnsureDir(dir, true), a])
  {
    var acts := [EnsureDir(dir, true), a];
    assert acts[0].EnsureDir? && acts[0].dir == Parent(Target(acts[1]));
    assert ParentReadyAt(acts, 1);
  }

  /** A folder, a subfolder made without `recursive`, then a write into the subfolder. */
  lemma WriteAfterEnsureTwice(dir: Path, sub: string, a: Action)
    requires sub != "" && a.IsMove() && a.to != [] && Parent(a.to) == dir + [sub]
    ensures DirectoriesFirst([EnsureDir(dir, true), EnsureDir(dir + [sub], false), a])
  {
    var acts := [EnsureDir(dir, true), EnsureDir(dir + [sub], false), a];
    assert acts[0].EnsureDir? && acts[0].dir == Parent(Target(acts[1]));
    assert ParentReadyAt(acts, 1);
    assert acts[1].EnsureDir? && acts[1].dir == Parent(Target(acts[2]));
    assert ParentReadyAt(acts, 2);
  }

  lemma EntryDirectoriesFirst(source: string, destination: string, labels: Labels, session: string, e: Entry)
    requires e.name != ""
    ensures DirectoriesFirst(EntryPlan(source, destination, labels, session, e).actions)
  {
    var from := EntryPath(source, session, e.name);
    var sessionDir := SessionPath(destination, session);
    match Classify(e.name, e.kind, labels)
    case Project =>
      var dir := Join(sessionDir, labels.projects.value);
      WriteAfterEnsure(dir, MoveTree(from, Join(dir, e.name)));
    case Screenshot =>
      var dir := Join(sessionDir, labels.screenshots.value);
      WriteAfterEnsure(dir, MoveFile(from, Join(dir, e.name)));
    case NotVideo =>
    case Footage =>
      match FootagesDir(sessionDir, labels.footages)
      case None =>
      case Some(dir) =>
        match ExtractDate(e.name)
        case None =>
        case Some(bucket) =>
          assert IsBucket(bucket);
          WriteAfterEnsureTwice(dir, bucket, MoveFile(from, Join(Join(dir, bucket), e.name)));
  }

  lemma {:induction false} EntriesDirectoriesFirst(source: string, destination: string, labels: Labels, session: string, es: seq<Entry>)
    requires forall e :: e in es ==> e.name != ""
    ensures DirectoriesFirst(EntriesPlan(source, destination, labels, session, es).actions)
  {
    if es != [] {
      var prefix := es[..|es| - 1];
      assert forall e :: e in prefix ==> e in es;
      EntriesDirectoriesFirst(source, destination, labels, session, prefix);
      EntryDirectoriesFirst(source, destination, labels, session, es[|es| - 1]);
      DirectoriesFirstAppend(EntriesPlan(source, destination, labels, session, prefix).actions,
                             EntryPlan(source, destination, labels, session, es[|es| - 1]).actions);
    }
  }

  lemma {:induction false} SessionsDirectoriesFirst(source: string, destination: string, labels: Labels, ss: seq<Session>)
    requires WellFormed(ss)
    ensures DirectoriesFirst(SessionsPlan(source, destination, labels, ss).actions)
  {
    if ss != [] {
      var prefix := ss[..|ss| - 1];
      var s := ss[|ss| - 1];
      assert forall x :: x in prefix ==> x in ss;
      SessionsDirectoriesFirst(source, destination, labels, prefix);
      EntriesDirectoriesFirst(source, destination, labels, s.name, s.entries);
      DirectoriesFirstAppend(SessionsPlan(source, destination, labels, prefix).actions,
                             SessionPlan(source, destination, labels, s).actions);
    }
  }

  /**
   * In every run, whether it completes or throws, each move and each
   * non-recursive `mkdir` targets a folder made sure of earlier.
   */
  lemma MigrationDirectoriesFirst(cfg: Config, root: seq<Session>)
    requires WellFormed(root)
    ensures DirectoriesFirst(Migration(cfg, root).actions)
  {
    if Enabled(cfg.source) && Enabled(cfg.destination) && root != [] {
      SessionsDirectoriesFirst(cfg.source.value, cfg.destination.value, cfg.labels, root);
    }
  }

  // ---------------------------------------------------------------------
  // Moves stay inside their session and keep the entry's name

  /**
   * `a` moves entry `name` of session `session` from its place under the
   * source root to a place under `<destination>/<session>` ending in the
   * same name.
   */
  ghost predicate Relocates(a: Action, source: string, destination: string, session: string, name: string)
    requires a.IsMove()
  {
    && a.from == [source, session, name]
    && 3 <= |a.to| && a.to[..2] == [destination, session]
    && a.to[|a.to| - 1] == name
  }

  lemma EntryRelocates(source: string, destination: string, labels: Labels, session: string, e: Entry)
    requires source != "" && destination != "" && session != "" && e.name != ""
    ensures forall a :: a in EntryPlan(source, destination, labels, session, e).actions && a.IsMove() ==>
              Relocates(a, source, destination, session, e.name)
  {
    var r := EntryPlan(source, destination, labels, session, e);
    var c := Classify(e.name, e.kind, labels);
    if c == Project {
      ProjectRule(source, destination, labels, session, e);
    } else if c == Screenshot {
      ScreenshotRule(source, destination, labels, session, e);
    } else if c == NotVideo {
      NotVideoRule(source, destination, labels, session, e);
    } else if labels.footages.Unset? {
      UnsetFootagesThrows(source, destination, labels, session, e);
    } else if ExtractDate(e.name).None? {
      UndatedFootageRule(source, destination, labels, session, e);
    } else {
      var bucket := ExtractDate(e.name).value;
      DatedFootageRule(source, destination, labels, session, e, bucket);
    }
  }

  lemma {:induction false} EntriesRelocate(source: string, destination: string, labels: Labels, session: string, es: seq<Entry>)
    requires source != "" && destination != "" && session != ""
    requires forall e :: e in es ==> e.name != ""
    ensures forall a :: a in EntriesPlan(source, destination, labels, session, es).actions && a.IsMove() ==>
              exists e :: e in es && Relocates(a, source, destination, session, e.name)
  {
    if es != [] {
      var prefix, last := es[..|es| - 1], es[|es| - 1];
      assert forall e :: e in prefix ==> e in es;
      EntriesRelocate(source, destination, labels, session, prefix);
      EntryRelocates(source, destination, labels, session, last);
    }
  }

  lemma {:induction false} SessionsRelocate(source: string, destination: string, labels: Labels, ss: seq<Session>)
    requires source != "" && destination != "" && WellFormed(ss)
    ensures forall a :: a in SessionsPlan(source, destination, labels, ss).actions && a.IsMove() ==>
              exists s, e :: s in ss && s.kind == Directory && e in s.entries && Relocates(a, source, destination, s.name, e.name)
  {
    if ss != [] {
      var prefix, last := ss[..|ss| - 1], ss[|ss| - 1];
      assert forall s :: s in prefix ==> s in ss;
      SessionsRelocate(source, destination, labels, prefix);
      if last.kind == Directory && last.entries != [] {
        EntriesRelocate(source, destination, labels, last.name, last.entries);
      }
    }
  }

  /**
   * Every move of a run takes a listed entry of a listed session
   * directory and puts it under `<destination>/<session>`, keeping its name.
   */
  lemma MigrationRelocates(cfg: Config, root: seq<Session>)
    requires WellFormed(root)
    ensures forall a :: a in Migration(cfg, root).actions && a.IsMove() ==>
              exists s, e :: s in root && s.kind == Directory && e in s.entries &&
                             Relocates(a, cfg.source.value, cfg.destination.value, s.name, e.name)
  {
    if Enabled(cfg.source) && Enabled(cfg.destination) && root != [] {
      SessionsRelocate(cfg.source.value, cfg.destination.value, cfg.labels, root);
    }
  }

  // ---------------------------------------------------------------------
  // One decision per entry

  /** The number of moves and skips in `acts`: everything but `mkdir`s. */
  function Decisions(acts: seq<Action>): nat {
    if acts == [] then 0
    else Decisions(acts[..|acts| - 1]) + if acts[|acts| - 1].EnsureDir? then 0 else 1
  }

  lemma {:induction false} DecisionsAppend(a: seq<Action>, b: seq<Action>)
    ensures Decisions(a + b) == Decisions(a) + Decisions(b)
    decreases |b|
  {
    if b == [] {
      assert a + b == a;
    } else {
      var b' := b[..|b| - 1];
      assert (a + b)[..|a + b| - 1] == a + b';
      DecisionsAppend(a, b');
    }
  }

  lemma EntryOneDecision(source: string, destination: string, labels: Labels, session: string, e: Entry)
    requires EntryPlan(source, destination, labels, session, e).outcome == Completed
    ensures Decisions(EntryPlan(source, destination, labels, session, e).actions) == 1
  {
    var acts := EntryPlan(source, destination, labels, session, e).actions;
    OnlyMkdirsThenOne(acts);
  }

  /** `mkdir`s followed by one move or skip are one decision. */
  lemma OnlyMkdirsThenOne(acts: seq<Action>)
    requires acts != [] && !acts[|acts| - 1].EnsureDir?
    requires forall k :: 0 <= k < |acts| - 1 ==> acts[k].EnsureDir?
    ensures Decisions(acts) == 1
  {
    OnlyMkdirs(acts[..|acts| - 1]);
  }

  lemma {:induction false} OnlyMkdirs(acts: seq<Action>)
    requires forall k :: 0 <= k < |acts| ==> acts[k].EnsureDir?
    ensures Decisions(acts) == 0
  {
    if acts != [] {
      OnlyMkdirs(acts[..|acts| - 1]);
    }
  }

  lemma {:induction false} EntriesOneDecisionEach(source: string, destination: string, labels: Labels, session: string, es: seq<Entry>)
    requires EntriesPlan(source, destination, labels, session, es).outcome == Completed
    ensures Decisions(EntriesPlan(source, destination, labels, session, es).actions) == |es|
  {
    if es != [] {
      var prefix, last := es[..|es| - 1], es[|es| - 1];
      EntriesOneDecisionEach(source, destination, labels, session, prefix);
      EntryOneDecision(source, destination, labels, session, last);
      DecisionsAppend(EntriesPlan(source, destination, labels, session, prefix).actions,
                      EntryPlan(source, destination, labels, session, last).actions);
    }
  }

  /** One skip per root item that is not a non-empty directory, one decision per entry of the others. */
  function ExpectedDecisions(ss: seq<Session>): nat {
    if ss == [] then 0
    else
      var s := ss[|ss| - 1];
      ExpectedDecisions(ss[..|ss| - 1]) + if s.kind == Directory && s.entries != [] then |s.entries| else 1
  }

  lemma {:induction false} SessionsDecisions(source: string, destination: string, labels: Labels, ss: seq<Session>)
    requires SessionsPlan(source, destination, labels, ss).outcome == Completed
    ensures Decisions(SessionsPlan(source, destination, labels, ss).actions) == ExpectedDecisions(ss)
  {
    if ss != [] {
      var prefix, last := ss[..|ss| - 1], ss[|ss| - 1];
      SessionsDecisions(source, destination, labels, prefix);
      if last.kind == Directory && last.entries != [] {
        EntriesOneDecisionEach(source, destination, labels, last.name, last.entries);
      } else {
        assert Decisions([SessionPlan(source, destination, labels, last).actions[0]]) == 1 by {
          assert [SessionPlan(source, destination, labels, last).actions[0]][..0] == [];
        }
      }
      DecisionsAppend(SessionsPlan(source, destination, labels, prefix).actions,
                      SessionPlan(source, destination, labels, last).actions);
    }
  }

  /**
   * A completed run reports or moves every listed entry exactly once, and
   * reports every skipped session once.
   */
  lemma MigrationDecisions(cfg: Config, root: seq<Session>)
    requires Migration(cfg, root).outcome == Completed
    ensures Decisions(Migration(cfg, root).actions) == ExpectedDecisions(root)
  {
    SessionsDecisions(cfg.source.value, cfg.destination.value, cfg.labels, root);
  }

  // ---------------------------------------------------------------------
  // Entries are independent

  lemma ThenAssociative(a: Run, b: Run, c: Run)
    ensures Then(Then(a, b), c) == Then(a, Then(b, c))
  {
  }

  /**
   * Splitting a session's listing anywhere gives the same run: what happens
   * to an entry depends on that entry alone.
   */
  lemma {:induction false} EntriesIndependent(source: string, destination: string, labels: Labels, session: string, es1: seq<Entry>, es2: seq<Entry>)
    ensures EntriesPlan(source, destination, labels, session, es1 + es2)
         == Then(EntriesPlan(source, destination, labels, session, es1), EntriesPlan(source, destination, labels, session, es2))
    decreases |es2|
  {
    var first := EntriesPlan(source, destination, labels, session, es1);
    if es2 == [] {
      assert es1 + es2 == es1;
      EntriesThrowOnlyOnUnsetFootages(source, destination, labels, session, es1);
      assert first.outcome.Completed? ==> first.actions + [] == first.actions;
    } else {
      var init, last := es2[..|es2| - 1], es2[|es2| - 1];
      assert (es1 + es2)[..|es1 + es2| - 1] == es1 + init;
      assert (es1 + es2)[|es1 + es2| - 1] == last;
      EntriesIndependent(source, destination, labels, session, es1, init);
      ThenAssociative(first, EntriesPlan(source, destination, labels, session, init), EntryPlan(source, destination, labels, session, last));
    }
  }

  // ---------------------------------------------------------------------
  // Running again after a migration

  lemma {:induction false} EmptiedSessionsOnlyReported(source: string, destination: string, labels: Labels, ss: seq<Session>)
    requires forall s :: s in ss ==> s.kind == Directory && s.entries == []
    ensures SessionsPlan(source, destination, labels, ss).outcome == Completed
    ensures |SessionsPlan(source, destination, labels, ss).actions| == |ss|
    ensures forall a :: a in SessionsPlan(source, destination, labels, ss).actions ==> a.Skip? && a.reason == EmptyDirectory
  {
    if ss != [] {
      var prefix := ss[..|ss| - 1];
      assert forall s :: s in prefix ==> s in ss;
      EmptiedSessionsOnlyReported(source, destination, labels, prefix);
    }
  }

  /**
   * Once every session folder has been emptied, another run moves nothing
   * and makes no folder: it only reports each session as empty.
   */
  lemma RerunMovesNothing(cfg: Config, root: seq<Session>)
    requires Enabled(cfg.source) && Enabled(cfg.destination) && root != []
    requires forall s :: s in root ==> s.kind == Directory && s.entries == []
    ensures Migration(cfg, root).outcome == Completed
    ensures |Migration(cfg, root).actions| == |root|
    ensures forall a :: a in Migration(cfg, root).actions ==> a.Skip? && a.reason == EmptyDirectory
  {
    EmptiedSessionsOnlyReported(cfg.source.value, cfg.destination.value, cfg.labels, root);
  }

  // ---------------------------------------------------------------------
  // A worked run

  /** The actions of the four entries of the scenario below, one entry at a time. */
  lemma FourEntriesInOrder(source: string, destination: string, labels: Labels, session: string,
                           project: string, shot: string, clip: string, bucket: string, other: string)
    requires source != "" && destination != "" && session != ""
    requires project != "" && shot != "" && clip != "" && other != ""
    requires Enabled(labels.projects) && Enabled(labels.screenshots) && Enabled(labels.footages)
    requires IsImageName(shot)
    requires IsVideoName(clip) && ExtractDate(clip) == Some(bucket)
    requires !IsImageName(other) && !IsVideoName(other)
    ensures
      var es := [Entry(project, Directory), Entry(shot, File), Entry(clip, File), Entry(other, File)];
      var p, s, f := labels.projects.value, labels.screenshots.value, labels.footages.value;
      EntriesPlan(source, destination, labels, session, es)
      == Run([EnsureDir([destination, session, p], true),
              MoveTree([source, session, project], [destination, session, p, project]),
              EnsureDir([destination, session, s], true),
              MoveFile([source, session, shot], [destination, session, s, shot]),
              EnsureDir([destination, session, f], true),
              EnsureDir([destination, session, f, bucket], false),
              MoveFile([source, session, clip], [destination, session, f, bucket, clip]),
              Skip([source, session, other], NotAVideo)],
             Completed)
  {
    var es := [Entry(project, Directory), Entry(shot, File), Entry(clip, File), Entry(other, File)];
    ProjectRule(source, destination, labels, session, es[0]);
    ScreenshotRule(source, destination, labels, session, es[1]);
    DatedFootageRule(source, destination, labels, session, es[2], bucket);
    NotVideoRule(source, destination, labels, session, es[3]);
    var r0 := EntryPlan(source, destination, labels, session, es[0]);
    var r1 := EntryPlan(source, destination, labels, session, es[1]);
    var r2 := EntryPlan(source, destination, labels, session, es[2]);
    var r3 := EntryPlan(source, destination, labels, session, es[3]);
    assert es[..1] == [es[0]] && es[..2][..1] == es[..1] && es[..3][..2] == es[..2] && es[..3] == es[..|es| - 1];
    assert es[..1][..0] == [];
    assert EntriesPlan(source, destination, labels, session, es[..1]) == r0;
    assert EntriesPlan(source, destination, labels, session, es[..2]) == Then(r0, r1);
    assert EntriesPlan(source, destination, labels, session, es[..3]) == Then(Then(r0, r1), r2);
    assert EntriesPlan(source, destination, labels, session, es) == Then(Then(Then(r0, r1), r2), r3);
    assert Then(Then(Then(r0, r1), r2), r3).actions == r0.actions + r1.actions + r2.actions + r3.actions;
  }

  /**
   * A session with a project folder, a screenshot, a dated recording and
   * an unrelated file, with all three labels set: the first three are
   * moved into their folders, the last is reported and left in place.
   */
  lemma FourEntrySessionScenario(source: string, destination: string, labels: Labels, session: string,
                                 project: string, shot: string, clip: string, bucket: string, other: string)
    requires source != "" && destination != "" && session != ""
    requires project != "" && shot != "" && clip != "" && other != ""
    requires Enabled(labels.projects) && Enabled(labels.screenshots) && Enabled(labels.footages)
    requires IsImageName(shot)
    requires IsVideoName(clip) && ExtractDate(clip) == Some(bucket)
    requires !IsImageName(other) && !IsVideoName(other)
    ensures
      var es := [Entry(project, Directory), Entry(shot, File), Entry(clip, File), Entry(other, File)];
      var p, s, f := labels.projects.value, labels.screenshots.value, labels.footages.value;
      Migration(Config(Text(source), Text(destination), labels), [Session(session, Directory, es)])
      == Run([EnsureDir([destination, session, p], true),
              MoveTree([source, session, project], [destination, session, p, project]),
              EnsureDir([destination, session, s], true),
              MoveFile([source, session, shot], [destination, session, s, shot]),
              EnsureDir([destination, session, f], true),
              EnsureDir([destination, session, f, bucket], false),
              MoveFile([source, session, clip], [destination, session, f, bucket, clip]),
              Skip([source, session, other], NotAVideo)],
             Completed)
  {
    var es := [Entry(project, Directory), Entry(shot, File), Entry(clip, File), Entry(other, File)];
    FourEntriesInOrder(source, destination, labels, session, project, shot, clip, bucket, other);
    var sn := Session(session, Directory, es);
    assert [sn][..0] == [];
    assert SessionsPlan(source, destination, labels, [sn]) == Then(Run([], Completed), SessionPlan(source, destination, labels, sn));
  }
}
