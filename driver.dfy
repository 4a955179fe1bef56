/**
 * The migration driver: the configuration checks run when the module is
 * loaded, then `initiate` walks the source root session by session and
 * entry by entry, appending what it does to a list of actions.
 */
module Driver {
  import opened Classifier
  import opened Destination
  import opened Plan

  /**
   * The body of the outer loop of `initiate`: a session that is not a
   * directory or is empty is skipped, otherwise its entries are processed
   * in listing order until one throws.
   */
  method ProcessSession(source: string, destination: string, labels: Labels, s: Session)
    returns (step: Run)
    ensures step == SessionPlan(source, destination, labels, s)
  {
    if s.kind != Directory {
      return Run([Skip(SessionPath(source, s.name), NotADirectory)], Completed);
    }
    if |s.entries| == 0 {
      return Run([Skip(SessionPath(source, s.name), EmptyDirectory)], Completed);
    }
    var actions: seq<Action> := [];
    for j := 0 to |s.entries|
      invariant EntriesPlan(source, destination, labels, s.name, s.entries[..j]) == Run(actions, Completed)
    {
      var entryStep := EntryPlan(source, destination, labels, s.name, s.entries[j]);
      EntriesPlanSnoc(source, destination, labels, s.name, s.entries, j);
      actions := actions + entryStep.actions;
      if entryStep.outcome.Aborted? {
        EntriesAbortIsFinal(source, destination, labels, s.name, s.entries, j + 1);
        return Run(actions, entryStep.outcome);
      }
    }
    assert s.entries[..|s.entries|] == s.entries;
    return Run(actions, Completed);
  }

  /** The configuration checks, then `initiate`. */
  method Migrate(cfg: Config, root: seq<Session>) returns (run: Run)
    ensures run == Migration(cfg, root)
  {
    if !Enabled(cfg.source) {
      return Run([], Aborted(SourceMissing));
    }
    if !Enabled(cfg.destination) {
      return Run([], Aborted(TargetMissing));
    }
    var source, destination, labels := cfg.source.value, cfg.destination.value, cfg.labels;
    if |root| == 0 {
      return Run([], Aborted(NoDirectories));
    }
    var actions: seq<Action> := [];
    for i := 0 to |root|
      invariant SessionsPlan(source, destination, labels, root[..i]) == Run(actions, Completed)
    {
      var sessionStep := ProcessSession(source, destination, labels, root[i]);
      SessionsPlanSnoc(source, destination, labels, root, i);
      actions := actions + sessionStep.actions;
      if sessionStep.outcome.Aborted? {
        SessionsAbortIsFinal(source, destination, labels, root, i + 1);
        return Run(actions, sessionStep.outcome);
      }
    }
    assert root[..|root|] == root;
    return Run(actions, Completed);
  }
}
