/**
 * Destination resolution: pure path arithmetic over the configured roots,
 * the session name and the subfolder labels.
 */
module Destination {
  import opened Wrappers
  import opened Paths
  import opened Classifier

  /** `path.join(root, session)`: a session folder under either root. */
  function SessionPath(root: string, session: string): (r: Path)
    ensures root != "" && session != "" ==> r == [root, session]
  {
    Join(Join([], root), session)
  }

  /** `path.join(root, session, name)`: where an entry of a session lives. */
  function EntryPath(root: string, session: string, name: string): (r: Path)
    ensures root != "" && session != "" && name != "" ==> r == [root, session, name]
  {
    Join(SessionPath(root, session), name)
  }

  /**
   * The footages folder of a session as written: the test
   * `typeof footages === "string" || footages.length > 0` takes the join
   * branch for every string, the empty one included, and reading `length`
   * of an unset label throws, which None stands for.
   */
  function FootagesDir(sessionDir: Path, footages: Setting): (r: Option<Path>)
    ensures r.None? <==> footages.Unset?
    ensures r.Some? ==> sessionDir <= r.value && |r.value| <= |sessionDir| + 1
    ensures r.Some? && Enabled(footages) ==> r.value == sessionDir + [footages.value]
    ensures footages == Text("") ==> r == Some(sessionDir)
  {
    match footages
    case Unset => None
    case Text(folder) => Some(Join(sessionDir, folder))
  }

  /**
   * The footages folder the `&&` reading of the test gives: the label's
   * subfolder when it is a non-empty string, else the session folder.
   */
  function IntendedFootagesDir(sessionDir: Path, footages: Setting): (r: Path)
    ensures Enabled(footages) ==> r == sessionDir + [footages.value]
    ensures !Enabled(footages) ==> r == sessionDir
  {
    if Enabled(footages) then Join(sessionDir, footages.value) else sessionDir
  }

  /**
   * For every string label the `||` test resolves to the intended folder,
   * because joining the empty string adds nothing; the two differ only
   * for an unset label, where the source throws.
   */
  lemma FootagesDirAsIntendedForStrings(sessionDir: Path, footages: Setting)
    ensures footages.Text? <==> FootagesDir(sessionDir, footages) == Some(IntendedFootagesDir(sessionDir, footages))
  {
  }
}
