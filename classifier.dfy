/**
 * The classification of one entry of a capture session. The rules are
 * tried in the order the source writes them and the first that applies
 * wins; the suffix tests compare characters exactly (case-sensitive) and
 * the screenshot and video tests never look at the entry's kind.
 */
module Classifier {
  /** What `stat(...).isDirectory()` reports about an entry. */
  datatype Kind = File | Directory

  /**
   * A configuration value: `Unset` is `undefined` or `null`, `Text` a
   * JavaScript string.
   */
  datatype Setting = Unset | Text(value: string)

  /** The subfolder labels of the configuration. */
  datatype Labels = Labels(projects: Setting, screenshots: Setting, footages: Setting)

  /** `typeof s === "string" && s.length > 0` */
  predicate Enabled(s: Setting) {
    s.Text? && |s.value| > 0
  }

  /** `name.endsWith(suffix)` */
  predicate EndsWith(name: string, suffix: string) {
    |suffix| <= |name| && name[|name| - |suffix|..] == suffix
  }

  predicate IsImageName(name: string) {
    EndsWith(name, ".png") || EndsWith(name, ".jpeg") || EndsWith(name, ".jpg")
  }

  predicate IsVideoName(name: string) {
    EndsWith(name, ".mp4")
  }

  datatype Category =
    | Project     // moved as a whole tree into the projects folder
    | Screenshot  // moved into the screenshots folder
    | NotVideo    // left in place: "the file is not a video"
    | Footage     // moved into a date bucket of the footages folder

  /** The directory rule of the source: it wins over every suffix rule. */
  predicate IsProject(kind: Kind, labels: Labels) {
    kind == Directory && Enabled(labels.projects)
  }

  /** No name is both a video name and an image name. */
  lemma VideoIsNotImage(name: string)
    requires IsVideoName(name)
    ensures !IsImageName(name)
  {
    var n := |name|;
    assert name[n - 1] == name[n - 4..][3] == '4';
  }

  /** Decides what happens to an entry named `name` of the given kind. */
  function Classify(name: string, kind: Kind, labels: Labels): (c: Category)
    ensures c == Project <==> IsProject(kind, labels)
    ensures c == Footage <==> !IsProject(kind, labels) && IsVideoName(name)
    ensures c == Screenshot ==> IsImageName(name) && Enabled(labels.screenshots)
    ensures c == NotVideo ==> !IsVideoName(name)
  {
    if IsProject(kind, labels) then Project
    else if Enabled(labels.screenshots) && IsImageName(name) then Screenshot
    else if !IsVideoName(name) then NotVideo
    else
      VideoIsNotImage(name);
      Footage
  }

  /** An image name that is not a project is a screenshot exactly when the label is set. */
  lemma ImageRule(name: string, kind: Kind, labels: Labels)
    requires IsImageName(name) && !IsProject(kind, labels)
    ensures Classify(name, kind, labels) == Screenshot <==> Enabled(labels.screenshots)
    ensures Classify(name, kind, labels) != Screenshot ==> Classify(name, kind, labels) == NotVideo
  {
    if !Enabled(labels.screenshots) {
      if IsVideoName(name) {
        VideoIsNotImage(name);
      }
    }
  }

  /** The suffix tests are case-sensitive: an upper-case extension is not a video. */
  lemma UpperCaseVideoIsSkipped(labels: Labels)
    ensures Classify("X.MP4", File, labels) == NotVideo
  {
    assert "X.MP4"[1..] == ".MP4";
    assert !IsImageName("X.MP4");
  }

  /** A directory named like an image is a screenshot when no projects label is set. */
  lemma DirectoryNamedLikeImage(labels: Labels)
    requires !Enabled(labels.projects) && Enabled(labels.screenshots)
    ensures Classify("a.png", Directory, labels) == Screenshot
  {
    assert "a.png"[1..] == ".png";
  }
}
