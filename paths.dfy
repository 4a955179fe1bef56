/**
 * Paths as sequences of segments, with the part of `path.join` the
 * migration relies on: joining an empty string adds nothing.
 */
module Paths {
  /** A path is the list of its segments; `[]` stands for `"."`. */
  type Path = seq<string>

  /** `path.join(p, segment)` for a segment without separators. */
  function Join(p: Path, segment: string): Path {
    if segment == "" then p else p + [segment]
  }

  /** The directory that holds `p`. */
  function Parent(p: Path): Path
    requires p != []
  {
    p[..|p| - 1]
  }

  /** Joining the empty string changes nothing; joining anything else adds exactly one segment. */
  lemma JoinExtends(p: Path, segment: string)
    ensures p <= Join(p, segment) && |Join(p, segment)| <= |p| + 1
    ensures Join(p, segment) == p <==> segment == ""
  {
  }

  /** `Parent` undoes the join of a non-empty segment, which ends the joined path. */
  lemma ParentOfJoin(p: Path, segment: string)
    requires segment != ""
    ensures Parent(Join(p, segment)) == p
    ensures Join(p, segment)[|Join(p, segment)| - 1] == segment
  {
  }
}
