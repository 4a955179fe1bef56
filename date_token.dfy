/**
 * The date bucket of a footage file name: the leftmost substring that
 * matches `\d{4}\.\d{2}\.\d{2}` (ASCII digits, literal dots). The date is
 * a grouping label and is not checked for being a real calendar date.
 */
module DateToken {
  import opened Wrappers

  /** What `\d` matches in a JavaScript regular expression without the `u` flag. */
  predicate IsDigit(c: char) {
    '0' <= c <= '9'
  }

  /** The ten characters of `s` starting at `i` match `\d{4}\.\d{2}\.\d{2}`. */
  predicate IsDateAt(s: string, i: nat) {
    && i + 10 <= |s|
    && IsDigit(s[i]) && IsDigit(s[i + 1]) && IsDigit(s[i + 2]) && IsDigit(s[i + 3])
    && s[i + 4] == '.'
    && IsDigit(s[i + 5]) && IsDigit(s[i + 6])
    && s[i + 7] == '.'
    && IsDigit(s[i + 8]) && IsDigit(s[i + 9])
  }

  /** `d` has the shape of a bucket: YYYY.MM.DD. */
  predicate IsBucket(d: string) {
    |d| == 10 && IsDateAt(d, 0)
  }

  /** A match starts at `i` and none starts further left. */
  ghost predicate IsLeftmostDateAt(s: string, i: nat) {
    IsDateAt(s, i) && forall j: nat :: j < i ==> !IsDateAt(s, j)
  }

  /** Scans `s` from position `from` for the first position where a date starts. */
  function FindDateFrom(s: string, from: nat): (r: Option<nat>)
    requires from <= |s|
    ensures r.Some? ==> from <= r.value && IsDateAt(s, r.value)
    ensures r.Some? ==> forall j: nat :: from <= j < r.value ==> !IsDateAt(s, j)
    ensures r.None? ==> forall j: nat :: from <= j ==> !IsDateAt(s, j)
    decreases |s| - from
  {
    if |s| < from + 10 then None
    else if IsDateAt(s, from) then Some(from)
    else FindDateFrom(s, from + 1)
  }

  /**
   * `name.match(/\d{4}\.\d{2}\.\d{2}/gim)[0]`, or None when `match`
   * returns null.
   */
  function ExtractDate(name: string): (r: Option<string>)
    ensures r.None? <==> forall i: nat :: !IsDateAt(name, i)
    ensures r.Some? ==> IsBucket(r.value)
    ensures r.Some? ==> exists i: nat :: IsLeftmostDateAt(name, i) && i + 10 <= |name| && r.value == name[i..i + 10]
  {
    match FindDateFrom(name, 0)
    case None => None
    case Some(i) =>
      var d := name[i..i + 10];
      assert IsDateAt(d, 0);
      assert IsLeftmostDateAt(name, i);
      Some(d)
  }

  /** The leftmost match is unique, so the bucket is determined by the name. */
  lemma LeftmostDateUnique(s: string, i: nat, j: nat)
    requires IsLeftmostDateAt(s, i) && IsLeftmostDateAt(s, j)
    ensures i == j
  {
  }

  /**
   * A bucket preceded only by non-digits is the one extracted, whatever
   * follows it (later dates and clip times included).
   */
  lemma {:induction false} BucketAfterNonDigits(prefix: string, d: string, rest: string)
    requires forall k :: 0 <= k < |prefix| ==> !IsDigit(prefix[k])
    requires IsBucket(d)
    ensures ExtractDate(prefix + d + rest) == Some(d)
  {
    var s := prefix + d + rest;
    var n := |prefix|;
    forall j: nat | j < n ensures !IsDateAt(s, j) {
      assert s[j] == prefix[j];
    }
    forall k | 0 <= k < 10 ensures s[n + k] == d[k] {
    }
    assert IsLeftmostDateAt(s, n);
    assert s[n..n + 10] == d;
    var r := ExtractDate(s);
    var i: nat :| IsLeftmostDateAt(s, i) && i + 10 <= |s| && r.value == s[i..i + 10];
    LeftmostDateUnique(s, i, n);
  }

  /** The worked example of the source: the clip time `21.11.01.02` is not a date. */
  lemma ShadowplayNameExample()
    ensures ExtractDate("Valorant 2024.01.05 - 21.11.01.02.mp4") == Some("2024.01.05")
  {
    var prefix, d, rest := "Valorant ", "2024.01.05", " - 21.11.01.02.mp4";
    assert prefix + d + rest == "Valorant 2024.01.05 - 21.11.01.02.mp4";
    BucketAfterNonDigits(prefix, d, rest);
  }
}
