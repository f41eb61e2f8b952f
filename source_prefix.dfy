/** `source.split("# Write to file")[0]` of scripts/generate_template_json.py: the text of template.py
    before its file-write block. */
module SourcePrefix {
  import opened Json

  /** The comment that opens template.py's file-write block (template.py:877). */
  const WriteMarker: string := "# Write to file"

  /** `marker` occurs in `s` starting at index `i`. */
  predicate OccursAt(s: string, marker: string, i: int) {
    0 <= i && i + |marker| <= |s| && s[i..i + |marker|] == marker
  }

  predicate Contains(s: string, marker: string) {
    exists i | 0 <= i <= |s| :: OccursAt(s, marker, i)
  }

  /** The first index at or after `from` where `marker` occurs in `s`, if any. */
  function FindFrom(s: string, marker: string, from: nat): (r: Option<nat>)
    requires from <= |s|
    ensures r.Some? ==> from <= r.value <= |s| && OccursAt(s, marker, r.value)
    ensures r.Some? ==> forall j | from <= j < r.value :: !OccursAt(s, marker, j)
    ensures r.None? ==> forall j | from <= j <= |s| :: !OccursAt(s, marker, j)
    decreases |s| - from
  {
    if OccursAt(s, marker, from) then Some(from)
    else if from == |s| then None
    else FindFrom(s, marker, from + 1)
  }

  /** `s.split(marker)[0]`: everything before the first occurrence of `marker`, or all of `s` when
      `marker` does not occur. Python rejects an empty separator. */
  function HeadBefore(s: string, marker: string): string
    requires marker != ""
  {
    match FindFrom(s, marker, 0)
    case Some(i) => s[..i]
    case None => s
  }

  /** The head is a prefix of the source and never contains the marker; it is the whole source
      exactly when the marker is absent, and otherwise the marker follows it directly and starts
      at no earlier index of the source. */
  lemma HeadBeforeSpec(s: string, marker: string)
    requires marker != ""
    ensures var h := HeadBefore(s, marker);
      && h <= s
      && !Contains(h, marker)
      && (h == s <==> !Contains(s, marker))
      && (Contains(s, marker) ==> OccursAt(s, marker, |h|))
      && (forall j | 0 <= j < |h| :: !OccursAt(s, marker, j))
  {
    var h := HeadBefore(s, marker);
    match FindFrom(s, marker, 0)
    case Some(i) =>
      assert h == s[..i];
      forall j | 0 <= j <= |h| && OccursAt(h, marker, j) ensures OccursAt(s, marker, j) {
        assert h[j..j + |marker|] == s[j..j + |marker|];
      }
      assert Contains(s, marker);
      assert |h| < |s|;
    case None =>
      assert !Contains(s, marker);
  }
}
