/** The file name of the exported 30-day plan (App.tsx, handleDownloadPdf and
    handleDownloadHtml): the topic with `topic.replace(/\s+/g, '_')` applied. */
module FileName {
  import opened Text

  /** The global replacement scanning `s` left to right; `inRun` says whether
      the character before `s` was whitespace already replaced. The first
      whitespace character of a run emits `_` and the greedy `\s+` swallows the
      rest of the run. */
  function ReplaceScan(s: string, inRun: bool): (r: string)
    ensures NoSpace(r)
    ensures |r| <= |s|
  {
    if s == [] then ""
    else
      UnderscoreIsNotSpace();
      var rest := ReplaceScan(s[1..], IsSpace(s[0]));
      var emitted := if !IsSpace(s[0]) then [s[0]] else if inRun then "" else "_";
      assert forall i :: |emitted| <= i < |emitted| + |rest| ==> (emitted + rest)[i] == rest[i - |emitted|];
      emitted + rest
  }

  /** `s.replace(/\s+/g, '_')`. */
  function ReplaceWhitespaceRuns(s: string): (r: string)
    ensures NoSpace(r)
    ensures |r| <= |s|
  {
    ReplaceScan(s, false)
  }

  lemma UnderscoreIsNotSpace()
    ensures !IsSpace('_')
  {
    assert !InRanges(95, SpaceRanges);
  }

  /** A string without whitespace passes through unchanged. */
  lemma {:induction false} NoSpaceUnchanged(s: string, inRun: bool)
    requires NoSpace(s)
    ensures ReplaceScan(s, inRun) == s
  {
    if s != [] {
      NoSpaceUnchanged(s[1..], false);
    }
  }

  /** Replacing twice gives the same name as replacing once. */
  lemma ReplaceIdempotent(s: string)
    ensures ReplaceWhitespaceRuns(ReplaceWhitespaceRuns(s)) == ReplaceWhitespaceRuns(s)
  {
    NoSpaceUnchanged(ReplaceWhitespaceRuns(s), false);
  }

  /** Inside a run, further whitespace emits nothing. */
  lemma {:induction false} RestOfRunVanishes(w: string)
    requires AllSpace(w)
    ensures ReplaceScan(w, true) == ""
  {
    if w != [] {
      RestOfRunVanishes(w[1..]);
    }
  }

  /** A whole run of whitespace becomes exactly one `_`. */
  lemma RunBecomesOneUnderscore(w: string)
    requires w != [] && AllSpace(w)
    ensures ReplaceWhitespaceRuns(w) == "_"
  {
    RestOfRunVanishes(w[1..]);
  }

  /** Whether the scan is inside a whitespace run after reading `s`. */
  function InRunAfter(s: string, inRun: bool): bool {
    if s == [] then inRun else IsSpace(s[|s| - 1])
  }

  /** The scan of `a + b` is the scan of `a` followed by the scan of `b`
      started in the state `a` leaves behind. */
  lemma {:induction false} ScanAppend(a: string, b: string, inRun: bool)
    ensures ReplaceScan(a + b, inRun) == ReplaceScan(a, inRun) + ReplaceScan(b, InRunAfter(a, inRun))
  {
    if a == [] {
      assert a + b == b;
    } else {
      assert (a + b)[0] == a[0] && (a + b)[1..] == a[1..] + b;
      ScanAppend(a[1..], b, IsSpace(a[0]));
      assert InRunAfter(a[1..], IsSpace(a[0])) == InRunAfter(a, inRun) by {
        if |a| > 1 { assert a[1..][|a| - 2] == a[|a| - 1]; }
      }
    }
  }

  /** The replacement works run by run: cutting the input where no whitespace run
      straddles the cut cuts the output at the same place. Together with
      RunBecomesOneUnderscore and NoSpaceUnchanged this determines the output
      for every input. */
  lemma ReplaceSplitsBetweenRuns(a: string, b: string)
    requires a == [] || b == [] || !IsSpace(a[|a| - 1]) || !IsSpace(b[0])
    ensures ReplaceWhitespaceRuns(a + b) == ReplaceWhitespaceRuns(a) + ReplaceWhitespaceRuns(b)
  {
    ScanAppend(a, b, false);
  }
}
