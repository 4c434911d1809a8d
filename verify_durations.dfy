/**
 * verify_durations.py: compares the duration of an original recording
 * with the sum of the durations of its chunk files. What `ffprobe` reports
 * for a path (None when the probe fails or prints no number) is supplied;
 * the directory listing is supplied too (None when the directory does not
 * exist). A run that exits with status 1 yields None.
 */
module VerifyDurations {

  import opened Wrappers
  import opened Strings
  import opened Sorting

  /** The entries whose name starts with `prefix` and ends with `ext`, in
      their original order. */
  function Matching(names: seq<string>, prefix: string, ext: string): (r: seq<string>)
    ensures |r| <= |names|
  {
    if |names| == 0 then []
    else
      var rest := Matching(names[1..], prefix, ext);
      if StartsWith(names[0], prefix) && EndsWith(names[0], ext) then [names[0]] + rest else rest
  }

  lemma {:induction false} MatchingSelects(names: seq<string>, prefix: string, ext: string)
    ensures forall f :: f in Matching(names, prefix, ext) <==> f in names && StartsWith(f, prefix) && EndsWith(f, ext)
  {
    if |names| > 0 {
      MatchingSelects(names[1..], prefix, ext);
      assert names == [names[0]] + names[1..];
    }
  }

  /** The chunk files: the matching entries in code point order. */
  function ChunkFiles(listing: seq<string>, prefix: string, ext: string): (files: seq<string>)
    ensures multiset(files) == multiset(Matching(listing, prefix, ext))
    ensures SortedBy(files, StringLeq)
  {
    StringOrderIsTotalPreorder();
    Sort(Matching(listing, prefix, ext), StringLeq)
  }

  /** Whether a probed duration is taken into the total. */
  predicate Usable(d: Option<real>)
  {
    d.Some? && d.value > 0.0
  }

  /** The sum of the usable durations. */
  function UsableSum(durations: seq<Option<real>>): real
  {
    if |durations| == 0 then 0.0
    else
      var last := durations[|durations| - 1];
      UsableSum(durations[..|durations| - 1]) + (if Usable(last) then last.value else 0.0)
  }

  /** How many durations are usable. */
  function UsableCount(durations: seq<Option<real>>): (n: nat)
    ensures n <= |durations|
  {
    if |durations| == 0 then 0
    else UsableCount(durations[..|durations| - 1]) + (if Usable(durations[|durations| - 1]) then 1 else 0)
  }

  /** The total is never negative, and it is positive exactly when some
      chunk was usable. */
  lemma {:induction false} UsableSumSign(durations: seq<Option<real>>)
    ensures UsableSum(durations) >= 0.0
    ensures UsableSum(durations) > 0.0 <==> UsableCount(durations) > 0
  {
    if |durations| > 0 {
      UsableSumSign(durations[..|durations| - 1]);
    }
  }

  /** When every chunk is usable the total is the plain sum. */
  function Sum(values: seq<real>): real
  {
    if |values| == 0 then 0.0 else Sum(values[..|values| - 1]) + values[|values| - 1]
  }

  lemma {:induction false} AllUsableSumsAll(values: seq<real>)
    requires forall i :: 0 <= i < |values| ==> values[i] > 0.0
    ensures UsableSum(seq(|values|, i requires 0 <= i < |values| => Some(values[i]))) == Sum(values)
    ensures UsableCount(seq(|values|, i requires 0 <= i < |values| => Some(values[i]))) == |values|
  {
    var ds := seq(|values|, i requires 0 <= i < |values| => Some(values[i]));
    if |values| > 0 {
      var init := values[..|values| - 1];
      AllUsableSumsAll(init);
      assert ds[..|ds| - 1] == seq(|init|, i requires 0 <= i < |init| => Some(init[i]));
    }
  }

  /** The scan of the chunk files: every file is counted once, as a
      success or as a failure, and the total is the sum of the usable
      durations. */
  method AccumulateDurations(durations: seq<Option<real>>)
    returns (total: real, chunkCount: nat, failedChunks: nat)
    ensures total == UsableSum(durations)
    ensures chunkCount == UsableCount(durations)
    ensures chunkCount + failedChunks == |durations|
  {
    total, chunkCount, failedChunks := 0.0, 0, 0;
    for i := 0 to |durations|
      invariant total == UsableSum(durations[..i])
      invariant chunkCount == UsableCount(durations[..i])
      invariant chunkCount + failedChunks == i
    {
      assert durations[..i + 1][..i] == durations[..i];
      var duration := durations[i];
      if duration.Some? && duration.value > 0.0 {
        total := total + duration.value;
        chunkCount := chunkCount + 1;
      } else {
        failedChunks := failedChunks + 1;
      }
    }
    assert durations[..|durations|] == durations;
  }

  datatype Verdict = Consistent | Greater | Less

  /** The conclusion drawn from the difference between the chunks' total
      and the original. */
  function VerdictOf(difference: real): (v: Verdict)
    ensures v == Consistent <==> -0.1 < difference < 0.1
    ensures v == Greater <==> difference >= 0.1
    ensures v == Less <==> difference <= -0.1
  {
    var magnitude := if difference < 0.0 then -difference else difference;
    if magnitude < 0.1 then Consistent
    else if difference > 0.0 then Greater
    else Less
  }

  datatype Report = Report(chunkCount: nat, failedChunks: nat, total: real, difference: real, verdict: Verdict)

  /** The durations probed for the chunk files, in order. */
  function ProbedDurations(chunkDir: string, files: seq<string>, duration: string -> Option<real>)
    : (ds: seq<Option<real>>)
    ensures |ds| == |files|
  {
    seq(|files|, i requires 0 <= i < |files| => duration(Join(chunkDir, files[i])))
  }

  /** `main`: the whole comparison; None when it exits with status 1. */
  method VerifyChunkDurations(originalFile: string, chunkDir: string, listing: Option<seq<string>>, prefix: string, ext: string,
                              duration: string -> Option<real>)
    returns (report: Option<Report>)
    ensures report.Some? <==>
              duration(originalFile).Some? && listing.Some? && |ChunkFiles(listing.value, prefix, ext)| > 0
    ensures report.Some? ==>
              var files := ChunkFiles(listing.value, prefix, ext);
              var ds := ProbedDurations(chunkDir, files, duration);
              report.value.total == UsableSum(ds) &&
              report.value.chunkCount == UsableCount(ds) &&
              report.value.chunkCount + report.value.failedChunks == |files| &&
              report.value.difference == report.value.total - duration(originalFile).value &&
              report.value.verdict == VerdictOf(report.value.difference)
  {
    var original := duration(originalFile);
    if original.None? {
      return None;
    }
    if listing.None? {
      return None;
    }
    var files := ChunkFiles(listing.value, prefix, ext);
    if |files| == 0 {
      return None;
    }
    var ds := ProbedDurations(chunkDir, files, duration);
    var total, chunkCount, failedChunks := AccumulateDurations(ds);
    var difference := total - original.value;
    report := Some(Report(chunkCount, failedChunks, total, difference, VerdictOf(difference)));
  }
}
