/**
 * The segment planner and chunk exporter of split_audio.py: silence
 * intervals are read from the media tool's diagnostic lines, their
 * midpoints become preferred cut points, forced cuts keep every chunk
 * within the maximum length, and each span between cut points is
 * exported as a numbered chunk file. The media tool itself (duration
 * probe, silence filter, extraction) is replaced by supplied values.
 */
module SplitAudio {

  import opened Wrappers
  import opened Strings

  const MaxChunkLengthSec: real := 300.0
  const MinSilenceLengthSec: real := 0.5
  const SilenceThreshDb: int := -40
  /** A boundary no more than this far past the current chunk start is skipped. */
  const MinChunkSec: real := 0.1

  const StartKey: string := "silence_start: "
  const EndKey: string := "silence_end: "

  datatype Silence = Silence(start: real, end: real)

  function Midpoint(s: Silence): real
  {
    (s.start + s.end) / 2.0
  }

  function Midpoints(silences: seq<Silence>): (mids: seq<real>)
    ensures |mids| == |silences|
    ensures forall i :: 0 <= i < |silences| ==> mids[i] == Midpoint(silences[i])
  {
    seq(|silences|, i requires 0 <= i < |silences| => Midpoint(silences[i]))
  }

  // =====================================================================
  // Silence detection: a two-state fold over the diagnostic lines
  // =====================================================================

  /** Length of the run of digits at the front of `s`. */
  function LeadingDigits(s: string): (n: nat)
    ensures n <= |s| && AllDigits(s[..n])
    ensures n < |s| ==> !IsDigit(s[n])
  {
    if |s| > 0 && IsDigit(s[0]) then
      var n := 1 + LeadingDigits(s[1..]);
      assert s[..n] == [s[0]] + s[1..][..n - 1];
      n
    else 0
  }

  /** `s[p..q]` is a maximal run of digits: all of it is digits and
      `s[q]`, if there is one, is not. */
  predicate DigitRun(s: string, p: nat, q: nat)
  {
    p <= q <= |s| && (forall k :: p <= k < q ==> IsDigit(s[k])) && (q < |s| ==> !IsDigit(s[q]))
  }

  lemma DigitRunUnique(s: string, p: nat, q: nat, q': nat)
    requires DigitRun(s, p, q) && DigitRun(s, p, q')
    ensures q == q'
  {
  }

  /** `\d+\.?\d*` matched greedily at the front of `s` and read by
      `float`: the digit run, then, when a '.' follows it, the digit run
      after the '.' as the fraction. */
  function LeadingNumber(s: string): (v: real)
    ensures v >= 0.0
  {
    var n := LeadingDigits(s);
    var after := s[n..];
    var frac := if |after| > 0 && after[0] == '.' then after[1..][..LeadingDigits(after[1..])] else [];
    DecimalValue(s[..n], frac)
  }

  /** The text the greedy `\d+\.?\d*` takes at the front of `s`: the
      digits `s[..n]` (at least one), and, exactly when a '.' follows them,
      that '.' and the digits `s[n + 1..m]`; without a '.', `m == n`. */
  predicate NumberLayout(s: string, n: nat, m: nat)
  {
    && 0 < n && DigitRun(s, 0, n)
    && if n < |s| && s[n] == '.' then DigitRun(s, n + 1, m) else m == n
  }

  /** `LeadingDigits` from `p` ends a maximal run of digits. */
  lemma LeadingDigitsRun(s: string, p: nat)
    requires p <= |s|
    ensures DigitRun(s, p, p + LeadingDigits(s[p..]))
  {
    var j := LeadingDigits(s[p..]);
    assert forall k :: p <= k < p + j ==> s[k] == s[p..][..j][k - p];
    assert p + j < |s| ==> s[p + j] == s[p..][j];
  }

  /** `LeadingNumber` reads the integer digits and the fraction digits of
      the greedy match. */
  lemma LeadingNumberIs(s: string, n: nat, m: nat)
    requires NumberLayout(s, n, m)
    ensures AllDigits(s[..n]) && (m > n ==> AllDigits(s[n + 1..m]))
    ensures LeadingNumber(s) == DecimalValue(s[..n], if m > n then s[n + 1..m] else [])
  {
    assert s[0..] == s;
    LeadingDigitsRun(s, 0);
    DigitRunUnique(s, 0, LeadingDigits(s), n);
    if n < |s| && s[n] == '.' {
      assert s[n..][1..] == s[n + 1..];
      LeadingDigitsRun(s, n + 1);
      DigitRunUnique(s, n + 1, n + 1 + LeadingDigits(s[n + 1..]), m);
      assert s[n + 1..][..m - (n + 1)] == s[n + 1..m];
    }
  }

  /** `key` occurs at `i` and a digit follows it. */
  predicate KeyThenDigitAt(line: string, key: string, i: nat)
  {
    i + |key| < |line| && line[i..i + |key|] == key && IsDigit(line[i + |key|])
  }

  /** `re.search(key + r'(\d+\.?\d*)', line)` followed by `float` of the
      group: the number written directly after the leftmost occurrence of
      `key` that is followed by a digit. */
  function SearchKeyedNumber(line: string, key: string): (r: Option<real>)
    ensures r.Some? ==> Contains(line, key) && r.value >= 0.0
    decreases |line|
  {
    if key <= line && |key| < |line| && IsDigit(line[|key|]) then Some(LeadingNumber(line[|key|..]))
    else if |line| == 0 then None
    else SearchKeyedNumber(line[1..], key)
  }

  /** Dropping the first character moves every occurrence one place left. */
  lemma KeyThenDigitShift(line: string, key: string, i: nat)
    requires |line| > 0
    ensures KeyThenDigitAt(line, key, i + 1) <==> KeyThenDigitAt(line[1..], key, i)
  {
    if i + 1 + |key| < |line| {
      assert line[1..][i..i + |key|] == line[i + 1..i + 1 + |key|];
    }
  }

  /** The search finds a number exactly when the key occurs followed by a
      digit, and it reads the number after the leftmost such occurrence. */
  lemma {:induction false} SearchKeyedNumberLeftmost(line: string, key: string)
    ensures SearchKeyedNumber(line, key).Some? <==> exists i: nat :: KeyThenDigitAt(line, key, i)
    ensures forall i: nat :: KeyThenDigitAt(line, key, i) && (forall j: nat :: j < i ==> !KeyThenDigitAt(line, key, j)) ==>
              SearchKeyedNumber(line, key) == Some(LeadingNumber(line[i + |key|..]))
    decreases |line|
  {
    if key <= line && |key| < |line| && IsDigit(line[|key|]) {
      assert line[0..|key|] == key;
      assert KeyThenDigitAt(line, key, 0);
    } else if |line| > 0 {
      assert !KeyThenDigitAt(line, key, 0) by {
        if |key| < |line| && line[0..|key|] == key {
          assert key <= line;
        }
      }
      var tail := line[1..];
      SearchKeyedNumberLeftmost(tail, key);
      forall i: nat ensures KeyThenDigitAt(line, key, i + 1) <==> KeyThenDigitAt(tail, key, i) {
        KeyThenDigitShift(line, key, i);
      }
      if exists i: nat :: KeyThenDigitAt(line, key, i) {
        var i: nat :| KeyThenDigitAt(line, key, i);
        assert KeyThenDigitAt(tail, key, i - 1);
      }
      forall i: nat | KeyThenDigitAt(line, key, i) && (forall j: nat :: j < i ==> !KeyThenDigitAt(line, key, j))
        ensures SearchKeyedNumber(line, key) == Some(LeadingNumber(line[i + |key|..]))
      {
        assert KeyThenDigitAt(tail, key, i - 1);
        forall j: nat | j < i - 1 ensures !KeyThenDigitAt(tail, key, j) {
          assert !KeyThenDigitAt(line, key, j + 1);
        }
        assert tail[i - 1 + |key|..] == line[i + |key|..];
      }
    }
  }

  function StartOn(line: string): Option<real> { SearchKeyedNumber(line, StartKey) }

  function EndOn(line: string): Option<real> { SearchKeyedNumber(line, EndKey) }

  /** The pending start (`current_start`) once the first `k` lines are read. */
  ghost function PendingAfter(lines: seq<string>, k: nat): Option<real>
    requires k <= |lines|
    decreases k, 0
  {
    if k == 0 then None
    else if EndOn(lines[k - 1]).Some? then None
    else PendingAt(lines, k - 1)
  }

  /** The pending start when the end marker of line `k` is examined: a start
      marker on the same line has already replaced it. */
  ghost function PendingAt(lines: seq<string>, k: nat): Option<real>
    requires k < |lines|
    decreases k, 1
  {
    if StartOn(lines[k]).Some? then StartOn(lines[k]) else PendingAfter(lines, k)
  }

  /** The interval recorded while reading line `k`, if any. */
  ghost function RecordedAt(lines: seq<string>, k: nat): Option<Silence>
    requires k < |lines|
  {
    var p, e := PendingAt(lines, k), EndOn(lines[k]);
    if p.Some? && e.Some? && e.value > p.value then Some(Silence(p.value, e.value)) else None
  }

  /** Line `j` opened a silence that is still open after line `k - 1`:
      it has a start marker and no end marker, and no later line before `k`
      has either. */
  ghost predicate OpenStart(lines: seq<string>, j: nat, k: nat)
    requires k <= |lines|
  {
    j < k && StartOn(lines[j]).Some? && EndOn(lines[j]).None? &&
    forall m :: j < m < k ==> StartOn(lines[m]).None? && EndOn(lines[m]).None?
  }

  /** The two-state fold keeps exactly the latest start that no end marker
      has closed yet. */
  lemma {:induction false} PendingIsLatestOpenStart(lines: seq<string>, k: nat)
    requires k <= |lines|
    ensures PendingAfter(lines, k).Some? <==> exists j: nat :: OpenStart(lines, j, k)
    ensures forall j: nat :: OpenStart(lines, j, k) ==> PendingAfter(lines, k) == StartOn(lines[j])
  {
    if k > 0 {
      var l := lines[k - 1];
      if EndOn(l).Some? {
        forall j: nat | j < k ensures !OpenStart(lines, j, k) {
          if j < k - 1 { assert !(StartOn(l).None? && EndOn(l).None?); }
        }
      } else if StartOn(l).Some? {
        assert OpenStart(lines, k - 1, k);
        forall j: nat | OpenStart(lines, j, k) ensures j == k - 1 {
          
        }
      } else {
        PendingIsLatestOpenStart(lines, k - 1);
        assert PendingAfter(lines, k) == PendingAfter(lines, k - 1);
        forall j: nat ensures OpenStart(lines, j, k) <==> OpenStart(lines, j, k - 1) {
        }
        if PendingAfter(lines, k - 1).Some? {
          var j: nat :| OpenStart(lines, j, k - 1);
          assert OpenStart(lines, j, k);
        }
      }
    }
  }

  /** The intervals recorded while reading the first `k` lines, in order. */
  ghost function RecordedUpTo(lines: seq<string>, k: nat): seq<Silence>
    requires k <= |lines|
  {
    if k == 0 then []
    else
      var r := RecordedAt(lines, k - 1);
      RecordedUpTo(lines, k - 1) + (if r.Some? then [r.value] else [])
  }

  /** The lines, among the first `k`, on which an interval is recorded. */
  ghost function RecordingLines(lines: seq<string>, k: nat): seq<nat>
    requires k <= |lines|
  {
    if k == 0 then []
    else RecordingLines(lines, k - 1) + (if RecordedAt(lines, k - 1).Some? then [k - 1] else [])
  }

  /** Every recorded interval is non-empty. */
  lemma {:induction false} RecordedNonEmpty(lines: seq<string>, k: nat)
    requires k <= |lines|
    ensures forall s :: s in RecordedUpTo(lines, k) ==> s.start < s.end
  {
    if k > 0 {
      RecordedNonEmpty(lines, k - 1);
      var r := RecordedAt(lines, k - 1);
      assert r.Some? ==> r.value.start < r.value.end;
    }
  }

  /** Each recorded interval comes from its own line, and the lines are in
      increasing order. */
  lemma {:induction false} RecordedUpToOrigins(lines: seq<string>, k: nat)
    requires k <= |lines|
    ensures var silences, origins := RecordedUpTo(lines, k), RecordingLines(lines, k);
      && |origins| == |silences|
      && (forall i, j :: 0 <= i < j < |origins| ==> origins[i] < origins[j])
      && (forall i :: 0 <= i < |origins| ==> origins[i] < k && RecordedAt(lines, origins[i]) == Some(silences[i]))
  {
    if k > 0 {
      RecordedUpToOrigins(lines, k - 1);
      var silences, origins := RecordedUpTo(lines, k - 1), RecordingLines(lines, k - 1);
      var r := RecordedAt(lines, k - 1);
      if r.Some? {
        assert RecordedUpTo(lines, k) == silences + [r.value];
        assert RecordingLines(lines, k) == origins + [k - 1];
      } else {
        assert RecordedUpTo(lines, k) == silences;
        assert RecordingLines(lines, k) == origins;
      }
    }
  }

  /** Every line among the first `k` that records an interval is listed. */
  lemma {:induction false} RecordingLinesComplete(lines: seq<string>, k: nat)
    requires k <= |lines|
    ensures forall m :: 0 <= m < k && RecordedAt(lines, m).Some? ==> m in RecordingLines(lines, k)
  {
    if k > 0 {
      RecordingLinesComplete(lines, k - 1);
      var origins := RecordingLines(lines, k - 1);
      var last := if RecordedAt(lines, k - 1).Some? then [k - 1] else [];
      assert RecordingLines(lines, k) == origins + last;
      forall m | 0 <= m < k && RecordedAt(lines, m).Some? ensures m in origins + last {
        if m < k - 1 {
          assert m in origins;
        } else {
          assert last == [k - 1];
        }
      }
    }
  }

  /** What `detect_silence_with_ffmpeg` reports: nothing when the probe
      raises, otherwise every interval recorded over the lines. */
  ghost function DetectedSilences(lines: seq<string>, probeFailed: bool): seq<Silence>
  {
    if probeFailed then [] else RecordedUpTo(lines, |lines|)
  }

  /** `detect_silence_with_ffmpeg`: reads the diagnostic lines in order,
      remembering the latest start marker and recording (start, end) when an
      end marker finds a pending start before it; every end marker clears
      the pending start. If the probe raises, nothing is reported. */
  method DetectSilence(stderrLines: seq<string>, probeFailed: bool)
    returns (silences: seq<Silence>, ghost origins: seq<nat>)
    ensures silences == DetectedSilences(stderrLines, probeFailed)
    ensures forall s :: s in silences ==> s.start < s.end
    ensures probeFailed ==> silences == []
    ensures !probeFailed ==>
      && |origins| == |silences|
      && (forall i, j :: 0 <= i < j < |origins| ==> origins[i] < origins[j])
      && (forall i :: 0 <= i < |origins| ==> origins[i] < |stderrLines| && RecordedAt(stderrLines, origins[i]) == Some(silences[i]))
      && (forall k :: 0 <= k < |stderrLines| && RecordedAt(stderrLines, k).Some? ==> k in origins)
  {
    silences, origins := [], [];
    var currentStart: Option<real> := None;
    for k := 0 to |stderrLines|
      invariant currentStart == PendingAfter(stderrLines, k)
      invariant silences == RecordedUpTo(stderrLines, k)
      invariant origins == RecordingLines(stderrLines, k)
    {
      var line := stderrLines[k];
      var startMatch := StartOn(line);
      if startMatch.Some? {
        currentStart := startMatch;
      }
      var endMatch := EndOn(line);
      assert currentStart == PendingAt(stderrLines, k);
      ghost var recorded := RecordedAt(stderrLines, k);
      assert RecordedUpTo(stderrLines, k + 1) == silences + (if recorded.Some? then [recorded.value] else []);
      if endMatch.Some? && currentStart.Some? {
        if endMatch.value > currentStart.value {
          silences := silences + [Silence(currentStart.value, endMatch.value)];
          origins := origins + [k];
        }
        currentStart := None;
      }
    }
    RecordedNonEmpty(stderrLines, |stderrLines|);
    RecordedUpToOrigins(stderrLines, |stderrLines|);
    RecordingLinesComplete(stderrLines, |stderrLines|);
    if probeFailed {
      silences := [];
    }
  }

  // =====================================================================
  // Split-point planner
  // =====================================================================

  /** The chunk start in force before cut `k` is appended. */
  function Cursor(cuts: seq<real>, k: nat): real
    requires k <= |cuts|
  {
    if k == 0 then 0.0 else cuts[k - 1]
  }

  /** Every cut is at most `maxLen` past the cursor it was taken from. */
  predicate ChainWithin(cuts: seq<real>, maxLen: real)
  {
    forall k :: 0 <= k < |cuts| ==> cuts[k] - Cursor(cuts, k) <= maxLen
  }

  predicate StrictlyIncreasing(s: seq<real>)
  {
    forall i, j :: 0 <= i < j < |s| ==> s[i] < s[j]
  }

  predicate GapsWithin(s: seq<real>, maxLen: real)
  {
    forall i :: 0 <= i < |s| - 1 ==> s[i + 1] - s[i] <= maxLen
  }

  /** Cut `k` is a natural cut at its silence midpoint `target`, or a forced
      cut exactly `maxLen` past the cursor and strictly short of `target`
      (a midpoint or the end of the audio). */
  ghost predicate CutJustified(cuts: seq<real>, k: nat, target: real, silences: seq<Silence>,
                               audioLength: real, maxLen: real)
    requires k < |cuts|
  {
    (target in Midpoints(silences) && cuts[k] == target) ||
    ((target == audioLength || target in Midpoints(silences)) &&
     cuts[k] == Cursor(cuts, k) + maxLen && cuts[k] < target)
  }

  lemma DivideShift(x: real, m: real)
    requires m > 0.0
    ensures (x - m) / m == x / m - 1.0
  {
    calc {
      (x - m) / m;
      x / m - m / m;
    }
  }

  /** What the cursor loops maintain about the cuts appended so far. */
  ghost predicate PlanSoFar(cuts: seq<real>, targets: seq<real>, silences: seq<Silence>,
                            audioLength: real, maxLen: real)
  {
    && ChainWithin(cuts, maxLen)
    && |targets| == |cuts|
    && forall k :: 0 <= k < |cuts| ==> CutJustified(cuts, k, targets[k], silences, audioLength, maxLen)
  }

  lemma AppendCut(cuts: seq<real>, targets: seq<real>, silences: seq<Silence>,
                  audioLength: real, maxLen: real, cut: real, target: real)
    requires PlanSoFar(cuts, targets, silences, audioLength, maxLen)
    requires cut - Cursor(cuts, |cuts|) <= maxLen
    requires (target in Midpoints(silences) && cut == target) ||
             ((target == audioLength || target in Midpoints(silences)) &&
              cut == Cursor(cuts, |cuts|) + maxLen && cut < target)
    ensures PlanSoFar(cuts + [cut], targets + [target], silences, audioLength, maxLen)
  {
    var cuts', targets' := cuts + [cut], targets + [target];
    forall k | 0 <= k < |cuts'|
      ensures cuts'[k] - Cursor(cuts', k) <= maxLen
      ensures CutJustified(cuts', k, targets'[k], silences, audioLength, maxLen)
    {
      if k < |cuts| {
        assert CutJustified(cuts, k, targets[k], silences, audioLength, maxLen);
      }
    }
  }

  /** The forced cuts `cursor + maxLen`, `cursor + 2·maxLen`, … that a
      cursor loop appends while `target` lies more than `maxLen` past the
      cursor. */
  function ForcedCuts(cursor: real, target: real, maxLen: real): (cuts: seq<real>)
    requires maxLen > 0.0
    decreases ((target - cursor) / maxLen).Floor
  {
    if target - cursor > maxLen then
      DivideShift(target - cursor, maxLen);
      [cursor + maxLen] + ForcedCuts(cursor + maxLen, target, maxLen)
    else []
  }

  /** The cuts appended from `cursor` on: for each silence in turn, the
      forced cuts toward its midpoint and then the midpoint, which becomes
      the cursor; after the last silence, the forced cuts toward the end. */
  function PlanFrom(cursor: real, silences: seq<Silence>, audioLength: real, maxLen: real): (cuts: seq<real>)
    requires maxLen > 0.0
    decreases |silences|
  {
    if |silences| == 0 then ForcedCuts(cursor, audioLength, maxLen)
    else
      var mid := Midpoint(silences[0]);
      ForcedCuts(cursor, mid, maxLen) + [mid] + PlanFrom(mid, silences[1..], audioLength, maxLen)
  }

  /** The cuts of `find_optimal_split_points_sec` in the order they are
      appended, starting from a cursor at 0. */
  function PlannedCuts(silences: seq<Silence>, audioLength: real, maxLen: real): seq<real>
    requires maxLen > 0.0
  {
    PlanFrom(0.0, silences, audioLength, maxLen)
  }

  /** The split points returned: the planned cuts strictly inside the
      audio, sorted and without repeats. */
  function PlannedPoints(silences: seq<Silence>, audioLength: real, maxLen: real): seq<real>
    requires maxLen > 0.0
  {
    SortedDistinctInside(PlannedCuts(silences, audioLength, maxLen), audioLength)
  }

  /** The two cursor loops of `find_optimal_split_points_sec`, before the
      final filter: cut points in the order they are appended. */
  method CollectCuts(audioLength: real, silences: seq<Silence>, maxLen: real)
    returns (cuts: seq<real>, ghost targets: seq<real>)
    requires maxLen > 0.0
    ensures cuts == PlannedCuts(silences, audioLength, maxLen)
    ensures ChainWithin(cuts, maxLen)
    ensures audioLength - Cursor(cuts, |cuts|) <= maxLen
    ensures forall s :: s in silences ==> Midpoint(s) in cuts
    ensures |targets| == |cuts|
    ensures forall k :: 0 <= k < |cuts| ==> CutJustified(cuts, k, targets[k], silences, audioLength, maxLen)
  {
    cuts, targets := [], [];
    var cursor := 0.0;
    for i := 0 to |silences|
      invariant cursor == Cursor(cuts, |cuts|)
      invariant cuts + PlanFrom(cursor, silences[i..], audioLength, maxLen) == PlannedCuts(silences, audioLength, maxLen)
      invariant PlanSoFar(cuts, targets, silences, audioLength, maxLen)
      invariant forall j :: 0 <= j < i ==> Midpoint(silences[j]) in cuts
    {
      var mid := Midpoint(silences[i]);
      PlanFromStep(cursor, silences, i, audioLength, maxLen);
      assert mid in Midpoints(silences);
      ghost var before, forced := cuts, ForcedCuts(cursor, mid, maxLen);
      ghost var later := PlanFrom(mid, silences[i + 1..], audioLength, maxLen);
      if mid - cursor > maxLen {
        cuts, targets, cursor := AppendForcedCuts(cuts, targets, mid, silences, audioLength, maxLen);
      }
      assert cuts == before + forced;
      assert forall j :: 0 <= j < i ==> Midpoint(silences[j]) in cuts;
      AppendCut(cuts, targets, silences, audioLength, maxLen, mid, mid);
      cuts, targets := cuts + [mid], targets + [mid];
      cursor := mid;
      Regroup(before, forced, mid, later);
    }
    assert silences[|silences|..] == [];
    cuts, targets, cursor := AppendForcedCuts(cuts, targets, audioLength, silences, audioLength, maxLen);
  }

  lemma Regroup(a: seq<real>, b: seq<real>, x: real, c: seq<real>)
    ensures (a + b + [x]) + c == a + (b + [x] + c)
  {
  }

  /** A cursor loop of `find_optimal_split_points_sec`: while `target`
      lies more than `maxLen` past the cursor, cut `maxLen` past it and
      move the cursor there. */
  method AppendForcedCuts(cuts0: seq<real>, ghost targets0: seq<real>, target: real,
                          silences: seq<Silence>, audioLength: real, maxLen: real)
    returns (cuts: seq<real>, ghost targets: seq<real>, cursor: real)
    requires maxLen > 0.0
    requires target == audioLength || target in Midpoints(silences)
    requires PlanSoFar(cuts0, targets0, silences, audioLength, maxLen)
    ensures cuts == cuts0 + ForcedCuts(Cursor(cuts0, |cuts0|), target, maxLen)
    ensures cursor == Cursor(cuts, |cuts|) && target - cursor <= maxLen
    ensures PlanSoFar(cuts, targets, silences, audioLength, maxLen)
  {
    cuts, targets, cursor := cuts0, targets0, Cursor(cuts0, |cuts0|);
    while target - cursor > maxLen
      invariant cursor == Cursor(cuts, |cuts|)
      invariant cuts + ForcedCuts(cursor, target, maxLen) == cuts0 + ForcedCuts(Cursor(cuts0, |cuts0|), target, maxLen)
      invariant PlanSoFar(cuts, targets, silences, audioLength, maxLen)
      decreases ((target - cursor) / maxLen).Floor
    {
      var newSplit := cursor + maxLen;
      DivideShift(target - cursor, maxLen);
      AppendCut(cuts, targets, silences, audioLength, maxLen, newSplit, target);
      assert ForcedCuts(cursor, target, maxLen) == [newSplit] + ForcedCuts(newSplit, target, maxLen);
      cuts, targets := cuts + [newSplit], targets + [target];
      cursor := newSplit;
    }
  }

  /** One silence of the plan: from `cursor`, the cuts for silences `i..`
      are the forced cuts toward midpoint `i`, the midpoint, and the cuts
      for the silences after it. */
  lemma PlanFromStep(cursor: real, silences: seq<Silence>, i: nat, audioLength: real, maxLen: real)
    requires maxLen > 0.0 && i < |silences|
    ensures PlanFrom(cursor, silences[i..], audioLength, maxLen) ==
      ForcedCuts(cursor, Midpoint(silences[i]), maxLen) + [Midpoint(silences[i])] +
      PlanFrom(Midpoint(silences[i]), silences[i + 1..], audioLength, maxLen)
  {
    assert silences[i..][1..] == silences[i + 1..];
  }

  /** Inserts `x` into a strictly increasing sequence unless it is there. */
  function InsertDistinct(s: seq<real>, x: real): (r: seq<real>)
    requires StrictlyIncreasing(s)
    ensures StrictlyIncreasing(r)
    ensures forall y :: y in r <==> y in s || y == x
  {
    if |s| == 0 then [x]
    else if x < s[0] then [x] + s
    else if x == s[0] then s
    else
      var rest := InsertDistinct(s[1..], x);
      assert forall y :: y in s[1..] ==> y > s[0];
      assert forall j :: 0 <= j < |rest| ==> rest[j] in rest;
      assert s == [s[0]] + s[1..];
      [s[0]] + rest
  }

  /** `sorted(set(p for p in cuts if 0 < p < audioLength))`. */
  function SortedDistinctInside(cuts: seq<real>, audioLength: real): (r: seq<real>)
    ensures StrictlyIncreasing(r)
    ensures forall y :: y in r <==> y in cuts && 0.0 < y < audioLength
  {
    if |cuts| == 0 then []
    else
      var rest := SortedDistinctInside(cuts[..|cuts| - 1], audioLength);
      var p := cuts[|cuts| - 1];
      assert cuts == cuts[..|cuts| - 1] + [p];
      if 0.0 < p < audioLength then InsertDistinct(rest, p) else rest
  }

  lemma Occurs(s: seq<real>, i: int)
    ensures 0 <= i < |s| ==> s[i] in s
  {
  }

  lemma {:induction false} StrictlyIncreasingUnique(a: seq<real>, b: seq<real>)
    requires StrictlyIncreasing(a) && StrictlyIncreasing(b)
    requires forall y :: y in a <==> y in b
    ensures a == b
  {
    if |a| == 0 {
      if |b| > 0 {
        Occurs(b, 0);
        assert false;
      }
    } else {
      assert a[0] in a && b[0] in b;
      forall y ensures y in a[1..] <==> y in b[1..] {
        if y in a[1..] {
          var i :| 1 <= i < |a| && a[i] == y;
          assert y in b && y != b[0];
        }
        if y in b[1..] {
          var i :| 1 <= i < |b| && b[i] == y;
          assert y in a && y != a[0];
        }
      }
      StrictlyIncreasingUnique(a[1..], b[1..]);
      assert a == [a[0]] + a[1..] && b == [b[0]] + b[1..];
    }
  }

  /** Finds the last cursor position at or before `a`, scanning from `k`. */
  lemma {:induction false} LastCursorAtOrBefore(cuts: seq<real>, a: real, k: nat) returns (j: nat)
    requires k <= |cuts| && Cursor(cuts, k) <= a
    ensures k <= j <= |cuts| && Cursor(cuts, j) <= a
    ensures j < |cuts| ==> cuts[j] > a
    decreases |cuts| - k
  {
    if k == |cuts| || cuts[k] > a {
      j := k;
    } else {
      j := LastCursorAtOrBefore(cuts, a, k + 1);
    }
  }

  /** The length bound: a chain of cuts that never jumps more than `maxLen`
      past its cursor and ends within `maxLen` of the audio end leaves, once
      sorted, deduplicated and clipped to (0, audioLength), no gap larger
      than `maxLen` between 0, the cut points and the end of the audio. */
  lemma ClippedChainGaps(cuts: seq<real>, audioLength: real, maxLen: real, points: seq<real>)
    requires ChainWithin(cuts, maxLen)
    requires audioLength - Cursor(cuts, |cuts|) <= maxLen
    requires StrictlyIncreasing(points)
    requires forall y :: y in points <==> y in cuts && 0.0 < y < audioLength
    ensures GapsWithin([0.0] + points + [audioLength], maxLen)
  {
    var s := [0.0] + points + [audioLength];
    forall i | 0 <= i < |s| - 1 ensures s[i + 1] - s[i] <= maxLen {
      var a, b := s[i], s[i + 1];
      assert a >= 0.0 by {
        if i > 0 { assert a == points[i - 1] && a in points; }
      }
      assert b <= audioLength by {
        if i < |points| { assert b == points[i] && b in points; }
      }
      var j := LastCursorAtOrBefore(cuts, a, 0);
      if j < |cuts| && cuts[j] < b {
        Occurs(cuts, j);
        assert false;
      }
    }
  }

  /** Cuts that each step exactly `m` past the previous one form the grid
      m, 2·m, …: the cursor before cut `k` is k·m. */
  lemma {:induction false} SteppedCutsFormGrid(cuts: seq<real>, m: real, k: nat)
    requires forall k :: 0 <= k < |cuts| ==> cuts[k] == Cursor(cuts, k) + m
    requires k <= |cuts|
    ensures Cursor(cuts, k) == k as real * m
    ensures k < |cuts| ==> cuts[k] == (k + 1) as real * m
  {
    if k > 0 {
      SteppedCutsFormGrid(cuts, m, k - 1);
      assert k as real * m == (k - 1) as real * m + m;
    }
  }

  /** `find_optimal_split_points_sec`: the points are the planned cuts
      (`cuts`, in the order the cursor loops append them, each justified by
      its `targets` entry), kept when strictly inside the audio, without
      repeats and in order. */
  method FindOptimalSplitPoints(audioLength: real, silences: seq<Silence>, maxLen: real)
    returns (points: seq<real>, ghost cuts: seq<real>, ghost targets: seq<real>)
    requires maxLen > 0.0
    ensures cuts == PlannedCuts(silences, audioLength, maxLen)
    ensures points == PlannedPoints(silences, audioLength, maxLen)
    ensures points == SortedDistinctInside(cuts, audioLength)
    ensures PlanSoFar(cuts, targets, silences, audioLength, maxLen)
    ensures audioLength - Cursor(cuts, |cuts|) <= maxLen
    ensures StrictlyIncreasing(points)
    ensures forall p :: p in points ==> 0.0 < p < audioLength
    ensures GapsWithin([0.0] + points + [audioLength], maxLen)
    ensures forall s :: s in silences && 0.0 < Midpoint(s) < audioLength ==> Midpoint(s) in points
    ensures |silences| == 0 ==>
      (forall k :: 0 <= k < |points| ==> points[k] == (k + 1) as real * maxLen) &&
      (|points| + 1) as real * maxLen >= audioLength
  {
    var cutList;
    cutList, targets := CollectCuts(audioLength, silences, maxLen);
    cuts := cutList;
    points := SortedDistinctInside(cutList, audioLength);
    ClippedChainGaps(cuts, audioLength, maxLen, points);
    if |silences| == 0 {
      NoSilenceGrid(cuts, targets, silences, audioLength, maxLen, points);
      SteppedCutsReachEnd(points, maxLen, audioLength);
    }
  }

  /** One silence around 100 s in 1000 s of audio with a 300 s maximum:
      the points are the midpoint and the forced cuts 300 s apart after it,
      with no forced cut before the midpoint. */
  lemma PlannedPointsOneSilence()
    ensures PlannedPoints([Silence(90.0, 110.0)], 1000.0, 300.0) == [100.0, 400.0, 700.0]
  {
    var silences := [Silence(90.0, 110.0)];
    assert silences[1..] == [];
    assert ForcedCuts(0.0, 100.0, 300.0) == [];
    assert ForcedCuts(700.0, 1000.0, 300.0) == [];
    assert ForcedCuts(400.0, 1000.0, 300.0) == [700.0];
    assert ForcedCuts(100.0, 1000.0, 300.0) == [400.0, 700.0];
    assert PlannedCuts(silences, 1000.0, 300.0) == [100.0, 400.0, 700.0];
    StrictlyIncreasingUnique(PlannedPoints(silences, 1000.0, 300.0), [100.0, 400.0, 700.0]);
  }

  /** The cursor after `n` forced cuts taken `maxLen` apart from `cursor`. */
  function CursorAfter(cursor: real, maxLen: real, n: nat): real
  {
    if n == 0 then cursor else CursorAfter(cursor, maxLen, n - 1) + maxLen
  }

  /** Why the model requires a positive maximum: with `maxLen <= 0` a
      cursor loop of `find_optimal_split_points_sec` that is entered never
      stops, because each forced cut leaves the cursor where it was or
      moves it back, so the loop condition still holds after any number
      of iterations. */
  lemma {:induction false} NonPositiveMaxNeverStops(target: real, cursor: real, maxLen: real, n: nat)
    requires maxLen <= 0.0 && target - cursor > maxLen
    ensures CursorAfter(cursor, maxLen, n) <= cursor
    ensures target - CursorAfter(cursor, maxLen, n) > maxLen
  {
    if n > 0 {
      NonPositiveMaxNeverStops(target, cursor, maxLen, n - 1);
    }
  }

  /** Cuts that each step a positive length past the previous one increase
      strictly. */
  lemma {:induction false} SteppedCutsIncrease(cuts: seq<real>, m: real, i: nat, j: nat)
    requires m > 0.0
    requires forall k :: 0 <= k < |cuts| ==> cuts[k] == Cursor(cuts, k) + m
    requires i < j < |cuts|
    ensures cuts[i] < cuts[j]
    decreases j
  {
    if i + 1 < j {
      SteppedCutsIncrease(cuts, m, i, j - 1);
    }
  }

  /** Without silences every cut is forced, so the planned points are the
      cuts themselves, each exactly `maxLen` past the previous one. */
  lemma NoSilenceGrid(cuts: seq<real>, targets: seq<real>, silences: seq<Silence>,
                      audioLength: real, maxLen: real, points: seq<real>)
    requires |silences| == 0 && maxLen > 0.0
    requires PlanSoFar(cuts, targets, silences, audioLength, maxLen)
    requires audioLength - Cursor(cuts, |cuts|) <= maxLen
    requires StrictlyIncreasing(points)
    requires forall y :: y in points <==> y in cuts && 0.0 < y < audioLength
    ensures points == cuts
    ensures forall k :: 0 <= k < |cuts| ==> cuts[k] == Cursor(cuts, k) + maxLen
  {
    forall k | 0 <= k < |cuts| ensures cuts[k] == Cursor(cuts, k) + maxLen && cuts[k] < audioLength {
      assert CutJustified(cuts, k, targets[k], silences, audioLength, maxLen);
      if k > 0 {
        assert CutJustified(cuts, k - 1, targets[k - 1], silences, audioLength, maxLen);
      }
    }
    forall i, j | 0 <= i < j < |cuts| ensures cuts[i] < cuts[j] {
      SteppedCutsIncrease(cuts, maxLen, i, j);
    }
    forall y | y in cuts ensures 0.0 < y {
      var k :| 0 <= k < |cuts| && cuts[k] == y;
      assert cuts[0] <= cuts[k];
    }
    StrictlyIncreasingUnique(cuts, points);
  }

  lemma SteppedCutsReachEnd(cuts: seq<real>, m: real, t: real)
    requires forall k {:trigger Cursor(cuts, k)} :: 0 <= k < |cuts| ==> cuts[k] == Cursor(cuts, k) + m
    requires t - Cursor(cuts, |cuts|) <= m
    ensures forall k :: 0 <= k < |cuts| ==> cuts[k] == (k + 1) as real * m
    ensures (|cuts| + 1) as real * m >= t
  {
    SteppedCutsOnGrid(cuts, m);
    SteppedCutsCoverEnd(cuts, m, t);
  }

  lemma SteppedCutsCoverEnd(cuts: seq<real>, m: real, t: real)
    requires forall k {:trigger Cursor(cuts, k)} :: 0 <= k < |cuts| ==> cuts[k] == Cursor(cuts, k) + m
    requires t - Cursor(cuts, |cuts|) <= m
    ensures (|cuts| + 1) as real * m >= t
  {
    SteppedCutsFormGrid(cuts, m, |cuts|);
    OneMoreStep(|cuts|, m, Cursor(cuts, |cuts|), t);
  }

  lemma SteppedCutsOnGrid(cuts: seq<real>, m: real)
    requires forall k {:trigger Cursor(cuts, k)} :: 0 <= k < |cuts| ==> cuts[k] == Cursor(cuts, k) + m
    ensures forall k :: 0 <= k < |cuts| ==> cuts[k] == (k + 1) as real * m
  {
    forall k | 0 <= k < |cuts| ensures cuts[k] == (k + 1) as real * m {
      SteppedCutsFormGrid(cuts, m, k);
    }
  }

  lemma OneMoreStep(n: nat, m: real, c: real, t: real)
    requires c == n as real * m && t - c <= m
    ensures (n + 1) as real * m >= t
  {
    assert (n + 1) as real * m == n as real * m + m;
  }

  // =====================================================================
  // Chunk export
  // =====================================================================

  datatype Codec = StreamCopy | Reencode(sampleRate: nat, channels: nat, bitrate: string)

  /** One chunk the media tool is asked to cut: boundary `index` of the
      boundary list and the span it extracts. Every chunk of a run is cut
      from the same input with the same codec. */
  datatype Chunk = Chunk(index: nat, start: real, end: real)

  /** `f"chunk_{n:03d}.mp3"`. */
  function ChunkName(n: nat): string
  {
    "chunk_" + ZeroPad(n, 3) + ".mp3"
  }

  /** The file chunk `c` is written to: chunks are numbered from 1. */
  function ChunkPath(outputDir: string, c: Chunk): string
  {
    Join(outputDir, ChunkName(c.index + 1))
  }

  /** Chunk files of different numbers never share a name. */
  lemma ChunkNamesDistinct(n: nat, m: nat)
    requires n != m
    ensures ChunkName(n) != ChunkName(m)
  {
    if ChunkName(n) == ChunkName(m) {
      var a, b := ZeroPad(n, 3), ZeroPad(m, 3);
      assert |a| == |b|;
      assert a == ChunkName(n)[6..6 + |a|];
      assert b == ChunkName(m)[6..6 + |b|];
      ZeroPadValue(n, 3);
      ZeroPadValue(m, 3);
    }
  }

  /** Stream copy for `.mp3` input (in any letter case), otherwise a
      re-encode to 44100 Hz stereo at 192 kbit/s. */
  function CodecFor(inputFile: string): (c: Codec)
    ensures c.StreamCopy? <==> Lower(Extension(inputFile)) == ".mp3"
  {
    if Lower(Extension(inputFile)) == ".mp3" then StreamCopy else Reencode(44100, 2, "192k")
  }

  /** The paths of the chunks whose export succeeded, in order. */
  function Exported(chunks: seq<Chunk>, outputDir: string, exportOk: nat -> bool): (files: seq<string>)
    ensures |files| <= |chunks|
    ensures |files| == 0 <==> forall k :: 0 <= k < |chunks| ==> !exportOk(chunks[k].index)
  {
    if |chunks| == 0 then []
    else
      var last := chunks[|chunks| - 1];
      Exported(chunks[..|chunks| - 1], outputDir, exportOk) +
        (if exportOk(last.index) then [ChunkPath(outputDir, last)] else [])
  }

  function LastEnd(chunks: seq<Chunk>): real
  {
    if |chunks| == 0 then 0.0 else chunks[|chunks| - 1].end
  }

  /** Where the export loop stands after `n` boundaries: the chunk start
      in force and the commands issued so far. */
  datatype ExportState = ExportState(start: real, chunks: seq<Chunk>)

  /** The export plan of `split_audio` over `boundaries` (the split points
      followed by the total length): a boundary no more than 0.1 s past the
      chunk start is skipped and its span folds into the next chunk;
      otherwise chunk `n + 1` is cut from the start to the boundary, which
      becomes the next start whether or not the export succeeds. */
  function ExportPlan(boundaries: seq<real>, n: nat): ExportState
    requires n <= |boundaries|
  {
    if n == 0 then ExportState(0.0, [])
    else
      var prev := ExportPlan(boundaries, n - 1);
      var end := boundaries[n - 1];
      if end > prev.start + MinChunkSec then
        ExportState(end, prev.chunks + [Chunk(n - 1, prev.start, end)])
      else prev
  }

  /** The chunks of the plan are contiguous from 0 and the start in force
      is where the last one ends. */
  lemma {:induction false} ExportPlanContiguous(boundaries: seq<real>, n: nat)
    requires n <= |boundaries|
    ensures var st := ExportPlan(boundaries, n);
      && (|st.chunks| > 0 ==> st.chunks[0].start == 0.0)
      && (forall k :: 0 < k < |st.chunks| ==> st.chunks[k].start == st.chunks[k - 1].end)
      && st.start == LastEnd(st.chunks)
  {
    if n > 0 {
      ExportPlanContiguous(boundaries, n - 1);
    }
  }

  /** The start in force after `n` boundaries is at most 0.1 s short of
      boundary `n - 1`. */
  lemma {:induction false} ExportPlanStart(boundaries: seq<real>, n: nat)
    requires n <= |boundaries|
    ensures ExportPlan(boundaries, n).start >= Cursor(boundaries, n) - MinChunkSec
  {
    if n > 0 {
      ExportPlanStart(boundaries, n - 1);
    }
  }

  /** What one planned chunk satisfies: it ends at boundary `index` (below
      `n`), lies more than 0.1 s past its start, and starts no earlier than
      0.1 s before the previous boundary. */
  ghost predicate PlannedChunk(c: Chunk, boundaries: seq<real>, n: nat)
  {
    && c.index < n <= |boundaries|
    && c.end == boundaries[c.index]
    && c.end - c.start > MinChunkSec
    && c.start >= Cursor(boundaries, c.index) - MinChunkSec
  }

  /** Every planned chunk is a `PlannedChunk`, and chunks come in
      increasing boundary order (so their file names differ). */
  lemma {:induction false} ExportPlanChunks(boundaries: seq<real>, n: nat)
    requires n <= |boundaries|
    ensures var chunks := ExportPlan(boundaries, n).chunks;
      && (forall c :: c in chunks ==> PlannedChunk(c, boundaries, n))
      && (forall k, l :: 0 <= k < l < |chunks| ==> chunks[k].index < chunks[l].index)
  {
    if n > 0 {
      ExportPlanChunks(boundaries, n - 1);
      ExportPlanStart(boundaries, n - 1);
      var prev := ExportPlan(boundaries, n - 1);
      var chunks := ExportPlan(boundaries, n).chunks;
      forall c | c in prev.chunks
        ensures PlannedChunk(c, boundaries, n)
      {
        assert PlannedChunk(c, boundaries, n - 1);
      }
      if chunks != prev.chunks {
        var last := chunks[|chunks| - 1];
        assert chunks == prev.chunks + [last];
        forall k | 0 <= k < |prev.chunks| ensures chunks[k].index < last.index {
          assert chunks[k] in prev.chunks;
          assert PlannedChunk(chunks[k], boundaries, n - 1);
        }
      }
    }
  }

  /** The export loop of `split_audio`. `exportOk(i)` is whether the media
      tool produced a non-empty file for boundary `i`; the chunk start moves
      on whether or not it did. */
  method ExportChunks(outputDir: string, boundaries: seq<real>, exportOk: nat -> bool)
    returns (chunkFiles: seq<string>, chunks: seq<Chunk>)
    ensures chunks == ExportPlan(boundaries, |boundaries|).chunks
    ensures chunkFiles == Exported(chunks, outputDir, exportOk)
  {
    chunkFiles, chunks := [], [];
    var startTime := 0.0;
    for i := 0 to |boundaries|
      invariant ExportPlan(boundaries, i) == ExportState(startTime, chunks)
      invariant chunkFiles == Exported(chunks, outputDir, exportOk)
    {
      var endTime := boundaries[i];
      if endTime > startTime + MinChunkSec {
        var chunk := Chunk(i, startTime, endTime);
        chunks := chunks + [chunk];
        assert chunks[..|chunks| - 1] == chunks[..|chunks| - 1];
        if exportOk(i) {
          chunkFiles := chunkFiles + [ChunkPath(outputDir, chunk)];
        }
        startTime := endTime;
      }
    }
  }

  /** What the export loop guarantees about the chunks of one run:
      contiguous from 0, in increasing boundary order, each longer than
      0.1 s, at most 0.1 s longer than `maxLen` and inside the audio, and
      reaching to within 0.1 s of the end. */
  ghost predicate ChunksFit(chunks: seq<Chunk>, total: real, maxLen: real)
  {
    && (|chunks| > 0 ==> chunks[0].start == 0.0)
    && (forall k :: 0 < k < |chunks| ==> chunks[k].start == chunks[k - 1].end)
    && (forall k, l :: 0 <= k < l < |chunks| ==> chunks[k].index < chunks[l].index)
    && (forall c :: c in chunks ==> MinChunkSec < c.end - c.start <= maxLen + MinChunkSec && c.end <= total)
    && total - LastEnd(chunks) <= MinChunkSec
  }

  /** `split_audio`: probe the duration, detect silences, plan the cut
      points and export every span with the codec the input calls for.
      Without a duration nothing is exported. Otherwise the chunks are
      those the export plan makes over the planned points of the detected
      silences followed by the duration; they fit the audio and the
      maximum length, and the files returned are the successful exports. */
  method SplitAudioFile(inputFile: string, outputDir: string, maxChunkLengthMs: real,
                        duration: Option<real>, stderrLines: seq<string>, silenceProbeFailed: bool,
                        exportOk: nat -> bool)
    returns (chunkFiles: seq<string>, codec: Codec, chunks: seq<Chunk>)
    requires maxChunkLengthMs > 0.0
    ensures codec == CodecFor(inputFile)
    ensures duration.None? ==> chunkFiles == [] && chunks == []
    ensures duration.Some? ==>
      var silences := DetectedSilences(stderrLines, silenceProbeFailed);
      var boundaries := PlannedPoints(silences, duration.value, maxChunkLengthMs / 1000.0) + [duration.value];
      && chunks == ExportPlan(boundaries, |boundaries|).chunks
      && ChunksFit(chunks, duration.value, maxChunkLengthMs / 1000.0)
      && chunkFiles == Exported(chunks, outputDir, exportOk)
  {
    codec := CodecFor(inputFile);
    if duration.None? {
      return [], codec, [];
    }
    var silences, _ := DetectSilence(stderrLines, silenceProbeFailed);
    chunkFiles, chunks := ExportPlannedChunks(outputDir, duration.value, silences, maxChunkLengthMs / 1000.0, exportOk);
  }

  /** The rest of `split_audio` once the silences are known: plan the cut
      points, append the total length and run the export loop. The chunks
      are the export plan over the planned points and the total, and they
      fit (a skipped fragment folds into the next chunk, so a chunk can be
      up to 0.1 s longer than the maximum). */
  method ExportPlannedChunks(outputDir: string, total: real, silences: seq<Silence>, maxLen: real,
                             exportOk: nat -> bool)
    returns (chunkFiles: seq<string>, chunks: seq<Chunk>)
    requires maxLen > 0.0
    ensures var boundaries := PlannedPoints(silences, total, maxLen) + [total];
      chunks == ExportPlan(boundaries, |boundaries|).chunks
    ensures ChunksFit(chunks, total, maxLen)
    ensures chunkFiles == Exported(chunks, outputDir, exportOk)
  {
    var points, _, _ := FindOptimalSplitPoints(total, silences, maxLen);
    PlannedChunksFit(points, total, maxLen);
    chunkFiles, chunks := ExportChunks(outputDir, points + [total], exportOk);
  }

  /** The chunks exported over any points that keep the planner's gap
      bound, followed by the total length, fit: `ChunksFit`. */
  lemma PlannedChunksFit(points: seq<real>, total: real, maxLen: real)
    requires GapsWithin([0.0] + points + [total], maxLen)
    requires forall p :: p in points ==> 0.0 < p < total
    ensures ChunksFit(ExportPlan(points + [total], |points| + 1).chunks, total, maxLen)
  {
    var boundaries := points + [total];
    ExportPlanContiguous(boundaries, |boundaries|);
    ExportPlanIndicesIncrease(boundaries, |boundaries|);
    ExportPlanWithinLimits(points, total, maxLen);
  }

  /** The planned chunks come in increasing boundary order. */
  lemma ExportPlanIndicesIncrease(boundaries: seq<real>, n: nat)
    requires n <= |boundaries|
    ensures var chunks := ExportPlan(boundaries, n).chunks;
      forall k, l :: 0 <= k < l < |chunks| ==> chunks[k].index < chunks[l].index
  {
    ExportPlanChunks(boundaries, n);
  }

  /** Over the planned points followed by the total length, every chunk is
      longer than 0.1 s, at most 0.1 s longer than `maxLen` and inside the
      audio, and the chunks reach to within 0.1 s of the end. */
  lemma ExportPlanWithinLimits(points: seq<real>, total: real, maxLen: real)
    requires GapsWithin([0.0] + points + [total], maxLen)
    requires forall p :: p in points ==> 0.0 < p < total
    ensures var boundaries := points + [total];
      var chunks := ExportPlan(boundaries, |boundaries|).chunks;
      && (forall c :: c in chunks ==> MinChunkSec < c.end - c.start <= maxLen + MinChunkSec && c.end <= total)
      && total - LastEnd(chunks) <= MinChunkSec
  {
    var boundaries := points + [total];
    ExportPlanContiguous(boundaries, |boundaries|);
    ExportPlanChunks(boundaries, |boundaries|);
    ExportPlanStart(boundaries, |boundaries|);
    BoundarySpans(points, total, maxLen);
    var chunks := ExportPlan(boundaries, |boundaries|).chunks;
    forall c | c in chunks
      ensures MinChunkSec < c.end - c.start <= maxLen + MinChunkSec && c.end <= total
    {
      assert PlannedChunk(c, boundaries, |boundaries|);
    }
  }

  /** The spans between consecutive boundaries, each measured from the
      cursor before it, stay within the maximum length and the audio. */
  lemma BoundarySpans(points: seq<real>, total: real, maxLen: real)
    requires GapsWithin([0.0] + points + [total], maxLen)
    requires forall p :: p in points ==> 0.0 < p < total
    ensures var boundaries := points + [total];
      forall i :: 0 <= i < |boundaries| ==>
        boundaries[i] - Cursor(boundaries, i) <= maxLen && boundaries[i] <= total
  {
    var boundaries := points + [total];
    var bounds := [0.0] + points + [total];
    forall i | 0 <= i < |boundaries|
      ensures boundaries[i] - Cursor(boundaries, i) <= maxLen && boundaries[i] <= total
    {
      assert bounds[i] == Cursor(boundaries, i) && bounds[i + 1] == boundaries[i];
      if i < |points| {
        assert boundaries[i] in points;
      }
    }
  }
}
