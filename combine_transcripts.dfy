/**
 * combine_transcripts.py: parsing the per-chunk transcripts the model
 * produced, picking the requested section, extracting its timestamped cue
 * lines, and merging all chunks into one SubRip (SRT) subtitle track whose
 * times are shifted by the running chunk offset.
 */
module CombineTranscripts {

  import opened Wrappers
  import opened Strings
  import opened Sorting
  import SplitAudio

  const MinDurationSec: real := 1.5
  const MaxDurationSec: real := 7.0
  const CharsPerSecond: real := 14.0
  const GapBetweenSubs: real := 0.05

  // =====================================================================
  // SRT timestamps
  // =====================================================================

  /** The whole milliseconds `format_timestamp_srt` renders: a negative
      time counts as 0 and the fraction below a millisecond is dropped. */
  function TimestampMillis(seconds: real): (ms: nat)
    ensures seconds <= 0.0 ==> ms == 0
    ensures seconds >= 0.0 ==> ms as real <= seconds * 1000.0 < ms as real + 1.0
  {
    if seconds < 0.0 then 0 else (seconds * 1000.0).Floor
  }

  /** `HH:MM:SS,mmm` for a number of milliseconds; hours take at least two
      digits and may take more. */
  function FormatMillis(ms: nat): string
  {
    var totalSeconds := ms / 1000;
    ZeroPad(totalSeconds / 3600, 2) + ":" + ZeroPad(totalSeconds % 3600 / 60, 2) + ":" +
    ZeroPad(totalSeconds % 60, 2) + "," + ZeroPad(ms % 1000, 3)
  }

  /** `format_timestamp_srt`. */
  function FormatTimestampSrt(seconds: real): string
  {
    FormatMillis(TimestampMillis(seconds))
  }

  /** Reads an SRT timestamp back into milliseconds: at least two hour
      digits, then `:MM:SS,mmm` with minutes and seconds below 60. */
  function ParseSrtTimestamp(t: string): (r: Option<nat>)
  {
    var n := |t|;
    if n < 12 then None
    else
      var h, m, s, f := t[..n - 10], t[n - 9..n - 7], t[n - 6..n - 4], t[n - 3..];
      if t[n - 10] == ':' && t[n - 7] == ':' && t[n - 4] == ',' &&
         AllDigits(h) && AllDigits(m) && AllDigits(s) && AllDigits(f) &&
         DigitsValue(m) < 60 && DigitsValue(s) < 60
      then Some((DigitsValue(h) * 3600 + DigitsValue(m) * 60 + DigitsValue(s)) * 1000 + DigitsValue(f))
      else None
  }

  /** Hours, minutes, seconds and milliseconds put back together give the
      milliseconds they were taken from. */
  lemma MillisDecomposition(ms: nat)
    ensures var t := ms / 1000;
      ((t / 3600) * 3600 + (t % 3600 / 60) * 60 + t % 60) * 1000 + ms % 1000 == ms
  {
    var t := ms / 1000;
    assert t % 3600 == (t % 3600 / 60) * 60 + t % 3600 % 60;
    assert t % 3600 % 60 == t % 60;
  }

  /** The parser takes a timestamp apart at the fixed positions of its
      last ten characters. */
  lemma ParseSrtFields(t: string)
    requires |t| >= 12
    requires t[|t| - 10] == ':' && t[|t| - 7] == ':' && t[|t| - 4] == ','
    requires AllDigits(t[..|t| - 10]) && AllDigits(t[|t| - 9..|t| - 7])
    requires AllDigits(t[|t| - 6..|t| - 4]) && AllDigits(t[|t| - 3..])
    requires DigitsValue(t[|t| - 9..|t| - 7]) < 60 && DigitsValue(t[|t| - 6..|t| - 4]) < 60
    ensures ParseSrtTimestamp(t) ==
            Some((DigitsValue(t[..|t| - 10]) * 3600 + DigitsValue(t[|t| - 9..|t| - 7]) * 60 +
                  DigitsValue(t[|t| - 6..|t| - 4])) * 1000 + DigitsValue(t[|t| - 3..]))
  {
  }

  lemma SrtSlices(t: string, h: string, m: string, s: string, f: string)
    requires |h| >= 2 && |m| == 2 && |s| == 2 && |f| == 3
    requires t == h + ":" + m + ":" + s + "," + f
    ensures |t| == |h| + 10
    ensures t[..|t| - 10] == h && t[|t| - 9..|t| - 7] == m && t[|t| - 6..|t| - 4] == s && t[|t| - 3..] == f
    ensures t[|t| - 10] == ':' && t[|t| - 7] == ':' && t[|t| - 4] == ','
  {
  }

  lemma ParseSrtLayout(t: string, h: string, m: string, s: string, f: string)
    requires |h| >= 2 && |m| == 2 && |s| == 2 && |f| == 3
    requires AllDigits(h) && AllDigits(m) && AllDigits(s) && AllDigits(f)
    requires DigitsValue(m) < 60 && DigitsValue(s) < 60
    requires t == h + ":" + m + ":" + s + "," + f
    ensures ParseSrtTimestamp(t).Some?
    ensures ParseSrtTimestamp(t).value ==
            (DigitsValue(h) * 3600 + DigitsValue(m) * 60 + DigitsValue(s)) * 1000 + DigitsValue(f)
  {
    SrtSlices(t, h, m, s, f);
    ParseSrtFields(t);
  }

  /** Every SRT timestamp reads back as the milliseconds it was formatted
      from, so distinct millisecond values never share a timestamp. */
  lemma FormatMillisRoundTrip(ms: nat)
    ensures ParseSrtTimestamp(FormatMillis(ms)) == Some(ms)
  {
    var t := ms / 1000;
    var hh, mm, ss, ff := t / 3600, t % 3600 / 60, t % 60, ms % 1000;
    NatToStringShort(mm);
    NatToStringShort(ss);
    NatToStringShort(ff);
    ZeroPadValue(hh, 2);
    ZeroPadValue(mm, 2);
    ZeroPadValue(ss, 2);
    ZeroPadValue(ff, 3);
    ParseSrtLayout(FormatMillis(ms), ZeroPad(hh, 2), ZeroPad(mm, 2), ZeroPad(ss, 2), ZeroPad(ff, 3));
    MillisDecomposition(ms);
  }

  /** Formatting preserves the order of times: a later time never gets an
      earlier timestamp. */
  lemma TimestampMillisMonotone(a: real, b: real)
    requires a <= b
    ensures TimestampMillis(a) <= TimestampMillis(b)
  {
  }

  // =====================================================================
  // Cue timestamps
  // =====================================================================

  /** The characters `parse_timestamp_sec` keeps: digits, ':' and '.'. */
  predicate TimestampChar(c: char) { IsDigit(c) || c == ':' || c == '.' }

  function CleanTimestamp(s: string): (r: string)
    ensures forall i :: 0 <= i < |r| ==> TimestampChar(r[i])
  {
    Filter(s, TimestampChar)
  }

  /** `int(p)` for a string of digits and dots: a value only for a
      non-empty run of digits. */
  function ParseInt(p: string): (r: Option<nat>)
    ensures r.Some? <==> |p| > 0 && AllDigits(p)
  {
    if |p| > 0 && AllDigits(p) then Some(DigitsValue(p)) else None
  }

  lemma TimestampPartsNumeric(clean: string)
    requires forall i :: 0 <= i < |clean| ==> TimestampChar(clean[i])
    ensures forall k :: 0 <= k < |Split(clean, ':')| ==> DigitsAndDots(Split(clean, ':')[k])
  {
    SplitKeeps(clean, ':', TimestampChar);
  }

  /** The time a list of `:`-separated parts stands for: `H:M:S` or `M:S`,
      hours and minutes integers, seconds possibly with a fraction. */
  function ParseParts(parts: seq<string>): (r: Option<real>)
    requires forall k :: 0 <= k < |parts| ==> DigitsAndDots(parts[k])
    ensures r.Some? ==> r.value >= 0.0 && |parts| in {2, 3}
  {
    if |parts| == 3 then
      var h, m, sec := ParseInt(parts[0]), ParseInt(parts[1]), ParseDecimal(parts[2]);
      if h.Some? && m.Some? && sec.Some? then Some((h.value * 3600 + m.value * 60) as real + sec.value) else None
    else if |parts| == 2 then
      var m, sec := ParseInt(parts[0]), ParseDecimal(parts[1]);
      if m.Some? && sec.Some? then Some((m.value * 60) as real + sec.value) else None
    else None
  }

  /** `parse_timestamp_sec` once the other characters are gone. */
  function ParseCleanTimestamp(clean: string): (r: Option<real>)
    requires forall i :: 0 <= i < |clean| ==> TimestampChar(clean[i])
    ensures r.Some? ==> r.value >= 0.0
    ensures r.Some? ==> |Split(clean, ':')| in {2, 3}
  {
    TimestampPartsNumeric(clean);
    ParseParts(Split(clean, ':'))
  }

  /** `parse_timestamp_sec`: `H:M:S` or `M:S` after dropping every
      character other than digits, ':' and '.'; hours and minutes are
      integers, seconds may carry a fraction. Any other shape, or a part
      that does not parse, gives no time. */
  function ParseTimestampSec(ts: string): (r: Option<real>)
    ensures r.Some? ==> r.value >= 0.0
  {
    ParseCleanTimestamp(CleanTimestamp(ts))
  }

  /** The part lists `parse_timestamp_sec` turns into a time: `M:S` or
      `H:M:S` with digit-only hours and minutes and seconds that `float`
      accepts. */
  predicate TimestampPartsShape(parts: seq<string>)
  {
    || (|parts| == 2 && |parts[0]| > 0 && AllDigits(parts[0]) && DecimalNumeral(parts[1]))
    || (|parts| == 3 && |parts[0]| > 0 && AllDigits(parts[0]) && |parts[1]| > 0 && AllDigits(parts[1]) &&
        DecimalNumeral(parts[2]))
  }

  /** `parse_timestamp_sec` returns a time exactly when the cleaned text
      splits on ':' into parts of that shape, and `None` otherwise. */
  lemma ParseTimestampSecDefined(ts: string)
    ensures ParseTimestampSec(ts).Some? <==> TimestampPartsShape(Split(CleanTimestamp(ts), ':'))
  {
    var parts := Split(CleanTimestamp(ts), ':');
    TimestampPartsNumeric(CleanTimestamp(ts));
    if |parts| == 2 {
      ParseDecimalDefined(parts[1]);
    } else if |parts| == 3 {
      ParseDecimalDefined(parts[2]);
    }
  }

  /** Characters other than digits, ':' and '.' never change the time. */
  lemma ParseTimestampIgnoresNoise(ts: string)
    ensures ParseTimestampSec(CleanTimestamp(ts)) == ParseTimestampSec(ts)
  {
    assert CleanTimestamp(CleanTimestamp(ts)) == CleanTimestamp(ts);
  }

  lemma SplitTwo(a: string, b: string)
    requires ':' !in a && ':' !in b
    ensures Split(a + ":" + b, ':') == [a, b]
  {
    var s := a + ":" + b;
    assert forall k :: |a| < k < |s| ==> s[k] == b[k - |a| - 1];
    LastIndexOfIs(s, ':', |a|);
    assert s[..|a|] == a && s[|a| + 1..] == b;
  }

  lemma SplitThree(a: string, b: string, c: string)
    requires ':' !in a && ':' !in b && ':' !in c
    ensures Split(a + ":" + b + ":" + c, ':') == [a, b, c]
  {
    var s := a + ":" + b + ":" + c;
    var ab := a + ":" + b;
    assert s == ab + ":" + c;
    assert forall k :: |ab| < k < |s| ==> s[k] == c[k - |ab| - 1];
    LastIndexOfIs(s, ':', |ab|);
    assert s[..|ab|] == ab && s[|ab| + 1..] == c;
    SplitTwo(a, b);
  }

  lemma TwoParts(m: string, sec: string)
    requires |m| > 0 && AllDigits(m) && DigitsAndDots(sec) && ParseDecimal(sec).Some?
    ensures ParseParts([m, sec]) == Some((DigitsValue(m) * 60) as real + ParseDecimal(sec).value)
  {
    var parts := [m, sec];
    assert parts[0] == m && parts[1] == sec;
    assert ParseInt(parts[0]) == Some(DigitsValue(m));
  }

  lemma ThreeParts(h: string, m: string, sec: string)
    requires |h| > 0 && AllDigits(h) && |m| > 0 && AllDigits(m) && DigitsAndDots(sec) && ParseDecimal(sec).Some?
    ensures ParseParts([h, m, sec]) ==
            Some((DigitsValue(h) * 3600 + DigitsValue(m) * 60) as real + ParseDecimal(sec).value)
  {
  }

  lemma AlreadyClean(s: string)
    requires forall i :: 0 <= i < |s| ==> TimestampChar(s[i])
    ensures ParseTimestampSec(s) == ParseCleanTimestamp(s)
  {
    assert CleanTimestamp(s) == s;
  }

  /** `M:S` reads as M·60 + S for digit minutes and decimal seconds. */
  lemma ParseMinutesSeconds(s: string, m: string, sec: string)
    requires |m| > 0 && AllDigits(m) && DigitsAndDots(sec) && ParseDecimal(sec).Some?
    requires s == m + ":" + sec
    ensures ParseTimestampSec(s) == Some((DigitsValue(m) * 60) as real + ParseDecimal(sec).value)
  {
    assert forall i :: 0 <= i < |s| ==> TimestampChar(s[i]);
    AlreadyClean(s);
    SplitTwo(m, sec);
    TwoParts(m, sec);
  }

  /** `H:M:S` reads as H·3600 + M·60 + S. */
  lemma ParseHoursMinutesSeconds(s: string, h: string, m: string, sec: string)
    requires |h| > 0 && AllDigits(h) && |m| > 0 && AllDigits(m)
    requires DigitsAndDots(sec) && ParseDecimal(sec).Some?
    requires s == h + ":" + m + ":" + sec
    ensures ParseTimestampSec(s) ==
            Some((DigitsValue(h) * 3600 + DigitsValue(m) * 60) as real + ParseDecimal(sec).value)
  {
    assert forall i :: 0 <= i < |s| ==> TimestampChar(s[i]);
    AlreadyClean(s);
    SplitThree(h, m, sec);
    ThreeParts(h, m, sec);
  }

  // =====================================================================
  // Sections
  // =====================================================================

  /** The Markdown characters dropped before lines are compared. */
  predicate MarkupChar(c: char) { c == '*' || c == '#' || c == '_' || c == ':' }

  predicate Plain(c: char) { !MarkupChar(c) }

  function StripMarkup(s: string): string
  {
    RemoveChar(RemoveChar(RemoveChar(RemoveChar(s, '*'), '#'), '_'), ':')
  }

  /** The form in which a line is searched for headers: trimmed,
      lower-cased, then stripped of '*', '#', '_' and ':' one character
      after another. Removing characters can expose spaces that were
      inside the line, so a clean line may still start with a space
      ("## Transcript" becomes " transcript"). */
  function Normalize(line: string): string
  {
    StripMarkup(Lower(Strip(line)))
  }

  /** A clean line is the trimmed, lower-cased line without its Markdown
      characters, and has none of them left. */
  lemma NormalizeKeepsPlain(line: string)
    ensures Normalize(line) == Filter(Lower(Strip(line)), Plain)
    ensures forall i :: 0 <= i < |Normalize(line)| ==> !MarkupChar(Normalize(line)[i])
  {
    StripMarkupIsFilter(Lower(Strip(line)));
  }

  lemma RemoveCharCons(x: char, t: string, c: char)
    ensures RemoveChar([x] + t, c) == if x == c then RemoveChar(t, c) else [x] + RemoveChar(t, c)
  {
    assert ([x] + t)[1..] == t;
  }

  /** The four removals together keep exactly the characters that are not
      Markdown, in order: the order in which they are applied does not
      matter. */
  lemma {:induction false} StripMarkupIsFilter(s: string)
    ensures StripMarkup(s) == Filter(s, Plain)
    decreases |s|
  {
    if |s| > 0 {
      var x, t := s[0], s[1..];
      assert s == [x] + t;
      StripMarkupIsFilter(t);
      RemoveCharCons(x, t, '*');
      var a := RemoveChar(t, '*');
      RemoveCharCons(x, a, '#');
      var b := RemoveChar(a, '#');
      RemoveCharCons(x, b, '_');
      var c := RemoveChar(b, '_');
      RemoveCharCons(x, c, ':');
    }
  }

  /** `target in clean_line and len(clean_line) < 50`. */
  predicate IsHeader(clean: string, target: string)
  {
    Contains(clean, target) && |clean| < 50
  }

  /** The first line at or after `from` that is a header for `target`, or
      -1 when there is none. */
  function FirstHeader(clean: seq<string>, target: string, from: nat): (r: int)
    requires from <= |clean|
    ensures r == -1 || (from <= r < |clean| && IsHeader(clean[r], target))
    ensures forall i :: from <= i < |clean| && (r == -1 || i < r) ==> !IsHeader(clean[i], target)
    decreases |clean| - from
  {
    if from == |clean| then -1
    else if IsHeader(clean[from], target) then from
    else FirstHeader(clean, target, from + 1)
  }

  /** The section headers searched for, in order of preference: the
      requested one, and for any choice other than "translation" or
      "transcript" the translation before the transcript. */
  function PriorityTargets(choice: string): (targets: seq<string>)
    ensures choice == "translation" ==> targets == ["timestamped translation"]
    ensures choice == "transcript" ==> targets == ["timestamped transcript"]
    ensures choice != "translation" && choice != "transcript" ==>
              targets == ["timestamped translation", "timestamped transcript"]
  {
    if choice == "translation" then ["timestamped translation"]
    else if choice == "transcript" then ["timestamped transcript"]
    else ["timestamped translation", "timestamped transcript"]
  }

  /** The line the section starts at: the first header of the first target
      that has one; -1 when no target has a header. */
  function SectionStart(clean: seq<string>, targets: seq<string>): (r: int)
    ensures -1 <= r < |clean|
    ensures r == -1 <==>
            forall k, i :: 0 <= k < |targets| && 0 <= i < |clean| ==> !IsHeader(clean[i], targets[k])
    decreases |targets|
  {
    if |targets| == 0 then -1
    else
      var i := FirstHeader(clean, targets[0], 0);
      if i >= 0 then i
      else
        assert forall k :: 0 < k < |targets| ==> targets[k] == targets[1..][k - 1];
        SectionStart(clean, targets[1..])
  }

  /** A higher-priority target wins even when a later target's header
      comes earlier in the text: the section starts at the first header of
      some target, and no target before it has a header at all. */
  lemma {:induction false} SectionStartPrefers(clean: seq<string>, targets: seq<string>)
    ensures SectionStart(clean, targets) >= 0 ==>
            exists k :: 0 <= k < |targets| && SectionStart(clean, targets) == FirstHeader(clean, targets[k], 0) &&
              forall j :: 0 <= j < k ==> FirstHeader(clean, targets[j], 0) == -1
    decreases |targets|
  {
    if |targets| > 0 && FirstHeader(clean, targets[0], 0) < 0 {
      var r := SectionStart(clean, targets[1..]);
      SectionStartPrefers(clean, targets[1..]);
      if r >= 0 {
        var k :| 0 <= k < |targets[1..]| && r == FirstHeader(clean, targets[1..][k], 0) &&
                 forall j :: 0 <= j < k ==> FirstHeader(clean, targets[1..][j], 0) == -1;
        assert r == FirstHeader(clean, targets[k + 1], 0);
        forall j | 0 <= j < k + 1 ensures FirstHeader(clean, targets[j], 0) == -1 {
          if j > 0 {
            assert targets[j] == targets[1..][j - 1];
          }
        }
      }
    }
  }

  /** The inner search of `extract_segments`: the first header line for
      one target. */
  method FindHeader(clean: seq<string>, target: string) returns (r: int)
    ensures r == FirstHeader(clean, target, 0)
  {
    r := -1;
    var i := 0;
    while i < |clean|
      invariant 0 <= i <= |clean|
      invariant forall j :: 0 <= j < i ==> !IsHeader(clean[j], target)
    {
      if IsHeader(clean[i], target) {
        r := i;
        break;
      }
      i := i + 1;
    }
  }

  /** Steps 2 and 3 of `extract_segments`, including the fallback search
      for the transcript header under "both", which never finds anything
      the priority search missed. */
  method FindSectionStart(clean: seq<string>, choice: string) returns (start: int)
    ensures start == SectionStart(clean, PriorityTargets(choice))
  {
    var targets := PriorityTargets(choice);
    start := -1;
    var t := 0;
    while t < |targets|
      invariant 0 <= t <= |targets|
      invariant SectionStart(clean, targets) == SectionStart(clean, targets[t..])
    {
      start := FindHeader(clean, targets[t]);
      if start != -1 {
        break;
      }
      assert targets[t..][1..] == targets[t + 1..];
      t := t + 1;
    }
    if start == -1 && choice == "both" {
      start := FindHeader(clean, "timestamped transcript");
    }
  }

  /** A line that ends the section: short, naming the transcript or the
      translation, and either timestamped or exactly one of the two words. */
  predicate IsSectionEnd(clean: string)
  {
    (Contains(clean, "transcript") || Contains(clean, "translation")) && |clean| < 50 &&
    (Contains(clean, "timestamped") || clean == "transcript" || clean == "translation")
  }

  /** The first line at or after `from` that ends a section, or the number
      of lines. */
  function SectionEnd(clean: seq<string>, from: nat): (r: nat)
    requires from <= |clean|
    ensures from <= r <= |clean|
    ensures r < |clean| ==> IsSectionEnd(clean[r])
    ensures forall i :: from <= i < r ==> !IsSectionEnd(clean[i])
    decreases |clean| - from
  {
    if from == |clean| then from
    else if IsSectionEnd(clean[from]) then from
    else SectionEnd(clean, from + 1)
  }

  /** Step 4 of `extract_segments`: scanning starts on the line after the
      header. */
  method FindSectionEnd(clean: seq<string>, start: nat) returns (end: nat)
    requires start < |clean|
    ensures end == SectionEnd(clean, start + 1)
  {
    end := |clean|;
    var i := start + 1;
    while i < |clean|
      invariant start + 1 <= i <= |clean|
      invariant forall j :: start + 1 <= j < i ==> !IsSectionEnd(clean[j])
    {
      if IsSectionEnd(clean[i]) {
        end := i;
        break;
      }
      i := i + 1;
    }
  }

  // =====================================================================
  // Cue lines
  // =====================================================================

  /** One timestamped line of a section: its start within the chunk, in
      seconds, and its text. */
  datatype Cue = Cue(start: real, text: string)

  /** The first position at or after `i` that does not hold whitespace. */
  function SkipSpaces(s: string, i: nat): (j: nat)
    requires i <= |s|
    ensures i <= j <= |s|
    ensures forall k :: i <= k < j ==> IsSpace(s[k])
    ensures j < |s| ==> !IsSpace(s[j])
    decreases |s| - i
  {
    if i < |s| && IsSpace(s[i]) then SkipSpaces(s, i + 1) else i
  }

  /** The end of the longest run of at most `max` digits starting at `i`. */
  function DigitsUpTo(s: string, i: nat, max: nat): (j: nat)
    requires i <= |s|
    ensures i <= j <= |s| && j - i <= max
    ensures forall k :: i <= k < j ==> IsDigit(s[k])
    ensures j < |s| && j - i < max ==> !IsDigit(s[j])
    decreases max
  {
    if max > 0 && i < |s| && IsDigit(s[i]) then DigitsUpTo(s, i + 1, max - 1) else i
  }

  /** What `.` matches repeatedly: everything before the first '\n'. */
  function UpToNewline(s: string): (r: string)
    ensures r <= s && '\n' !in r
    ensures |r| < |s| ==> s[|r|] == '\n'
  {
    if |s| == 0 || s[0] == '\n' then [] else [s[0]] + UpToNewline(s[1..])
  }

  /** `\d{1,2}:\d{2}(?:[:.]\d{1,3})?` matching all of `ts`, with its first
      ':' at position `c`. */
  predicate TimestampShapeAt(ts: string, c: nat)
  {
    1 <= c <= 2 && c + 3 <= |ts| && AllDigits(ts[..c]) && ts[c] == ':' && AllDigits(ts[c + 1..c + 3]) &&
    (|ts| == c + 3 || (c + 5 <= |ts| <= c + 7 && (ts[c + 3] == ':' || ts[c + 3] == '.') && AllDigits(ts[c + 4..])))
  }

  predicate TimestampShape(ts: string)
  {
    TimestampShapeAt(ts, 1) || TimestampShapeAt(ts, 2)
  }

  /** The timestamp group found at `p` in `s` and ending at `tsEnd` has the
      timestamp shape. */
  lemma ShapeOfSlice(s: string, p: nat, h: nat, tsEnd: nat)
    requires p < h <= p + 2 && h + 3 <= tsEnd <= |s|
    requires forall k :: p <= k < h ==> IsDigit(s[k])
    requires s[h] == ':' && IsDigit(s[h + 1]) && IsDigit(s[h + 2])
    requires tsEnd == h + 3 ||
             (h + 5 <= tsEnd <= h + 7 && (s[h + 3] == ':' || s[h + 3] == '.') &&
              forall k :: h + 4 <= k < tsEnd ==> IsDigit(s[k]))
    ensures TimestampShapeAt(s[p..tsEnd], h - p)
  {
    var ts, c := s[p..tsEnd], h - p;
    assert forall k :: 0 <= k < |ts| ==> ts[k] == s[p + k];
    var hh, mm := ts[..c], ts[c + 1..c + 3];
    assert forall k :: 0 <= k < c ==> hh[k] == s[p + k];
    assert mm[0] == s[h + 1] && mm[1] == s[h + 2];
    if tsEnd > h + 3 {
      var ff := ts[c + 4..];
      assert forall k :: 0 <= k < |ff| ==> ff[k] == s[h + 4 + k];
    }
  }

  /** `[\[\(]?\s*` spanning `s[..p]`, with `a` past the bracket: the
      bracket is taken exactly when the line starts with one, and
      whitespace runs from there to `p`. */
  predicate OpenThenSpaces(s: string, a: nat, p: nat)
  {
    && a <= 1 && a <= p <= |s|
    && (a == 1 <==> 0 < |s| && (s[0] == '[' || s[0] == '('))
    && forall k :: a <= k < p ==> IsSpace(s[k])
  }

  /** Group 1 of the cue pattern: `ts` is `s[p..e]`, has the timestamp
      shape, and no longer text starting at `p` has it (the greedy
      repetitions and the optional fraction take all they can). */
  ghost predicate LongestTimestampAt(s: string, p: nat, e: nat, ts: string)
  {
    && p <= e <= |s| && ts == s[p..e] && TimestampShape(ts)
    && forall e' :: e < e' <= |s| ==> !TimestampShape(s[p..e'])
  }

  /** `[\]\)]?:?\s*` from `e` to `j`: a closing bracket whenever one
      follows, then a ':' whenever one follows, then all the whitespace. */
  predicate CloseThenSpaces(s: string, e: nat, j: nat)
  {
    && e <= j <= |s|
    && var j1 := if e < |s| && (s[e] == ']' || s[e] == ')') then e + 1 else e;
       var j2 := if j1 < |s| && s[j1] == ':' then j1 + 1 else j1;
       j2 <= j && (forall k :: j2 <= k < j ==> IsSpace(s[k])) && (j < |s| ==> !IsSpace(s[j]))
  }

  /** Group 2 of the cue pattern, `(.*)` from `j`: the text up to the
      first '\n'. */
  predicate UpToFirstNewline(s: string, j: nat, rest: string)
  {
    j <= |s| && rest <= s[j..] && '\n' !in rest && (|rest| < |s| - j ==> s[j + |rest|] == '\n')
  }

  /** Where the whitespace before group 1 starts: past an opening bracket
      when the line starts with one. */
  function OpenLen(s: string): nat
  {
    if 0 < |s| && (s[0] == '[' || s[0] == '(') then 1 else 0
  }

  /** Where group 1 of the cue pattern starts and ends, if the line
      matches: an optional opening bracket, whitespace, one or two digits
      and ':', two digits, then ':' or '.' with up to three digits when a
      digit follows. */
  function TimestampSpan(s: string): (r: Option<(nat, nat)>)
    ensures r.Some? ==> r.value.0 <= r.value.1 <= |s| && TimestampShape(s[r.value.0..r.value.1])
  {
    var p := SkipSpaces(s, OpenLen(s));
    var h := DigitsUpTo(s, p, 2);
    if h == p || h + 2 >= |s| || s[h] != ':' || !IsDigit(s[h + 1]) || !IsDigit(s[h + 2]) then None
    else
      var e := h + 3;
      var tsEnd := if e + 1 < |s| && (s[e] == ':' || s[e] == '.') && IsDigit(s[e + 1])
                   then DigitsUpTo(s, e + 1, 3) else e;
      ShapeOfSlice(s, p, h, tsEnd);
      Some((p, tsEnd))
  }

  /** Where group 2 starts: past an optional closing bracket, an optional
      ':' and whitespace, each taken whenever it is there. */
  function RestStart(s: string, tsEnd: nat): (j: nat)
    requires tsEnd <= |s|
    ensures CloseThenSpaces(s, tsEnd, j)
  {
    var j1 := if tsEnd < |s| && (s[tsEnd] == ']' || s[tsEnd] == ')') then tsEnd + 1 else tsEnd;
    var j2 := if j1 < |s| && s[j1] == ':' then j1 + 1 else j1;
    SkipSpaces(s, j2)
  }

  /** The two groups of a matched cue line. */
  datatype CueMatch = CueMatch(timestamp: string, rest: string)

  /** `re.search(r'^[\[\(]?\s*(\d{1,2}:\d{2}(?:[:.]\d{1,3})?)[\]\)]?:?\s*(.*)', s)`
      as Python's backtracking matcher evaluates it. Each optional or
      repeated part takes as much as it can, and giving any of it back
      never turns a failure into a match: after a bracket only whitespace
      or a digit may follow, after two hour digits only ':' may, and
      everything after the minutes always matches. */
  function MatchCueLine(s: string): (r: Option<CueMatch>)
    ensures r.Some? ==> TimestampShape(r.value.timestamp)
    ensures r.Some? ==> '\n' !in r.value.rest
    ensures r.Some? && |r.value.rest| > 0 ==> !IsSpace(r.value.rest[0])
  {
    match TimestampSpan(s)
    case None => None
    case Some((p, e)) =>
      var j := RestStart(s, e);
      Some(CueMatch(s[p..e], UpToNewline(s[j..])))
  }

  /** The cue pattern matches `s` with group 1 equal to `ts` and group 2
      equal to `rest`, at the positions Python's leftmost, greedy matcher
      settles on: the opening part ends at `p`, group 1 at `e`, the closing
      part at `j`. */
  ghost predicate CueLineLayout(s: string, a: nat, p: nat, e: nat, j: nat, ts: string, rest: string)
  {
    && OpenThenSpaces(s, a, p)
    && LongestTimestampAt(s, p, e, ts)
    && CloseThenSpaces(s, e, j)
    && UpToFirstNewline(s, j, rest)
  }

  ghost predicate CueLineShape(s: string, ts: string, rest: string)
  {
    exists a: nat, p: nat, e: nat, j: nat :: CueLineLayout(s, a, p, e, j, ts, rest)
  }

  /** A whitespace run from `i` that stops at a non-whitespace character
      or at the end is the one `SkipSpaces` finds. */
  lemma SkipSpacesUnique(s: string, i: nat, j: nat)
    requires i <= j <= |s|
    requires forall k :: i <= k < j ==> IsSpace(s[k])
    requires j < |s| ==> !IsSpace(s[j])
    ensures SkipSpaces(s, i) == j
  {
  }

  /** The closing part of the pattern ends where `RestStart` says. */
  lemma CloseThenSpacesUnique(s: string, e: nat, j: nat)
    requires CloseThenSpaces(s, e, j)
    ensures RestStart(s, e) == j
  {
    var j1 := if e < |s| && (s[e] == ']' || s[e] == ')') then e + 1 else e;
    var j2 := if j1 < |s| && s[j1] == ':' then j1 + 1 else j1;
    SkipSpacesUnique(s, j2, j);
  }

  /** A prefix without '\n' that stops at a '\n' or at the end is the one
      `UpToNewline` takes. */
  lemma UpToNewlineUnique(t: string, r: string)
    requires r <= t && '\n' !in r && (|r| < |t| ==> t[|r|] == '\n')
    ensures UpToNewline(t) == r
  {
    var u := UpToNewline(t);
    assert |u| == |r|;
    assert u == t[..|u|] && r == t[..|r|];
  }

  /** The converse of `ShapeOfSlice`: a timestamp-shaped slice of `s`
      read position by position. */
  lemma SliceOfShape(s: string, p: nat, e: nat, c: nat)
    requires p <= e <= |s| && TimestampShapeAt(s[p..e], c)
    ensures forall k :: p <= k < p + c ==> IsDigit(s[k])
    ensures s[p + c] == ':' && IsDigit(s[p + c + 1]) && IsDigit(s[p + c + 2])
    ensures e == p + c + 3 ||
            (p + c + 5 <= e <= p + c + 7 && (s[p + c + 3] == ':' || s[p + c + 3] == '.') &&
             forall k :: p + c + 4 <= k < e ==> IsDigit(s[k]))
  {
    var ts := s[p..e];
    assert forall k :: 0 <= k < |ts| ==> ts[k] == s[p + k];
    var hh, mm := ts[..c], ts[c + 1..c + 3];
    assert forall k :: p <= k < p + c ==> s[k] == hh[k - p];
    assert mm[0] == s[p + c + 1] && mm[1] == s[p + c + 2];
    if e > p + c + 3 {
      var ff := ts[c + 4..];
      assert forall k :: 0 <= k < |ff| ==> ff[k] == s[p + c + 4 + k];
    }
  }

  /** When a timestamp-shaped text starts where the optional bracket and
      the whitespace end, `TimestampSpan` finds group 1 there and takes at
      least as much of the line. */
  lemma TimestampSpanFinds(s: string, p: nat, e: nat)
    requires p == SkipSpaces(s, OpenLen(s))
    requires p <= e <= |s| && TimestampShape(s[p..e])
    ensures TimestampSpan(s).Some? && TimestampSpan(s).value.0 == p && e <= TimestampSpan(s).value.1
  {
    var c := if TimestampShapeAt(s[p..e], 1) then 1 else 2;
    SliceOfShape(s, p, e, c);
    HoursEnd(s, p, e, c);
    if e > p + c + 3 {
      FractionCovers(s, p + c + 4, e);
    }
  }

  /** The hour digits of a timestamp-shaped slice are the run `DigitsUpTo`
      reads. */
  lemma HoursEnd(s: string, p: nat, e: nat, c: nat)
    requires p <= e <= |s| && TimestampShapeAt(s[p..e], c)
    requires forall k :: p <= k < p + c ==> IsDigit(s[k])
    requires s[p + c] == ':'
    ensures DigitsUpTo(s, p, 2) == p + c
  {
    if c == 2 {
      assert IsDigit(s[p + 1]);
    }
  }

  /** Up to three fraction digits from `i` reach at least to `e`. */
  lemma FractionCovers(s: string, i: nat, e: nat)
    requires i <= e <= |s| && e - i <= 3
    requires forall k :: i <= k < e ==> IsDigit(s[k])
    ensures DigitsUpTo(s, i, 3) >= e
  {
  }

  /** Group 1 starts where the opening bracket and the whitespace end. */
  lemma SpanStartsAfterOpen(s: string)
    requires TimestampSpan(s).Some?
    ensures TimestampSpan(s).value.0 == SkipSpaces(s, OpenLen(s))
    ensures OpenThenSpaces(s, OpenLen(s), TimestampSpan(s).value.0)
  {
  }

  lemma ShapeStartsWithDigit(ts: string)
    requires TimestampShape(ts)
    ensures 0 < |ts| && IsDigit(ts[0])
  {
    assert ts[..1][0] == ts[0];
  }

  /** Group 1 as `TimestampSpan` finds it is the longest timestamp-shaped
      text at its start. */
  lemma SpanIsLongest(s: string)
    requires TimestampSpan(s).Some?
    ensures LongestTimestampAt(s, TimestampSpan(s).value.0, TimestampSpan(s).value.1,
                               s[TimestampSpan(s).value.0..TimestampSpan(s).value.1])
  {
    var (p, e) := TimestampSpan(s).value;
    SpanStartsAfterOpen(s);
    forall e' | e < e' <= |s|
      ensures !TimestampShape(s[p..e'])
    {
      if TimestampShape(s[p..e']) {
        TimestampSpanFinds(s, p, e');
      }
    }
  }

  /** Group 1 of a laid-out match is the span `TimestampSpan` finds. */
  lemma LongestShapeIsSpan(s: string, a: nat, p: nat, e: nat, ts: string)
    requires OpenThenSpaces(s, a, p) && LongestTimestampAt(s, p, e, ts)
    ensures TimestampSpan(s) == Some((p, e))
  {
    OpenEndsAtTimestamp(s, a, p, e, ts);
    TimestampSpanFinds(s, p, e);
    SpanNotLonger(s, p, e, ts);
  }

  /** The whitespace before group 1 ends where the timestamp starts. */
  lemma OpenEndsAtTimestamp(s: string, a: nat, p: nat, e: nat, ts: string)
    requires OpenThenSpaces(s, a, p) && LongestTimestampAt(s, p, e, ts)
    ensures p == SkipSpaces(s, OpenLen(s))
  {
    ShapeStartsWithDigit(ts);
    assert ts[0] == s[p];
    SkipSpacesUnique(s, a, p);
  }

  /** Group 1 found at the start of the longest timestamp-shaped text ends
      no later than that text. */
  lemma SpanNotLonger(s: string, p: nat, e: nat, ts: string)
    requires LongestTimestampAt(s, p, e, ts)
    requires TimestampSpan(s).Some? && TimestampSpan(s).value.0 == p
    ensures TimestampSpan(s).value.1 <= e
  {
    var v := TimestampSpan(s).value;
    assert TimestampShape(s[p..v.1]);
  }

  /** Soundness: what `MatchCueLine` returns is a match of the cue
      pattern, laid out as `CueLineLayout` describes. */
  lemma MatchCueLineLaidOut(s: string) returns (a: nat, p: nat, e: nat, j: nat)
    requires MatchCueLine(s).Some?
    ensures CueLineLayout(s, a, p, e, j, MatchCueLine(s).value.timestamp, MatchCueLine(s).value.rest)
  {
    a := OpenLen(s);
    p, e := TimestampSpan(s).value.0, TimestampSpan(s).value.1;
    j := RestStart(s, e);
    SpanStartsAfterOpen(s);
    SpanIsLongest(s);
    var m := MatchCueLine(s).value;
    assert m == CueMatch(s[p..e], UpToNewline(s[j..]));
    assert UpToFirstNewline(s, j, m.rest);
  }

  /** Completeness: whenever the cue pattern matches `s`, `MatchCueLine`
      returns that match's groups. */
  lemma LaidOutCueLineMatches(s: string, a: nat, p: nat, e: nat, j: nat, ts: string, rest: string)
    requires CueLineLayout(s, a, p, e, j, ts, rest)
    ensures MatchCueLine(s) == Some(CueMatch(ts, rest))
  {
    LongestShapeIsSpan(s, a, p, e, ts);
    CloseThenSpacesUnique(s, e, j);
    UpToNewlineUnique(s[j..], rest);
  }

  /** `MatchCueLine` is the cue pattern: it returns exactly the groups of
      the match `CueLineLayout` describes, and nothing when the line has
      no such match. */
  lemma MatchCueLineIsShape(s: string, ts: string, rest: string)
    ensures MatchCueLine(s) == Some(CueMatch(ts, rest)) <==> CueLineShape(s, ts, rest)
  {
    if MatchCueLine(s) == Some(CueMatch(ts, rest)) {
      var a, p, e, j := MatchCueLineLaidOut(s);
    }
    if CueLineShape(s, ts, rest) {
      var a, p, e, j :| CueLineLayout(s, a, p, e, j, ts, rest);
      LaidOutCueLineMatches(s, a, p, e, j, ts, rest);
    }
  }

  /** Every timestamp the cue pattern accepts reads as a time: `M:SS` and
      `M:SS.f` as minutes and seconds, `H:MM:SS` as hours, minutes and
      seconds. */
  lemma MatchedTimestampParses(ts: string)
    requires TimestampShape(ts)
    ensures ParseTimestampSec(ts).Some?
  {
    var c := if TimestampShapeAt(ts, 1) then 1 else 2;
    if |ts| == c + 3 {
      MinutesShapeParses(ts, c);
    } else if ts[c + 3] == '.' {
      FractionShapeParses(ts, c);
    } else {
      HoursShapeParses(ts, c);
    }
  }

  lemma MinutesShapeParses(ts: string, c: nat)
    requires TimestampShapeAt(ts, c) && |ts| == c + 3
    ensures ParseTimestampSec(ts).Some?
  {
    var a, b := ts[..c], ts[c + 1..c + 3];
    assert ts == a + ":" + b;
    ParseMinutesSeconds(ts, a, b);
  }

  lemma FractionShapeParses(ts: string, c: nat)
    requires TimestampShapeAt(ts, c) && |ts| > c + 3 && ts[c + 3] == '.'
    ensures ParseTimestampSec(ts).Some?
  {
    var a, b, f := ts[..c], ts[c + 1..c + 3], ts[c + 4..];
    ParseDecimalDotted(b, f);
    var sec := b + "." + f;
    assert ts == a + ":" + sec;
    ParseMinutesSeconds(ts, a, sec);
  }

  lemma HoursShapeParses(ts: string, c: nat)
    requires TimestampShapeAt(ts, c) && |ts| > c + 3 && ts[c + 3] == ':'
    ensures ParseTimestampSec(ts).Some?
  {
    var a, b, f := ts[..c], ts[c + 1..c + 3], ts[c + 4..];
    assert ts == a + ":" + b + ":" + f;
    ParseHoursMinutesSeconds(ts, a, b, f);
  }

  /** The line with bold and underline markers removed and trimmed, as the
      cue pattern sees it. */
  function CueLineText(line: string): string
  {
    RemovePair(RemovePair(Strip(line), '*', '*'), '_', '_')
  }

  /** The cue a section line carries: the line must match the cue pattern
      and leave some text after the timestamp. */
  function CueOf(line: string): (r: Option<Cue>)
    ensures r.Some? ==> r.value.start >= 0.0 && |r.value.text| > 0
    ensures r.Some? ==> !IsSpace(r.value.text[0]) && !IsSpace(r.value.text[|r.value.text| - 1])
  {
    match MatchCueLine(CueLineText(line))
    case None => None
    case Some(m) =>
      var text := Strip(m.rest);
      if |text| == 0 then None
      else match ParseTimestampSec(m.timestamp)
        case None => None
        case Some(sec) => Some(Cue(sec, text))
  }

  /** A line is dropped only when it does not match or has no text: a
      matched timestamp always parses, so the check for an unparsable one
      never drops anything. */
  lemma CueOfDropsOnlyEmpty(line: string)
    ensures CueOf(line).Some? <==>
            MatchCueLine(CueLineText(line)).Some? && |Strip(MatchCueLine(CueLineText(line)).value.rest)| > 0
  {
    var m := MatchCueLine(CueLineText(line));
    if m.Some? {
      MatchedTimestampParses(m.value.timestamp);
    }
  }

  /** The cues of a block of lines, in line order. */
  function CuesIn(block: seq<string>): (cues: seq<Cue>)
    ensures |cues| <= |block|
  {
    if |block| == 0 then []
    else
      var init := CuesIn(block[..|block| - 1]);
      match CueOf(block[|block| - 1])
      case None => init
      case Some(c) => init + [c]
  }

  lemma CuesInStep(block: seq<string>, k: nat)
    requires k < |block|
    ensures CuesIn(block[..k + 1]) ==
            CuesIn(block[..k]) + (if CueOf(block[k]).Some? then [CueOf(block[k]).value] else [])
  {
    assert block[..k + 1][..k] == block[..k];
  }

  /** Every cue of a block is the cue of one of its lines. */
  lemma {:induction false} CuesInFromBlock(block: seq<string>)
    ensures forall c :: c in CuesIn(block) ==> exists k :: 0 <= k < |block| && CueOf(block[k]) == Some(c)
  {
    if |block| > 0 {
      var init := block[..|block| - 1];
      CuesInFromBlock(init);
      assert forall k :: 0 <= k < |init| ==> init[k] == block[k];
    }
  }

  /** The same for a block cut out of a longer list of lines. */
  lemma CuesInFromSlice(lines: seq<string>, from: nat, to: nat)
    requires from <= to <= |lines|
    ensures forall c :: c in CuesIn(lines[from..to]) ==> exists k :: from <= k < to && CueOf(lines[k]) == Some(c)
  {
    var block := lines[from..to];
    CuesInFromBlock(block);
    forall c | c in CuesIn(block) ensures exists k :: from <= k < to && CueOf(lines[k]) == Some(c) {
      var k :| 0 <= k < |block| && CueOf(block[k]) == Some(c);
      assert block[k] == lines[from + k];
    }
  }

  function CleanLines(lines: seq<string>): (clean: seq<string>)
    ensures |clean| == |lines|
  {
    seq(|lines|, k requires 0 <= k < |lines| => Normalize(lines[k]))
  }

  /** The cues of the lines strictly between the section header and the
      line that ends the section; nothing when no header is found. */
  function SectionCues(lines: seq<string>, targets: seq<string>): seq<Cue>
  {
    var clean := CleanLines(lines);
    var start := SectionStart(clean, targets);
    if start < 0 then [] else CuesIn(lines[start + 1..SectionEnd(clean, start + 1)])
  }

  /** `extract_segments` on the text of a transcript. */
  function Segments(text: string, choice: string): seq<Cue>
  {
    SectionCues(SplitLines(text), PriorityTargets(choice))
  }

  /** `extract_segments`. The per-line work (marker removal, the cue
      pattern, the text and timestamp checks) is `CueOf`. */
  method ExtractSegments(text: string, choice: string) returns (segments: seq<Cue>)
    ensures segments == Segments(text, choice)
  {
    var lines := SplitLines(text);
    segments := SectionSegments(lines, choice);
  }

  method SectionSegments(lines: seq<string>, choice: string) returns (segments: seq<Cue>)
    ensures segments == SectionCues(lines, PriorityTargets(choice))
  {
    var clean := NormalizeLines(lines);
    var start := FindSectionStart(clean, choice);
    assert start == SectionStart(CleanLines(lines), PriorityTargets(choice));
    if start == -1 {
      assert SectionCues(lines, PriorityTargets(choice)) == [];
      return [];
    }
    var end := FindSectionEnd(clean, start);
    assert end == SectionEnd(CleanLines(lines), start + 1);
    segments := CollectCues(lines[start + 1..end]);
    assert SectionCues(lines, PriorityTargets(choice)) == CuesIn(lines[start + 1..end]);
  }

  /** Step 1 of `extract_segments`. */
  method NormalizeLines(lines: seq<string>) returns (clean: seq<string>)
    ensures clean == CleanLines(lines)
  {
    clean := [];
    for k := 0 to |lines|
      invariant clean == CleanLines(lines[..k])
    {
      CleanLinesStep(lines, k);
      clean := clean + [Normalize(lines[k])];
    }
    assert lines[..|lines|] == lines;
  }

  lemma CleanLinesStep(lines: seq<string>, k: nat)
    requires k < |lines|
    ensures CleanLines(lines[..k + 1]) == CleanLines(lines[..k]) + [Normalize(lines[k])]
  {
    var a, b := CleanLines(lines[..k + 1]), CleanLines(lines[..k]);
    forall j | 0 <= j < k + 1
      ensures a[j] == (b + [Normalize(lines[k])])[j]
    {
      CleanLineAt(lines[..k + 1], j);
      if j < k {
        CleanLineAt(lines[..k], j);
      }
    }
  }

  lemma CleanLineAt(lines: seq<string>, j: nat)
    requires j < |lines|
    ensures CleanLines(lines)[j] == Normalize(lines[j])
  {
  }

  /** Step 5 of `extract_segments`: the cues of the block, in order. */
  method CollectCues(block: seq<string>) returns (segments: seq<Cue>)
    ensures segments == CuesIn(block)
  {
    segments := [];
    for k := 0 to |block|
      invariant segments == CuesIn(block[..k])
    {
      CuesInStep(block, k);
      var cue := CueOf(block[k]);
      if cue.Some? {
        segments := segments + [cue.value];
      }
    }
    assert block[..|block|] == block;
  }

  // =====================================================================
  // The cue format the transcription prompt asks for
  // =====================================================================

  /** The characters of `[MM:SS.mmm] text` at fixed positions. */
  lemma RenderedLayout(line: string, mm: string, ss: string, fff: string, text: string)
    requires |mm| == 2 && |ss| == 2 && |fff| == 3
    requires line == "[" + mm + ":" + ss + "." + fff + "] " + text
    ensures |line| == 12 + |text|
    ensures line[0] == '[' && line[3] == ':' && line[6] == '.' && line[10] == ']' && line[11] == ' '
    ensures line[1] == mm[0] && line[2] == mm[1] && line[4] == ss[0] && line[5] == ss[1]
    ensures line[7] == fff[0] && line[8] == fff[1] && line[9] == fff[2]
    ensures line[1..10] == mm + ":" + (ss + "." + fff) && line[12..] == text
  {
  }

  /** The cue pattern finds the timestamp at positions 1 to 10 and the text
      after the bracket and the space. */
  lemma RenderedMatch(line: string, text: string)
    requires |line| == 12 + |text| && line[12..] == text
    requires line[0] == '[' && line[3] == ':' && line[6] == '.' && line[10] == ']' && line[11] == ' '
    requires IsDigit(line[1]) && IsDigit(line[2]) && IsDigit(line[4]) && IsDigit(line[5])
    requires IsDigit(line[7]) && IsDigit(line[8]) && IsDigit(line[9])
    requires |text| > 0 && !IsSpace(text[0]) && '\n' !in text
    ensures MatchCueLine(line) == Some(CueMatch(line[1..10], text))
  {
    assert SkipSpaces(line, 1) == 1;
    assert DigitsUpTo(line, 3, 0) == 3;
    assert DigitsUpTo(line, 2, 1) == 3;
    assert DigitsUpTo(line, 1, 2) == 3;
    assert DigitsUpTo(line, 10, 0) == 10;
    assert DigitsUpTo(line, 9, 1) == 10;
    assert DigitsUpTo(line, 8, 2) == 10;
    assert DigitsUpTo(line, 7, 3) == 10;
    assert TimestampSpan(line) == Some((1, 10));
    assert SkipSpaces(line, 12) == 12;
    assert SkipSpaces(line, 11) == 12;
    assert RestStart(line, 10) == 12;
    UpToNewlineWhole(text);
  }

  lemma {:induction false} UpToNewlineWhole(s: string)
    requires '\n' !in s
    ensures UpToNewline(s) == s
  {
    if |s| > 0 {
      UpToNewlineWhole(s[1..]);
      assert s == [s[0]] + s[1..];
    }
  }

  /** How `CueOf` assembles a cue from the match, the text and the time. */
  lemma CueFromParts(line: string, ts: string, text: string, v: real)
    requires MatchCueLine(CueLineText(line)) == Some(CueMatch(ts, text))
    requires |text| > 0 && Strip(text) == text
    requires ParseTimestampSec(ts).Some? && ParseTimestampSec(ts).value == v
    ensures CueOf(line) == Some(Cue(v, text))
  {
  }

  lemma MillisFraction(s: nat, ms: nat)
    requires ms < 1000
    ensures DecimalValue(ZeroPad(s, 2), ZeroPad(ms, 3)) == s as real + ms as real / 1000.0
  {
    ZeroPadValue(s, 2);
    ZeroPadValue(ms, 3);
    NatToStringShort(ms);
    assert |ZeroPad(ms, 3)| == 3;
    assert Pow10(3) == 1000.0;
  }

  /** `SS.mmm` reads as SS + mmm/1000 seconds. */
  lemma RenderedSeconds(sec: string, s: nat, ms: nat)
    requires ms < 1000
    requires sec == ZeroPad(s, 2) + "." + ZeroPad(ms, 3)
    ensures DigitsAndDots(sec) && ParseDecimal(sec).Some?
    ensures ParseDecimal(sec).value == s as real + ms as real / 1000.0
  {
    ParseDecimalDotted(ZeroPad(s, 2), ZeroPad(ms, 3));
    MillisFraction(s, ms);
  }

  /** `MM:SS.mmm` reads as MM·60 + SS + mmm/1000 seconds. */
  lemma RenderedTime(ts: string, m: nat, s: nat, ms: nat)
    requires ms < 1000
    requires ts == ZeroPad(m, 2) + ":" + (ZeroPad(s, 2) + "." + ZeroPad(ms, 3))
    ensures ParseTimestampSec(ts).Some?
    ensures ParseTimestampSec(ts).value == (m * 60) as real + s as real + ms as real / 1000.0
  {
    var sec := ZeroPad(s, 2) + "." + ZeroPad(ms, 3);
    RenderedSeconds(sec, s, ms);
    ParseMinutesSeconds(ts, ZeroPad(m, 2), sec);
    ZeroPadValue(m, 2);
  }

  /** A line made of the bracketed timestamp and marker-free text has no
      markers to remove. */
  lemma RenderedPlain(line: string, text: string)
    requires |line| == 12 + |text| && line[12..] == text && '*' !in text && '_' !in text
    requires forall k :: 0 <= k < 12 ==> line[k] != '*' && line[k] != '_'
    requires |text| > 0 && !IsSpace(line[0]) && !IsSpace(text[|text| - 1])
    ensures CueLineText(line) == line
  {
    forall k | 0 <= k < |line| ensures line[k] != '*' && line[k] != '_' {
      if k >= 12 {
        assert line[k] == text[k - 12];
      }
    }
    assert line[|line| - 1] == text[|text| - 1];
    RemovePairAbsent(line, '*', '*');
    RemovePairAbsent(line, '_', '_');
  }

  /** The line is already clean, and the cue pattern splits it into the
      timestamp and the text. */
  lemma RenderedLine(line: string, mm: string, ss: string, fff: string, text: string)
    requires |mm| == 2 && |ss| == 2 && |fff| == 3 && AllDigits(mm) && AllDigits(ss) && AllDigits(fff)
    requires |text| > 0 && !IsSpace(text[0]) && !IsSpace(text[|text| - 1])
    requires '\n' !in text && '*' !in text && '_' !in text
    requires line == "[" + mm + ":" + ss + "." + fff + "] " + text
    ensures CueLineText(line) == line
    ensures MatchCueLine(line) == Some(CueMatch(mm + ":" + (ss + "." + fff), text))
  {
    RenderedLayout(line, mm, ss, fff, text);
    RenderedPlain(line, text);
    RenderedMatch(line, text);
  }

  /** A timestamped line in the format the transcription prompt asks for,
      `[MM:SS.mmm] text`, reads back as a cue at MM·60 + SS + mmm/1000
      seconds with the text unchanged, given text that is trimmed and free
      of line breaks, '*' and '_'. */
  lemma RenderedCueReadsBack(line: string, m: nat, s: nat, ms: nat, text: string)
    requires m < 100 && s < 100 && ms < 1000
    requires |text| > 0 && !IsSpace(text[0]) && !IsSpace(text[|text| - 1])
    requires '\n' !in text && '*' !in text && '_' !in text
    requires line == "[" + ZeroPad(m, 2) + ":" + ZeroPad(s, 2) + "." + ZeroPad(ms, 3) + "] " + text
    ensures CueOf(line).Some?
    ensures CueOf(line).value == Cue((m * 60) as real + s as real + ms as real / 1000.0, text)
  {
    NatToStringShort(m);
    NatToStringShort(s);
    NatToStringShort(ms);
    var ts := ZeroPad(m, 2) + ":" + (ZeroPad(s, 2) + "." + ZeroPad(ms, 3));
    RenderedTime(ts, m, s, ms);
    RenderedLine(line, ZeroPad(m, 2), ZeroPad(s, 2), ZeroPad(ms, 3), text);
    ReadBack(line, ts, text);
  }

  lemma ReadBack(line: string, ts: string, text: string)
    requires CueLineText(line) == line && MatchCueLine(line) == Some(CueMatch(ts, text))
    requires |text| > 0 && !IsSpace(text[0]) && !IsSpace(text[|text| - 1])
    requires ParseTimestampSec(ts).Some?
    ensures CueOf(line).Some? && CueOf(line).value == Cue(ParseTimestampSec(ts).value, text)
  {
    assert MatchCueLine(CueLineText(line)) == Some(CueMatch(ts, text));
    CueFromParts(line, ts, text, ParseTimestampSec(ts).value);
  }

  // =====================================================================
  // Ordering the audio chunks
  // =====================================================================

  /** Where the last digit of `s` ends: nothing from there on is a digit,
      and the character before it is one (0 when `s` has no digit). */
  function LastDigitEnd(s: string): (e: nat)
    ensures e <= |s| && (e > 0 ==> IsDigit(s[e - 1]))
    ensures forall i :: e <= i < |s| ==> !IsDigit(s[i])
  {
    if |s| == 0 then 0
    else if IsDigit(s[|s| - 1]) then |s|
    else LastDigitEnd(s[..|s| - 1])
  }

  /** Where the run of digits that ends at `e` begins: everything from there
      to `e` is a digit and the character before it is not. */
  function RunStart(s: string, e: nat): (b: nat)
    requires e <= |s|
    ensures b <= e && (b > 0 ==> !IsDigit(s[b - 1]))
    ensures forall i :: b <= i < e ==> IsDigit(s[i])
  {
    if e > 0 && IsDigit(s[e - 1]) then RunStart(s, e - 1) else e
  }

  /** `re.findall(r'\d+', s)[-1]`: the last maximal run of digits in `s`,
      or None when `s` has no digit. */
  function LastDigitRun(s: string): (r: Option<string>)
    ensures r.None? <==> forall i :: 0 <= i < |s| ==> !IsDigit(s[i])
    ensures r.Some? ==> |r.value| > 0 && AllDigits(r.value)
  {
    var e := LastDigitEnd(s);
    if e == 0 then None else Some(s[RunStart(s, e)..e])
  }

  /** The sort key as written: the value of the last digit run of the file
      name, 0 when there is none. */
  function NameKey(name: string): nat
  {
    match LastDigitRun(name)
    case None => 0
    case Some(d) => DigitsValue(d)
  }

  /** Every name ending in ".mp3" gets the key 3: the last digit run of such
      a name is the "3" of its extension. */
  lemma Mp3NameKeyIsThree(name: string)
    requires EndsWith(name, ".mp3")
    ensures NameKey(name) == 3
  {
    var n := |name|;
    assert name[n - 4..] == ".mp3";
    assert name[n - 1] == '3' && name[n - 2] == 'p';
    assert LastDigitEnd(name) == n;
    assert RunStart(name, n - 1) == n - 1;
    assert RunStart(name, n) == n - 1;
    assert name[n - 1..n] == "3";
    assert LastDigitRun(name) == Some("3");
    assert DigitsValue("3") == DigitsValue("") * 10 + DigitValue('3');
  }

  predicate NameKeyLeq(a: string, b: string) { NameKey(a) <= NameKey(b) }

  /** The sort key the ordering evidently intends: the number in the file's
      stem, so that `chunk_010.mp3` comes after `chunk_002.mp3`. */
  function ChunkNumber(name: string): nat
  {
    NameKey(Stem(name))
  }

  predicate ChunkNumberLeq(a: string, b: string) { ChunkNumber(a) <= ChunkNumber(b) }

  lemma KeyOrdersArePreorders()
    ensures TotalPreorder(NameKeyLeq) && TotalPreorder(ChunkNumberLeq)
  {
  }

  /** `sorted(..., key=...)` with the key as written. */
  function ListedOrder(listing: seq<string>): (files: seq<string>)
  {
    KeyOrdersArePreorders();
    Sort(WithSuffix(listing, ".mp3"), NameKeyLeq)
  }

  /** The key as written ties every ".mp3" name, so the stable sort returns
      the directory listing's own order, whatever the chunk numbers. */
  lemma ListedOrderIsListingOrder(listing: seq<string>)
    ensures ListedOrder(listing) == WithSuffix(listing, ".mp3")
  {
    var names := WithSuffix(listing, ".mp3");
    WithSuffixSelects(listing, ".mp3");
    forall i | 0 <= i < |names| ensures NameKey(names[i]) == 3 {
      assert names[i] in names;
      Mp3NameKeyIsThree(names[i]);
    }
    KeyOrdersArePreorders();
    SortAllTied(names, NameKeyLeq);
  }

  /** The listing order survives even when it puts a later chunk first. */
  lemma ListedOrderKeepsChunkTenFirst()
    ensures ListedOrder(["chunk_010.mp3", "chunk_002.mp3"]) == ["chunk_010.mp3", "chunk_002.mp3"]
  {
    var l := ["chunk_010.mp3", "chunk_002.mp3"];
    ListedOrderIsListingOrder(l);
    assert EndsWith(l[0], ".mp3") && EndsWith(l[1], ".mp3");
    assert WithSuffix(l[1..], ".mp3") == [l[1]] + WithSuffix(l[2..], ".mp3");
  }

  /** The chunk files in chunk-number order. */
  function ChunkOrder(listing: seq<string>): (files: seq<string>)
    ensures multiset(files) == multiset(WithSuffix(listing, ".mp3"))
    ensures forall i, j :: 0 <= i < j < |files| ==> ChunkNumber(files[i]) <= ChunkNumber(files[j])
  {
    KeyOrdersArePreorders();
    Sort(WithSuffix(listing, ".mp3"), ChunkNumberLeq)
  }

  /** The chunk number of a chunk file name is the number it was written
      under. */
  lemma ChunkNumberOfChunkName(n: nat)
    ensures ChunkNumber(SplitAudio.ChunkName(n)) == n
  {
    var digits := ZeroPad(n, 3);
    ChunkStem(n);
    var prefix := "chunk_";
    assert prefix[|prefix| - 1] == '_';
    TrailingDigitsAfterMark(prefix, digits);
    ZeroPadValue(n, 3);
  }

  /** The stem of a chunk file name is the name without ".mp3". */
  lemma ChunkStem(n: nat)
    ensures Stem(SplitAudio.ChunkName(n)) == "chunk_" + ZeroPad(n, 3)
  {
    var digits := ZeroPad(n, 3);
    var stem := "chunk_" + digits;
    var name := SplitAudio.ChunkName(n);
    assert name == stem + ".mp3";
    forall k | 0 <= k < |name| ensures name[k] != '/' && (k > |stem| ==> name[k] != '.') {
      if 6 <= k < 6 + |digits| {
        assert name[k] == digits[k - 6];
      }
    }
    assert Basename(name) == name;
    LastIndexOfIs(name, '.', |stem|);
  }

  /** A run of digits after a non-digit is the last digit run. */
  lemma TrailingDigitsAfterMark(prefix: string, digits: string)
    requires |prefix| > 0 && !IsDigit(prefix[|prefix| - 1])
    requires AllDigits(digits) && |digits| > 0
    ensures LastDigitRun(prefix + digits) == Some(digits)
  {
    var s := prefix + digits;
    assert s[|s| - 1] == digits[|digits| - 1];
    assert LastDigitEnd(s) == |s|;
    var b := RunStart(s, |s|);
    assert s[|prefix| - 1] == prefix[|prefix| - 1];
    assert b >= |prefix|;
    assert b == |prefix|;
    assert s[|prefix|..|s|] == digits;
  }

  /** In chunk order, chunk files come by increasing chunk number. */
  lemma ChunkOrderFollowsNumbers(listing: seq<string>, i: nat, j: nat, a: nat, b: nat)
    requires i < j < |ChunkOrder(listing)|
    requires ChunkOrder(listing)[i] == SplitAudio.ChunkName(a)
    requires ChunkOrder(listing)[j] == SplitAudio.ChunkName(b)
    ensures a <= b
  {
    ChunkNumberOfChunkName(a);
    ChunkNumberOfChunkName(b);
  }

  // =====================================================================
  // Cue timing
  // =====================================================================

  /** How long a cue would ideally stay up: a second plus its reading time
      at 14 characters a second, kept between 1.5 and 7 seconds. */
  function IdealDuration(text: string): (d: real)
    ensures MinDurationSec <= d <= MaxDurationSec
  {
    var reading := |text| as real / CharsPerSecond + 1.0;
    var capped := if reading <= MaxDurationSec then reading else MaxDurationSec;
    if MinDurationSec >= capped then MinDurationSec else capped
  }

  /** Between 7 and 84 characters the ideal duration is exactly the reading
      time plus a second. */
  lemma IdealDurationIsReadingTime(text: string)
    requires 7 <= |text| <= 84
    ensures IdealDuration(text) == |text| as real / CharsPerSecond + 1.0
  {
  }

  /** Longer text never stays up for less time. */
  lemma IdealDurationMonotone(a: string, b: string)
    requires |a| <= |b|
    ensures IdealDuration(a) <= IdealDuration(b)
  {
    assert |a| as real / CharsPerSecond <= |b| as real / CharsPerSecond;
  }

  /** When a cue starting at `start` ends, given the time it must not reach
      (`constraint`): as late as the ideal duration allows but no later than
      the constraint; when the constraint is not after the start, the cue
      gets the minimum duration instead. */
  function CueEnd(start: real, text: string, constraint: real): (end: real)
    ensures start < end <= start + IdealDuration(text)
    ensures constraint > start ==> end <= constraint
    ensures constraint > start ==> end == start + IdealDuration(text) || end == constraint
    ensures constraint <= start ==> end == start + MinDurationSec
  {
    var idealEnd := start + IdealDuration(text);
    var end := if idealEnd < constraint then idealEnd else constraint;
    if end <= start then start + MinDurationSec else end
  }

  /** One subtitle of the merged track. */
  datatype SrtEntry = SrtEntry(start: real, end: real, text: string)

  /** The time cue `j` of a chunk at `offset` must end before: the next
      cue's start less the gap, or the end of the chunk for the last cue. */
  function CueLimit(offset: real, duration: real, segs: seq<Cue>, j: nat): real
    requires j < |segs|
  {
    if j < |segs| - 1 then (offset + segs[j + 1].start) - GapBetweenSubs else offset + duration
  }

  function CueEntry(offset: real, duration: real, segs: seq<Cue>, j: nat): SrtEntry
    requires j < |segs|
  {
    var start := offset + segs[j].start;
    SrtEntry(start, CueEnd(start, segs[j].text, CueLimit(offset, duration, segs, j)), segs[j].text)
  }

  /** The subtitles of one chunk whose audio starts at `offset` in the track
      and lasts `duration`. */
  function ChunkEntries(offset: real, duration: real, segs: seq<Cue>): (entries: seq<SrtEntry>)
    ensures |entries| == |segs|
  {
    seq(|segs|, j requires 0 <= j < |segs| => CueEntry(offset, duration, segs, j))
  }

  /** Each subtitle starts at its cue's time shifted by the chunk offset,
      keeps the cue's text, ends after it starts and stays up at most
      7 seconds. */
  lemma ChunkEntryTiming(offset: real, duration: real, segs: seq<Cue>, j: nat)
    requires j < |segs|
    ensures ChunkEntries(offset, duration, segs)[j].start == offset + segs[j].start
    ensures ChunkEntries(offset, duration, segs)[j].text == segs[j].text
    ensures var e := ChunkEntries(offset, duration, segs)[j]; e.start < e.end <= e.start + MaxDurationSec
  {
  }

  /** A subtitle ends at least the gap before the next one of its chunk
      starts, whenever the next cue starts more than the gap after it. */
  lemma ChunkEntriesKeepGap(offset: real, duration: real, segs: seq<Cue>, j: nat)
    requires j + 1 < |segs| && segs[j + 1].start - GapBetweenSubs > segs[j].start
    ensures ChunkEntries(offset, duration, segs)[j].end + GapBetweenSubs <=
            ChunkEntries(offset, duration, segs)[j + 1].start
  {
  }

  /** The last subtitle of a chunk ends by the end of the chunk's audio
      whenever it starts inside it. */
  lemma LastEntryEndsInChunk(offset: real, duration: real, segs: seq<Cue>)
    requires |segs| > 0 && segs[|segs| - 1].start < duration
    ensures ChunkEntries(offset, duration, segs)[|segs| - 1].end <= offset + duration
  {
  }

  /** The per-chunk loop of `generate_srt`. */
  method ChunkEntriesOf(offset: real, duration: real, segs: seq<Cue>) returns (entries: seq<SrtEntry>)
    ensures entries == ChunkEntries(offset, duration, segs)
  {
    entries := [];
    var j := 0;
    while j < |segs|
      invariant j <= |segs| && |entries| == j
      invariant forall k :: 0 <= k < j ==> entries[k] == CueEntry(offset, duration, segs, k)
    {
      var start := offset + segs[j].start;
      var idealEnd := start + IdealDuration(segs[j].text);
      var constraint;
      if j < |segs| - 1 {
        constraint := (offset + segs[j + 1].start) - GapBetweenSubs;
      } else {
        constraint := offset + duration;
      }
      var end := if idealEnd < constraint then idealEnd else constraint;
      if end <= start {
        end := start + MinDurationSec;
      }
      entries := entries + [SrtEntry(start, end, segs[j].text)];
      j := j + 1;
    }
  }

  // =====================================================================
  // The merged track
  // =====================================================================

  /** What `generate_srt` reads besides the listing: where the chunks and
      their transcripts live, the duration probe (0.0 when probing fails),
      the transcript files that exist and read, and the section choice. */
  datatype ChunkSource = ChunkSource(
    audioDir: string,
    transcriptDir: string,
    durationOf: string -> real,
    transcripts: map<string, string>,
    choice: string)

  function ChunkDuration(src: ChunkSource, name: string): real
  {
    src.durationOf(Join(src.audioDir, name))
  }

  /** The transcript of chunk `name`: same stem, ".txt", in the transcript
      directory. */
  function TranscriptPath(src: ChunkSource, name: string): string
  {
    Join(src.transcriptDir, Stem(name) + ".txt")
  }

  /** The cues of a chunk; a chunk without a transcript has none. */
  function ChunkCues(src: ChunkSource, name: string): seq<Cue>
  {
    var path := TranscriptPath(src, name);
    if path in src.transcripts then Segments(src.transcripts[path], src.choice) else []
  }

  /** The duration of each chunk, in chunk order. */
  function Durations(src: ChunkSource, files: seq<string>): (durs: seq<real>)
    ensures |durs| == |files|
  {
    seq(|files|, k requires 0 <= k < |files| => ChunkDuration(src, files[k]))
  }

  /** The cues of each chunk, in chunk order. */
  function CueLists(src: ChunkSource, files: seq<string>): (cues: seq<seq<Cue>>)
    ensures |cues| == |files|
  {
    seq(|files|, k requires 0 <= k < |files| => ChunkCues(src, files[k]))
  }

  /** Where the audio after the chunks of `durs` starts: the first chunk's
      offset plus all their durations, whether they had transcripts or not. */
  function Offset(durs: seq<real>, first: real): real
  {
    if |durs| == 0 then first else Offset(durs[..|durs| - 1], first) + durs[|durs| - 1]
  }

  /** The merged subtitles of chunks with durations `durs` and cues `cues`. */
  function Track(durs: seq<real>, cues: seq<seq<Cue>>, first: real): seq<SrtEntry>
    requires |durs| == |cues|
  {
    if |durs| == 0 then []
    else
      var n := |durs| - 1;
      Track(durs[..n], cues[..n], first) + ChunkEntries(Offset(durs[..n], first), durs[n], cues[n])
  }

  /** Adding a chunk appends its subtitles at the offset reached so far and
      moves the offset on by its duration. */
  lemma TrackStep(durs: seq<real>, cues: seq<seq<Cue>>, i: nat, first: real)
    requires |durs| == |cues| && i < |durs|
    ensures Track(durs[..i + 1], cues[..i + 1], first) ==
            Track(durs[..i], cues[..i], first) + ChunkEntries(Offset(durs[..i], first), durs[i], cues[i])
    ensures Offset(durs[..i + 1], first) == Offset(durs[..i], first) + durs[i]
  {
    assert durs[..i + 1][..i] == durs[..i];
    assert cues[..i + 1][..i] == cues[..i];
  }

  /** Every subtitle of the track ends after it starts and stays up at most
      7 seconds. */
  lemma {:induction false} TrackTiming(durs: seq<real>, cues: seq<seq<Cue>>, first: real)
    requires |durs| == |cues|
    ensures forall k :: 0 <= k < |Track(durs, cues, first)| ==>
              Track(durs, cues, first)[k].start < Track(durs, cues, first)[k].end <=
              Track(durs, cues, first)[k].start + MaxDurationSec
  {
    if |durs| > 0 {
      var n := |durs| - 1;
      TrackTiming(durs[..n], cues[..n], first);
      var before := Track(durs[..n], cues[..n], first);
      var offset := Offset(durs[..n], first);
      var chunk := ChunkEntries(offset, durs[n], cues[n]);
      var all := Track(durs, cues, first);
      assert all == before + chunk;
      forall k | 0 <= k < |all| ensures all[k].start < all[k].end <= all[k].start + MaxDurationSec {
        if k >= |before| {
          assert all[k] == chunk[k - |before|];
          ChunkEntryTiming(offset, durs[n], cues[n], k - |before|);
        } else {
          assert all[k] == before[k];
        }
      }
    }
  }

  /** Each chunk contributes one subtitle per cue. */
  lemma {:induction false} TrackLength(durs: seq<real>, cues: seq<seq<Cue>>, first: real)
    requires |durs| == |cues|
    ensures |Track(durs, cues, first)| == CueCount(cues)
  {
    if |durs| > 0 {
      TrackLength(durs[..|durs| - 1], cues[..|cues| - 1], first);
    }
  }

  function CueCount(cues: seq<seq<Cue>>): nat
  {
    if |cues| == 0 then 0 else CueCount(cues[..|cues| - 1]) + |cues[|cues| - 1]|
  }

  /** The offset of a chunk is the first chunk's offset plus the durations
      of every chunk before it. */
  lemma {:induction false} OffsetIsRunningSum(durs: seq<real>, first: real, a: seq<real>, b: seq<real>)
    requires durs == a + b
    ensures Offset(durs, first) == Offset(b, Offset(a, first))
  {
    if |b| > 0 {
      var n := |durs| - 1;
      assert durs[..n] == a + b[..|b| - 1];
      OffsetIsRunningSum(durs[..n], first, a, b[..|b| - 1]);
    } else {
      assert durs == a;
    }
  }

  /** The cues of one chunk all lie within its `duration`. */
  predicate CuesWithin(segs: seq<Cue>, duration: real)
  {
    forall j :: 0 <= j < |segs| ==> 0.0 <= segs[j].start <= duration
  }

  /** The cues of one chunk come in order of their start times. */
  predicate CuesInOrder(segs: seq<Cue>)
  {
    forall j, k :: 0 <= j < k < |segs| ==> segs[j].start <= segs[k].start
  }

  predicate StartsInOrder(entries: seq<SrtEntry>)
  {
    forall k, l :: 0 <= k < l < |entries| ==> entries[k].start <= entries[l].start
  }

  /** When no chunk has a negative duration and every chunk's cues are in
      order and inside its audio, the merged subtitles start no earlier than
      the first chunk's offset and no later than the end of the last chunk,
      and their starts never go backwards, across chunk boundaries too. */
  lemma {:induction false} TrackStartsOrdered(durs: seq<real>, cues: seq<seq<Cue>>, first: real)
    requires |durs| == |cues|
    requires forall i :: 0 <= i < |durs| ==> durs[i] >= 0.0 && CuesWithin(cues[i], durs[i]) && CuesInOrder(cues[i])
    ensures first <= Offset(durs, first)
    ensures forall k :: 0 <= k < |Track(durs, cues, first)| ==>
              first <= Track(durs, cues, first)[k].start <= Offset(durs, first)
    ensures StartsInOrder(Track(durs, cues, first))
  {
    if |durs| > 0 {
      var n := |durs| - 1;
      TrackStartsOrdered(durs[..n], cues[..n], first);
      var before := Track(durs[..n], cues[..n], first);
      var offset := Offset(durs[..n], first);
      var chunk := ChunkEntries(offset, durs[n], cues[n]);
      var all := Track(durs, cues, first);
      assert all == before + chunk;
      forall j | 0 <= j < |chunk| ensures offset <= chunk[j].start <= offset + durs[n] {
        ChunkEntryTiming(offset, durs[n], cues[n], j);
      }
      forall k, l | 0 <= k < l < |all| ensures all[k].start <= all[l].start {
        if k >= |before| {
          ChunkEntryTiming(offset, durs[n], cues[n], k - |before|);
          ChunkEntryTiming(offset, durs[n], cues[n], l - |before|);
        } else if l >= |before| {
          assert all[k] == before[k] && all[l] == chunk[l - |before|];
        }
      }
    }
  }

  // =====================================================================
  // The SRT document
  // =====================================================================

  /** One numbered block: index, `start --> end`, the text, a blank line. */
  function SrtBlock(index: nat, e: SrtEntry): string
  {
    NatToString(index) + "\n" + FormatTimestampSrt(e.start) + " --> " + FormatTimestampSrt(e.end) + "\n" +
    e.text + "\n\n"
  }

  /** The blocks of all entries, numbered from 1. */
  function SrtDocument(entries: seq<SrtEntry>): string
  {
    if |entries| == 0 then ""
    else SrtDocument(entries[..|entries| - 1]) + SrtBlock(|entries|, entries[|entries| - 1])
  }

  lemma SrtDocumentStep(entries: seq<SrtEntry>, i: nat)
    requires i < |entries|
    ensures SrtDocument(entries[..i + 1]) == SrtDocument(entries[..i]) + SrtBlock(i + 1, entries[i])
  {
    assert entries[..i + 1][..i] == entries[..i];
  }

  /** The write loop of `generate_srt`. */
  method RenderSrt(entries: seq<SrtEntry>) returns (doc: string)
    ensures doc == SrtDocument(entries)
  {
    doc := "";
    var idx := 0;
    while idx < |entries|
      invariant idx <= |entries| && doc == SrtDocument(entries[..idx])
    {
      SrtDocumentStep(entries, idx);
      doc := doc + SrtBlock(idx + 1, entries[idx]);
      idx := idx + 1;
    }
    assert entries[..|entries|] == entries;
  }

  /** One pass of the chunk loop of `generate_srt`: the chunk's duration
      and, when its transcript exists, its subtitles at `offset`. */
  method ChunkSubtitles(src: ChunkSource, files: seq<string>, i: nat, offset: real)
    returns (chunk: seq<SrtEntry>, duration: real)
    requires i < |files|
    ensures duration == Durations(src, files)[i]
    ensures chunk == ChunkEntries(offset, duration, CueLists(src, files)[i])
  {
    var name := files[i];
    duration := src.durationOf(Join(src.audioDir, name));
    var path := Join(src.transcriptDir, Stem(name) + ".txt");
    chunk := [];
    if path in src.transcripts {
      var segs := ExtractSegments(src.transcripts[path], src.choice);
      chunk := ChunkEntriesOf(offset, duration, segs);
    }
    assert duration == ChunkDuration(src, name) && chunk == ChunkEntries(offset, duration, ChunkCues(src, name));
  }

  /** One turn of the chunk loop: the subtitles of chunk `i` appended at
      the running offset, which then moves on by the chunk's duration. */
  method AppendChunk(src: ChunkSource, files: seq<string>, i: nat, first: real, entries: seq<SrtEntry>, offset: real)
    returns (entries': seq<SrtEntry>, offset': real)
    requires i < |files|
    requires offset == Offset(Durations(src, files)[..i], first)
    requires entries == Track(Durations(src, files)[..i], CueLists(src, files)[..i], first)
    ensures offset' == Offset(Durations(src, files)[..i + 1], first)
    ensures entries' == Track(Durations(src, files)[..i + 1], CueLists(src, files)[..i + 1], first)
  {
    TrackStep(Durations(src, files), CueLists(src, files), i, first);
    var chunk, duration := ChunkSubtitles(src, files, i, offset);
    entries' := entries + chunk;
    offset' := offset + duration;
  }

  /** The chunk loop of `generate_srt`: the subtitles of `files` in order,
      each chunk shifted by the running offset. */
  method MergeChunks(src: ChunkSource, files: seq<string>, first: real) returns (entries: seq<SrtEntry>)
    ensures entries == Track(Durations(src, files), CueLists(src, files), first)
  {
    var offset := first;
    entries := [];
    var i := 0;
    while i < |files|
      invariant i <= |files|
      invariant offset == Offset(Durations(src, files)[..i], first)
      invariant entries == Track(Durations(src, files)[..i], CueLists(src, files)[..i], first)
    {
      entries, offset := AppendChunk(src, files, i, first, entries, offset);
      i := i + 1;
    }
    assert Durations(src, files)[..i] == Durations(src, files);
    assert CueLists(src, files)[..i] == CueLists(src, files);
  }

  /** `generate_srt`: lists the chunk files, merges the subtitles of every
      chunk in chunk order, and writes the track. It fails when the listing
      fails, when there is no chunk, when no subtitle was extracted, or when
      writing fails; `written` is the document on success. */
  method GenerateSrt(src: ChunkSource, listing: Option<seq<string>>, firstChunkOffset: real, writeOk: bool)
    returns (ok: bool, written: Option<string>)
    ensures ok <==> listing.Some? && |SrtTrack(src, listing.value, firstChunkOffset)| > 0 && writeOk
    ensures ok ==> written == Some(SrtDocument(SrtTrack(src, listing.value, firstChunkOffset)))
    ensures !ok ==> written.None?
  {
    if listing.None? {
      return false, None;
    }
    var files := ChunkOrder(listing.value);
    if |files| == 0 {
      return false, None;
    }
    var entries := MergeChunks(src, files, firstChunkOffset);
    if |entries| == 0 || !writeOk {
      return false, None;
    }
    var doc := RenderSrt(entries);
    return true, Some(doc);
  }

  /** The track `generate_srt` writes for a listing. */
  function SrtTrack(src: ChunkSource, listing: seq<string>, first: real): seq<SrtEntry>
  {
    var files := ChunkOrder(listing);
    Track(Durations(src, files), CueLists(src, files), first)
  }
}
