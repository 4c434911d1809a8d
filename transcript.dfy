/**
 * transcript.py: the rules around the remote transcription service. The
 * Vertex AI regions are used round-robin; each chunk gets at most five
 * attempts with a backoff that depends on how the previous attempt failed;
 * an existing transcript is reused when it looks valid; and the worker
 * wrapper counts processed, successful and skipped chunks. The service
 * itself is replaced by the outcome of each attempt, and the random jitter
 * by a supplied fraction.
 */
module Transcript {

  import opened Wrappers
  import opened Strings
  import opened Sorting

  const MaxRetries: nat := 5
  const InitialDelay: real := 3.0

  /** The Vertex AI regions, in failover order. */
  const Regions: seq<string> := [
    "us-central1", "us-east4", "us-west1", "europe-west1",
    "europe-west4", "asia-northeast1", "asia-southeast1"]

  // =====================================================================
  // Region rotation
  // =====================================================================

  /** The index after `i` in the rotation. */
  function NextIndex(i: nat): (j: nat)
    ensures j < |Regions|
  {
    (i + 1) % |Regions|
  }

  /** The process-wide rotation state of `get_next_region`. */
  class RegionRotator {
    var index: nat

    ghost predicate Valid()
      reads this
    {
      index < |Regions|
    }

    constructor ()
      ensures Valid() && index == 0
    {
      index := 0;
    }

    /** `get_next_region`: hands out the current region and moves on. */
    method Next() returns (region: string)
      requires Valid()
      modifies this
      ensures Valid()
      ensures region == Regions[old(index)] && index == NextIndex(old(index))
    {
      region := Regions[index];
      index := (index + 1) % |Regions|;
    }
  }

  /** The index after `k` calls, starting from `i`. */
  function IndexAfter(i: nat, k: nat): (j: nat)
    requires i < |Regions|
    ensures j < |Regions|
  {
    if k == 0 then i else NextIndex(IndexAfter(i, k - 1))
  }

  /** `k` calls move the rotation `k` places on, modulo the region count. */
  lemma {:induction false} IndexAfterIsShift(i: nat, k: nat)
    requires i < |Regions|
    ensures IndexAfter(i, k) == (i + k) % |Regions|
  {
    if k > 0 {
      IndexAfterIsShift(i, k - 1);
      ShiftStep(i + k - 1);
    }
  }

  lemma ShiftStep(x: nat)
    ensures (x % |Regions| + 1) % |Regions| == (x + 1) % |Regions|
  {
    assert |Regions| == 7;
    var q := x / 7;
    assert x == 7 * q + x % 7;
    if x % 7 == 6 {
      assert x + 1 == 7 * (q + 1);
    } else {
      assert x + 1 == 7 * q + (x % 7 + 1);
    }
  }

  /** The regions are seven distinct names. */
  lemma RegionsDistinct()
    ensures |Regions| == 7
    ensures forall i, j :: 0 <= i < j < |Regions| ==> Regions[i] != Regions[j]
  {
  }

  lemma SmallMod(x: nat)
    requires x < 2 * |Regions|
    ensures x % |Regions| == if x < |Regions| then x else x - |Regions|
  {
  }

  /** How many calls from index `i` it takes until region `r` comes up. */
  function CallsUntil(i: nat, r: nat): (k: nat)
    requires i < |Regions| && r < |Regions|
    ensures k < |Regions|
  {
    if r >= i then r - i else r + |Regions| - i
  }

  /** Any seven consecutive calls hand out every region exactly once, so
      failover tries all regions before it repeats one, and the rotation
      then starts over. */
  lemma RotationVisitsEveryRegion(i: nat)
    requires i < |Regions|
    ensures forall r :: 0 <= r < |Regions| ==> IndexAfter(i, CallsUntil(i, r)) == r
    ensures forall k, l :: 0 <= k < l < |Regions| ==> IndexAfter(i, k) != IndexAfter(i, l)
    ensures IndexAfter(i, |Regions|) == i
  {
    var n := |Regions|;
    forall k | 0 <= k < n ensures IndexAfter(i, k) == if i + k < n then i + k else i + k - n {
      IndexAfterIsShift(i, k);
      SmallMod(i + k);
    }
    IndexAfterIsShift(i, n);
    SmallMod(i + n);
  }

  // =====================================================================
  // Attempt outcomes and backoff
  // =====================================================================

  /** What one attempt ended with: the transcript text written to the
      intermediate file, or the text of the exception raised anywhere in
      the attempt (upload, processing, generation, writing). */
  datatype Attempt = Transcribed(text: string) | Failed(error: string)

  datatype ErrorKind = Overload | Timeout | OtherError

  /** The failure classes of the retry loop, overload checked first. */
  function Classify(error: string): ErrorKind
  {
    var lower := Lower(error);
    if Contains(error, "503") || Contains(lower, "overload") || Contains(lower, "unavailable") then Overload
    else if Contains(error, "504") || Contains(lower, "deadline") || Contains(lower, "timeout") then Timeout
    else OtherError
  }

  function Pow(b: nat, e: nat): (p: nat)
    ensures b >= 1 ==> p >= 1
  {
    if e == 0 then 1 else b * Pow(b, e - 1)
  }

  /** The exponential part of the wait after failed attempt `attempt`. */
  function BaseDelay(kind: ErrorKind, attempt: nat): real
  {
    if kind == Overload then InitialDelay * Pow(3, attempt) as real
    else InitialDelay * Pow(2, attempt) as real
  }

  /** The bounds `random.uniform` draws the jitter from. */
  function JitterLow(kind: ErrorKind): real
  {
    match kind
    case Overload => 2.0
    case Timeout => 1.0
    case OtherError => 0.0
  }

  function JitterHigh(kind: ErrorKind): real
  {
    match kind
    case Overload => 6.0
    case Timeout => 4.0
    case OtherError => 2.0
  }

  /** The wait after failed attempt `attempt`, with the jitter drawn at
      fraction `u` of its range. */
  function Delay(kind: ErrorKind, attempt: nat, u: real): real
  {
    BaseDelay(kind, attempt) + (JitterLow(kind) + u * (JitterHigh(kind) - JitterLow(kind)))
  }

  /** For a draw inside the range, the wait is the exponential part plus a
      jitter between the kind's bounds. */
  lemma DelayBounds(kind: ErrorKind, attempt: nat, u: real)
    requires 0.0 <= u <= 1.0
    ensures BaseDelay(kind, attempt) + JitterLow(kind) <= Delay(kind, attempt, u)
    ensures Delay(kind, attempt, u) <= BaseDelay(kind, attempt) + JitterHigh(kind)
  {
    match kind
    case Overload => assert 0.0 <= u * 4.0 <= 4.0;
    case Timeout => assert 0.0 <= u * 3.0 <= 3.0;
    case OtherError => assert 0.0 <= u * 2.0 <= 2.0;
  }

  lemma {:induction false} PowAtLeastOne(b: nat, e: nat)
    requires b >= 1
    ensures Pow(b, e) >= 1
  {
    if e > 0 {
      PowAtLeastOne(b, e - 1);
    }
  }

  /** Whatever the jitter, a later wait for the same kind of failure is
      never shorter than an earlier one. */
  lemma DelaysNeverShrink(kind: ErrorKind, attempt: nat, u: real, v: real)
    requires 0.0 <= u <= 1.0 && 0.0 <= v <= 1.0
    ensures Delay(kind, attempt, u) <= Delay(kind, attempt + 1, v)
  {
    DelayBounds(kind, attempt, u);
    DelayBounds(kind, attempt + 1, v);
    PowAtLeastOne(2, attempt);
    PowAtLeastOne(3, attempt);
    assert Pow(2, attempt + 1) == 2 * Pow(2, attempt);
    assert Pow(3, attempt + 1) == 3 * Pow(3, attempt);
  }

  lemma {:induction false} PowMonotoneInBase(e: nat)
    ensures Pow(2, e) <= Pow(3, e)
  {
    if e > 0 {
      PowMonotoneInBase(e - 1);
    }
  }

  /** An overload waits at least as long as an unclassified failure at the
      same attempt, whatever both jitters are. */
  lemma OverloadWaitsLongest(attempt: nat, u: real, v: real)
    requires 0.0 <= u <= 1.0 && 0.0 <= v <= 1.0
    ensures Delay(OtherError, attempt, v) <= Delay(Overload, attempt, u)
  {
    DelayBounds(Overload, attempt, u);
    DelayBounds(OtherError, attempt, v);
    PowMonotoneInBase(attempt);
  }

  // =====================================================================
  // The retry loop
  // =====================================================================

  /** How many attempts `process_audio_file` makes: up to and including the
      first that succeeds, and at most five. */
  function AttemptsFrom(outcome: nat -> Attempt, a: nat): (n: nat)
    requires a <= MaxRetries
    ensures a <= n <= MaxRetries
    ensures a < MaxRetries ==> a < n
    decreases MaxRetries - a
  {
    if a == MaxRetries then MaxRetries
    else if outcome(a).Transcribed? then a + 1
    else AttemptsFrom(outcome, a + 1)
  }

  function Attempts(outcome: nat -> Attempt): (n: nat)
    ensures 1 <= n <= MaxRetries
  {
    AttemptsFrom(outcome, 0)
  }

  /** The attempts made are exactly the failures before the first success
      among the first five, then that success if there is one. */
  lemma {:induction false} AttemptsStopAtFirstSuccess(outcome: nat -> Attempt, a: nat)
    requires a <= MaxRetries
    ensures a < AttemptsFrom(outcome, a) <= MaxRetries || a == MaxRetries
    ensures forall k :: a <= k < AttemptsFrom(outcome, a) - 1 ==> outcome(k).Failed?
    ensures AttemptsFrom(outcome, a) < MaxRetries ==> outcome(AttemptsFrom(outcome, a) - 1).Transcribed?
    ensures outcome(AttemptsFrom(outcome, a) - 1).Failed? ==> AttemptsFrom(outcome, a) == MaxRetries
    decreases MaxRetries - a
  {
    if a < MaxRetries && outcome(a).Failed? {
      AttemptsStopAtFirstSuccess(outcome, a + 1);
    }
  }

  /** The text left in the intermediate file after the fifth failure. */
  function FailureMessage(filename: string, error: string): string
  {
    "Error processing " + filename + " after 5 attempts: " + error + "\n"
  }

  lemma {:induction false} SuccessEndsAttempts(outcome: nat -> Attempt, a: nat, from: nat)
    requires from <= a < MaxRetries && outcome(a).Transcribed?
    requires forall k :: from <= k < a ==> outcome(k).Failed?
    ensures AttemptsFrom(outcome, from) == a + 1
    decreases a - from
  {
    if from < a {
      SuccessEndsAttempts(outcome, a, from + 1);
    }
  }

  lemma {:induction false} FailuresUseAllAttempts(outcome: nat -> Attempt, from: nat)
    requires from <= MaxRetries
    requires forall k :: from <= k < MaxRetries ==> outcome(k).Failed?
    ensures AttemptsFrom(outcome, from) == MaxRetries
    decreases MaxRetries - from
  {
    if from < MaxRetries {
      FailuresUseAllAttempts(outcome, from + 1);
    }
  }

  /** What an attempt's last outcome leaves: the transcript, or "" after
      five failures (the value `process_audio_file` returns). */
  function TranscriptOf(outcome: nat -> Attempt): string
  {
    var last := outcome(Attempts(outcome) - 1);
    if last.Transcribed? then last.text else ""
  }

  /** What the intermediate file holds after `process_audio_file`. */
  function ArtifactOf(filename: string, outcome: nat -> Attempt): string
  {
    var last := outcome(Attempts(outcome) - 1);
    if last.Transcribed? then last.text else FailureMessage(filename, last.error)
  }

  /** The first success among the five attempts is what the file gets. */
  lemma FirstSuccessIsKept(filename: string, outcome: nat -> Attempt, a: nat)
    requires a < MaxRetries && outcome(a).Transcribed?
    requires forall k :: 0 <= k < a ==> outcome(k).Failed?
    ensures Attempts(outcome) == a + 1
    ensures TranscriptOf(outcome) == outcome(a).text
    ensures ArtifactOf(filename, outcome) == outcome(a).text
  {
    SuccessEndsAttempts(outcome, a, 0);
  }

  /** After five failures the result is empty and the file holds the
      message for the last failure. */
  lemma FailuresLeaveMessage(filename: string, outcome: nat -> Attempt)
    requires forall k :: 0 <= k < MaxRetries ==> outcome(k).Failed?
    ensures Attempts(outcome) == MaxRetries
    ensures TranscriptOf(outcome) == ""
    ensures ArtifactOf(filename, outcome) == FailureMessage(filename, outcome(MaxRetries - 1).error)
  {
    FailuresUseAllAttempts(outcome, 0);
  }

  /** One sleep of the backoff: the class of the failure, the attempt it
      follows and the fraction of the jitter range drawn. It lasts
      `Delay(kind, attempt, u)` seconds. */
  datatype Backoff = Backoff(kind: ErrorKind, attempt: nat, u: real)

  /** The sleep after attempt `a` when it failed (a success sleeps nothing,
      and its entry is never used). */
  function BackoffAfter(outcome: Attempt, a: nat, u: real): Backoff
  {
    match outcome
    case Failed(error) => Backoff(Classify(error), a, u)
    case Transcribed(_) => Backoff(OtherError, a, u)
  }

  /** The sleeps after the first `k` attempts. */
  function Waits(outcome: nat -> Attempt, jitter: nat -> real, k: nat): (w: seq<Backoff>)
    ensures |w| == k
  {
    if k == 0 then [] else Waits(outcome, jitter, k - 1) + [BackoffAfter(outcome(k - 1), k - 1, jitter(k - 1))]
  }

  /** The regions of the first `k` attempts. */
  function RegionsOf(useVertex: bool, start: nat, k: nat): (r: seq<Option<string>>)
    requires start < |Regions|
    ensures |r| == k
  {
    if k == 0 then [] else RegionsOf(useVertex, start, k - 1) + [RegionUsed(useVertex, start, k - 1)]
  }

  /** The wait after failed attempt `a` follows the failure's class and the
      jitter drawn for that attempt. */
  lemma {:induction false} WaitAt(outcome: nat -> Attempt, jitter: nat -> real, k: nat, a: nat)
    requires a < k && outcome(a).Failed?
    ensures Waits(outcome, jitter, k)[a] == Backoff(Classify(outcome(a).error), a, jitter(a))
  {
    if a < k - 1 {
      WaitAt(outcome, jitter, k - 1, a);
    }
  }

  lemma {:induction false} RegionAt(useVertex: bool, start: nat, k: nat, a: nat)
    requires start < |Regions| && a < k
    ensures RegionsOf(useVertex, start, k)[a] == RegionUsed(useVertex, start, a)
  {
    if a < k - 1 {
      RegionAt(useVertex, start, k - 1, a);
    }
  }

  /** With Vertex AI the first attempt uses the default client and every
      retry of the same file runs against a different region, provided no
      other file advances the shared rotation in between (one worker at a
      time: `start` is where the rotation stood before the file's first
      retry and each retry of this file moves it one step). */
  lemma RetriesUseDistinctRegions(start: nat, k: nat, a: nat, b: nat)
    requires start < |Regions| && 0 < a < b < k <= MaxRetries
    ensures RegionsOf(true, start, k)[0].None?
    ensures RegionsOf(true, start, k)[a].Some? && RegionsOf(true, start, k)[b].Some?
    ensures RegionsOf(true, start, k)[a] != RegionsOf(true, start, k)[b]
  {
    RegionAt(true, start, k, 0);
    RegionAt(true, start, k, a);
    RegionAt(true, start, k, b);
    RotationVisitsEveryRegion(start);
    RegionsDistinct();
    assert IndexAfter(start, a - 1) != IndexAfter(start, b - 1);
  }

  /** The location a Vertex AI client is created for: the region it was
      given, or the first region for the default client. */
  function ClientLocation(region: Option<string>): string
  {
    if region.Some? then region.value else Regions[0]
  }

  /** The default client already runs against the first region, so when
      the rotation stands at index 0 the first retry goes back to the
      region the first attempt used. */
  lemma FirstRetryCanRepeatDefault(k: nat)
    requires 2 <= k <= MaxRetries
    ensures ClientLocation(RegionsOf(true, 0, k)[0]) == ClientLocation(RegionsOf(true, 0, k)[1]) == "us-central1"
  {
    RegionAt(true, 0, k, 0);
    RegionAt(true, 0, k, 1);
  }

  /** `process_audio_file` for the file named `filename`: tries until an
      attempt succeeds or five have failed. `regions` is the region each
      attempt used (None for the default client), `delays` the waits slept
      between attempts, `artifact` what the intermediate file holds at the
      end; `result` is the transcript, or "" after five failures. */
  method ProcessAudioFile(filename: string, useVertex: bool, outcome: nat -> Attempt, jitter: nat -> real,
                          rotator: RegionRotator)
    returns (result: string, artifact: string, delays: seq<Backoff>, regions: seq<Option<string>>)
    requires rotator.Valid()
    modifies rotator
    ensures rotator.Valid()
    ensures result == TranscriptOf(outcome) && artifact == ArtifactOf(filename, outcome)
    ensures delays == Waits(outcome, jitter, Attempts(outcome) - 1)
    ensures regions == RegionsOf(useVertex, old(rotator.index), Attempts(outcome))
    ensures rotator.index == if useVertex then IndexAfter(old(rotator.index), |regions| - 1) else old(rotator.index)
  {
    ghost var start := rotator.index;
    result, artifact := "", "";
    delays, regions := [], [];
    var attempt := 0;
    while attempt < MaxRetries
      invariant attempt <= MaxRetries
      invariant attempt == MaxRetries ==>
                  outcome(MaxRetries - 1).Failed? && result == "" &&
                  artifact == FailureMessage(filename, outcome(MaxRetries - 1).error)
      invariant forall k :: 0 <= k < attempt ==> outcome(k).Failed?
      invariant rotator.Valid()
      invariant delays == Waits(outcome, jitter, if attempt == MaxRetries then attempt - 1 else attempt)
      invariant regions == RegionsOf(useVertex, start, attempt)
      invariant rotator.index == if useVertex && attempt > 0 then IndexAfter(start, attempt - 1) else start
    {
      var current := RegionFor(useVertex, attempt, rotator);
      regions := regions + [current];
      match outcome(attempt)
      case Transcribed(text) =>
        SuccessEndsAttempts(outcome, attempt, 0);
        result, artifact := text, text;
        return;
      case Failed(error) =>
        if attempt < MaxRetries - 1 {
          delays := delays + [Backoff(Classify(error), attempt, jitter(attempt))];
        } else {
          artifact := FailureMessage(filename, error);
          result := "";
        }
      attempt := attempt + 1;
    }
    FailuresUseAllAttempts(outcome, 0);
  }

  /** The region of attempt `attempt`: none without Vertex AI, and a new
      one from the rotation on every retry with it. */
  method RegionFor(useVertex: bool, attempt: nat, rotator: RegionRotator) returns (current: Option<string>)
    requires rotator.Valid()
    modifies rotator
    ensures rotator.Valid()
    ensures useVertex && attempt > 0 ==>
              current == Some(Regions[old(rotator.index)]) && rotator.index == NextIndex(old(rotator.index))
    ensures !(useVertex && attempt > 0) ==> current.None? && rotator.index == old(rotator.index)
  {
    current := None;
    if useVertex && attempt > 0 {
      var region := rotator.Next();
      current := Some(region);
    }
  }

  /** The region attempt `a` runs against: the default client until the
      first retry, then the region each retry took from the rotation. */
  function RegionUsed(useVertex: bool, start: nat, a: nat): Option<string>
    requires start < |Regions|
  {
    if !useVertex || a == 0 then None
    else Some(Regions[IndexAfter(start, a - 1)])
  }

  // =====================================================================
  // The worker wrapper and the whole run
  // =====================================================================

  /** The state of an intermediate transcript file on disk. `Undecodable`
      is a non-empty file that is not valid UTF-8. */
  datatype FileState = Missing | Undecodable | Content(text: string)

  /** `is_valid_transcript`: None when reading the file raises. */
  function IsValidTranscript(file: FileState): (r: Option<bool>)
    ensures r.None? <==> file.Undecodable?
    ensures file.Missing? ==> r == Some(false)
    ensures file == Content("") ==> r == Some(false)
  {
    match file
    case Missing => Some(false)
    case Undecodable => None
    case Content(text) =>
      if |text| == 0 then Some(false)
      else var lower := Lower(text);
        Some(!Contains(lower, "error") && Contains(lower, "timestamped transcript:"))
  }

  /** The success test the wrapper applies to a result. */
  predicate Succeeded(result: string)
  {
    |result| > 0 && !Contains(Lower(result), "error")
  }

  /** "error" does not occur in `s` once `s` is lower-cased. */
  lemma ErrorWordAt(s: string)
    requires |s| >= 5 && s[..5] == "Error"
    ensures Contains(Lower(s), "error")
  {
    ContainsAt(Lower(s), "error", 0);
  }

  /** The message left after five failures is never taken for a valid
      transcript, so a later run with skipping on tries the chunk again. */
  lemma FailureMessageIsNotValid(filename: string, error: string)
    ensures IsValidTranscript(Content(FailureMessage(filename, error))) == Some(false)
  {
    ErrorWordAt(FailureMessage(filename, error));
  }

  /** A transcript valid enough to be skipped also counts as a success. */
  lemma ValidTranscriptSucceeds(text: string)
    requires IsValidTranscript(Content(text)) == Some(true)
    ensures Succeeded(text)
  {
  }

  /** A transcript that mentions an error anywhere, even inside a word, is
      neither skipped nor counted as a success. */
  lemma MentionOfErrorFails(text: string, i: nat)
    requires i + 5 <= |text| && Lower(text)[i..i + 5] == "error"
    ensures !Succeeded(text)
    ensures IsValidTranscript(Content(text)) == Some(false)
  {
    ContainsAt(Lower(text), "error", i);
  }

  /** What the worker for one file did. */
  datatype WorkerResult =
    | Skipped             // a valid transcript was already there
    | Done(result: string) // `process_audio_file` ran and returned `result`
    | Raised              // reading the existing transcript raised

  /** The worker's decision for a file whose intermediate file is `existing`
      and whose attempts go as `outcome`. */
  function Worker(skipExisting: bool, existing: FileState, outcome: nat -> Attempt): (w: WorkerResult)
    ensures w.Done? ==> w.result == TranscriptOf(outcome)
    ensures !skipExisting ==> w.Done?
  {
    if !skipExisting then Done(TranscriptOf(outcome))
    else match IsValidTranscript(existing)
      case None => Raised
      case Some(valid) => if valid then Skipped else Done(TranscriptOf(outcome))
  }

  datatype Counters = Counters(processed: nat, success: nat, skipped: nat)

  /** The counter updates of the wrapper; a worker that raised updates none. */
  function Count(c: Counters, w: WorkerResult): Counters
  {
    match w
    case Skipped => Counters(c.processed + 1, c.success + 1, c.skipped + 1)
    case Done(result) => Counters(c.processed + 1, if Succeeded(result) then c.success + 1 else c.success, c.skipped)
    case Raised => c
  }

  function Tally(results: seq<WorkerResult>): Counters
  {
    if |results| == 0 then Counters(0, 0, 0) else Count(Tally(results[..|results| - 1]), results[|results| - 1])
  }

  /** How many workers ended as `kind` says. */
  function Occurrences(results: seq<WorkerResult>, kind: WorkerResult -> bool): (n: nat)
    ensures n <= |results|
  {
    if |results| == 0 then 0
    else Occurrences(results[..|results| - 1], kind) + (if kind(results[|results| - 1]) then 1 else 0)
  }

  /** Every worker that did not raise is counted once; every skip counts as a
      success; the processed count less the skipped count is the number of
      chunks sent to the service. */
  lemma {:induction false} TallyCounts(results: seq<WorkerResult>)
    ensures Tally(results).processed == |results| - Occurrences(results, (w: WorkerResult) => w.Raised?)
    ensures Tally(results).skipped == Occurrences(results, (w: WorkerResult) => w.Skipped?)
    ensures Tally(results).processed - Tally(results).skipped == Occurrences(results, (w: WorkerResult) => w.Done?)
    ensures Tally(results).skipped <= Tally(results).success <= Tally(results).processed
  {
    if |results| > 0 {
      TallyCounts(results[..|results| - 1]);
    }
  }

  /** The intermediate file of an audio file. */
  function IntermediatePath(intermediateDir: string, filepath: string): string
  {
    Join(intermediateDir, Stem(Basename(filepath)) + ".txt")
  }

  /** One audio file's work: its name, its intermediate file, how the
      attempts to transcribe it go and the jitter fractions they draw. */
  datatype Job = Job(filename: string, path: string, outcome: nat -> Attempt, jitter: nat -> real)

  function Jobs(filepaths: seq<string>, intermediateDir: string, outcome: string -> nat -> Attempt,
                jitter: string -> nat -> real): (jobs: seq<Job>)
    ensures |jobs| == |filepaths|
  {
    seq(|filepaths|, i requires 0 <= i < |filepaths| =>
      Job(Basename(filepaths[i]), IntermediatePath(intermediateDir, filepaths[i]), outcome(filepaths[i]),
          jitter(filepaths[i])))
  }

  /** The run so far: what each worker did, and the intermediate files. */
  datatype Progress = Progress(results: seq<WorkerResult>, files: map<string, FileState>)

  /** The intermediate file at `path`, as the files stand. */
  function Existing(files: map<string, FileState>, path: string): FileState
  {
    if path in files then files[path] else Missing
  }

  /** One worker, run against the intermediate files as they stand: it
      records what it did and, when it transcribed, what it wrote. */
  function Step(p: Progress, job: Job, skipExisting: bool): (q: Progress)
    ensures q.results == p.results + [Worker(skipExisting, Existing(p.files, job.path), job.outcome)]
  {
    var w := Worker(skipExisting, Existing(p.files, job.path), job.outcome);
    if w.Done? then Progress(p.results + [w], p.files[job.path := Content(ArtifactOf(job.filename, job.outcome))])
    else Progress(p.results + [w], p.files)
  }

  /** The workers for `jobs`, one after the other, starting from the
      intermediate files `existing`. */
  function Run(existing: map<string, FileState>, jobs: seq<Job>, skipExisting: bool): (q: Progress)
    ensures |q.results| == |jobs|
  {
    if |jobs| == 0 then Progress([], existing)
    else Step(Run(existing, jobs[..|jobs| - 1], skipExisting), jobs[|jobs| - 1], skipExisting)
  }

  lemma RunExtends(existing: map<string, FileState>, jobs: seq<Job>, i: nat, skipExisting: bool)
    requires i < |jobs|
    ensures Run(existing, jobs[..i + 1], skipExisting) == Step(Run(existing, jobs[..i], skipExisting), jobs[i], skipExisting)
  {
    assert jobs[..i + 1][..i] == jobs[..i];
  }

  lemma TallyAppend(results: seq<WorkerResult>, w: WorkerResult)
    ensures Tally(results + [w]) == Count(Tally(results), w)
  {
    assert (results + [w])[..|results|] == results;
  }

  /** Without skipping, every worker transcribes its file and none is
      counted as skipped. */
  lemma {:induction false} NoSkipRunsEveryFile(existing: map<string, FileState>, jobs: seq<Job>)
    ensures Tally(Run(existing, jobs, false).results).processed == |jobs|
    ensures Tally(Run(existing, jobs, false).results).skipped == 0
  {
    if |jobs| > 0 {
      var before := Run(existing, jobs[..|jobs| - 1], false);
      NoSkipRunsEveryFile(existing, jobs[..|jobs| - 1]);
      var job := jobs[|jobs| - 1];
      var w := Worker(false, Existing(before.files, job.path), job.outcome);
      assert w.Done?;
      TallyAppend(before.results, w);
    }
  }

  /** A rerun with skipping on passes over a file whose transcript a first
      run saved when that transcript looks valid, and transcribes it again
      otherwise. */
  lemma RerunSkipsOnlyValidTranscripts(p: Progress, job: Job, again: nat -> Attempt)
    ensures var q := Step(p, job, false);
            var r := Step(q, job.(outcome := again), true);
            r.results[|r.results| - 1] ==
              if IsValidTranscript(Content(ArtifactOf(job.filename, job.outcome))) == Some(true)
              then Skipped else Done(TranscriptOf(again))
  {
  }

  /** A file whose five attempts all failed is transcribed again on a rerun
      with skipping on. */
  lemma FailedFileIsRetried(p: Progress, job: Job, again: nat -> Attempt)
    requires job.outcome(Attempts(job.outcome) - 1).Failed?
    ensures var q := Step(p, job, false);
            var r := Step(q, job.(outcome := again), true);
            r.results[|r.results| - 1] == Done(TranscriptOf(again))
  {
    FailureMessageIsNotValid(job.filename, job.outcome(Attempts(job.outcome) - 1).error);
    RerunSkipsOnlyValidTranscripts(p, job, again);
  }

  /** The audio files of a directory listing: the ".mp3" names joined to
      the directory, in code point order. */
  function AudioFiles(audioDir: string, listing: seq<string>): (files: seq<string>)
    ensures |files| == |WithSuffix(listing, ".mp3")|
    ensures SortedBy(files, StringLeq)
  {
    StringOrderIsTotalPreorder();
    var mp3 := WithSuffix(listing, ".mp3");
    var joined := seq(|mp3|, i requires 0 <= i < |mp3| => Join(audioDir, mp3[i]));
    Sort(joined, StringLeq)
  }

  /** `process_file_wrapper`: the worker for one file, run against the
      intermediate files. */
  method ProcessFileWrapper(job: Job, skipExisting: bool, useVertex: bool, rotator: RegionRotator,
                            p: Progress, counters: Counters)
    returns (q: Progress, updated: Counters)
    requires rotator.Valid()
    modifies rotator
    ensures rotator.Valid()
    ensures q == Step(p, job, skipExisting)
    ensures updated == Count(counters, q.results[|q.results| - 1])
  {
    if skipExisting {
      var valid := IsValidTranscript(Existing(p.files, job.path));
      if valid.None? {
        return Progress(p.results + [Raised], p.files), counters;
      } else if valid.value {
        q := Progress(p.results + [Skipped], p.files);
        updated := Counters(counters.processed + 1, counters.success + 1, counters.skipped + 1);
        return;
      }
    }
    var result, artifact, _, _ := ProcessAudioFile(job.filename, useVertex, job.outcome, job.jitter, rotator);
    q := Progress(p.results + [Done(result)], p.files[job.path := Content(artifact)]);
    updated := Counters(counters.processed + 1, if Succeeded(result) then counters.success + 1 else counters.success,
                        counters.skipped);
  }

  /** The thread pool's `map` of the wrapper over the jobs, one job after
      the other, with the counters the wrappers share. */
  method RunJobs(existing: map<string, FileState>, jobs: seq<Job>, skipExisting: bool, useVertex: bool,
                 rotator: RegionRotator)
    returns (counters: Counters, run: Progress)
    requires rotator.Valid()
    modifies rotator
    ensures rotator.Valid()
    ensures run == Run(existing, jobs, skipExisting)
    ensures counters == Tally(run.results)
  {
    counters, run := Counters(0, 0, 0), Progress([], existing);
    var i := 0;
    while i < |jobs|
      invariant i <= |jobs|
      invariant rotator.Valid()
      invariant run == Run(existing, jobs[..i], skipExisting)
      invariant counters == Tally(run.results)
    {
      RunExtends(existing, jobs, i, skipExisting);
      TallyAppend(run.results, Worker(skipExisting, Existing(run.files, jobs[i].path), jobs[i].outcome));
      run, counters := ProcessFileWrapper(jobs[i], skipExisting, useVertex, rotator, run, counters);
      i := i + 1;
    }
    assert jobs[..i] == jobs;
  }

  /** `run_transcription`. `clientOk` is whether the client could be set
      up, `listing` the audio directory's listing (None when it does not
      exist), `existing` the intermediate files before the run, and
      `outcome`/`jitter` what the service and the random draws do for each
      file. None means the call raises: the worker pool refuses a worker
      count below one. */
  method RunTranscription(clientOk: bool, audioDir: string, listing: Option<seq<string>>, intermediateDir: string,
                          maxWorkers: int, skipExisting: bool, useVertex: bool, existing: map<string, FileState>,
                          outcome: string -> nat -> Attempt, jitter: string -> nat -> real, rotator: RegionRotator)
    returns (ok: Option<bool>, counters: Counters, run: Progress)
    requires rotator.Valid()
    modifies rotator
    ensures rotator.Valid()
    ensures ok == Some(true) <==>
              clientOk && listing.Some? && |AudioFiles(audioDir, listing.value)| > 0 && maxWorkers > 0
    ensures ok.None? <==>
              clientOk && listing.Some? && |AudioFiles(audioDir, listing.value)| > 0 && maxWorkers <= 0
    ensures ok == Some(true) ==>
              run == Run(existing, Jobs(AudioFiles(audioDir, listing.value), intermediateDir, outcome, jitter),
                         skipExisting) &&
              counters == Tally(run.results)
  {
    counters, run := Counters(0, 0, 0), Progress([], existing);
    if !clientOk || listing.None? {
      return Some(false), counters, run;
    }
    var files := AudioFiles(audioDir, listing.value);
    if |files| == 0 {
      return Some(false), counters, run;
    }
    var workers := if maxWorkers < |files| then maxWorkers else |files|;
    if workers <= 0 {
      return None, counters, run;
    }
    var jobs := Jobs(files, intermediateDir, outcome, jitter);
    counters, run := RunJobs(existing, jobs, skipExisting, useVertex, rotator);
    ok := Some(true);
  }
}
