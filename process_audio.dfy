/**
 * process_audio.py: the pipeline that runs the other stages in order. The
 * stages themselves (video conversion, splitting, transcription, SRT
 * generation) and the file system are replaced by what they report; what
 * is modelled is which stages run, which directories they use, when the
 * pipeline gives up, how the combine step is retried after a correction,
 * and what the clean-up removes.
 */
module ProcessAudio {

  import opened Wrappers
  import opened Strings

  // =====================================================================
  // Video detection
  // =====================================================================

  const VideoExtensions: seq<string> := [".mp4", ".avi", ".mkv", ".mov", ".wmv", ".flv", ".webm", ".m4v"]

  /** `is_video_file`: the lower-cased extension is a video extension. */
  predicate IsVideoFile(path: string)
  {
    Lower(Extension(path)) in VideoExtensions
  }

  lemma EndsWithTransitive(s: string, t: string, suffix: string)
    requires EndsWith(s, t) && EndsWith(t, suffix)
    ensures EndsWith(s, suffix)
  {
    assert s[|s| - |suffix|..] == t[|t| - |suffix|..];
  }

  /** A path ending in ".mp3" is not a video file, whatever precedes it. */
  lemma Mp3IsNotVideo(path: string)
    requires EndsWith(path, ".mp3")
    ensures !IsVideoFile(path)
  {
    var n := |path|;
    assert path[n - 4..] == ".mp3";
    assert path[n - 4] == '.' && path[n - 3] == 'm' && path[n - 2] == 'p' && path[n - 1] == '3';
    LastIndexOfIs(path, '.', n - 4);
    var sep := LastIndexOf(path, '/');
    assert sep < n - 4;
    var ext := Extension(path);
    assert ext == [] || ext == path[n - 4..];
    assert Lower(ext) == [] || Lower(ext) == ".mp3";
  }

  /** Where `convert_video_to_mp3` puts the audio of a video. */
  function ConvertedPath(outputDir: string, videoPath: string): (p: string)
    ensures EndsWith(p, ".mp3")
  {
    var name := Stem(videoPath) + ".mp3";
    EndsWithTransitive(Join(outputDir, name), name, ".mp3");
    Join(outputDir, name)
  }

  /** The audio converted from a video is never the input itself, so the
      clean-up's `input_audio != input_file` test always holds after a
      conversion. */
  lemma ConvertedIsNotInput(outputDir: string, input: string)
    requires IsVideoFile(input)
    ensures ConvertedPath(outputDir, input) != input
  {
    if ConvertedPath(outputDir, input) == input {
      Mp3IsNotVideo(input);
    }
  }

  // =====================================================================
  // Parameters, what the environment reports, and the directory layout
  // =====================================================================

  /** The parameters the pipeline reads; "" stands for a parameter that is
      absent or empty. */
  datatype Params = Params(inputAudio: string, outputDir: string, apiKey: string,
                           skipSplit: bool, audioChunksDir: string, cleanup: bool)

  /** One round of the combine step: what `generate_srt` returned (or that
      it raised), and the signal read from the control queue if it is
      read. */
  datatype SrtResult = SrtTrue | ParseError | OtherResult | SrtRaised
  datatype Signal = RetryCombine | StopProcessing | OtherSignal | GetRaised
  datatype CombineRound = CombineRound(result: SrtResult, signal: Signal)

  /** What the environment and the stages report. */
  datatype World = World(
    inputIsFile: bool,                 // the input path is an existing file
    chunksDirIsDir: bool,              // the supplied chunk directory is a directory
    convertOk: bool,                   // ffmpeg converted the video and the mp3 exists
    split: Option<seq<string>>,        // the chunk files `split_audio` returned; None when it raised
    transcribed: bool,                 // `run_transcription` returned a true value (and did not raise)
    rounds: seq<CombineRound>,         // the combine rounds, in order
    hasControl: bool,                  // a control queue was supplied
    removalFails: set<string>)         // the paths whose removal raises

  datatype Layout = Layout(outputDir: string, inputAudio: string, chunkDir: string,
                           intermediateDir: string, srtFile: string)

  function OutputDirFor(p: Params): string
  {
    if p.outputDir == "" then Join(Parent(p.inputAudio), Stem(p.inputAudio)) else p.outputDir
  }

  /** The supplied chunk directory is used only when splitting is skipped
      and it is an existing directory. */
  predicate UsesSuppliedChunks(p: Params, w: World)
  {
    p.skipSplit && p.audioChunksDir != "" && w.chunksDirIsDir
  }

  function LayoutFor(p: Params, w: World): (l: Layout)
    ensures UsesSuppliedChunks(p, w) ==> l.chunkDir == p.audioChunksDir
    ensures !UsesSuppliedChunks(p, w) ==> l.chunkDir == Join(l.outputDir, "audio_chunks")
    ensures IsVideoFile(p.inputAudio) ==> l.inputAudio != p.inputAudio && EndsWith(l.inputAudio, ".mp3")
    ensures !IsVideoFile(p.inputAudio) ==> l.inputAudio == p.inputAudio
  {
    var out := OutputDirFor(p);
    var audio := if IsVideoFile(p.inputAudio) then ConvertedPath(out, p.inputAudio) else p.inputAudio;
    assert IsVideoFile(p.inputAudio) ==> audio != p.inputAudio by {
      if IsVideoFile(p.inputAudio) {
        ConvertedIsNotInput(out, p.inputAudio);
      }
    }
    Layout(out, audio,
           if UsesSuppliedChunks(p, w) then p.audioChunksDir else Join(out, "audio_chunks"),
           Join(out, "intermediate_transcripts"),
           Join(out, Stem(p.inputAudio) + ".srt"))
  }

  // =====================================================================
  // The combine step and its retries
  // =====================================================================

  /** A round after which the loop goes round again: a parse error, with a
      control queue, answered by any signal but a stop. */
  predicate Continues(round: CombineRound, hasControl: bool)
  {
    round.result == ParseError && hasControl && (round.signal == RetryCombine || round.signal == OtherSignal)
  }

  /** How many rounds the loop runs. */
  function RoundsUsed(rounds: seq<CombineRound>, hasControl: bool): (n: nat)
    ensures n <= |rounds|
  {
    if |rounds| == 0 then 0
    else if Continues(rounds[0], hasControl) then 1 + RoundsUsed(rounds[1..], hasControl)
    else 1
  }

  /** What the loop decides: None while every round so far asks for
      another. */
  function CombineOutcome(rounds: seq<CombineRound>, hasControl: bool): Option<bool>
  {
    if |rounds| == 0 then None
    else if Continues(rounds[0], hasControl) then CombineOutcome(rounds[1..], hasControl)
    else Some(rounds[0].result == SrtTrue)
  }

  /** The loop reports success only on a round where `generate_srt`
      returned True, after rounds that were all corrected parse errors. */
  lemma {:induction false} CombineSucceedsOnlyOnTrue(rounds: seq<CombineRound>, hasControl: bool)
    requires CombineOutcome(rounds, hasControl) == Some(true)
    ensures RoundsUsed(rounds, hasControl) >= 1
    ensures rounds[RoundsUsed(rounds, hasControl) - 1].result == SrtTrue
    ensures forall j :: 0 <= j < RoundsUsed(rounds, hasControl) - 1 ==> Continues(rounds[j], hasControl)
  {
    if Continues(rounds[0], hasControl) {
      CombineSucceedsOnlyOnTrue(rounds[1..], hasControl);
    }
  }

  /** The loop is undecided only when every round asked for another. */
  lemma {:induction false} UndecidedMeansAllRetried(rounds: seq<CombineRound>, hasControl: bool)
    requires CombineOutcome(rounds, hasControl).None?
    ensures RoundsUsed(rounds, hasControl) == |rounds|
    ensures forall j :: 0 <= j < |rounds| ==> Continues(rounds[j], hasControl)
  {
    if |rounds| > 0 {
      UndecidedMeansAllRetried(rounds[1..], hasControl);
    }
  }

  /** Without a control queue, or when the first round is not a parse
      error (the only results `generate_srt` produces are True and False),
      the first round decides. */
  lemma FirstRoundDecides(rounds: seq<CombineRound>, hasControl: bool)
    requires |rounds| > 0 && (!hasControl || rounds[0].result != ParseError)
    ensures RoundsUsed(rounds, hasControl) == 1
    ensures CombineOutcome(rounds, hasControl) == Some(rounds[0].result == SrtTrue)
  {
  }

  /** The `while True` loop around `generate_srt`, run over the rounds the
      environment supplies; None when they run out before a decision. */
  method CombineWithRetries(rounds: seq<CombineRound>, hasControl: bool) returns (decision: Option<bool>, used: nat)
    ensures decision == CombineOutcome(rounds, hasControl)
    ensures used == RoundsUsed(rounds, hasControl)
  {
    var i := 0;
    while i < |rounds|
      invariant i <= |rounds|
      invariant CombineOutcome(rounds[i..], hasControl) == CombineOutcome(rounds, hasControl)
      invariant i + RoundsUsed(rounds[i..], hasControl) == RoundsUsed(rounds, hasControl)
    {
      var round := rounds[i];
      assert rounds[i..][1..] == rounds[i + 1..];
      i := i + 1;
      match round.result {
        case SrtTrue =>
          return Some(true), i;
        case ParseError =>
          if !hasControl {
            return Some(false), i;
          }
          match round.signal {
            case RetryCombine =>
            case StopProcessing =>
              return Some(false), i;
            case OtherSignal =>
            case GetRaised =>
              return Some(false), i;
          }
        case OtherResult =>
          return Some(false), i;
        case SrtRaised =>
          return Some(false), i;
      }
    }
    return None, i;
  }

  // =====================================================================
  // Clean-up
  // =====================================================================

  /** The paths the clean-up removes, in order: the chunk directory unless
      it is the supplied one, the intermediate transcripts, and the audio
      converted from a video. */
  function PlannedRemovals(p: Params, l: Layout): seq<string>
  {
    var keepChunks := p.skipSplit && p.audioChunksDir != "" && l.chunkDir == p.audioChunksDir;
    (if keepChunks then [] else [l.chunkDir]) + [l.intermediateDir] +
    (if IsVideoFile(p.inputAudio) && l.inputAudio != p.inputAudio then [l.inputAudio] else [])
  }

  /** The removals done before the first one that raises; the error is
      swallowed and the rest are skipped. */
  function RemovedBeforeFailure(planned: seq<string>, fails: set<string>): (r: seq<string>)
    ensures r <= planned
    ensures forall x :: x in r ==> x !in fails
    ensures |r| < |planned| ==> planned[|r|] in fails
  {
    if |planned| == 0 || planned[0] in fails then []
    else [planned[0]] + RemovedBeforeFailure(planned[1..], fails)
  }

  /** After a conversion the clean-up plans to remove the converted audio
      and never the input itself. */
  lemma CleanupRemovesConvertedAudio(p: Params, w: World)
    requires IsVideoFile(p.inputAudio)
    ensures var planned := PlannedRemovals(p, LayoutFor(p, w));
            planned[|planned| - 1] == ConvertedPath(OutputDirFor(p), p.inputAudio) &&
            planned[|planned| - 1] != p.inputAudio
  {
  }

  /** For an audio input nothing but the two directories is planned. */
  lemma CleanupKeepsAudioInput(p: Params, w: World)
    requires !IsVideoFile(p.inputAudio)
    ensures var l := LayoutFor(p, w);
            forall x :: x in PlannedRemovals(p, l) ==> x == l.chunkDir || x == l.intermediateDir
  {
    var l := LayoutFor(p, w);
    var dirs := [l.chunkDir, l.intermediateDir];
    assert PlannedRemovals(p, l) == [l.intermediateDir] || PlannedRemovals(p, l) == dirs;
  }

  /** The chunks of a run that split the audio itself are removed first; a
      supplied chunk directory in use is kept, so the intermediate
      transcripts come first. */
  lemma CleanupChunkDirectory(p: Params, w: World)
    ensures !p.skipSplit ==> PlannedRemovals(p, LayoutFor(p, w))[0] == Join(OutputDirFor(p), "audio_chunks")
    ensures UsesSuppliedChunks(p, w) ==> PlannedRemovals(p, LayoutFor(p, w))[0] == LayoutFor(p, w).intermediateDir
  {
  }

  // =====================================================================
  // The pipeline
  // =====================================================================

  /** The input exists and an API key is given: the checks made before
      anything else. */
  predicate Admitted(p: Params, w: World)
  {
    p.inputAudio != "" && w.inputIsFile && p.apiKey != ""
  }

  /** There is audio to split: the input is audio, or its conversion
      worked. */
  predicate AudioReady(p: Params, w: World)
  {
    Admitted(p, w) && (!IsVideoFile(p.inputAudio) || w.convertOk)
  }

  /** The chunks are there: splitting was skipped, or it produced files. */
  predicate ChunksReady(p: Params, w: World)
  {
    AudioReady(p, w) && (p.skipSplit || (w.split.Some? && |w.split.value| > 0))
  }

  predicate TranscriptsReady(p: Params, w: World)
  {
    ChunksReady(p, w) && w.transcribed
  }

  /** Which stages ran. */
  datatype Steps = Steps(converted: bool, split: bool, transcribed: bool, combineRounds: nat, cleaned: bool)

  /** `run_pipeline`. `ok` is what it returns, None when the supplied
      combine rounds run out before the loop decides. */
  method RunPipeline(p: Params, w: World)
    returns (ok: Option<bool>, layout: Layout, steps: Steps, removed: seq<string>)
    ensures !Admitted(p, w) ==> ok == Some(false) && steps == Steps(false, false, false, 0, false)
    ensures Admitted(p, w) ==> layout == LayoutFor(p, w)
    ensures steps.converted <==> Admitted(p, w) && IsVideoFile(p.inputAudio)
    ensures steps.split <==> AudioReady(p, w) && !p.skipSplit
    ensures steps.transcribed <==> ChunksReady(p, w)
    ensures steps.combineRounds == if TranscriptsReady(p, w) then RoundsUsed(w.rounds, w.hasControl) else 0
    ensures ok == Some(true) <==> TranscriptsReady(p, w) && CombineOutcome(w.rounds, w.hasControl) == Some(true)
    ensures ok.None? <==> TranscriptsReady(p, w) && CombineOutcome(w.rounds, w.hasControl).None?
    ensures steps.cleaned <==> ok == Some(true) && p.cleanup
    ensures removed == if steps.cleaned then RemovedBeforeFailure(PlannedRemovals(p, layout), w.removalFails) else []
  {
    steps := Steps(false, false, false, 0, false);
    removed := [];
    layout := Layout("", p.inputAudio, "", "", "");
    if p.inputAudio == "" || !w.inputIsFile {
      return Some(false), layout, steps, removed;
    }
    if p.apiKey == "" {
      return Some(false), layout, steps, removed;
    }
    // The output directory defaults to the input's stem next to the input,
    // and the converted audio goes there.
    layout := LayoutFor(p, w);
    if IsVideoFile(p.inputAudio) {
      steps := steps.(converted := true);
      if !w.convertOk {
        return Some(false), layout, steps, removed;
      }
    }
    if !p.skipSplit {
      steps := steps.(split := true);
      if w.split.None? || |w.split.value| == 0 {
        return Some(false), layout, steps, removed;
      }
    }
    steps := steps.(transcribed := true);
    if !w.transcribed {
      return Some(false), layout, steps, removed;
    }
    var decision, used := CombineWithRetries(w.rounds, w.hasControl);
    steps := steps.(combineRounds := used);
    if decision != Some(true) {
      return decision, layout, steps, removed;
    }
    if p.cleanup {
      steps := steps.(cleaned := true);
      removed := RemovedBeforeFailure(PlannedRemovals(p, layout), w.removalFails);
    }
    ok := Some(true);
  }
}
