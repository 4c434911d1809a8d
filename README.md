# Audio-to-subtitle pipeline: a Dafny model of its deterministic core

The system turns a long recording (or a video) into a SubRip (SRT) subtitle
file in five steps:

1. It cuts the audio into chunks of bounded length, preferring cuts in the
   middle of silences.
2. It sends every chunk to a remote speech model, retrying with a
   failure-dependent backoff and, on Vertex AI, rotating regions.
3. It extracts the timestamped cue lines of the requested section from each
   chunk's transcript.
4. It merges the cues of all chunks into one track, shifting each chunk's
   cues by the running chunk offset.
5. It cleans up the intermediate files.

A separate tool checks that the chunk durations add up to the original.

This project models that logic in Dafny and proves what it promises. There
is one module per source file:

- `SplitAudio`: silence parsing, the split-point planner, and the chunk
  export loop.
- `CombineTranscripts`: the SRT timestamp formatter, the timestamp parser,
  the section finder, the cue-line matcher written out character by
  character, cue timing, the merged track, and SRT rendering.
- `Transcript`: region rotation, the retry loop and its backoff, the resume
  test, the worker counters, and the run.
- `ProcessAudio`: video detection, the directory layout, stage gating, the
  combine retry loop, and the clean-up.
- `VerifyDurations`: chunk selection, duration accumulation, and the verdict.

Helper modules:

- `Strings`: the string and path functions the source takes from Python's
  `str`, `os.path` and `pathlib`.
- `Sorting`: a stable insertion sort that stands for `sorted`.
- `Wrappers`: `Option`.

Everything outside this logic becomes an input:

- The media tools (`ffprobe`, `ffmpeg`, `mutagen`) become supplied values: a
  duration, the diagnostic lines, and export success or failure.
- The remote service becomes the outcome of each attempt, either the text it
  wrote or the error it raised.
- The random jitter becomes a supplied fraction of its range.
- The file system becomes a listing, a map of intermediate files, and flags.

Times are `real`. The SRT formatter works in whole milliseconds.

Four places where the code does not do what its names, comments or
messages suggest. The model follows the code in all but the first:

- **Chunk order when merging.** `generate_srt` sorts the chunk files by the
  last number in each name (combine_transcripts.py:169-172). That key is
  evidently meant to be the chunk number of `chunk_NNN.mp3`
  (split_audio.py:142), but the last number in every such name is the 3 of
  ".mp3". All keys tie, and the listing order stays (see Findings). The model
  proves the defect, then departs from the code and merges in chunk-number
  order.
- **Where a section ends.** The comment at combine_transcripts.py:136 says
  the section stops at any line that looks like a header. The test at line
  140 also requires the line to contain "timestamped" or to equal
  "transcript" or "translation" exactly. Cleaning trims the line before it
  removes the markup (line 89), so a line `## Transcript` cleans to
  ` transcript` and does not end a section. `IsSectionEnd` and `Normalize`
  follow the code.
- **Worker failures.** Each worker updates the shared counters under a lock
  (transcript.py:244-270). A worker whose existing transcript cannot be
  decoded raises before it reaches them. The results of `executor.map`
  (line 279) are never read, so that exception is lost. The file is neither
  counted nor transcribed, and the run still returns True. The model records
  this as `Raised`.
- **Worker order.** The workers run concurrently (line 278). The model runs
  them one after another in the sorted order of their paths.

## Model

| member | source | states |
|---|---|---|
| SplitAudio.SearchKeyedNumber | split_audio.py:62-68 | a number is read from a line only when the line contains the marker, and it is never negative |
| SplitAudio.SearchKeyedNumberLeftmost | split_audio.py:62-68 | the search finds a number exactly when some position holds the marker followed by a digit, and the number is then the one read after the leftmost such position |
| SplitAudio.LeadingNumberIs | split_audio.py:62-68 | the number read after the marker is the value of the longest run of digits, followed, when a dot comes next, by the dot and the longest run of digits after it (`\d+\.?\d*`) |
| SplitAudio.PendingIsLatestOpenStart | split_audio.py:60-71 | after any number of lines, the pending silence start is set exactly when some line opened a silence that no later end marker closed, and it is then the value read from the latest such line |
| SplitAudio.DetectSilence | split_audio.py:40-79 | the result is the fold of the stderr lines (nothing when the probe fails); every reported interval has start < end; the intervals are exactly those recorded at the lines where an end marker meets a pending start, one per such line, in line order |
| SplitAudio.RecordedNonEmpty | split_audio.py:67-70 | every interval the fold records has start < end |
| SplitAudio.RecordedUpToOrigins | split_audio.py:61-71 | each recorded interval comes from its own line, the lines increase, and the interval is the one recorded at that line |
| SplitAudio.RecordingLinesComplete | split_audio.py:61-71 | every line that records an interval is among the lines the intervals come from |
| SplitAudio.AppendCut | split_audio.py:86-101 | appending a natural cut at a silence midpoint, or a forced cut exactly the maximum length past the cursor and short of its target, keeps every cut within the maximum of its cursor and justified |
| SplitAudio.CollectCuts | split_audio.py:84-101 | the cuts are exactly the planned sequence, in append order: for each silence the forced cuts toward its midpoint and then the midpoint, and after the last silence the forced cuts toward the end; each raw cut is at most the maximum length past the cursor it was taken from; the end of the audio is within the maximum of the last cursor; every silence midpoint is a cut; every cut is a natural cut at its midpoint or a forced cut exactly the maximum length past the cursor |
| SplitAudio.AppendForcedCuts | split_audio.py:90-101 | a cursor loop appends exactly the forced cuts maximum-length apart from the cursor toward its target, stops with the target at most the maximum past the cursor, and keeps every cut justified |
| SplitAudio.PlanFromStep | split_audio.py:86-96 | the plan from one silence on is the forced cuts toward its midpoint, the midpoint, and the plan for the silences after it |
| SplitAudio.InsertDistinct | split_audio.py:103 | inserting into a strictly increasing sequence keeps it strictly increasing, with exactly the old elements and the new one |
| SplitAudio.SortedDistinctInside | split_audio.py:103 | the result is strictly increasing and holds exactly the cuts strictly between 0 and the length |
| SplitAudio.StrictlyIncreasingUnique | split_audio.py:103 | two strictly increasing sequences with the same elements are equal, so the sorted de-duplicated list is unique |
| SplitAudio.ClippedChainGaps | split_audio.py:86-103 | a chain of cuts never more than the maximum past its cursor, clipped to (0, length), sorted and de-duplicated, has every gap of [0] + points + [length] at most the maximum |
| SplitAudio.FindOptimalSplitPoints | split_audio.py:81-104 | the cuts are exactly the planned sequence in append order and the points are that sequence strictly inside (0, length), without repeats and sorted, so the result is the one the code returns; the points are exactly the cuts the cursor loops append that lie strictly inside (0, length), without repeats and sorted; every cut is at most the maximum past the previous one and is either a silence midpoint or a forced cut exactly the maximum past the cursor; the points are strictly increasing and strictly inside (0, length); every gap of [0] + points + [length] is at most the maximum, for any silence list; every midpoint strictly inside (0, length) is a point; without silences the points are exactly k·max for k = 1, 2, … up to the last one short of the length |
| SplitAudio.PlannedPointsOneSilence | split_audio.py:81-104 | one silence around 100 s in 1000 s of audio with a 300 s maximum gives the points 100, 400 and 700 |
| SplitAudio.NonPositiveMaxNeverStops | split_audio.py:89-101 | with a maximum of 0 or less, a cursor loop that is entered never stops: after any number of forced cuts the cursor has not advanced and the loop condition still holds |
| SplitAudio.SteppedCutsFormGrid | split_audio.py:98-101 | cuts that each step exactly the maximum past the previous one lie at k·max |
| SplitAudio.SteppedCutsIncrease | split_audio.py:90-93 | forced cuts with a positive step strictly increase |
| SplitAudio.NoSilenceGrid | split_audio.py:98-103 | without silences every cut is forced and the planned points are the cuts themselves |
| SplitAudio.SteppedCutsReachEnd | split_audio.py:98-101 | the forced grid reaches the end: (n + 1)·max is at least the length |
| SplitAudio.ChunkNamesDistinct | split_audio.py:142 | chunk files of different numbers get different names |
| SplitAudio.CodecFor | split_audio.py:135-155 | stream copy exactly when the lower-cased extension is ".mp3", otherwise a re-encode at 44100 Hz, 2 channels, 192k |
| SplitAudio.Exported | split_audio.py:167-185 | the successful exports are at most the chunks, and there are none exactly when every export failed |
| SplitAudio.ExportPlanContiguous | split_audio.py:131-183 | the planned chunks start at 0, each starts where the previous one ended, and the start in force is where the last one ends |
| SplitAudio.ExportPlanStart | split_audio.py:138-183 | a skipped boundary leaves the start at most 0.1 s short of it |
| SplitAudio.ExportPlanChunks | split_audio.py:138-143 | every planned chunk ends at its own boundary, is longer than 0.1 s and starts no earlier than 0.1 s before the previous boundary; chunk numbers strictly increase, so skipped boundaries leave gaps in the numbering |
| SplitAudio.ExportChunks | split_audio.py:130-189 | the export loop issues exactly the planned chunks, and it returns the paths of those whose export succeeded, in order |
| SplitAudio.ExportPlanWithinLimits | split_audio.py:132-183 | over the planned points followed by the length, every chunk is longer than 0.1 s, at most 0.1 s longer than the maximum and inside the audio, and the chunks reach to within 0.1 s of the end |
| SplitAudio.BoundarySpans | split_audio.py:132-138 | every boundary is at most the maximum past the one before it and inside the audio |
| SplitAudio.PlannedChunksFit | split_audio.py:128-183 | exporting over the planned points and the total length gives chunks contiguous from 0, in increasing index order, each longer than 0.1 s, at most 0.1 s longer than the maximum and inside the audio, reaching to within 0.1 s of the end |
| SplitAudio.ExportPlannedChunks | split_audio.py:128-189 | the chunks are those the export loop makes over the planned points of the silences followed by the length; they are contiguous from 0, in increasing index order, each longer than 0.1 s and at most 0.1 s longer than the maximum, inside the audio and reaching to within 0.1 s of the end; the files are the successful exports |
| SplitAudio.SplitAudioFile | split_audio.py:106-194 | the codec follows the input extension; without a duration nothing is exported; otherwise the chunks are the export plan over the planned points of the detected silences followed by the duration, so the run is determined by its inputs; the chunks are contiguous from 0, numbers increase, each chunk is longer than 0.1 s and at most 0.1 s longer than the maximum, at most 0.1 s at the end is uncovered, and the result lists the successful exports (empty exactly when none succeeded) |
| CombineTranscripts.TimestampMillis | combine_transcripts.py:53-59 | a negative time renders as 0; otherwise the whole milliseconds are the time truncated to the millisecond |
| CombineTranscripts.MillisDecomposition | combine_transcripts.py:55-59 | hours·3600 + minutes·60 + seconds, in milliseconds, plus the millisecond part give back the time, with minutes and seconds below 60 |
| CombineTranscripts.FormatMillisRoundTrip | combine_transcripts.py:52-60 | every `HH:MM:SS,mmm` the formatter emits reads back as the milliseconds it was made from |
| CombineTranscripts.TimestampMillisMonotone | combine_transcripts.py:52-60 | a later time never gets an earlier timestamp |
| CombineTranscripts.CleanTimestamp | combine_transcripts.py:63 | only digits, ':' and '.' remain |
| CombineTranscripts.ParseInt | combine_transcripts.py:67-71 | `int` of a part has a value exactly when the part is a non-empty run of digits |
| CombineTranscripts.ParseParts | combine_transcripts.py:65-74 | a time is produced only for two or three parts, and it is never negative |
| CombineTranscripts.ParseTimestampSec | combine_transcripts.py:62-74 | a parsed time is never negative |
| CombineTranscripts.ParseTimestampSecDefined | combine_transcripts.py:62-74 | a time comes back exactly when the text, stripped of everything but digits, ':' and '.', splits on ':' into `M:S` or `H:M:S` with non-empty digit hours and minutes and seconds that `float` accepts; otherwise None |
| Strings.ParseDecimalDefined | combine_transcripts.py:68-71 | `float` of a string of digits and dots succeeds exactly when it has at most one dot and at least one digit |
| CombineTranscripts.ParseTimestampIgnoresNoise | combine_transcripts.py:63 | characters other than digits, ':' and '.' never change the result |
| CombineTranscripts.ParseMinutesSeconds | combine_transcripts.py:69-71 | `M:S` reads as M·60 + S |
| CombineTranscripts.ParseHoursMinutesSeconds | combine_transcripts.py:66-68 | `H:M:S` reads as H·3600 + M·60 + S |
| CombineTranscripts.NormalizeKeepsPlain | combine_transcripts.py:89 | a cleaned line is the trimmed, lower-cased line without '*', '#', '_' and ':', and it holds none of them |
| CombineTranscripts.StripMarkupIsFilter | combine_transcripts.py:89 | the four removals together keep exactly the other characters, in order |
| CombineTranscripts.FirstHeader | combine_transcripts.py:108-113 | the result is the first short line containing the target at or after the position, or -1 when there is none |
| CombineTranscripts.PriorityTargets | combine_transcripts.py:94-100 | "translation" and "transcript" select one header each; any other choice tries the translation header, then the transcript header |
| CombineTranscripts.SectionStart | combine_transcripts.py:102-130 | there is no section exactly when no target has a header line; otherwise the start is the first header line of the first target that has one |
| CombineTranscripts.SectionStartPrefers | combine_transcripts.py:107-115 | a higher-priority target wins even when its header comes later in the text |
| CombineTranscripts.FindHeader | combine_transcripts.py:108-113 | the scan finds the first header line for a target |
| CombineTranscripts.FindSectionStart | combine_transcripts.py:94-126 | the start the loops find, fallback included, is the section start of the priority list |
| CombineTranscripts.SectionEnd | combine_transcripts.py:134-142 | the end is the first later line that ends a section, or the number of lines when there is none |
| CombineTranscripts.FindSectionEnd | combine_transcripts.py:103-142 | scanning starts on the line after the header and stops at the section end |
| CombineTranscripts.SkipSpaces | combine_transcripts.py:150 | `\s*` consumes exactly the whitespace that follows |
| CombineTranscripts.DigitsUpTo | combine_transcripts.py:150 | `\d{1,n}` consumes the longest run of at most n digits |
| CombineTranscripts.UpToNewline | combine_transcripts.py:150 | `.*` takes everything before the first newline |
| CombineTranscripts.TimestampSpan | combine_transcripts.py:150 | the group found has the timestamp shape: 1-2 digits, ':', 2 digits, and optionally ':' or '.' followed by 1-3 digits |
| CombineTranscripts.MatchCueLine | combine_transcripts.py:150 | a match has a timestamp of that shape and a rest without newline that starts with a non-space |
| CombineTranscripts.RestStart | combine_transcripts.py:150 | `[\]\)]?:?\s*` takes a closing bracket whenever one follows, then a ':' whenever one follows, then all the whitespace |
| CombineTranscripts.SpanIsLongest | combine_transcripts.py:150 | group 1 as found is the longest timestamp-shaped text at its start, so the optional fraction and its digits are taken whenever they are there |
| CombineTranscripts.LongestShapeIsSpan | combine_transcripts.py:150 | the longest timestamp-shaped text after the opening bracket and the whitespace is exactly the group 1 that is found |
| CombineTranscripts.TimestampSpanFinds | combine_transcripts.py:150 | when timestamp-shaped text starts after the optional bracket and the whitespace, group 1 is found there and reaches at least as far |
| CombineTranscripts.MatchCueLineLaidOut | combine_transcripts.py:150 | every match returned is a match of the pattern: optional `[`/`(`, whitespace, the longest timestamp-shaped text, a closing bracket and a ':' when present, whitespace, then the text up to the first newline |
| CombineTranscripts.LaidOutCueLineMatches | combine_transcripts.py:150 | whenever the pattern matches a line in that layout, the matcher returns exactly that match's two groups |
| CombineTranscripts.MatchCueLineIsShape | combine_transcripts.py:150 | the matcher returns `(ts, rest)` if and only if the line matches the pattern with groups `ts` and `rest`; it returns None exactly when there is no match |
| CombineTranscripts.MatchedTimestampParses | combine_transcripts.py:150-159 | every timestamp the pattern accepts parses, so the unparsable-timestamp drop never happens |
| CombineTranscripts.CueOf | combine_transcripts.py:147-160 | a cue has a non-negative start and a non-empty text with no space at either end |
| CombineTranscripts.CueOfDropsOnlyEmpty | combine_transcripts.py:152-160 | a line gives a cue exactly when it matches and its text is not empty |
| CombineTranscripts.CuesIn | combine_transcripts.py:147-160 | a block gives at most one cue per line |
| CombineTranscripts.CuesInFromBlock | combine_transcripts.py:147-160 | every cue of a block is the cue of one of its lines |
| CombineTranscripts.CuesInFromSlice | combine_transcripts.py:145-160 | every cue of a section comes from a line strictly between its header and its end |
| CombineTranscripts.CleanLines | combine_transcripts.py:86-90 | one cleaned line per line |
| CombineTranscripts.ExtractSegments | combine_transcripts.py:76-162 | `extract_segments` returns the cues of the section the choice selects |
| CombineTranscripts.SectionSegments | combine_transcripts.py:102-162 | no section gives no cues; otherwise the cues of the lines strictly between the start and the end, in order |
| CombineTranscripts.NormalizeLines | combine_transcripts.py:86-90 | the loop builds the cleaned lines |
| CombineTranscripts.CollectCues | combine_transcripts.py:147-160 | the loop collects the cues of the block in line order |
| CombineTranscripts.RenderedCueReadsBack | combine_transcripts.py:147-160 | a line `[MM:SS.mmm] text` in the format the prompt asks for reads back as the cue at MM·60 + SS + mmm/1000 with that text |
| CombineTranscripts.LastDigitRun | combine_transcripts.py:171 | the last maximal run of digits: none exactly when the name has no digit |
| CombineTranscripts.Mp3NameKeyIsThree | combine_transcripts.py:170-171 | every ".mp3" name gets the key 3 |
| CombineTranscripts.ListedOrderIsListingOrder | combine_transcripts.py:169-172 | the sort as written returns the ".mp3" names in the listing's own order |
| CombineTranscripts.ListedOrderKeepsChunkTenFirst | combine_transcripts.py:169-172 | concretely, a listing with chunk 10 before chunk 2 keeps chunk 10 first |
| CombineTranscripts.ChunkOrder | combine_transcripts.py:169-172 | the ".mp3" names, a permutation of those listed, sorted by chunk number |
| CombineTranscripts.ChunkNumberOfChunkName | combine_transcripts.py:171 | the chunk number read from the name the splitter writes is the number it was written under |
| CombineTranscripts.ChunkOrderFollowsNumbers | combine_transcripts.py:169-172 | in chunk order, chunk files come by increasing chunk number |
| CombineTranscripts.IdealDuration | combine_transcripts.py:207-208 | the ideal duration lies in [1.5, 7.0] |
| CombineTranscripts.IdealDurationIsReadingTime | combine_transcripts.py:207-208 | between the clamps it is the reading time at 14 characters per second plus one second |
| CombineTranscripts.IdealDurationMonotone | combine_transcripts.py:207-208 | longer text never stays up for less time |
| CombineTranscripts.CueEnd | combine_transcripts.py:209-225 | the end is after the start and at most the ideal duration after it; a constraint after the start is never passed, and the end is then the ideal end or the constraint; otherwise the end is the start plus 1.5 |
| CombineTranscripts.ChunkEntryTiming | combine_transcripts.py:203-227 | each subtitle starts at its cue's time plus the chunk offset, keeps the cue's text, and lasts more than 0 and at most 7 s |
| CombineTranscripts.ChunkEntriesKeepGap | combine_transcripts.py:213-215 | a subtitle ends at least 0.05 s before the next cue of its chunk when the next cue starts more than 0.05 s after it |
| CombineTranscripts.LastEntryEndsInChunk | combine_transcripts.py:216-217 | the last subtitle of a chunk ends by the end of the chunk's audio when its cue starts inside the chunk |
| CombineTranscripts.ChunkEntriesOf | combine_transcripts.py:203-227 | the per-cue loop builds the chunk's subtitles |
| CombineTranscripts.TrackStep | combine_transcripts.py:185-232 | each chunk appends its subtitles at the offset reached so far, and the offset grows by its duration whether or not it had a transcript |
| CombineTranscripts.TrackTiming | combine_transcripts.py:203-227 | every subtitle of the track ends after it starts and lasts at most 7 s |
| CombineTranscripts.TrackLength | combine_transcripts.py:185-227 | the track holds one subtitle per cue |
| CombineTranscripts.TrackStartsOrdered | combine_transcripts.py:181-232 | when no duration is negative and each chunk's cue starts are in order and inside its audio, every subtitle starts between the first-chunk offset and the end of the last chunk, and subtitle starts never go backwards, across chunk boundaries too |
| CombineTranscripts.OffsetIsRunningSum | combine_transcripts.py:181-232 | the offset after some chunks is the first-chunk offset plus the durations before them |
| CombineTranscripts.SrtDocumentStep | combine_transcripts.py:241-244 | each entry appends one block numbered from 1: index, `start --> end`, text, blank line |
| CombineTranscripts.RenderSrt | combine_transcripts.py:240-244 | the write loop produces the numbered blocks of all entries |
| CombineTranscripts.ChunkSubtitles | combine_transcripts.py:189-230 | one chunk gives its probed duration and its subtitles at the current offset |
| CombineTranscripts.AppendChunk | combine_transcripts.py:185-232 | one turn of the chunk loop extends the track and the offset by one chunk |
| CombineTranscripts.MergeChunks | combine_transcripts.py:181-232 | the chunk loop builds the merged track of all chunks |
| CombineTranscripts.GenerateSrt | combine_transcripts.py:164-252 | it succeeds exactly when the directory can be listed, the track is not empty and the write succeeds; it then writes the numbered blocks of the track; otherwise nothing is written |
| Transcript.NextIndex | transcript.py:73 | the next index stays in range |
| Transcript.RegionRotator.Next | transcript.py:68-74 | hands out the region at the current index and moves the index one place on, modulo 7 |
| Transcript.IndexAfterIsShift | transcript.py:73 | k calls move the index k places on, modulo 7 |
| Transcript.RegionsDistinct | transcript.py:20-28 | there are seven distinct regions |
| Transcript.RotationVisitsEveryRegion | transcript.py:68-74 | any seven consecutive calls hand out every region exactly once and come back to the start |
| Transcript.DelayBounds | transcript.py:191-198 | the wait is the exponential part plus a jitter in [2, 6] for an overload, [1, 4] for a timeout, [0, 2] otherwise |
| Transcript.DelaysNeverShrink | transcript.py:191-198 | whatever the jitter, a later wait for the same kind of failure is never shorter |
| Transcript.OverloadWaitsLongest | transcript.py:191-198 | an overload waits at least as long as an unclassified failure at the same attempt |
| Transcript.AttemptsFrom | transcript.py:123 | never more than five attempts |
| Transcript.Attempts | transcript.py:123 | between one and five attempts |
| Transcript.AttemptsStopAtFirstSuccess | transcript.py:123-206 | the attempts made are the failures before the first success, then the success; fewer than five attempts end in a success, and a final failure means all five were used |
| Transcript.SuccessEndsAttempts | transcript.py:173 | a success after failures ends the attempts right there |
| Transcript.FailuresUseAllAttempts | transcript.py:123-186 | five failures use all five attempts |
| Transcript.FirstSuccessIsKept | transcript.py:160-173 | the first success is the result and what the intermediate file holds |
| Transcript.FailuresLeaveMessage | transcript.py:201-206 | after five failures the result is "" and the file holds the failure message naming the last error |
| Transcript.WaitAt | transcript.py:186-200 | the wait after a failed attempt follows the class of its error (overload first, then timeout), the attempt number and that attempt's jitter |
| Transcript.RegionAt | transcript.py:127-132 | attempt a runs against the region the rotation gives it |
| Transcript.RetriesUseDistinctRegions | transcript.py:121-129 | with Vertex AI the first attempt uses the default client and, while no other file moves the shared rotation, the retries of one file use pairwise different regions |
| Transcript.FirstRetryCanRepeatDefault | transcript.py:76-129 | the default client is already on us-central1, so a first retry taken when the rotation stands at index 0 runs on the same region as the first attempt |
| Transcript.ProcessAudioFile | transcript.py:115-207 | it returns the first success or "" after five failures, leaves the matching text in the file, sleeps only between attempts with the classified backoff, and with Vertex AI takes the next region of the rotation on every retry and moves the rotation once per retry (the first retry can land on us-central1, where the default client already was) |
| Transcript.RegionFor | transcript.py:127-129 | a region is taken from the rotation only with Vertex AI on a retry |
| Transcript.IsValidTranscript | transcript.py:238-243 | reading fails exactly for an undecodable file; a missing or empty file is not valid |
| Transcript.FailureMessageIsNotValid | transcript.py:238-243 | the failure message is never taken for a valid transcript |
| Transcript.ValidTranscriptSucceeds | transcript.py:243-265 | a transcript valid enough to be skipped also counts as a success |
| Transcript.MentionOfErrorFails | transcript.py:243-265 | a transcript that mentions "error" anywhere, in any letter case, is neither skipped nor a success |
| Transcript.Worker | transcript.py:250-261 | a worker that transcribes returns the outcome's transcript; without skipping every worker transcribes |
| Transcript.Occurrences | transcript.py:279 | a kind of result occurs at most once per worker |
| Transcript.TallyCounts | transcript.py:250-269 | processed is the number of workers that did not raise, skipped the number of skips, processed − skipped the number sent to the service, and skipped ≤ success ≤ processed |
| Transcript.Jobs | transcript.py:245-248 | one job per audio file |
| Transcript.Step | transcript.py:245-271 | each worker appends what it did, decided on the intermediate file as it stands |
| Transcript.Run | transcript.py:278-279 | one result per job |
| Transcript.RunExtends | transcript.py:278-279 | the run of one more job is one more step |
| Transcript.TallyAppend | transcript.py:250-269 | one more worker updates the counters as its own result says |
| Transcript.NoSkipRunsEveryFile | transcript.py:250-264 | without skipping every file is processed and none is skipped |
| Transcript.RerunSkipsOnlyValidTranscripts | transcript.py:238-261 | a rerun with skipping passes over a file exactly when the transcript the first run saved is valid, and transcribes it otherwise |
| Transcript.FailedFileIsRetried | transcript.py:201-206 | a file whose five attempts failed is transcribed again on a rerun |
| Transcript.AudioFiles | transcript.py:220 | the ".mp3" entries joined to the directory, one per entry, in sorted order |
| Transcript.ProcessFileWrapper | transcript.py:245-271 | the wrapper does one step and updates the counters by what it did |
| Transcript.RunJobs | transcript.py:278-279 | the pool's map runs every job in turn, and the counters are the tally of the results |
| Transcript.RunTranscription | transcript.py:209-288 | it fails when the client cannot be set up, the directory is missing or holds no ".mp3"; with fewer than one worker the pool raises; otherwise it succeeds whatever the per-file outcomes, and the run and counters are those of all files in sorted order |
| ProcessAudio.Mp3IsNotVideo | process_audio.py:22-26 | a path ending in ".mp3" is not a video file |
| ProcessAudio.ConvertedPath | process_audio.py:43-44 | the converted audio ends in ".mp3" |
| ProcessAudio.ConvertedIsNotInput | process_audio.py:43-44 | the converted audio is never the video itself |
| ProcessAudio.LayoutFor | process_audio.py:114-149 | the chunk directory is the supplied one exactly when splitting is skipped and it is an existing directory, otherwise output/audio_chunks; a video is replaced by its converted ".mp3", audio is used as it is |
| ProcessAudio.RoundsUsed | process_audio.py:221-255 | the loop never uses more rounds than it is given |
| ProcessAudio.CombineSucceedsOnlyOnTrue | process_audio.py:221-255 | success comes only from a round where `generate_srt` returned True, and every round before it asked for a retry |
| ProcessAudio.UndecidedMeansAllRetried | process_audio.py:237-243 | the loop is still waiting only when every round was a parse error followed by a retry signal |
| ProcessAudio.FirstRoundDecides | process_audio.py:237-251 | without a control queue, or when the first result is not a parse error, the first round decides |
| ProcessAudio.CombineWithRetries | process_audio.py:221-255 | the `while True` loop reaches the decision of the rounds and uses the rounds that decision takes |
| ProcessAudio.RemovedBeforeFailure | process_audio.py:260-267 | removal goes in order and stops at the first path whose removal raises |
| ProcessAudio.CleanupRemovesConvertedAudio | process_audio.py:264-265 | after a conversion the converted audio is removed last, and never the input |
| ProcessAudio.CleanupKeepsAudioInput | process_audio.py:258-265 | for an audio input only the chunk and intermediate directories are removed |
| ProcessAudio.CleanupChunkDirectory | process_audio.py:261-263 | a run that split the audio removes its own chunk directory first; a supplied chunk directory in use is kept |
| ProcessAudio.RunPipeline | process_audio.py:84-274 | a missing input or key stops everything; conversion runs only for a video, splitting only when not skipped and the audio is there, transcription only when the chunks are there, and the combine loop only after transcription succeeds; the result is the combine decision; clean-up runs only after success when asked |
| VerifyDurations.MatchingSelects | verify_durations.py:65 | an entry is a chunk file exactly when it starts with the prefix and ends with the extension |
| VerifyDurations.ChunkFiles | verify_durations.py:65 | the chunk files are the matching entries, sorted |
| VerifyDurations.UsableSumSign | verify_durations.py:77-79 | the total is never negative, and it is positive exactly when some chunk was usable |
| VerifyDurations.AllUsableSumsAll | verify_durations.py:74-79 | when every duration is present and positive, the total is their sum and all are counted |
| VerifyDurations.AccumulateDurations | verify_durations.py:55-82 | the total is the sum of the present positive durations, the count is how many there are, and count + failed is the number of chunk files |
| VerifyDurations.VerdictOf | verify_durations.py:98-103 | consistent exactly when the difference is within ±0.1 (exclusive), greater exactly when it is at least 0.1, less exactly when it is at most -0.1 |
| VerifyDurations.ProbedDurations | verify_durations.py:74-76 | one probed duration per chunk file |
| VerifyDurations.VerifyChunkDurations | verify_durations.py:39-103 | it exits with status 1 exactly when the original has no duration, the directory is missing or no file matches; otherwise it reports the usable total, the counts, the difference from the original and its verdict |

## Left out

- Media tools: `ffprobe`, `ffmpeg`, `silencedetect` and `mutagen` are not called. Their results are parameters: a duration, the diagnostic lines, export success, conversion success and a duration per path. The ffprobe fallback of `get_audio_duration` (0.0 on failure) becomes a supplied function.
- The remote transcription service: upload, polling, generation, deletion, the client setup (`create_client`, `get_client`, `initialize_genai_client`) and the thread-local client cache are not modelled. Each attempt's outcome is an input. Whether a client could be set up is a flag.
- Transcript.ProcessAudioFile: the region handed to a Vertex AI client is recorded, but whether a project id makes the client use it is not modelled, because the client itself is left out.
- Thread pool concurrency and `count_lock`: workers run one after another in the sorted order of their paths.
- `random.uniform` and `time.sleep`: each jitter is a supplied fraction of its range, and a wait is recorded as its class, attempt and fraction. The seconds are computed by `Delay`. The 0.5–1.5 s pause before each request and the 2 s polling sleep are not modelled.
- IEEE floating point: times are exact reals. `float()` parsing is exact decimal reading. timedelta's microsecond rounding becomes truncation to whole milliseconds, and sums do not round.
- Windows paths: the path helpers in `Strings` (`Extension`, `Basename`, `Stem`, `Parent`, `Join`) follow POSIX `os.path` and `pathlib` rules, where `/` is the only separator. On Windows, which the source also targets (its `win32` branches), `\` also separates and a drive letter such as `C:` roots a path. For `C:\media\talk.mp4` the code's output directory is `C:\media\talk`, while `OutputDirFor` gives `./C:\media\talk`. The members built on these helpers carry the POSIX reading only: `ProcessAudio.LayoutFor`, `ProcessAudio.OutputDirFor`, `ProcessAudio.ConvertedPath`, `ProcessAudio.IsVideoFile`, `CombineTranscripts.TranscriptPath`, `SplitAudio.CodecFor`, `SplitAudio.ChunkPath`, `Transcript.Jobs` and `Transcript.AudioFiles`.
- Unicode: lower-casing maps only ASCII letters. `strip` and the pattern class `\s` use Python's full `isspace` set. Digits are ASCII only, whereas Python's `\d`, `int` and `float` also accept other Unicode decimal digits: a cue line such as `[٠١:٠٥] x` matches in Python but not in the model. Text decoding with `errors='ignore'` is not modelled. A transcript that cannot be decoded as UTF-8 is a separate file state.
- The pipeline's intermediate file writes are modelled as complete. A partial write after a failed attempt, directory creation errors and `exists` races are not modelled.
- `shutil.rmtree` removing part of a directory before it raises is not modelled: a removal either happens completely or raises.
- CombineTranscripts.GenerateSrt: it merges the chunks in the corrected chunk-number order (see Findings), not in the listing order the code's sort leaves. A write that fails part-way can leave a truncated SRT file, which the model treats as nothing written.
- SplitAudio.FindOptimalSplitPoints: requires a positive maximum. With a maximum of 0 or less, the code's cursor loops (split_audio.py lines 90-93 and 98-101) never stop once entered, and both command lines accept `--max-length 0`. `NonPositiveMaxNeverStops` proves the non-termination. The model does not represent a run that hangs.
- SplitAudio.CollectCuts: requires a positive maximum for the same reason.
- SplitAudio.SplitAudioFile: requires a positive maximum for the same reason.
- SplitAudio.AppendForcedCuts: requires a positive maximum for the same reason.
- SplitAudio.ExportPlannedChunks: requires a positive maximum for the same reason.
- Transcript.RetriesUseDistinctRegions: the rotation is shared by all workers (two by default), so other files' retries can move it between two retries of one file. The lemma holds only while one file retries at a time.
- ProcessAudio.CombineWithRetries: the loop runs over a finite list of combine rounds. Running out of rounds before a decision yields None ("still waiting for a correction") instead of blocking forever.
- The parse-error pause path: `generate_srt` as written returns only True or False. The combine loop is modelled over an abstract result that includes a parse error, but no producer of parse-error records is invented.
- Parameters that are only passed through are not modelled: content choice inside the pipeline, first-chunk offset, maximum length, silence length and threshold, target language, model name, worker count and skip flag.
- Prompt text (`get_system_instruction`), progress and print messages, timing reports and the argparse `main` functions of the stage scripts are not modelled.
- The desktop GUI (`audio_processor_gui.py`) is not part of this model.
- The export loop's 300 s timeouts and the check that an exported chunk is non-empty are folded into the export success flag.

## Findings

| source | as written | input that shows it | evidently intended | confidence | as-written member | corrected member |
|---|---|---|---|---|---|---|
| combine_transcripts.py:169-172 | the sort key is the last run of digits in the whole file name, which for every ".mp3" name is the "3" of the extension; all chunks tie, and the stable sort keeps the directory listing's arbitrary order | a listing `["chunk_010.mp3", "chunk_002.mp3"]` stays in that order, so chunk 10's subtitles are placed first and every offset after it is wrong | order the chunks by the number in the file name's stem, which is the chunk index the splitter wrote | high; not executed | CombineTranscripts.ListedOrderIsListingOrder, CombineTranscripts.ListedOrderKeepsChunkTenFirst | CombineTranscripts.ChunkOrder, CombineTranscripts.ChunkOrderFollowsNumbers |
