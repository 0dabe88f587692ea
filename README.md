# Audio effect pipeline: a verified model

This project models the core of the desktop audio converter's `audioProcessor.js`: the
effect catalog, the two progress formulas and the job that `AudioProcessor.process` and
`AudioProcessor.applySecondPass` run.

A job looks its effect id up in the catalog. An unknown id is rejected with
"Invalid effect type". A known id launches the external audio engine (ffmpeg) for pass 1.
Pass 1 reads the input and writes a temporary file `_temp_<timestamp>.mp3` in the output's
directory. When pass 1 ends, a two-pass effect launches pass 2, which reads the temporary
file and writes the output. A single-pass effect simply reports completion. Every pass
uses mp3 at 320k with 2 channels and applies its preset's filter chain in order. Progress
events are mapped to 0..80 in pass 1 and to 80..100 in pass 2. The handlers then delete
the temporary file, call the caller's callbacks and settle the returned promise, in a
fixed order.

Modules:

- `Wrappers` (wrappers.dfy): `Option` and `Result`.
- `EffectCatalog` (catalog.dfy): the `effectConfigs` table as a `map<string, Preset>`, its
  lookup, and the prototype-key finding below.
- `ProgressScale` (progress.dfy): `Math.round` and the two percent formulas.
- `TempPath` (temppath.dfy): `path.dirname`, `path.basename`, `path.join` and the
  temporary file name.
- `Job` (job.dfy): the job as a pure state machine.
  - `Start` is the synchronous part of `process`.
  - `Step` is the handler for one engine event; `Run` applies a list of events.
  - An invariant `Inv` holds in every reachable state.
  - Lemmas cover whole runs of the job.
  - Every observable effect is appended to one ordered `trace`: engine launch, callback,
    file deletion, settlement.
- `AudioProcessor` (processor.dfy): the class `ConversionJob`.
  - Its fields are the job's phase, whether the temporary file exists, whether the
    output file exists, and the ghost trace.
  - It has one method per engine event. Each method is proved to perform exactly
    `Job.Step` and to keep `Job.Inv`.

The engine is a source of events: `progress` carrying an optional non-negative estimate,
`end`, and `error` carrying a message. The engine's estimate is a non-negative real.
`Date.now()` is a parameter `stamp`.

Behaviour of the code worth knowing, which the model keeps:

- Pass-1 progress is capped at 80 for single-pass effects too. The last progress before
  completion is therefore at most 80, followed by the 100 of the completion report.
- A single-pass success leaves the result at the temporary path. The output path is never
  written.
- `process` checks for the engine nowhere: there is no "engine not available" rejection
  before pass 1.
- Engine estimates are not clamped. An estimate above 100 gives 80 in pass 1 and 100 in
  pass 2, through the `Math.min` caps only.
- A failing pass 2 does not delete what it may have written to the output path:
  `outputWritten` becomes the error's `fileLeft`.

## Model

| member | source | states |
|---|---|---|
| EffectCatalog.Lookup | audioProcessor.js:187-191 | the lookup succeeds exactly for the catalog's ids and returns their preset; otherwise it fails with "Invalid effect type" |
| EffectCatalog.CatalogContents | audioProcessor.js:38-182 | the catalog holds exactly "8d", "bass" and "club" with their display names; only "bass" lacks a second pass; every chain is non-empty with named filters |
| EffectCatalog.ClubChains | audioProcessor.js:97-181 | the club pass-1 chain is five equalizers then volume; its pass-2 chain is volume, aecho, aecho, acompressor |
| EffectCatalog.BassChain | audioProcessor.js:70-96 | the bass chain is volume 1.5 then two equalizers, from 50 Hz to gain 10.4 |
| EffectCatalog.InheritedNamePassesGuard | audioProcessor.js:187-188 | the guard as written lets "toString" through although no preset has that id |
| ProgressScale.Round | audioProcessor.js:205 | Math.round gives the integer within half of x, halves rounding up |
| ProgressScale.Pass1Percent | audioProcessor.js:203-206 | a pass-1 percent lies in 0..80; a missing estimate gives 0; it is 80 exactly from 79.5 on, otherwise the nearest integer |
| ProgressScale.Pass2Percent | audioProcessor.js:236-239 | a pass-2 percent lies in 80..100; a missing estimate gives 80; it is 100 exactly from 97.5 on, otherwise 80 plus the nearest integer to a fifth of the estimate |
| ProgressScale.RoundMonotone | audioProcessor.js:205 | rounding is monotone |
| ProgressScale.Pass1Monotone | audioProcessor.js:205 | a larger pass-1 estimate never gives a smaller percent |
| ProgressScale.Pass2Monotone | audioProcessor.js:238 | a larger pass-2 estimate never gives a smaller percent |
| ProgressScale.PassesOrdered | audioProcessor.js:205-238 | no pass-2 percent is below any pass-1 percent |
| TempPath.JoinSplits | audioProcessor.js:193 | joining a directory and a single-segment name gives back that directory and that name |
| TempPath.DecimalRoundTrip | audioProcessor.js:193 | the decimal digits of the timestamp read back as the timestamp |
| TempPath.TempNameInjective | audioProcessor.js:193 | different timestamps give different temporary names |
| TempPath.TempFileColocated | audioProcessor.js:193 | the temporary file is in the output's directory, named `_temp_<stamp>.mp3`, and differs from the output unless the output has that very name |
| Job.Start | audioProcessor.js:185-199 | an unknown id gives a failed job whose only action is the rejection; a known id launches pass 1 from the input into the temporary file with the pass-1 chain, mp3/320k/2; the invariant holds |
| Job.Step | audioProcessor.js:203-251 | a handler keeps the paths and the preset; a rejected or settled job ignores every event |
| Job.StepExtends | audioProcessor.js:203-251 | a handler only appends to what the job has done |
| Job.Run | audioProcessor.js:185-254 | a run of events keeps the paths and the preset |
| Job.RunExtends | audioProcessor.js:185-254 | a run of events only appends to what the job has done |
| Job.StepKeepsInv | audioProcessor.js:203-251 | every handler keeps the invariant: launches, progress bands, single settlement as the last action, terminal callback just before it, deletion of the temporary file (if any) just before that callback, which a job that reached pass 2 always performs whether pass 2 ends or fails, and the file flags of each phase |
| Job.RunKeepsInv | audioProcessor.js:185-254 | the invariant holds after any sequence of events |
| Job.FinishedIsFinal | audioProcessor.js:186-253 | a settled job takes no further action, whatever the engine emits |
| Job.InvalidEffectRejected | audioProcessor.js:187-191 | an unknown id is rejected with "Invalid effect type", with no launch and no callback, whatever the engine emits |
| Job.JobGuarantees | audioProcessor.js:185-253 | for any events: pass 1 reads the input into the temporary file with the pass-1 chain; pass 2 (at most one) reads the temporary file into the output with the second chain; every progress report lies in its pass's band with its pass's label; on failure the error callback with the rejection's message comes right before the rejection, no temporary file is left, and after pass 2 the temporary file is deleted right before that callback; two-pass success deletes the temporary file, reports 100 and resolves, in that order, with the output written; single-pass success reports 100 and resolves with the result left at the temporary path |
| Job.NotesMonotone | audioProcessor.js:203-206 | non-decreasing estimates of one pass give non-decreasing percents within that pass's band |
| Job.FinishStep | audioProcessor.js:208-251 | the closing handler of a job's last pass adds 100 to the percents only on success, launches nothing, and leaves the files as the phase says |
| Job.PassFed | audioProcessor.js:203-251 | a pass run through its estimates then its end or error appends its reports then its closing actions, adds exactly the mapped percents (and 100 on success) and launches nothing |
| Job.AfterFirstPass | audioProcessor.js:195-225 | for any estimates, after pass 1 the trace is exact: a failing job has its launch, its reports, the deletion of the temporary file if the engine left one, the error callback and the rejection with the engine's message; a single-pass job has its launch, its reports, the success report and the resolution; otherwise pass 2 has been launched from the temporary file into the output, with the temporary file present and the output unwritten |
| Job.SecondPassTail | audioProcessor.js:229-253 | for any estimates pass 2 appends its reports, the deletion of the temporary file, then the success report and resolution or the error callback and rejection with the engine's message; it writes the output on success and leaves what the engine left on error; with non-decreasing estimates after pass-1 percents it keeps the percents non-decreasing, ending at 100 on success |
| Job.ClosedAfterFirst | audioProcessor.js:208-224 | a job closed by pass 1 ignores the rest of the events: its exact trace (launch, reports, deletion if the engine left a file, then the error callback and rejection with the engine's message, or the success report and resolution), one launch, percents ending at 100 on success and non-decreasing for non-decreasing estimates, temporary file kept only on success |
| Job.ClosedAfterSecond | audioProcessor.js:215-253 | a two-pass job whose pass 1 ends takes its outcome from pass 2: its exact trace ends with the deletion of the temporary file, then the success report and resolution or the error callback and rejection with pass 2's message; two launches and no temporary file left |
| Job.ScriptRun | audioProcessor.js:185-253 | for any estimates the job's trace is exact in each case (pass-1 failure, single-pass success, two-pass run), so deletions precede the error callback and the callback and rejection carry the engine's message; pass 2 runs only after pass 1 ends and only for a two-pass effect; percents end at 100 on success and never go back when the estimates do not; the outcome and the file flags follow each case |
| AudioProcessor.ConversionJob.constructor | audioProcessor.js:185-199 | the new job is the state `Job.Start` describes and satisfies the invariant |
| AudioProcessor.ConversionJob.OnProgress | audioProcessor.js:203-207 | the progress handler reports the mapped percent with its pass's label and keeps the invariant |
| AudioProcessor.ConversionJob.OnEnd | audioProcessor.js:215-245 | the end handler launches pass 2 or completes, deleting the temporary file after pass 2, and keeps the invariant |
| AudioProcessor.ConversionJob.OnError | audioProcessor.js:208-251 | the error handler deletes the temporary file if present, calls the error callback, rejects, and keeps the invariant |
| AudioProcessor.ConversionJob.Settled | audioProcessor.js:186-253 | the promise has settled exactly when no pass is running, exactly when the last action is the settlement |

## Left out

- The engine's location and setup (`getFfmpegPath`, `setFfmpegPath`, `checkFfmpeg`): environment and file-system probing.
- fluent-ffmpeg and the file system themselves. The engine is an event source; file existence is model state. `fs.existsSync` before each deletion is the `tempExists` flag.
- The `start` handler and every `log.*` call: logging only.
- Floating point. Estimates are exact non-negative reals, so rounding at an exact half follows the real number rather than its binary approximation.
- Path normalisation of `.`/`..` segments, repeated slashes and trailing slashes in `path.dirname`/`path.join`. Output paths are taken as plain POSIX paths.
- A deletion or a callback that throws. Both are treated as succeeding.
- The timestamp's freshness, and concurrent jobs sharing a temporary name. `stamp` is a parameter.
- The promise chaining between `applySecondPass` and `process`. Settling the inner promise settles the outer one; the microtask delay between them is not modelled.
- The renderer, the main process, the dependency checker and `converter.py`: UI, process and installer plumbing, and a separate floating-point panner. The renderer calls `process` with four arguments (renderer.js:110-120), so `effectType` receives the progress function; by `Job.InvalidEffectRejected` every such job is rejected with "Invalid effect type".

## Findings

| source | as written | input that shows it | evidently intended | confidence | as-written member | corrected member |
|---|---|---|---|---|---|---|
| audioProcessor.js:187-188 | `effectConfigs[effectType]` on a plain object finds properties inherited from `Object.prototype`, and the `!config` guard passes them | effect id "toString" (or "constructor", "valueOf", ...) | only the catalog's own ids are accepted; every other id is rejected with "Invalid effect type" | medium, not executed | EffectCatalog.InheritedNamePassesGuard | EffectCatalog.Lookup |

With "toString" the guard as written (`EffectCatalog.GuardPassesAsWritten`) lets the job
go on instead of rejecting it with "Invalid effect type". Its preset is then a function
value with no `filters` or `name`, and what follows depends on how fluent-ffmpeg treats
`audioFilters(undefined)`. The model's jobs use `Lookup`, which accepts own keys only.
