# SimulationWorker in Dafny

A model of the NJCoast simulation worker (`main.go`). The worker is a long-running
process connected to a job queue over a websocket. When it has nothing to do it sends
`GET:`. The queue answers with `DATA:` followed by a JSON job, or with a bare `DATA:`
when no work is left. For each job the worker runs a storm-surge pipeline: it fetches
the inputs from the `simulation.njcoast.us` bucket, optionally derives and patches a
parameters document, runs the simulator and publishes the results. It then reports
`COMPLETE:<id>` or `FAILED:`. Infrastructure failures end the whole process.

The model has seven modules:

- `Wrappers`: `Option` and `Result`.
- `Text`: string prefixes, Go's `%d` rendering of integers (`IntToDecimal`) and a
  scanner that reads it back.
- `Jobs`: the job record and the pre-computed-mode test (tide and analysis both -1).
  It also holds Go's truncating float-to-int conversion and the artifact suffix
  `toString`, with a parser that inverts the suffix.
- `Params`: the parameters document and the scenario patch applied to it in
  derived-parameters mode.
- `Protocol`: outgoing frames and the decoding of inbound frames. Inbound frames
  are byte sequences, and the JSON decoder is a parameter
  (`payload: seq<byte> -> Option<Job>`).
- `Pipeline`: one job's execution as a plan. Given the job and the outside world's
  answers (`Outcomes`), it yields the ordered `Action`s taken and how the job ends:
  `Completed(id)`, `JobFailed` or `Fatal`.
- `Worker`: the shared state (`currentJob`, `requestedJob`) and its two writers.
  The frame reader and the polling loop are atomic events, and whole traces are
  executed from them.

The sea-level-rise component of the suffix is `int(j.SLR*10)`: Go's conversion of a
float64 to int truncates toward zero, so 0.27 gives `__slr_2` and -0.25 gives
`__slr_-2`. The model truncates in the same way.

## Model

| member | source | states |
|---|---|---|
| Jobs.TruncTowardZero | main.go:30 | Go's float-to-int conversion drops the fraction toward zero. For x >= 0 the result r is a natural with r <= x < r+1. For x < 0 it is non-positive with r-1 < x <= r. |
| Text.NatToDigits | main.go:30 | The decimal rendering of a natural is a non-empty run of digits. It has a leading zero only when the number is 0. |
| Text.ParseNatToDigits | main.go:30 | Reading the digits of a natural's rendering gives back the natural. |
| Text.DigitRunLength | main.go:30 | The digit run at the front of a text covers only digits, and it is maximal. |
| Text.ScanIntToDecimal | main.go:30 | Scanning the `%d` rendering of any integer, followed by text that does not start with a digit, gives back the integer and exactly that text. |
| Jobs.TideLabelShape | main.go:32-39 | Each tide label is empty or starts `__t` (two underscores, then the letter) and is longer than 7 characters. |
| Jobs.AnalysisLabelShape | main.go:41-48 | Each analysis label is empty or starts `__a` (two underscores, then the letter) and is longer than 13 characters. |
| Jobs.ProtectionLabelShape | main.go:50-57 | Each protection label is empty or starts `__p` (two underscores, then the letter) and is longer than 14 characters. |
| Jobs.TakeTideLabel | main.go:32-39 | After a tide label, the tide code is recovered exactly when it is 0, 1 or 2. No other code adds text. |
| Jobs.TakeAnalysisLabel | main.go:41-48 | After an analysis label, the analysis code is recovered exactly when it is 0, 1 or 2. No other code adds text. |
| Jobs.TakeProtectionLabel | main.go:50-57 | After a protection label, the protection code is recovered exactly when it is 1, 2 or 3. Protection 0 and any other code add nothing. |
| Jobs.LabelsRoundTrip | main.go:32-57 | The three label groups, in tide-analysis-protection order, read back as the in-range codes with nothing left over. |
| Jobs.SuffixRoundTrip | main.go:29-60 | Parsing a job's suffix yields its truncated tenths of sea-level rise and exactly its labelled codes, so the suffix is unambiguous. |
| Jobs.SuffixDistinguishesScenarios | main.go:29-60 | Two jobs get the same suffix if and only if they agree on the truncated tenths and on every in-range code. Out-of-range codes collide. |
| Jobs.SuffixExampleFull | main.go:29-60 | SLR 1.2, tide 2, analysis 1 and protection 2 give `__slr_12__tide_high__analysis_expected__protection_degraded`. |
| Jobs.SuffixExampleNoProtection | main.go:50-59 | Protection 0 has no label: SLR 0, tide 0 and analysis 0 give `__slr_0__tide_low__analysis_deterministic`. |
| Jobs.SuffixExampleSentinels | main.go:30-48 | SLR -0.25 truncates toward zero to -2, and the sentinel codes -1 add nothing: the suffix is `__slr_-2`. |
| Params.AnalysisProbability | main.go:237-247 | Analysis codes 0, 1 and 2 select probability index 0.0, 0.5 and 0.1. Any other code selects nothing. |
| Params.Patch | main.go:232-247 | The patch copies sea-level rise and protection from the job and sets tide to half the job's tide code. The probability index comes from the table when the analysis code is in it, and otherwise keeps the document's value. |
| Params.PatchKeepsOtherFields | main.go:232-247 | Every field other than those four, including the storm type, comes through the patch unchanged. |
| Protocol.OutRoundTrip | main.go:334 | Every outgoing frame (`GET:`, `FAILED:`, `COMPLETE:` with any identity) reads back as the message sent. |
| Protocol.DecodeFrame | main.go:152-164 | Exactly the bare `DATA:` frame means no work. A frame shorter than five bytes is a truncation error. Any other frame is accepted exactly when everything after its first five bytes decodes, and then carries the decoded job. |
| Protocol.FrameRoundTrip | main.go:152-164 | A frame made of `DATA:` and a non-empty job rendering that the decoder accepts decodes to that job. The bare frame decodes to no work. |
| Protocol.HeaderIgnored | main.go:161 | The five-byte header is never inspected. Any header other than the bare `DATA:` frame decodes the same payload. |
| Pipeline.PerformUploads | main.go:310-330 | Uploads run in order and stop at the first required upload that fails. The attempted uploads are a prefix, and the batch is fatal exactly when some required upload fails. Before the last attempt nothing blocks. Best-effort failures never stop the batch. |
| Pipeline.PutsStop | main.go:310-330 | As actions, the attempted uploads do not fail before the last one, and the last one fails exactly when the batch is fatal. |
| Pipeline.PublishStops | main.go:260-268 | Publishing the patched document and the cone either stops fatally at the first failed upload or leaves every step so far successful. |
| Pipeline.DeriveStops | main.go:202-268 | Derived mode's prelude stops at its first failing step. A track-generator failure gives FAILED, and other failures are fatal. When it is ready, the download and the read succeeded and the storm type is the one read. |
| Pipeline.PrepareStops | main.go:185-268 | In both modes the prelude stops at its first failing step and never completes by itself. A ready prelude took no failing step and keeps the storm type read from disk. |
| Pipeline.FinishStops | main.go:271-331 | After successful steps, simulating, converting and publishing stop at the first failure. A simulator failure gives FAILED, a required-upload failure is fatal, and success reports the given identity. |
| Pipeline.RunStopsAtFirstFailure | main.go:176-336 | For every outcome, the run's only failing step is its last one. Track-generator and simulator failures end it with FAILED. A failed download, parameters read, write or required upload ends the process. A run with no failing step completes with the job's own identity. |
| Pipeline.CompletedNothingFails | main.go:176-336 | No step of a completed run failed. |
| Pipeline.FinishPuts | main.go:287-330 | The uploads attempted after the simulator all come from the result list. |
| Pipeline.PublishPuts | main.go:260-268 | The uploads attempted while publishing parameters are the parameter uploads. |
| Pipeline.PreparePuts | main.go:182-268 | Only a derived-parameters job uploads anything before the simulator, and only its parameter uploads. |
| Pipeline.RunPuts | main.go:182-331 | Every upload of a run is one of the job's result uploads or, for a derived job, one of its parameter uploads. |
| Pipeline.KeyInFolder | main.go:186 | Every object key lies under the bucket and the job's folder. |
| Pipeline.BestEffortArtifacts | main.go:290-330 | Among the published files, exactly the wind, surge and track GeoJSON files are best-effort. |
| Pipeline.ResultLocals | main.go:290-330 | The result files differ from the parameters document and the cone. Only the transect file is `/app/transect_line.json`. |
| Pipeline.UploadShape | main.go:262-327 | Each possible upload goes to the job's folder under the name of one of its artifacts, suffixed unless the job is pre-computed, or it is the bare cone. It is best-effort exactly when it is a wind, surge or track file. |
| Pipeline.UploadKeys | main.go:262-327 | Every upload a run attempts has the shape that `UploadShape` describes. A pre-computed job publishes only result artifacts, under bare names. |
| Pipeline.FinishExtends | main.go:271-285 | The steps already done stay a prefix, and the simulator runs right after them. |
| Pipeline.RunExtendsPrelude | main.go:182-285 | A run's steps begin with the steps of its prelude. |
| Pipeline.PrecomputedSkipsDerivation | main.go:185-201 | A pre-computed job first downloads `input_params.json` from its folder. It never runs the track generator, never writes parameters, and never uploads the parameters document or the cone. |
| Pipeline.DeriveOrder | main.go:202-262 | Derived mode first downloads `input.geojson` to `/app/sandy.geojson` and then runs the track generator. On success its fourth step writes the patched document and its fifth uploads it. |
| Pipeline.DerivedRunsTrackGenerator | main.go:202-262 | The whole run of a derived job has the same opening steps as `DeriveOrder`. |
| Pipeline.FinishCompleted | main.go:276-334 | Completion after the prelude means the simulator succeeded, every result upload was attempted in order, and none blocked. |
| Pipeline.PublishReady | main.go:260-268 | A parameters publication that goes on attempted both uploads. |
| Pipeline.PrepareReady | main.go:202-268 | A ready derived prelude is the four derivation steps followed by the upload of the document and then of the cone. |
| Pipeline.CompletedRun | main.go:176-334 | A completed run is a ready prelude, then the simulator, the converter and every result upload, and it reports the job's own identity. |
| Pipeline.CompletedPublishesAll | main.go:287-334 | A job completes only with its own identity, after the simulator succeeded. Every result upload comes last and in order, a derived job also published its document and cone, and no required upload failed. |
| Pipeline.CompletedParamUploads | main.go:260-268 | A completed derived job uploaded its patched document and its cone. |
| Pipeline.TailPuts | main.go:287-330 | Uploads that end the action list are all among the actions. |
| Pipeline.CompletedAttemptsResults | main.go:287-334 | A completed job attempted every result upload of its storm type. |
| Pipeline.TransectInResults | main.go:326-330 | The transect line is among the result uploads if and only if the storm type is 1, and then it is the last one. |
| Pipeline.TransectIffStormType | main.go:305-309 | A completed job published the transect line if and only if the storm type read from its parameters is 1. |
| Worker.OnFrame | main.go:152-164 | The bare `DATA:` frame clears the request flag and keeps the job. A decodable job frame replaces the held job and keeps the flag. A short or undecodable frame ends the process, and the reader never sends. |
| Worker.OnTick | main.go:168-337 | `GET:` is sent only from idle with no request outstanding, and it raises the flag. A busy wait changes nothing. A held job is run, after which the worker is idle and has sent `FAILED:` exactly on a job failure, `COMPLETE:` with its identity on completion, or halted exactly on a fatal outcome. |
| Worker.NoRequestWhileBusy | main.go:171-174 | While a request is outstanding or a job is held, every later `GET:` comes after a report, unless the empty-queue signal arrives. |
| Worker.ReportFirst | main.go:171-174 | Frames that open with a report have a report before every `GET:`. |
| Worker.CountsOfPrepend | main.go:171-174 | Counting requests and reports distributes over a pass's frames followed by the rest. |
| Worker.RequestsBounded | main.go:153-174 | Over any run, the `GET:` frames sent never exceed the reports sent plus the empty-queue signals received. One more is allowed when the worker ends busy without having started busy. |
| Worker.RequestsFromStart | main.go:82-83 | From start-up, at most one `GET:` goes beyond the reports and empty-queue signals. |
| Worker.EmptySignalThenRequest | main.go:153-174 | After the empty-queue signal, the next pass of a worker holding no job sends exactly one `GET:` and waits. |
| Worker.LatestJobWins | main.go:164 | Two job frames received before a pass leave only the second job to run. |
| Worker.ExecutableFailureReportsFailed | main.go:209-281 | A failing track generator or simulator in a pass sends exactly `FAILED:` and leaves the worker idle. |
| Worker.CompletionReportsJob | main.go:334-336 | A completed pipeline sends exactly `COMPLETE:` followed by the held job's identity and leaves the worker idle. |

## Left out

- Connecting: the `wss` dial with fallback to `ws`, the Basic authorization header
  and the environment variables are not modelled. They are I/O set-up before the
  loops start.
- Timing: read and write deadlines, the 30-second ping, pong handling and the
  5-second sleep are not modelled. A transport error or timeout is just one more
  way the process exits.
- The 2048-byte read limit is not modelled. It is a transport limit applied before
  a frame reaches the decoder.
- Concurrency: the reader goroutine and the polling loop share state without
  synchronisation, and the model treats each frame and each pass as atomic. A job
  frame that arrives while a pipeline is running would replace `currentJob` in Go,
  so the pass would report the newer job's identity and drop it. Interleavings
  inside a pass are not modelled. In particular, Go sends `GET:` (main.go:172) before
  it sets `requestedJob` (main.go:173), so a `DATA:` reply handled in between leaves
  the flag set with no job held and the worker never asks again; `RequestsBounded`
  and `EmptySignalThenRequest` rely on the pass being atomic.
- JSON: decoding a job frame is the abstract parameter `payload`. On the wire the
  job identity uses the key `string`. Reading and writing the parameters document
  are outcomes (`params`, `writeOk`). Encoding details and zero-filled missing
  fields are not modelled.
- External processes: `aws s3 cp`, the track generator, the simulator and the
  converter appear only through their exit statuses in `Outcomes`. The converter's
  status is never looked at, as in the code. What they compute is not modelled.
  `convert.js` is not part of this model.
- Floating point: the sea-level rise and the parameters document's reals are
  exact. Rounding of `SLR*10` in float64 before truncation is not modelled.
- Jobs.TruncTowardZero: is unbounded, while Go's conversion of a float64 outside
  the int64 range gives an implementation-defined value. Sea-level rises that large
  do not arise as job inputs.
- Pipeline.Upload: every `aws s3 cp` also passes `--acl public-read`. The flag is the
  same on every upload, so `Upload` has no field for it.
- Logging output is not modelled.
