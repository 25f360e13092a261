# Face swapper job pipeline: a verified Dafny model

This project models the job-processing core of a face-swapping video service. A caller submits a
record id, a source video URL, an avatar image URL and an optional webhook URL. The service
downloads both inputs into a temporary directory, runs the Wan2.2-Animate model on the video,
uploads the result to S3 under `<prefix><record_id>.mp4`, reports the outcome by webhook, and
removes the temporary directory.

There are two pipeline variants and two front ends:

- **Segmented pipeline** (`process_video_job`, module `Process`): ffmpeg cuts the video into four
  configured ranges. The model swaps the first and third, and an ffmpeg concat list puts the four
  pieces back together in the order swapped, original, swapped, original.
- **Direct pipeline** (`process_single_video`, module `ProcessSimple`): the model swaps the whole
  video in one pass. Storage settings and model path come from the configuration, or from
  environment variables with defaults.
- **Serverless handler** (`handler`, module `Handler`): it normalises the event's input, accepting
  two spellings of each URL field. It validates the three required values, runs the direct pipeline
  with a fixed configuration, and maps the result to a reply.
- **Web route** (`/process`, module `App`): it checks the loaded configuration and the JSON body and
  lists the missing required fields. It then runs the segmented pipeline and maps the outcome to an
  HTTP status code.

Every outside interaction is an input to the model, called an *oracle*. This covers:

- the temporary directory `mkdtemp` returns or the exception it raises;
- whether each download succeeds;
- each subprocess's exit status;
- what the Wan2.2 model leaves in its directory (the listing and the file sizes);
- whether the concat list can be written;
- the storage service's answer.

Each pipeline returns its result together with a trace of the effects it performs, in order:
directories made, downloads, commands run, files written or moved, uploads, webhooks and
directory removals.

Shared modules:

- `Text` covers Python string and path behaviour: `str.replace`, `os.path.join`, `pathlib` parent
  and join, `str.lower` and `sep.join`.
- `Common` holds values: truthiness, `dict.get`, `or`, the subprocess outcome and the effect type.
- `Transfer` holds the S3 key, the public URL and `upload_to_s3`.
- `Discovery` holds the two-tier search for the model's output video.
- `Stages` holds the control flow both variants share. Stages run in order inside one `try`, and
  the first failure aborts the rest. The `except` block or the success report then sends the
  webhook and removes the temporary directory.

Each imperative function of the source that loops or returns early is a `method`, proved equal to a
specification function. `upload_to_s3` has neither, so it is the function `Transfer.UploadToS3`. The pipeline methods walk their stages one at a time and
are proved equal to `Conclude(Walk(stages))`:

- `Walk` is the reference semantics of "the first failure aborts the rest";
- `Conclude` is the webhook-and-cleanup tail.

The lemmas then prove what the source promises about those functions.

## Model

| member | source | states |
|---|---|---|
| Text.ReplaceLast | docker/process.py:92 | `str.replace` of a pattern that cannot overlap itself and occurs only at the very end rewrites just that ending |
| Text.JoinSplits | docker/process.py:268-269 | a name joined into an absolute directory is `dir/name`; its parent is the directory and its basename is the name |
| Text.PathJoinAbsolute | docker/process.py:54 | `Path(dir) / name` under an absolute directory inserts exactly one separator |
| Transfer.UploadToS3 | docker/process.py:203-232 | the upload always targets `<bucket>` and key `<prefix><record_id>.mp4`; a URL comes back exactly when the upload succeeds, and the key can be read back out of that URL; a `ClientError` yields None; any other exception propagates with its text |
| Transfer.KeyRoundTrip | docker/process.py:214 | the record id can be read back out of the object key |
| Transfer.UrlRoundTrip | docker/process.py:225 | the key can be read back out of the public URL `https://{bucket}.s3.{region}.amazonaws.com/{key}` |
| Transfer.OutputsDistinct | docker/process.py:214-225 | two different record ids never share an object key or a public URL |
| Text.Replace | docker/process.py:92 | Python's `str.replace`: every non-overlapping occurrence, left to right; its behaviour is proved in `ReplaceAbsent` and `ReplaceLast` |
| Text.Parent | docker/process.py:42 | `Path(p).parent`: the text before the last `/`, `/` for a top-level name, `.` with no `/`; proved to invert a join in `JoinSplits` |
| Text.OsJoin | docker/process.py:268-269 | two-argument `os.path.join`: an absolute second part replaces the first, otherwise one `/` is inserted unless the first is empty or ends in `/`; see `JoinSplits` |
| Text.PathJoin | docker/process.py:54 | `Path(dir) / name` for a relative name; see `PathJoinAbsolute` |
| Discovery.SegmentPick | docker/process.py:136-154 | the segmented variant's two-tier search: tier one's hit when it exists on disk; otherwise the first other `.mp4`, or tier one's (missing) hit when there is none; its properties are `SegmentPickPrefersOutput`, `SegmentPickFallsBack`, `SegmentPickNone` |
| Discovery.DirectPick | docker/process_simple.py:189-209 | the direct variant's two-tier search; its properties are `DirectPickPrefersOutput`, `DirectPickFallsBack`, `DirectPickNone` |
| Stages.Walk | docker/process.py:262-303 | the stages of the `try` block run in order up to and including the first that fails; its properties are `WalkOutcome`, `WalkQuiet`, `WalkKeeps` |
| Stages.Conclude | docker/process.py:305-346 | the success report or the `except` block, then cleanup; its properties are `ConcludeTail`, `JobOutcome`, `ConcludeRemovesOnlyTemp` |
| Stages.FirstFailed | docker/process.py:262-303 | the index of the first failing stage: every stage before it succeeded, and it failed (or it is the stage count when all succeed) |
| Stages.WalkOutcome | docker/process.py:262-303 | the walk of a `try` block succeeds exactly when every stage succeeds; otherwise it reports the first failing stage's error, having run that stage and the ones before it only |
| Stages.WalkQuiet | docker/process.py:262-303 | stages that post no webhook post none however far the walk gets |
| Stages.WalkKeeps | docker/process_simple.py:268-323 | stages that remove no directory remove none however far the walk gets |
| Stages.WebhooksAppend | docker/process.py:313-314 | webhook counts add up over concatenated traces |
| Stages.ConcludeTail | docker/process.py:305-346 | after the stages: exactly one webhook, posted to `webhook_url`, when that URL is truthy and none otherwise; its payload is `Complete` with the URL, or the failure status with the error; the result is success exactly when the walk succeeded, and otherwise carries its error; removing the temporary directory is the last effect when it exists; no webhook or cleanup outcome is consulted |
| Stages.JobOutcome | docker/process.py:255-346 | a whole job: one webhook, to `webhook_url`, iff that URL is truthy; success iff every stage succeeded, with the full trace of all stages, `Complete` webhook and cleanup; otherwise the first failing stage's error, and the trace stops at that stage, then the failure webhook and cleanup; cleanup last |
| Stages.JobSettles | docker/process.py:255-346 | any webhook-free stages, concluded, meet the promises of `Settled`: webhook count and target, success iff all stages succeed with the upload URL, first failing error, cleanup last |
| Stages.ConcludeRemovesOnlyTemp | docker/process_simple.py:370-372 | when the stages remove no directory, the only directory a job removes is its temporary directory |
| Stages.Finish | docker/process.py:313-346 | the report-and-cleanup tail, run step by step, equals `Conclude` |
| Stages.Record | docker/process.py:271-303 | one stage's bookkeeping: the job stops here exactly when the stage failed, with its error, and its effects join the work done |
| Stages.Settle | docker/process.py:305-346 | finishing from a stopped or completed walk equals `Conclude(Walk(stages))` |
| Stages.UploadStep | docker/process.py:300-303 | the upload as a stage: a `ClientError` stops the job with `S3 upload failed`; on success the URL is the job's public URL |
| Discovery.FirstOutputVideo | docker/process.py:139-142 | the position of the first `.mp4` whose lower-cased name contains `output`; None exactly when there is none |
| Discovery.FirstOtherVideo | docker/process.py:146-151 | the position of the first `.mp4` whose joined path is not the input; None exactly when there is none |
| Discovery.ScanForOutput | docker/process_simple.py:192-196 | the tier-one loop with `break` finds the same entry as `FirstOutputVideo` |
| Discovery.ScanForOther | docker/process_simple.py:201-207 | the tier-two loop with `break` finds the same entry as `FirstOtherVideo` |
| Discovery.DirectPickPrefersOutput | docker/process_simple.py:192-196 | in the direct variant the first output-named video wins whatever else is listed |
| Discovery.DirectPickFallsBack | docker/process_simple.py:199-207 | tier two runs only when tier one found nothing, and picks the first other video |
| Discovery.DirectPickNone | docker/process_simple.py:189-209 | the direct variant finds nothing exactly when no listed name qualifies for either tier |
| Discovery.SegmentPickPrefersOutput | docker/process.py:139-144 | in the segmented variant an output-named video that exists is chosen |
| Discovery.SegmentPickFallsBack | docker/process.py:144-151 | with no output-named video the segmented variant picks the first other video |
| Discovery.SegmentPickNone | docker/process.py:138-154 | the segmented variant finds nothing exactly when no name qualifies for either tier |
| Process.FirstBadExit | docker/process.py:66-70 | the first cut whose ffmpeg did not exit with status 0: every cut before it did |
| Process.SegmentationOutcome | docker/process.py:52-75 | segmentation succeeds exactly when all four cuts exit with status 0, and then returns the four segment paths; the runs are always a prefix of the planned cuts, ending at the first failure; never a partial list |
| Process.CutAll | docker/process.py:52-72 | the cutting loop: run `i` is the ffmpeg command for cut `i` (start, `end - start`, stream copy, `segment_<name>.mp4` next to the input); on success every cut exited with status 0 and the paths follow the plan; otherwise the last run is the first that failed |
| Process.SegmentVideo | docker/process.py:35-79 | `segment_video` as run equals its specification `Segmentation` |
| Process.SegmentPathsInDir | docker/process.py:42-54 | inside a temporary directory the segments are `<dir>/segment_<name>.mp4` in the order swap_1, original_1, swap_2, original_2 |
| Process.FindSwapOutput | docker/process.py:138-151 | the two discovery loops equal `SegmentPick`: the fallback scan runs when the first found nothing or a path that does not exist |
| Process.SwapSegment | docker/process.py:81-168 | `face_swap_segment` as run equals its specification `SwapSegmentSpec` |
| Process.SwapSucceedsIff | docker/process.py:112-164 | a segment swap succeeds exactly when both model steps exit with status 0 and a discovered video exists and is moved; the result is then the `_swapped.mp4` path |
| Process.SwapStopsAfterPreprocess | docker/process.py:112-114 | a failed preprocessing stops after making the working directory: generation never runs |
| Process.SwapCleansOnSuccess | docker/process.py:156-164 | the model's working directory is removed exactly when the swap succeeds, as its last effect |
| Process.SwappedSegmentPath | docker/process.py:92 | a segment `<dir>/segment_<name>.mp4` becomes `<dir>/segment_<name>_swapped.mp4` when the directory name holds no `.` |
| Process.SwapDirsDistinct | docker/process.py:93 | the two swapped segments get different model working directories |
| Process.SwapDirsShared | docker/process.py:93 | the two working directories are `/tmp/processing/wan_process_segment_swap_1.mp4` and `..._swap_2.mp4` whatever the job's temporary directory, so every job uses the same two |
| Process.ManifestRoundTrip | docker/process.py:176-178 | the model's own line reader gives back exactly the given paths in order, one `file '<path>'` line each, as long as no path holds a line break |
| Process.WriteManifest | docker/process.py:176-178 | the line-by-line writing loop produces the concat list `Manifest(paths)` |
| Process.StitchSegments | docker/process.py:170-201 | `stitch_segments` as run equals its specification: write the list, run the concat, succeed exactly on exit status 0; an unwritable list fails before ffmpeg |
| Process.FinalManifestPath | docker/process.py:174 | the concat list of `final_output.mp4` is `final_output_concat.txt` beside it |
| Process.CutStep | docker/process.py:277-280 | segmentation as stage 3: stops with `Video segmentation failed`, or yields the four segment paths |
| Process.SwapStep | docker/process.py:282-291 | a segment swap as a stage: stops with its own message, or yields the swapped path |
| Process.StitchStep | docker/process.py:293-298 | reassembly as stage 6: stops with `Video stitching failed` exactly when stitching fails |
| Process.OpenPhase | docker/process.py:262-275 | `mkdtemp` and the two downloads; on a failure the job's result and trace equal `Conclude(Walk(stages))` |
| Process.SwapPhase | docker/process.py:277-291 | segmentation and the swaps of segments 0 and 2 only, through to the job's result |
| Process.DeliverPhase | docker/process.py:293-346 | reassembly in the order `[swapped0, seg1, swapped2, seg3]`, then upload, report and cleanup |
| Process.SegmentedJob | docker/process.py:255-346 | `process_video_job` as a function: `Conclude(Walk(...))` over its eight stages; its properties are `SegmentedJobOutcome`, `SegmentedTempDirFails`, `SegmentedAvatarFails`, `ReassemblyOrder` |
| Process.ProcessVideoJob | docker/process.py:255-346 | `process_video_job` as run equals `SegmentedJob`, the conclusion of the walk over its eight stages |
| Process.SegmentedStagesQuiet | docker/process.py:262-303 | none of the eight stages posts a webhook of its own |
| Process.SegmentedJobOutcome | docker/process.py:255-346 | one webhook, to `webhook_url`, iff that URL is truthy; success iff all eight steps succeed, with the public URL of `<prefix><record_id>.mp4`; otherwise the first failing step's message; the temporary directory removed last on every path once it exists |
| Process.SegmentedTempDirFails | docker/process.py:260-264 | when `mkdtemp` raises, nothing else runs: the result carries the exception's text, the failure webhook is sent if any, and there is no cleanup |
| Process.SegmentedAvatarFails | docker/process.py:274-275 | a failed avatar download stops the job with `Failed to download avatar`: no upload; the trace is the directory, both downloads, the failure webhook if any and the cleanup |
| Process.FinalSegmentsInDir | docker/process.py:293-294 | the pieces reassembled are the swapped first segment, the first original, the swapped third segment and the second original, in that order |
| Process.ReassemblyOrder | docker/process.py:293-298 | the concat list written for the job reads back as exactly those four paths in that order |
| ProcessSimple.SelectConfig | docker/process_simple.py:273-285 | a truthy config is used as given; otherwise storage and model path come from the environment, each unset variable taking its default, and the two keys have no default |
| ProcessSimple.EnvDefaults | docker/process_simple.py:278-285 | with nothing set: bucket `faceswap-outputs-kasparas` in `eu-north-1` under `outputs/`, no keys, model `/runpod-volume/models/Wan2.2-Animate-14B` |
| ProcessSimple.ConfigIgnoresEnv | docker/process_simple.py:273-275 | with a config given the environment is irrelevant |
| ProcessSimple.FaceSwapFullVideo | docker/process_simple.py:100-227 | `face_swap_full_video` as run equals its specification `FullSwapSpec`, built from the processing directory `/tmp/wan_process_{job_id}` and the two fixed command lines |
| ProcessSimple.RunFullSteps | docker/process_simple.py:144-219 | the steps once the commands are built: make the directory, preprocess, generate, discover, then check existence and size; equals `FullSteps` |
| ProcessSimple.FullSwapSucceedsIff | docker/process_simple.py:151-219 | the swap succeeds exactly when preprocessing and generation exit with status 0, a model path is set, and the discovered video exists and is not empty; the result is then that video, unmoved: a listed `.mp4` inside the processing directory |
| ProcessSimple.FullSwapStopsAfterPreprocess | docker/process_simple.py:151-155 | a failed preprocessing ends the swap with None: generation never starts |
| ProcessSimple.FullSwapWithoutModel | docker/process_simple.py:131-164 | without a model path, preprocessing still runs on `None/process_checkpoint`, the generation command cannot start, and the swap yields None |
| ProcessSimple.CheckpointArgument | docker/process_simple.py:131 | the checkpoint argument is `{model_path}/process_checkpoint` |
| ProcessSimple.FullSwapLeavesFiles | docker/process_simple.py:122-219 | the swap only makes its directory and runs commands: nothing moved, removed, uploaded or posted |
| ProcessSimple.DirectJob | docker/process_simple.py:234-377 | `process_single_video` as a function: `Conclude(Walk(...))` over its six stages after the configuration is selected; its properties are `DirectJobOutcome`, `DirectRemovesOnlyTemp`, `DirectMissingStorage`, `DirectSwapFails` |
| ProcessSimple.ProcessSingleVideo | docker/process_simple.py:234-377 | `process_single_video` as run equals `DirectJob`, the conclusion of the walk over its six stages |
| ProcessSimple.DirectOpenPhase | docker/process_simple.py:268-300 | `mkdtemp`, the configuration lookup and the two downloads; on a failure the job's result and trace equal `Conclude(Walk(stages))` |
| ProcessSimple.DirectSwapPhase | docker/process_simple.py:304-377 | the full swap and the upload, then report and cleanup |
| ProcessSimple.DirectStagesTidy | docker/process_simple.py:268-323 | none of the six stages posts a webhook or removes a directory of its own |
| ProcessSimple.DirectJobOutcome | docker/process_simple.py:259-377 | one webhook, to `webhook_url`, iff that URL is truthy; success iff all six steps succeed, with the public URL; otherwise the first failing step's message; the temporary directory removed last once it exists |
| ProcessSimple.DirectRemovesOnlyTemp | docker/process_simple.py:339-372 | the only directory the job removes is its temporary directory; `/tmp/wan_process_{job_id}` is left behind |
| ProcessSimple.DirectMissingStorage | docker/process_simple.py:273-287 | a truthy config without `storage` fails right after `mkdtemp` with `'s3_bucket'`: nothing downloaded, failure webhook if any, cleanup |
| ProcessSimple.DirectSwapFails | docker/process_simple.py:306-323 | a failed swap reports `Face-swap processing failed` and no upload is attempted |
| ProcessSimple.StopsBeforeUpload | docker/process_simple.py:313-323 | a job whose stage `k` fails, with no upload at or before `k`, fails with that stage's error and uploads nothing |
| Handler.WorkerConfigIsFallback | docker/handler.py:35-43 | the worker's fixed configuration selects exactly what the pipeline would read from the environment itself |
| Handler.DefaultSegmentsContiguous | docker/handler.py:25-34 | the default ranges 0-5, 5-15, 15-20, 20-30 start at 0, end at 30, are contiguous, and each has end > start |
| Handler.VideoUrlOf | docker/handler.py:75 | truthy exactly when either spelling is truthy; `source_video_url` when that is truthy, otherwise whatever `video_url` holds |
| Handler.AvatarUrlOf | docker/handler.py:76 | truthy exactly when either spelling is truthy; `avatar_image_url` when that is truthy, otherwise whatever `avatar_url` holds |
| Handler.WebhookOf | docker/handler.py:77 | the event's `webhook_url` when truthy, otherwise the configured completion URL, which is None; so truthy exactly when the event's `webhook_url` is |
| Handler.Validate | docker/handler.py:80-85 | no error exactly when all three values are truthy; otherwise the first of `Missing record_id`, `Missing video URL`, `Missing avatar URL` that applies |
| Handler.ReplyOf | docker/handler.py:100-113 | `success` with the output URL and record id exactly for a successful result, otherwise `failed` with its error and the record id |
| Handler.Handle | docker/handler.py:47-123 | `handler(event)`: the reply and every effect of the job; its properties are `NoInputMeansMissingRecord`, `NonObjectInput`, `RejectsIncomplete`, `CompleteRequest` |
| Handler.NoInputMeansMissingRecord | docker/handler.py:71-81 | an event without `input` is rejected with `Missing record_id` and nothing runs |
| Handler.NonObjectInput | docker/handler.py:115-123 | a scalar `input` makes `.get` raise; the reply is `failed` with `Handler error: ...` and nothing runs |
| Handler.RejectsIncomplete | docker/handler.py:74-85 | a request is rejected exactly when one of the three values is missing or falsy, naming the first such value, and then nothing runs |
| Handler.CompleteRequest | docker/handler.py:92-113 | a complete request runs the pipeline once: `success` iff every step succeeds, with the public URL of `<prefix><record_id>.mp4`; otherwise the first failing step's error; the record id always; one webhook iff the event's `webhook_url` is truthy, posted to that URL |
| App.Absent | docker/app.py:80 | the list comprehension of absent fields, never longer than the list it filters; membership and order are `AbsentMembers` and `AbsentInOrder` |
| App.AbsentMembers | docker/app.py:80 | exactly the listed fields the body lacks are reported |
| App.AbsentInOrder | docker/app.py:80 | the reported fields keep their listed order |
| App.MissingFields | docker/app.py:79-80 | each required field is reported exactly when its key is absent, whatever the values of the present ones |
| App.MissingInOrder | docker/app.py:79-80 | missing fields are reported in the order record_id, video_url, avatar_url |
| App.Admit | docker/app.py:62-86 | the request is admitted exactly when the configuration is loaded, the body is a non-empty object and the three keys are present; a missing configuration gives 500 `Configuration not loaded` before the body is read; a malformed body gives 500 `Unexpected error: <text>`; no body or `{}` gives 400 `No JSON data provided`; missing keys give 400 `Missing required fields: ` followed by the missing names joined with `, ` |
| App.WebhookOf | docker/app.py:94 | the request's `webhook_url` when truthy, otherwise the configured `completion_url`; truthy exactly when one of them is |
| App.ProcessRoute | docker/app.py:50-123 | `process()`: the response and every effect of the job; its properties are `StatusCodes`, `RouteRejects`, `MissingBothUrls`, `EmptyValuesAccepted`, `RouteRunsJob` |
| App.StatusCodes | docker/app.py:62-123 | the route answers 500 exactly for a missing configuration or an unparseable body, 200 exactly when the pipeline ran (success or failure), 400 otherwise; nothing runs unless the code is 200 |
| App.AbsentOfThree | docker/app.py:80 | among three fields the absent ones are listed in their order |
| App.RouteRejects | docker/app.py:62-86 | a rejected request is answered with the rejection and runs nothing |
| App.OnlyRecordId | docker/app.py:79-86 | a body holding only `record_id` is rejected with `Missing required fields: video_url, avatar_url` |
| App.MissingBothUrls | docker/app.py:79-86 | through the route that request is a 400 naming both URLs, and nothing runs |
| App.EmptyValuesAccepted | docker/app.py:79-86 | presence, not truthiness, is checked: empty strings for all three fields start the pipeline |
| App.RouteRunsJob | docker/app.py:94-113 | an admitted request answers 200 with the pipeline's result as it stands: success iff every step succeeded, with the public URL of `<prefix><record_id>.mp4`, otherwise the first failing step's error; one webhook iff the request's `webhook_url` or the configured completion URL is truthy, posted to the request's URL when truthy and else to the configured one |

## Left out

- Network, filesystem and subprocess behaviour are oracles, not modelled:
  - HTTP downloads and the webhook POST;
  - boto3 and S3;
  - ffmpeg and the Wan2.2 programs;
  - `mkdtemp` uniqueness, `os.listdir`, `getsize`, `shutil.move` and `rmtree`.
- Timeouts are just another failed subprocess outcome (`Crashed`).
- The webhook POST and the cleanup are recorded as effects whose own success is never consulted. This matches the source, which swallows both failures.
- The `faceswap_` prefix `mkdtemp` puts on the directory name is not modelled: the oracle supplies the directory.
- `os.makedirs` failing inside the face-swap functions is not modelled. It would only be one more path to None, like a failed preprocessing.
- Partial `storage` or `processing` dictionaries are not modelled. A truthy direct-variant configuration either has a whole `storage` section or none; the segmented variant's `storage` and `processing.segments` are always whole.
- JSON values are null, strings, integers and booleans. Floats, lists and nested objects in request fields are not modelled.
- The `/process` route's body is no body, an object or a parse error. A JSON array or scalar body is not modelled.
- The handler's `input` is an object or a scalar.
- Process.SegmentsConfig holds whole seconds. A YAML configuration with fractional bounds such as `start: 2.5` reaches ffmpeg as `-ss 2.5` and a fractional `-t`; `Process.CutArgv` renders integers only.
- Process.ManifestRoundTrip is stated for the model's own line reader. The ffmpeg concat demuxer also gives `'` and `\` special meaning, and the source writes paths unescaped, so a path holding a quote would not read back under ffmpeg. The paths the job writes are `mkdtemp` directories with fixed file names.
- `Text.Lower` lower-cases ASCII letters only, not full Unicode case mapping.
- `Text.PathJoin` and `Text.Parent` assume paths without redundant separators.
- `Process.CutAll` is proved over any plan and exit list. `segment_video` always passes the four-cut plan.
- `Process.SegmentedJob` and `App.ProcessRoute` require exactly four ffmpeg outcomes in the oracle, one per planned cut. This is a shape of the oracle, not a demand the source makes of its callers.
- `load_config`'s YAML parsing, the `/health` and `/status` routes, `runpod.serverless.start`, logging and tracebacks are not modelled.
- docker/utils.py (OpenCV face detection, video probing and float arithmetic) is not part of this model.
- docker/handler_pod.py (FastAPI background scheduling around a constant response) is not part of this model.
- The traceback member of the handler's and the route's error replies is not modelled.

### Where the model follows the code rather than the documented design

- No error message carries subprocess stderr. Both face-swap functions catch their own exceptions and return None, so the pipeline reports its fixed texts (`Face-swap failed on segment 1`, `Face-swap processing failed`).
- There is no `end > start` check. A configured range with `end <= start` is passed to ffmpeg with a non-positive duration.
- The segmented variant has no zero-byte check on the discovered video. The direct variant has one.
- The segmented variant's model working directories are named after the segment file alone (`Process.SwapDirsShared`), so all jobs share the same two. One left behind by a failed swap can hand its stale `*_output*.mp4` to a later job's search, and concurrent jobs write into the same directory.
- The direct variant neither moves the discovered video nor removes `/tmp/wan_process_{job_id}`. The segmented variant removes its `/tmp/processing/wan_process_<segment>` directory only after a successful swap; after a failed one it stays.
- When `mkdtemp` itself raises, there is no temporary directory to remove.
- One webhook is posted only when a webhook URL is truthy, never otherwise.
- The direct variant reads `processing.model_path` with `config.get('processing', {})`, so a missing `processing` section yields a None model path. Preprocessing then runs on `None/process_checkpoint`, and generation never starts: joining its command for the log line raises `TypeError`.
