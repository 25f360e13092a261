/** The direct pipeline (`process_single_video`): download the input video and the avatar, face-swap
    the whole video with Wan2.2-Animate in one pass, upload the result and report it by webhook. */
module ProcessSimple {
  import opened Text
  import opened Common
  import opened Transfer
  import opened Stages
  import opened Discovery
  import Process

  // ---------------------------------------------------------------- configuration

  /** A truthy `config` dict as this variant reads it: its `storage` section (None when the dict has
      none) and `processing.model_path` (None when either key is missing). */
  datatype DirectConfig = DirectConfig(storage: Option<StorageConfig>, modelPath: Option<string>)

  /** The environment variables the fallback reads; None for an unset variable. */
  datatype Env = Env(accessKey: Option<string>, secretKey: Option<string>, region: Option<string>,
                     bucket: Option<string>, prefix: Option<string>, modelPath: Option<string>)

  const DefaultRegion: string := "eu-north-1"
  const DefaultBucket: string := "faceswap-outputs-kasparas"
  const DefaultPrefix: string := "outputs/"
  const DefaultModelPath: string := "/runpod-volume/models/Wan2.2-Animate-14B"

  /** `os.environ.get(name, default)`. */
  function EnvOr(v: Option<string>, default: string): string {
    if v.Some? then v.value else default
  }

  /** `os.environ.get(name)`: the variable's text, or None. */
  function EnvValue(v: Option<string>): Value {
    if v.Some? then Str(v.value) else Null
  }

  /** The storage settings the environment describes, with the defaults for region, bucket and
      prefix; the two keys have no default. */
  function EnvStorage(env: Env): StorageConfig {
    StorageConfig(EnvValue(env.accessKey), EnvValue(env.secretKey), EnvOr(env.region, DefaultRegion),
                  EnvOr(env.bucket, DefaultBucket), EnvOr(env.prefix, DefaultPrefix))
  }

  /** Configuration selection. `config` is None when the dict is missing or empty (falsy); a truthy
      one supplies storage and model path and the environment is not read; otherwise both come from
      the environment, where each unset variable takes its default and a set one its own text. */
  function SelectConfig(config: Option<DirectConfig>, env: Env): (sel: DirectConfig)
    ensures config.Some? ==> sel == config.value
    ensures config.None? ==> sel.storage.Some? && sel.modelPath.Some?
    ensures config.None? ==>
      && sel.storage.value.accessKey == (if env.accessKey.Some? then Str(env.accessKey.value) else Null)
      && sel.storage.value.secretKey == (if env.secretKey.Some? then Str(env.secretKey.value) else Null)
      && (env.region.Some? ==> sel.storage.value.region == env.region.value)
      && (env.region.None? ==> sel.storage.value.region == DefaultRegion)
      && (env.bucket.Some? ==> sel.storage.value.bucket == env.bucket.value)
      && (env.bucket.None? ==> sel.storage.value.bucket == DefaultBucket)
      && (env.prefix.Some? ==> sel.storage.value.prefix == env.prefix.value)
      && (env.prefix.None? ==> sel.storage.value.prefix == DefaultPrefix)
      && (env.modelPath.Some? ==> sel.modelPath.value == env.modelPath.value)
      && (env.modelPath.None? ==> sel.modelPath.value == DefaultModelPath)
  {
    if config.Some? then config.value
    else DirectConfig(Some(EnvStorage(env)), Some(EnvOr(env.modelPath, DefaultModelPath)))
  }

  /** With no variable set, the fallback is the default bucket in `eu-north-1` under `outputs/`,
      with no keys, and the model under `/runpod-volume/models`. */
  lemma EnvDefaults(env: Env)
    requires env == Env(None, None, None, None, None, None)
    ensures SelectConfig(None, env) ==
      DirectConfig(Some(StorageConfig(Null, Null, DefaultRegion, DefaultBucket, DefaultPrefix)), Some(DefaultModelPath))
  { }

  /** A truthy `config` makes the environment irrelevant. */
  lemma ConfigIgnoresEnv(c: DirectConfig, env1: Env, env2: Env)
    ensures SelectConfig(Some(c), env1) == SelectConfig(Some(c), env2)
  { }

  // ---------------------------------------------------------------- face swap of the whole video

  const ProcessDirPrefix: string := "/tmp/wan_process_"

  /** Generation options after the source directory; here the flag is spelled `--refer_num`. */
  const FullGenerateOptions: seq<string> := ["--refer_num", "1", "--replace_flag", "--use_relighting_lora"]

  /** `f"/tmp/wan_process_{job_id}"`. */
  function ProcessDir(jobId: Value): string {
    ProcessDirPrefix + PyStr(jobId)
  }

  /** `f'{model_path}/process_checkpoint'`; a None model path renders as `None`. */
  function CheckpointPath(modelPath: Option<string>): string {
    (if modelPath.Some? then modelPath.value else "None") + "/process_checkpoint"
  }

  /** The preprocessing command: checkpoint, input video, avatar and save directory, then the same
      options as the segmented variant. */
  function FullPreprocessArgv(videoPath: string, avatarPath: string, jobId: Value, modelPath: Option<string>)
    : seq<string>
  {
    ["python3", Process.PreprocessScript, "--ckpt_path", CheckpointPath(modelPath), "--video_path", videoPath,
     "--refer_path", avatarPath, "--save_path", ProcessDir(jobId)] + Process.PreprocessOptions
  }

  /** The generation command, reading the model from `model_path` and the preprocessed directory. */
  function FullGenerateArgv(jobId: Value, modelPath: string): seq<string> {
    ["python3", Process.GenerateScript, "--task", "animate-14B", "--ckpt_dir", modelPath,
     "--src_root_path", ProcessDir(jobId)] + FullGenerateOptions
  }

  /** `face_swap_full_video`: create the processing directory, preprocess, generate, discover the
      output and check that it exists and is not empty. Every failure is caught and yields None,
      including a timeout and the `TypeError` a None model path raises when the generation command
      is joined for logging. The result is the discovered path itself: nothing is moved and the processing
      directory is never removed. */
  function FullSwapSpec(videoPath: string, avatarPath: string, jobId: Value, modelPath: Option<string>,
                        m: ModelRun): (Option<string>, seq<Effect>)
  {
    var dir := ProcessDir(jobId);
    FullSteps(dir, FullPreprocessArgv(videoPath, avatarPath, jobId, modelPath),
              if modelPath.Some? then Some(FullGenerateArgv(jobId, modelPath.value)) else None, m,
              DirectPick(dir, m.listing, videoPath))
  }

  /** The steps of one full swap once its directory, its commands and the discovered video are
      known; `generate` is None when the command cannot be started. */
  function FullSteps(dir: string, preprocess: seq<string>, generate: Option<seq<string>>, m: ModelRun,
                     found: Option<string>): (Option<string>, seq<Effect>)
  {
    var prepared := [MakeDirs(dir), Run(preprocess)];
    if !ExitedZero(m.preprocess) || generate.None? then (None, prepared)
    else
      var generated := prepared + [Run(generate.value)];
      if ExitedZero(m.generate) && found.Some? && found.value in m.files && m.files[found.value] > 0 then
        (Some(found.value), generated)
      else (None, generated)
  }

  /** `face_swap_full_video` as the source runs it; `m` is what the model run yields. */
  method FaceSwapFullVideo(videoPath: string, avatarPath: string, jobId: Value, modelPath: Option<string>,
                           m: ModelRun)
    returns (output: Option<string>, effects: seq<Effect>)
    ensures (output, effects) == FullSwapSpec(videoPath, avatarPath, jobId, modelPath, m)
  {
    var generate := if modelPath.Some? then Some(FullGenerateArgv(jobId, modelPath.value)) else None;
    output, effects := RunFullSteps(ProcessDir(jobId), FullPreprocessArgv(videoPath, avatarPath, jobId, modelPath),
                                    generate, m, videoPath);
  }

  /** The body of the swap once its directory and commands are built: run them in order, stopping at
      the first that fails, then search the directory for the output video. */
  method RunFullSteps(dir: string, preprocess: seq<string>, generate: Option<seq<string>>, m: ModelRun,
                      videoPath: string)
    returns (output: Option<string>, effects: seq<Effect>)
    ensures (output, effects) == FullSteps(dir, preprocess, generate, m, DirectPick(dir, m.listing, videoPath))
  {
    effects := [MakeDirs(dir), Run(preprocess)];
    if !ExitedZero(m.preprocess) {
      return None, effects;
    }
    if generate.None? {
      // the generation command holds None, so joining it for the log line raises TypeError
      return None, effects;
    }
    effects := effects + [Run(generate.value)];
    if !ExitedZero(m.generate) {
      return None, effects;
    }
    var found := ScanForOutput(dir, m.listing);
    if found.None? {
      found := ScanForOther(dir, m.listing, videoPath);
    }
    if found.None? || found.value !in m.files {
      return None, effects;
    }
    if m.files[found.value] == 0 {
      return None, effects;
    }
    return found, effects;
  }

  /** A full swap succeeds exactly when preprocessing exits with status 0, a model path is set,
      generation exits with status 0, and discovery finds a video that exists and is not empty; the
      result is then that video, a `.mp4` listed in the processing directory, returned where it is. */
  lemma FullSwapSucceedsIff(videoPath: string, avatarPath: string, jobId: Value, modelPath: Option<string>,
                            m: ModelRun)
    ensures var r := FullSwapSpec(videoPath, avatarPath, jobId, modelPath, m).0;
      var found := DirectPick(ProcessDir(jobId), m.listing, videoPath);
      && (r.Some? <==> ExitedZero(m.preprocess) && modelPath.Some? && ExitedZero(m.generate) && found.Some?
                       && found.value in m.files && m.files[found.value] > 0)
      && (r.Some? ==> r == found && m.files[r.value] > 0)
      && (r.Some? ==> exists i :: 0 <= i < |m.listing| && EndsWith(m.listing[i], ".mp4")
                                 && r.value == OsJoin(ProcessDir(jobId), m.listing[i]))
  {
    var dir := ProcessDir(jobId);
    var found := DirectPick(dir, m.listing, videoPath);
    if found.Some? {
      var first := FirstOutputVideo(m.listing);
      if first.Some? {
        assert found.value == OsJoin(dir, m.listing[first.value]);
        assert IsOutputVideo(m.listing[first.value]);
      } else {
        var other := FirstOtherVideo(dir, m.listing, videoPath);
        assert found.value == OsJoin(dir, m.listing[other.value]);
        assert IsOtherVideo(dir, m.listing[other.value], videoPath);
      }
    }
  }

  /** A failed preprocessing ends the swap after creating the processing directory: generation never
      starts. */
  lemma FullSwapStopsAfterPreprocess(videoPath: string, avatarPath: string, jobId: Value,
                                     modelPath: Option<string>, m: ModelRun)
    requires !ExitedZero(m.preprocess)
    ensures FullSwapSpec(videoPath, avatarPath, jobId, modelPath, m) ==
      (None, [MakeDirs(ProcessDir(jobId)), Run(FullPreprocessArgv(videoPath, avatarPath, jobId, modelPath))])
  { }

  /** Without a model path, preprocessing still runs (on `None/process_checkpoint`) but generation
      never starts and the swap fails. */
  lemma FullSwapWithoutModel(videoPath: string, avatarPath: string, jobId: Value, m: ModelRun)
    ensures FullSwapSpec(videoPath, avatarPath, jobId, None, m) ==
      (None, [MakeDirs(ProcessDir(jobId)), Run(FullPreprocessArgv(videoPath, avatarPath, jobId, None))])
    ensures FullPreprocessArgv(videoPath, avatarPath, jobId, None)[3] == "None/process_checkpoint"
  {
    var dir := ProcessDir(jobId);
    FullStepsWithoutGenerate(dir, FullPreprocessArgv(videoPath, avatarPath, jobId, None), m,
                             DirectPick(dir, m.listing, videoPath));
    CheckpointArgument(videoPath, avatarPath, jobId, None);
    CheckpointWithoutModel();
  }

  lemma FullStepsWithoutGenerate(dir: string, preprocess: seq<string>, m: ModelRun, found: Option<string>)
    ensures FullSteps(dir, preprocess, None, m, found) == (None, [MakeDirs(dir), Run(preprocess)])
  { }

  /** The checkpoint argument of the preprocessing command. */
  lemma CheckpointArgument(videoPath: string, avatarPath: string, jobId: Value, modelPath: Option<string>)
    ensures FullPreprocessArgv(videoPath, avatarPath, jobId, modelPath)[3] == CheckpointPath(modelPath)
  { }

  lemma CheckpointWithoutModel()
    ensures CheckpointPath(None) == "None/process_checkpoint"
  { }

  /** A full swap only creates its processing directory and runs commands: it moves nothing,
      removes nothing, uploads nothing and posts no webhook. */
  lemma FullSwapLeavesFiles(videoPath: string, avatarPath: string, jobId: Value, modelPath: Option<string>,
                            m: ModelRun)
    ensures var effects := FullSwapSpec(videoPath, avatarPath, jobId, modelPath, m).1;
      Keeps(effects) && Quiet(effects) && forall e :: e in effects ==> e.MakeDirs? || e.Run?
  {
    var dir := ProcessDir(jobId);
    FullStepsLeavesFiles(dir, FullPreprocessArgv(videoPath, avatarPath, jobId, modelPath),
                         if modelPath.Some? then Some(FullGenerateArgv(jobId, modelPath.value)) else None, m,
                         DirectPick(dir, m.listing, videoPath));
  }

  lemma FullStepsLeavesFiles(dir: string, preprocess: seq<string>, generate: Option<seq<string>>, m: ModelRun,
                             found: Option<string>)
    ensures var effects := FullSteps(dir, preprocess, generate, m, found).1;
      Keeps(effects) && Quiet(effects) && forall e :: e in effects ==> e.MakeDirs? || e.Run?
  { }

  // ---------------------------------------------------------------- the job

  /** What the outside world does during one job: whether `mkdtemp` returns a directory or raises,
      whether each download succeeds, the model run, and the storage service's answer. */
  datatype DirectOracle = DirectOracle(tempDir: Attempt<string>, videoFetched: bool, avatarFetched: bool,
                                       model: ModelRun, upload: UploadOutcome)

  /** The failure status of this variant's webhook: the UTF-8 bytes of U+1F6A9 read as Windows-1252
      (`ðŸš©`), followed by ` Failed`. */
  const DirectFailedStatus: string := "\U{F0}\U{178}\U{161}\U{A9} Failed"

  const AvatarName: string := "avatar.png"

  /** The exception texts of this variant's own steps. Reading `s3_config['s3_bucket']` from a config
      without storage raises `KeyError`, whose text is the quoted key. */
  const SwapFailed: string := "Face-swap processing failed"
  const MissingBucket: string := "'s3_bucket'"
  const MissingAccessKey: string := "'s3_access_key'"

  /** The configuration lookup right after `mkdtemp`: logging the bucket fails without storage. */
  function ConfigStage(storage: Option<StorageConfig>): Stage {
    Stage(storage.Some?, [], MissingBucket)
  }

  function FullSwapStage(videoPath: string, avatarPath: string, jobId: Value, modelPath: Option<string>,
                         m: ModelRun): Stage
  {
    var swap := FullSwapSpec(videoPath, avatarPath, jobId, modelPath, m);
    Stage(swap.0.Some?, swap.1, SwapFailed)
  }

  /** The path the swap returned; only read once the swap succeeded. */
  function SwappedOutput(videoPath: string, avatarPath: string, jobId: Value, modelPath: Option<string>,
                         m: ModelRun): string
  {
    var swap := FullSwapSpec(videoPath, avatarPath, jobId, modelPath, m).0;
    if swap.Some? then swap.value else ""
  }

  /** The upload with the selected storage; without storage `upload_to_s3` raises `KeyError`
      (never reached, since the configuration lookup fails first). */
  function DirectUploadStage(outputPath: string, jobId: Value, storage: Option<StorageConfig>,
                             outcome: UploadOutcome): Stage
  {
    if storage.Some? then UploadStage(outputPath, jobId, storage.value, outcome)
    else Stage(false, [], MissingAccessKey)
  }

  function DirectOpening(videoUrl: Value, avatarUrl: Value, storage: Option<StorageConfig>, o: DirectOracle)
    : (stages: seq<Stage>)
    ensures |stages| == 4
  {
    [TempStage(o.tempDir),
     ConfigStage(storage),
     DownloadStage(videoUrl, OsJoin(WorkDir(o.tempDir), InputVideoName), o.videoFetched, VideoDownloadFailed),
     DownloadStage(avatarUrl, OsJoin(WorkDir(o.tempDir), AvatarName), o.avatarFetched, AvatarDownloadFailed)]
  }

  function DirectLater(jobId: Value, videoPath: string, avatarPath: string, sel: DirectConfig, o: DirectOracle)
    : (stages: seq<Stage>)
    ensures |stages| == 2
  {
    [FullSwapStage(videoPath, avatarPath, jobId, sel.modelPath, o.model),
     DirectUploadStage(SwappedOutput(videoPath, avatarPath, jobId, sel.modelPath, o.model), jobId, sel.storage,
                       o.upload)]
  }

  /** The six steps of `process_single_video`'s `try` block with the exception text each raises. */
  function DirectStages(jobId: Value, videoUrl: Value, avatarUrl: Value, sel: DirectConfig, o: DirectOracle)
    : (stages: seq<Stage>)
    ensures |stages| == 6
  {
    DirectOpening(videoUrl, avatarUrl, sel.storage, o)
      + DirectLater(jobId, OsJoin(WorkDir(o.tempDir), InputVideoName), OsJoin(WorkDir(o.tempDir), AvatarName), sel, o)
  }

  /** The URL a successful job reports. */
  function DirectUrl(storage: Option<StorageConfig>, jobId: Value): string {
    if storage.Some? then JobUrl(storage.value, jobId) else ""
  }

  /** `process_single_video`: the result it returns and every effect it has, in order. */
  function DirectJob(jobId: Value, videoUrl: Value, avatarUrl: Value, config: Option<DirectConfig>, env: Env,
                     webhookUrl: Value, o: DirectOracle): (JobResult, seq<Effect>)
  {
    var sel := SelectConfig(config, env);
    Conclude(DirectFailedStatus, jobId, webhookUrl, TempDirOf(o.tempDir),
             Walk(DirectStages(jobId, videoUrl, avatarUrl, sel, o)), DirectUrl(sel.storage, jobId))
  }

  /** What the first four steps of `process_single_video` amount to. */
  ghost predicate DirectOpened(stages: seq<Stage>, videoUrl: Value, avatarUrl: Value,
                               storage: Option<StorageConfig>, o: DirectOracle) {
    |stages| == 6 &&
    stages[0] == TempStage(o.tempDir) &&
    stages[1] == ConfigStage(storage) &&
    stages[2] == DownloadStage(videoUrl, OsJoin(WorkDir(o.tempDir), InputVideoName), o.videoFetched, VideoDownloadFailed) &&
    stages[3] == DownloadStage(avatarUrl, OsJoin(WorkDir(o.tempDir), AvatarName), o.avatarFetched, AvatarDownloadFailed)
  }

  /** What the last two steps of `process_single_video` amount to, over its two input paths. */
  ghost predicate DirectRemaining(stages: seq<Stage>, jobId: Value, videoPath: string, avatarPath: string,
                                  sel: DirectConfig, o: DirectOracle) {
    |stages| == 6 &&
    stages[4] == FullSwapStage(videoPath, avatarPath, jobId, sel.modelPath, o.model) &&
    stages[5] == DirectUploadStage(SwappedOutput(videoPath, avatarPath, jobId, sel.modelPath, o.model), jobId,
                                   sel.storage, o.upload)
  }

  lemma DirectOpeningBefore(videoUrl: Value, avatarUrl: Value, storage: Option<StorageConfig>, o: DirectOracle,
                            rest: seq<Stage>)
    requires |rest| == 2
    ensures DirectOpened(DirectOpening(videoUrl, avatarUrl, storage, o) + rest, videoUrl, avatarUrl, storage, o)
  { }

  lemma DirectLaterAfter(first: seq<Stage>, jobId: Value, videoPath: string, avatarPath: string,
                         sel: DirectConfig, o: DirectOracle)
    requires |first| == 4
    ensures DirectRemaining(first + DirectLater(jobId, videoPath, avatarPath, sel, o), jobId, videoPath,
                            avatarPath, sel, o)
  { }

  /** `process_single_video` as the source runs it: the six steps of its `try` block, each run only
      while all before it succeeded, then the report and the cleanup. */
  method ProcessSingleVideo(jobId: Value, videoUrl: Value, avatarUrl: Value, config: Option<DirectConfig>,
                            env: Env, webhookUrl: Value, o: DirectOracle)
    returns (result: JobResult, trace: seq<Effect>)
    ensures (result, trace) == DirectJob(jobId, videoUrl, avatarUrl, config, env, webhookUrl, o)
  {
    ghost var sel := SelectConfig(config, env);
    ghost var stages := DirectStages(jobId, videoUrl, avatarUrl, sel, o);
    DirectOpeningBefore(videoUrl, avatarUrl, sel.storage, o,
                        DirectLater(jobId, OsJoin(WorkDir(o.tempDir), InputVideoName),
                                    OsJoin(WorkDir(o.tempDir), AvatarName), sel, o));
    DirectLaterAfter(DirectOpening(videoUrl, avatarUrl, sel.storage, o), jobId,
                     OsJoin(WorkDir(o.tempDir), InputVideoName), OsJoin(WorkDir(o.tempDir), AvatarName), sel, o);
    var stopped, work, tempDir, storage, modelPath;
    stopped, result, trace, work, tempDir, storage, modelPath :=
      DirectOpenPhase(stages, jobId, videoUrl, avatarUrl, config, env, DirectUrl(sel.storage, jobId), webhookUrl, o);
    if stopped {
      return;
    }
    result, trace := DirectSwapPhase(stages, work, jobId, storage, modelPath, webhookUrl, tempDir,
                                     OsJoin(tempDir, InputVideoName), OsJoin(tempDir, AvatarName), o, sel);
  }

  /** Steps 0 to 3 of `process_single_video`: the temporary directory, the configuration and the two
      downloads; when one fails, the report and the cleanup as well. */
  method DirectOpenPhase(ghost stages: seq<Stage>, jobId: Value, videoUrl: Value, avatarUrl: Value,
                         config: Option<DirectConfig>, env: Env, ghost url: string, webhookUrl: Value,
                         o: DirectOracle)
    returns (stopped: bool, result: JobResult, trace: seq<Effect>, work: seq<Effect>, tempDir: string,
             storage: StorageConfig, modelPath: Option<string>)
    requires DirectOpened(stages, videoUrl, avatarUrl, SelectConfig(config, env).storage, o)
    ensures stopped ==> (result, trace) == Conclude(DirectFailedStatus, jobId, webhookUrl, TempDirOf(o.tempDir),
                                                    Walk(stages), url)
    ensures !stopped ==> && Reached(stages, 4, work) && TempDirOf(o.tempDir) == Some(tempDir)
                         && tempDir == WorkDir(o.tempDir)
                         && SelectConfig(config, env).storage == Some(storage)
                         && SelectConfig(config, env).modelPath == modelPath
  {
    var error;
    tempDir := "";
    storage := StorageConfig(Null, Null, "", "", "");
    modelPath := None;
    stopped, error, work := Record(stages, 0, [], o.tempDir.Returned?,
                                   if o.tempDir.Returned? then [MakeTempDir(o.tempDir.value)] else [],
                                   if o.tempDir.Raised? then o.tempDir.message else "");
    if stopped {
      result, trace := Settle(stages, 0, true, error, DirectFailedStatus, jobId, webhookUrl, None, work, "", url);
      return;
    }
    tempDir := WorkDir(o.tempDir);
    var sel := SelectConfig(config, env);
    stopped, error, work := Record(stages, 1, work, sel.storage.Some?, [], MissingBucket);
    if stopped {
      result, trace := Settle(stages, 1, true, error, DirectFailedStatus, jobId, webhookUrl, Some(tempDir), work, "", url);
      return;
    }
    storage, modelPath := sel.storage.value, sel.modelPath;
    var videoPath := OsJoin(tempDir, InputVideoName);
    var avatarPath := OsJoin(tempDir, AvatarName);
    stopped, error, work := Record(stages, 2, work, o.videoFetched, [Download(videoUrl, videoPath)], VideoDownloadFailed);
    if stopped {
      result, trace := Settle(stages, 2, true, error, DirectFailedStatus, jobId, webhookUrl, Some(tempDir), work, "", url);
      return;
    }
    stopped, error, work := Record(stages, 3, work, o.avatarFetched, [Download(avatarUrl, avatarPath)], AvatarDownloadFailed);
    if stopped {
      result, trace := Settle(stages, 3, true, error, DirectFailedStatus, jobId, webhookUrl, Some(tempDir), work, "", url);
      return;
    }
    result, trace := Failed(""), [];
  }

  /** Steps 4 and 5 of `process_single_video`: the full swap and the upload, then the report and the
      cleanup. */
  method DirectSwapPhase(ghost stages: seq<Stage>, work: seq<Effect>, jobId: Value, storage: StorageConfig,
                         modelPath: Option<string>, webhookUrl: Value, tempDir: string, videoPath: string,
                         avatarPath: string, o: DirectOracle, ghost sel: DirectConfig)
    returns (result: JobResult, trace: seq<Effect>)
    requires Reached(stages, 4, work) && DirectRemaining(stages, jobId, videoPath, avatarPath, sel, o)
    requires sel.storage == Some(storage) && sel.modelPath == modelPath
    ensures (result, trace) == Conclude(DirectFailedStatus, jobId, webhookUrl, Some(tempDir), Walk(stages),
                                        JobUrl(storage, jobId))
  {
    ghost var url := JobUrl(storage, jobId);
    var output, effects := FaceSwapFullVideo(videoPath, avatarPath, jobId, modelPath, o.model);
    var stopped, error, done := Record(stages, 4, work, output.Some?, effects, SwapFailed);
    if stopped {
      result, trace := Settle(stages, 4, true, error, DirectFailedStatus, jobId, webhookUrl, Some(tempDir), done, "", url);
      return;
    }
    var outputUrl;
    stopped, error, done, outputUrl := UploadStep(stages, 5, done, output.value, jobId, storage, o.upload);
    result, trace := Settle(stages, 5, stopped, error, DirectFailedStatus, jobId, webhookUrl, Some(tempDir), done,
                            outputUrl, url);
  }

  // ---------------------------------------------------------------- properties of the job

  /** None of the six steps posts a webhook or removes a directory of its own. */
  lemma DirectStagesTidy(jobId: Value, videoUrl: Value, avatarUrl: Value, sel: DirectConfig, o: DirectOracle)
    ensures var stages := DirectStages(jobId, videoUrl, avatarUrl, sel, o);
      forall j :: 0 <= j < |stages| ==> Quiet(stages[j].effects) && Keeps(stages[j].effects)
  {
    var videoPath := OsJoin(WorkDir(o.tempDir), InputVideoName);
    var avatarPath := OsJoin(WorkDir(o.tempDir), AvatarName);
    var first := DirectOpening(videoUrl, avatarUrl, sel.storage, o);
    var later := DirectLater(jobId, videoPath, avatarPath, sel, o);
    var stages := first + later;
    DirectLaterAfter(first, jobId, videoPath, avatarPath, sel, o);
    FullSwapLeavesFiles(videoPath, avatarPath, jobId, sel.modelPath, o.model);
    forall j | 0 <= j < |stages| ensures Quiet(stages[j].effects) && Keeps(stages[j].effects) {
      if j < 4 {
        assert stages[j] == first[j];
      }
    }
  }

  /** `process_single_video` posts exactly one webhook when `webhook_url` is truthy and none
      otherwise; it succeeds exactly when all six steps succeed, and then reports the uploaded
      object's public URL; otherwise its error is the exception text of the first step that failed;
      and once the temporary directory exists, removing it is the last thing the job does. */
  lemma DirectJobOutcome(jobId: Value, videoUrl: Value, avatarUrl: Value, config: Option<DirectConfig>, env: Env,
                         webhookUrl: Value, o: DirectOracle)
    ensures var sel := SelectConfig(config, env);
      Settled(DirectJob(jobId, videoUrl, avatarUrl, config, env, webhookUrl, o),
              DirectStages(jobId, videoUrl, avatarUrl, sel, o), webhookUrl, TempDirOf(o.tempDir),
              DirectUrl(sel.storage, jobId))
  {
    var sel := SelectConfig(config, env);
    DirectStagesTidy(jobId, videoUrl, avatarUrl, sel, o);
    JobSettles(DirectFailedStatus, jobId, webhookUrl, TempDirOf(o.tempDir),
               DirectStages(jobId, videoUrl, avatarUrl, sel, o), DirectUrl(sel.storage, jobId));
  }

  /** The only directory the job removes is its temporary directory: the processing directory under
      `/tmp/wan_process_` is left behind on every path. */
  lemma DirectRemovesOnlyTemp(jobId: Value, videoUrl: Value, avatarUrl: Value, config: Option<DirectConfig>,
                              env: Env, webhookUrl: Value, o: DirectOracle)
    ensures forall e :: e in DirectJob(jobId, videoUrl, avatarUrl, config, env, webhookUrl, o).1 && e.RemoveTree?
                        ==> o.tempDir.Returned? && e.dir == o.tempDir.value
  {
    var sel := SelectConfig(config, env);
    var stages := DirectStages(jobId, videoUrl, avatarUrl, sel, o);
    DirectStagesTidy(jobId, videoUrl, avatarUrl, sel, o);
    WalkKeeps(stages);
    ConcludeRemovesOnlyTemp(DirectFailedStatus, jobId, webhookUrl, TempDirOf(o.tempDir), Walk(stages),
                            DirectUrl(sel.storage, jobId));
  }

  /** A truthy config without storage fails right after `mkdtemp` with the `KeyError` text: nothing
      is downloaded, and the failure webhook, if any, and the cleanup still happen. */
  lemma DirectMissingStorage(jobId: Value, videoUrl: Value, avatarUrl: Value, c: DirectConfig, env: Env,
                             webhookUrl: Value, o: DirectOracle)
    requires c.storage.None? && o.tempDir.Returned?
    ensures var dir := o.tempDir.value;
      DirectJob(jobId, videoUrl, avatarUrl, Some(c), env, webhookUrl, o) ==
      (Failed(MissingBucket),
       [MakeTempDir(dir)] + Notify(webhookUrl, FailedPayload(DirectFailedStatus, jobId, MissingBucket)) + [RemoveTree(dir)])
  {
    var sel := SelectConfig(Some(c), env);
    var stages := DirectStages(jobId, videoUrl, avatarUrl, sel, o);
    DirectOpeningBefore(videoUrl, avatarUrl, sel.storage, o,
                        DirectLater(jobId, OsJoin(WorkDir(o.tempDir), InputVideoName),
                                    OsJoin(WorkDir(o.tempDir), AvatarName), sel, o));
    assert stages[0].ok && !stages[1].ok;
    WalkStopsAt(stages, 1);
    assert Ran(stages, 2) == [MakeTempDir(o.tempDir.value)];
  }

  /** When the face swap fails, the job reports `Face-swap processing failed` and never attempts the
      upload. */
  lemma DirectSwapFails(jobId: Value, videoUrl: Value, avatarUrl: Value, config: Option<DirectConfig>, env: Env,
                        webhookUrl: Value, o: DirectOracle)
    requires var sel := SelectConfig(config, env);
      var dir := WorkDir(o.tempDir);
      && o.tempDir.Returned? && sel.storage.Some? && o.videoFetched && o.avatarFetched
      && FullSwapSpec(OsJoin(dir, InputVideoName), OsJoin(dir, AvatarName), jobId, sel.modelPath, o.model).0.None?
    ensures var (result, trace) := DirectJob(jobId, videoUrl, avatarUrl, config, env, webhookUrl, o);
      result == Failed(SwapFailed) && forall e :: e in trace ==> !e.Upload?
  {
    var sel := SelectConfig(config, env);
    var stages := DirectStages(jobId, videoUrl, avatarUrl, sel, o);
    var dir := WorkDir(o.tempDir);
    DirectOpeningBefore(videoUrl, avatarUrl, sel.storage, o,
                        DirectLater(jobId, OsJoin(dir, InputVideoName), OsJoin(dir, AvatarName), sel, o));
    DirectLaterAfter(DirectOpening(videoUrl, avatarUrl, sel.storage, o), jobId, OsJoin(dir, InputVideoName),
                     OsJoin(dir, AvatarName), sel, o);
    FullSwapLeavesFiles(OsJoin(dir, InputVideoName), OsJoin(dir, AvatarName), jobId, sel.modelPath, o.model);
    StopsBeforeUpload(stages, 4, DirectFailedStatus, jobId, webhookUrl, TempDirOf(o.tempDir),
                      DirectUrl(sel.storage, jobId));
  }

  /** A job whose stage `k` fails, when no stage up to it uploads, fails with that stage's error and
      uploads nothing. */
  lemma StopsBeforeUpload(stages: seq<Stage>, k: nat, failedStatus: string, recordId: Value, webhookUrl: Value,
                          tempDir: Option<string>, url: string)
    requires k < |stages| && !stages[k].ok && forall j :: 0 <= j < k ==> stages[j].ok
    requires forall j, e :: 0 <= j <= k && e in stages[j].effects ==> !e.Upload?
    ensures var (result, trace) := Conclude(failedStatus, recordId, webhookUrl, tempDir, Walk(stages), url);
      result == Failed(stages[k].error) && forall e :: e in trace ==> !e.Upload?
  {
    WalkStopsAt(stages, k);
    forall e | e in Ran(stages, k + 1) ensures !e.Upload? {
      InRan(stages, k + 1, e);
    }
  }
}
