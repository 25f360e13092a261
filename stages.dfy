/** The control flow both pipeline variants share: stages run strictly in order inside one `try`,
    the first stage that fails raises and aborts the rest, and every exit path then sends at most one
    webhook and removes the temporary directory if it was created. */
module Stages {
  import opened Common
  import opened Transfer

  /** One step of a pipeline: whether it succeeded, the effects it performed, and the exception text
      the pipeline raises when it fails. */
  datatype Stage = Stage(ok: bool, effects: seq<Effect>, error: string)

  /** Index of the first stage that fails, or the number of stages when all succeed. */
  function FirstFailed(stages: seq<Stage>): (k: nat)
    ensures k <= |stages|
    ensures forall j :: 0 <= j < k ==> stages[j].ok
    ensures k < |stages| ==> !stages[k].ok
    decreases |stages|
  {
    if stages == [] then 0
    else if !stages[0].ok then 0
    else 1 + FirstFailed(stages[1..])
  }

  /** The effects of the first `k` stages, one stage after the other. */
  function Ran(stages: seq<Stage>, k: nat): seq<Effect>
    requires k <= |stages|
    decreases k
  {
    if k == 0 then [] else Ran(stages, k - 1) + stages[k - 1].effects
  }

  /** Reference semantics of a `try` block of stages: they run in order until the first failure,
      which aborts all later stages and supplies the error; the effects are those of the stages
      that ran. */
  function Walk(stages: seq<Stage>): (Option<string>, seq<Effect>) {
    var k := FirstFailed(stages);
    if k == |stages| then (None, Ran(stages, k))
    else (Some(stages[k].error), Ran(stages, k + 1))
  }

  lemma WalkStopsAt(stages: seq<Stage>, k: nat)
    requires k < |stages| && !stages[k].ok
    requires forall j :: 0 <= j < k ==> stages[j].ok
    ensures Walk(stages) == (Some(stages[k].error), Ran(stages, k + 1))
  {
  }

  lemma WalkCompletes(stages: seq<Stage>)
    requires forall j :: 0 <= j < |stages| ==> stages[j].ok
    ensures Walk(stages) == (None, Ran(stages, |stages|))
  {
  }

  /** The walk succeeds exactly when every stage succeeds, and otherwise reports the first failing
      stage's error after running only that stage and the ones before it. */
  lemma {:induction false} WalkOutcome(stages: seq<Stage>)
    ensures Walk(stages).0.None? <==> forall j :: 0 <= j < |stages| ==> stages[j].ok
    ensures Walk(stages).0.Some? ==>
              exists k :: 0 <= k < |stages| && !stages[k].ok && (forall j :: 0 <= j < k ==> stages[j].ok)
                          && Walk(stages) == (Some(stages[k].error), Ran(stages, k + 1))
  {
    var f := FirstFailed(stages);
    if f < |stages| {
      WalkStopsAt(stages, f);
    } else {
      WalkCompletes(stages);
    }
  }

  /** Every effect of the first `k` stages belongs to one of them. */
  lemma {:induction false} InRan(stages: seq<Stage>, k: nat, e: Effect)
    requires k <= |stages| && e in Ran(stages, k)
    ensures exists j :: 0 <= j < k && e in stages[j].effects
    decreases k
  {
    if e !in stages[k - 1].effects {
      InRan(stages, k - 1, e);
    }
  }

  /** No webhook is posted among these effects. */
  predicate Quiet(effects: seq<Effect>) {
    forall e :: e in effects ==> !e.PostWebhook?
  }

  /** Stages that post no webhook of their own post none however far the walk gets. */
  lemma {:induction false} WalkQuiet(stages: seq<Stage>)
    requires forall j :: 0 <= j < |stages| ==> Quiet(stages[j].effects)
    ensures Quiet(Walk(stages).1)
  {
    var k := FirstFailed(stages);
    var n := if k == |stages| then k else k + 1;
    forall e | e in Ran(stages, n) ensures !e.PostWebhook? {
      InRan(stages, n, e);
    }
  }

  /** No directory is removed among these effects. */
  predicate Keeps(effects: seq<Effect>) {
    forall e :: e in effects ==> !e.RemoveTree?
  }

  /** Stages that remove no directory of their own remove none however far the walk gets. */
  lemma {:induction false} WalkKeeps(stages: seq<Stage>)
    requires forall j :: 0 <= j < |stages| ==> Keeps(stages[j].effects)
    ensures Keeps(Walk(stages).1)
  {
    var k := FirstFailed(stages);
    var n := if k == |stages| then k else k + 1;
    forall e | e in Ran(stages, n) ensures !e.RemoveTree? {
      InRan(stages, n, e);
    }
  }

  /** The number of webhooks posted in a trace. */
  function Webhooks(trace: seq<Effect>): nat
    decreases |trace|
  {
    if trace == [] then 0
    else Webhooks(trace[..|trace| - 1]) + (if trace[|trace| - 1].PostWebhook? then 1 else 0)
  }

  lemma {:induction false} WebhooksAppend(a: seq<Effect>, b: seq<Effect>)
    ensures Webhooks(a + b) == Webhooks(a) + Webhooks(b)
    decreases |b|
  {
    if b != [] {
      var n := |b| - 1;
      assert (a + b)[..|a + b| - 1] == a + b[..n];
      WebhooksAppend(a, b[..n]);
    } else {
      assert a + b == a;
    }
  }

  lemma {:induction false} QuietHasNoWebhooks(trace: seq<Effect>)
    requires Quiet(trace)
    ensures Webhooks(trace) == 0
    decreases |trace|
  {
    if trace != [] {
      assert trace[|trace| - 1] in trace;
      assert Quiet(trace[..|trace| - 1]) by {
        forall e | e in trace[..|trace| - 1] ensures !e.PostWebhook? {
          assert e in trace;
        }
      }
      QuietHasNoWebhooks(trace[..|trace| - 1]);
    }
  }

  /** `if webhook_url: send_webhook(webhook_url, payload)`. */
  function Notify(webhookUrl: Value, payload: Payload): seq<Effect> {
    if Truthy(webhookUrl) then [PostWebhook(PyStr(webhookUrl), payload)] else []
  }

  /** `cleanup_temp_files(temp_dir)`, attempted only when the directory was created. */
  function Cleanup(tempDir: Option<string>): seq<Effect> {
    if tempDir.Some? then [RemoveTree(tempDir.value)] else []
  }

  /** The end of a job. After a successful walk: the `Complete` webhook, cleanup and a success result
      with the uploaded URL. After a failed one, the `except` block: the failure webhook carrying the
      error, cleanup if the temporary directory exists, and a failed result with the same error.
      Neither the webhook's nor the cleanup's own outcome is consulted. */
  function Conclude(failedStatus: string, recordId: Value, webhookUrl: Value, tempDir: Option<string>,
                    walked: (Option<string>, seq<Effect>), url: string): (JobResult, seq<Effect>)
  {
    match walked.0
    case None =>
      (Success(url), walked.1 + Notify(webhookUrl, CompletePayload(recordId, url)) + Cleanup(tempDir))
    case Some(m) =>
      (Failed(m), walked.1 + Notify(webhookUrl, FailedPayload(failedStatus, recordId, m)) + Cleanup(tempDir))
  }

  /** When the stages post no webhook, a job posts exactly one webhook, to `webhook_url`, if that URL
      is truthy and none otherwise; that webhook carries `Complete` with the URL on success and the variant's failure
      status with the error on failure; and when the temporary directory exists, removing it is the
      last thing the job does. */
  lemma {:induction false} ConcludeTail(failedStatus: string, recordId: Value, webhookUrl: Value,
                                        tempDir: Option<string>, walked: (Option<string>, seq<Effect>),
                                        url: string)
    requires Quiet(walked.1)
    ensures var (result, trace) := Conclude(failedStatus, recordId, webhookUrl, tempDir, walked, url);
      && Webhooks(trace) == (if Truthy(webhookUrl) then 1 else 0)
      && (forall e :: e in trace && e.PostWebhook? ==>
            && e.hook == PyStr(webhookUrl)
            && e.payload == (if walked.0.None? then CompletePayload(recordId, url)
                             else FailedPayload(failedStatus, recordId, walked.0.value)))
      && (result.Success? <==> walked.0.None?)
      && (result.Failed? ==> result.error == walked.0.value)
      && (tempDir.Some? ==> trace != [] && trace[|trace| - 1] == RemoveTree(tempDir.value))
  {
    var payload := if walked.0.None? then CompletePayload(recordId, url)
                   else FailedPayload(failedStatus, recordId, walked.0.value);
    var n := Notify(webhookUrl, payload);
    var c := Cleanup(tempDir);
    var trace := Conclude(failedStatus, recordId, webhookUrl, tempDir, walked, url).1;
    assert trace == walked.1 + n + c;
    QuietHasNoWebhooks(walked.1);
    WebhooksAppend(walked.1, n);
    WebhooksAppend(walked.1 + n, c);
    assert Webhooks(c) == 0 by {
      if tempDir.Some? { assert c[..0] == []; }
    }
    assert Webhooks(n) == (if Truthy(webhookUrl) then 1 else 0) by {
      if Truthy(webhookUrl) { assert n[..0] == []; }
    }
    forall e | e in trace && e.PostWebhook? ensures e.hook == PyStr(webhookUrl) && e.payload == payload {
      assert e !in walked.1;
      assert e !in c;
      assert e in n;
    }
  }

  /** What a job built from stages that post no webhook of their own reports: it posts exactly one
      webhook, to `webhook_url`, when that URL is truthy and none otherwise; it succeeds exactly when every stage
      succeeds, with the upload's URL, after the effects of all stages, the `Complete` webhook and the
      cleanup; otherwise it fails with the error of the first failing stage, after the effects of that
      stage and the ones before it only, the failure webhook and the cleanup; and once the temporary
      directory exists, removing it is the last thing the job does. */
  lemma JobOutcome(failedStatus: string, recordId: Value, webhookUrl: Value, tempDir: Option<string>,
                   stages: seq<Stage>, url: string)
    requires forall j :: 0 <= j < |stages| ==> Quiet(stages[j].effects)
    ensures var (result, trace) := Conclude(failedStatus, recordId, webhookUrl, tempDir, Walk(stages), url);
      && Webhooks(trace) == (if Truthy(webhookUrl) then 1 else 0)
      && (forall e :: e in trace && e.PostWebhook? ==> e.hook == PyStr(webhookUrl))
      && (result.Success? <==> forall j :: 0 <= j < |stages| ==> stages[j].ok)
      && (result.Success? ==>
            && result == Success(url)
            && trace == Ran(stages, |stages|) + Notify(webhookUrl, CompletePayload(recordId, url)) + Cleanup(tempDir))
      && (result.Failed? ==>
            exists k :: 0 <= k < |stages| && !stages[k].ok && (forall j :: 0 <= j < k ==> stages[j].ok)
              && result == Failed(stages[k].error)
              && trace == Ran(stages, k + 1) + Notify(webhookUrl, FailedPayload(failedStatus, recordId, stages[k].error))
                          + Cleanup(tempDir))
      && (tempDir.Some? ==> trace != [] && trace[|trace| - 1] == RemoveTree(tempDir.value))
  {
    WalkOutcome(stages);
    WalkQuiet(stages);
    ConcludeTail(failedStatus, recordId, webhookUrl, tempDir, Walk(stages), url);
    var k := FirstFailed(stages);
    if k < |stages| {
      WalkStopsAt(stages, k);
    } else {
      WalkCompletes(stages);
    }
  }

  /** When the stages themselves remove no directory, the only directory a job removes is its
      temporary directory. */
  lemma ConcludeRemovesOnlyTemp(failedStatus: string, recordId: Value, webhookUrl: Value,
                                tempDir: Option<string>, walked: (Option<string>, seq<Effect>), url: string)
    requires Keeps(walked.1)
    ensures forall e :: e in Conclude(failedStatus, recordId, webhookUrl, tempDir, walked, url).1 && e.RemoveTree?
                        ==> tempDir == Some(e.dir)
  {
  }

  /** What a concluded job promises about its stages: one webhook, posted to the webhook URL, when
      that URL is truthy and none otherwise, success exactly when every stage succeeds (with the uploaded file's URL),
      otherwise the error of the first failing stage, and the temporary directory, once it exists,
      removed last. */
  ghost predicate Settled(job: (JobResult, seq<Effect>), stages: seq<Stage>, webhookUrl: Value,
                          tempDir: Option<string>, url: string) {
    var (result, trace) := job;
    && Webhooks(trace) == (if Truthy(webhookUrl) then 1 else 0)
    && (forall e :: e in trace && e.PostWebhook? ==> e.hook == PyStr(webhookUrl))
    && (result.Success? <==> forall j :: 0 <= j < |stages| ==> stages[j].ok)
    && (result.Success? ==> result.outputUrl == url)
    && (result.Failed? ==>
          exists k :: 0 <= k < |stages| && !stages[k].ok && (forall j :: 0 <= j < k ==> stages[j].ok)
                      && result.error == stages[k].error)
    && (tempDir.Some? ==> trace != [] && trace[|trace| - 1] == RemoveTree(tempDir.value))
  }

  /** Any webhook-free stages, concluded, settle as promised. */
  lemma JobSettles(failedStatus: string, recordId: Value, webhookUrl: Value, tempDir: Option<string>,
                   stages: seq<Stage>, url: string)
    requires forall j :: 0 <= j < |stages| ==> Quiet(stages[j].effects)
    ensures Settled(Conclude(failedStatus, recordId, webhookUrl, tempDir, Walk(stages), url),
                    stages, webhookUrl, tempDir, url)
  {
    JobOutcome(failedStatus, recordId, webhookUrl, tempDir, stages, url);
  }

  /** The job's tail as the source runs it: optional webhook, then cleanup, then the result. */
  method Finish(failedStatus: string, recordId: Value, webhookUrl: Value, tempDir: Option<string>,
                outcome: Option<string>, work: seq<Effect>, url: string)
    returns (result: JobResult, trace: seq<Effect>)
    ensures (result, trace) == Conclude(failedStatus, recordId, webhookUrl, tempDir, (outcome, work), url)
  {
    trace := work;
    var payload := if outcome.None? then CompletePayload(recordId, url)
                   else FailedPayload(failedStatus, recordId, outcome.value);
    if Truthy(webhookUrl) {
      trace := trace + [PostWebhook(PyStr(webhookUrl), payload)];
    }
    assert trace == work + Notify(webhookUrl, payload);
    if tempDir.Some? {
      trace := trace + [RemoveTree(tempDir.value)];
    }
    assert trace == work + Notify(webhookUrl, payload) + Cleanup(tempDir);
    result := if outcome.None? then Success(url) else Failed(outcome.value);
  }

  /** Stages `0..k-1` have all succeeded and `work` holds their effects in order. */
  ghost predicate Reached(stages: seq<Stage>, k: nat, work: seq<Effect>) {
    k <= |stages| && (forall j :: 0 <= j < k ==> stages[j].ok) && work == Ran(stages, k)
  }

  /** Stages `0..k-1` have succeeded, stage `k` has failed, and `work` holds the effects of all of them. */
  ghost predicate Stopped(stages: seq<Stage>, k: nat, work: seq<Effect>) {
    k < |stages| && (forall j :: 0 <= j < k ==> stages[j].ok) && !stages[k].ok && work == Ran(stages, k + 1)
  }

  /** Runs the bookkeeping of stage `k` once its outcome is known: its effects join the work done so
      far, and the job stops here exactly when the stage failed, with the stage's error. */
  method Record(ghost stages: seq<Stage>, k: nat, work: seq<Effect>, ok: bool, effects: seq<Effect>,
                error: string)
    returns (stopped: bool, failure: string, done: seq<Effect>)
    requires Reached(stages, k, work)
    requires k < |stages|
    requires stages[k] == Stage(ok, effects, error)
    ensures stopped == !ok
    ensures stopped ==> Stopped(stages, k, done) && failure == stages[k].error
    ensures !stopped ==> Reached(stages, k + 1, done)
  {
    stopped := !ok;
    failure := error;
    done := work + effects;
  }

  /** The end of a job from the point the stages stopped or all succeeded: the `except` block or the
      success report. `url` is the uploaded URL, used only on success. */
  method Settle(ghost stages: seq<Stage>, ghost k: nat, stopped: bool, error: string, failedStatus: string,
                recordId: Value, webhookUrl: Value, tempDir: Option<string>, work: seq<Effect>, url: string,
                ghost specUrl: string)
    returns (result: JobResult, trace: seq<Effect>)
    requires stopped ==> Stopped(stages, k, work) && error == stages[k].error
    requires !stopped ==> Reached(stages, |stages|, work) && url == specUrl
    ensures (result, trace) == Conclude(failedStatus, recordId, webhookUrl, tempDir, Walk(stages), specUrl)
  {
    if stopped {
      WalkStopsAt(stages, k);
      result, trace := Finish(failedStatus, recordId, webhookUrl, tempDir, Some(error), work, "");
    } else {
      WalkCompletes(stages);
      result, trace := Finish(failedStatus, recordId, webhookUrl, tempDir, None, work, url);
    }
  }

  // ---------------------------------------------------------------- steps both variants share

  /** The input video's name inside the temporary directory. */
  const InputVideoName: string := "input_video.mp4"

  /** The exception texts of the shared steps that fail by returning a falsy value. */
  const VideoDownloadFailed: string := "Failed to download video"
  const AvatarDownloadFailed: string := "Failed to download avatar"
  const UploadFailed: string := "S3 upload failed"

  /** `tempfile.mkdtemp(...)`: the directory it made, the job's first effect. */
  function TempStage(made: Attempt<string>): Stage {
    Stage(made.Returned?, if made.Returned? then [MakeTempDir(made.value)] else [],
          if made.Raised? then made.message else "")
  }

  /** The temporary directory once made; `temp_dir` stays None when `mkdtemp` raised. */
  function TempDirOf(made: Attempt<string>): Option<string> {
    if made.Returned? then Some(made.value) else None
  }

  /** The temporary directory's name, or the empty name when `mkdtemp` raised (then no later stage
      runs). */
  function WorkDir(made: Attempt<string>): string {
    if made.Returned? then made.value else ""
  }

  /** `download_file`, which turns every failure into False. */
  function DownloadStage(url: Value, dest: string, fetched: bool, error: string): Stage {
    Stage(fetched, [Download(url, dest)], error)
  }

  /** `upload_to_s3` returning None raises `S3 upload failed`; any other exception propagates. */
  function UploadStage(outputPath: string, recordId: Value, storage: StorageConfig, outcome: UploadOutcome): Stage {
    var upload := UploadToS3(outputPath, PyStr(recordId), storage, outcome);
    Stage(upload.0.Returned? && upload.0.value.Some?, [upload.1],
          if upload.0.Raised? then upload.0.message else UploadFailed)
  }

  /** The public URL a successful job reports. */
  function JobUrl(storage: StorageConfig, recordId: Value): string {
    PublicUrl(storage.bucket, storage.region, S3Key(storage.prefix, PyStr(recordId)))
  }

  /** `upload_to_s3` as stage `k`; a `ClientError` becomes `S3 upload failed`, any other exception
      propagates with its own text. On success the public URL. */
  method UploadStep(ghost stages: seq<Stage>, k: nat, work: seq<Effect>, outputPath: string, recordId: Value,
                    storage: StorageConfig, outcome: UploadOutcome)
    returns (stopped: bool, error: string, done: seq<Effect>, url: string)
    requires Reached(stages, k, work) && k < |stages|
    requires stages[k] == UploadStage(outputPath, recordId, storage, outcome)
    ensures stopped ==> Stopped(stages, k, done) && error == stages[k].error
    ensures !stopped ==> Reached(stages, k + 1, done) && url == JobUrl(storage, recordId)
  {
    var (uploaded, attempt) := UploadToS3(outputPath, PyStr(recordId), storage, outcome);
    var ok := uploaded.Returned? && uploaded.value.Some?;
    var failure := if uploaded.Raised? then uploaded.message else UploadFailed;
    stopped, error, done := Record(stages, k, work, ok, [attempt], failure);
    url := if ok then uploaded.value.value else "";
  }
}
