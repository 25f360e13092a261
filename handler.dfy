/** The serverless entry point (`handler`): read the event's input, accept either spelling of each
    URL field, validate the three required values, run the direct pipeline with the worker's fixed
    configuration and map its result to the reply. */
module Handler {
  import opened Common
  import opened Transfer
  import opened Stages
  import Process
  import opened ProcessSimple

  // ---------------------------------------------------------------- the worker's configuration

  /** `CONFIG['processing']['segments']`: swap 0-5, original 5-15, swap 15-20, original 20-30. */
  const DefaultSegments: Process.SegmentsConfig := Process.SegmentsConfig(0, 5, 5, 15, 15, 20, 20, 30)

  /** `CONFIG['webhook']['completion_url']`. */
  const CompletionUrl: Value := Null

  /** `CONFIG` as the direct pipeline reads it: storage and model path taken from the environment when
      the module is loaded, with the same defaults the pipeline's own fallback uses. */
  function WorkerConfig(env: Env): DirectConfig {
    DirectConfig(Some(EnvStorage(env)), Some(EnvOr(env.modelPath, DefaultModelPath)))
  }

  /** The worker's fixed configuration selects exactly what the pipeline would select from the
      environment without any configuration. */
  lemma WorkerConfigIsFallback(env: Env, later: Env)
    ensures SelectConfig(Some(WorkerConfig(env)), later) == SelectConfig(None, env)
  { }

  /** The four default ranges are contiguous, start at 0, end at 30, and each is non-empty. */
  lemma DefaultSegmentsContiguous()
    ensures var plan := Process.CutPlan(DefaultSegments);
      && plan[0].start == 0 && plan[3].end == 30
      && (forall i :: 0 <= i < 3 ==> plan[i].end == plan[i + 1].start)
      && (forall i :: 0 <= i < 4 ==> plan[i].start < plan[i].end)
  {
    var plan := Process.CutPlan(DefaultSegments);
    assert plan == [Process.Cut("swap_1", 0, 5), Process.Cut("original_1", 5, 15),
                    Process.Cut("swap_2", 15, 20), Process.Cut("original_2", 20, 30)];
  }

  // ---------------------------------------------------------------- requests and replies

  /** The `input` member of an event: a JSON object, or some other JSON scalar. */
  datatype Input = Fields(fields: map<string, Value>) | Scalar(v: Value)

  /** A serverless event; `input` is None when the event has no such member. */
  datatype Event = Event(input: Option<Input>)

  /** The reply dict: a rejected request `{status: failed, error}`, a finished job
      `{status: success, output_url, record_id}` or `{status: failed, error, record_id}`, or an
      exception caught by the handler `{status: failed, error, traceback}`. */
  datatype Reply =
    | Invalid(error: string)
    | Succeeded(outputUrl: string, recordId: Value)
    | JobFailed(error: string, recordId: Value)
    | HandlerError(error: string)

  /** The reply's `status` member. */
  function Status(reply: Reply): string {
    if reply.Succeeded? then "success" else "failed"
  }

  const MissingRecordId: string := "Missing record_id"
  const MissingVideoUrl: string := "Missing video URL"
  const MissingAvatarUrl: string := "Missing avatar URL"

  /** `event.get("input", {})`. */
  function InputOf(event: Event): Input {
    if event.input.Some? then event.input.value else Fields(map[])
  }

  /** The class name Python reports for a JSON scalar. */
  function TypeName(v: Value): string {
    match v
    case Null => "NoneType"
    case Str(_) => "str"
    case Num(_) => "int"
    case Bool(_) => "bool"
  }

  /** `input_data.get("source_video_url") or input_data.get("video_url")`: a truthy result exactly
      when either spelling holds a truthy value; the first spelling wins when truthy, and otherwise
      the second is taken as it stands. */
  function VideoUrlOf(input: map<string, Value>): (url: Value)
    ensures Truthy(url) <==> Truthy(Get(input, "source_video_url")) || Truthy(Get(input, "video_url"))
    ensures Truthy(Get(input, "source_video_url")) ==> url == input["source_video_url"]
    ensures !Truthy(Get(input, "source_video_url")) ==> url == Get(input, "video_url")
  {
    Or(Get(input, "source_video_url"), Get(input, "video_url"))
  }

  /** `input_data.get("avatar_image_url") or input_data.get("avatar_url")`. */
  function AvatarUrlOf(input: map<string, Value>): (url: Value)
    ensures Truthy(url) <==> Truthy(Get(input, "avatar_image_url")) || Truthy(Get(input, "avatar_url"))
    ensures Truthy(Get(input, "avatar_image_url")) ==> url == input["avatar_image_url"]
    ensures !Truthy(Get(input, "avatar_image_url")) ==> url == Get(input, "avatar_url")
  {
    Or(Get(input, "avatar_image_url"), Get(input, "avatar_url"))
  }

  /** The webhook target: the event's `webhook_url` when truthy, else the configured completion URL,
      which is None. */
  function WebhookOf(input: map<string, Value>): (url: Value)
    ensures Truthy(url) <==> Truthy(Get(input, "webhook_url"))
    ensures Truthy(Get(input, "webhook_url")) ==> url == input["webhook_url"]
    ensures !Truthy(Get(input, "webhook_url")) ==> url == CompletionUrl
  {
    Or(Get(input, "webhook_url"), CompletionUrl)
  }

  /** The first validation message that applies, in the order record, video, avatar. */
  function Validate(recordId: Value, videoUrl: Value, avatarUrl: Value): (error: Option<string>)
    ensures error.None? <==> Truthy(recordId) && Truthy(videoUrl) && Truthy(avatarUrl)
    ensures !Truthy(recordId) ==> error == Some(MissingRecordId)
    ensures Truthy(recordId) && !Truthy(videoUrl) ==> error == Some(MissingVideoUrl)
    ensures Truthy(recordId) && Truthy(videoUrl) && !Truthy(avatarUrl) ==> error == Some(MissingAvatarUrl)
  {
    if !Truthy(recordId) then Some(MissingRecordId)
    else if !Truthy(videoUrl) then Some(MissingVideoUrl)
    else if !Truthy(avatarUrl) then Some(MissingAvatarUrl)
    else None
  }

  /** The reply for a finished job, carrying the record id. */
  function ReplyOf(result: JobResult, recordId: Value): (reply: Reply)
    ensures reply.Succeeded? <==> result.Success?
    ensures result.Success? ==> reply == Succeeded(result.outputUrl, recordId)
    ensures result.Failed? ==> reply == JobFailed(result.error, recordId)
  {
    match result
    case Success(url) => Succeeded(url, recordId)
    case Failed(e) => JobFailed(e, recordId)
  }

  /** `handler(event)`: the reply and every effect of the job it runs; `env` is the environment the
      module was loaded with and `o` what the outside world does during the job. An `input` that is
      not an object fails on `.get` and is reported as a handler error. */
  function Handle(event: Event, env: Env, o: DirectOracle): (Reply, seq<Effect>) {
    match InputOf(event)
    case Scalar(v) => (HandlerError("Handler error: '" + TypeName(v) + "' object has no attribute 'get'"), [])
    case Fields(input) =>
      var recordId := Get(input, "record_id");
      var videoUrl := VideoUrlOf(input);
      var avatarUrl := AvatarUrlOf(input);
      var invalid := Validate(recordId, videoUrl, avatarUrl);
      if invalid.Some? then (Invalid(invalid.value), [])
      else
        var job := DirectJob(recordId, videoUrl, avatarUrl, Some(WorkerConfig(env)), env, WebhookOf(input), o);
        (ReplyOf(job.0, recordId), job.1)
  }

  // ---------------------------------------------------------------- properties of the handler

  /** An event without `input` is treated as empty input and rejected for its missing record id,
      without running anything. */
  lemma NoInputMeansMissingRecord(env: Env, o: DirectOracle)
    ensures Handle(Event(None), env, o) == (Invalid(MissingRecordId), [])
  { }

  /** An `input` that is a JSON scalar makes `.get` raise; the handler answers with the exception's
      text and runs nothing. */
  lemma NonObjectInput(v: Value, env: Env, o: DirectOracle)
    ensures var (reply, trace) := Handle(Event(Some(Scalar(v))), env, o);
      && reply.HandlerError? && Status(reply) == "failed" && trace == []
      && reply.error == "Handler error: '" + TypeName(v) + "' object has no attribute 'get'"
  { }

  /** A request is rejected exactly when the record id, the video URL (either spelling) or the
      avatar URL (either spelling) is missing or falsy; the rejection names the first of them that is
      missing, and then nothing at all happens. */
  lemma {:induction false} RejectsIncomplete(input: map<string, Value>, env: Env, o: DirectOracle)
    ensures var (reply, trace) := Handle(Event(Some(Fields(input))), env, o);
      var recordOk := Truthy(Get(input, "record_id"));
      var videoOk := Truthy(Get(input, "source_video_url")) || Truthy(Get(input, "video_url"));
      var avatarOk := Truthy(Get(input, "avatar_image_url")) || Truthy(Get(input, "avatar_url"));
      && (reply.Invalid? <==> !(recordOk && videoOk && avatarOk))
      && (reply.Invalid? ==> trace == [])
      && (!recordOk ==> reply == Invalid(MissingRecordId))
      && (recordOk && !videoOk ==> reply == Invalid(MissingVideoUrl))
      && (recordOk && videoOk && !avatarOk ==> reply == Invalid(MissingAvatarUrl))
  {
    var v := VideoUrlOf(input);
    var a := AvatarUrlOf(input);
    var invalid := Validate(Get(input, "record_id"), v, a);
  }

  /** For a complete request the handler runs the pipeline once: the reply is `success` exactly when
      every step of the job succeeds, with the public URL of `<prefix><record_id>.mp4` in the
      configured bucket, and otherwise carries the first failing step's error; it always carries the
      record id. One webhook is posted, to the event's `webhook_url`, when that URL is truthy, and none
      otherwise. */
  lemma CompleteRequest(input: map<string, Value>, env: Env, o: DirectOracle)
    requires Truthy(Get(input, "record_id")) && Truthy(VideoUrlOf(input)) && Truthy(AvatarUrlOf(input))
    ensures var (reply, trace) := Handle(Event(Some(Fields(input))), env, o);
      var recordId := Get(input, "record_id");
      var stages := DirectStages(recordId, VideoUrlOf(input), AvatarUrlOf(input), WorkerConfig(env), o);
      && (reply.Succeeded? || reply.JobFailed?)
      && (reply.Succeeded? <==> forall j :: 0 <= j < |stages| ==> stages[j].ok)
      && (reply.Succeeded? ==> reply == Succeeded(JobUrl(EnvStorage(env), recordId), recordId))
      && (reply.JobFailed? ==>
            && reply.recordId == recordId
            && exists k :: 0 <= k < |stages| && !stages[k].ok && (forall j :: 0 <= j < k ==> stages[j].ok)
                           && reply.error == stages[k].error)
      && Webhooks(trace) == (if Truthy(Get(input, "webhook_url")) then 1 else 0)
      && (forall e :: e in trace && e.PostWebhook? ==> e.hook == PyStr(WebhookOf(input)))
  {
    var recordId := Get(input, "record_id");
    var job := DirectJob(recordId, VideoUrlOf(input), AvatarUrlOf(input), Some(WorkerConfig(env)), env,
                         WebhookOf(input), o);
    assert Handle(Event(Some(Fields(input))), env, o) == (ReplyOf(job.0, recordId), job.1);
    DirectJobOutcome(recordId, VideoUrlOf(input), AvatarUrlOf(input), Some(WorkerConfig(env)), env,
                     WebhookOf(input), o);
  }
}
