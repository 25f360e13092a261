/** The web front end's `/process` route: check the configuration and the request body, list the
    missing required fields, then run the segmented pipeline and map its outcome to a status code. */
module App {
  import opened Text
  import opened Common
  import opened Stages
  import opened Process

  /** The loaded configuration as the route reads it: `webhook.completion_url` and what the segmented
      pipeline reads. */
  datatype AppConfig = AppConfig(completionUrl: Value, job: SegmentedConfig)

  /** What `request.get_json()` yields: nothing (no body or JSON `null`), a JSON object, or the
      exception it raises for a body it cannot parse. */
  datatype Body = NoBody | Object(fields: map<string, Value>) | Malformed(message: string)

  /** The route's JSON reply: `{status: error, message}` or the pipeline's result as it stands. */
  datatype AppReply = ErrorReply(message: string) | JobReply(result: JobResult)

  datatype Response = Response(code: int, reply: AppReply)

  const ConfigNotLoaded: string := "Configuration not loaded"
  const NoJsonData: string := "No JSON data provided"
  const MissingPrefix: string := "Missing required fields: "
  const UnexpectedPrefix: string := "Unexpected error: "

  const RequiredFields: seq<string> := ["record_id", "video_url", "avatar_url"]

  /** `r` appears within `s` in order, possibly with gaps. */
  ghost predicate Subsequence(r: seq<string>, s: seq<string>)
    decreases |s|
  {
    r == [] || (s != [] && ((r[0] == s[0] && Subsequence(r[1..], s[1..])) || Subsequence(r, s[1..])))
  }

  /** `[f for f in fields if f not in data]`: the fields `data` lacks. */
  function Absent(fields: seq<string>, data: map<string, Value>): (missing: seq<string>)
    ensures |missing| <= |fields|
    decreases |fields|
  {
    if fields == [] then []
    else
      var rest := Absent(fields[1..], data);
      if fields[0] !in data then [fields[0]] + rest else rest
  }

  /** Exactly the listed fields that `data` lacks are reported. */
  lemma {:induction false} AbsentMembers(fields: seq<string>, data: map<string, Value>)
    ensures forall f :: f in Absent(fields, data) <==> f in fields && f !in data
    decreases |fields|
  {
    if fields != [] {
      AbsentMembers(fields[1..], data);
      assert forall f :: f in fields <==> f == fields[0] || f in fields[1..] by {
        assert fields == [fields[0]] + fields[1..];
      }
    }
  }

  /** The absent fields keep their listed order. */
  lemma {:induction false} AbsentInOrder(fields: seq<string>, data: map<string, Value>)
    ensures Subsequence(Absent(fields, data), fields)
    decreases |fields|
  {
    if fields != [] {
      var rest := Absent(fields[1..], data);
      AbsentInOrder(fields[1..], data);
      if fields[0] !in data {
        assert ([fields[0]] + rest)[1..] == rest;
      } else {
        SubsequenceSkip(rest, fields);
      }
    }
  }

  lemma SubsequenceSkip(r: seq<string>, s: seq<string>)
    requires s != [] && Subsequence(r, s[1..])
    ensures Subsequence(r, s)
  { }

  /** The required fields the body lacks; a key that is present counts as present whatever its
      value. */
  function MissingFields(data: map<string, Value>): (missing: seq<string>)
    ensures "record_id" in missing <==> "record_id" !in data
    ensures "video_url" in missing <==> "video_url" !in data
    ensures "avatar_url" in missing <==> "avatar_url" !in data
  {
    AbsentMembers(RequiredFields, data);
    Absent(RequiredFields, data)
  }

  /** The missing fields are listed in the order record id, video URL, avatar URL. */
  lemma MissingInOrder(data: map<string, Value>)
    ensures Subsequence(MissingFields(data), RequiredFields)
  {
    AbsentInOrder(RequiredFields, data);
  }

  /** `not data`: no body, or an empty object. */
  predicate EmptyBody(body: Body) {
    body.NoBody? || (body.Object? && body.fields == map[])
  }

  /** The checks before the pipeline starts: the error response they produce, or None when the
      request is admitted. The configuration is checked before the body; a body that cannot be
      parsed raises inside the `try` and becomes a 500. */
  function Admit(config: Option<AppConfig>, body: Body): (verdict: Option<Response>)
    ensures verdict.None? <==>
      config.Some? && body.Object? && body.fields != map[]
      && "record_id" in body.fields && "video_url" in body.fields && "avatar_url" in body.fields
    ensures config.None? ==> verdict == Some(Response(500, ErrorReply(ConfigNotLoaded)))
    ensures config.Some? && body.Malformed? ==>
      verdict == Some(Response(500, ErrorReply(UnexpectedPrefix + body.message)))
    ensures config.Some? && EmptyBody(body) ==> verdict == Some(Response(400, ErrorReply(NoJsonData)))
    ensures config.Some? && body.Object? && body.fields != map[] && MissingFields(body.fields) != [] ==>
      verdict == Some(Response(400, ErrorReply(MissingPrefix + JoinWith(", ", MissingFields(body.fields)))))
    ensures verdict.Some? ==> verdict.value.reply.ErrorReply?
    ensures verdict.Some? ==> (verdict.value.code == 500 <==> config.None? || body.Malformed?)
    ensures verdict.Some? ==> (verdict.value.code == 400 <==> config.Some? && !body.Malformed?)
  {
    if config.None? then Some(Response(500, ErrorReply(ConfigNotLoaded)))
    else if body.Malformed? then Some(Response(500, ErrorReply(UnexpectedPrefix + body.message)))
    else if EmptyBody(body) then Some(Response(400, ErrorReply(NoJsonData)))
    else
      var missing := MissingFields(body.fields);
      if missing != [] then
        Some(Response(400, ErrorReply(MissingPrefix + JoinWith(", ", missing))))
      else
        assert "record_id" in body.fields && "video_url" in body.fields && "avatar_url" in body.fields by {
          assert "record_id" !in missing && "video_url" !in missing && "avatar_url" !in missing;
        }
        None
  }

  /** The webhook target: the request's `webhook_url` when truthy, else the configured completion
      URL. */
  function WebhookOf(config: AppConfig, data: map<string, Value>): (url: Value)
    ensures Truthy(url) <==> Truthy(Get(data, "webhook_url")) || Truthy(config.completionUrl)
    ensures Truthy(Get(data, "webhook_url")) ==> url == data["webhook_url"]
    ensures !Truthy(Get(data, "webhook_url")) ==> url == config.completionUrl
  {
    Or(Get(data, "webhook_url"), config.completionUrl)
  }

  /** `process()`: the response and every effect of the job it runs; `config` is None when the
      configuration could not be loaded or is empty, and `o` is what the outside world does during
      the job. Whatever the pipeline reports is returned with 200. */
  function ProcessRoute(config: Option<AppConfig>, body: Body, o: SegmentedOracle): (Response, seq<Effect>)
    requires |o.cuts| == 4
  {
    var verdict := Admit(config, body);
    if verdict.Some? then (verdict.value, [])
    else
      var data := body.fields;
      var job := SegmentedJob(data["record_id"], data["video_url"], data["avatar_url"], config.value.job,
                              WebhookOf(config.value, data), o);
      (Response(200, JobReply(job.0)), job.1)
  }

  // ---------------------------------------------------------------- properties of the route

  /** The status code: 500 when the configuration is missing (checked before the body) or the body
      cannot be parsed, 400 for an empty body or missing fields, and 200 whenever the pipeline ran,
      whether it succeeded or failed. Nothing runs unless the code is 200. */
  lemma StatusCodes(config: Option<AppConfig>, body: Body, o: SegmentedOracle)
    requires |o.cuts| == 4
    ensures var (response, trace) := ProcessRoute(config, body, o);
      && (config.None? ==> response == Response(500, ErrorReply(ConfigNotLoaded)))
      && (response.code == 500 <==> config.None? || body.Malformed?)
      && (response.code == 200 <==>
            config.Some? && body.Object? && body.fields != map[]
            && "record_id" in body.fields && "video_url" in body.fields && "avatar_url" in body.fields)
      && (response.code == 400 <==> config.Some? && !body.Malformed? && !(response.code == 200))
      && (response.code == 200 <==> response.reply.JobReply?)
      && (response.code != 200 ==> trace == [])
  {
  }

  /** The absent fields among three, in order. */
  lemma AbsentOfThree(a: string, b: string, c: string, data: map<string, Value>)
    ensures Absent([a, b, c], data) ==
      (if a in data then [] else [a]) + (if b in data then [] else [b]) + (if c in data then [] else [c])
  {
    AbsentCons(c, [], data);
    AbsentCons(b, [c], data);
    AbsentCons(a, [b, c], data);
  }

  /** One field in front of others is listed first when absent. */
  lemma AbsentCons(f: string, rest: seq<string>, data: map<string, Value>)
    ensures Absent([f] + rest, data) == (if f in data then [] else [f]) + Absent(rest, data)
  {
    assert ([f] + rest)[1..] == rest;
  }

  lemma JoinTwo(sep: string, a: string, b: string)
    ensures JoinWith(sep, [a, b]) == a + sep + b
  {
    assert [a, b][1..] == [b];
  }

  /** A rejected request is answered with the rejection and runs nothing. */
  lemma RouteRejects(config: Option<AppConfig>, body: Body, o: SegmentedOracle)
    requires |o.cuts| == 4 && Admit(config, body).Some?
    ensures ProcessRoute(config, body, o) == (Admit(config, body).value, [])
  { }

  /** Only the record id present: the two URLs are missing, video before avatar. */
  lemma UrlsMissing(recordId: Value)
    ensures MissingFields(map["record_id" := recordId]) == ["video_url", "avatar_url"]
  {
    var data := map["record_id" := recordId];
    assert "record_id" in data && "video_url" !in data && "avatar_url" !in data;
    AbsentOfThree("record_id", "video_url", "avatar_url", data);
  }

  /** A body with only a record id lacks the two URLs, listed in order. */
  lemma OnlyRecordId(config: AppConfig, recordId: Value)
    ensures Admit(Some(config), Object(map["record_id" := recordId])) ==
      Some(Response(400, ErrorReply(MissingPrefix + "video_url, avatar_url")))
  {
    var data := map["record_id" := recordId];
    assert "record_id" in data;
    UrlsMissing(recordId);
    JoinTwo(", ", "video_url", "avatar_url");
    assert "video_url" + ", " + "avatar_url" == "video_url, avatar_url";
  }

  /** The same request through the route: a 400 naming both URLs, and nothing runs. */
  lemma MissingBothUrls(config: AppConfig, recordId: Value, o: SegmentedOracle)
    requires |o.cuts| == 4
    ensures ProcessRoute(Some(config), Object(map["record_id" := recordId]), o) ==
      (Response(400, ErrorReply(MissingPrefix + "video_url, avatar_url")), [])
  {
    OnlyRecordId(config, recordId);
    RouteRejects(Some(config), Object(map["record_id" := recordId]), o);
  }

  /** Presence, not truthiness, is checked: empty strings for all three fields start the pipeline. */
  lemma EmptyValuesAccepted(config: AppConfig, o: SegmentedOracle)
    requires |o.cuts| == 4
    ensures ProcessRoute(Some(config), Object(map["record_id" := Str(""), "video_url" := Str(""),
                                                  "avatar_url" := Str("")]), o).0.code == 200
  {
  }

  /** When the pipeline runs, the route reports its result unchanged with 200: success exactly when
      every step succeeded, with the public URL of the record's object, otherwise the first failing
      step's error; and it posts one webhook when the request's `webhook_url` or the configured
      completion URL is truthy, none otherwise, to the request's URL when that is truthy and else to
      the configured one. */
  lemma RouteRunsJob(config: AppConfig, data: map<string, Value>, o: SegmentedOracle)
    requires |o.cuts| == 4
    requires "record_id" in data && "video_url" in data && "avatar_url" in data
    ensures var (response, trace) := ProcessRoute(Some(config), Object(data), o);
      var stages := SegmentedStages(data["record_id"], data["video_url"], data["avatar_url"], config.job, o);
      && response.code == 200 && response.reply.JobReply?
      && (response.reply.result.Success? <==> forall j :: 0 <= j < |stages| ==> stages[j].ok)
      && (response.reply.result.Success? ==>
            response.reply.result.outputUrl == JobUrl(config.job.storage, data["record_id"]))
      && (response.reply.result.Failed? ==>
            exists k :: 0 <= k < |stages| && !stages[k].ok && (forall j :: 0 <= j < k ==> stages[j].ok)
                        && response.reply.result.error == stages[k].error)
      && Webhooks(trace) == (if Truthy(Get(data, "webhook_url")) || Truthy(config.completionUrl) then 1 else 0)
      && (forall e :: e in trace && e.PostWebhook? ==>
            e.hook == PyStr(WebhookOf(config, data)))
  {
    assert Admit(Some(config), Object(data)).None?;
    SegmentedJobOutcome(data["record_id"], data["video_url"], data["avatar_url"], config.job,
                        WebhookOf(config, data), o);
  }
}
