/** The Cloud Function entry point: one-time initialisation of the module
    state, then per event the two guarded blocks of `handle_pubsub`. The
    decision logic is the function `Handle`, written against an abstract
    client (two functions from payloads to a send result); the class
    `Relay` holds the module-level state and runs it with the real client. */
module EntryPoint {
  import opened Runtime
  import opened JsonValues
  import opened FlowLogParser
  import opened Configuration
  import opened LmClient
  import LmAuth

  /** A call the handler makes on the client. */
  datatype Call = IngestCall(payloads: seq<Obj>) | WebhookCall(payload: Obj)

  /** How an invocation ends. `Skipped` and `Delivered` and `Swallowed`
      return normally (Pub/Sub acknowledges the message); `Raised` leaves
      the handler (Pub/Sub redelivers). */
  datatype Outcome =
    | Skipped(reason: Reason)
    | Delivered(endpoint: string, success: bool)
    | Swallowed(exc: Exc)
    | Raised(exc: Exc)

  datatype Run = Run(outcome: Outcome, calls: seq<Call>)

  /** The first block: parse the envelope and extract the flow log. */
  function Unwrap(event: Obj, codec: JsonCodec): (r: Result<(Obj, Json)>)
    ensures r.Ok? <==> ParsePubsubMessage(event, codec).Ok?
                       && ExtractFlowLog(ParsePubsubMessage(event, codec).value).Ok?
    ensures r.Ok? ==> ParsePubsubMessage(event, codec).value == JObj(r.value.0)
                      && ExtractFlowLog(JObj(r.value.0)) == Ok(r.value.1)
    ensures r.Err? ==> r.exc.ValueError? || r.exc == AttributeError
  {
    match ParsePubsubMessage(event, codec)
    case Err(e) => Err(e)
    case Ok(entry) =>
      match ExtractFlowLog(entry)
      case Err(e) => Err(e)
      case Ok(flow) => Ok((entry.fields, flow))
  }

  /** The except clauses of the second block around a send result. */
  function Settle(endpoint: string, result: SendResult): (o: Outcome)
    ensures o.Raised? <==> result == SendResult.Raised(RequestException)
    ensures result.Returned? ==> o == Delivered(endpoint, result.ok)
    ensures result.Raised? && result.exc != RequestException ==> o == Swallowed(result.exc)
  {
    match result
    case Returned(ok) => Delivered(endpoint, ok)
    case Raised(e) => if e == RequestException then Outcome.Raised(e) else Swallowed(e)
  }

  /** The client answered `call` with `result`. */
  predicate Answered(call: Call, ingest: seq<Obj> -> SendResult, webhook: Obj -> SendResult, result: SendResult)
  {
    match call
    case IngestCall(ps) => ingest(ps) == result
    case WebhookCall(p) => webhook(p) == result
  }

  /** The second block: resource id and metadata first, then one send on the
      configured path. Any exception other than RequestException is
      swallowed; a flow log that is not a dict fails on its first `.get`. */
  function Forward(c: Config, entry: Obj, flow: Json, codec: JsonCodec,
                   ingest: seq<Obj> -> SendResult, webhook: Obj -> SendResult): (run: Run)
    ensures !run.outcome.Skipped?
    ensures |run.calls| <= 1
    ensures forall call :: call in run.calls ==> (call.WebhookCall? <==> c.useWebhook)
    ensures forall call :: call in run.calls ==> call.IngestCall? ==> |call.payloads| == 1
    ensures run.outcome.Delivered? ==>
              |run.calls| == 1 && Answered(run.calls[0], ingest, webhook, Returned(run.outcome.success))
    ensures run.outcome.Raised? ==>
              run.outcome.exc == RequestException && |run.calls| == 1
              && Answered(run.calls[0], ingest, webhook, SendResult.Raised(RequestException))
  {
    if !flow.JObj? then Run(Swallowed(AttributeError), [])
    else
      var f := flow.fields;
      match ExtractResourceId(f)
      case Err(e) => Run(Swallowed(e), [])
      case Ok(resourceId) =>
        match ExtractMetadata(f)
        case Err(e) => Run(Swallowed(e), [])
        case Ok(metadata) => Send(c, f, entry, resourceId, metadata, codec, ingest, webhook)
  }

  /** The mode branch of the second block: format for the configured
      endpoint and make that one call. */
  function Send(c: Config, f: Obj, entry: Obj, resourceId: Option<Obj>, metadata: Obj, codec: JsonCodec,
                ingest: seq<Obj> -> SendResult, webhook: Obj -> SendResult): (run: Run)
    ensures !run.outcome.Skipped?
    ensures |run.calls| <= 1
    ensures forall call :: call in run.calls ==> (call.WebhookCall? <==> c.useWebhook)
    ensures forall call :: call in run.calls ==> call.IngestCall? ==> |call.payloads| == 1
    ensures run.outcome.Delivered? ==>
              |run.calls| == 1 && Answered(run.calls[0], ingest, webhook, Returned(run.outcome.success))
    ensures run.outcome.Raised? ==>
              run.outcome.exc == RequestException && |run.calls| == 1
              && Answered(run.calls[0], ingest, webhook, SendResult.Raised(RequestException))
  {
    if c.useWebhook then
      match WebhookPayload(f, entry, codec)
      case Err(e) => Run(Swallowed(e), [])
      case Ok(p) => Run(Settle("webhook", webhook(p)), [WebhookCall(p)])
    else
      match FormatIngestApiPayload(f, resourceId, metadata, codec)
      case Err(e) => Run(Swallowed(e), [])
      case Ok(p) => Run(Settle("ingest_api", ingest([p])), [IngestCall([p])])
  }

  /** `handle_pubsub` once initialised. A ValueError from the first block
      skips the event; any other exception there escapes. */
  function Handle(c: Config, event: Obj, codec: JsonCodec,
                  ingest: seq<Obj> -> SendResult, webhook: Obj -> SendResult): (run: Run)
    ensures run.outcome.Skipped? <==> Unwrap(event, codec).Err? && Unwrap(event, codec).exc.ValueError?
    ensures run.outcome.Skipped? ==> run.outcome.reason == Unwrap(event, codec).exc.reason && run.calls == []
    ensures |run.calls| <= 1
    ensures forall call :: call in run.calls ==> (call.WebhookCall? <==> c.useWebhook)
    ensures forall call :: call in run.calls ==> call.IngestCall? ==> |call.payloads| == 1
  {
    match Unwrap(event, codec)
    case Err(e) => if e.ValueError? then Run(Skipped(e.reason), []) else Run(Outcome.Raised(e), [])
    case Ok((entry, flow)) => Forward(c, entry, flow, codec, ingest, webhook)
  }

  /** In webhook mode a well-formed flow log makes exactly one webhook call,
      with the webhook payload of that flow log and its LogEntry. */
  lemma WebhookModeSendsOnce(c: Config, event: Obj, codec: JsonCodec,
                             ingest: seq<Obj> -> SendResult, webhook: Obj -> SendResult)
    requires c.useWebhook
    requires Unwrap(event, codec).Ok? && Unwrap(event, codec).value.1.JObj?
    requires var f := Unwrap(event, codec).value.1.fields;
      ExtractResourceId(f).Ok? && ExtractMetadata(f).Ok? && BuildSummary(f, codec).Ok?
    ensures var (entry, flow) := Unwrap(event, codec).value;
            var p := WebhookPayload(flow.fields, entry, codec);
      && p.Ok?
      && Handle(c, event, codec, ingest, webhook)
         == Run(Settle("webhook", webhook(p.value)), [WebhookCall(p.value)])
  {
  }

  /** In ingest mode a well-formed flow log makes exactly one ingest call
      with a one-element list: the ingest record built from the flow log's
      resource id and metadata. */
  lemma IngestModeSendsOnce(c: Config, event: Obj, codec: JsonCodec,
                            ingest: seq<Obj> -> SendResult, webhook: Obj -> SendResult)
    requires !c.useWebhook
    requires Unwrap(event, codec).Ok? && Unwrap(event, codec).value.1.JObj?
    requires var f := Unwrap(event, codec).value.1.fields;
      ExtractResourceId(f).Ok? && ExtractMetadata(f).Ok? && BuildSummary(f, codec).Ok?
    ensures var f := Unwrap(event, codec).value.1.fields;
            var p := FormatIngestApiPayload(f, ExtractResourceId(f).value, ExtractMetadata(f).value, codec);
      && p.Ok?
      && Handle(c, event, codec, ingest, webhook)
         == Run(Settle("ingest_api", ingest([p.value])), [IngestCall([p.value])])
  {
  }

  /** A send that returns false is only logged: the handler returns
      normally and reports the failed delivery. */
  lemma FalseResultReturnsNormally(c: Config, event: Obj, codec: JsonCodec,
                                   ingest: seq<Obj> -> SendResult, webhook: Obj -> SendResult)
    requires forall ps :: ingest(ps) == Returned(false)
    requires forall p :: webhook(p) == Returned(false)
    ensures var o := Handle(c, event, codec, ingest, webhook).outcome;
      !o.Delivered? || !o.success
    ensures Handle(c, event, codec, ingest, webhook).outcome.Raised? ==>
              Unwrap(event, codec).Err? && !Unwrap(event, codec).exc.ValueError?
  {
  }

  /** The handler raises only in two ways: a non-ValueError from the first
      block, or a RequestException that a client call raised in the
      second. Every other exception of the second block is swallowed. */
  lemma OnlyFirstBlockOrRequestExceptionEscapes(c: Config, event: Obj, codec: JsonCodec,
                                                ingest: seq<Obj> -> SendResult, webhook: Obj -> SendResult)
    ensures var run := Handle(c, event, codec, ingest, webhook);
      run.outcome.Raised? ==>
        || (Unwrap(event, codec).Err? && run.outcome.exc == Unwrap(event, codec).exc
            && !run.outcome.exc.ValueError?)
        || (run.outcome.exc == RequestException && |run.calls| == 1
            && Answered(run.calls[0], ingest, webhook, SendResult.Raised(RequestException)))
  {
  }

  /** The client as it is, with the clock reading, the HMAC, the codec and
      the transport it works with. */
  function RealIngest(c: Config, epochMs: nat, hmac: LmAuth.Hmac, codec: JsonCodec, post: Transport)
    : seq<Obj> -> SendResult
  {
    ps => IngestResult(c, ps, epochMs, hmac, codec, post)
  }

  function RealWebhook(c: Config, post: Transport): Obj -> SendResult
  {
    p => WebhookResult(c, p, post)
  }

  /** With the real client the re-raise branch is dead: both send methods
      catch the transport's RequestException, so nothing the second block
      does makes the handler raise. Only a first-block failure other than
      ValueError can. */
  lemma RealClientNeverReraises(c: Config, event: Obj, codec: JsonCodec,
                                epochMs: nat, hmac: LmAuth.Hmac, post: Transport)
    ensures var run := Handle(c, event, codec, RealIngest(c, epochMs, hmac, codec, post), RealWebhook(c, post));
      run.outcome.Raised? ==> Unwrap(event, codec).Err? && run.outcome.exc == AttributeError
  {
    var ingest := RealIngest(c, epochMs, hmac, codec, post);
    var webhook := RealWebhook(c, post);
    OnlyFirstBlockOrRequestExceptionEscapes(c, event, codec, ingest, webhook);
  }

  /** A `data` field that is a non-empty string passes the truthiness check
      and then fails on `.get`: that AttributeError is not a ValueError, so
      the handler raises instead of skipping the event. */
  lemma StringDataEscapes(c: Config, codec: JsonCodec,
                          ingest: seq<Obj> -> SendResult, webhook: Obj -> SendResult)
    ensures Handle(c, map["data" := JStr("x")], codec, ingest, webhook) == Run(Outcome.Raised(AttributeError), [])
  {
    assert GetOrNull(map["data" := JStr("x")], "data") == JStr("x");
  }

  /** The requests an invocation's calls put on the wire. */
  function RequestsOf(c: Config, calls: seq<Call>, epochMs: nat, hmac: LmAuth.Hmac, codec: JsonCodec)
    : seq<Request>
  {
    if calls == [] then []
    else
      var head := match calls[0]
        case WebhookCall(p) => [WebhookRequest(c, p)]
        case IngestCall(ps) =>
          var r := IngestRequest(c, ps, epochMs, hmac, codec);
          if r.Ok? then [r.value] else [];
      head + RequestsOf(c, calls[1..], epochMs, hmac, codec)
  }

  /** The module-level state of main.py: `_initialized`, `_config` and
      `_client`. */
  class Relay {
    var initialized: bool
    var config: Option<Config>
    var client: LMClient?

    /** Once initialised, the configuration passed validation and the
        client was built from it. */
    predicate Valid()
      reads this
    {
      initialized ==>
        && config.Some? && client != null
        && client.config == config.value && client.Valid()
        && ValidateConfig(config.value) == Pass
    }

    /** A cold start: nothing loaded yet. */
    constructor()
      ensures Valid() && !initialized && config.None? && client == null
    {
      initialized := false;
      config := None;
      client := null;
    }

    /** `_init`: load the configuration, build the client, mark the state
        initialised. A failing load raises before anything is assigned. */
    method Init(env: map<string, string>, secret: string -> Option<string>) returns (failure: Option<Exc>)
      modifies this
      ensures Valid()
      ensures LoadConfig(env, secret).Ok? ==>
        && failure.None? && initialized && config == Some(LoadConfig(env, secret).value)
        && fresh(client)
      ensures LoadConfig(env, secret).Err? ==>
        && failure == Some(LoadConfig(env, secret).exc)
        && initialized == old(initialized) && config == old(config) && client == old(client)
      requires Valid()
    {
      var loaded := LoadConfig(env, secret);
      if loaded.Err? {
        return Some(loaded.exc);
      }
      config := Some(loaded.value);
      client := new LMClient(loaded.value);
      initialized := true;
      failure := None;
    }

    /** `handle_pubsub`: initialise on the first call, then run the two
        blocks with the real client. The outcome and the requests sent are
        those of `Handle`; later calls reuse the state of the first. */
    method HandlePubsub(event: Obj, env: map<string, string>, secret: string -> Option<string>,
                        codec: JsonCodec, epochMs: nat, hmac: LmAuth.Hmac, post: Transport)
      returns (outcome: Outcome, sent: seq<Request>)
      requires Valid()
      modifies this
      ensures Valid()
      ensures old(initialized) ==> initialized && config == old(config) && client == old(client)
      ensures !old(initialized) && LoadConfig(env, secret).Err? ==>
        && !initialized && config == old(config) && client == old(client)
        && outcome == Outcome.Raised(LoadConfig(env, secret).exc) && sent == []
      ensures !old(initialized) && LoadConfig(env, secret).Ok? ==>
        initialized && config == Some(LoadConfig(env, secret).value) && fresh(client)
      ensures initialized ==>
        var c := config.value;
        var run := Handle(c, event, codec, RealIngest(c, epochMs, hmac, codec, post), RealWebhook(c, post));
        outcome == run.outcome && sent == RequestsOf(c, run.calls, epochMs, hmac, codec)
    {
      if !initialized {
        var failure := Init(env, secret);
        if failure.Some? {
          return Outcome.Raised(failure.value), [];
        }
      }
      outcome, sent := Process(config.value, event, codec, epochMs, hmac, post);
    }

    /** The two blocks of `handle_pubsub` with the client of this state. */
    method Process(c: Config, event: Obj, codec: JsonCodec, epochMs: nat, hmac: LmAuth.Hmac, post: Transport)
      returns (outcome: Outcome, sent: seq<Request>)
      requires Valid() && initialized && config == Some(c)
      ensures var run := Handle(c, event, codec, RealIngest(c, epochMs, hmac, codec, post), RealWebhook(c, post));
        outcome == run.outcome && sent == RequestsOf(c, run.calls, epochMs, hmac, codec)
    {
      var unwrapped := Unwrap(event, codec);
      if unwrapped.Err? {
        if unwrapped.exc.ValueError? {
          return Skipped(unwrapped.exc.reason), [];
        }
        return Outcome.Raised(unwrapped.exc), [];
      }
      var (entry, flow) := unwrapped.value;
      outcome, sent := Deliver(c, entry, flow, codec, epochMs, hmac, post);
    }

    /** The second block: resource id, metadata, and one send on the
        configured path through this state's client. */
    method Deliver(c: Config, entry: Obj, flow: Json, codec: JsonCodec, epochMs: nat, hmac: LmAuth.Hmac,
                   post: Transport)
      returns (outcome: Outcome, sent: seq<Request>)
      requires Valid() && initialized && config == Some(c)
      ensures var run := Forward(c, entry, flow, codec, RealIngest(c, epochMs, hmac, codec, post), RealWebhook(c, post));
        outcome == run.outcome && sent == RequestsOf(c, run.calls, epochMs, hmac, codec)
    {
      if !flow.JObj? {
        return Swallowed(AttributeError), [];
      }
      var f := flow.fields;
      var resourceId := ExtractResourceId(f);
      if resourceId.Err? {
        return Swallowed(resourceId.exc), [];
      }
      var metadata := ExtractMetadata(f);
      if metadata.Err? {
        return Swallowed(metadata.exc), [];
      }
      outcome, sent := SendPayload(c, f, entry, resourceId.value, metadata.value, codec, epochMs, hmac, post);
    }

    /** The mode branch, through this state's client. */
    method SendPayload(c: Config, f: Obj, entry: Obj, resourceId: Option<Obj>, metadata: Obj, codec: JsonCodec,
                       epochMs: nat, hmac: LmAuth.Hmac, post: Transport)
      returns (outcome: Outcome, sent: seq<Request>)
      requires Valid() && initialized && config == Some(c)
      ensures var run := Send(c, f, entry, resourceId, metadata, codec,
                              RealIngest(c, epochMs, hmac, codec, post), RealWebhook(c, post));
        outcome == run.outcome && sent == RequestsOf(c, run.calls, epochMs, hmac, codec)
    {
      if c.useWebhook {
        outcome, sent := SendWebhook(c, f, entry, codec, epochMs, hmac, post);
      } else {
        outcome, sent := SendIngest(c, f, resourceId, metadata, codec, epochMs, hmac, post);
      }
    }

    /** Webhook mode: format the payload and post it as one object. */
    method SendWebhook(c: Config, f: Obj, entry: Obj, codec: JsonCodec,
                       epochMs: nat, hmac: LmAuth.Hmac, post: Transport)
      returns (outcome: Outcome, sent: seq<Request>)
      requires Valid() && initialized && config == Some(c) && c.useWebhook
      ensures var p := WebhookPayload(f, entry, codec);
        && (p.Err? ==> outcome == Swallowed(p.exc) && sent == [])
        && (p.Ok? ==> outcome == Settle("webhook", WebhookResult(c, p.value, post))
                      && sent == RequestsOf(c, [WebhookCall(p.value)], epochMs, hmac, codec))
    {
      var payload := FormatWebhookPayload(f, entry, codec);
      if payload.Err? {
        return Swallowed(payload.exc), [];
      }
      var request, result := client.SendToWebhook(payload.value, post);
      assert RequestsOf(c, [WebhookCall(payload.value)], epochMs, hmac, codec) == [request];
      outcome, sent := Settle("webhook", result), [request];
    }

    /** Ingest mode: format the record and post it as a one-element list. */
    method SendIngest(c: Config, f: Obj, resourceId: Option<Obj>, metadata: Obj, codec: JsonCodec,
                      epochMs: nat, hmac: LmAuth.Hmac, post: Transport)
      returns (outcome: Outcome, sent: seq<Request>)
      requires Valid() && initialized && config == Some(c) && !c.useWebhook
      ensures var p := FormatIngestApiPayload(f, resourceId, metadata, codec);
        && (p.Err? ==> outcome == Swallowed(p.exc) && sent == [])
        && (p.Ok? ==> outcome == Settle("ingest_api", IngestResult(c, [p.value], epochMs, hmac, codec, post))
                      && sent == RequestsOf(c, [IngestCall([p.value])], epochMs, hmac, codec))
    {
      var payload := FormatIngestApiPayload(f, resourceId, metadata, codec);
      if payload.Err? {
        return Swallowed(payload.exc), [];
      }
      var request, result := client.SendToIngestApi([payload.value], epochMs, hmac, codec, post);
      outcome := Settle("ingest_api", result);
      sent := if request.Some? then [request.value] else [];
      assert RequestsOf(c, [IngestCall([payload.value])], epochMs, hmac, codec) == sent;
    }
  }
}
