/** The HTTP client for the two LogicMonitor endpoints: how each request is
    built (URL, headers, body) and how its outcome becomes the boolean the
    caller sees. The pooled session and its retry policy are folded into the
    transport, a function from the request to the final response or to a
    connection failure (a RequestException). */
module LmClient {
  import opened Runtime
  import opened JsonValues
  import opened Configuration
  import LmAuth
  import Text

  /** `data=body` sends text as is; `json=payload` serialises one document. */
  datatype Body = Text(text: string) | JsonDocument(document: Json)

  datatype Request = Post(url: string, headers: map<string, string>, body: Body)

  /** What the session's `post` ends with: a status code, or a
      RequestException once its retries are exhausted. */
  datatype Response = Status(code: int) | ConnectionFailure

  /** What a send method ends with: a boolean, or an exception it raised. */
  datatype SendResult = Returned(ok: bool) | Raised(exc: Exc)

  type Transport = Request -> Response

  const IngestResourcePath: string := "/log/ingest"

  /** `f"https://{company}.{domain}"`. */
  function BaseUrl(c: Config): (url: string)
    ensures |url| == 9 + |c.companyName| + |c.companyDomain|
    ensures url[..8] == "https://"
    ensures url[8..8 + |c.companyName|] == c.companyName
    ensures url[8 + |c.companyName|] == '.'
    ensures url[9 + |c.companyName|..] == c.companyDomain
  {
    "https://" + c.companyName + "." + c.companyDomain
  }

  /** An optional string inside an f-string: None prints as "None". */
  function Interpolate(o: Option<string>): string
  {
    if o.Some? then o.value else "None"
  }

  /** The request `send_to_ingest_api` posts: the JSON array of the
      payloads, signed with LMv1 over "POST" and "/log/ingest" (not the URL
      path). Without an access key, `.encode` on None raises before any
      request is made. */
  function IngestRequest(c: Config, payloads: seq<Obj>, epochMs: nat, hmac: LmAuth.Hmac, codec: JsonCodec)
    : (r: Result<Request>)
    ensures r.Err? <==> c.accessKey.None?
    ensures r.Err? ==> r.exc == AttributeError
    ensures r.Ok? ==> r.value.url == BaseUrl(c) + "/rest/log/ingest"
    ensures r.Ok? ==> r.value.headers.Keys == {"Authorization", "Content-Type", "X-Version"}
    ensures r.Ok? ==> r.value.headers["Content-Type"] == "application/json"
                      && r.value.headers["X-Version"] == "3"
    ensures r.Ok? ==> r.value.body == Text(codec.dumps(ObjArray(payloads)))
    ensures r.Ok? ==> r.value.headers["Authorization"]
                      == LmAuth.GenerateLmv1Token(hmac, epochMs, Interpolate(c.accessId), c.accessKey.value,
                                                  "POST", "/log/ingest", codec.dumps(ObjArray(payloads)))
  {
    if c.accessKey.None? then Err(AttributeError)
    else
      var body := codec.dumps(ObjArray(payloads));
      var token := LmAuth.GenerateLmv1Token(hmac, epochMs, Interpolate(c.accessId), c.accessKey.value,
                                            "POST", IngestResourcePath, body);
      var headers := map["Authorization" := token, "Content-Type" := "application/json", "X-Version" := "3"];
      Ok(Post(BaseUrl(c) + "/rest/log/ingest", headers, Text(body)))
  }

  /** The request `send_to_webhook` posts: one JSON object, not an array,
      with the Bearer header and a JSON content type. A missing token is
      interpolated as "None". */
  function WebhookRequest(c: Config, payload: Obj): (r: Request)
    ensures r.url == BaseUrl(c) + "/rest/api/v1/webhook/ingest/" + c.webhookSourceName
    ensures r.headers.Keys == {"Authorization", "Content-Type"}
    ensures r.headers["Authorization"] == "Bearer " + Interpolate(c.bearerToken)
    ensures r.headers["Content-Type"] == "application/json"
    ensures r.body == JsonDocument(JObj(payload))
  {
    var headers := LmAuth.GetBearerHeader(Interpolate(c.bearerToken));
    var headers := headers["Content-Type" := "application/json"];
    Post(BaseUrl(c) + "/rest/api/v1/webhook/ingest/" + c.webhookSourceName, headers, JsonDocument(JObj(payload)))
  }

  /** Success is HTTP 200 or 202; any other status and any transport
      failure is a plain false. */
  function Accepted(response: Response): (ok: bool)
    ensures ok <==> response == Status(200) || response == Status(202)
  {
    response.Status? && response.code in {200, 202}
  }

  /** What `send_to_ingest_api` ends with. The transport's exception never
      leaves it. */
  function IngestResult(c: Config, payloads: seq<Obj>, epochMs: nat, hmac: LmAuth.Hmac,
                        codec: JsonCodec, post: Transport): (r: SendResult)
    ensures r != Raised(RequestException)
    ensures r.Raised? <==> c.accessKey.None?
    ensures r.Returned? ==> (r.ok <==> Accepted(post(IngestRequest(c, payloads, epochMs, hmac, codec).value)))
  {
    match IngestRequest(c, payloads, epochMs, hmac, codec)
    case Err(e) => Raised(e)
    case Ok(request) => Returned(Accepted(post(request)))
  }

  /** What `send_to_webhook` ends with: always a boolean. */
  function WebhookResult(c: Config, payload: Obj, post: Transport): (r: SendResult)
    ensures r.Returned?
    ensures r.ok <==> Accepted(post(WebhookRequest(c, payload)))
  {
    Returned(Accepted(post(WebhookRequest(c, payload))))
  }

  /** The body that is signed is the body that is sent, byte for byte: the
      Authorization token verifies against "POST", "/log/ingest" and the
      request's own body, under the configured key, and its first field
      names the configured access id. */
  lemma SignedBodyIsSentBody(c: Config, payloads: seq<Obj>, epochMs: nat, hmac: LmAuth.Hmac, codec: JsonCodec)
    requires c.accessId.Some? && ':' !in c.accessId.value && c.accessKey.Some?
    ensures var r := IngestRequest(c, payloads, epochMs, hmac, codec);
      && r.Ok?
      && r.value.body.Text?
      && LmAuth.Verifies(r.value.headers["Authorization"], hmac, c.accessKey.value,
                         "POST", "/log/ingest", r.value.body.text)
      && Text.Split(r.value.headers["Authorization"], ':')[0] == "LMv1 " + c.accessId.value
  {
    var body := codec.dumps(ObjArray(payloads));
    LmAuth.TokenFields(hmac, epochMs, c.accessId.value, c.accessKey.value, "POST", IngestResourcePath, body);
    LmAuth.TokenVerifies(hmac, epochMs, c.accessId.value, c.accessKey.value, "POST", IngestResourcePath, body);
  }

  /** A configuration that passed validation for ingest mode never makes
      the ingest send raise: it always returns a boolean. */
  lemma ValidatedIngestReturns(c: Config, payloads: seq<Obj>, epochMs: nat, hmac: LmAuth.Hmac,
                               codec: JsonCodec, post: Transport)
    requires ValidateConfig(c) == Pass && !c.useWebhook
    ensures IngestResult(c, payloads, epochMs, hmac, codec, post).Returned?
  {
  }

  /** `LMClient`: the configuration and the base URL, fixed at construction. */
  class LMClient {
    const config: Config
    const baseUrl: string

    /** The base URL is the one the configuration names. */
    predicate Valid()
    {
      baseUrl == BaseUrl(config)
    }

    constructor(config: Config)
      ensures this.config == config && Valid()
    {
      this.config := config;
      baseUrl := "https://" + config.companyName + "." + config.companyDomain;
    }

    /** `send_to_ingest_api`: builds the body once, signs it, posts it, and
        maps the outcome to a boolean. `sent` is the request that went out,
        if any. */
    method SendToIngestApi(payloads: seq<Obj>, epochMs: nat, hmac: LmAuth.Hmac, codec: JsonCodec, post: Transport)
      returns (sent: Option<Request>, result: SendResult)
      requires Valid()
      ensures sent.Some? <==> IngestRequest(config, payloads, epochMs, hmac, codec).Ok?
      ensures sent.Some? ==> sent.value == IngestRequest(config, payloads, epochMs, hmac, codec).value
      ensures result == IngestResult(config, payloads, epochMs, hmac, codec, post)
    {
      var url := baseUrl + "/rest/log/ingest";
      var body := codec.dumps(ObjArray(payloads));
      if config.accessKey.None? {
        return None, Raised(AttributeError);
      }
      var token := LmAuth.GenerateLmv1Token(hmac, epochMs, Interpolate(config.accessId), config.accessKey.value,
                                            "POST", IngestResourcePath, body);
      var headers := map["Authorization" := token, "Content-Type" := "application/json", "X-Version" := "3"];
      var request := Post(url, headers, Text(body));
      sent := Some(request);
      var response := post(request);
      if response.Status? && response.code in {200, 202} {
        result := Returned(true);
      } else {
        result := Returned(false);
      }
    }

    /** `send_to_webhook`: the Bearer header with the content type added in
        place, one JSON object as the body, and the outcome as a boolean. */
    method SendToWebhook(payload: Obj, post: Transport) returns (sent: Request, result: SendResult)
      requires Valid()
      ensures sent == WebhookRequest(config, payload)
      ensures result == WebhookResult(config, payload, post)
    {
      var url := baseUrl + "/rest/api/v1/webhook/ingest/" + config.webhookSourceName;
      var headers := LmAuth.GetBearerHeader(Interpolate(config.bearerToken));
      headers := headers["Content-Type" := "application/json"];
      sent := Post(url, headers, JsonDocument(JObj(payload)));
      var response := post(sent);
      if response.Status? && response.code in {200, 202} {
        result := Returned(true);
      } else {
        result := Returned(false);
      }
    }
  }
}
