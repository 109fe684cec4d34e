# GCP VPC Flow Logs relay to LogicMonitor — a Dafny model

This project models the Cloud Function that relays Google Cloud VPC Flow Logs
to LogicMonitor. Each Pub/Sub CloudEvent delivered by Eventarc carries one
Cloud Logging LogEntry, base64-encoded JSON in `data.message.data`. For each
event the function does the following:

- It unwraps the envelope and takes the flow-log record out of the entry's
  `jsonPayload`.
- It picks the VM the record belongs to and flattens an allowlist of fields
  into metadata.
- It sends one record to LogicMonitor. In ingest mode this is the Logs Ingest
  API, signed with an LMv1 HMAC token. In webhook mode it is the webhook
  endpoint, with a Bearer token.
- Configuration comes from the environment, with a secret-store fallback. It
  is loaded once per instance.

The modules follow the source files:

| module | file | what it holds |
|---|---|---|
| `Runtime` | `runtime.dfy` | Bytes, `Option`, `Result`. The exception classes the entry point tells apart: `ValueError` with its reason, `AttributeError` and `RequestException`. The ValueError texts. |
| `JsonValues` | `json_values.dfy` | JSON values with integer numbers only. Python truthiness, `dict.get`, `d.get(key, {})`. The JSON codec, an abstract parameter. |
| `Text` | `text.dfy` | Decimal rendering, splitting on a character, ASCII lower-casing. |
| `Base64` | `base64.dfy` | Base 64 as in section 4 of RFC 4648, with the decode-after-encode round trip. |
| `FlowLogParser` | `flow_log_parser.dfy` | Envelope parsing, payload extraction, resource id, metadata, summary line, and the two payload formats. |
| `LmAuth` | `lm_auth.dfy` | The LMv1 token and the Bearer header. |
| `Configuration` | `configuration.dfy` | `Config` and its defaults, `_parse_bool`, `_validate_config`, `load_config`. |
| `LmClient` | `lm_client.dfy` | Request construction for both endpoints and mapping the outcome to a boolean. It includes the class `LMClient`. |
| `EntryPoint` | `entry_point.dfy` | The decision logic of `handle_pubsub` as the function `Handle`, which takes an abstract client. The class `Relay` holds the module-level state (`_initialized`, `_config`, `_client`) and runs the handler with the real client. |

The model keeps three kinds of Python failure:

- A raising function returns `Err(exc)`.
- Duck-typing failures, such as `.get` on a value that is not a dict or
  `.encode` on `None`, are `Err(AttributeError)`. They are kept rather than
  excluded by preconditions.
- The handler's two `try` blocks map a step's exception class to one of four
  outcomes, `Skipped`, `Delivered`, `Swallowed` or `Raised`, exactly as the
  except clauses do.

Where the source builds a value step by step or changes state, the model
keeps both a method and a function. The method follows the source's steps.
Its `ensures` proves that its result, or its new state, equals the function.
The function is the specification, and the lemmas about the source's
promises are stated once, about it. The pairs are:

- `FormatWebhookPayload` and `WebhookPayload`;
- `CopyPresent` and `Pick`;
- the `LMClient` send methods and `IngestResult` and `WebhookResult`;
- the `Relay` methods and `Handle`, `Forward` and `Send`.

## Model

| member | source | states |
|---|---|---|
| `Runtime.MessagesNameTheirCause` | cloud_function/flow_log_parser.py:24-44 | The texts of the parse errors name what failed: "data", "message", "data", "decode" and "JSON", in check order. The extraction and configuration errors name "missing", "empty", LM_COMPANY_NAME, LM_BEARER_TOKEN and LM_ACCESS_ID. |
| `Text.DecimalRoundTrip` | cloud_function/lm_auth.py:36 | Reading back the decimal digits that `str()` writes for a natural number gives that number. |
| `Base64.Encode` | cloud_function/lm_auth.py:40-46 | The signature text has four characters per started group of three octets. Each is from the RFC 4648 alphabet or is the pad character. |
| `Base64.Decode` | cloud_function/flow_log_parser.py:36-39 | Strict decoding accepts only text whose length is a multiple of four. Each group of four characters gives one to three octets, three except in the last group. |
| `Base64.DecodeEncode` | cloud_function/lm_auth.py:40-46 | Decoding the base64 text of any octet string gives the octets back. |
| `Base64.NoColon` | cloud_function/lm_auth.py:40-48 | No base64 text contains ':'. |
| `LmAuth.EpochString` | cloud_function/lm_auth.py:36 | The epoch field is a non-empty string of decimal digits that reads back as the clock value in milliseconds. |
| `LmAuth.RequestVars` | cloud_function/lm_auth.py:38 | The signed string is the method, the epoch, the body and the resource path, in that order and without separators. |
| `LmAuth.GenerateLmv1Token` | cloud_function/lm_auth.py:11-48 | The token starts with "LMv1 ", the access id and ':', and ends with ':' and the epoch string. |
| `LmAuth.TokenFields` | cloud_function/lm_auth.py:40-48 | With a colon-free access id, the token splits on ':' into exactly three fields. They are "LMv1 " plus the id, the base64 HMAC of the signed string, and the same epoch that was signed. |
| `LmAuth.TokenVerifies` | cloud_function/lm_auth.py:36-48 | For an access id without ':', every generated token verifies against the method, path, body and key it was made for, and its last field reads back as the epoch used. |
| `LmAuth.DefaultBodySignsMethodEpochPath` | cloud_function/lm_auth.py:11-48 | Without a body, the token signs method + epoch + path. |
| `LmAuth.GetBearerHeader` | cloud_function/lm_auth.py:51-60 | The header map has the single key Authorization, whose value is "Bearer " followed by the token. |
| `Configuration.WithDefaults` | cloud_function/config.py:10-19 | A `Config` built from a company name alone has domain "logicmonitor.com", source name "GCP-VPC-FlowLogs", ingest mode and no credentials. |
| `Configuration.LowerSpellings` | cloud_function/config.py:22-24 | A string lower-cases to "true", "1" or "yes" exactly when it is "1" or is "true" or "yes" with each letter in either case. |
| `Configuration.ParseBool` | cloud_function/config.py:22-24 | `_parse_bool` is true exactly for "1" and for "true" and "yes" in any mix of case. Every other string is false. |
| `Configuration.ValidateConfig` | cloud_function/config.py:70-82 | Validation passes if and only if the mode's credentials are non-empty: a bearer token in webhook mode, or both access id and access key in ingest mode. Each failure names its own error. |
| `Configuration.WithFallback` | cloud_function/config.py:34-45 | A non-empty environment value is used. Otherwise, and only then, the secret store's value is used. |
| `Configuration.LoadConfig` | cloud_function/config.py:27-67 | The company-name error occurs if and only if neither the environment nor the secret store gives a non-empty name. Once a name is found, loading succeeds if and only if the mode's credentials are non-empty: the bearer token, from the environment or the secret store, when `USE_WEBHOOK` parses true, else both access id and access key. The bearer-token error occurs exactly when a name is found, the mode is webhook and the token is missing. The access-credentials error occurs exactly when a name is found, the mode is ingest and either the id or the key is missing. A loaded configuration always passes validation, and every failure is a ValueError. On success each field comes from its source: company name and bearer token from the environment with the secret-store fallback, access id and key from the environment only, domain and source name from the environment or their defaults, and the mode from `_parse_bool` of `USE_WEBHOOK`, default "false". |
| `Configuration.LoadConfigDefaults` | cloud_function/config.py:50-54 | Unset optional variables give the default domain, the default source name and ingest mode. |
| `Configuration.SecretOnlyWhenEnvEmpty` | cloud_function/config.py:34-45 | Once the environment gives a non-empty company name and bearer token, the secret store attached makes no difference. |
| `Configuration.SecretIdsConsulted` | cloud_function/config.py:34-48 | The secret store is asked only for "lm-company-name" and "lm-bearer-token". Two stores that agree on those ids give the same result. |
| `JsonValues.Block` | cloud_function/flow_log_parser.py:83-84 | `d.get(key, {})` used as a dict: an absent key gives the empty dict and a dict is returned as is. Anything else fails with AttributeError. |
| `FlowLogParser.ParsePubsubMessage` | cloud_function/flow_log_parser.py:24-46 | The checks run in source order: falsy `data`, falsy `data.message`, falsy `message.data`, base64 failure, JSON failure. Each ValueError occurs if and only if every earlier check passed and its own fails, and a truthy level that is not a dict gives AttributeError, also if and only if. Parsing succeeds if and only if all checks pass, and the result is then the JSON decoding of the base64-decoded text. |
| `FlowLogParser.ExtractFlowLog` | cloud_function/flow_log_parser.py:61-66 | The `jsonPayload` is returned unchanged when truthy. It is "missing" when absent or null and "empty" when present but falsy. An entry that is not a dict fails with AttributeError. |
| `FlowLogParser.ExtractResourceId` | cloud_function/flow_log_parser.py:83-93 | The result is `{"system.hostname": vm}` for a truthy source `vm_name`, else for a truthy destination `vm_name`. It is None if and only if neither is truthy. Errors are only the AttributeErrors of non-dict blocks. |
| `FlowLogParser.SourceVmWins` | cloud_function/flow_log_parser.py:83-86 | A named source VM wins, whatever the destination block holds. |
| `FlowLogParser.ConnectionFields` | cloud_function/flow_log_parser.py:111-117 | A truthy connection block contributes exactly the five 5-tuple keys, each with its `.get` value. A falsy block contributes nothing. |
| `FlowLogParser.InstanceFields` | cloud_function/flow_log_parser.py:128-132 | `vm_name` and `project_id` are each present exactly when truthy in the source instance, with its value. |
| `FlowLogParser.VpcFields` | cloud_function/flow_log_parser.py:135-139 | `vpc_name` is present exactly when truthy in the source VPC, and likewise `subnet_name`, taken from `subnetwork_name`. |
| `FlowLogParser.DropNulls` | cloud_function/flow_log_parser.py:142 | The comprehension keeps exactly the non-null entries, with their values. |
| `FlowLogParser.ExtractMetadata` | cloud_function/flow_log_parser.py:108-142 | The metadata fails only with AttributeError, from a non-dict block. Its keys are among the 12 allowlisted keys, and no value is null. |
| `FlowLogParser.MetadataFields` | cloud_function/flow_log_parser.py:111-125 | A connection field is present exactly when `connection` is truthy and the field is non-null, with the source value. A traffic counter is present exactly when present and non-null, so a falsy 0 is kept. |
| `FlowLogParser.MetadataInstanceFields` | cloud_function/flow_log_parser.py:128-132 | The metadata's `vm_name` and `project_id` come from the source instance only, and only when truthy. |
| `FlowLogParser.MetadataVpcFields` | cloud_function/flow_log_parser.py:135-139 | The metadata's `vpc_name` and `subnet_name` come from the source VPC only, and only when truthy. |
| `FlowLogParser.MetadataIgnoresOtherKeys` | cloud_function/flow_log_parser.py:108-142 | Changing any key other than connection, the three counters, `src_instance` and `src_vpc` leaves the metadata unchanged. This includes every `dest_*` block. |
| `FlowLogParser.ResourceIdMatchesMetadata` | cloud_function/flow_log_parser.py:83-132 | When the source instance names a VM, the resource id and the metadata's `vm_name` agree. |
| `FlowLogParser.Render` | cloud_function/flow_log_parser.py:154-157 | A null field is rendered as "None" and a boolean as "True" or "False", as `str()` spells them. A string field is rendered as itself. An integer is rendered as decimal digits that read back as its value, with a leading '-' when negative. |
| `FlowLogParser.SummaryLine` | cloud_function/flow_log_parser.py:154-157 | Every summary starts with "VPC Flow: ". |
| `FlowLogParser.BuildSummary` | cloud_function/flow_log_parser.py:147-157 | The summary exists exactly when the connection block is absent or a dict, and then starts with "VPC Flow: ". Otherwise it fails with AttributeError. |
| `FlowLogParser.SummaryOfEmptyFlow` | cloud_function/flow_log_parser.py:147-157 | With no connection block and no byte count, every field reads "?". |
| `FlowLogParser.SummaryReadsSixFields` | cloud_function/flow_log_parser.py:147-157 | The summary depends only on the connection block and `bytes_sent`. |
| `FlowLogParser.SummaryOfTcpFlow` | cloud_function/flow_log_parser.py:147-157 | A TCP record renders as "VPC Flow: 10.128.0.15:443 -> 10.128.0.22:52144 proto=6 bytes=1500". |
| `FlowLogParser.FormatIngestApiPayload` | cloud_function/flow_log_parser.py:175-181 | The keys are `msg`, the metadata's keys, and `_lm.resourceId` exactly when a resource id is given. Metadata values win on a clash. Otherwise `msg` is the summary and `_lm.resourceId` is the id. |
| `FlowLogParser.IngestPayloadShape` | cloud_function/flow_log_parser.py:160-181 | With real metadata, the record is exactly the summary, the resource id when there is one, and the metadata. |
| `FlowLogParser.CopyPresent` | cloud_function/flow_log_parser.py:209-216 | The copy loop adds exactly the listed keys present in the source, with their values, on top of the dict built so far. |
| `FlowLogParser.WebhookPayload` | cloud_function/flow_log_parser.py:198-237 | The webhook record exists exactly when the connection block is absent or a dict, and always holds `message`. Otherwise it fails with AttributeError. |
| `FlowLogParser.FormatWebhookPayload` | cloud_function/flow_log_parser.py:198-237 | The step-by-step construction builds exactly the webhook record. |
| `FlowLogParser.WebhookPayloadKeys` | cloud_function/flow_log_parser.py:198-237 | `message` is always the summary. `timestamp` is present exactly when the entry has one. Each connection, traffic or nested key is present exactly when its source has it, with the identical value. No other key appears. |
| `FlowLogParser.CloudEventRoundTrip` | cloud_function/flow_log_parser.py:24-66 | An envelope built from a LogEntry unwraps to that entry, provided the JSON codec reads back what it wrote. A truthy `jsonPayload` is then extracted unchanged. |
| `LmClient.BaseUrl` | cloud_function/lm_client.py:39-41 | The base URL is "https://", the company name, ".", and the domain. |
| `LmClient.IngestRequest` | cloud_function/lm_client.py:56-72 | The ingest request goes to base + "/rest/log/ingest". Its headers are exactly Authorization, `Content-Type: application/json` and `X-Version: 3`, and its body is the JSON array of the payloads. Authorization is the LMv1 token for the configured access id and key, over "POST", "/log/ingest" and that body. Without an access key it fails with AttributeError. |
| `LmClient.WebhookRequest` | cloud_function/lm_client.py:102-110 | The webhook request goes to base + "/rest/api/v1/webhook/ingest/" + source name. Its headers are exactly the Bearer header and the JSON content type, and its body is one object. |
| `LmClient.Accepted` | cloud_function/lm_client.py:76-77 | Success is exactly status 200 or 202. |
| `LmClient.IngestResult` | cloud_function/lm_client.py:56-86 | The ingest send never lets RequestException out. It raises only without an access key, and otherwise returns whether the response was accepted. |
| `LmClient.WebhookResult` | cloud_function/lm_client.py:102-121 | The webhook send always returns a boolean: whether the response was accepted. |
| `LmClient.SignedBodyIsSentBody` | cloud_function/lm_client.py:56-75 | When the access id is present and has no ':' and the access key is present, the request is built, and its Authorization token verifies against "POST", "/log/ingest" and the request's own body, so the signed body is the sent body. Its first field is "LMv1 " plus the configured access id. |
| `LmClient.ValidatedIngestReturns` | cloud_function/lm_client.py:56-86 | A configuration that passed ingest-mode validation never makes the ingest send raise. |
| `LmClient.LMClient.constructor` | cloud_function/lm_client.py:34-41 | The client keeps its configuration, and its base URL is the configuration's. |
| `LmClient.LMClient.SendToIngestApi` | cloud_function/lm_client.py:43-86 | The method sends the ingest request, or nothing when it cannot be built, and returns the ingest result. |
| `LmClient.LMClient.SendToWebhook` | cloud_function/lm_client.py:88-121 | The method sends the webhook request and returns the webhook result. |
| `EntryPoint.Unwrap` | cloud_function/main.py:55-57 | The first block succeeds exactly when parsing and extraction both succeed. Its failures are ValueErrors or AttributeErrors. |
| `EntryPoint.Settle` | cloud_function/main.py:89-96 | A send result is re-raised exactly when it is a RequestException. Any other exception is swallowed, and a returned boolean is reported as delivered. |
| `EntryPoint.Forward` | cloud_function/main.py:62-92 | The second block never skips and makes at most one call, on the configured endpoint. An ingest call carries a one-element list. A delivered or raised outcome is the client's answer to that call. |
| `EntryPoint.Send` | cloud_function/main.py:69-78 | The mode branch makes at most one call, on the configured endpoint, and reports the client's answer to it. |
| `EntryPoint.Handle` | cloud_function/main.py:55-96 | The handler skips an event exactly when the first block raises a ValueError, and then makes no call. Otherwise it makes at most one call, of the configured kind. |
| `EntryPoint.WebhookModeSendsOnce` | cloud_function/main.py:69-73 | In webhook mode a well-formed flow log gives exactly one webhook call, with the webhook record. |
| `EntryPoint.IngestModeSendsOnce` | cloud_function/main.py:74-78 | In ingest mode a well-formed flow log gives exactly one ingest call, with the one-element list of the ingest record. |
| `EntryPoint.FalseResultReturnsNormally` | cloud_function/main.py:80-87 | A client that always returns false never yields a successful delivery. The handler raises only from the first block. |
| `EntryPoint.OnlyFirstBlockOrRequestExceptionEscapes` | cloud_function/main.py:55-96 | The handler raises only for a first-block exception that is not a ValueError, or for a RequestException the one client call raised. |
| `EntryPoint.RealClientNeverReraises` | cloud_function/main.py:89-92 | With the real client the re-raise branch is dead. The handler raises only for a first-block AttributeError. |
| `EntryPoint.StringDataEscapes` | cloud_function/main.py:55-60 | A `data` field that is a non-empty string makes the handler raise AttributeError instead of skipping the event. |
| `EntryPoint.Relay.constructor` | cloud_function/main.py:25-27 | A cold start has no configuration, no client and is not initialised. |
| `EntryPoint.Relay.Init` | cloud_function/main.py:30-35 | A successful load stores the configuration and a fresh client and sets the initialised flag. A failing load changes nothing and reports the load's error. |
| `EntryPoint.Relay.HandlePubsub` | cloud_function/main.py:38-96 | Initialisation happens once, and later calls keep the state. A first call whose load succeeds stores that configuration and a fresh client. An initialisation error escapes without sending and leaves the configuration and client as they were. Once initialised, the outcome and the requests put on the wire are those of `Handle` with the real client. |
| `EntryPoint.Relay.Process` | cloud_function/main.py:55-60 | The two blocks through this state's client give `Handle`'s outcome and requests. |
| `EntryPoint.Relay.Deliver` | cloud_function/main.py:62-68 | The second block through this state's client gives `Forward`'s outcome and requests. |
| `EntryPoint.Relay.SendPayload` | cloud_function/main.py:69-78 | The mode branch through this state's client gives `Send`'s outcome and requests. |
| `EntryPoint.Relay.SendWebhook` | cloud_function/main.py:69-73 | Webhook mode formats the record, posts it through the client, and settles the result. |
| `EntryPoint.Relay.SendIngest` | cloud_function/main.py:74-78 | Ingest mode formats the record, posts it as a one-element list, and settles the result. |

## Left out

- HTTP transport: the pooled `requests.Session`, its `HTTPAdapter` and the urllib3 retry policy (cloud_function/lm_client.py:18-23, 35-38). The transport is a function from a request to its final status, or to a connection failure once retries are exhausted. Backoff timing and the retry count are not modelled.
- LmAuth.TokenVerifies: stated only for access ids without ':'. The source does not reject such an id, but a token made for one splits on ':' into more than three fields, so its fields cannot be read back.
- HMAC-SHA256 and the UTF-8 encoding of its key and message are one uninterpreted function returning 32 octets. Properties that depend on collision resistance are not stated.
- FlowLogParser.ParsePubsubMessage: base64 decoding is strict, as in section 4 of RFC 4648. Python's `b64decode` in its default non-validating mode discards characters outside the alphabet. Some envelopes Python accepts therefore end here with the base64 ValueError.
- FlowLogParser.ParsePubsubMessage: the text of the caught exception, which the source appends to the two decode errors, is not modelled. A `UnicodeDecodeError` from `json.loads`, a ValueError subclass, is folded into the JSON-failure reason. The handler skips the event either way.
- JSON (de)serialisation: `json.loads`, `json.dumps`, `str.encode("utf-8")` and `str()` of a list or dict are abstract parameters. `FlowLogParser.CloudEventRoundTrip` assumes the codec round trip for the entry at hand as a precondition.
- JSON numbers are integers. Floating-point values, and Python's rendering of them in the summary line, are not modelled.
- Dict order: objects are maps, so the insertion order of keys, and with it the key order of the serialised body, is not modelled.
- Configuration.ParseBool: lower-casing changes only ASCII letters, while Python's `str.lower` also folds non-ASCII letters. No non-ASCII spelling could become "true", "1" or "yes" in either case.
- `_load_from_secret_manager` (cloud_function/config.py:85-107) is GCP client I/O. It is the `secret` parameter, a function from secret id to an optional value.
- Logging is not modelled: the warning, info and error calls in main.py, and the error logs in the send methods. This includes the `metadata.get("src_ip", "?")` lookups in main.py:66-67, which only feed the log line.
- The clock: `time.time()` is read by the caller and passed in as `epochMs`.
- The `functions_framework` decorator is not modelled, and neither is Pub/Sub's acknowledgement or redelivery. `Raised` marks an invocation Pub/Sub redelivers.
- Concurrent invocations sharing the module-level state are not modelled. `Relay` runs one invocation at a time.
