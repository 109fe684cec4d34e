/** LogicMonitor request authentication: the LMv1 HMAC token and the Bearer
    header. The clock is read by the caller and passed in as `epochMs`. */
module LmAuth {
  import opened Runtime
  import Text
  import Base64

  /** An HMAC-SHA256 digest: 32 octets. */
  type Digest = s: seq<byte> | |s| == 32 witness seq(32, i => 0 as byte)

  /** HMAC-SHA256 keyed by its first argument over its second, each taken as
      UTF-8. Its internals are not modelled. */
  type Hmac = (string, string) -> Digest

  const Scheme: string := "LMv1 "

  /** `str(int(time.time() * 1000))` once the clock has been read. */
  function EpochString(epochMs: nat): (s: string)
    ensures |s| >= 1 && Text.AllDigits(s)
    ensures Text.DecimalToNat(s) == epochMs
  {
    Text.DecimalRoundTrip(epochMs);
    Text.NatToDecimal(epochMs)
  }

  /** The string that is signed: method, epoch, body and resource path,
      concatenated in that order without separators. */
  function RequestVars(httpMethod: string, epoch: string, body: string, resourcePath: string): (r: string)
    ensures |r| == |httpMethod| + |epoch| + |body| + |resourcePath|
    ensures r[..|httpMethod|] == httpMethod
    ensures r[|httpMethod|..|httpMethod| + |epoch|] == epoch
    ensures r[|httpMethod| + |epoch|..|httpMethod| + |epoch| + |body|] == body
    ensures r[|r| - |resourcePath|..] == resourcePath
  {
    httpMethod + epoch + body + resourcePath
  }

  /** `generate_lmv1_token`: the epoch is rendered once and used both in the
      signed string and as the token's last field. */
  function GenerateLmv1Token(
    hmac: Hmac, epochMs: nat, accessId: string, accessKey: string,
    httpMethod: string, resourcePath: string, body: string := ""): (token: string)
    ensures |token| >= |Scheme| + |accessId| + 1 + |EpochString(epochMs)| + 1
    ensures token[..|Scheme| + |accessId| + 1] == Scheme + accessId + ":"
    ensures token[|token| - |EpochString(epochMs)| - 1..] == ":" + EpochString(epochMs)
  {
    var epoch := EpochString(epochMs);
    var signature := Base64.Encode(hmac(accessKey, RequestVars(httpMethod, epoch, body, resourcePath)));
    var head, tail := Scheme + accessId + ":", ":" + epoch;
    assert Scheme + accessId + ":" + signature + ":" + epoch == head + signature + tail;
    head + signature + tail
  }

  /** How the receiving side checks a token against the request it came
      with: three colon-separated fields, the scheme prefix, a decimal epoch,
      and a signature that decodes to the HMAC of the rebuilt string. */
  predicate Verifies(token: string, hmac: Hmac, accessKey: string,
                     httpMethod: string, resourcePath: string, body: string)
  {
    var parts := Text.Split(token, ':');
    && |parts| == 3
    && |parts[0]| >= |Scheme| && parts[0][..|Scheme|] == Scheme
    && |parts[2]| >= 1 && Text.AllDigits(parts[2])
    && Base64.Decode(parts[1]) == Some(hmac(accessKey, RequestVars(httpMethod, parts[2], body, resourcePath)))
  }

  /** With a colon-free access id the token splits into exactly three
      fields: scheme and id, the base64 signature, and the epoch. */
  lemma TokenFields(hmac: Hmac, epochMs: nat, accessId: string, accessKey: string,
                    httpMethod: string, resourcePath: string, body: string)
    requires ':' !in accessId
    ensures var epoch := EpochString(epochMs);
      Text.Split(GenerateLmv1Token(hmac, epochMs, accessId, accessKey, httpMethod, resourcePath, body), ':')
      == [ Scheme + accessId,
           Base64.Encode(hmac(accessKey, RequestVars(httpMethod, epoch, body, resourcePath))),
           epoch ]
  {
    var epoch := EpochString(epochMs);
    var signature := Base64.Encode(hmac(accessKey, RequestVars(httpMethod, epoch, body, resourcePath)));
    var head := Scheme + accessId;
    assert ':' !in head by {
      assert head == "LMv1 " + accessId;
      forall i | 0 <= i < |head| ensures head[i] != ':' {
        if i >= 5 { assert head[i] == accessId[i - 5]; }
      }
    }
    Base64.NoColon(hmac(accessKey, RequestVars(httpMethod, epoch, body, resourcePath)));
    assert ':' !in epoch by {
      forall i | 0 <= i < |epoch| ensures epoch[i] != ':' {
        assert Text.IsDigit(epoch[i]);
      }
    }
    var token := GenerateLmv1Token(hmac, epochMs, accessId, accessKey, httpMethod, resourcePath, body);
    assert token == head + [':'] + (signature + [':'] + epoch);
    Text.SplitAtFirst(head, ':', signature + [':'] + epoch);
    Text.SplitAtFirst(signature, ':', epoch);
    Text.SplitNoSeparator(epoch, ':');
  }

  /** Every token the relay generates verifies against the request it was
      generated for, and its last field reads back as the epoch used. */
  lemma TokenVerifies(hmac: Hmac, epochMs: nat, accessId: string, accessKey: string,
                      httpMethod: string, resourcePath: string, body: string)
    requires ':' !in accessId
    ensures Verifies(GenerateLmv1Token(hmac, epochMs, accessId, accessKey, httpMethod, resourcePath, body),
                     hmac, accessKey, httpMethod, resourcePath, body)
    ensures Text.DecimalToNat(Text.Split(GenerateLmv1Token(hmac, epochMs, accessId, accessKey, httpMethod, resourcePath, body), ':')[2]) == epochMs
  {
    TokenFields(hmac, epochMs, accessId, accessKey, httpMethod, resourcePath, body);
    var epoch := EpochString(epochMs);
    Base64.DecodeEncode(hmac(accessKey, RequestVars(httpMethod, epoch, body, resourcePath)));
    assert (Scheme + accessId)[..|Scheme|] == Scheme;
  }

  /** Without a body, the token signs method, epoch and path only. */
  lemma DefaultBodySignsMethodEpochPath(hmac: Hmac, epochMs: nat, accessId: string, accessKey: string,
                                        httpMethod: string, resourcePath: string)
    ensures var epoch := EpochString(epochMs);
      GenerateLmv1Token(hmac, epochMs, accessId, accessKey, httpMethod, resourcePath)
      == Scheme + accessId + ":" + Base64.Encode(hmac(accessKey, httpMethod + epoch + resourcePath)) + ":" + epoch
  {
    var epoch := EpochString(epochMs);
    assert RequestVars(httpMethod, epoch, "", resourcePath) == httpMethod + epoch + resourcePath;
  }

  /** `get_bearer_header`: one header, Authorization, holding the token after
      the "Bearer " prefix. */
  function GetBearerHeader(token: string): (headers: map<string, string>)
    ensures headers.Keys == {"Authorization"}
    ensures |headers["Authorization"]| == 7 + |token|
    ensures headers["Authorization"][..7] == "Bearer "
    ensures headers["Authorization"][7..] == token
  {
    map["Authorization" := "Bearer " + token]
  }
}
