/** The pieces of the host language the relay leans on: bytes, optional
    values, and the exceptions a step can end with. A Python function that
    raises is modelled as one returning `Err`; the exception's class is kept
    because the entry point treats ValueError, RequestException and every
    other exception differently. */
module Runtime {

  newtype byte = x: int | 0 <= x < 256

  datatype Option<+T> = None | Some(value: T)

  /** Why a ValueError was raised: one case per `raise ValueError(...)`. */
  datatype Reason =
    | MissingData
    | MissingMessage
    | MissingMessageData
    | Base64Failure
    | JsonFailure
    | MissingPayload
    | EmptyPayload
    | MissingCompanyName
    | MissingBearerToken
    | MissingAccessCredentials

  /** The exception classes that matter to the relay. AttributeError stands
      for the duck-typing failures (`.get` on something that is not a dict,
      `.encode` on None). RequestException is the transport's failure after
      its own retries are exhausted. */
  datatype Exc =
    | ValueError(reason: Reason)
    | AttributeError
    | RequestException

  datatype Result<+T> = Ok(value: T) | Err(exc: Exc)

  /** Outcome of a check that returns nothing or raises. */
  datatype Check = Pass | Fail(exc: Exc)

  /** The fixed text of each ValueError; for the two decode failures the
      interpolated cause that follows the colon is not modelled. Each text
      is written as prefix + the word that names the cause + suffix. */
  function Message(r: Reason): string
  {
    match r
    case MissingData => "CloudEvent missing '" + "data" + "' field"
    case MissingMessage => "CloudEvent missing 'data." + "message" + "' field"
    case MissingMessageData => "Pub/Sub message missing '" + "data" + "' field"
    case Base64Failure => "Failed to base64 " + "decode" + " Pub/Sub message data: "
    case JsonFailure => "Decoded data is not valid " + "JSON" + ": "
    case MissingPayload => "LogEntry " + "missing" + " 'jsonPayload' field"
    case EmptyPayload => "LogEntry has " + "empty" + " 'jsonPayload'"
    case MissingCompanyName =>
      "" + "LM_COMPANY_NAME" + " must be set as an environment variable or available in GCP Secret Manager"
    case MissingBearerToken => "" + "LM_BEARER_TOKEN" + " is required when USE_WEBHOOK is true"
    case MissingAccessCredentials =>
      "" + "LM_ACCESS_ID" + " and LM_ACCESS_KEY are required when USE_WEBHOOK is false"
  }

  /** `w` occurs in `s` starting at index `i`. */
  predicate OccursAt(s: string, w: string, i: int)
  {
    0 <= i && i + |w| <= |s| && s[i..i + |w|] == w
  }

  ghost predicate Mentions(s: string, w: string)
  {
    exists i :: OccursAt(s, w, i)
  }

  lemma OccursBetween(a: string, w: string, b: string)
    ensures OccursAt(a + w + b, w, |a|)
  {
    assert (a + w + b)[|a|..|a| + |w|] == w;
  }

  /** Each message names what went wrong, so a reader of the log can tell
      the failures apart. */
  lemma MessagesNameTheirCause()
    ensures Mentions(Message(MissingData), "data")
    ensures Mentions(Message(MissingMessage), "message")
    ensures Mentions(Message(MissingMessageData), "data")
    ensures Mentions(Message(Base64Failure), "decode")
    ensures Mentions(Message(JsonFailure), "JSON")
    ensures Mentions(Message(MissingPayload), "missing")
    ensures Mentions(Message(EmptyPayload), "empty")
    ensures Mentions(Message(MissingCompanyName), "LM_COMPANY_NAME")
    ensures Mentions(Message(MissingBearerToken), "LM_BEARER_TOKEN")
    ensures Mentions(Message(MissingAccessCredentials), "LM_ACCESS_ID")
  {
    OccursBetween("CloudEvent missing '", "data", "' field");
    OccursBetween("CloudEvent missing 'data.", "message", "' field");
    OccursBetween("Pub/Sub message missing '", "data", "' field");
    OccursBetween("Failed to base64 ", "decode", " Pub/Sub message data: ");
    OccursBetween("Decoded data is not valid ", "JSON", ": ");
    OccursBetween("LogEntry ", "missing", " 'jsonPayload' field");
    OccursBetween("LogEntry has ", "empty", " 'jsonPayload'");
    OccursBetween("", "LM_COMPANY_NAME", " must be set as an environment variable or available in GCP Secret Manager");
    OccursBetween("", "LM_BEARER_TOKEN", " is required when USE_WEBHOOK is true");
    OccursBetween("", "LM_ACCESS_ID", " and LM_ACCESS_KEY are required when USE_WEBHOOK is false");
  }
}
