/**
 * `get_sign_up_responses` of google_functions/google_forms.py: the check of
 * the stored OAuth credentials, then the loop that turns the form's responses
 * into a dict from respondent email to the answer of the name question.
 *
 * The HTTP request is a parameter: either it failed (an HTTP error, a
 * connection error, a timeout, or a body that is not JSON) or it produced the
 * parsed JSON body.
 */
module GoogleForms {
  import opened Wrappers
  import opened JsonValues

  /** The attributes of the loaded `Credentials` object the check reads. */
  datatype Credentials = Credentials(valid: bool, expired: bool, refreshToken: Option<string>)

  /** The outcome of `requests.get(...)`, `raise_for_status()` and `response.json()`. */
  datatype Fetch = FetchFailed | Fetched(data: Json)

  /** The id of the form question whose answer is the respondent's name. */
  const NameQuestion: string := "778b574a"

  /** Truthiness of `creds.refresh_token`. */
  predicate HasRefreshToken(c: Credentials)
  {
    c.refreshToken.Some? && c.refreshToken.value != []
  }

  /**
   * The credential check: `Ok(refreshed)` when the function goes on to the
   * request, having refreshed the credentials or not, and `ValueError` when it
   * raises.
   */
  function CheckCredentials(creds: Option<Credentials>): (r: Result<bool>)
    ensures r.Err? ==> r.fault == ValueError
    ensures r == Ok(false) <==> creds.Some? && creds.value.valid
    ensures r == Ok(true) <==> creds.Some? && !creds.value.valid && creds.value.expired && HasRefreshToken(creds.value)
    ensures r.Err? <==> creds.None? || (!creds.value.valid && !(creds.value.expired && HasRefreshToken(creds.value)))
  {
    match creds
    case Some(c) =>
      if c.valid then Ok(false)
      else if c.expired && HasRefreshToken(c) then Ok(true)
      else Err(ValueError)
    case None => Err(ValueError)
  }

  /**
   * `resp.get('answers', {}).get('778b574a', {}).get('textAnswers', {}).get('answers', [{}])[0].get('value')`.
   */
  function NameAnswer(resp: Json): Result<Json>
  {
    var answers :- GetOr(resp, "answers", JObject(map[]));
    var question :- GetOr(answers, NameQuestion, JObject(map[]));
    var text :- GetOr(question, "textAnswers", JObject(map[]));
    var list :- GetOr(text, "answers", JArray([JObject(map[])]));
    var first :- At(list, 0);
    GetOr(first, "value", JNull)
  }

  /** A value Python can use as a dict key: lists and dicts are unhashable. */
  predicate Hashable(x: Json)
  {
    !x.JArray? && !x.JObject?
  }

  /**
   * One pass of the loop: the pair stored in `email_to_name` when both the
   * email and the name are truthy, `None` when the response is skipped, or
   * the exception raised.
   */
  function ResponseEntry(resp: Json): Result<Option<(Json, Json)>>
  {
    var email :- GetOr(resp, "respondentEmail", JNull);
    var name :- NameAnswer(resp);
    if Truthy(email) && Truthy(name) then
      if Hashable(email) then Ok(Some((email, name))) else Err(TypeError)
    else Ok(None)
  }

  /** `email_to_name` after the first `k` responses, or the exception one of them raised. */
  function ParseAfter(responses: seq<Json>, k: nat): Result<map<Json, Json>>
    requires k <= |responses|
  {
    if k == 0 then Ok(map[])
    else
      var acc :- ParseAfter(responses, k - 1);
      var entry :- ResponseEntry(responses[k - 1]);
      if entry.Some? then Ok(acc[entry.value.0 := entry.value.1]) else Ok(acc)
  }

  /** The body of the `try` after the request: the dict, or the exception raised while building it. */
  function ParseResponses(data: Json): Result<map<Json, Json>>
  {
    var responses :- GetOr(data, "responses", JArray([]));
    var items :- Iterate(responses);
    ParseAfter(items, |items|)
  }

  /**
   * What `get_sign_up_responses()` returns, or the `ValueError` it raises: any
   * failure of the request or exception while parsing gives `{}`.
   */
  function SignUpResponses(creds: Option<Credentials>, fetch: Fetch): Result<map<Json, Json>>
  {
    var _ :- CheckCredentials(creds);
    match fetch
    case FetchFailed => Ok(map[])
    case Fetched(data) =>
      match ParseResponses(data)
      case Ok(emailToName) => Ok(emailToName)
      case Err(_) => Ok(map[])
  }

  /** `get_sign_up_responses()`, with the credentials and the request outcome as parameters. */
  method GetSignUpResponses(creds: Option<Credentials>, fetch: Fetch) returns (r: Result<map<Json, Json>>)
    ensures r == SignUpResponses(creds, fetch)
  {
    var gate := CheckCredentials(creds);
    if gate.Err? {
      return Err(gate.fault);
    }
    if fetch.FetchFailed? {
      return Ok(map[]);
    }
    var responses := GetOr(fetch.data, "responses", JArray([]));
    if responses.Err? {
      return Ok(map[]);
    }
    var items := Iterate(responses.value);
    if items.Err? {
      return Ok(map[]);
    }
    var emailToName: map<Json, Json> := map[];
    for k := 0 to |items.value|
      invariant ParseAfter(items.value, k) == Ok(emailToName)
    {
      var resp := items.value[k];
      var email := GetOr(resp, "respondentEmail", JNull);
      if email.Err? {
        ParseErrorSticks(items.value, k + 1, |items.value|);
        return Ok(map[]);
      }
      var name := NameAnswer(resp);
      if name.Err? {
        ParseErrorSticks(items.value, k + 1, |items.value|);
        return Ok(map[]);
      }
      if Truthy(email.value) && Truthy(name.value) {
        if !Hashable(email.value) {
          ParseErrorSticks(items.value, k + 1, |items.value|);
          return Ok(map[]);
        }
        emailToName := emailToName[email.value := name.value];
      }
    }
    return Ok(emailToName);
  }

  /** Once a response has raised, the loop never resumes. */
  lemma {:induction false} ParseErrorSticks(responses: seq<Json>, j: nat, k: nat)
    requires j <= k <= |responses|
    requires ParseAfter(responses, j).Err?
    ensures ParseAfter(responses, k).Err?
    decreases k - j
  {
    if j < k {
      ParseErrorSticks(responses, j, k - 1);
    }
  }

  /** The parse fails exactly when some response raises. */
  lemma {:induction false} ParseFailsIffSomeResponseRaises(responses: seq<Json>, k: nat)
    requires k <= |responses|
    ensures ParseAfter(responses, k).Err? <==> exists j :: 0 <= j < k && ResponseEntry(responses[j]).Err?
  {
    if k > 0 {
      ParseFailsIffSomeResponseRaises(responses, k - 1);
      if ResponseEntry(responses[k - 1]).Err? {
        assert ParseAfter(responses, k).Err?;
      }
    }
  }

  /** The emails of the first `k` responses that are stored. */
  function StoredEmails(responses: seq<Json>, k: nat): set<Json>
    requires k <= |responses|
  {
    if k == 0 then {}
    else
      var e := ResponseEntry(responses[k - 1]);
      StoredEmails(responses, k - 1) + (if e.Ok? && e.value.Some? then {e.value.value.0} else {})
  }

  /** On success the dict's keys are exactly the emails of the responses with a truthy email and name. */
  lemma {:induction false} ParsedKeys(responses: seq<Json>, k: nat)
    requires k <= |responses| && ParseAfter(responses, k).Ok?
    ensures ParseAfter(responses, k).value.Keys == StoredEmails(responses, k)
  {
    if k > 0 {
      ParsedKeys(responses, k - 1);
    }
  }

  /** Whether response `resp` stores `email` as a key. */
  predicate Stores(resp: Json, email: Json)
  {
    var e := ResponseEntry(resp);
    e.Ok? && e.value.Some? && e.value.value.0 == email
  }

  /** The latest of the first `k` responses that stores email `email`. */
  function LastFor(responses: seq<Json>, k: nat, email: Json): (r: Option<nat>)
    requires k <= |responses|
    ensures r.Some? ==> r.value < k && Stores(responses[r.value], email)
    ensures r.Some? ==> forall j :: r.value < j < k ==> !Stores(responses[j], email)
    ensures r.None? <==> email !in StoredEmails(responses, k)
  {
    if k == 0 then None
    else if Stores(responses[k - 1], email) then Some(k - 1)
    else LastFor(responses, k - 1, email)
  }

  /** A later response with the same email overwrites an earlier one: the name stored is the latest response's. */
  lemma {:induction false} ParsedLastWins(responses: seq<Json>, k: nat, email: Json)
    requires k <= |responses| && ParseAfter(responses, k).Ok? && LastFor(responses, k, email).Some?
    ensures var m := ParseAfter(responses, k).value;
      email in m && m[email] == ResponseEntry(responses[LastFor(responses, k, email).value]).value.value.1
  {
    if !Stores(responses[k - 1], email) {
      ParsedLastWins(responses, k - 1, email);
    }
  }

  /** A request that failed, or a payload without `'responses'`, gives `{}` once the credentials pass. */
  lemma NoResponsesGivesEmpty(creds: Option<Credentials>, fetch: Fetch)
    requires CheckCredentials(creds).Ok?
    requires fetch.FetchFailed? || (fetch.data.JObject? && "responses" !in fetch.data.fields)
    ensures SignUpResponses(creds, fetch) == Ok(map[])
  {
  }

  /**
   * An exception raised by any one response (for example an empty `answers`
   * list, whose `[0]` raises `IndexError`) discards every response: `{}`.
   */
  lemma AnyRaiseGivesEmpty(creds: Option<Credentials>, data: Json, j: nat)
    requires CheckCredentials(creds).Ok? && data.JObject? && "responses" in data.fields
    requires data.fields["responses"].JArray?
    requires j < |data.fields["responses"].items| && ResponseEntry(data.fields["responses"].items[j]).Err?
    ensures SignUpResponses(creds, Fetched(data)) == Ok(map[])
  {
    var items := data.fields["responses"].items;
    ParseFailsIffSomeResponseRaises(items, |items|);
  }

  /** `resp['answers']['778b574a']['textAnswers']['answers'][0]['value']`: the name path with no defaults. */
  function NamePath(resp: Json): Result<Json>
  {
    var answers :- Get(resp, "answers");
    var question :- Get(answers, NameQuestion);
    var text :- Get(question, "textAnswers");
    var list :- Get(text, "answers");
    var first :- At(list, 0);
    Get(first, "value")
  }

  /**
   * A response is stored exactly when it is a dict whose `respondentEmail` is
   * truthy and hashable and whose name path is present all the way down to a
   * truthy `value`: each `.get` default leads to `None`, never to a name.
   */
  lemma StoredIffPathPresent(resp: Json, email: Json, name: Json)
    ensures ResponseEntry(resp) == Ok(Some((email, name))) <==>
      resp.JObject? && "respondentEmail" in resp.fields && resp.fields["respondentEmail"] == email
      && Truthy(email) && Hashable(email) && NamePath(resp) == Ok(name) && Truthy(name)
  {
  }

  /** An empty list of text answers makes the name lookup raise `IndexError`. */
  lemma EmptyAnswersRaise(resp: map<string, Json>, answers: map<string, Json>, question: map<string, Json>, text: map<string, Json>)
    requires "answers" in resp && resp["answers"] == JObject(answers)
    requires NameQuestion in answers && answers[NameQuestion] == JObject(question)
    requires "textAnswers" in question && question["textAnswers"] == JObject(text)
    requires "answers" in text && text["answers"] == JArray([])
    ensures NameAnswer(JObject(resp)) == Err(IndexError)
  {
  }
}
