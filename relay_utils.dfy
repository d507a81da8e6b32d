/** The relay's helpers: saving an analysis result under a timestamped name and
    forwarding a payload to the Spring back end. The file write and the HTTP POST
    are oracles; what the model keeps is the naming, the request that is built
    and the classification of what came back. */
module RelayUtils {
  import opened Common

  // ---------------------------------------------------------------------
  // save_analysis_result
  // ---------------------------------------------------------------------

  /** A local wall-clock reading, as datetime.now() gives it. */
  datatype DateTime = DateTime(year: nat, month: nat, day: nat, hour: nat, minute: nat, second: nat)

  predicate ValidDateTime(t: DateTime)
  {
    1 <= t.month <= 12 && 1 <= t.day <= 31 && t.hour < 24 && t.minute < 60 && t.second < 60
  }

  /** Two decimal digits, zero-padded (strftime %m, %d, %H, %M, %S). */
  function Pad2(n: nat): (r: string)
    requires n < 100
    ensures |r| == 2 && AllDigits(r) && DigitsValue(r) == n
  {
    var r := [DigitChar(n / 10), DigitChar(n % 10)];
    assert r[..1] == [DigitChar(n / 10)] && r[..1][..0] == [];
    assert DigitsValue(r[..1]) == n / 10;
    r
  }

  /** strftime("%Y%m%d_%H%M%S"). */
  function Timestamp(t: DateTime): string
    requires ValidDateTime(t)
  {
    NatToString(t.year) + Pad2(t.month) + Pad2(t.day) + "_" + Pad2(t.hour) + Pad2(t.minute) + Pad2(t.second)
  }

  /** For a four-digit year the timestamp is "YYYYMMDD_HHMMSS": 15 characters,
      digits everywhere except the '_' at index 8. */
  lemma TimestampShape(t: DateTime)
    requires ValidDateTime(t) && 1000 <= t.year <= 9999
    ensures var s := Timestamp(t);
            |s| == 15 && s[8] == '_'
            && forall i :: 0 <= i < 15 && i != 8 ==> IsDigit(s[i])
  {
    NatToStringLength(t.year, 4);
    var y := NatToString(t.year);
    assert y[0] != '0';
    DigitsValueBound(y);
    assert Pow10(3) == 1000;
    Pow10Inverse(3, |y|);
  }

  lemma {:induction false} DigitsValueBound(s: string)
    requires AllDigits(s)
    ensures DigitsValue(s) < Pow10(|s|)
  {
    if |s| > 0 {
      DigitsValueBound(s[..|s| - 1]);
    }
  }

  lemma Pow10Inverse(a: nat, b: nat)
    requires Pow10(a) < Pow10(b)
    ensures a < b
  {
    if b <= a {
      Pow10Mono(b, a);
    }
  }

  lemma {:induction false} Pow10Mono(a: nat, b: nat)
    requires a <= b
    ensures Pow10(a) <= Pow10(b)
  {
    if a < b {
      Pow10Mono(a, b - 1);
    }
  }

  /** os.path.join(dir, name) on POSIX for a single component. */
  function PathJoin(dir: string, name: string): string
  {
    if StartsWith(name, "/") then name
    else if dir == "" || EndsWith(dir, "/") then dir + name
    else dir + "/" + name
  }

  /** The file name save_analysis_result writes: "{prefix}_{timestamp}.json". */
  function ResultFileName(prefix: string, t: DateTime): (r: string)
    requires ValidDateTime(t)
    ensures StartsWith(r, prefix + "_") && EndsWith(r, ".json")
  {
    var r := prefix + "_" + Timestamp(t) + ".json";
    assert r[..|prefix + "_"|] == prefix + "_";
    r
  }

  /** save_analysis_result: the path written, or "" when the write raises.
      `writeSucceeds` is the outcome of opening and dumping to that path. */
  function SaveAnalysisResult(resultsDir: string, prefix: string, now: DateTime,
                              writeSucceeds: string -> bool): (r: string)
    requires ValidDateTime(now)
    ensures writeSucceeds(PathJoin(resultsDir, ResultFileName(prefix, now))) ==>
              r == PathJoin(resultsDir, ResultFileName(prefix, now))
    ensures !writeSucceeds(PathJoin(resultsDir, ResultFileName(prefix, now))) ==> r == ""
  {
    var path := PathJoin(resultsDir, ResultFileName(prefix, now));
    if writeSucceeds(path) then path else ""
  }

  /** A prefix that does not start with '/' lands inside the results directory. */
  lemma SavedUnderResultsDir(resultsDir: string, prefix: string, now: DateTime)
    requires ValidDateTime(now) && resultsDir != "" && !StartsWith(prefix, "/")
    ensures StartsWith(PathJoin(resultsDir, ResultFileName(prefix, now)), resultsDir)
  {
    var name := ResultFileName(prefix, now);
    if |prefix| > 0 {
      assert name[0] == prefix[0] && prefix[..1] == [prefix[0]];
    } else {
      assert name[0] == '_';
    }
    assert !StartsWith(name, "/");
    var p := PathJoin(resultsDir, name);
    assert p[..|resultsDir|] == resultsDir;
  }

  // ---------------------------------------------------------------------
  // send_to_backend
  // ---------------------------------------------------------------------

  const DEFAULT_BACKEND_URL: string := "http://localhost:8080"

  /** The POST that send_to_backend issues. */
  datatype PostRequest = PostRequest(url: string, headers: map<string, string>, body: Json)

  /** What parsing a non-empty response body as JSON gives. */
  datatype JsonParse = Parsed(value: Json) | ParseError(reason: string)

  /** What the HTTP client gives back: a response, or an exception it raised. */
  datatype PostOutcome =
    | Responded(status: int, text: string, json: JsonParse)
    | Raised(reason: string)

  /** The dictionary send_to_backend returns; absent keys are None. */
  datatype ForwardResult = ForwardResult(success: bool, statusCode: Option<int>,
                                         data: Option<Json>, message: Option<string>)

  /** `if auth_token:` — present and non-empty. */
  predicate Truthy(token: Option<string>)
  {
    token.Some? && token.value != ""
  }

  /** os.getenv("BACKEND_URL", default) followed by the endpoint. */
  function FullUrl(backendEnv: Option<string>, endpoint: string): string
  {
    backendEnv.GetOr(DEFAULT_BACKEND_URL) + endpoint
  }

  /** The headers dictionary of send_to_backend in utils.py. */
  function Headers(token: Option<string>): map<string, string>
  {
    var base := map["Content-Type" := "application/json"];
    if Truthy(token) then base["Authorization" := "Bearer " + token.value] else base
  }

  function BuildRequest(data: Json, endpoint: string, token: Option<string>,
                        backendEnv: Option<string>): PostRequest
  {
    PostRequest(FullUrl(backendEnv, endpoint), Headers(token), data)
  }

  /** The request goes to BACKEND_URL (or the default) + endpoint, always with a
      JSON content type, and with an Authorization header exactly when the
      token is truthy, holding "Bearer " + token. */
  lemma RequestShape(data: Json, endpoint: string, token: Option<string>, backendEnv: Option<string>)
    ensures var req := BuildRequest(data, endpoint, token, backendEnv);
            && (backendEnv.None? ==> req.url == "http://localhost:8080" + endpoint)
            && (backendEnv.Some? ==> req.url == backendEnv.value + endpoint)
            && "Content-Type" in req.headers && req.headers["Content-Type"] == "application/json"
            && ("Authorization" in req.headers <==> Truthy(token))
            && (Truthy(token) ==> req.headers["Authorization"] == "Bearer " + token.value)
            && req.headers.Keys <= {"Content-Type", "Authorization"}
            && req.body == data
  {
  }

  /** How send_to_backend in utils.py classifies the outcome of the POST. */
  function Classify(outcome: PostOutcome): (r: ForwardResult)
    ensures outcome.Raised? ==> !r.success && r.statusCode.None? && r.message.Some?
    ensures outcome.Responded? && outcome.status >= 400 ==>
              !r.success && r.statusCode == Some(outcome.status) && r.data.None?
    ensures outcome.Responded? && outcome.status < 400 && outcome.text == "" ==>
              r.success && r.statusCode == Some(outcome.status) && r.data == Some(JObj(map[]))
    ensures outcome.Responded? && outcome.status < 400 && outcome.text != "" && outcome.json.Parsed? ==>
              r.success && r.statusCode == Some(outcome.status) && r.data == Some(outcome.json.value)
    ensures r.success <==> outcome.Responded? && outcome.status < 400
                           && (outcome.text == "" || outcome.json.Parsed?)
  {
    match outcome
    case Raised(reason) =>
      ForwardResult(false, None, None, Some("백엔드 통신 중 오류 발생: " + reason))
    case Responded(status, text, json) =>
      if status >= 400 then
        ForwardResult(false, Some(status), None, Some("백엔드 응답 오류: " + text))
      else if text == "" then
        ForwardResult(true, Some(status), Some(JObj(map[])), None)
      else
        match json
        case Parsed(v) => ForwardResult(true, Some(status), Some(v), None)
        // response.json() raises inside the try: the generic failure dictionary
        case ParseError(reason) =>
          ForwardResult(false, None, None, Some("백엔드 통신 중 오류 발생: " + reason))
  }

  /** send_to_backend: build the request, hand it to the client, classify. */
  function SendToBackend(data: Json, endpoint: string, token: Option<string>,
                         backendEnv: Option<string>, post: PostRequest -> PostOutcome): ForwardResult
  {
    Classify(post(BuildRequest(data, endpoint, token, backendEnv)))
  }
}
