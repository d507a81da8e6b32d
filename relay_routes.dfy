/** The relay's POST /analyze-image-url handler: validate the request, normalise
    the URL, download, analyse, generate questions, project them into the shape
    the Spring back end expects, save and forward the result (both outcomes
    ignored) and return the projection. Every effect is an oracle; the handler
    is a function from the request and the oracles to the answer and the list of
    effects it performed, in order. */
module RelayRoutes {
  import opened Common
  import opened RelayUrl
  import opened RelayUtils

  /** ImageUrlRequest (models.py): image_url is required, auth_token optional. */
  datatype ImageUrlRequest = ImageUrlRequest(imageUrl: string, authToken: Option<string>)

  /** An HTTPException with a detail of error_code and message. */
  datatype HttpError = HttpError(status: int, errorCode: string, message: string)

  datatype FetchOutcome =
    | Fetched(status: int, content: seq<byte>)
    | RequestError(reason: string)    // httpx.RequestError and subclasses
    | FetchRaised(reason: string)     // any other exception from the client

  /** One entry of the response's "questions" list. */
  datatype QuestionOut = QuestionOut(category: Json, level: Json, question: Json)

  datatype ResponseData = ResponseData(analysisResult: Json, questions: seq<QuestionOut>)

  datatype HandlerResult = Answered(body: ResponseData) | Fail(error: HttpError)

  /** What the handler did, in order. */
  datatype Effect =
    | Download(url: string)
    | Analyse
    | Generate
    | Save(prefix: string, path: string)
    | Forward(request: PostRequest, result: ForwardResult)

  datatype Outcome = Outcome(result: HandlerResult, effects: seq<Effect>)

  /** The world the handler talks to. */
  datatype Oracles = Oracles(
    parse: string -> Attempt<UrlParts>,          // urllib.parse.urlparse
    fetch: string -> FetchOutcome,               // httpx GET, timeout 30 s
    vision: seq<byte> -> Attempt<Json>,          // vision_client.analyze_image
    generate: Json -> Attempt<seq<Json>>,        // question_generator.generate_questions
    writeSucceeds: string -> bool,               // open + json.dump at that path
    post: PostRequest -> PostOutcome,            // httpx POST, timeout 30 s
    now: DateTime,
    resultsDir: string,
    backendEnv: Option<string>)

  const MISSING_IMAGE_URL: string := "MISSING_IMAGE_URL"
  const DOWNLOAD_FAILED: string := "DOWNLOAD_FAILED"
  const ANALYSIS_FAILED: string := "ANALYSIS_FAILED"
  const UNKNOWN_ERROR: string := "UNKNOWN_ERROR"
  const QUESTIONS_ENDPOINT: string := "/api/v1/questions/create"

  function MissingUrl(): HttpError
  {
    HttpError(400, MISSING_IMAGE_URL, "이미지 URL이 제공되지 않았습니다")
  }

  function DownloadStatusError(status: int): HttpError
  {
    HttpError(400, DOWNLOAD_FAILED, "이미지를 다운로드할 수 없습니다. 상태 코드: " + IntToString(status))
  }

  function DownloadRequestError(reason: string): HttpError
  {
    HttpError(400, DOWNLOAD_FAILED, "이미지를 다운로드할 수 없습니다: " + reason)
  }

  function AnalysisError(): HttpError
  {
    HttpError(500, ANALYSIS_FAILED, "이미지 분석 중 오류가 발생했습니다.")
  }

  function UnknownError(reason: string): HttpError
  {
    HttpError(500, UNKNOWN_ERROR, "이미지 URL 분석 중 오류가 발생했습니다: " + reason)
  }

  /** The fixed error taxonomy: each code with its status. */
  predicate InTaxonomy(e: HttpError)
  {
    || (e.status == 400 && e.errorCode == MISSING_IMAGE_URL)
    || (e.status == 400 && e.errorCode == DOWNLOAD_FAILED)
    || (e.status == 500 && e.errorCode == ANALYSIS_FAILED)
    || (e.status == 500 && e.errorCode == UNKNOWN_ERROR)
  }

  /** {"category": q["category"], "level": q["level"], "question": q["question"]};
      subscripting a non-dict or a missing key raises. */
  function ProjectQuestion(q: Json): (r: Attempt<QuestionOut>)
    ensures r.Done? <==> q.JObj? && "category" in q.fields && "level" in q.fields && "question" in q.fields
    ensures r.Done? ==> r.value == QuestionOut(q.fields["category"], q.fields["level"], q.fields["question"])
  {
    if !q.JObj? then Raise("subscript of a value that is not a dict")
    else if "category" !in q.fields then Raise("'category'")
    else if "level" !in q.fields then Raise("'level'")
    else if "question" !in q.fields then Raise("'question'")
    else Done(QuestionOut(q.fields["category"], q.fields["level"], q.fields["question"]))
  }

  /** The list comprehension of routes.py lines 78-84: the first failing entry raises. */
  function ProjectQuestions(qs: seq<Json>): (r: Attempt<seq<QuestionOut>>)
    ensures r.Done? <==> forall i :: 0 <= i < |qs| ==> ProjectQuestion(qs[i]).Done?
    ensures r.Done? ==> |r.value| == |qs|
                        && forall i :: 0 <= i < |qs| ==> r.value[i] == ProjectQuestion(qs[i]).value
  {
    if |qs| == 0 then Done([])
    else
      match ProjectQuestion(qs[0])
      case Raise(e) => Raise(e)
      case Done(first) =>
        match ProjectQuestions(qs[1..])
        case Raise(e) =>
          assert forall i :: 1 <= i < |qs| ==> qs[i] == qs[1..][i - 1];
          Raise(e)
        case Done(rest) =>
          assert forall i :: 1 <= i < |qs| ==> qs[i] == qs[1..][i - 1];
          Done([first] + rest)
  }

  function QuestionToJson(q: QuestionOut): Json
  {
    JObj(map["category" := q.category, "level" := q.level, "question" := q.question])
  }

  /** response_data as the JSON payload that is saved and forwarded. */
  function ResponseToJson(d: ResponseData): Json
  {
    JObj(map["analysis_result" := d.analysisResult,
             "questions" := JArr(seq(|d.questions|, i requires 0 <= i < |d.questions| => QuestionToJson(d.questions[i])))])
  }

  /** image_url.split('/')[-1].split('?')[0]. */
  function FileNameOf(url: string): (r: string)
    ensures !HasChar(r, '/') && !HasChar(r, '?')
  {
    var seg := AfterLast(url, '/');
    var r := BeforeFirst(seg, '?');
    PrefixKeepsAbsence(seg, r, '/');
    r
  }

  /** The prefix under which the result is saved. */
  function SavePrefix(url: string): string
  {
    "analysis_url_" + FileNameOf(url)
  }

  /** analyze_image_from_url. */
  function AnalyzeImageFromUrl(req: ImageUrlRequest, o: Oracles): (r: Outcome)
    requires ValidDateTime(o.now)
    ensures r.result.Fail? ==> InTaxonomy(r.result.error)
    ensures r.result.Answered? <==> |r.effects| == 5
  {
    if req.imageUrl == "" then Outcome(Fail(MissingUrl()), [])
    else
      match o.parse(req.imageUrl)
      case Raise(e) => Outcome(Fail(UnknownError(e)), [])
      case Done(parts) =>
        var url := Normalise(req.imageUrl, parts);
        match o.fetch(url)
        case RequestError(e) => Outcome(Fail(DownloadRequestError(e)), [Download(url)])
        case FetchRaised(e) => Outcome(Fail(UnknownError(e)), [Download(url)])
        case Fetched(status, content) =>
          if status != 200 then Outcome(Fail(DownloadStatusError(status)), [Download(url)])
          else
            match o.vision(content)
            case Raise(_) => Outcome(Fail(AnalysisError()), [Download(url), Analyse])
            case Done(analysis) =>
              match o.generate(analysis)
              case Raise(e) => Outcome(Fail(UnknownError(e)), [Download(url), Analyse, Generate])
              case Done(generated) =>
                match ProjectQuestions(generated)
                case Raise(e) => Outcome(Fail(UnknownError(e)), [Download(url), Analyse, Generate])
                case Done(questions) =>
                  var body := ResponseData(analysis, questions);
                  var prefix := SavePrefix(url);
                  var path := SaveAnalysisResult(o.resultsDir, prefix, o.now, o.writeSucceeds);
                  var fwd := BuildRequest(ResponseToJson(body), QUESTIONS_ENDPOINT, req.authToken, o.backendEnv);
                  Outcome(Answered(body), [Download(url), Analyse, Generate, Save(prefix, path), Forward(fwd, Classify(o.post(fwd)))])
  }

  /** The URL that is downloaded, when the parse succeeds. */
  function DownloadUrl(req: ImageUrlRequest, o: Oracles): string
    requires o.parse(req.imageUrl).Done?
  {
    Normalise(req.imageUrl, o.parse(req.imageUrl).value)
  }

  /** An empty image_url is a 400 MISSING_IMAGE_URL before anything is done. */
  lemma EmptyUrlRejected(req: ImageUrlRequest, o: Oracles)
    requires ValidDateTime(o.now) && req.imageUrl == ""
    ensures AnalyzeImageFromUrl(req, o) == Outcome(Fail(HttpError(400, MISSING_IMAGE_URL, MissingUrl().message)), [])
  {
  }

  /** A failed download (non-200 status or a request error) is 400
      DOWNLOAD_FAILED and the vision client is never called. */
  lemma DownloadFailureStops(req: ImageUrlRequest, o: Oracles)
    requires ValidDateTime(o.now) && req.imageUrl != "" && o.parse(req.imageUrl).Done?
    requires var f := o.fetch(DownloadUrl(req, o));
             f.RequestError? || (f.Fetched? && f.status != 200)
    ensures var r := AnalyzeImageFromUrl(req, o);
            && r.result.Fail? && r.result.error.status == 400 && r.result.error.errorCode == DOWNLOAD_FAILED
            && r.effects == [Download(DownloadUrl(req, o))]
            && Analyse !in r.effects
  {
  }

  /** After a good download: a vision failure is 500 ANALYSIS_FAILED with its
      fixed message; a generator failure or a malformed generated question is
      500 UNKNOWN_ERROR; neither saves nor forwards anything. */
  lemma FailuresAfterDownload(req: ImageUrlRequest, o: Oracles)
    requires ValidDateTime(o.now) && req.imageUrl != "" && o.parse(req.imageUrl).Done?
    requires var f := o.fetch(DownloadUrl(req, o)); f.Fetched? && f.status == 200
    ensures var f := o.fetch(DownloadUrl(req, o));
            var v := o.vision(f.content);
            var r := AnalyzeImageFromUrl(req, o);
            && (v.Raise? ==> r.result == Fail(AnalysisError()) && |r.effects| == 2)
            && (v.Done? && o.generate(v.value).Raise? ==>
                  r.result.Fail? && r.result.error.errorCode == UNKNOWN_ERROR && r.result.error.status == 500
                  && |r.effects| == 3)
            && (v.Done? && o.generate(v.value).Done? && ProjectQuestions(o.generate(v.value).value).Raise? ==>
                  r.result.Fail? && r.result.error.errorCode == UNKNOWN_ERROR && |r.effects| == 3)
  {
  }

  /** On success the body holds the analysis and one projected entry per
      generated question, in the same order, each with exactly category, level
      and question; the result is saved under SavePrefix(url) and forwarded to
      the questions endpoint. */
  lemma SuccessShape(req: ImageUrlRequest, o: Oracles)
    requires ValidDateTime(o.now)
    requires AnalyzeImageFromUrl(req, o).result.Answered?
    ensures var r := AnalyzeImageFromUrl(req, o);
            var url := DownloadUrl(req, o);
            var f := o.fetch(url);
            var analysis := o.vision(f.content).value;
            var generated := o.generate(analysis).value;
            && r.result.body.analysisResult == analysis
            && |r.result.body.questions| == |generated|
            && (forall i :: 0 <= i < |generated| ==>
                  generated[i].JObj?
                  && r.result.body.questions[i] == QuestionOut(generated[i].fields["category"],
                                                              generated[i].fields["level"],
                                                              generated[i].fields["question"]))
            && r.effects[3].Save? && r.effects[3].prefix == "analysis_url_" + FileNameOf(url)
            && r.effects[4].Forward?
            && r.effects[4].request == BuildRequest(ResponseToJson(r.result.body), QUESTIONS_ENDPOINT, req.authToken, o.backendEnv)
  {
  }

  /** The answer does not depend on the save or the forward: two worlds that
      agree on parse, download, vision and generator give the same result,
      whatever the file system, clock, back end URL or POST outcome. */
  lemma ResultIgnoresSaveAndForward(req: ImageUrlRequest, o1: Oracles, o2: Oracles)
    requires ValidDateTime(o1.now) && ValidDateTime(o2.now)
    requires o1.parse == o2.parse && o1.fetch == o2.fetch && o1.vision == o2.vision && o1.generate == o2.generate
    ensures AnalyzeImageFromUrl(req, o1).result == AnalyzeImageFromUrl(req, o2).result
  {
  }
}
