/** The media package's controllers: TestController, which exercises the
    FastAPI analysis server, and ImageAnalysisController, which uploads an
    image, has it analysed and stores the result. Each handler turns every
    outcome into an HTTP status and a JSON body; the FastAPI server, S3 and
    the JDK's own exception texts are parameters. */
module MediaControllers {
  import opened Common
  import opened ContentStore
  import UserEntity
  import UserRepo
  import MA = MediaAnalysis
  import S3Storage

  /** A handler's reply: the HTTP status and the JSON body. */
  datatype Response = Response(status: int, body: Json)

  /** FastApiClient.analyzeImageByUrl(url, token): the response body, None
      when the server sent none, or the failure's message. */
  type AnalyzeCall = (string, Option<string>) -> Attempt<Option<map<string, Json>>>

  /** A body that may be null, as a JSON value. */
  function BodyOf(body: Option<map<string, Json>>): Json
  {
    if body.Some? then JObj(body.value) else JNull
  }

  /** Map.of: refuses a null value with a NullPointerException. */
  function MapOf(entries: map<string, Json>): (r: Result<Json>)
    ensures r.Ok? <==> forall k :: k in entries ==> entries[k] != JNull
    ensures r.Ok? ==> r.value == JObj(entries)
    ensures r.Err? ==> r.error == NullPointer
  {
    if exists k :: k in entries && entries[k] == JNull then Err(NullPointer) else Ok(JObj(entries))
  }

  /** The body of every error reply. */
  function ErrorBody(message: string): Json
  {
    JObj(map["status" := JStr("error"), "message" := JStr(message)])
  }

  /** A reply built with Map.of inside the handler's try block: a null value
      sends it to the handler's catch, which answers 500 with `failed`
      followed by the exception's message. */
  function Reply(status: int, entries: map<string, Json>, failed: string, jdk: Exception -> string): (r: Response)
    ensures (forall k :: k in entries ==> entries[k] != JNull) ==> r == Response(status, JObj(entries))
    ensures (exists k :: k in entries && entries[k] == JNull) ==>
              r == Response(500, ErrorBody(failed + jdk(NullPointer)))
  {
    match MapOf(entries)
    case Ok(body) => Response(status, body)
    case Err(e) => Response(500, ErrorBody(failed + MessageOf(e, jdk)))
  }

  /** The authentication token: the header without its "Bearer " prefix,
      and no token when the header is missing or has another scheme. */
  function BearerToken(authHeader: Option<string>): (r: Option<string>)
    ensures r.Some? <==> authHeader.Some? && StartsWith(authHeader.value, "Bearer ")
    ensures r.Some? ==> authHeader.value == "Bearer " + r.value
  {
    if authHeader.Some? && StartsWith(authHeader.value, "Bearer ") then
      var token := authHeader.value[7..];
      assert authHeader.value == authHeader.value[..7] + token;
      Some(token)
    else None
  }

  /** Stripping the prefix gives back exactly the token that was sent. */
  lemma BearerTokenRoundTrip(token: string)
    ensures BearerToken(Some("Bearer " + token)) == Some(token)
  {
    assert ("Bearer " + token)[..7] == "Bearer ";
  }

  // ---------------------------------------------------------------------
  // TestController
  // ---------------------------------------------------------------------

  const NO_IMAGE_URL: string := "이미지 URL이 제공되지 않았습니다."
  const S3_TEST_OK: string := "S3 URL 기반 이미지 분석 테스트 성공"
  const S3_TEST_FAILED: string := "S3 URL 기반 이미지 분석 테스트 실패: "
  const CONNECTION_OK: string := "FastAPI 서버 연결 테스트 성공"
  const CONNECTION_FAILED: string := "FastAPI 서버 연결 테스트 실패: "
  const HEALTH_OK: string := "FastAPI 서버가 정상적으로 동작 중입니다"
  const HEALTH_FAILED: string := "FastAPI 서버 상태 확인 실패"
  const HEALTH_PATH: string := "/api/v1/health-check"
  const S3_SCHEME: string := "s3://"
  const S3_HOST: string := ".s3.ap-northeast-2.amazonaws.com/"
  const TEST_IMAGE_URL: string :=
    "https://mini-album-storage.s3.ap-northeast-2.amazonaws.com/users/ruggy245%40naver.com/profile/a315a095-b4d1-4715-a76d-c7317ccec9d7-%E1%84%89%E1%85%B3%E1%84%8F%E1%85%B3%E1%84%85%E1%85%B5%E1%86%AB%E1%84%89%E1%85%A3%E1%86%BA+2025-02-26+%E1%84%8B%E1%85%A9%E1%84%8C%E1%85%A5%E1%86%AB+3.32.27.png"

  /** convertS3ProtocolUrlToObjectUrl: "s3://B/K" becomes the virtual-hosted
      URL of key K in bucket B in ap-northeast-2, B ending at the first '/'.
      Without a '/' after the bucket, substring fails. */
  function S3ObjectUrl(url: string): (r: Result<string>)
    requires StartsWith(url, S3_SCHEME)
    ensures r.Err? <==> !HasChar(url[5..], '/')
    ensures r.Err? ==> r.error == StringIndexOutOfBounds
    ensures r.Ok? ==> StartsWith(r.value, "https://")
  {
    var rest := url[5..];
    var slash := IndexOfChar(rest, '/');
    if slash < 0 then Err(StringIndexOutOfBounds)
    else
      var s := "https://" + rest[..slash] + S3_HOST + rest[slash + 1..];
      assert s[..8] == "https://";
      Ok(s)
  }

  /** The bucket and the key are recovered exactly, whatever the key holds
      (slashes included), as long as the bucket has no '/'. */
  lemma {:induction false} S3ObjectUrlSplitsAtFirstSlash(bucket: string, key: string)
    requires !HasChar(bucket, '/')
    ensures StartsWith(S3_SCHEME + bucket + "/" + key, S3_SCHEME)
    ensures S3ObjectUrl(S3_SCHEME + bucket + "/" + key) == Ok("https://" + bucket + S3_HOST + key)
  {
    var url := S3_SCHEME + bucket + "/" + key;
    assert url[..5] == S3_SCHEME;
    var rest := url[5..];
    assert rest == bucket + "/" + key;
    assert rest[|bucket|] == '/';
    assert forall j :: 0 <= j < |bucket| ==> rest[j] == bucket[j];
    var slash := IndexOfChar(rest, '/');
    assert slash == |bucket|;
    assert rest[..slash] == bucket;
    assert rest[slash + 1..] == key;
  }

  /** The URL sent to FastAPI: an "s3://" URL is rewritten, any other is
      used as it is. */
  function AnalysisUrl(imageUrl: string): (r: Result<string>)
    ensures !StartsWith(imageUrl, S3_SCHEME) ==> r == Ok(imageUrl)
    ensures StartsWith(imageUrl, S3_SCHEME) ==> r == S3ObjectUrl(imageUrl)
  {
    if StartsWith(imageUrl, S3_SCHEME) then S3ObjectUrl(imageUrl) else Ok(imageUrl)
  }

  /** testAnalyzeS3Url: a missing or empty image_url is a 400 before anything
      is sent; otherwise the (rewritten) URL is analysed without a token and
      echoed with the result. Every failure is a 500. */
  function AnalyzeS3Url(imageUrl: Option<string>, analyze: AnalyzeCall, jdk: Exception -> string): (r: Response)
    ensures r.status == 400 <==> imageUrl.None? || imageUrl.value == ""
    ensures r.status == 400 ==> r.body == ErrorBody(NO_IMAGE_URL)
    ensures r.status in {200, 400, 500}
    ensures r.status == 200 <==>
              && imageUrl.Some? && imageUrl.value != ""
              && AnalysisUrl(imageUrl.value).Ok?
              && analyze(AnalysisUrl(imageUrl.value).value, None).Done?
              && analyze(AnalysisUrl(imageUrl.value).value, None).value.Some?
    ensures r.status == 200 ==>
              r.body.JObj? && "image_url" in r.body.fields
              && r.body.fields["image_url"] == JStr(AnalysisUrl(imageUrl.value).value)
  {
    if imageUrl.None? || imageUrl.value == "" then Response(400, ErrorBody(NO_IMAGE_URL))
    else
      match AnalysisUrl(imageUrl.value)
      case Err(e) => Response(500, ErrorBody(S3_TEST_FAILED + MessageOf(e, jdk)))
      case Ok(url) =>
        match analyze(url, None)
        case Raise(reason) => Response(500, ErrorBody(S3_TEST_FAILED + reason))
        case Done(result) =>
          var entries := map["status" := JStr("success"), "message" := JStr(S3_TEST_OK),
                             "image_url" := JStr(url), "analysis_result" := BodyOf(result)];
          assert entries.Keys == {"status", "message", "image_url", "analysis_result"};
          assert result.None? ==> entries["analysis_result"] == JNull;
          Reply(200, entries, S3_TEST_FAILED, jdk)
  }

  /** An "s3://" URL without a key separator fails in the rewrite: a 500
      whose message is that of the StringIndexOutOfBoundsException. */
  lemma S3UrlWithoutKeyIsServerError(bucket: string, analyze: AnalyzeCall, jdk: Exception -> string)
    requires !HasChar(bucket, '/')
    ensures AnalyzeS3Url(Some(S3_SCHEME + bucket), analyze, jdk) ==
              Response(500, ErrorBody(S3_TEST_FAILED + jdk(StringIndexOutOfBounds)))
  {
    var url := S3_SCHEME + bucket;
    assert url[..5] == S3_SCHEME;
    assert url[5..] == bucket;
  }

  /** testFastApiConnection: the fixed test image is analysed with the
      caller's Bearer token; the reply carries FastAPI's response. */
  function FastApiConnection(authHeader: Option<string>, analyze: AnalyzeCall, jdk: Exception -> string): (r: Response)
    ensures r.status in {200, 500}
    ensures r.status == 200 <==>
              analyze(TEST_IMAGE_URL, BearerToken(authHeader)).Done? && analyze(TEST_IMAGE_URL, BearerToken(authHeader)).value.Some?
    ensures r.status == 200 ==>
              r.body.JObj? && "response" in r.body.fields
              && r.body.fields["response"] == JObj(analyze(TEST_IMAGE_URL, BearerToken(authHeader)).value.value)
    ensures analyze(TEST_IMAGE_URL, BearerToken(authHeader)).Raise? ==>
              r == Response(500, ErrorBody(CONNECTION_FAILED + analyze(TEST_IMAGE_URL, BearerToken(authHeader)).reason))
  {
    match analyze(TEST_IMAGE_URL, BearerToken(authHeader))
    case Raise(reason) => Response(500, ErrorBody(CONNECTION_FAILED + reason))
    case Done(response) =>
      var entries := map["status" := JStr("success"), "message" := JStr(CONNECTION_OK), "response" := BodyOf(response)];
      assert entries.Keys == {"status", "message", "response"};
      assert response.None? ==> entries["response"] == JNull;
      Reply(200, entries, CONNECTION_FAILED, jdk)
  }

  /** checkFastApiHealth: `health` is the GET of FastAPI's health-check URL,
      giving its status code and body or the failure's message. A 2xx status
      is reported as 200, any other status is passed on; the body goes back
      as fastapi_status. */
  function FastApiHealth(fastApiUrl: string, health: string -> Attempt<(int, Option<map<string, Json>>)>,
                         jdk: Exception -> string): (r: Response)
    ensures health(fastApiUrl + HEALTH_PATH).Raise? ==>
              r == Response(500, ErrorBody(HEALTH_FAILED + ": " + health(fastApiUrl + HEALTH_PATH).reason))
    ensures health(fastApiUrl + HEALTH_PATH).Done? && health(fastApiUrl + HEALTH_PATH).value.1.Some? ==>
              var code := health(fastApiUrl + HEALTH_PATH).value.0;
              r.status == (if 200 <= code < 300 then 200 else code)
  {
    match health(fastApiUrl + HEALTH_PATH)
    case Raise(reason) => Response(500, ErrorBody(HEALTH_FAILED + ": " + reason))
    case Done(answer) =>
      if 200 <= answer.0 < 300 then
        Reply(200, map["status" := JStr("success"), "message" := JStr(HEALTH_OK), "fastapi_status" := BodyOf(answer.1)],
              HEALTH_FAILED + ": ", jdk)
      else
        Reply(answer.0, map["status" := JStr("error"), "message" := JStr(HEALTH_FAILED), "fastapi_status" := BodyOf(answer.1)],
              HEALTH_FAILED + ": ", jdk)
  }

  // ---------------------------------------------------------------------
  // ImageAnalysisController
  // ---------------------------------------------------------------------

  const EMPTY_IMAGE: string := "이미지 파일이 비어있습니다."
  const USER_NOT_FOUND: string := "사용자를 찾을 수 없습니다: "
  const ALBUM_NOT_FOUND: string := "앨범을 찾을 수 없습니다: "
  const ANALYZE_OK: string := "이미지 분석이 완료되었습니다"
  const ANALYZE_FAILED: string := "이미지 분석 요청 중 오류가 발생했습니다: "
  const PROCESS_OK: string := "분석 결과가 성공적으로 처리되었습니다"
  const QUESTIONS_OK: string := "질문 생성 결과가 성공적으로 처리되었습니다"
  const QUESTIONS_FAILED: string := "질문 생성 결과 처리 중 오류가 발생했습니다: "
  const MEDIA_ID_REQUIRED: string := "mediaId가 필요합니다"
  const NO_QUESTIONS: string := "질문이 생성되지 않았습니다"

  /** determineMediaType: "video/..." is a video; an image content type,
      any other and none at all are images. */
  function DetermineMediaType(contentType: Option<string>): (r: MediaType)
    ensures r == VIDEO <==> contentType.Some? && StartsWith(contentType.value, "video/")
  {
    if contentType.Some? && StartsWith(contentType.value, "image/") then
      assert contentType.value[..6] != "video/" by {
        assert contentType.value[..6][0] == 'i';
      }
      IMAGE
    else if contentType.Some? && StartsWith(contentType.value, "video/") then VIDEO
    else IMAGE
  }

  /** The stored file size: the reported size, or 0 when it is not positive,
      so that the not-null column is never left empty. */
  function StoredFileSize(reported: int): (r: nat)
    ensures reported > 0 ==> r == reported
    ensures reported <= 0 ==> r == 0
  {
    if reported <= 0 then 0 else reported
  }

  /** The "questions" of a processed result, or the placeholder text. */
  function QuestionsOrPlaceholder(processed: map<string, Json>): (r: Json)
    ensures "questions" in processed ==> r == processed["questions"]
    ensures "questions" !in processed ==> r == JStr(NO_QUESTIONS)
  {
    if "questions" in processed then processed["questions"] else JStr(NO_QUESTIONS)
  }

  /** MediaAnalysisService.createEmptyMedia(user, album): a placeholder row
      owned by the user in the album. */
  function EmptyMedia(albumId: nat, userId: nat, now: Instant): (r: MediaRow)
    ensures r.fileUrl == "" && r.fileType == IMAGE && r.originalFilename == "empty" && r.fileSize == 0
    ensures r.albumId == Some(albumId) && r.uploadedBy == Some(userId)
  {
    MediaRow("", IMAGE, "empty", 0, None, None, None, Some(albumId), Some(userId), now)
  }

  /** The placeholder once the upload is known: both URLs, the type, the
      original name and the size are set; nothing else changes. */
  function Uploaded(row: MediaRow, url: string, image: FilePart, originalFilename: string): (r: MediaRow)
    ensures r.imageUrl == Some(url) && r.fileUrl == url
    ensures r.fileType == DetermineMediaType(image.contentType)
    ensures r.originalFilename == originalFilename && r.fileSize == StoredFileSize(image.size)
    ensures r.albumId == row.albumId && r.uploadedBy == row.uploadedBy && r.createdAt == row.createdAt
    ensures r.analysisResult == row.analysisResult && r.thumbnailUrl == row.thumbnailUrl
  {
    row.(imageUrl := Some(url), fileUrl := url, fileType := DetermineMediaType(image.contentType),
         originalFilename := originalFilename, fileSize := StoredFileSize(image.size))
  }

  /** The S3 client's side of uploadAlbumImage: the bucket, the generated
      UUID, whether the file's stream opens, and the putObject outcome. */
  datatype StorageClient = StorageClient(bucket: string, uuid: string, streamOk: bool, put: Result<()>)

  /** s3Service.uploadAlbumImage(image, albumId) against that client. */
  function AlbumImageUpload(image: FilePart, albumId: nat, s3: StorageClient): (r: Result<string>)
    ensures r.Ok? <==> S3Storage.ValidateImageFile(image).Ok? && s3.streamOk && s3.put.Ok?
    ensures S3Storage.ValidateImageFile(image).Err? ==> r == S3Storage.ValidateImageFile(image).PropagateFailure()
  {
    S3Storage.UploadAlbumImage(image, albumId, s3.bucket, s3.uuid, s3.streamOk, s3.put)
  }

  /** Only image types pass the upload's validation, so a file the handler
      stores is always recorded as an IMAGE: determineMediaType's VIDEO
      branch is never taken on this path. */
  lemma UploadedMediaIsImage(image: FilePart, albumId: nat, s3: StorageClient)
    requires AlbumImageUpload(image, albumId, s3).Ok?
    ensures DetermineMediaType(image.contentType) == IMAGE
  {
    var ct := image.contentType.value;
    var low := Lower(ct);
    assert low in S3Storage.ALLOWED_IMAGE_TYPES;
    assert |low| > 0 && low[0] == 'i';
    assert LowerChar(ct[0]) == 'i';
  }

  /** The 200 reply of analyzeImage. */
  function AnalyzedReply(mediaId: nat, url: string, albumId: nat, userId: nat, processed: map<string, Json>,
                         jdk: Exception -> string): Response
  {
    match MapOf(map["mediaId" := JNum(mediaId), "imageUrl" := JStr(url), "albumId" := JNum(albumId),
                    "userId" := JNum(userId), "questions" := QuestionsOrPlaceholder(processed)])
    case Err(e) => Response(500, ErrorBody(ANALYZE_FAILED + MessageOf(e, jdk)))
    case Ok(data) =>
      Response(200, JObj(map["status" := JStr("success"), "message" := JStr(ANALYZE_OK), "data" := data]))
  }

  /** analyzeImage, from the tables before the request to the tables after it
      and the reply. The image is checked first; then the user and the album
      are looked up (404 when missing); the placeholder media row is created
      and committed on its own; the image is uploaded to S3 (validated
      there: an empty, oversized or non-image file is refused);
      the row is updated (a null original file name violates its not-null
      column); FastAPI analyses the URL with the caller's token; and the
      analysis is processed in a transaction of its own. No transaction spans
      the handler: a failure after the placeholder is created leaves it. */
  function ImageAnalysis(users: map<string, UserEntity.UserRow>, c: Content, image: FilePart, albumId: int, userId: int,
                         authHeader: Option<string>, now: Instant, s3: StorageClient, analyze: AnalyzeCall,
                         serialize: map<string, Json> -> string, jdk: Exception -> string): (r: (Content, Response))
    requires Valid(c)
    ensures r.1.status in {200, 400, 404, 500}
    ensures r.1.status == 400 <==> image.IsEmpty()
    ensures r.1.status == 404 <==>
              && !image.IsEmpty()
              && (userId < 0 || !UserRepo.ExistsById(users, userId) || albumId < 0 || albumId !in c.albums)
    ensures r.1.status in {400, 404} ==> r.0 == c
    ensures Valid(r.0)
  {
    if image.IsEmpty() then (c, Response(400, ErrorBody(EMPTY_IMAGE)))
    else if userId < 0 || !UserRepo.ExistsById(users, userId) then
      (c, Response(404, ErrorBody(USER_NOT_FOUND + IntToString(userId))))
    else if albumId < 0 || albumId !in c.albums then
      (c, Response(404, ErrorBody(ALBUM_NOT_FOUND + IntToString(albumId))))
    else
      PlacedAnalysis(c, albumId, userId, image, authHeader, now, AlbumImageUpload(image, albumId, s3),
                     analyze, serialize, jdk)
  }

  /** analyzeImage once the user and the album are found: the placeholder
      row takes the next id, then `upload` (the outcome of uploadAlbumImage)
      decides between a 500 and the rest of the handler. */
  function PlacedAnalysis(c: Content, albumId: nat, userId: nat, image: FilePart, authHeader: Option<string>,
                          now: Instant, upload: Result<string>, analyze: AnalyzeCall,
                          serialize: map<string, Json> -> string, jdk: Exception -> string): (r: (Content, Response))
    requires Valid(c)
    ensures r.1.status in {200, 500}
    ensures Valid(r.0)
    ensures upload.Err? ==>
              r == (c.(media := c.media[c.nextId := EmptyMedia(albumId, userId, now)], nextId := c.nextId + 1),
                    Response(500, ErrorBody(ANALYZE_FAILED + MessageOf(upload.error, jdk))))
  {
    var mediaId := c.nextId;
    var c1 := c.(media := c.media[mediaId := EmptyMedia(albumId, userId, now)], nextId := mediaId + 1);
    match upload
    case Err(e) => (c1, Response(500, ErrorBody(ANALYZE_FAILED + MessageOf(e, jdk))))
    case Ok(url) => UploadedAnalysis(c1, mediaId, albumId, userId, url, image, authHeader, analyze, serialize, jdk)
  }

  /** analyzeImage once the image is in S3 and the placeholder row
      `mediaId` exists: the row is updated, FastAPI is asked, and its answer
      is processed. */
  function UploadedAnalysis(c1: Content, mediaId: nat, albumId: nat, userId: nat, url: string, image: FilePart,
                            authHeader: Option<string>, analyze: AnalyzeCall,
                            serialize: map<string, Json> -> string, jdk: Exception -> string): (r: (Content, Response))
    requires Valid(c1) && mediaId in c1.media
    ensures r.1.status in {200, 500}
    ensures Valid(r.0)
  {
    if image.originalFilename.None? then
      (c1, Response(500, ErrorBody(ANALYZE_FAILED + MessageOf(ConstraintViolation("media.original_filename"), jdk))))
    else
      var c2 := c1.(media := c1.media[mediaId := Uploaded(c1.media[mediaId], url, image, image.originalFilename.value)]);
      match analyze(url, BearerToken(authHeader))
      case Raise(reason) => (c2, Response(500, ErrorBody(ANALYZE_FAILED + reason)))
      case Done(None) => (c2, Response(500, ErrorBody(ANALYZE_FAILED + MA.PROCESSING_FAILED + jdk(NullPointer))))
      case Done(Some(data)) =>
        var s := ServiceOutcome(c2, mediaId, data, serialize, jdk);
        match s.1
        case Err(e) => (s.0, Response(500, ErrorBody(ANALYZE_FAILED + MessageOf(e, jdk))))
        case Ok(processed) => (s.0, AnalyzedReply(mediaId, url, albumId, userId, processed, jdk))
  }

  /** An empty image is refused before any lookup, upload or analysis: the
      reply depends on nothing else and nothing is stored. */
  lemma EmptyImageIsRefusedFirst(users: map<string, UserEntity.UserRow>, c: Content, image: FilePart, albumId: int,
                                 userId: int, authHeader: Option<string>, now: Instant, s3: StorageClient,
                                 analyze: AnalyzeCall, serialize: map<string, Json> -> string, jdk: Exception -> string)
    requires Valid(c) && image.IsEmpty()
    ensures ImageAnalysis(users, c, image, albumId, userId, authHeader, now, s3, analyze, serialize, jdk) ==
              (c, Response(400, ErrorBody(EMPTY_IMAGE)))
  {
  }

  /** A failed upload still leaves the placeholder row behind: the handler
      is not transactional. */
  lemma FailedUploadLeavesPlaceholder(users: map<string, UserEntity.UserRow>, c: Content, image: FilePart, albumId: nat,
                                      userId: nat, authHeader: Option<string>, now: Instant, s3: StorageClient,
                                      analyze: AnalyzeCall, serialize: map<string, Json> -> string, jdk: Exception -> string)
    requires Valid(c) && !image.IsEmpty() && UserRepo.ExistsById(users, userId) && albumId in c.albums
    requires AlbumImageUpload(image, albumId, s3).Err?
    ensures var r := ImageAnalysis(users, c, image, albumId, userId, authHeader, now, s3, analyze, serialize, jdk);
            && r.1 == Response(500, ErrorBody(ANALYZE_FAILED + MessageOf(AlbumImageUpload(image, albumId, s3).error, jdk)))
            && c.nextId !in c.media
            && r.0 == c.(media := c.media[c.nextId := EmptyMedia(albumId, userId, now)], nextId := c.nextId + 1)
  {
    assert c.nextId !in c.media;
  }

  /** An image of a type S3Service does not accept (only JPEG, PNG and GIF
      are) is a 500 carrying the validation message, and only the
      placeholder row is stored; the storage client is never reached. */
  lemma UnsupportedTypeStoresOnlyPlaceholder(users: map<string, UserEntity.UserRow>, c: Content, image: FilePart,
                                             albumId: nat, userId: nat, authHeader: Option<string>, now: Instant,
                                             s3: StorageClient, analyze: AnalyzeCall,
                                             serialize: map<string, Json> -> string, jdk: Exception -> string)
    requires Valid(c) && !image.IsEmpty() && UserRepo.ExistsById(users, userId) && albumId in c.albums
    requires image.size <= S3Storage.MAX_FILE_SIZE && !S3Storage.AllowedType(image.contentType)
    ensures var r := ImageAnalysis(users, c, image, albumId, userId, authHeader, now, s3, analyze, serialize, jdk);
            && r.1 == Response(500, ErrorBody(ANALYZE_FAILED
                                              + MessageOf(Api(INVALID_INPUT_VALUE, S3Storage.UNSUPPORTED_TYPE), jdk)))
            && r.0 == c.(media := c.media[c.nextId := EmptyMedia(albumId, userId, now)], nextId := c.nextId + 1)
  {
    FailedUploadLeavesPlaceholder(users, c, image, albumId, userId, authHeader, now, s3, analyze, serialize, jdk);
  }

  /** A successful analysis leaves the new media row with the uploaded URL,
      the type from the content type, the original name, the clamped size
      and the serialized analysis, and sends the analyser the caller's token. */
  lemma AnalyzedImageIsRecorded(users: map<string, UserEntity.UserRow>, c: Content, image: FilePart, albumId: int,
                                userId: int, authHeader: Option<string>, now: Instant, s3: StorageClient,
                                analyze: AnalyzeCall, serialize: map<string, Json> -> string, jdk: Exception -> string)
    requires Valid(c)
    requires ImageAnalysis(users, c, image, albumId, userId, authHeader, now, s3, analyze, serialize, jdk).1.status == 200
    ensures image.originalFilename.Some? && albumId >= 0 && userId >= 0
    ensures AlbumImageUpload(image, albumId, s3).Ok?
    ensures var url := AlbumImageUpload(image, albumId, s3).value;
            analyze(url, BearerToken(authHeader)).Done? && analyze(url, BearerToken(authHeader)).value.Some?
    ensures var r := ImageAnalysis(users, c, image, albumId, userId, authHeader, now, s3, analyze, serialize, jdk);
            var url := AlbumImageUpload(image, albumId, s3).value;
            var data := analyze(url, BearerToken(authHeader)).value.value;
            && c.nextId in r.0.media
            && r.0.media[c.nextId] ==
                 Uploaded(EmptyMedia(albumId, userId, now), url, image, image.originalFilename.value)
                   .(analysisResult := Some(serialize(data)))
  {
    var mediaId := c.nextId;
    var c1 := c.(media := c.media[mediaId := EmptyMedia(albumId, userId, now)], nextId := mediaId + 1);
    var up := AlbumImageUpload(image, albumId, s3);
    assert ImageAnalysis(users, c, image, albumId, userId, authHeader, now, s3, analyze, serialize, jdk)
           == PlacedAnalysis(c, albumId, userId, image, authHeader, now, up, analyze, serialize, jdk);
    assert up.Ok?;
    var url := up.value;
    var c2 := c1.(media := c1.media[mediaId := Uploaded(c1.media[mediaId], url, image, image.originalFilename.value)]);
    var data := analyze(url, BearerToken(authHeader)).value.value;
    MA.ProcessedAnalysisOutcome(c2, mediaId, data, serialize);
  }

  /** The reply of processAnalysisResult and processQuestions once the media
      id is known: the service's failure (always a RuntimeException, so the
      handlers' 404 branch is never taken) is a 500 with `failed` in front of
      the service's own message; success is a 200 with the media id and the
      questions or the placeholder. */
  function ProcessedReply(mediaId: int, outcome: Result<map<string, Json>>, ok: string, failed: string,
                          jdk: Exception -> string): Response
  {
    match outcome
    case Err(e) => Response(500, ErrorBody(failed + MessageOf(e, jdk)))
    case Ok(processed) =>
      match MapOf(map["mediaId" := JNum(mediaId), "questions" := QuestionsOrPlaceholder(processed)])
      case Err(e) => Response(500, ErrorBody(failed + MessageOf(e, jdk)))
      case Ok(data) => Response(200, JObj(map["status" := JStr("success"), "message" := JStr(ok), "data" := data]))
  }

  /** What the service answers for a media id: a negative id is never
      stored, so it fails like any unknown one. */
  function ServiceOutcome(c: Content, mediaId: int, data: map<string, Json>, serialize: map<string, Json> -> string,
                          jdk: Exception -> string): (r: (Content, Result<map<string, Json>>))
    requires Valid(c)
    ensures r.1.Err? ==> r.0 == c && r.1.error.RuntimeFailure?
    ensures (mediaId < 0 || mediaId !in c.media) ==>
              r == (c, Err(RuntimeFailure(MA.PROCESSING_FAILED + MA.MEDIA_NOT_FOUND + IntToString(mediaId))))
    ensures Valid(r.0)
  {
    if mediaId < 0 then (c, Err(RuntimeFailure(MA.PROCESSING_FAILED + MA.MEDIA_NOT_FOUND + IntToString(mediaId))))
    else
      match MA.ProcessedAnalysis(c, mediaId, data, serialize)
      case Err(e) =>
        assert mediaId !in c.media ==>
                 MA.PROCESSING_FAILED + MessageOf(e, jdk) == MA.PROCESSING_FAILED + MA.MEDIA_NOT_FOUND + IntToString(mediaId);
        (c, Err(RuntimeFailure(MA.PROCESSING_FAILED + MessageOf(e, jdk))))
      case Ok(p) => (p.0, Ok(p.1))
  }

  /** processAnalysisResult for a media id from the path. */
  function AnalysisResultReply(c: Content, mediaId: int, data: map<string, Json>, serialize: map<string, Json> -> string,
                               jdk: Exception -> string): (r: (Content, Response))
    requires Valid(c)
    ensures r.1.status in {200, 500}
    ensures (mediaId < 0 || mediaId !in c.media) ==>
              var thrown := MA.PROCESSING_FAILED + MA.MEDIA_NOT_FOUND + IntToString(mediaId);
              r == (c, Response(500, ErrorBody(MA.PROCESSING_FAILED + thrown)))
  {
    var s := ServiceOutcome(c, mediaId, data, serialize, jdk);
    assert s.1.Err? ==> MessageOf(s.1.error, jdk) == s.1.error.message;
    (s.0, ProcessedReply(mediaId, s.1, PROCESS_OK, MA.PROCESSING_FAILED, jdk))
  }

  /** The media id of a questions request: Long.valueOf(value.toString()),
      where `render` is toString for values other than numbers and strings. */
  function MediaIdOf(value: Json, render: Json -> string): (r: Result<int>)
    ensures value == JNull ==> r == Err(NullPointer)
    ensures r.Ok? ==> LONG_MIN <= r.value <= LONG_MAX
  {
    match value
    case JNull => Err(NullPointer)
    case JNum(n) => ParseLong(IntToString(n))
    case JStr(s) => ParseLong(s)
    case _ => ParseLong(render(value))
  }

  /** A number, or its decimal text, is read back as the media id. */
  lemma MediaIdReadsLongs(n: int, render: Json -> string)
    requires LONG_MIN <= n <= LONG_MAX
    ensures MediaIdOf(JNum(n), render) == Ok(n)
    ensures MediaIdOf(JStr(IntToString(n)), render) == Ok(n)
  {
    LongRoundTrip(n);
  }

  /** processQuestions: the body must name a media id (400 otherwise); an
      unreadable one is a 500; then the body is processed as an analysis. */
  function QuestionsReply(c: Content, data: map<string, Json>, serialize: map<string, Json> -> string,
                          render: Json -> string, jdk: Exception -> string): (r: (Content, Response))
    requires Valid(c)
    ensures r.1.status in {200, 400, 500}
    ensures r.1.status == 400 <==> "mediaId" !in data
    ensures r.1.status == 400 ==> r.1.body == ErrorBody(MEDIA_ID_REQUIRED)
    ensures "mediaId" in data && MediaIdOf(data["mediaId"], render).Err? ==> r.0 == c && r.1.status == 500
  {
    if "mediaId" !in data then (c, Response(400, ErrorBody(MEDIA_ID_REQUIRED)))
    else
      match MediaIdOf(data["mediaId"], render)
      case Err(e) => (c, Response(500, ErrorBody(QUESTIONS_FAILED + MessageOf(e, jdk))))
      case Ok(mediaId) =>
        var s := ServiceOutcome(c, mediaId, data, serialize, jdk);
        (s.0, ProcessedReply(mediaId, s.1, QUESTIONS_OK, QUESTIONS_FAILED, jdk))
  }

  // ---------------------------------------------------------------------
  // The handlers over the stored tables
  // ---------------------------------------------------------------------

  /** The service call shared by the two processing handlers. */
  method CallService(content: ContentTables, mediaId: int, data: map<string, Json>,
                     serialize: map<string, Json> -> string, jdk: Exception -> string)
    returns (r: Result<map<string, Json>>)
    requires Valid(content.State())
    modifies content
    ensures (content.State(), r) == ServiceOutcome(old(content.State()), mediaId, data, serialize, jdk)
  {
    if mediaId < 0 {
      return Err(RuntimeFailure(MA.PROCESSING_FAILED + MA.MEDIA_NOT_FOUND + IntToString(mediaId)));
    }
    r := MA.ProcessAnalysisResult(content, mediaId, data, serialize, GetMessage(jdk));
  }

  /** POST /api/v1/images/analysis/{mediaId}. */
  method ProcessAnalysisResult(content: ContentTables, mediaId: int, data: map<string, Json>,
                               serialize: map<string, Json> -> string, jdk: Exception -> string)
    returns (r: Response)
    requires Valid(content.State())
    modifies content
    ensures (content.State(), r) == AnalysisResultReply(old(content.State()), mediaId, data, serialize, jdk)
  {
    var outcome := CallService(content, mediaId, data, serialize, jdk);
    r := ProcessedReply(mediaId, outcome, PROCESS_OK, MA.PROCESSING_FAILED, jdk);
  }

  /** POST /api/v1/images/questions/create. */
  method ProcessQuestions(content: ContentTables, data: map<string, Json>, serialize: map<string, Json> -> string,
                          render: Json -> string, jdk: Exception -> string)
    returns (r: Response)
    requires Valid(content.State())
    modifies content
    ensures (content.State(), r) == QuestionsReply(old(content.State()), data, serialize, render, jdk)
  {
    if "mediaId" !in data {
      return Response(400, ErrorBody(MEDIA_ID_REQUIRED));
    }
    var id := MediaIdOf(data["mediaId"], render);
    if id.Err? {
      return Response(500, ErrorBody(QUESTIONS_FAILED + MessageOf(id.error, jdk)));
    }
    var outcome := CallService(content, id.value, data, serialize, jdk);
    r := ProcessedReply(id.value, outcome, QUESTIONS_OK, QUESTIONS_FAILED, jdk);
  }

  /** POST /api/v1/images/analyze. */
  method AnalyzeImage(users: UserRepo.UserRepository, content: ContentTables, image: FilePart, albumId: int,
                      userId: int, authHeader: Option<string>, now: Instant, s3: StorageClient,
                      analyze: AnalyzeCall, serialize: map<string, Json> -> string, jdk: Exception -> string)
    returns (r: Response)
    requires Valid(content.State())
    modifies content
    ensures (content.State(), r) ==
              ImageAnalysis(users.rows, old(content.State()), image, albumId, userId, authHeader, now, s3,
                            analyze, serialize, jdk)
  {
    if image.IsEmpty() {
      return Response(400, ErrorBody(EMPTY_IMAGE));
    }
    if userId < 0 || !UserRepo.ExistsById(users.rows, userId) {
      return Response(404, ErrorBody(USER_NOT_FOUND + IntToString(userId)));
    }
    if albumId < 0 || albumId !in content.albums {
      return Response(404, ErrorBody(ALBUM_NOT_FOUND + IntToString(albumId)));
    }
    r := AnalyzePlaced(content, albumId, userId, image, authHeader, now, AlbumImageUpload(image, albumId, s3),
                       analyze, serialize, jdk);
  }

  /** The steps of analyzeImage after the lookups. */
  method AnalyzePlaced(content: ContentTables, albumId: nat, userId: nat, image: FilePart, authHeader: Option<string>,
                       now: Instant, upload: Result<string>, analyze: AnalyzeCall,
                       serialize: map<string, Json> -> string, jdk: Exception -> string)
    returns (r: Response)
    requires Valid(content.State())
    modifies content
    ensures (content.State(), r) ==
              PlacedAnalysis(old(content.State()), albumId, userId, image, authHeader, now, upload, analyze, serialize, jdk)
  {
    var mediaId := content.InsertMedia(EmptyMedia(albumId, userId, now));
    if upload.Err? {
      return Response(500, ErrorBody(ANALYZE_FAILED + MessageOf(upload.error, jdk)));
    }
    r := AnalyzeUploaded(content, mediaId, albumId, userId, upload.value, image, authHeader, analyze, serialize, jdk);
  }

  /** The steps of analyzeImage after the upload. */
  method AnalyzeUploaded(content: ContentTables, mediaId: nat, albumId: nat, userId: nat, url: string, image: FilePart,
                         authHeader: Option<string>, analyze: AnalyzeCall,
                         serialize: map<string, Json> -> string, jdk: Exception -> string)
    returns (r: Response)
    requires Valid(content.State()) && mediaId in content.media
    modifies content
    ensures (content.State(), r) ==
              UploadedAnalysis(old(content.State()), mediaId, albumId, userId, url, image, authHeader, analyze, serialize, jdk)
  {
    if image.originalFilename.None? {
      return Response(500, ErrorBody(ANALYZE_FAILED + MessageOf(ConstraintViolation("media.original_filename"), jdk)));
    }
    content.PutMedia(mediaId, Uploaded(content.media[mediaId], url, image, image.originalFilename.value));
    match analyze(url, BearerToken(authHeader))
    case Raise(reason) =>
      r := Response(500, ErrorBody(ANALYZE_FAILED + reason));
    case Done(None) =>
      r := Response(500, ErrorBody(ANALYZE_FAILED + MA.PROCESSING_FAILED + jdk(NullPointer)));
    case Done(Some(data)) =>
      var processed := CallService(content, mediaId, data, serialize, jdk);
      r := match processed
           case Err(e) => Response(500, ErrorBody(ANALYZE_FAILED + MessageOf(e, jdk)))
           case Ok(out) => AnalyzedReply(mediaId, url, albumId, userId, out, jdk);
  }
}
