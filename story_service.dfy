/** StoryService.generateStory: the checks before a story is generated for
    a media item, the request sent to the story generator, the handling of
    its response, and the one-story-per-media rule the checks keep. The
    generator (the FastAPI client) is a parameter: the response it gives
    for a request, a null response, or the failure it throws. */
module StoryService {
  import opened Common
  import opened ContentStore

  const MEDIA_NOT_FOUND: string := "미디어를 찾을 수 없습니다: "
  const STORY_EXISTS: string := "이미 해당 미디어에 대한 스토리가 존재합니다: "
  const NOT_ENOUGH: string := "스토리 생성을 위한 질문과 답변이 충분하지 않습니다"
  const FAILED: string := "스토리 생성 실패: "
  const UNKNOWN_ERROR: string := "알 수 없는 오류"
  const NULL_RESPONSE: string := "응답이 null입니다"

  /** One question of the request: id, content, category, level and theme name. */
  datatype QuestionItem = QuestionItem(id: nat, content: string, category: Option<string>, level: Option<int>, theme: Option<string>)

  /** One answer of the request: id, content and the answering user's id. */
  datatype AnswerItem = AnswerItem(id: nat, content: string, userId: Option<nat>)

  /** What generateStory sends: the media id, the question and answer lists,
      the options (style and length) and the image URL. */
  datatype StoryRequest = StoryRequest(
    mediaId: nat,
    questions: seq<QuestionItem>,
    answers: seq<AnswerItem>,
    style: string,
    length: string,
    imageUrl: string)

  /** The generator's reply to a request: a JSON object, none for a null
      reply, or the failure the client throws. */
  type Generator = StoryRequest -> Result<Option<map<string, Json>>>

  /** Enum.name() of a question theme. */
  function QuestionThemeName(t: QuestionTheme): string
  {
    match t
    case SENIOR_CARE => "SENIOR_CARE"
    case CHILD_STORY => "CHILD_STORY"
    case COUPLE_STORY => "COUPLE_STORY"
  }

  /** Some story of the media item exists: storyRepository.existsByMediaId. */
  predicate HasStory(c: Content, mediaId: nat)
  {
    exists s :: s in c.stories && c.stories[s].mediaId == Some(mediaId)
  }

  /** No media item has two stories. */
  predicate OneStoryPerMedia(c: Content)
  {
    forall s1, s2 ::
      (s1 in c.stories && s2 in c.stories && c.stories[s1].mediaId.Some?
       && c.stories[s1].mediaId == c.stories[s2].mediaId) ==> s1 == s2
  }

  /** The question list of the request, in repository order; a null theme
      becomes a null name. */
  function QuestionItems(c: Content, ids: seq<nat>): (r: seq<QuestionItem>)
    requires forall i :: i in ids ==> i in c.questions
    ensures |r| == |ids|
    ensures forall j :: 0 <= j < |ids| ==>
              && r[j].id == ids[j] && r[j].content == c.questions[ids[j]].content
              && r[j].category == c.questions[ids[j]].category && r[j].level == c.questions[ids[j]].level
              && (r[j].theme.Some? <==> c.questions[ids[j]].theme.Some?)
              && (r[j].theme.Some? ==> r[j].theme.value == QuestionThemeName(c.questions[ids[j]].theme.value))
  {
    seq(|ids|, j requires 0 <= j < |ids| =>
      var q := c.questions[ids[j]];
      QuestionItem(ids[j], q.content, q.category, q.level,
                   if q.theme.Some? then Some(QuestionThemeName(q.theme.value)) else None))
  }

  /** The answer list of the request, in repository order; every stored
      answer has a user, so each item carries its user id. */
  function AnswerItems(c: Content, ids: seq<nat>): (r: seq<AnswerItem>)
    requires forall i :: i in ids ==> i in c.answers
    ensures |r| == |ids|
    ensures forall j :: 0 <= j < |ids| ==>
              r[j] == AnswerItem(ids[j], c.answers[ids[j]].content, Some(c.answers[ids[j]].userId))
  {
    seq(|ids|, j requires 0 <= j < |ids| =>
      AnswerItem(ids[j], c.answers[ids[j]].content, Some(c.answers[ids[j]].userId)))
  }

  /** The image URL sent: the media's image URL when present and non-empty,
      its file URL otherwise. */
  function ImageUrlOf(m: MediaRow): (r: string)
    ensures m.imageUrl.Some? && m.imageUrl.value != "" ==> r == m.imageUrl.value
    ensures m.imageUrl.None? || m.imageUrl.value == "" ==> r == m.fileUrl
  {
    if m.imageUrl.None? || m.imageUrl.value == "" then m.fileUrl else m.imageUrl.value
  }

  /** The request for an existing media item. */
  function RequestFor(c: Content, mediaId: nat): (r: StoryRequest)
    requires Valid(c) && mediaId in c.media
    ensures r.mediaId == mediaId && r.style == "emotional" && r.length == "medium"
    ensures |r.questions| == |QuestionsOfMedia(c, mediaId)| && |r.answers| == |AnswersOfMedia(c, mediaId)|
    ensures r.imageUrl == ImageUrlOf(c.media[mediaId])
  {
    StoryRequest(mediaId, QuestionItems(c, QuestionsOfMedia(c, mediaId)), AnswerItems(c, AnswersOfMedia(c, mediaId)),
                 "emotional", "medium", ImageUrlOf(c.media[mediaId]))
  }

  /** `"success".equals(response.get("status"))`. */
  predicate Succeeded(resp: map<string, Json>)
  {
    "status" in resp && resp["status"] == JStr("success")
  }

  /** The reason a failed response gives: its "message" rendered by `show`
      (toString), or the unknown-error text when there is none. */
  function FailureMessage(resp: map<string, Json>, show: Json -> string): string
  {
    if "message" in resp && resp["message"] != JNull then show(resp["message"]) else UNKNOWN_ERROR
  }

  /** `(String) response.get("story_content")`: a string, a null (the
      not-null content column then refuses the insert), or another value
      the cast refuses. */
  function StoryContent(resp: map<string, Json>): (r: Result<string>)
    ensures r.Ok? <==> "story_content" in resp && resp["story_content"].JStr?
    ensures r.Ok? ==> r.value == resp["story_content"].s
  {
    if "story_content" !in resp || resp["story_content"] == JNull then Err(ConstraintViolation("stories.content"))
    else if !resp["story_content"].JStr? then Err(ClassCast)
    else Ok(resp["story_content"].s)
  }

  /** The story generateStory saves, or the exception it throws. */
  function GeneratedStory(c: Content, mediaId: nat, generate: Generator, show: Json -> string): (r: Result<StoryRow>)
    requires Valid(c)
    ensures mediaId !in c.media ==> r == Err(EntityNotFound(MEDIA_NOT_FOUND + NatToString(mediaId)))
    ensures mediaId in c.media && HasStory(c, mediaId) ==> r == Err(DuplicateResource(STORY_EXISTS + NatToString(mediaId)))
    ensures mediaId in c.media && !HasStory(c, mediaId)
            && (|QuestionsOfMedia(c, mediaId)| == 0 || |AnswersOfMedia(c, mediaId)| == 0)
            ==> r == Err(IllegalState(NOT_ENOUGH))
    ensures r.Ok? ==> && mediaId in c.media && !HasStory(c, mediaId)
                      && |QuestionsOfMedia(c, mediaId)| > 0 && |AnswersOfMedia(c, mediaId)| > 0
                      && generate(RequestFor(c, mediaId)).Ok?
                      && generate(RequestFor(c, mediaId)).value.Some?
                      && Succeeded(generate(RequestFor(c, mediaId)).value.value)
                      && StoryContent(generate(RequestFor(c, mediaId)).value.value).Ok?
                      && r.value == StoryRow(Some(mediaId), generate(RequestFor(c, mediaId)).value.value["story_content"].s, None)
  {
    if mediaId !in c.media then Err(EntityNotFound(MEDIA_NOT_FOUND + NatToString(mediaId)))
    else if HasStory(c, mediaId) then Err(DuplicateResource(STORY_EXISTS + NatToString(mediaId)))
    else if |QuestionsOfMedia(c, mediaId)| == 0 || |AnswersOfMedia(c, mediaId)| == 0 then Err(IllegalState(NOT_ENOUGH))
    else
      var response :- generate(RequestFor(c, mediaId));
      if response.None? then Err(RuntimeFailure(FAILED + NULL_RESPONSE))
      else if !Succeeded(response.value) then Err(RuntimeFailure(FAILED + FailureMessage(response.value, show)))
      else
        var text :- StoryContent(response.value);
        Ok(StoryRow(Some(mediaId), text, None))
  }

  /** A null reply and an unsuccessful reply both fail with the story-failure
      message, naming the reply's own message when it has one. */
  lemma FailedReplyIsReported(c: Content, mediaId: nat, generate: Generator, show: Json -> string)
    requires Valid(c) && mediaId in c.media && !HasStory(c, mediaId)
    requires |QuestionsOfMedia(c, mediaId)| > 0 && |AnswersOfMedia(c, mediaId)| > 0
    requires generate(RequestFor(c, mediaId)).Ok?
    ensures generate(RequestFor(c, mediaId)).value.None?
            ==> GeneratedStory(c, mediaId, generate, show) == Err(RuntimeFailure(FAILED + NULL_RESPONSE))
    ensures generate(RequestFor(c, mediaId)).value.Some? && !Succeeded(generate(RequestFor(c, mediaId)).value.value)
            ==> GeneratedStory(c, mediaId, generate, show)
                == Err(RuntimeFailure(FAILED + FailureMessage(generate(RequestFor(c, mediaId)).value.value, show)))
  {
  }

  /** An existing story is refused before the generator is asked: any two
      generators give the same refusal. */
  lemma DuplicateRefusedBeforeGeneration(c: Content, mediaId: nat, g1: Generator, g2: Generator, show: Json -> string)
    requires Valid(c) && mediaId in c.media && HasStory(c, mediaId)
    ensures GeneratedStory(c, mediaId, g1, show) == GeneratedStory(c, mediaId, g2, show)
  {
  }

  /** generateStory: inserts the generated story under the next id; any
      failure saves nothing. */
  method GenerateStory(content: ContentTables, mediaId: nat, generate: Generator, show: Json -> string) returns (r: Result<nat>)
    requires Valid(content.State())
    modifies content
    ensures var story := GeneratedStory(old(content.State()), mediaId, generate, show);
            && (story.Err? ==> r == story.PropagateFailure() && content.State() == old(content.State()))
            && (story.Ok? ==> r == Ok(old(content.nextId))
                              && content.State() == old(content.State()).(stories := old(content.stories)[old(content.nextId) := story.value],
                                                                          nextId := old(content.nextId) + 1))
  {
    var story :- GeneratedStory(content.State(), mediaId, generate, show);
    var id := content.InsertStory(story);
    r := Ok(id);
  }

  /** Saving a generated story keeps every media item at most one story:
      a story is only generated for a media item that has none. */
  lemma GenerateKeepsOneStoryPerMedia(c: Content, mediaId: nat, generate: Generator, show: Json -> string)
    requires Valid(c) && OneStoryPerMedia(c)
    requires GeneratedStory(c, mediaId, generate, show).Ok?
    ensures var c' := c.(stories := c.stories[c.nextId := GeneratedStory(c, mediaId, generate, show).value],
                         nextId := c.nextId + 1);
            && Valid(c') && OneStoryPerMedia(c') && HasStory(c', mediaId)
  {
    var story := GeneratedStory(c, mediaId, generate, show).value;
    var c' := c.(stories := c.stories[c.nextId := story], nextId := c.nextId + 1);
    assert c'.stories[c.nextId] == story && story.mediaId == Some(mediaId);
  }

  /** A second generation for the same media item is refused as a duplicate. */
  lemma SecondGenerationIsDuplicate(c: Content, mediaId: nat, g1: Generator, g2: Generator, show: Json -> string)
    requires Valid(c) && GeneratedStory(c, mediaId, g1, show).Ok?
    ensures var c' := c.(stories := c.stories[c.nextId := GeneratedStory(c, mediaId, g1, show).value],
                         nextId := c.nextId + 1);
            GeneratedStory(c', mediaId, g2, show) == Err(DuplicateResource(STORY_EXISTS + NatToString(mediaId)))
  {
    var c' := c.(stories := c.stories[c.nextId := GeneratedStory(c, mediaId, g1, show).value], nextId := c.nextId + 1);
    assert c'.stories[c.nextId].mediaId == Some(mediaId);
    assert mediaId in c'.media;
  }
}
