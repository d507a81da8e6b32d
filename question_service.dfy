/** QuestionService: user-written questions on a media item, their theme
    taken from the media's album, content updates, and the three listings
    of a media item's questions (all, unanswered, answered) that the
    question repository's fetch-join queries return. */
module QuestionService {
  import opened Common
  import AE = AlbumEntity
  import opened ContentStore

  const MEDIA_NOT_FOUND: string := "미디어를 찾을 수 없습니다: "
  const QUESTION_NOT_FOUND: string := "질문을 찾을 수 없습니다: "

  /** Defaults of a question the user writes. */
  const USER_QUESTION: string := "USER_QUESTION"
  const DEFAULT_LEVEL: int := 1

  // ---------------------------------------------------------------------
  // Theme
  // ---------------------------------------------------------------------

  /** The theme of the album a media item belongs to; none when it belongs
      to no stored album. */
  function AlbumThemeOf(c: Content, m: MediaRow): (r: Option<AE.AlbumTheme>)
    ensures r.Some? <==> m.albumId.Some? && m.albumId.value in c.albums
    ensures r.Some? ==> r.value == c.albums[m.albumId.value].theme
  {
    if m.albumId.Some? && m.albumId.value in c.albums then Some(c.albums[m.albumId.value].theme) else None
  }

  /** determineTheme: the album theme's name is searched for "SENIOR", then
      "CHILD", then "COUPLE"; no album, or no hit, gives SENIOR_CARE. */
  function DetermineTheme(albumTheme: Option<AE.AlbumTheme>): (r: QuestionTheme)
    ensures albumTheme.None? ==> r == SENIOR_CARE
  {
    if albumTheme.Some? then
      var name := AE.ThemeName(albumTheme.value);
      if Contains(name, "SENIOR") then SENIOR_CARE
      else if Contains(name, "CHILD") then CHILD_STORY
      else if Contains(name, "COUPLE") then COUPLE_STORY
      else SENIOR_CARE
    else SENIOR_CARE
  }

  /** The question theme meant for each album theme: the one for the same audience. */
  function Counterpart(t: AE.AlbumTheme): QuestionTheme
  {
    match t
    case SENIOR_CARE => SENIOR_CARE
    case CHILD_GROWTH => CHILD_STORY
    case COUPLE_STORY => COUPLE_STORY
  }

  /** A string starting with `p` contains it. */
  lemma ContainsPrefix(s: string, p: string)
    requires StartsWith(s, p)
    ensures Contains(s, p)
  {
    assert OccursAt(s, p, 0);
  }

  /** A string `p` occurs nowhere in is not contained in it. */
  lemma NotContained(s: string, p: string)
    requires forall i :: 0 <= i && i + |p| <= |s| ==> !OccursAt(s, p, i)
    ensures !Contains(s, p)
  {
  }

  /** The name search gives every album theme its counterpart: CHILD_GROWTH
      becomes CHILD_STORY through the "CHILD" search. */
  lemma DetermineThemeIsCounterpart(t: AE.AlbumTheme)
    ensures DetermineTheme(Some(t)) == Counterpart(t)
  {
    var name := AE.ThemeName(t);
    match t
    case SENIOR_CARE =>
      ContainsPrefix(name, "SENIOR");
    case CHILD_GROWTH =>
      forall i | 0 <= i && i + 6 <= |name| ensures !OccursAt(name, "SENIOR", i) {
        assert name[i..i + 6][0] == name[i];
      }
      NotContained(name, "SENIOR");
      ContainsPrefix(name, "CHILD");
    case COUPLE_STORY =>
      forall i | 0 <= i && i + 6 <= |name| ensures !OccursAt(name, "SENIOR", i) {
        assert name[i..i + 6][0] == name[i];
      }
      NotContained(name, "SENIOR");
      forall i | 0 <= i && i + 5 <= |name| ensures !OccursAt(name, "CHILD", i) {
        assert name[i..i + 5][1] == name[i + 1];
      }
      NotContained(name, "CHILD");
      ContainsPrefix(name, "COUPLE");
  }

  // ---------------------------------------------------------------------
  // Fetch joins and the response DTO
  // ---------------------------------------------------------------------

  /** The media item exists and has an uploader: the inner `JOIN FETCH
      m.uploadedBy` keeps its questions. */
  predicate Uploaded(c: Content, mediaId: nat)
  {
    mediaId in c.media && c.media[mediaId].uploadedBy.Some?
  }

  /** QuestionDto.Response; the uploader is the uploading user's id. */
  datatype QuestionResponse = QuestionResponse(
    id: nat,
    mediaId: Option<nat>,
    content: string,
    theme: Option<QuestionTheme>,
    category: Option<string>,
    level: Option<int>,
    isPrivate: bool,
    uploader: Option<nat>)

  /** Response.fromEntity: the columns of the question, its media's id, and
      that media's uploader (none when either is absent). */
  function FromEntity(c: Content, id: nat, q: QuestionRow): (r: QuestionResponse)
    ensures r.id == id && r.mediaId == q.mediaId && r.content == q.content && r.theme == q.theme
    ensures r.category == q.category && r.level == q.level && r.isPrivate == q.isPrivate
    ensures r.uploader.Some? <==> q.mediaId.Some? && Uploaded(c, q.mediaId.value)
  {
    var uploader := if q.mediaId.Some? && q.mediaId.value in c.media then c.media[q.mediaId.value].uploadedBy else None;
    QuestionResponse(id, q.mediaId, q.content, q.theme, q.category, q.level, q.isPrivate, uploader)
  }

  /** The ids of a list of responses. */
  function IdsOf(rs: seq<QuestionResponse>): (r: seq<nat>)
    ensures |r| == |rs| && forall j :: 0 <= j < |rs| ==> r[j] == rs[j].id
  {
    seq(|rs|, j requires 0 <= j < |rs| => rs[j].id)
  }

  /** The responses of the listed questions, in list order. */
  function Responses(c: Content, ids: seq<nat>): (r: seq<QuestionResponse>)
    requires forall i :: i in ids ==> i in c.questions
    ensures IdsOf(r) == ids
    ensures forall j :: 0 <= j < |r| ==> r[j] == FromEntity(c, ids[j], c.questions[ids[j]])
  {
    var r := seq(|ids|, j requires 0 <= j < |ids| => FromEntity(c, ids[j], c.questions[ids[j]]));
    assert IdsOf(r) == ids;
    r
  }

  /** findByIdWithMediaAndUploader: the question, when it exists and the
      inner joins on its media and that media's uploader keep it. */
  function FindWithMediaAndUploader(c: Content, questionId: nat): (r: Option<QuestionRow>)
    ensures r.Some? <==> questionId in c.questions && c.questions[questionId].mediaId.Some?
                         && Uploaded(c, c.questions[questionId].mediaId.value)
    ensures r.Some? ==> r.value == c.questions[questionId]
  {
    if questionId in c.questions && c.questions[questionId].mediaId.Some?
       && Uploaded(c, c.questions[questionId].mediaId.value)
    then Some(c.questions[questionId])
    else None
  }

  /** getQuestionById. */
  function GetQuestionById(c: Content, questionId: nat): (r: Result<QuestionResponse>)
    ensures r.Ok? <==> FindWithMediaAndUploader(c, questionId).Some?
    ensures r.Err? ==> r == Err(EntityNotFound(QUESTION_NOT_FOUND + NatToString(questionId)))
    ensures r.Ok? ==> r.value.id == questionId && r.value.content == c.questions[questionId].content
                      && r.value.uploader.Some?
  {
    match FindWithMediaAndUploader(c, questionId)
    case None => Err(EntityNotFound(QUESTION_NOT_FOUND + NatToString(questionId)))
    case Some(q) => Ok(FromEntity(c, questionId, q))
  }

  // ---------------------------------------------------------------------
  // Listings
  // ---------------------------------------------------------------------

  /** Some answer refers to the question. */
  predicate HasAnswer(c: Content, questionId: nat)
  {
    exists a :: a in c.answers && c.answers[a].questionId == questionId
  }

  /** findByMediaIdWithMediaAndUploader, in id order. */
  function JoinedQuestionsOfMedia(c: Content, mediaId: nat): (r: seq<nat>)
    requires Valid(c)
    ensures forall q :: q in r <==> q in c.questions && c.questions[q].mediaId == Some(mediaId) && Uploaded(c, mediaId)
    ensures forall a, b :: 0 <= a < b < |r| ==> r[a] < r[b]
  {
    var uploaded := Uploaded(c, mediaId);
    IdsWhere(c.questions, (q: QuestionRow) => q.mediaId == Some(mediaId) && uploaded, c.nextId)
  }

  /** The listed questions whose answered state is `answered`, in list order. */
  function WithAnswerState(c: Content, ids: seq<nat>, answered: bool): (r: seq<nat>)
    ensures forall q :: q in r <==> q in ids && HasAnswer(c, q) == answered
  {
    if |ids| == 0 then []
    else
      var rest := WithAnswerState(c, ids[1..], answered);
      if HasAnswer(c, ids[0]) == answered then [ids[0]] + rest else rest
  }

  /** The ids are listed in strictly increasing order. */
  predicate Increasing(ids: seq<nat>)
  {
    forall a, b :: 0 <= a < b < |ids| ==> ids[a] < ids[b]
  }

  /** The filter keeps the list's increasing id order. */
  lemma {:induction false} WithAnswerStateKeepsOrder(c: Content, ids: seq<nat>, answered: bool)
    requires Increasing(ids)
    ensures Increasing(WithAnswerState(c, ids, answered))
  {
    if |ids| > 0 {
      var r := WithAnswerState(c, ids, answered);
      var rest := WithAnswerState(c, ids[1..], answered);
      WithAnswerStateKeepsOrder(c, ids[1..], answered);
      if HasAnswer(c, ids[0]) == answered {
        assert r == [ids[0]] + rest;
        forall a, b | 0 <= a < b < |r| ensures r[a] < r[b] {
          assert r[b] == rest[b - 1];
          if a == 0 {
            assert rest[b - 1] in ids[1..];
            var k :| 0 <= k < |ids[1..]| && ids[1..][k] == rest[b - 1];
            assert ids[1..][k] == ids[k + 1];
          } else {
            assert r[a] == rest[a - 1];
          }
        }
      } else {
        assert r == rest;
      }
    }
  }

  /** findUnansweredQuestionsByMediaId: the joined questions no answer refers to. */
  function UnansweredQuestionsOfMedia(c: Content, mediaId: nat): (r: seq<nat>)
    requires Valid(c)
    ensures forall q :: q in r <==> q in JoinedQuestionsOfMedia(c, mediaId) && !HasAnswer(c, q)
  {
    WithAnswerState(c, JoinedQuestionsOfMedia(c, mediaId), false)
  }

  /** findAnsweredQuestionsByMediaId: the joined questions some answer refers to. */
  function AnsweredQuestionsOfMedia(c: Content, mediaId: nat): (r: seq<nat>)
    requires Valid(c)
    ensures forall q :: q in r <==> q in JoinedQuestionsOfMedia(c, mediaId) && HasAnswer(c, q)
  {
    WithAnswerState(c, JoinedQuestionsOfMedia(c, mediaId), true)
  }

  /** The existsById check every listing makes before it queries. */
  function ListIfMediaExists(c: Content, mediaId: nat, ids: seq<nat>): (r: Result<seq<QuestionResponse>>)
    requires forall i :: i in ids ==> i in c.questions
    ensures r.Ok? <==> mediaId in c.media
    ensures r.Err? ==> r == Err(EntityNotFound(MEDIA_NOT_FOUND + NatToString(mediaId)))
    ensures r.Ok? ==> IdsOf(r.value) == ids
  {
    if mediaId !in c.media then Err(EntityNotFound(MEDIA_NOT_FOUND + NatToString(mediaId)))
    else Ok(Responses(c, ids))
  }

  /** getQuestionsByMediaId. */
  function GetQuestionsByMediaId(c: Content, mediaId: nat): (r: Result<seq<QuestionResponse>>)
    requires Valid(c)
    ensures r.Ok? <==> mediaId in c.media
    ensures r.Err? ==> r == Err(EntityNotFound(MEDIA_NOT_FOUND + NatToString(mediaId)))
    ensures r.Ok? ==> forall q :: q in IdsOf(r.value)
                       <==> q in c.questions && c.questions[q].mediaId == Some(mediaId) && Uploaded(c, mediaId)
  {
    ListIfMediaExists(c, mediaId, JoinedQuestionsOfMedia(c, mediaId))
  }

  /** getUnansweredQuestionsByMediaId. */
  function GetUnansweredQuestionsByMediaId(c: Content, mediaId: nat): (r: Result<seq<QuestionResponse>>)
    requires Valid(c)
    ensures r.Ok? <==> mediaId in c.media
    ensures r.Err? ==> r == Err(EntityNotFound(MEDIA_NOT_FOUND + NatToString(mediaId)))
    ensures r.Ok? ==> forall q :: q in IdsOf(r.value)
                       <==> q in c.questions && c.questions[q].mediaId == Some(mediaId) && Uploaded(c, mediaId)
                            && !HasAnswer(c, q)
  {
    ListIfMediaExists(c, mediaId, UnansweredQuestionsOfMedia(c, mediaId))
  }

  /** getAnsweredQuestionsByMediaId. */
  function GetAnsweredQuestionsByMediaId(c: Content, mediaId: nat): (r: Result<seq<QuestionResponse>>)
    requires Valid(c)
    ensures r.Ok? <==> mediaId in c.media
    ensures r.Err? ==> r == Err(EntityNotFound(MEDIA_NOT_FOUND + NatToString(mediaId)))
    ensures r.Ok? ==> forall q :: q in IdsOf(r.value)
                       <==> q in c.questions && c.questions[q].mediaId == Some(mediaId) && Uploaded(c, mediaId)
                            && HasAnswer(c, q)
  {
    ListIfMediaExists(c, mediaId, AnsweredQuestionsOfMedia(c, mediaId))
  }

  /** The two filters split a list between them, element for element. */
  lemma {:induction false} AnswerStatesSplit(c: Content, ids: seq<nat>)
    ensures |WithAnswerState(c, ids, true)| + |WithAnswerState(c, ids, false)| == |ids|
  {
    if |ids| > 0 {
      AnswerStatesSplit(c, ids[1..]);
    }
  }

  /** For an existing media item the answered and unanswered listings
      partition the full listing: every question is in exactly one of them,
      and their sizes add up. */
  lemma AnsweredAndUnansweredPartition(c: Content, mediaId: nat)
    requires Valid(c) && mediaId in c.media
    ensures var all := IdsOf(GetQuestionsByMediaId(c, mediaId).value);
            var yes := IdsOf(GetAnsweredQuestionsByMediaId(c, mediaId).value);
            var no := IdsOf(GetUnansweredQuestionsByMediaId(c, mediaId).value);
            && (forall q :: q in all <==> q in yes || q in no)
            && (forall q :: !(q in yes && q in no))
            && |yes| + |no| == |all|
  {
    AnswerStatesSplit(c, JoinedQuestionsOfMedia(c, mediaId));
  }

  // ---------------------------------------------------------------------
  // Creating and updating
  // ---------------------------------------------------------------------

  /** The row createUserQuestion saves: the media must exist; the theme comes
      from its album, and the other columns take the user-question defaults. */
  function NewUserQuestion(c: Content, mediaId: nat, content: string): (r: Result<QuestionRow>)
    ensures r.Ok? <==> mediaId in c.media
    ensures r.Err? ==> r == Err(EntityNotFound(MEDIA_NOT_FOUND + NatToString(mediaId)))
    ensures r.Ok? ==> && r.value.mediaId == Some(mediaId) && r.value.content == content
                      && r.value.theme == Some(DetermineTheme(AlbumThemeOf(c, c.media[mediaId])))
                      && r.value.category == Some(USER_QUESTION) && r.value.level == Some(DEFAULT_LEVEL)
                      && !r.value.isPrivate && r.value.keywordsUsed == Some("")
  {
    if mediaId !in c.media then Err(EntityNotFound(MEDIA_NOT_FOUND + NatToString(mediaId)))
    else
      var theme := DetermineTheme(AlbumThemeOf(c, c.media[mediaId]));
      Ok(QuestionRow(Some(mediaId), content, Some(theme), false, Some(""), Some(DEFAULT_LEVEL), Some(USER_QUESTION)))
  }

  /** createUserQuestion: saves the new row under the next id and returns its response. */
  method CreateUserQuestion(content: ContentTables, mediaId: nat, text: string) returns (r: Result<QuestionResponse>)
    requires Valid(content.State())
    modifies content
    ensures NewUserQuestion(old(content.State()), mediaId, text).Err? ==>
              r == NewUserQuestion(old(content.State()), mediaId, text).PropagateFailure()
              && content.State() == old(content.State())
    ensures NewUserQuestion(old(content.State()), mediaId, text).Ok? ==>
              var row := NewUserQuestion(old(content.State()), mediaId, text).value;
              && content.State() == old(content.State()).(questions := old(content.questions)[old(content.nextId) := row],
                                                          nextId := old(content.nextId) + 1)
              && r == Ok(FromEntity(content.State(), old(content.nextId), row))
    ensures Valid(content.State())
  {
    var row :- NewUserQuestion(content.State(), mediaId, text);
    var id := content.InsertQuestion(row);
    r := Ok(FromEntity(content.State(), id, row));
  }

  /** A created question joins the end of its media's listing when the
      media has an uploader; other media's listings do not change. */
  lemma CreatedQuestionIsListedLast(c: Content, mediaId: nat, text: string, m: nat)
    requires Valid(c) && NewUserQuestion(c, mediaId, text).Ok?
    ensures var c' := c.(questions := c.questions[c.nextId := NewUserQuestion(c, mediaId, text).value],
                         nextId := c.nextId + 1);
            && Valid(c')
            && JoinedQuestionsOfMedia(c', m)
               == JoinedQuestionsOfMedia(c, m) + (if m == mediaId && Uploaded(c, m) then [c.nextId] else [])
  {
    var uploaded := Uploaded(c, m);
    IdsWhereInsert(c.questions, (q: QuestionRow) => q.mediaId == Some(m) && uploaded, c.nextId,
                   NewUserQuestion(c, mediaId, text).value);
  }

  /** The row updateQuestion saves: the fetched question with its content
      replaced and every other column kept. */
  function UpdatedQuestion(c: Content, questionId: nat, text: string): (r: Result<QuestionRow>)
    ensures r.Ok? <==> FindWithMediaAndUploader(c, questionId).Some?
    ensures r.Err? ==> r == Err(EntityNotFound(QUESTION_NOT_FOUND + NatToString(questionId)))
    ensures r.Ok? ==> r.value.content == text && r.value.(content := c.questions[questionId].content) == c.questions[questionId]
  {
    match FindWithMediaAndUploader(c, questionId)
    case None => Err(EntityNotFound(QUESTION_NOT_FOUND + NatToString(questionId)))
    case Some(q) => Ok(q.(content := text))
  }

  /** updateQuestion: stores the updated row under its own id. */
  method UpdateQuestion(content: ContentTables, questionId: nat, text: string) returns (r: Result<QuestionResponse>)
    modifies content
    ensures UpdatedQuestion(old(content.State()), questionId, text).Err? ==>
              r == UpdatedQuestion(old(content.State()), questionId, text).PropagateFailure()
              && content.State() == old(content.State())
    ensures UpdatedQuestion(old(content.State()), questionId, text).Ok? ==>
              var row := UpdatedQuestion(old(content.State()), questionId, text).value;
              && content.State() == old(content.State()).(questions := old(content.questions)[questionId := row])
              && r == Ok(FromEntity(content.State(), questionId, row))
  {
    var row :- UpdatedQuestion(content.State(), questionId, text);
    content.PutQuestion(questionId, row);
    r := Ok(FromEntity(content.State(), questionId, row));
  }

  /** The tables after a successful updateQuestion: the edited row under its id. */
  function AfterUpdate(c: Content, questionId: nat, text: string): (c': Content)
    requires Valid(c) && UpdatedQuestion(c, questionId, text).Ok?
    ensures Valid(c')
    ensures c'.questions.Keys == c.questions.Keys && c'.answers == c.answers && c'.media == c.media
  {
    c.(questions := c.questions[questionId := UpdatedQuestion(c, questionId, text).value])
  }

  /** An update moves no question between listings: every media item's
      full, answered and unanswered listings are as before. */
  lemma UpdateKeepsListings(c: Content, questionId: nat, text: string, m: nat)
    requires Valid(c) && UpdatedQuestion(c, questionId, text).Ok?
    ensures var c' := AfterUpdate(c, questionId, text);
            && JoinedQuestionsOfMedia(c', m) == JoinedQuestionsOfMedia(c, m)
            && AnsweredQuestionsOfMedia(c', m) == AnsweredQuestionsOfMedia(c, m)
            && UnansweredQuestionsOfMedia(c', m) == UnansweredQuestionsOfMedia(c, m)
  {
    var c' := AfterUpdate(c, questionId, text);
    var uploaded := Uploaded(c, m);
    IdsWhereFrame(c.questions, c'.questions, (q: QuestionRow) => q.mediaId == Some(m) && uploaded, c.nextId);
    assert JoinedQuestionsOfMedia(c', m) == JoinedQuestionsOfMedia(c, m);
    WithAnswerStateOnlyReadsAnswers(c, c', JoinedQuestionsOfMedia(c, m));
  }

  /** The answered state of a list depends on the answers alone. */
  lemma {:induction false} WithAnswerStateOnlyReadsAnswers(c: Content, c': Content, ids: seq<nat>)
    requires c.answers == c'.answers
    ensures WithAnswerState(c, ids, true) == WithAnswerState(c', ids, true)
    ensures WithAnswerState(c, ids, false) == WithAnswerState(c', ids, false)
  {
    if |ids| > 0 {
      WithAnswerStateOnlyReadsAnswers(c, c', ids[1..]);
    }
  }
}
