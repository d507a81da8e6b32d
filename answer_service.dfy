/** AnswerService: saving a user's answer to a media item's question, from
    a text or from an audio file the speech-to-text service transcribes.
    The transcription is a parameter: the transcript the service would
    return, or the failure it would throw. */
module AnswerService {
  import opened Common
  import opened ContentStore
  import QS = QuestionService

  const NO_QUESTIONS: string := "미디어에 연결된 질문이 없습니다: "
  const NOT_LINKED: string := "해당 질문이 미디어와 연결되어 있지 않습니다. 질문 ID: "

  /** An audio file was sent and it is not empty. */
  predicate HasAudio(audio: Option<FilePart>)
  {
    audio.Some? && !audio.value.IsEmpty()
  }

  /** The answer text: the transcript of a non-empty audio file, the text
      otherwise. A failed transcription propagates. */
  function ChooseContent(text: Option<string>, audio: Option<FilePart>, transcript: Result<string>): (r: Result<Option<string>>)
    ensures HasAudio(audio) ==> (r.Ok? <==> transcript.Ok?)
    ensures HasAudio(audio) && transcript.Ok? ==> r == Ok(Some(transcript.value))
    ensures HasAudio(audio) && transcript.Err? ==> r == Err(transcript.error)
    ensures !HasAudio(audio) ==> r == Ok(text)
  {
    if HasAudio(audio) then
      var t :- transcript;
      Ok(Some(t))
    else Ok(text)
  }

  /** The answer row a save inserts: its content is a not-null column, so a
      missing content fails the insert. */
  function AnswerRowFor(mediaId: nat, userId: nat, content: Option<string>, questionId: nat): (r: Result<AnswerRow>)
    ensures r.Ok? <==> content.Some?
    ensures r.Err? ==> r == Err(ConstraintViolation("answers.content"))
    ensures r.Ok? ==> r.value.mediaId == mediaId && r.value.userId == userId && r.value.questionId == questionId
                      && r.value.content == content.value && !r.value.isPrivate
  {
    if content.None? then Err(ConstraintViolation("answers.content"))
    else Ok(AnswerRow(mediaId, userId, content.value, false, questionId))
  }

  /** saveAnswer(mediaId, user, text, audio): the media must exist; the
      content is chosen (transcribing first); then the media's questions are
      fetched and the answer goes to the first of them. */
  function FirstQuestionAnswer(c: Content, mediaId: nat, userId: nat, text: Option<string>,
                               audio: Option<FilePart>, transcript: Result<string>): (r: Result<AnswerRow>)
    requires Valid(c)
    ensures mediaId !in c.media ==> r == Err(EntityNotFound(QS.MEDIA_NOT_FOUND + NatToString(mediaId)))
    ensures mediaId in c.media && ChooseContent(text, audio, transcript).Err? ==> r == Err(transcript.error)
    ensures mediaId in c.media && ChooseContent(text, audio, transcript).Ok? && |QS.JoinedQuestionsOfMedia(c, mediaId)| == 0
            ==> r == Err(EntityNotFound(NO_QUESTIONS + NatToString(mediaId)))
    // a null content (no audio and no text) fails the insert on the not-null column
    ensures mediaId in c.media && ChooseContent(text, audio, transcript) == Ok(None)
            && |QS.JoinedQuestionsOfMedia(c, mediaId)| > 0
            ==> r == Err(ConstraintViolation("answers.content"))
    // the save succeeds exactly when the media exists, a content is chosen and the media has a question
    ensures r.Ok? <==> && mediaId in c.media && ChooseContent(text, audio, transcript).Ok?
                       && ChooseContent(text, audio, transcript).value.Some?
                       && |QS.JoinedQuestionsOfMedia(c, mediaId)| > 0
    ensures r.Ok? ==> && |QS.JoinedQuestionsOfMedia(c, mediaId)| > 0
                      && r.value.questionId == QS.JoinedQuestionsOfMedia(c, mediaId)[0]
                      && r.value.mediaId == mediaId && r.value.userId == userId
                      && Some(r.value.content) == ChooseContent(text, audio, transcript).value
  {
    if mediaId !in c.media then Err(EntityNotFound(QS.MEDIA_NOT_FOUND + NatToString(mediaId)))
    else
      var content :- ChooseContent(text, audio, transcript);
      var questions := QS.JoinedQuestionsOfMedia(c, mediaId);
      if |questions| == 0 then Err(EntityNotFound(NO_QUESTIONS + NatToString(mediaId)))
      else AnswerRowFor(mediaId, userId, content, questions[0])
  }

  /** The transcription runs before the questions are fetched: a media item
      with no questions reports the transcription's failure, not the missing
      questions. */
  lemma TranscriptionFailsBeforeQuestionCheck(c: Content, mediaId: nat, userId: nat, text: Option<string>,
                                              audio: FilePart, failure: Exception)
    requires Valid(c) && mediaId in c.media && !audio.IsEmpty()
    ensures FirstQuestionAnswer(c, mediaId, userId, text, Some(audio), Err(failure)) == Err(failure)
  {
  }

  /** saveAnswer(mediaId, questionId, user, text, audio): media first, then
      the question, then the question must belong to the media (a question
      without a media fails on the null); the content is chosen last. */
  function QuestionAnswer(c: Content, mediaId: nat, questionId: nat, userId: nat, text: Option<string>,
                          audio: Option<FilePart>, transcript: Result<string>): (r: Result<AnswerRow>)
    ensures mediaId !in c.media ==> r == Err(EntityNotFound(QS.MEDIA_NOT_FOUND + NatToString(mediaId)))
    ensures mediaId in c.media && questionId !in c.questions
            ==> r == Err(EntityNotFound(QS.QUESTION_NOT_FOUND + NatToString(questionId)))
    ensures mediaId in c.media && questionId in c.questions && c.questions[questionId].mediaId.None?
            ==> r == Err(NullPointer)
    ensures mediaId in c.media && questionId in c.questions && c.questions[questionId].mediaId.Some?
            && c.questions[questionId].mediaId.value != mediaId
            ==> r == Err(IllegalArgument(NOT_LINKED + NatToString(questionId) + ", 미디어 ID: " + NatToString(mediaId)))
    ensures r.Ok? <==> && mediaId in c.media && questionId in c.questions
                       && c.questions[questionId].mediaId == Some(mediaId)
                       && ChooseContent(text, audio, transcript).Ok?
                       && ChooseContent(text, audio, transcript).value.Some?
    ensures r.Ok? ==> && r.value.mediaId == mediaId && r.value.questionId == questionId && r.value.userId == userId
                      && Some(r.value.content) == ChooseContent(text, audio, transcript).value
                      && !r.value.isPrivate
  {
    if mediaId !in c.media then Err(EntityNotFound(QS.MEDIA_NOT_FOUND + NatToString(mediaId)))
    else if questionId !in c.questions then Err(EntityNotFound(QS.QUESTION_NOT_FOUND + NatToString(questionId)))
    else
      var q := c.questions[questionId];
      if q.mediaId.None? then Err(NullPointer)
      else if q.mediaId.value != mediaId then
        Err(IllegalArgument(NOT_LINKED + NatToString(questionId) + ", 미디어 ID: " + NatToString(mediaId)))
      else
        var content :- ChooseContent(text, audio, transcript);
        AnswerRowFor(mediaId, userId, content, questionId)
  }

  /** A non-empty audio file decides the answer alone: the text sent with it
      changes nothing. */
  lemma AudioOverridesText(c: Content, mediaId: nat, questionId: nat, userId: nat,
                           text1: Option<string>, text2: Option<string>, audio: FilePart, transcript: Result<string>)
    requires !audio.IsEmpty()
    ensures QuestionAnswer(c, mediaId, questionId, userId, text1, Some(audio), transcript)
            == QuestionAnswer(c, mediaId, questionId, userId, text2, Some(audio), transcript)
  {
  }

  /** The legacy overload: inserts the answer under the next id. */
  method SaveAnswer(content: ContentTables, mediaId: nat, userId: nat, text: Option<string>,
                    audio: Option<FilePart>, transcript: Result<string>) returns (r: Result<nat>)
    requires Valid(content.State())
    modifies content
    ensures var row := FirstQuestionAnswer(old(content.State()), mediaId, userId, text, audio, transcript);
            && (row.Err? ==> r == row.PropagateFailure() && content.State() == old(content.State()))
            && (row.Ok? ==> r == Ok(old(content.nextId))
                            && content.State() == old(content.State()).(answers := old(content.answers)[old(content.nextId) := row.value],
                                                                        nextId := old(content.nextId) + 1))
  {
    var row :- FirstQuestionAnswer(content.State(), mediaId, userId, text, audio, transcript);
    var id := content.InsertAnswer(row);
    r := Ok(id);
  }

  /** The overload with a question id: inserts the answer under the next id. */
  method SaveAnswerToQuestion(content: ContentTables, mediaId: nat, questionId: nat, userId: nat, text: Option<string>,
                              audio: Option<FilePart>, transcript: Result<string>) returns (r: Result<nat>)
    modifies content
    ensures var row := QuestionAnswer(old(content.State()), mediaId, questionId, userId, text, audio, transcript);
            && (row.Err? ==> r == row.PropagateFailure() && content.State() == old(content.State()))
            && (row.Ok? ==> r == Ok(old(content.nextId))
                            && content.State() == old(content.State()).(answers := old(content.answers)[old(content.nextId) := row.value],
                                                                        nextId := old(content.nextId) + 1))
  {
    var row :- QuestionAnswer(content.State(), mediaId, questionId, userId, text, audio, transcript);
    var id := content.InsertAnswer(row);
    r := Ok(id);
  }

  /** Saving an answer moves its question from the media item's unanswered
      listing to its answered one; every other question keeps its place. */
  lemma SavedAnswerMarksQuestionAnswered(c: Content, mediaId: nat, questionId: nat, userId: nat,
                                         text: Option<string>, audio: Option<FilePart>, transcript: Result<string>,
                                         q: nat)
    requires Valid(c)
    requires QuestionAnswer(c, mediaId, questionId, userId, text, audio, transcript).Ok?
    ensures var c' := c.(answers := c.answers[c.nextId := QuestionAnswer(c, mediaId, questionId, userId, text, audio, transcript).value],
                         nextId := c.nextId + 1);
            && Valid(c')
            && QS.HasAnswer(c', questionId)
            && (q != questionId ==> (QS.HasAnswer(c', q) <==> QS.HasAnswer(c, q)))
  {
    var row := QuestionAnswer(c, mediaId, questionId, userId, text, audio, transcript).value;
    var c' := c.(answers := c.answers[c.nextId := row], nextId := c.nextId + 1);
    assert c'.answers[c.nextId].questionId == questionId;
    if q != questionId {
      if QS.HasAnswer(c', q) {
        var a :| a in c'.answers && c'.answers[a].questionId == q;
        assert a != c.nextId && a in c.answers;
      }
      if QS.HasAnswer(c, q) {
        var a :| a in c.answers && c.answers[a].questionId == q;
        assert a in c'.answers && c'.answers[a] == c.answers[a];
      }
    }
  }
}

/** The answer endpoint's own checks before it calls the service. */
module AnswerController {
  import opened Common
  import opened ContentStore
  import QS = QuestionService
  import AS = AnswerService

  const NEED_CONTENT: string := "텍스트 또는 음성 답변이 필요합니다."
  const NO_QUESTIONS: string := "미디어에 연결된 질문이 없습니다."

  /** The id, content, category and level the response lists for each question. */
  datatype QuestionSummary = QuestionSummary(id: nat, content: string, category: Option<string>, level: Option<int>)

  /** A 400 response with a message of the endpoint's own, a 400 carrying
      the service's exception, or the success body. */
  datatype Response =
    | Rejected(message: string)
    | Failed(error: Exception)
    | Saved(answerId: nat, content: string, mediaId: nat, questionId: nat, questions: seq<QuestionSummary>)

  /** The text is missing or blank after trimming. */
  predicate BlankText(text: Option<string>)
  {
    text.None? || Trim(text.value) == ""
  }

  function Summaries(c: Content, ids: seq<nat>): (r: seq<QuestionSummary>)
    requires forall i :: i in ids ==> i in c.questions
    ensures |r| == |ids|
    ensures forall j :: 0 <= j < |ids| ==> r[j].id == ids[j] && r[j].content == c.questions[ids[j]].content
  {
    seq(|ids|, j requires 0 <= j < |ids| =>
      QuestionSummary(ids[j], c.questions[ids[j]].content, c.questions[ids[j]].category, c.questions[ids[j]].level))
  }

  /** createAnswer: a request with neither a non-blank text nor a non-empty
      audio file, or for a media item without (joined) questions, is
      refused before anything is saved; otherwise the service saves the
      answer to the given question. */
  method CreateAnswer(content: ContentTables, mediaId: nat, questionId: nat, userId: nat, text: Option<string>,
                      audio: Option<FilePart>, transcript: Result<string>) returns (r: Response)
    requires Valid(content.State())
    modifies content
    ensures BlankText(text) && !AS.HasAudio(audio) ==> r == Rejected(NEED_CONTENT) && content.State() == old(content.State())
    ensures !(BlankText(text) && !AS.HasAudio(audio)) && |QS.JoinedQuestionsOfMedia(old(content.State()), mediaId)| == 0
            ==> r == Rejected(NO_QUESTIONS) && content.State() == old(content.State())
    // past its own checks the endpoint saves exactly when the service does
    ensures !(BlankText(text) && !AS.HasAudio(audio)) && |QS.JoinedQuestionsOfMedia(old(content.State()), mediaId)| > 0
            ==> (r.Saved? <==> AS.QuestionAnswer(old(content.State()), mediaId, questionId, userId, text, audio, transcript).Ok?)
    ensures r.Saved? ==> && r.mediaId == mediaId && r.questionId == questionId && r.answerId == old(content.nextId)
                         && AS.QuestionAnswer(old(content.State()), mediaId, questionId, userId, text, audio, transcript).Ok?
                         && r.content == AS.QuestionAnswer(old(content.State()), mediaId, questionId, userId, text, audio, transcript).value.content
                         && r.questions == Summaries(old(content.State()), QS.JoinedQuestionsOfMedia(old(content.State()), mediaId))
                         // the answer row is stored under the next id and nothing else changes
                         && content.State() == old(content.State()).(
                              answers := old(content.answers)[old(content.nextId) :=
                                AS.QuestionAnswer(old(content.State()), mediaId, questionId, userId, text, audio, transcript).value],
                              nextId := old(content.nextId) + 1)
    ensures r.Failed? ==> && AS.QuestionAnswer(old(content.State()), mediaId, questionId, userId, text, audio, transcript).Err?
                          && r.error == AS.QuestionAnswer(old(content.State()), mediaId, questionId, userId, text, audio, transcript).error
                          && content.State() == old(content.State())
    ensures AS.QuestionAnswer(old(content.State()), mediaId, questionId, userId, text, audio, transcript).Err? ==> !r.Saved?
  {
    if BlankText(text) && !AS.HasAudio(audio) {
      return Rejected(NEED_CONTENT);
    }
    var questions := QS.JoinedQuestionsOfMedia(content.State(), mediaId);
    if |questions| == 0 {
      return Rejected(NO_QUESTIONS);
    }
    var before := content.State();
    var saved := AS.SaveAnswerToQuestion(content, mediaId, questionId, userId, text, audio, transcript);
    if saved.Err? {
      return Failed(saved.error);
    }
    var row := AS.QuestionAnswer(before, mediaId, questionId, userId, text, audio, transcript).value;
    r := Saved(saved.value, row.content, mediaId, questionId, Summaries(before, questions));
  }

  /** A request the endpoint accepts has content to save: a non-blank text
      alone always yields an answer row once the question matches the media. */
  lemma AcceptedTextIsSaved(c: Content, mediaId: nat, questionId: nat, userId: nat, text: string,
                            transcript: Result<string>)
    requires mediaId in c.media && questionId in c.questions && c.questions[questionId].mediaId == Some(mediaId)
    requires !BlankText(Some(text))
    ensures AS.QuestionAnswer(c, mediaId, questionId, userId, Some(text), None, transcript) ==
            Ok(AnswerRow(mediaId, userId, text, false, questionId))
  {
  }
}
