/** The album-content tables: albums, media, questions, answers, stories,
    keywords and media-keyword links, as the repositories of the album and
    media packages store them.

    Each table maps an identity to its row. One identity sequence serves all
    tables: an insert takes the next value, so within a table ids are unique
    and grow in insertion order, which is the order the list queries return. */
module ContentStore {
  import opened Common
  import AlbumEntity

  datatype MediaType = IMAGE | VIDEO

  /** A stored media item. `imageUrl` and `analysisResult` are the
      properties the services set on it besides the declared columns. */
  datatype MediaRow = MediaRow(
    fileUrl: string,
    fileType: MediaType,
    originalFilename: string,
    fileSize: int,
    thumbnailUrl: Option<string>,
    imageUrl: Option<string>,
    analysisResult: Option<string>,
    albumId: Option<nat>,
    uploadedBy: Option<nat>,
    createdAt: Instant)

  datatype QuestionTheme = SENIOR_CARE | CHILD_STORY | COUPLE_STORY

  /** A stored question; `level` and `category` are the properties the
      services set besides the declared columns. */
  datatype QuestionRow = QuestionRow(
    mediaId: Option<nat>,
    content: string,
    theme: Option<QuestionTheme>,
    isPrivate: bool,
    keywordsUsed: Option<string>,
    level: Option<int>,
    category: Option<string>)

  /** A stored answer: media, user, content and question are not-null columns. */
  datatype AnswerRow = AnswerRow(mediaId: nat, userId: nat, content: string, isPrivate: bool, questionId: nat)

  datatype StoryRow = StoryRow(mediaId: Option<nat>, content: string, createdBy: Option<nat>)

  datatype KeywordCategory = OBJECT | EMOTION | ACTION | PLACE | EVENT

  /** A keyword; its name is unique. */
  datatype KeywordRow = KeywordRow(name: string, category: KeywordCategory)

  datatype MediaKeywordRow = MediaKeywordRow(mediaId: nat, keywordId: nat, confidenceScore: real)

  datatype Content = Content(
    albums: map<nat, AlbumEntity.AlbumRow>,
    media: map<nat, MediaRow>,
    questions: map<nat, QuestionRow>,
    answers: map<nat, AnswerRow>,
    stories: map<nat, StoryRow>,
    keywords: map<nat, KeywordRow>,
    mediaKeywords: map<nat, MediaKeywordRow>,
    nextId: nat)

  /** Every stored id has already been issued. */
  predicate Valid(c: Content)
  {
    && (forall i :: i in c.albums ==> i < c.nextId)
    && (forall i :: i in c.media ==> i < c.nextId)
    && (forall i :: i in c.questions ==> i < c.nextId)
    && (forall i :: i in c.answers ==> i < c.nextId)
    && (forall i :: i in c.stories ==> i < c.nextId)
    && (forall i :: i in c.keywords ==> i < c.nextId)
    && (forall i :: i in c.mediaKeywords ==> i < c.nextId)
  }

  /** The ids below `n` whose rows satisfy `keep`, in increasing order: a
      list query over a table. */
  function IdsWhere<R>(m: map<nat, R>, keep: R -> bool, n: nat): (r: seq<nat>)
    ensures forall i :: i in r <==> i < n && i in m && keep(m[i])
    ensures forall a, b :: 0 <= a < b < |r| ==> r[a] < r[b]
    ensures |r| <= n
  {
    if n == 0 then []
    else
      var prev := IdsWhere(m, keep, n - 1);
      assert forall x :: x in prev ==> x < n - 1;
      assert forall a :: 0 <= a < |prev| ==> prev[a] in prev;
      if n - 1 in m && keep(m[n - 1]) then prev + [n - 1] else prev
  }

  /** A list query below `n` sees only which rows below `n` it keeps. */
  lemma {:induction false} IdsWhereFrame<R>(m1: map<nat, R>, m2: map<nat, R>, keep: R -> bool, n: nat)
    requires forall i :: i < n ==> (i in m1 <==> i in m2)
    requires forall i :: i < n && i in m1 ==> keep(m1[i]) == keep(m2[i])
    ensures IdsWhere(m1, keep, n) == IdsWhere(m2, keep, n)
  {
    if n > 0 {
      IdsWhereFrame(m1, m2, keep, n - 1);
    }
  }

  /** Storing a row under the next id appends that id to a listing the row satisfies. */
  lemma IdsWhereInsert<R>(m: map<nat, R>, keep: R -> bool, n: nat, row: R)
    requires forall i :: i in m ==> i < n
    ensures IdsWhere(m[n := row], keep, n + 1) == IdsWhere(m, keep, n) + (if keep(row) then [n] else [])
  {
    IdsWhereFrame(m, m[n := row], keep, n);
  }

  /** findAllByGroupId. The query has no ORDER BY, so the database may
      return the rows in any order; the model fixes id order. */
  function AlbumsOfGroup(c: Content, groupId: nat): (r: seq<nat>)
    requires Valid(c)
    ensures forall i :: i in r <==> i in c.albums && c.albums[i].groupId == Some(groupId)
  {
    IdsWhere(c.albums, (a: AlbumEntity.AlbumRow) => a.groupId == Some(groupId), c.nextId)
  }

  /** An album inserted under the next id joins the end of its group's
      listing; no other group's listing changes. */
  lemma InsertedAlbumIsListedLast(c: Content, row: AlbumEntity.AlbumRow, g: nat)
    requires Valid(c)
    ensures var c' := c.(albums := c.albums[c.nextId := row], nextId := c.nextId + 1);
            && Valid(c')
            && AlbumsOfGroup(c', g) == AlbumsOfGroup(c, g) + (if row.groupId == Some(g) then [c.nextId] else [])
  {
    IdsWhereInsert(c.albums, (a: AlbumEntity.AlbumRow) => a.groupId == Some(g), c.nextId, row);
  }

  /** The media of an album. */
  function MediaOfAlbum(c: Content, albumId: nat): (r: seq<nat>)
    requires Valid(c)
    ensures forall i :: i in r <==> i in c.media && c.media[i].albumId == Some(albumId)
  {
    IdsWhere(c.media, (m: MediaRow) => m.albumId == Some(albumId), c.nextId)
  }

  /** questionRepository.findByMediaId. */
  function QuestionsOfMedia(c: Content, mediaId: nat): (r: seq<nat>)
    requires Valid(c)
    ensures forall i :: i in r <==> i in c.questions && c.questions[i].mediaId == Some(mediaId)
  {
    IdsWhere(c.questions, (q: QuestionRow) => q.mediaId == Some(mediaId), c.nextId)
  }

  /** answerRepository.findByMediaId. */
  function AnswersOfMedia(c: Content, mediaId: nat): (r: seq<nat>)
    requires Valid(c)
    ensures forall i :: i in r <==> i in c.answers && c.answers[i].mediaId == mediaId
  {
    IdsWhere(c.answers, (a: AnswerRow) => a.mediaId == mediaId, c.nextId)
  }

  /** Media.getStories(): the stories of a media item. */
  function StoriesOfMedia(c: Content, mediaId: nat): (r: seq<nat>)
    requires Valid(c)
    ensures forall i :: i in r <==> i in c.stories && c.stories[i].mediaId == Some(mediaId)
  {
    IdsWhere(c.stories, (s: StoryRow) => s.mediaId == Some(mediaId), c.nextId)
  }

  class ContentTables {
    var albums: map<nat, AlbumEntity.AlbumRow>
    var media: map<nat, MediaRow>
    var questions: map<nat, QuestionRow>
    var answers: map<nat, AnswerRow>
    var stories: map<nat, StoryRow>
    var keywords: map<nat, KeywordRow>
    var mediaKeywords: map<nat, MediaKeywordRow>
    var nextId: nat

    function State(): Content
      reads this
    {
      Content(albums, media, questions, answers, stories, keywords, mediaKeywords, nextId)
    }

    constructor ()
      ensures State() == Content(map[], map[], map[], map[], map[], map[], map[], 1) && Valid(State())
    {
      albums, media, questions, answers := map[], map[], map[], map[];
      stories, keywords, mediaKeywords := map[], map[], map[];
      nextId := 1;
    }

    /** A transaction rollback: every table returns to the saved state. */
    method Restore(saved: Content)
      modifies this
      ensures State() == saved
    {
      albums, media, questions, answers := saved.albums, saved.media, saved.questions, saved.answers;
      stories, keywords, mediaKeywords := saved.stories, saved.keywords, saved.mediaKeywords;
      nextId := saved.nextId;
    }

    method InsertAlbum(row: AlbumEntity.AlbumRow) returns (id: nat)
      modifies this
      ensures id == old(nextId)
      ensures State() == old(State()).(albums := old(albums)[id := row], nextId := id + 1)
    {
      id := nextId;
      albums := albums[id := row];
      nextId := nextId + 1;
    }

    method PutAlbum(id: nat, row: AlbumEntity.AlbumRow)
      modifies this
      ensures State() == old(State()).(albums := old(albums)[id := row])
    {
      albums := albums[id := row];
    }

    method DeleteAlbum(id: nat)
      modifies this
      ensures State() == old(State()).(albums := old(albums) - {id})
    {
      albums := albums - {id};
    }

    method InsertMedia(row: MediaRow) returns (id: nat)
      modifies this
      ensures id == old(nextId)
      ensures State() == old(State()).(media := old(media)[id := row], nextId := id + 1)
    {
      id := nextId;
      media := media[id := row];
      nextId := nextId + 1;
    }

    method PutMedia(id: nat, row: MediaRow)
      modifies this
      ensures State() == old(State()).(media := old(media)[id := row])
    {
      media := media[id := row];
    }

    method InsertQuestion(row: QuestionRow) returns (id: nat)
      modifies this
      ensures id == old(nextId)
      ensures State() == old(State()).(questions := old(questions)[id := row], nextId := id + 1)
    {
      id := nextId;
      questions := questions[id := row];
      nextId := nextId + 1;
    }

    method PutQuestion(id: nat, row: QuestionRow)
      modifies this
      ensures State() == old(State()).(questions := old(questions)[id := row])
    {
      questions := questions[id := row];
    }

    method InsertAnswer(row: AnswerRow) returns (id: nat)
      modifies this
      ensures id == old(nextId)
      ensures State() == old(State()).(answers := old(answers)[id := row], nextId := id + 1)
    {
      id := nextId;
      answers := answers[id := row];
      nextId := nextId + 1;
    }

    method InsertStory(row: StoryRow) returns (id: nat)
      modifies this
      ensures id == old(nextId)
      ensures State() == old(State()).(stories := old(stories)[id := row], nextId := id + 1)
    {
      id := nextId;
      stories := stories[id := row];
      nextId := nextId + 1;
    }

    method InsertKeyword(row: KeywordRow) returns (id: nat)
      modifies this
      ensures id == old(nextId)
      ensures State() == old(State()).(keywords := old(keywords)[id := row], nextId := id + 1)
    {
      id := nextId;
      keywords := keywords[id := row];
      nextId := nextId + 1;
    }

    method InsertMediaKeyword(row: MediaKeywordRow) returns (id: nat)
      modifies this
      ensures id == old(nextId)
      ensures State() == old(State()).(mediaKeywords := old(mediaKeywords)[id := row], nextId := id + 1)
    {
      id := nextId;
      mediaKeywords := mediaKeywords[id := row];
      nextId := nextId + 1;
    }
  }
}
