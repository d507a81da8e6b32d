/** MediaAnalysisService: storing an image analysis for a media item. The
    analysis is a JSON object; its "analysis_result" labels and objects
    become keywords linked to the media item, and its "questions" become
    question rows. Keyword categories and question themes follow fixed
    substring and name rules. The whole call is one transaction: any
    failure is rethrown as a RuntimeException and rolls every write back. */
module MediaAnalysis {
  import opened Common
  import opened ContentStore

  const MEDIA_NOT_FOUND: string := "미디어를 찾을 수 없습니다: "
  const PROCESSING_FAILED: string := "분석 결과 처리 중 오류가 발생했습니다: "

  /** At most this many label descriptions are recorded with each question. */
  const MAX_KEYWORDS: nat := 5

  // ---------------------------------------------------------------------
  // Keyword categories and question themes
  // ---------------------------------------------------------------------

  /** The substring rules, in the order they are tried. */
  const CATEGORY_RULES: seq<(seq<string>, KeywordCategory)> := [
    (["person", "people", "face"], OBJECT),
    (["happy", "sad", "joy"], EMOTION),
    (["walk", "run", "play"], ACTION),
    (["park", "house", "school"], PLACE),
    (["birthday", "wedding", "party"], EVENT)]

  /** Some word of a rule occurs in `s`. */
  predicate AnyOccurs(words: seq<string>, s: string)
  {
    exists w :: w in words && Contains(s, w)
  }

  /** The category of the first rule with a word in `s`; OBJECT when none has. */
  function FirstRule(rules: seq<(seq<string>, KeywordCategory)>, s: string): KeywordCategory
  {
    if |rules| == 0 then OBJECT
    else if AnyOccurs(rules[0].0, s) then rules[0].1
    else FirstRule(rules[1..], s)
  }

  /** determineCategory: the lower-cased keyword against the rules, in order. */
  function DetermineCategory(keyword: string): (r: KeywordCategory)
  {
    var k := Lower(keyword);
    if Contains(k, "person") || Contains(k, "people") || Contains(k, "face") then OBJECT
    else if Contains(k, "happy") || Contains(k, "sad") || Contains(k, "joy") then EMOTION
    else if Contains(k, "walk") || Contains(k, "run") || Contains(k, "play") then ACTION
    else if Contains(k, "park") || Contains(k, "house") || Contains(k, "school") then PLACE
    else if Contains(k, "birthday") || Contains(k, "wedding") || Contains(k, "party") then EVENT
    else OBJECT
  }

  /** The if-chain is the rule table read top to bottom: the first rule with
      a word in the lower-cased keyword decides, and OBJECT is the default. */
  lemma DetermineCategoryFollowsRules(keyword: string)
    ensures DetermineCategory(keyword) == FirstRule(CATEGORY_RULES, Lower(keyword))
  {
    FiveRules(CATEGORY_RULES, Lower(keyword));
    var k := Lower(keyword);
    AnyOfThree("person", "people", "face", k);
    AnyOfThree("happy", "sad", "joy", k);
    AnyOfThree("walk", "run", "play", k);
    AnyOfThree("park", "house", "school", k);
    AnyOfThree("birthday", "wedding", "party", k);
  }

  /** A table of five rules, unfolded. */
  lemma FiveRules(rules: seq<(seq<string>, KeywordCategory)>, s: string)
    requires |rules| == 5
    ensures FirstRule(rules, s) ==
      if AnyOccurs(rules[0].0, s) then rules[0].1
      else if AnyOccurs(rules[1].0, s) then rules[1].1
      else if AnyOccurs(rules[2].0, s) then rules[2].1
      else if AnyOccurs(rules[3].0, s) then rules[3].1
      else if AnyOccurs(rules[4].0, s) then rules[4].1
      else OBJECT
  {
    var r1, r2, r3, r4 := rules[1..], rules[2..], rules[3..], rules[4..];
    assert r1[1..] == r2 && r2[1..] == r3 && r3[1..] == r4 && |r4[1..]| == 0;
    assert FirstRule(r4[1..], s) == OBJECT;
    assert FirstRule(r4, s) == if AnyOccurs(rules[4].0, s) then rules[4].1 else OBJECT;
    assert FirstRule(r3, s) == if AnyOccurs(rules[3].0, s) then rules[3].1 else FirstRule(r4, s);
    assert FirstRule(r2, s) == if AnyOccurs(rules[2].0, s) then rules[2].1 else FirstRule(r3, s);
    assert FirstRule(r1, s) == if AnyOccurs(rules[1].0, s) then rules[1].1 else FirstRule(r2, s);
  }

  /** A three-word rule fires exactly when one of its words occurs. */
  lemma AnyOfThree(a: string, b: string, c: string, s: string)
    ensures AnyOccurs([a, b, c], s) <==> Contains(s, a) || Contains(s, b) || Contains(s, c)
  {
    if Contains(s, a) { assert a in [a, b, c]; }
    if Contains(s, b) { assert b in [a, b, c]; }
    if Contains(s, c) { assert c in [a, b, c]; }
  }

  /** The category ignores case: a keyword and its lower-cased form agree. */
  lemma CategoryIgnoresCase(keyword: string)
    ensures DetermineCategory(Lower(keyword)) == DetermineCategory(keyword)
  {
    LowerIsIdempotent(keyword);
  }

  /** mapCategoryToTheme: switch on the lower-cased category ("temporal" and
      "sensory" give SENIOR_CARE, "relational" COUPLE_STORY, anything else
      SENIOR_CARE); a null category fails on toLowerCase. */
  function MapCategoryToTheme(category: Option<string>): (r: Result<QuestionTheme>)
    ensures r.Err? <==> category.None?
    ensures r.Err? ==> r.error == NullPointer
    ensures r.Ok? ==> r.value != CHILD_STORY
    ensures r.Ok? ==> (r.value == COUPLE_STORY <==> Lower(category.value) == "relational")
  {
    if category.None? then Err(NullPointer)
    else
      match Lower(category.value)
      case "temporal" => Ok(SENIOR_CARE)
      case "sensory" => Ok(SENIOR_CARE)
      case "relational" => Ok(COUPLE_STORY)
      case _ => Ok(SENIOR_CARE)
  }

  // ---------------------------------------------------------------------
  // Reading the analysis JSON (unchecked casts)
  // ---------------------------------------------------------------------

  /** `map.get(key)`: absent keys read as null. */
  function Get(m: map<string, Json>, key: string): (r: Json)
    ensures key !in m ==> r == JNull
    ensures key in m ==> r == m[key]
  {
    if key in m then m[key] else JNull
  }

  /** A value cast to Map and then used: null fails with a
      NullPointerException, a non-object with a ClassCastException. */
  function ObjectOf(v: Json): (r: Result<map<string, Json>>)
    ensures r.Ok? <==> v.JObj?
    ensures r.Ok? ==> r.value == v.fields
    ensures v == JNull ==> r == Err(NullPointer)
  {
    match v
    case JObj(f) => Ok(f)
    case JNull => Err(NullPointer)
    case _ => Err(ClassCast)
  }

  /** A value cast to List and then iterated. */
  function ListOf(v: Json): (r: Result<seq<Json>>)
    ensures r.Ok? <==> v.JArr?
    ensures r.Ok? ==> r.value == v.items
    ensures v == JNull ==> r == Err(NullPointer)
  {
    match v
    case JArr(items) => Ok(items)
    case JNull => Err(NullPointer)
    case _ => Err(ClassCast)
  }

  /** `(String) v`: null stays null. */
  function StringOf(v: Json): (r: Result<Option<string>>)
    ensures r.Ok? <==> v.JStr? || v == JNull
    ensures v.JStr? ==> r == Ok(Some(v.s))
    ensures v == JNull ==> r == Ok(None)
  {
    match v
    case JStr(s) => Ok(Some(s))
    case JNull => Ok(None)
    case _ => Err(ClassCast)
  }

  /** The range of a Java Integer. */
  const INT_MIN: int := -0x8000_0000
  const INT_MAX: int := 0x7FFF_FFFF

  /** `(Integer) v`: null stays null. A JSON integer outside the 32-bit range
      is read as a Long and a fraction as a Double, and neither is an Integer. */
  function IntegerOf(v: Json): (r: Result<Option<int>>)
    ensures r.Ok? <==> (v.JNum? && INT_MIN <= v.n <= INT_MAX) || v == JNull
    ensures r.Ok? && v.JNum? ==> r == Ok(Some(v.n))
    ensures v == JNull ==> r == Ok(None)
  {
    match v
    case JNum(n) => if INT_MIN <= n <= INT_MAX then Ok(Some(n)) else Err(ClassCast)
    case JNull => Ok(None)
    case _ => Err(ClassCast)
  }

  /** `((Number) v).floatValue()`: null fails on the call. */
  function ScoreOf(v: Json): (r: Result<real>)
    ensures r.Ok? <==> v.JNum? || v.JFrac?
    ensures v.JNum? ==> r == Ok(v.n as real)
    ensures v.JFrac? ==> r == Ok(v.f)
  {
    match v
    case JNum(n) => Ok(n as real)
    case JFrac(f) => Ok(f)
    case JNull => Err(NullPointer)
    case _ => Err(ClassCast)
  }

  // ---------------------------------------------------------------------
  // Keyword extraction
  // ---------------------------------------------------------------------

  /** `(String) label.get("description")` of one label. */
  function Description(entry: Json): (r: Result<Option<string>>)
    ensures r.Ok? <==> entry.JObj? && (Get(entry.fields, "description").JStr? || Get(entry.fields, "description") == JNull)
  {
    var m :- ObjectOf(entry);
    StringOf(Get(m, "description"))
  }

  /** The descriptions of a list of labels, in order; the first bad label fails. */
  function Descriptions(labels: seq<Json>): (r: Result<seq<Option<string>>>)
    ensures r.Ok? <==> forall j :: 0 <= j < |labels| ==> Description(labels[j]).Ok?
    ensures r.Ok? ==> |r.value| == |labels| && forall j :: 0 <= j < |labels| ==> Ok(r.value[j]) == Description(labels[j])
  {
    if |labels| == 0 then Ok([])
    else
      var init := labels[..|labels| - 1];
      assert forall j :: 0 <= j < |init| ==> init[j] == labels[j];
      var prev :- Descriptions(init);
      var d :- Description(labels[|labels| - 1]);
      Ok(prev + [d])
  }

  /** Once a prefix fails, every longer prefix fails with the same error. */
  lemma {:induction false} DescriptionsFirstError(labels: seq<Json>, j: nat, m: nat)
    requires j <= m <= |labels|
    requires Descriptions(labels[..j]).Err?
    ensures Descriptions(labels[..m]) == Descriptions(labels[..j])
    decreases m
  {
    if m > j {
      DescriptionsFirstError(labels, j, m - 1);
      FailedPrefixFails(labels, m);
    }
  }

  /** A prefix whose own prefix one label shorter fails, fails the same way. */
  lemma FailedPrefixFails(labels: seq<Json>, m: nat)
    requires 0 < m <= |labels| && Descriptions(labels[..m - 1]).Err?
    ensures Descriptions(labels[..m]) == Descriptions(labels[..m - 1])
  {
    assert labels[..m][..m - 1] == labels[..m - 1];
  }

  /** extractKeywordsFromAnalysisResult: the descriptions of the first five
      labels, or none when "analysis_result" or its "labels" is absent. */
  function KeywordsUsed(data: map<string, Json>): (r: Result<seq<Option<string>>>)
    ensures "analysis_result" !in data ==> r == Ok([])
    ensures "analysis_result" in data && data["analysis_result"].JObj? && "labels" !in data["analysis_result"].fields
            ==> r == Ok([])
    ensures r.Ok? ==> |r.value| <= MAX_KEYWORDS
  {
    if "analysis_result" !in data then Ok([])
    else
      var analysis :- ObjectOf(data["analysis_result"]);
      if "labels" !in analysis then Ok([])
      else
        var labels :- ListOf(analysis["labels"]);
        Descriptions(labels[..if |labels| < MAX_KEYWORDS then |labels| else MAX_KEYWORDS])
  }

  /** With well-formed labels the keywords are the first min(5, #labels)
      descriptions, in label order. */
  lemma KeywordsAreFirstDescriptions(data: map<string, Json>, labels: seq<Json>)
    requires "analysis_result" in data && data["analysis_result"].JObj?
    requires "labels" in data["analysis_result"].fields && data["analysis_result"].fields["labels"] == JArr(labels)
    requires forall j :: 0 <= j < |labels| ==> Description(labels[j]).Ok?
    ensures KeywordsUsed(data).Ok?
    ensures |KeywordsUsed(data).value| == if |labels| < MAX_KEYWORDS then |labels| else MAX_KEYWORDS
    ensures forall j :: 0 <= j < |KeywordsUsed(data).value| ==> Ok(KeywordsUsed(data).value[j]) == Description(labels[j])
  {
    var n := if |labels| < MAX_KEYWORDS then |labels| else MAX_KEYWORDS;
    assert forall j :: 0 <= j < n ==> labels[..n][j] == labels[j];
  }

  /** The extraction loop: appends each description and stops after the fifth. */
  method ExtractKeywords(data: map<string, Json>) returns (r: Result<seq<Option<string>>>)
    ensures r == KeywordsUsed(data)
  {
    if "analysis_result" !in data {
      return Ok([]);
    }
    var analysis :- ObjectOf(data["analysis_result"]);
    if "labels" !in analysis {
      return Ok([]);
    }
    var labels :- ListOf(analysis["labels"]);
    ghost var n := if |labels| < MAX_KEYWORDS then |labels| else MAX_KEYWORDS;
    var keywords: seq<Option<string>> := [];
    var i := 0;
    while i < |labels|
      invariant i <= n && i < MAX_KEYWORDS
      invariant Descriptions(labels[..i]) == Ok(keywords)
      invariant |keywords| == i
    {
      var d := Description(labels[i]);
      assert labels[..i + 1][..i] == labels[..i];
      if d.Err? {
        DescriptionsFirstError(labels, i + 1, n);
        return Err(d.error);
      }
      keywords := keywords + [d.value];
      i := i + 1;
      if |keywords| >= MAX_KEYWORDS {
        break;
      }
    }
    assert labels[..i] == labels[..n];
    r := Ok(keywords);
  }

  /** `String.join(",", keywords)`, a null keyword written "null". */
  function KeywordsText(keywords: seq<Option<string>>): string
  {
    Join(",", seq(|keywords|, j requires 0 <= j < |keywords| => keywords[j].GetOr("null")))
  }

  // ---------------------------------------------------------------------
  // Keywords and their links to a media item
  // ---------------------------------------------------------------------

  /** keywordRepository.findByName: the keyword with that name, the first
      one by id should there be several. */
  function KeywordNamed(c: Content, name: string): (r: Option<nat>)
    requires Valid(c)
    ensures r.None? <==> forall i :: i in c.keywords ==> c.keywords[i].name != name
    ensures r.Some? ==> r.value in c.keywords && c.keywords[r.value].name == name
    ensures r.Some? ==> forall i :: i in c.keywords && c.keywords[i].name == name ==> r.value <= i
  {
    var keep := (k: KeywordRow) => k.name == name;
    var ids := IdsWhere(c.keywords, keep, c.nextId);
    if |ids| == 0 then
      assert forall i :: i in c.keywords ==> !keep(c.keywords[i]);
      None
    else
      assert ids[0] in ids;
      assert forall a :: 0 <= a < |ids| ==> ids[0] <= ids[a];
      Some(ids[0])
  }

  /** mediaKeywordRepository.findByMediaAndKeyword found a link. */
  predicate HasLink(c: Content, mediaId: nat, keywordId: nat)
  {
    exists i :: i in c.mediaKeywords && c.mediaKeywords[i].mediaId == mediaId && c.mediaKeywords[i].keywordId == keywordId
  }

  /** The unique constraint on keywords.name. */
  predicate KeywordNamesUnique(c: Content)
  {
    forall i, j :: i in c.keywords && j in c.keywords && c.keywords[i].name == c.keywords[j].name ==> i == j
  }

  /** The unique constraint on media_keywords (media_id, keyword_id). */
  predicate LinksUnique(c: Content)
  {
    forall i, j ::
      i in c.mediaKeywords && j in c.mediaKeywords
      && c.mediaKeywords[i].mediaId == c.mediaKeywords[j].mediaId
      && c.mediaKeywords[i].keywordId == c.mediaKeywords[j].keywordId
      ==> i == j
  }

  /** `c2` differs from `c` only by keywords and links added under new ids:
      no keyword or link is changed or removed, and no other table is touched. */
  predicate KeywordsGrow(c: Content, c2: Content)
  {
    && c.nextId <= c2.nextId
    && c2 == c.(keywords := c2.keywords, mediaKeywords := c2.mediaKeywords, nextId := c2.nextId)
    && (forall i :: i in c.keywords ==> i in c2.keywords && c2.keywords[i] == c.keywords[i])
    && (forall i :: i in c2.keywords && i !in c.keywords ==> c.nextId <= i)
    && (forall i :: i in c.mediaKeywords ==> i in c2.mediaKeywords && c2.mediaKeywords[i] == c.mediaKeywords[i])
  }

  /** The media item is linked to the keyword that findByName returns for `name`. */
  predicate Linked(c: Content, mediaId: nat, name: string)
    requires Valid(c)
  {
    KeywordNamed(c, name).Some? && HasLink(c, mediaId, KeywordNamed(c, name).value)
  }

  /** findByName sees only the keyword table. */
  lemma KeywordNamedReadsKeywords(c: Content, c2: Content, name: string)
    requires Valid(c) && Valid(c2) && c.keywords == c2.keywords
    ensures KeywordNamed(c, name) == KeywordNamed(c2, name)
  {
    var r, r2 := KeywordNamed(c, name), KeywordNamed(c2, name);
    if r.Some? {
      assert r2.value <= r.value && r.value <= r2.value;
    }
  }

  /** Once findByName finds a keyword, adding keywords keeps it the answer. */
  lemma KeywordNamedIsStable(c: Content, c2: Content, name: string)
    requires Valid(c) && Valid(c2) && KeywordsGrow(c, c2)
    requires KeywordNamed(c, name).Some?
    ensures KeywordNamed(c2, name) == KeywordNamed(c, name)
  {
    var k := KeywordNamed(c, name).value;
    assert k in c2.keywords && c2.keywords[k].name == name;
    var k2 := KeywordNamed(c2, name).value;
    assert k2 <= k;
    assert k2 in c.keywords;
  }

  /** A media item linked to a keyword stays linked as keywords and links are added. */
  lemma LinkedIsStable(c: Content, c2: Content, mediaId: nat, name: string)
    requires Valid(c) && Valid(c2) && KeywordsGrow(c, c2)
    requires Linked(c, mediaId, name)
    ensures Linked(c2, mediaId, name)
  {
    KeywordNamedIsStable(c, c2, name);
    var k := KeywordNamed(c, name).value;
    var i :| i in c.mediaKeywords && c.mediaKeywords[i].mediaId == mediaId && c.mediaKeywords[i].keywordId == k;
    assert i in c2.mediaKeywords && c2.mediaKeywords[i] == c.mediaKeywords[i];
  }

  /** Adding keywords and links under new ids twice is adding them once. */
  lemma KeywordsGrowTransitive(c: Content, c2: Content, c3: Content)
    requires KeywordsGrow(c, c2) && KeywordsGrow(c2, c3)
    ensures KeywordsGrow(c, c3)
  {
  }

  /** findOrCreateKeyword: the keyword with that name, or a new one with the
      given category when there is none. */
  function FindOrCreateKeyword(c: Content, name: string, category: KeywordCategory): (r: (Content, nat))
    requires Valid(c)
    ensures Valid(r.0) && KeywordsGrow(c, r.0) && r.0.mediaKeywords == c.mediaKeywords
    ensures KeywordNamed(r.0, name) == Some(r.1)
    ensures KeywordNamed(c, name).Some? ==> r == (c, KeywordNamed(c, name).value)
    ensures KeywordNamed(c, name).None? ==>
              r.0.keywords.Keys == c.keywords.Keys + {r.1} && r.1 !in c.keywords
              && r.0.keywords[r.1] == KeywordRow(name, category)
    ensures KeywordNamesUnique(c) ==> KeywordNamesUnique(r.0)
  {
    match KeywordNamed(c, name)
    case Some(k) => (c, k)
    case None =>
      var c2 := c.(keywords := c.keywords[c.nextId := KeywordRow(name, category)], nextId := c.nextId + 1);
      assert c2.keywords[c.nextId].name == name;
      (c2, c.nextId)
  }

  /** createMediaKeyword: a link with the score, unless the pair is linked already. */
  function CreateMediaKeyword(c: Content, mediaId: nat, keywordId: nat, score: real): (r: Content)
    requires Valid(c)
    ensures Valid(r) && KeywordsGrow(c, r) && r.keywords == c.keywords
    ensures HasLink(r, mediaId, keywordId)
    ensures HasLink(c, mediaId, keywordId) ==> r == c
    ensures !HasLink(c, mediaId, keywordId) ==>
              r.mediaKeywords.Keys == c.mediaKeywords.Keys + {c.nextId} && c.nextId !in c.mediaKeywords
              && r.mediaKeywords[c.nextId] == MediaKeywordRow(mediaId, keywordId, score)
    ensures LinksUnique(c) ==> LinksUnique(r)
  {
    if HasLink(c, mediaId, keywordId) then c
    else
      var r := c.(mediaKeywords := c.mediaKeywords[c.nextId := MediaKeywordRow(mediaId, keywordId, score)],
                  nextId := c.nextId + 1);
      assert r.mediaKeywords[c.nextId].mediaId == mediaId && r.mediaKeywords[c.nextId].keywordId == keywordId;
      r
  }

  /** One keyword of the analysis stored and linked to the media item. A null
      name is rejected by the not-null keywords.name column. */
  function LinkKeyword(c: Content, mediaId: nat, name: Option<string>, category: KeywordCategory, score: real): (r: Result<Content>)
    requires Valid(c)
    ensures r.Err? <==> name.None?
    ensures r.Err? ==> r.error == ConstraintViolation("keywords.name")
    ensures r.Ok? ==> Valid(r.value) && KeywordsGrow(c, r.value) && Linked(r.value, mediaId, name.value)
    ensures r.Ok? && Linked(c, mediaId, name.value) ==> r.value == c
    ensures r.Ok? && KeywordNamesUnique(c) ==> KeywordNamesUnique(r.value)
    ensures r.Ok? && LinksUnique(c) ==> LinksUnique(r.value)
  {
    if name.None? then Err(ConstraintViolation("keywords.name"))
    else
      var (c1, k) := FindOrCreateKeyword(c, name.value, category);
      var c2 := CreateMediaKeyword(c1, mediaId, k, score);
      KeywordNamedReadsKeywords(c1, c2, name.value);
      KeywordsGrowTransitive(c, c1, c2);
      Ok(c2)
  }

  /** A keyword as read from one entry: its name, category and confidence score. */
  datatype KeywordEntry = KeywordEntry(name: Option<string>, category: KeywordCategory, score: real)

  /** One entry of "labels": the description as a String, the score as a
      Number, and the category determined from the description, which
      therefore must not be null. */
  function LabelEntry(entry: Json): (r: Result<KeywordEntry>)
    ensures entry == JNull ==> r == Err(NullPointer)
    ensures r.Ok? ==> entry.JObj? && ScoreOf(Get(entry.fields, "score")) == Ok(r.value.score)
    ensures r.Ok? ==>
              r.value.name.Some? && Get(entry.fields, "description") == JStr(r.value.name.value)
              && r.value.category == DetermineCategory(r.value.name.value)
    ensures entry.JObj? && Get(entry.fields, "description") == JNull && ScoreOf(Get(entry.fields, "score")).Ok?
            ==> r == Err(NullPointer)
  {
    var m :- ObjectOf(entry);
    var description :- StringOf(Get(m, "description"));
    var score :- ScoreOf(Get(m, "score"));
    if description.None? then Err(NullPointer)
    else Ok(KeywordEntry(description, DetermineCategory(description.value), score))
  }

  /** One entry of "objects": the name as a String, the score as a Number;
      every object is an OBJECT keyword. */
  function ObjectEntry(entry: Json): (r: Result<KeywordEntry>)
    ensures entry == JNull ==> r == Err(NullPointer)
    ensures r.Ok? ==> entry.JObj? && ScoreOf(Get(entry.fields, "score")) == Ok(r.value.score)
    ensures r.Ok? ==> StringOf(Get(entry.fields, "name")) == Ok(r.value.name) && r.value.category == OBJECT
  {
    var m :- ObjectOf(entry);
    var name :- StringOf(Get(m, "name"));
    var score :- ScoreOf(Get(m, "score"));
    Ok(KeywordEntry(name, OBJECT, score))
  }

  /** The loop over one list of entries: each is stored and linked in turn,
      and the first failure ends it. */
  function LinkEntries(c: Content, mediaId: nat, items: seq<Json>, read: Json -> Result<KeywordEntry>): (r: Result<Content>)
    requires Valid(c)
    ensures r.Ok? ==> Valid(r.value) && KeywordsGrow(c, r.value)
    ensures r.Ok? && KeywordNamesUnique(c) ==> KeywordNamesUnique(r.value)
    ensures r.Ok? && LinksUnique(c) ==> LinksUnique(r.value)
    decreases |items|
  {
    if |items| == 0 then Ok(c)
    else
      var e :- read(items[0]);
      var c1 :- LinkKeyword(c, mediaId, e.name, e.category, e.score);
      var r := LinkEntries(c1, mediaId, items[1..], read);
      if r.Ok? then KeywordsGrowTransitive(c, c1, r.value); r
      else r
  }

  /** The keyword an entry names is stored and linked to the media item. */
  predicate EntryLinked(c: Content, mediaId: nat, entry: Json, read: Json -> Result<KeywordEntry>)
    requires Valid(c)
  {
    read(entry).Ok? && read(entry).value.name.Some?
    && Linked(c, mediaId, read(entry).value.name.value)
  }

  /** After the loop every entry's keyword is stored and linked to the media item. */
  lemma {:induction false} LinkEntriesLinksEveryEntry(c: Content, mediaId: nat, items: seq<Json>, read: Json -> Result<KeywordEntry>)
    requires Valid(c) && LinkEntries(c, mediaId, items, read).Ok?
    ensures forall j :: 0 <= j < |items| ==> EntryLinked(LinkEntries(c, mediaId, items, read).value, mediaId, items[j], read)
    decreases |items|
  {
    if |items| > 0 {
      var e := read(items[0]).value;
      var c1 := LinkKeyword(c, mediaId, e.name, e.category, e.score).value;
      var rest := items[1..];
      var r := LinkEntries(c1, mediaId, rest, read).value;
      assert LinkEntries(c, mediaId, items, read).value == r;
      LinkEntriesLinksEveryEntry(c1, mediaId, rest, read);
      LinkedIsStable(c1, r, mediaId, e.name.value);
      assert EntryLinked(r, mediaId, items[0], read);
      forall j | 1 <= j < |items|
        ensures EntryLinked(r, mediaId, items[j], read)
      {
        assert rest[j - 1] == items[j];
      }
    }
  }

  /** Entries whose keywords are all linked already change nothing. */
  lemma {:induction false} LinkEntriesOnLinked(c: Content, mediaId: nat, items: seq<Json>, read: Json -> Result<KeywordEntry>)
    requires Valid(c)
    requires forall j :: 0 <= j < |items| ==> EntryLinked(c, mediaId, items[j], read)
    ensures LinkEntries(c, mediaId, items, read) == Ok(c)
    decreases |items|
  {
    if |items| > 0 {
      var rest := items[1..];
      assert forall j :: 0 <= j < |rest| ==> rest[j] == items[j + 1];
      LinkEntriesOnLinked(c, mediaId, rest, read);
    }
  }

  /** Storing the same entries a second time adds no keyword and no link. */
  lemma LinkEntriesIsIdempotent(c: Content, mediaId: nat, items: seq<Json>, read: Json -> Result<KeywordEntry>)
    requires Valid(c) && LinkEntries(c, mediaId, items, read).Ok?
    ensures var c1 := LinkEntries(c, mediaId, items, read).value;
            LinkEntries(c1, mediaId, items, read) == Ok(c1)
  {
    LinkEntriesLinksEveryEntry(c, mediaId, items, read);
    LinkEntriesOnLinked(LinkEntries(c, mediaId, items, read).value, mediaId, items, read);
  }

  /** An entry linked in one state stays linked as keywords and links are added. */
  lemma EntriesStayLinked(c: Content, c2: Content, mediaId: nat, items: seq<Json>, read: Json -> Result<KeywordEntry>)
    requires Valid(c) && Valid(c2) && KeywordsGrow(c, c2)
    requires forall j :: 0 <= j < |items| ==> EntryLinked(c, mediaId, items[j], read)
    ensures forall j :: 0 <= j < |items| ==> EntryLinked(c2, mediaId, items[j], read)
  {
    forall j | 0 <= j < |items|
      ensures EntryLinked(c2, mediaId, items[j], read)
    {
      LinkedIsStable(c, c2, mediaId, read(items[j]).value.name.value);
    }
  }

  /** The entries of one list of the analysis, when the list is present. */
  function ListEntries(c: Content, mediaId: nat, analysis: map<string, Json>, key: string,
                       read: Json -> Result<KeywordEntry>): (r: Result<Content>)
    requires Valid(c)
    ensures key !in analysis ==> r == Ok(c)
    ensures key in analysis && analysis[key] == JNull ==> r == Err(NullPointer)
    ensures r.Ok? ==> Valid(r.value) && KeywordsGrow(c, r.value)
    ensures r.Ok? && KeywordNamesUnique(c) ==> KeywordNamesUnique(r.value)
    ensures r.Ok? && LinksUnique(c) ==> LinksUnique(r.value)
  {
    if key !in analysis then Ok(c)
    else
      var items :- ListOf(analysis[key]);
      LinkEntries(c, mediaId, items, read)
  }

  /** processKeywordsFromAnalysisResult: the "labels", then the "objects" of
      the analysis result, each present list stored and linked in order. */
  function KeywordsFromAnalysis(c: Content, mediaId: nat, v: Json): (r: Result<Content>)
    requires Valid(c)
    ensures v == JNull ==> r == Err(NullPointer)
    ensures r.Ok? ==> Valid(r.value) && KeywordsGrow(c, r.value)
    ensures r.Ok? && KeywordNamesUnique(c) ==> KeywordNamesUnique(r.value)
    ensures r.Ok? && LinksUnique(c) ==> LinksUnique(r.value)
  {
    var analysis :- ObjectOf(v);
    var c1 :- ListEntries(c, mediaId, analysis, "labels", LabelEntry);
    var c2 := ListEntries(c1, mediaId, analysis, "objects", ObjectEntry);
    if c2.Ok? then KeywordsGrowTransitive(c, c1, c2.value); c2
    else c2
  }

  /** Every entry of a present list is linked to the media item. */
  predicate ListLinked(c: Content, mediaId: nat, analysis: map<string, Json>, key: string,
                       read: Json -> Result<KeywordEntry>)
    requires Valid(c)
  {
    key in analysis ==>
      analysis[key].JArr? && forall j :: 0 <= j < |analysis[key].items| ==> EntryLinked(c, mediaId, analysis[key].items[j], read)
  }

  /** Every label and every object of an analysis result is linked to the media item. */
  predicate AnalysisLinked(c: Content, mediaId: nat, v: Json)
    requires Valid(c)
  {
    && v.JObj?
    && ListLinked(c, mediaId, v.fields, "labels", LabelEntry)
    && ListLinked(c, mediaId, v.fields, "objects", ObjectEntry)
  }

  /** Whether an entry is linked depends only on the keyword and link tables. */
  lemma EntryLinkedFrame(c: Content, c2: Content, mediaId: nat, entry: Json, read: Json -> Result<KeywordEntry>)
    requires Valid(c) && Valid(c2) && c.keywords == c2.keywords && c.mediaKeywords == c2.mediaKeywords
    ensures EntryLinked(c, mediaId, entry, read) == EntryLinked(c2, mediaId, entry, read)
  {
    if read(entry).Ok? && read(entry).value.name.Some? {
      KeywordNamedReadsKeywords(c, c2, read(entry).value.name.value);
    }
  }

  /** An analysis result is linked in a state when it is in any state with
      the same keyword and link tables. */
  lemma AnalysisLinkedFrame(c: Content, c2: Content, mediaId: nat, v: Json)
    requires Valid(c) && Valid(c2) && c.keywords == c2.keywords && c.mediaKeywords == c2.mediaKeywords
    requires AnalysisLinked(c, mediaId, v)
    ensures AnalysisLinked(c2, mediaId, v)
  {
    var a := v.fields;
    if "labels" in a {
      forall j | 0 <= j < |a["labels"].items|
        ensures EntryLinked(c2, mediaId, a["labels"].items[j], LabelEntry)
      {
        EntryLinkedFrame(c, c2, mediaId, a["labels"].items[j], LabelEntry);
      }
    }
    if "objects" in a {
      forall j | 0 <= j < |a["objects"].items|
        ensures EntryLinked(c2, mediaId, a["objects"].items[j], ObjectEntry)
      {
        EntryLinkedFrame(c, c2, mediaId, a["objects"].items[j], ObjectEntry);
      }
    }
  }

  /** Once stored, every label and every object of the analysis result is linked. */
  lemma KeywordsFromAnalysisLinksAll(c: Content, mediaId: nat, v: Json)
    requires Valid(c) && KeywordsFromAnalysis(c, mediaId, v).Ok?
    ensures AnalysisLinked(KeywordsFromAnalysis(c, mediaId, v).value, mediaId, v)
  {
    var a := v.fields;
    var c1 := ListEntries(c, mediaId, a, "labels", LabelEntry).value;
    var c2 := ListEntries(c1, mediaId, a, "objects", ObjectEntry).value;
    if "labels" in a {
      LinkEntriesLinksEveryEntry(c, mediaId, a["labels"].items, LabelEntry);
      EntriesStayLinked(c1, c2, mediaId, a["labels"].items, LabelEntry);
    }
    if "objects" in a {
      LinkEntriesLinksEveryEntry(c1, mediaId, a["objects"].items, ObjectEntry);
    }
  }

  /** An analysis result whose labels and objects are all linked changes nothing. */
  lemma KeywordsFromAnalysisOnLinked(c: Content, mediaId: nat, v: Json)
    requires Valid(c) && AnalysisLinked(c, mediaId, v)
    ensures KeywordsFromAnalysis(c, mediaId, v) == Ok(c)
  {
    var a := v.fields;
    if "labels" in a {
      LinkEntriesOnLinked(c, mediaId, a["labels"].items, LabelEntry);
    }
    if "objects" in a {
      LinkEntriesOnLinked(c, mediaId, a["objects"].items, ObjectEntry);
    }
  }

  /** Storing the same analysis result a second time adds no keyword and no
      link, and changes no stored category or score. */
  lemma KeywordsFromAnalysisIsIdempotent(c: Content, mediaId: nat, v: Json)
    requires Valid(c) && KeywordsFromAnalysis(c, mediaId, v).Ok?
    ensures var c2 := KeywordsFromAnalysis(c, mediaId, v).value;
            KeywordsFromAnalysis(c2, mediaId, v) == Ok(c2)
  {
    KeywordsFromAnalysisLinksAll(c, mediaId, v);
    KeywordsFromAnalysisOnLinked(KeywordsFromAnalysis(c, mediaId, v).value, mediaId, v);
  }

  // ---------------------------------------------------------------------
  // Questions from the analysis
  // ---------------------------------------------------------------------

  /** One generated question read and built into a row: "question",
      "category" and "level" cast in that order, the theme mapped from the
      category, and the row tied to the media item with the keyword text. A
      null question text is rejected by the not-null questions.content column. */
  function QuestionRowOf(entry: Json, mediaId: nat, keywordsText: string): (r: Result<QuestionRow>)
    ensures entry == JNull ==> r == Err(NullPointer)
    ensures r.Ok? ==> entry.JObj?
    ensures r.Ok? ==>
              && r.value.mediaId == Some(mediaId) && !r.value.isPrivate
              && r.value.keywordsUsed == Some(keywordsText)
              && Get(entry.fields, "question") == JStr(r.value.content)
              && r.value.category.Some? && Get(entry.fields, "category") == JStr(r.value.category.value)
              && IntegerOf(Get(entry.fields, "level")) == Ok(r.value.level)
              && r.value.theme == Some(MapCategoryToTheme(r.value.category).value)
    ensures entry.JObj? && Get(entry.fields, "category") == JNull
            && StringOf(Get(entry.fields, "question")).Ok? && IntegerOf(Get(entry.fields, "level")).Ok?
            ==> r == Err(NullPointer)
  {
    var m :- ObjectOf(entry);
    var content :- StringOf(Get(m, "question"));
    var category :- StringOf(Get(m, "category"));
    var level :- IntegerOf(Get(m, "level"));
    var theme :- MapCategoryToTheme(category);
    if content.None? then Err(ConstraintViolation("questions.content"))
    else Ok(QuestionRow(Some(mediaId), content.value, Some(theme), false, Some(keywordsText), level, category))
  }

  /** The row builder for one media item and keyword text, as a value. */
  function RowReader(mediaId: nat, keywordsText: string): Json -> Result<QuestionRow>
  {
    (q: Json) => QuestionRowOf(q, mediaId, keywordsText)
  }

  /** A generated question map with the id it was saved under added; every
      question that gets saved was read as a map. */
  function WithId(entry: Json, id: nat): Json
  {
    match entry
    case JObj(fields) => JObj(fields["id" := JNum(id)])
    case _ => entry
  }

  /** The loop of processQuestionsFromFastAPI: each question built into a
      row by `read`, saved in turn, and its map, with the new id, appended
      to `saved`. */
  function SaveQuestions(c: Content, qs: seq<Json>, read: Json -> Result<QuestionRow>, saved: seq<Json>)
    : (r: Result<(Content, seq<Json>)>)
    requires Valid(c)
    ensures r.Ok? ==> Valid(r.value.0)
    decreases |qs|
  {
    if |qs| == 0 then Ok((c, saved))
    else
      var row :- read(qs[0]);
      var c1 := c.(questions := c.questions[c.nextId := row], nextId := c.nextId + 1);
      SaveQuestions(c1, qs[1..], read, saved + [WithId(qs[0], c.nextId)])
  }

  /** The j-th question is stored under the j-th new id, as its map says. */
  predicate SavedAs(c: Content, c2: Content, out: seq<Json>, base: nat, qs: seq<Json>,
                    read: Json -> Result<QuestionRow>, j: nat)
    requires j < |qs| && base + j < |out|
  {
    && read(qs[j]).Ok?
    && c.nextId + j in c2.questions
    && c2.questions[c.nextId + j] == read(qs[j]).value
    && out[base + j] == WithId(qs[j], c.nextId + j)
  }

  /** Saving n questions takes the next n ids, touches no other table and no
      stored question, and answers with one map per question after `saved`. */
  lemma {:induction false} SaveQuestionsTouchesOnlyQuestions(c: Content, qs: seq<Json>, read: Json -> Result<QuestionRow>,
                                                             saved: seq<Json>)
    requires Valid(c) && SaveQuestions(c, qs, read, saved).Ok?
    ensures var res := SaveQuestions(c, qs, read, saved).value; var c2, out := res.0, res.1;
            && c2 == c.(questions := c2.questions, nextId := c.nextId + |qs|)
            && (forall i :: i in c.questions ==> i in c2.questions && c2.questions[i] == c.questions[i])
            && (forall i :: i in c2.questions && i !in c.questions ==> c.nextId <= i < c.nextId + |qs|)
            && |out| == |saved| + |qs| && out[..|saved|] == saved
    decreases |qs|
  {
    if |qs| > 0 {
      var row := read(qs[0]).value;
      var c1 := c.(questions := c.questions[c.nextId := row], nextId := c.nextId + 1);
      var saved1 := saved + [WithId(qs[0], c.nextId)];
      SaveQuestionsTouchesOnlyQuestions(c1, qs[1..], read, saved1);
      var out := SaveQuestions(c1, qs[1..], read, saved1).value.1;
      assert out[..|saved|] == out[..|saved1|][..|saved|];
    }
  }

  /** The j-th question is saved under the j-th new id, and the j-th map of
      the answer is its map with that id. */
  lemma {:induction false} SaveQuestionsNumbersInOrder(c: Content, qs: seq<Json>, read: Json -> Result<QuestionRow>,
                                                       saved: seq<Json>)
    requires Valid(c) && SaveQuestions(c, qs, read, saved).Ok?
    ensures var res := SaveQuestions(c, qs, read, saved).value; var c2, out := res.0, res.1;
            |out| == |saved| + |qs| && forall j :: 0 <= j < |qs| ==> SavedAs(c, c2, out, |saved|, qs, read, j)
    decreases |qs|
  {
    SaveQuestionsTouchesOnlyQuestions(c, qs, read, saved);
    if |qs| > 0 {
      var row := read(qs[0]).value;
      var c1 := c.(questions := c.questions[c.nextId := row], nextId := c.nextId + 1);
      var saved1 := saved + [WithId(qs[0], c.nextId)];
      var rest := qs[1..];
      SaveQuestionsNumbersInOrder(c1, rest, read, saved1);
      SaveQuestionsTouchesOnlyQuestions(c1, rest, read, saved1);
      var res := SaveQuestions(c1, rest, read, saved1).value; var c2, out := res.0, res.1;
      assert out[..|saved1|] == saved1;
      assert out[|saved|] == saved1[|saved|];
      assert SavedAs(c, c2, out, |saved|, qs, read, 0);
      forall j | 1 <= j < |qs|
        ensures SavedAs(c, c2, out, |saved|, qs, read, j)
      {
        SavedAsShifts(c, c1, c2, out, |saved|, qs, read, j);
      }
    }
  }

  /** What the rest of the list was saved as, seen from one question earlier. */
  lemma SavedAsShifts(c: Content, c1: Content, c2: Content, out: seq<Json>, base: nat, qs: seq<Json>,
                      read: Json -> Result<QuestionRow>, j: nat)
    requires 1 <= j < |qs| && base + j < |out| && c1.nextId == c.nextId + 1
    requires SavedAs(c1, c2, out, base + 1, qs[1..], read, j - 1)
    ensures SavedAs(c, c2, out, base, qs, read, j)
  {
    assert qs[1..][j - 1] == qs[j];
  }

  /** The first question that cannot be read or stored ends the loop with its error. */
  lemma {:induction false} SaveQuestionsFailsAtFirstBadQuestion(c: Content, qs: seq<Json>,
                                                                read: Json -> Result<QuestionRow>, saved: seq<Json>)
    requires Valid(c) && SaveQuestions(c, qs, read, saved).Err?
    ensures exists j :: 0 <= j < |qs|
              && read(qs[j]).Err? && SaveQuestions(c, qs, read, saved).error == read(qs[j]).error
              && forall k :: 0 <= k < j ==> read(qs[k]).Ok?
    decreases |qs|
  {
    var first := read(qs[0]);
    if first.Ok? {
      var c1 := c.(questions := c.questions[c.nextId := first.value], nextId := c.nextId + 1);
      var rest := qs[1..];
      var saved1 := saved + [WithId(qs[0], c.nextId)];
      SaveQuestionsFailsAtFirstBadQuestion(c1, rest, read, saved1);
      var j :| 0 <= j < |rest|
               && read(rest[j]).Err? && SaveQuestions(c1, rest, read, saved1).error == read(rest[j]).error
               && forall k :: 0 <= k < j ==> read(rest[k]).Ok?;
      assert rest[j] == qs[j + 1];
      assert forall k :: 1 <= k < j + 1 ==> qs[k] == rest[k - 1];
    }
  }

  // ---------------------------------------------------------------------
  // processAnalysisResult
  // ---------------------------------------------------------------------

  /** The media item with the serialized analysis set on it. */
  function StoredOn(c: Content, mediaId: nat, text: string): (r: Content)
    requires Valid(c) && mediaId in c.media
    ensures Valid(r) && r == c.(media := r.media) && r.media.Keys == c.media.Keys
    ensures r.media[mediaId] == c.media[mediaId].(analysisResult := Some(text))
    ensures forall i :: i in c.media && i != mediaId ==> r.media[i] == c.media[i]
  {
    c.(media := c.media[mediaId := c.media[mediaId].(analysisResult := Some(text))])
  }

  /** Steps 1 to 3: the media item must exist, the serialized analysis is set
      on it, and a present "analysis_result" is turned into keywords. */
  function AnalysisStored(c: Content, mediaId: nat, data: map<string, Json>, serialize: map<string, Json> -> string)
    : (r: Result<Content>)
    requires Valid(c)
    ensures mediaId !in c.media ==> r == Err(EntityNotFound(MEDIA_NOT_FOUND + NatToString(mediaId)))
    ensures r.Ok? ==> mediaId in c.media && Valid(r.value) && KeywordsGrow(StoredOn(c, mediaId, serialize(data)), r.value)
  {
    if mediaId !in c.media then Err(EntityNotFound(MEDIA_NOT_FOUND + NatToString(mediaId)))
    else
      var c1 := StoredOn(c, mediaId, serialize(data));
      if "analysis_result" in data then KeywordsFromAnalysis(c1, mediaId, data["analysis_result"]) else Ok(c1)
  }

  /** Step 4: present "questions" are cast to a list, the keywords for them
      are extracted, and they are saved and sent back with their ids. */
  function QuestionsStored(c: Content, mediaId: nat, data: map<string, Json>): (r: Result<(Content, map<string, Json>)>)
    requires Valid(c)
    ensures "questions" !in data ==> r == Ok((c, data))
    ensures "questions" in data && !(data["questions"].JArr? || data["questions"] == JNull) ==> r == Err(ClassCast)
    ensures r.Ok? ==> Valid(r.value.0)
  {
    if "questions" !in data then Ok((c, data))
    else
      var qv := data["questions"];
      if !(qv.JArr? || qv == JNull) then Err(ClassCast)
      else
        var keywords :- KeywordsUsed(data);
        if qv == JNull then Err(NullPointer)
        else
          var saved :- SaveQuestions(c, qv.items, RowReader(mediaId, KeywordsText(keywords)), []);
          Ok((saved.0, data["questions" := JArr(saved.1)]))
  }

  /** The writes and the answer of processAnalysisResult, before the
      exception wrapping. */
  function ProcessedAnalysis(c: Content, mediaId: nat, data: map<string, Json>, serialize: map<string, Json> -> string)
    : (r: Result<(Content, map<string, Json>)>)
    requires Valid(c)
    ensures mediaId !in c.media ==> r == Err(EntityNotFound(MEDIA_NOT_FOUND + NatToString(mediaId)))
    ensures r.Ok? ==> Valid(r.value.0)
  {
    var c2 :- AnalysisStored(c, mediaId, data, serialize);
    QuestionsStored(c2, mediaId, data)
  }

  /** Saving questions touches only the question table and the id counter,
      keeps every stored question, and answers with the request in which
      only "questions" is replaced, by a list as long as the one sent. */
  lemma QuestionsStoredOutcome(c: Content, mediaId: nat, data: map<string, Json>)
    requires Valid(c) && QuestionsStored(c, mediaId, data).Ok?
    ensures var res := QuestionsStored(c, mediaId, data).value; var c2, out := res.0, res.1;
            && c2 == c.(questions := c2.questions, nextId := c2.nextId)
            && (forall i :: i in c.questions ==> i in c2.questions && c2.questions[i] == c.questions[i])
            && out.Keys == data.Keys
            && (forall k :: k in data && k != "questions" ==> out[k] == data[k])
            && ("questions" in data ==>
                  data["questions"].JArr? && out["questions"].JArr?
                  && |out["questions"].items| == |data["questions"].items|)
  {
    if "questions" in data {
      var qs := data["questions"].items;
      var read := RowReader(mediaId, KeywordsText(KeywordsUsed(data).value));
      SaveQuestionsTouchesOnlyQuestions(c, qs, read, []);
    }
  }

  /** What a successful call leaves behind: the serialized analysis on the
      media item and nothing else changed on it or on any other media item,
      albums, answers and stories untouched, no keyword, link or question
      changed or removed, and the answer equal to the request except that
      "questions" carries one map per generated question. */
  lemma ProcessedAnalysisOutcome(c: Content, mediaId: nat, data: map<string, Json>, serialize: map<string, Json> -> string)
    requires Valid(c) && ProcessedAnalysis(c, mediaId, data, serialize).Ok?
    ensures var res := ProcessedAnalysis(c, mediaId, data, serialize).value; var c2, out := res.0, res.1;
            && c2.media == c.media[mediaId := c.media[mediaId].(analysisResult := Some(serialize(data)))]
            && c2.albums == c.albums && c2.answers == c.answers && c2.stories == c.stories
            && (forall i :: i in c.keywords ==> i in c2.keywords && c2.keywords[i] == c.keywords[i])
            && (forall i :: i in c.mediaKeywords ==> i in c2.mediaKeywords && c2.mediaKeywords[i] == c.mediaKeywords[i])
            && (forall i :: i in c.questions ==> i in c2.questions && c2.questions[i] == c.questions[i])
            && out.Keys == data.Keys
            && (forall k :: k in data && k != "questions" ==> out[k] == data[k])
            && ("questions" in data ==>
                  data["questions"].JArr? && out["questions"].JArr?
                  && |out["questions"].items| == |data["questions"].items|)
  {
    var k := AnalysisStored(c, mediaId, data, serialize).value;
    QuestionsStoredOutcome(k, mediaId, data);
  }

  /** The j-th question of the request, built into a row for the media item
      with the keyword text, is stored under id `base + j`, and the j-th map
      of the answer is its map with that id. */
  predicate QuestionSaved(c2: Content, out: seq<Json>, qs: seq<Json>, base: nat, mediaId: nat, keywordsText: string, j: nat)
    requires j < |qs| && j < |out|
  {
    && base + j in c2.questions
    && QuestionRowOf(qs[j], mediaId, keywordsText) == Ok(c2.questions[base + j])
    && out[j] == WithId(qs[j], base + j)
  }

  /** With the row builder of the media item and keyword text, SavedAs is QuestionSaved. */
  lemma SavedAsIsQuestionSaved(c: Content, c2: Content, out: seq<Json>, qs: seq<Json>, mediaId: nat,
                               keywordsText: string, j: nat)
    requires j < |qs| && j < |out|
    requires SavedAs(c, c2, out, 0, qs, RowReader(mediaId, keywordsText), j)
    ensures QuestionSaved(c2, out, qs, c.nextId, mediaId, keywordsText, j)
  {
    assert RowReader(mediaId, keywordsText)(qs[j]) == QuestionRowOf(qs[j], mediaId, keywordsText);
  }

  /** Step 4 with questions present is the question-saving loop. */
  lemma QuestionsStoredIsSaveQuestions(c: Content, mediaId: nat, data: map<string, Json>)
    requires Valid(c) && QuestionsStored(c, mediaId, data).Ok? && "questions" in data
    ensures data["questions"].JArr? && KeywordsUsed(data).Ok?
    ensures var qs := data["questions"].items;
            var sv := SaveQuestions(c, qs, RowReader(mediaId, KeywordsText(KeywordsUsed(data).value)), []);
            sv.Ok? && QuestionsStored(c, mediaId, data) == Ok((sv.value.0, data["questions" := JArr(sv.value.1)]))
  {
  }

  /** The generated questions are saved under the next ids, in order. */
  lemma QuestionsStoredSaves(c: Content, mediaId: nat, data: map<string, Json>)
    requires Valid(c) && QuestionsStored(c, mediaId, data).Ok? && "questions" in data
    ensures data["questions"].JArr? && KeywordsUsed(data).Ok?
    ensures var res := QuestionsStored(c, mediaId, data).value;
            var qs := data["questions"].items;
            && res.0.nextId == c.nextId + |qs|
            && res.1["questions"].JArr? && |res.1["questions"].items| == |qs|
            && forall j :: 0 <= j < |qs| ==>
                 QuestionSaved(res.0, res.1["questions"].items, qs, c.nextId, mediaId, KeywordsText(KeywordsUsed(data).value), j)
  {
    QuestionsStoredIsSaveQuestions(c, mediaId, data);
    var qs := data["questions"].items;
    var kt := KeywordsText(KeywordsUsed(data).value);
    var read := RowReader(mediaId, kt);
    var sv := SaveQuestions(c, qs, read, []).value;
    SaveQuestionsTouchesOnlyQuestions(c, qs, read, []);
    SaveQuestionsNumbersInOrder(c, qs, read, []);
    forall j | 0 <= j < |qs|
      ensures QuestionSaved(sv.0, sv.1, qs, c.nextId, mediaId, kt, j)
    {
      SavedAsIsQuestionSaved(c, sv.0, sv.1, qs, mediaId, kt, j);
    }
  }

  /** Storing the same analysis result again, on the state a call left
      behind, adds no keyword and no link and changes nothing else. */
  lemma ReprocessingAddsNoKeywords(c: Content, mediaId: nat, data: map<string, Json>, serialize: map<string, Json> -> string)
    requires Valid(c) && ProcessedAnalysis(c, mediaId, data, serialize).Ok? && "analysis_result" in data
    ensures var c2 := ProcessedAnalysis(c, mediaId, data, serialize).value.0;
            KeywordsFromAnalysis(c2, mediaId, data["analysis_result"]) == Ok(c2)
  {
    var v := data["analysis_result"];
    var c1 := StoredOn(c, mediaId, serialize(data));
    var k := AnalysisStored(c, mediaId, data, serialize).value;
    assert k == KeywordsFromAnalysis(c1, mediaId, v).value;
    KeywordsFromAnalysisLinksAll(c1, mediaId, v);
    var c2 := ProcessedAnalysis(c, mediaId, data, serialize).value.0;
    QuestionsStoredOutcome(k, mediaId, data);
    AnalysisLinkedFrame(k, c2, mediaId, v);
    KeywordsFromAnalysisOnLinked(c2, mediaId, v);
  }

  // ---------------------------------------------------------------------
  // The service, on the tables
  // ---------------------------------------------------------------------

  /** findOrCreateKeyword followed by createMediaKeyword. */
  method LinkKeywordInto(content: ContentTables, mediaId: nat, e: KeywordEntry) returns (r: Result<()>)
    requires Valid(content.State())
    modifies content
    ensures var s := LinkKeyword(old(content.State()), mediaId, e.name, e.category, e.score);
            && (s.Ok? ==> r.Ok? && content.State() == s.value)
            && (s.Err? ==> r == Err(s.error) && content.State() == old(content.State()))
  {
    if e.name.None? {
      return Err(ConstraintViolation("keywords.name"));
    }
    var name := e.name.value;
    var found := KeywordNamed(content.State(), name);
    var keywordId: nat;
    if found.Some? {
      keywordId := found.value;
    } else {
      keywordId := content.InsertKeyword(KeywordRow(name, e.category));
    }
    if !HasLink(content.State(), mediaId, keywordId) {
      var linkId := content.InsertMediaKeyword(MediaKeywordRow(mediaId, keywordId, e.score));
    }
    r := Ok(());
  }

  /** The for-each loop over "labels" or "objects": each entry read by
      `read`, then stored and linked; the first failure ends the loop. */
  method LinkEntriesInto(content: ContentTables, mediaId: nat, items: seq<Json>, read: Json -> Result<KeywordEntry>)
    returns (r: Result<()>)
    requires Valid(content.State())
    modifies content
    ensures var s := LinkEntries(old(content.State()), mediaId, items, read);
            && (s.Ok? ==> r.Ok? && content.State() == s.value)
            && (s.Err? ==> r == Err(s.error))
  {
    var i := 0;
    while i < |items|
      invariant i <= |items|
      invariant Valid(content.State())
      invariant LinkEntries(old(content.State()), mediaId, items, read)
                == LinkEntries(content.State(), mediaId, items[i..], read)
    {
      assert items[i..][1..] == items[i + 1..];
      var e := read(items[i]);
      if e.Err? {
        return Err(e.error);
      }
      r := LinkKeywordInto(content, mediaId, e.value);
      if r.Err? {
        return;
      }
      i := i + 1;
    }
    r := Ok(());
  }

  /** One list of the analysis result, when it is present. */
  method ListEntriesInto(content: ContentTables, mediaId: nat, analysis: map<string, Json>, key: string,
                         read: Json -> Result<KeywordEntry>) returns (r: Result<()>)
    requires Valid(content.State())
    modifies content
    ensures var s := ListEntries(old(content.State()), mediaId, analysis, key, read);
            && (s.Ok? ==> r.Ok? && content.State() == s.value)
            && (s.Err? ==> r == Err(s.error))
  {
    if key !in analysis {
      return Ok(());
    }
    var items :- ListOf(analysis[key]);
    r := LinkEntriesInto(content, mediaId, items, read);
  }

  /** processKeywordsFromAnalysisResult. */
  method ProcessKeywords(content: ContentTables, mediaId: nat, v: Json) returns (r: Result<()>)
    requires Valid(content.State())
    modifies content
    ensures var s := KeywordsFromAnalysis(old(content.State()), mediaId, v);
            && (s.Ok? ==> r.Ok? && content.State() == s.value)
            && (s.Err? ==> r == Err(s.error))
  {
    var analysis :- ObjectOf(v);
    r := ListEntriesInto(content, mediaId, analysis, "labels", LabelEntry);
    if r.Err? {
      return;
    }
    r := ListEntriesInto(content, mediaId, analysis, "objects", ObjectEntry);
  }

  /** The loop of processQuestionsFromFastAPI: each question built by
      `read`, saved, and its map with the new id collected. */
  method ProcessQuestions(content: ContentTables, qs: seq<Json>, read: Json -> Result<QuestionRow>)
    returns (r: Result<seq<Json>>)
    requires Valid(content.State())
    modifies content
    ensures var s := SaveQuestions(old(content.State()), qs, read, []);
            && (s.Ok? ==> r == Ok(s.value.1) && content.State() == s.value.0)
            && (s.Err? ==> r == Err(s.error))
  {
    var saved: seq<Json> := [];
    var i := 0;
    while i < |qs|
      invariant i <= |qs|
      invariant Valid(content.State())
      invariant SaveQuestions(old(content.State()), qs, read, []) == SaveQuestions(content.State(), qs[i..], read, saved)
    {
      assert qs[i..][1..] == qs[i + 1..];
      var row := read(qs[i]);
      if row.Err? {
        return Err(row.error);
      }
      var id := content.InsertQuestion(row.value);
      saved := saved + [WithId(qs[i], id)];
      i := i + 1;
    }
    r := Ok(saved);
  }

  /** The body of processAnalysisResult inside its try block: every step
      writes to the tables as it goes, and the first failure ends it. */
  method ApplyAnalysis(content: ContentTables, mediaId: nat, data: map<string, Json>,
                       serialize: map<string, Json> -> string) returns (r: Result<map<string, Json>>)
    requires Valid(content.State())
    modifies content
    ensures var p := ProcessedAnalysis(old(content.State()), mediaId, data, serialize);
            && (p.Ok? ==> r == Ok(p.value.1) && content.State() == p.value.0)
            && (p.Err? ==> r == Err(p.error))
  {
    if mediaId !in content.media {
      return Err(EntityNotFound(MEDIA_NOT_FOUND + NatToString(mediaId)));
    }
    content.PutMedia(mediaId, content.media[mediaId].(analysisResult := Some(serialize(data))));
    if "analysis_result" in data {
      var linked := ProcessKeywords(content, mediaId, data["analysis_result"]);
      if linked.Err? {
        return Err(linked.error);
      }
    }
    if "questions" !in data {
      return Ok(data);
    }
    var qv := data["questions"];
    if !(qv.JArr? || qv == JNull) {
      return Err(ClassCast);
    }
    var keywords :- ExtractKeywords(data);
    if qv == JNull {
      return Err(NullPointer);
    }
    var saved :- ProcessQuestions(content, qv.items, RowReader(mediaId, KeywordsText(keywords)));
    r := Ok(data["questions" := JArr(saved)]);
  }

  /** processAnalysisResult: one transaction. Any failure, a missing media
      item included, rolls every write back and is rethrown as a
      RuntimeException whose message is the fixed prefix followed by the
      failure's message; success commits the writes and answers with the
      request with its "questions" replaced. */
  method ProcessAnalysisResult(content: ContentTables, mediaId: nat, data: map<string, Json>,
                               serialize: map<string, Json> -> string, message: Exception -> string)
    returns (r: Result<map<string, Json>>)
    requires Valid(content.State())
    modifies content
    ensures var p := ProcessedAnalysis(old(content.State()), mediaId, data, serialize);
            && (p.Ok? ==> r == Ok(p.value.1) && content.State() == p.value.0)
            && (p.Err? ==> r == Err(RuntimeFailure(PROCESSING_FAILED + message(p.error)))
                           && content.State() == old(content.State()))
    ensures r.Err? ==> r.error.RuntimeFailure?
  {
    var saved := content.State();
    var outcome := ApplyAnalysis(content, mediaId, data, serialize);
    if outcome.Err? {
      content.Restore(saved);
      return Err(RuntimeFailure(PROCESSING_FAILED + message(outcome.error)));
    }
    r := outcome;
  }
}
