/** MediaService: the group-membership check, the manual paging window of
    the album media listing, the newest-first recent-media list and the
    entity-to-DTO conversion. Uploads, updates and deletes are S3 and
    repository calls and are not part of this module. */
module MediaService {
  import opened Common
  import opened AlbumEntity
  import opened ContentStore
  import opened GroupRepo

  /** group.getUserGroups().anyMatch(ug -> ug.getUser().getId().equals(userId)). */
  predicate IsMember(ms: map<MemberKey, Membership>, groupId: nat, userId: nat)
  {
    exists k :: k in ms && ms[k].groupId == groupId && ms[k].userId == userId
  }

  /** validateGroupMembership. */
  function ValidateGroupMembership(t: Tables, groupId: nat, userId: nat): (r: Result<()>)
    ensures r.Ok? <==> groupId in t.groups && IsMember(t.memberships, groupId, userId)
    ensures groupId !in t.groups ==> r == Err(EntityNotFound("Group not found"))
    ensures groupId in t.groups && !IsMember(t.memberships, groupId, userId)
            ==> r == Err(EntityNotFound("User is not a member of this group"))
  {
    if groupId !in t.groups then Err(EntityNotFound("Group not found"))
    else if !IsMember(t.memberships, groupId, userId) then Err(EntityNotFound("User is not a member of this group"))
    else Ok(())
  }

  // ---------------------------------------------------------------------
  // Paging
  // ---------------------------------------------------------------------

  function Min(a: int, b: int): int
  {
    if a <= b then a else b
  }

  /** A page of a list: its content and the size of the whole list. */
  datatype PageOf<T> = PageOf(content: seq<T>, totalElements: nat)

  /** The manual window: start = min(offset, n), end = min(start + pageSize, n),
      and the content list[start..end) when start < end, otherwise empty. */
  function Page<T>(list: seq<T>, offset: nat, pageSize: nat): (r: PageOf<T>)
    ensures r.totalElements == |list|
    ensures offset >= |list| ==> r.content == []
    ensures offset < |list| ==> r.content == list[offset..Min(offset + pageSize, |list|)]
    ensures |r.content| == if offset >= |list| then 0 else Min(pageSize, |list| - offset)
  {
    var start := Min(offset, |list|);
    var end := Min(start + pageSize, |list|);
    var content := if start < end then list[start..end] else [];
    PageOf(content, |list|)
  }

  /** Pages 0 .. k-1 of one size, laid end to end, are the first k * size
      elements of the list (or all of it): the window never skips or
      repeats an element. */
  lemma {:induction false} PagesCoverList<T>(list: seq<T>, pageSize: nat, k: nat)
    ensures Pages(list, pageSize, k) == list[..Min(k * pageSize, |list|)]
  {
    if k > 0 {
      PagesCoverList(list, pageSize, k - 1);
      var offset := (k - 1) * pageSize;
      assert k * pageSize == offset + pageSize;
      if offset < |list| {
        assert list[..Min(offset + pageSize, |list|)]
            == list[..offset] + list[offset..Min(offset + pageSize, |list|)];
      }
    }
  }

  /** The concatenated contents of pages 0 .. k-1. */
  function Pages<T>(list: seq<T>, pageSize: nat, k: nat): seq<T>
  {
    if k == 0 then [] else Pages(list, pageSize, k - 1) + Page(list, (k - 1) * pageSize, pageSize).content
  }

  // ---------------------------------------------------------------------
  // Newest-first ordering
  // ---------------------------------------------------------------------

  /** A media item with its id. */
  type MediaEntry = (nat, MediaRow)

  predicate NewestFirst(s: seq<MediaEntry>)
  {
    forall i, j :: 0 <= i < j < |s| ==> s[i].1.createdAt >= s[j].1.createdAt
  }

  /** Inserts `x` in front of the first entry that is not newer than it. */
  function InsertNewestFirst(x: MediaEntry, s: seq<MediaEntry>): (r: seq<MediaEntry>)
    requires NewestFirst(s)
    ensures NewestFirst(r)
    ensures multiset(r) == multiset(s) + multiset{x}
    ensures r[0] == x || (|s| > 0 && r[0] == s[0])
  {
    if |s| == 0 || s[0].1.createdAt <= x.1.createdAt then [x] + s
    else
      var rest := InsertNewestFirst(x, s[1..]);
      assert s == [s[0]] + s[1..];
      assert rest[0].1.createdAt <= s[0].1.createdAt;
      [s[0]] + rest
  }

  /** The stable newest-first sort of `sorted((m1, m2) -> m2.createdAt.compareTo(m1.createdAt))`. */
  function SortNewestFirst(s: seq<MediaEntry>): (r: seq<MediaEntry>)
    ensures NewestFirst(r)
    ensures multiset(r) == multiset(s)
  {
    if |s| == 0 then []
    else
      assert s == [s[0]] + s[1..];
      InsertNewestFirst(s[0], SortNewestFirst(s[1..]))
  }

  /** The entries of the listed ids. */
  function Entries(c: Content, ids: seq<nat>): (r: seq<MediaEntry>)
    requires forall i :: i in ids ==> i in c.media
    ensures |r| == |ids|
    ensures forall j :: 0 <= j < |ids| ==> r[j] == (ids[j], c.media[ids[j]])
  {
    if |ids| == 0 then [] else [(ids[0], c.media[ids[0]])] + Entries(c, ids[1..])
  }

  /** getRecentMediaByAlbum: the album must exist; its media are sorted
      newest first and cut to `limit` (Stream.limit rejects a negative
      limit with an IllegalArgumentException). */
  function RecentMediaByAlbum(c: Content, albumId: nat, limit: int): (r: Result<seq<MediaEntry>>)
    requires Valid(c)
    ensures albumId !in c.albums ==> r == Err(EntityNotFound("Album not found"))
    ensures r.Ok? <==> albumId in c.albums && limit >= 0
    ensures r.Ok? ==> NewestFirst(r.value)
    ensures r.Ok? ==> |r.value| == Min(limit, |MediaOfAlbum(c, albumId)|)
    ensures r.Ok? ==> r.value == SortNewestFirst(Entries(c, MediaOfAlbum(c, albumId)))[..|r.value|]
  {
    if albumId !in c.albums then Err(EntityNotFound("Album not found"))
    else if limit < 0 then Err(IllegalArgument(IntToString(limit)))
    else
      var sorted := SortNewestFirst(Entries(c, MediaOfAlbum(c, albumId)));
      assert |sorted| == |MediaOfAlbum(c, albumId)| by {
        assert |multiset(sorted)| == |multiset(Entries(c, MediaOfAlbum(c, albumId)))|;
      }
      var n := Min(limit, |sorted|);
      Ok(sorted[..n])
  }

  /** The recent list holds the newest media of the album: nothing left out
      is newer than anything kept. */
  lemma RecentAreNewest(c: Content, albumId: nat, limit: int)
    requires Valid(c)
    requires RecentMediaByAlbum(c, albumId, limit).Ok?
    ensures var all := SortNewestFirst(Entries(c, MediaOfAlbum(c, albumId)));
            var kept := RecentMediaByAlbum(c, albumId, limit).value;
            forall i, j :: 0 <= i < |kept| <= j < |all| ==> kept[i].1.createdAt >= all[j].1.createdAt
  {
  }

  // ---------------------------------------------------------------------
  // DTOs
  // ---------------------------------------------------------------------

  /** MediaResponseDto; `uploadedBy` is the uploader's id. */
  datatype MediaDto = MediaDto(
    id: nat,
    fileUrl: string,
    fileType: MediaType,
    originalFilename: string,
    fileSize: int,
    thumbnailUrl: Option<string>,
    uploadedBy: Option<nat>,
    createdAt: Instant,
    story: Option<string>)

  /** convertToMediaResponseDto (and MediaResponseDto.from, which agrees with
      it): the story is the first story's content, or null when the media has
      none; the uploader is null when the media has none. */
  function ToDto(c: Content, e: MediaEntry): (r: MediaDto)
    requires Valid(c)
    ensures r.id == e.0 && r.fileUrl == e.1.fileUrl && r.fileType == e.1.fileType
    ensures r.originalFilename == e.1.originalFilename && r.fileSize == e.1.fileSize
    ensures r.thumbnailUrl == e.1.thumbnailUrl && r.createdAt == e.1.createdAt
    ensures r.uploadedBy == e.1.uploadedBy
    ensures r.story.None? <==> StoriesOfMedia(c, e.0) == []
    ensures r.story.Some? ==> exists s :: s in c.stories && c.stories[s].mediaId == Some(e.0)
                                          && r.story.value == c.stories[s].content
  {
    var stories := StoriesOfMedia(c, e.0);
    var story := if |stories| == 0 then None else Some(c.stories[stories[0]].content);
    MediaDto(e.0, e.1.fileUrl, e.1.fileType, e.1.originalFilename, e.1.fileSize, e.1.thumbnailUrl,
             e.1.uploadedBy, e.1.createdAt, story)
  }

  function ToDtos(c: Content, es: seq<MediaEntry>): (r: seq<MediaDto>)
    requires Valid(c)
    ensures |r| == |es|
    ensures forall j :: 0 <= j < |es| ==> r[j] == ToDto(c, es[j])
  {
    if |es| == 0 then []
    else
      var rest := ToDtos(c, es[1..]);
      assert forall j :: 1 <= j < |es| ==> es[j] == es[1..][j - 1];
      [ToDto(c, es[0])] + rest
  }

  // ---------------------------------------------------------------------
  // The two authorised listings
  // ---------------------------------------------------------------------

  /** getAllAlbumMediaWithAuth: group exists, then the user is a member, then
      the album belongs to the group; then one page of the album's media. */
  function AllAlbumMediaWithAuth(t: Tables, c: Content, groupId: nat, albumId: nat,
                                 offset: nat, pageSize: nat, userId: nat): (r: Result<PageOf<MediaDto>>)
    requires Valid(c)
    ensures groupId !in t.groups ==> r == Err(EntityNotFound("Group not found with ID: " + NatToString(groupId)))
    ensures groupId in t.groups && !IsMember(t.memberships, groupId, userId)
            ==> r == Err(EntityNotFound("User is not a member of this group"))
    ensures groupId in t.groups && IsMember(t.memberships, groupId, userId)
            && !(albumId in c.albums && c.albums[albumId].groupId == Some(groupId))
            ==> r == Err(EntityNotFound("Album not found in group with ID: " + NatToString(albumId)))
    ensures r.Ok? <==> groupId in t.groups && IsMember(t.memberships, groupId, userId)
                       && albumId in c.albums && c.albums[albumId].groupId == Some(groupId)
    ensures r.Ok? ==> r.value.totalElements == |MediaOfAlbum(c, albumId)|
    ensures r.Ok? ==> r.value.content
                      == ToDtos(c, Page(Entries(c, MediaOfAlbum(c, albumId)), offset, pageSize).content)
  {
    if groupId !in t.groups then Err(EntityNotFound("Group not found with ID: " + NatToString(groupId)))
    else if !IsMember(t.memberships, groupId, userId) then
      Err(EntityNotFound("User is not a member of this group"))
    else if !(albumId in c.albums && c.albums[albumId].groupId == Some(groupId)) then
      Err(EntityNotFound("Album not found in group with ID: " + NatToString(albumId)))
    else
      var page := Page(Entries(c, MediaOfAlbum(c, albumId)), offset, pageSize);
      Ok(PageOf(ToDtos(c, page.content), page.totalElements))
  }

  /** getRecentMediaDtoByAlbumWithAuth: the album must exist and belong to a
      group, checked before the membership; then the recent list as DTOs. */
  function RecentMediaDtoByAlbumWithAuth(t: Tables, c: Content, albumId: nat, limit: int, userId: nat)
    : (r: Result<seq<MediaDto>>)
    requires Valid(c)
    ensures albumId !in c.albums ==> r == Err(EntityNotFound("Album not found"))
    ensures albumId in c.albums && c.albums[albumId].groupId.None?
            ==> r == Err(EntityNotFound("Album must belong to a group"))
    ensures r.Ok? <==> albumId in c.albums && c.albums[albumId].groupId.Some?
                       && ValidateGroupMembership(t, c.albums[albumId].groupId.value, userId).Ok?
                       && limit >= 0
    ensures r.Ok? ==> r.value == ToDtos(c, RecentMediaByAlbum(c, albumId, limit).value)
  {
    if albumId !in c.albums then Err(EntityNotFound("Album not found"))
    else
      var album := c.albums[albumId];
      if album.groupId.None? then Err(EntityNotFound("Album must belong to a group"))
      else
        var _ :- ValidateGroupMembership(t, album.groupId.value, userId);
        var recent :- RecentMediaByAlbum(c, albumId, limit);
        Ok(ToDtos(c, recent))
  }

  /** A group-less album is refused whoever asks, even a user who is a
      member of every group. */
  lemma GrouplessAlbumRefusedFirst(t: Tables, c: Content, albumId: nat, limit: int, u1: nat, u2: nat)
    requires Valid(c) && albumId in c.albums && c.albums[albumId].groupId.None?
    ensures RecentMediaDtoByAlbumWithAuth(t, c, albumId, limit, u1)
            == RecentMediaDtoByAlbumWithAuth(t, c, albumId, limit, u2)
            == Err(EntityNotFound("Album must belong to a group"))
  {
  }
}
