/** AlbumService: creating, listing, updating and deleting albums.

    The database part of each operation is transactional: a failing call
    leaves the tables as they were. The S3 part is not: an upload or a
    delete that happened before the failure stays done, so each operation
    also reports the storage calls it made, in order. */
module AlbumService {
  import opened Common
  import opened AlbumEntity
  import opened GroupRepo
  import UserEntity
  import UserRepo
  import CS = ContentStore
  import MS = MediaService
  import S3Storage

  /** AlbumRequestDto: every field may be null (the controller does not validate it). */
  datatype AlbumRequest = AlbumRequest(
    title: Option<string>,
    description: Option<string>,
    thumbnailFile: Option<FilePart>,
    theme: Option<AlbumTheme>,
    userId: Option<nat>,
    groupId: Option<nat>)

  /** A thumbnail file is present and not empty. */
  predicate HasFile(req: AlbumRequest)
  {
    req.thumbnailFile.Some? && !req.thumbnailFile.value.IsEmpty()
  }

  /** A call into S3Service: uploadThumbnail, or deleteImage of a URL. */
  datatype StorageCall = UploadThumbnail | DeleteImage(url: string)

  /** What an operation returns and the storage calls it made on the way. */
  datatype Outcome<T> = Outcome(result: Result<T>, calls: seq<StorageCall>)

  // ---------------------------------------------------------------------
  // createAlbum
  // ---------------------------------------------------------------------

  /** The storage calls of createAlbum: the thumbnail is uploaded first,
      before anything is looked up. */
  function CreateCalls(req: AlbumRequest): (r: seq<StorageCall>)
    ensures r == [UploadThumbnail] <==> HasFile(req)
    ensures r == [] <==> !HasFile(req)
  {
    if HasFile(req) then [UploadThumbnail] else []
  }

  /** The row createAlbum stores, or why it fails: the upload (its outcome
      `upload` is a parameter), the user when one is named, the group id,
      the group, and finally the not-null title and theme columns. */
  function CreateRow(users: map<string, UserEntity.UserRow>, t: Tables, req: AlbumRequest,
                     upload: Result<string>): (r: Result<AlbumRow>)
    ensures HasFile(req) && upload.Err? ==> r == upload.PropagateFailure()
    ensures r.Ok? <==> (HasFile(req) ==> upload.Ok?)
                       && (req.userId.Some? ==> UserRepo.ExistsById(users, req.userId.value))
                       && req.groupId.Some? && req.groupId.value in t.groups
                       && req.title.Some? && req.theme.Some?
    ensures (HasFile(req) ==> upload.Ok?) && req.userId.Some? && !UserRepo.ExistsById(users, req.userId.value)
            ==> r == Err(EntityNotFound("User not found with id: " + NatToString(req.userId.value)))
    ensures r.Ok? ==> r.value == AlbumRow(req.title.value, req.description,
                                          if HasFile(req) then Some(upload.value) else None,
                                          req.theme.value, req.userId, req.groupId, Some(GROUP))
  {
    var thumbnailUrl :- if HasFile(req) then (var u :- upload; Ok(Some(u))) else Ok(None);
    if req.userId.Some? && !UserRepo.ExistsById(users, req.userId.value) then
      Err(EntityNotFound("User not found with id: " + NatToString(req.userId.value)))
    else if req.groupId.None? then Err(EntityNotFound("Group ID is required"))
    else if req.groupId.value !in t.groups then
      Err(EntityNotFound("Group not found with id: " + NatToString(req.groupId.value)))
    else if req.title.None? then Err(ConstraintViolation("albums.title"))
    else if req.theme.None? then Err(ConstraintViolation("albums.theme"))
    else Ok(AlbumRow(req.title.value, req.description, thumbnailUrl, req.theme.value,
                     req.userId, req.groupId, Some(GROUP)))
  }

  /** createAlbum: builds the Album entity and saves it under the next id. */
  method CreateAlbum(users: UserRepo.UserRepository, groups: GroupTables, content: CS.ContentTables,
                     req: AlbumRequest, upload: Result<string>)
    returns (r: Result<nat>, calls: seq<StorageCall>)
    modifies content
    ensures calls == CreateCalls(req)
    ensures CreateRow(users.rows, groups.State(), req, upload).Err? ==>
              && r == CreateRow(users.rows, groups.State(), req, upload).PropagateFailure()
              && content.State() == old(content.State())
    ensures CreateRow(users.rows, groups.State(), req, upload).Ok? ==>
              && r == Ok(old(content.nextId))
              && content.State() == old(content.State()).(
                   albums := old(content.albums)[old(content.nextId) := CreateRow(users.rows, groups.State(), req, upload).value],
                   nextId := old(content.nextId) + 1)
  {
    calls := [];
    var thumbnailUrl: Option<string> := None;
    if HasFile(req) {
      calls := [UploadThumbnail];
      if upload.Err? {
        r := upload.PropagateFailure();
        return;
      }
      thumbnailUrl := Some(upload.value);
    }
    if req.userId.Some? && !UserRepo.ExistsById(users.rows, req.userId.value) {
      r := Err(EntityNotFound("User not found with id: " + NatToString(req.userId.value)));
      return;
    }
    if req.groupId.None? {
      r := Err(EntityNotFound("Group ID is required"));
      return;
    }
    if req.groupId.value !in groups.groups {
      r := Err(EntityNotFound("Group not found with id: " + NatToString(req.groupId.value)));
      return;
    }
    var album := new Album(req.title, req.description, thumbnailUrl, req.theme, req.userId, req.groupId);
    var row := album.Row();
    if row.None? {
      r := Err(if req.title.None? then ConstraintViolation("albums.title") else ConstraintViolation("albums.theme"));
      return;
    }
    var id := content.InsertAlbum(row.value);
    r := Ok(id);
  }

  /** A thumbnail uploaded for an album whose group does not exist stays in
      the bucket although nothing refers to it. */
  lemma UploadOutlivesFailedCreate(users: map<string, UserEntity.UserRow>, t: Tables, req: AlbumRequest, url: string)
    requires HasFile(req) && req.userId.None? && req.groupId.Some? && req.groupId.value !in t.groups
    ensures CreateRow(users, t, req, Ok(url)) == Err(EntityNotFound("Group not found with id: " + NatToString(req.groupId.value)))
    ensures CreateCalls(req) == [UploadThumbnail]
  {
  }

  // ---------------------------------------------------------------------
  // The permission check of updateAlbum and deleteAlbum
  // ---------------------------------------------------------------------

  /** The two kinds of value the admin check compares with Object.equals. */
  datatype JavaValue = EnumValue(role: UserGroupRole) | StringValue(text: string)

  /** Object.equals: an enum constant equals only itself, a string only an equal string. */
  predicate ObjectEquals(a: JavaValue, b: JavaValue)
  {
    a == b
  }

  /** isGroupAdmin: some membership of the album's group belongs to the user
      and its role equals "OWNER" or "SENIOR". The role is a UserGroupRole
      and is compared with a string. */
  predicate IsGroupAdmin(ms: map<MemberKey, Membership>, groupId: nat, userId: nat)
  {
    exists k :: k in ms && ms[k].groupId == groupId && ms[k].userId == userId
                && (ObjectEquals(EnumValue(ms[k].role), StringValue("OWNER"))
                    || ObjectEquals(EnumValue(ms[k].role), StringValue("SENIOR")))
  }

  /** The admin check never holds: an enum value never equals a string. */
  lemma AdminCheckNeverHolds(ms: map<MemberKey, Membership>, groupId: nat, userId: nat)
    ensures !IsGroupAdmin(ms, groupId, userId)
  {
    forall k | k in ms
      ensures !ObjectEquals(EnumValue(ms[k].role), StringValue("OWNER"))
      ensures !ObjectEquals(EnumValue(ms[k].role), StringValue("SENIOR"))
    {
    }
  }

  /** findById(null) in Spring Data. */
  const NULL_ID: string := "The given id must not be null"

  /** The stored album an update or delete (named by `action`) may act on:
      the album, then the user, then (always, even for the creator) the
      album's group, which is dereferenced for the admin check; then the
      user must be the creator or a group admin. */
  function Authorize(users: map<string, UserEntity.UserRow>, t: Tables, c: CS.Content, albumId: nat,
                     userId: Option<nat>, action: string): (r: Result<AlbumRow>)
    ensures albumId !in c.albums ==> r == Err(EntityNotFound("Album not found with id: " + NatToString(albumId)))
    ensures albumId in c.albums && userId.None? ==> r == Err(IllegalArgument(NULL_ID))
    ensures albumId in c.albums && userId.Some? && !UserRepo.ExistsById(users, userId.value)
            ==> r == Err(EntityNotFound("User not found with id: " + NatToString(userId.value)))
    ensures (albumId in c.albums && userId.Some? && UserRepo.ExistsById(users, userId.value)
             && c.albums[albumId].groupId.None?) ==> r == Err(NullPointer)
    ensures r.Ok? <==> && albumId in c.albums && userId.Some? && UserRepo.ExistsById(users, userId.value)
                       && c.albums[albumId].groupId.Some?
                       && (c.albums[albumId].userId == userId
                           || IsGroupAdmin(t.memberships, c.albums[albumId].groupId.value, userId.value))
    ensures r.Ok? ==> r.value == c.albums[albumId]
  {
    if albumId !in c.albums then Err(EntityNotFound("Album not found with id: " + NatToString(albumId)))
    else if userId.None? then Err(IllegalArgument(NULL_ID))
    else if !UserRepo.ExistsById(users, userId.value) then
      Err(EntityNotFound("User not found with id: " + NatToString(userId.value)))
    else
      var album := c.albums[albumId];
      var isAlbumCreator := album.userId == userId;
      if album.groupId.None? then Err(NullPointer)
      else
        var isGroupAdmin := IsGroupAdmin(t.memberships, album.groupId.value, userId.value);
        if !isAlbumCreator && !isGroupAdmin then
          Err(InvalidOperation("You don't have permission to " + action + " this album"))
        else Ok(album)
  }

  /** Only the album's creator gets past the check: the group's OWNER or a
      SENIOR who did not create the album is refused. */
  lemma OnlyCreatorIsAuthorized(users: map<string, UserEntity.UserRow>, t: Tables, c: CS.Content,
                                albumId: nat, userId: nat, action: string)
    requires albumId in c.albums && UserRepo.ExistsById(users, userId) && c.albums[albumId].groupId.Some?
    ensures Authorize(users, t, c, albumId, Some(userId), action).Ok? <==> c.albums[albumId].userId == Some(userId)
    ensures c.albums[albumId].userId != Some(userId) ==>
              Authorize(users, t, c, albumId, Some(userId), action)
              == Err(InvalidOperation("You don't have permission to " + action + " this album"))
  {
    AdminCheckNeverHolds(t.memberships, c.albums[albumId].groupId.value, userId);
  }

  /** The admin check as its comment describes it: the user holds the OWNER
      or SENIOR role in the album's group. */
  predicate IsGroupAdminIntended(ms: map<MemberKey, Membership>, groupId: nat, userId: nat)
  {
    exists k :: k in ms && ms[k].groupId == groupId && ms[k].userId == userId
                && (ms[k].role == OWNER || ms[k].role == SENIOR)
  }

  /** Authorize with the roles compared as enum values: the same refusals
      up to the role check, which now admits the group's OWNERs and SENIORs. */
  function AuthorizeIntended(users: map<string, UserEntity.UserRow>, t: Tables, c: CS.Content, albumId: nat,
                             userId: Option<nat>, action: string): (r: Result<AlbumRow>)
    ensures r.Ok? <==> && albumId in c.albums && userId.Some? && UserRepo.ExistsById(users, userId.value)
                       && c.albums[albumId].groupId.Some?
                       && (c.albums[albumId].userId == userId
                           || IsGroupAdminIntended(t.memberships, c.albums[albumId].groupId.value, userId.value))
    ensures r.Ok? ==> r.value == c.albums[albumId]
    // every refusal before the role check is the written one
    ensures Authorize(users, t, c, albumId, userId, action).Err?
            && !Authorize(users, t, c, albumId, userId, action).error.InvalidOperation? ==>
              r == Authorize(users, t, c, albumId, userId, action)
  {
    var written := Authorize(users, t, c, albumId, userId, action);
    if written.Err? && written.error.InvalidOperation?
       && IsGroupAdminIntended(t.memberships, c.albums[albumId].groupId.value, userId.value)
    then Ok(c.albums[albumId])
    else written
  }

  /** An OWNER or SENIOR of the album's group who did not create it: the
      written check refuses them, the intended one lets them through. */
  lemma GroupAdminIsAuthorized(users: map<string, UserEntity.UserRow>, t: Tables, c: CS.Content,
                               albumId: nat, userId: nat, k: MemberKey, action: string)
    requires albumId in c.albums && UserRepo.ExistsById(users, userId) && c.albums[albumId].groupId.Some?
    requires c.albums[albumId].userId != Some(userId)
    requires k in t.memberships && t.memberships[k].userId == userId
    requires t.memberships[k].groupId == c.albums[albumId].groupId.value
    requires t.memberships[k].role == OWNER || t.memberships[k].role == SENIOR
    ensures Authorize(users, t, c, albumId, Some(userId), action)
            == Err(InvalidOperation("You don't have permission to " + action + " this album"))
    ensures AuthorizeIntended(users, t, c, albumId, Some(userId), action) == Ok(c.albums[albumId])
  {
    OnlyCreatorIsAuthorized(users, t, c, albumId, userId, action);
  }

  // ---------------------------------------------------------------------
  // updateAlbum
  // ---------------------------------------------------------------------

  /** The stored row after the non-null title, description and theme of the request. */
  function ApplyFields(row: AlbumRow, req: AlbumRequest): (r: AlbumRow)
    ensures r.title == (if req.title.Some? then req.title.value else row.title)
    ensures r.theme == (if req.theme.Some? then req.theme.value else row.theme)
    ensures r.description == (if req.description.Some? then req.description else row.description)
    ensures r.thumbnailUrl == row.thumbnailUrl && r.userId == row.userId
    ensures r.groupId == row.groupId && r.visibility == row.visibility
  {
    row.(title := if req.title.Some? then req.title.value else row.title,
         description := if req.description.Some? then req.description else row.description,
         theme := if req.theme.Some? then req.theme.value else row.theme)
  }

  /** A thumbnail URL that deleteImage is called for: present and not empty. */
  predicate HasThumbnail(row: AlbumRow)
  {
    row.thumbnailUrl.Some? && row.thumbnailUrl.value != ""
  }

  /** Deleting the old thumbnail fails: its URL yields no key, or the client fails. */
  predicate OldThumbnailDeleteFails(row: AlbumRow, deleteOk: bool)
  {
    HasThumbnail(row) && S3Storage.DeleteImage(row.thumbnailUrl.value, deleteOk).Err?
  }

  /** updateAlbum: after the permission check the given fields are updated;
      with a new file the old thumbnail is deleted first and then the new
      one uploaded (outcomes `deleteOk` and `upload` are parameters). */
  function UpdateOutcome(users: map<string, UserEntity.UserRow>, t: Tables, c: CS.Content, albumId: nat,
                         req: AlbumRequest, upload: Result<string>, deleteOk: bool): (r: Outcome<AlbumRow>)
    ensures Authorize(users, t, c, albumId, req.userId, "update").Err? ==>
              r == Outcome(Authorize(users, t, c, albumId, req.userId, "update").PropagateFailure(), [])
    ensures r.result.Ok? <==> && Authorize(users, t, c, albumId, req.userId, "update").Ok?
                              && (HasFile(req) ==> !OldThumbnailDeleteFails(c.albums[albumId], deleteOk) && upload.Ok?)
    ensures r.result.Ok? ==> r.result.value == ApplyFields(c.albums[albumId], req).(
                               thumbnailUrl := if HasFile(req) && upload.Ok? then Some(upload.value)
                                               else c.albums[albumId].thumbnailUrl)
    ensures !HasFile(req) ==> r.calls == []
    ensures HasFile(req) && Authorize(users, t, c, albumId, req.userId, "update").Ok? ==>
              r.calls == (if HasThumbnail(c.albums[albumId]) then [DeleteImage(c.albums[albumId].thumbnailUrl.value)] else [])
                         + (if OldThumbnailDeleteFails(c.albums[albumId], deleteOk) then [] else [UploadThumbnail])
  {
    var auth := Authorize(users, t, c, albumId, req.userId, "update");
    if auth.Err? then Outcome(auth.PropagateFailure(), [])
    else
      var row := ApplyFields(auth.value, req);
      if !HasFile(req) then Outcome(Ok(row), [])
      else ReplaceThumbnailOutcome(row, upload, deleteOk)
  }

  /** The new-file part of updateAlbum: the old non-empty thumbnail is
      deleted, then the new file uploaded and its URL stored in the row. */
  function ReplaceThumbnailOutcome(row: AlbumRow, upload: Result<string>, deleteOk: bool): (r: Outcome<AlbumRow>)
    ensures r.result.Ok? <==> !OldThumbnailDeleteFails(row, deleteOk) && upload.Ok?
    ensures r.result.Ok? ==> r.result.value == row.(thumbnailUrl := Some(upload.value))
    ensures OldThumbnailDeleteFails(row, deleteOk) ==>
              r.result == S3Storage.DeleteImage(row.thumbnailUrl.value, deleteOk).PropagateFailure()
    ensures !OldThumbnailDeleteFails(row, deleteOk) && upload.Err? ==> r.result == upload.PropagateFailure()
    ensures r.calls == (if HasThumbnail(row) then [DeleteImage(row.thumbnailUrl.value)] else [])
                       + (if OldThumbnailDeleteFails(row, deleteOk) then [] else [UploadThumbnail])
  {
    var deleted := if HasThumbnail(row) then [DeleteImage(row.thumbnailUrl.value)] else [];
    var d := if HasThumbnail(row) then S3Storage.DeleteImage(row.thumbnailUrl.value, deleteOk) else Ok("");
    if d.Err? then Outcome(d.PropagateFailure(), deleted)
    else if upload.Err? then Outcome(upload.PropagateFailure(), deleted + [UploadThumbnail])
    else Outcome(Ok(row.(thumbnailUrl := Some(upload.value))), deleted + [UploadThumbnail])
  }

  /** The title, description and theme updates of updateAlbum, each
      applied only when the request carries a value. */
  method ApplyRequest(album: Album, req: AlbumRequest)
    modifies album
    ensures album.id == old(album.id)
    ensures album.Fields() == old(album.Fields()).(
              title := if req.title.Some? then req.title else old(album.title),
              description := if req.description.Some? then req.description else old(album.description),
              theme := if req.theme.Some? then req.theme else old(album.theme))
  {
    var self := album;
    if req.title.Some? {
      self := album.UpdateTitle(req.title);
    }
    if req.description.Some? {
      self := album.UpdateDescription(req.description);
    }
    if req.theme.Some? {
      self := album.UpdateTheme(req.theme);
    }
  }

  /** updateAlbum: loads the Album entity, applies the updates to it in
      place and saves it back under its id. */
  method UpdateAlbum(users: UserRepo.UserRepository, groups: GroupTables, content: CS.ContentTables,
                     albumId: nat, req: AlbumRequest, upload: Result<string>, deleteOk: bool)
    returns (r: Result<AlbumRow>, calls: seq<StorageCall>)
    modifies content
    ensures Outcome(r, calls) == UpdateOutcome(users.rows, groups.State(), old(content.State()), albumId, req, upload, deleteOk)
    ensures r.Err? ==> content.State() == old(content.State())
    ensures r.Ok? ==> content.State() == old(content.State()).(albums := old(content.albums)[albumId := r.value])
  {
    ghost var spec := UpdateOutcome(users.rows, groups.State(), content.State(), albumId, req, upload, deleteOk);
    var auth := Authorize(users.rows, groups.State(), content.State(), albumId, req.userId, "update");
    if auth.Err? {
      r, calls := auth.PropagateFailure(), [];
      return;
    }
    var album := Album.Load(albumId, auth.value);
    ApplyRequest(album, req);
    ghost var fields := ApplyFields(auth.value, req);
    assert album.Row() == Some(fields);
    assert spec == if HasFile(req) then ReplaceThumbnailOutcome(fields, upload, deleteOk) else Outcome(Ok(fields), []);
    calls := [];
    if HasFile(req) {
      r, calls := ReplaceThumbnail(album, upload, deleteOk);
      if r.Err? {
        return;
      }
    }
    var row := album.Row();
    content.PutAlbum(albumId, row.value);
    r := Ok(row.value);
  }

  /** The new-file steps of updateAlbum on the loaded entity. */
  method ReplaceThumbnail(album: Album, upload: Result<string>, deleteOk: bool)
    returns (r: Result<AlbumRow>, calls: seq<StorageCall>)
    requires album.Row().Some?
    modifies album
    ensures Outcome(r, calls) == ReplaceThumbnailOutcome(old(album.Row()).value, upload, deleteOk)
    ensures r.Ok? ==> album.Row() == Some(r.value)
  {
    calls := [];
    if album.thumbnailUrl.Some? && album.thumbnailUrl.value != "" {
      calls := [DeleteImage(album.thumbnailUrl.value)];
      var d := S3Storage.DeleteImage(album.thumbnailUrl.value, deleteOk);
      if d.Err? {
        r := d.PropagateFailure();
        return;
      }
    }
    calls := calls + [UploadThumbnail];
    if upload.Err? {
      r := upload.PropagateFailure();
      return;
    }
    var self := album.UpdateThumbnailUrl(Some(upload.value));
    r := Ok(album.Row().value);
  }

  /** An update leaves the creator, the group and the visibility alone. */
  lemma UpdateKeepsOwnership(users: map<string, UserEntity.UserRow>, t: Tables, c: CS.Content, albumId: nat,
                             req: AlbumRequest, upload: Result<string>, deleteOk: bool)
    requires UpdateOutcome(users, t, c, albumId, req, upload, deleteOk).result.Ok?
    ensures var row := UpdateOutcome(users, t, c, albumId, req, upload, deleteOk).result.value;
            && row.userId == c.albums[albumId].userId == req.userId
            && row.groupId == c.albums[albumId].groupId
            && row.visibility == c.albums[albumId].visibility
  {
    OnlyCreatorIsAuthorized(users, t, c, albumId, req.userId.value, "update");
  }

  /** When the new upload fails after the old thumbnail was deleted, the
      transaction rolls back and the album keeps referring to the deleted object. */
  lemma FailedUploadLeavesDeletedThumbnail(users: map<string, UserEntity.UserRow>, t: Tables, c: CS.Content,
                                           albumId: nat, req: AlbumRequest, failure: Exception)
    requires Authorize(users, t, c, albumId, req.userId, "update").Ok?
    requires HasFile(req) && HasThumbnail(c.albums[albumId])
    requires S3Storage.ExtractKeyFromUrl(c.albums[albumId].thumbnailUrl.value).Ok?
    ensures UpdateOutcome(users, t, c, albumId, req, Err(failure), true)
            == Outcome(Err(failure), [DeleteImage(c.albums[albumId].thumbnailUrl.value), UploadThumbnail])
  {
  }

  // ---------------------------------------------------------------------
  // deleteAlbum
  // ---------------------------------------------------------------------

  /** The foreign key media.album_id: a media row still names the album. */
  predicate HasMedia(c: CS.Content, albumId: nat)
  {
    exists i :: i in c.media && c.media[i].albumId == Some(albumId)
  }

  /** The column whose foreign key refuses the delete of an album that still has media. */
  const MEDIA_ALBUM_FK: string := "media.album_id"

  /** deleteAlbum: after the permission check a non-empty thumbnail is
      deleted from S3, then the album row. Album.media is mapped by the
      media's album_id without a cascade, so the database refuses the
      delete while a media row names the album, and by then the thumbnail
      is already gone. */
  function DeleteOutcome(users: map<string, UserEntity.UserRow>, t: Tables, c: CS.Content, albumId: nat,
                         userId: nat, deleteOk: bool): (r: Outcome<()>)
    ensures r.result.Ok? <==> && Authorize(users, t, c, albumId, Some(userId), "delete").Ok?
                              && (HasThumbnail(c.albums[albumId]) ==>
                                    S3Storage.DeleteImage(c.albums[albumId].thumbnailUrl.value, deleteOk).Ok?)
                              && !HasMedia(c, albumId)
    ensures Authorize(users, t, c, albumId, Some(userId), "delete").Err? ==> r.calls == []
    ensures Authorize(users, t, c, albumId, Some(userId), "delete").Ok? ==>
              r.calls == if HasThumbnail(c.albums[albumId]) then [DeleteImage(c.albums[albumId].thumbnailUrl.value)] else []
    // an album with media is refused by the foreign key after its thumbnail was deleted
    ensures && Authorize(users, t, c, albumId, Some(userId), "delete").Ok?
            && !OldThumbnailDeleteFails(c.albums[albumId], deleteOk)
            && HasMedia(c, albumId)
            ==> r.result == Err(ConstraintViolation(MEDIA_ALBUM_FK))
  {
    var auth := Authorize(users, t, c, albumId, Some(userId), "delete");
    if auth.Err? then Outcome(auth.PropagateFailure(), [])
    else
      var calls := if HasThumbnail(auth.value) then [DeleteImage(auth.value.thumbnailUrl.value)] else [];
      if OldThumbnailDeleteFails(auth.value, deleteOk) then
        Outcome(S3Storage.DeleteImage(auth.value.thumbnailUrl.value, deleteOk).PropagateFailure(), calls)
      else if HasMedia(c, albumId) then Outcome(Err(ConstraintViolation(MEDIA_ALBUM_FK)), calls)
      else Outcome(Ok(()), calls)
  }

  /** deleteAlbum: removes the album row when no media row names it. */
  method DeleteAlbum(users: UserRepo.UserRepository, groups: GroupTables, content: CS.ContentTables,
                     albumId: nat, userId: nat, deleteOk: bool)
    returns (r: Result<()>, calls: seq<StorageCall>)
    modifies content
    ensures Outcome(r, calls) == DeleteOutcome(users.rows, groups.State(), old(content.State()), albumId, userId, deleteOk)
    ensures r.Err? ==> content.State() == old(content.State())
    ensures r.Ok? ==> content.State() == old(content.State()).(albums := old(content.albums) - {albumId})
  {
    var auth := Authorize(users.rows, groups.State(), content.State(), albumId, Some(userId), "delete");
    if auth.Err? {
      r, calls := auth.PropagateFailure(), [];
      return;
    }
    calls := [];
    if HasThumbnail(auth.value) {
      calls := [DeleteImage(auth.value.thumbnailUrl.value)];
      var d := S3Storage.DeleteImage(auth.value.thumbnailUrl.value, deleteOk);
      if d.Err? {
        r := d.PropagateFailure();
        return;
      }
    }
    if exists i :: i in content.media && content.media[i].albumId == Some(albumId) {
      r := Err(ConstraintViolation(MEDIA_ALBUM_FK));
      return;
    }
    content.DeleteAlbum(albumId);
    r := Ok(());
  }

  /** A deleted album leaves its group's listing and every other listing keeps its order. */
  lemma DeletedAlbumIsUnlisted(c: CS.Content, albumId: nat, g: nat)
    requires CS.Valid(c)
    ensures var c' := c.(albums := c.albums - {albumId});
            && CS.Valid(c')
            && (forall i :: i in CS.AlbumsOfGroup(c', g) <==> i in CS.AlbumsOfGroup(c, g) && i != albumId)
  {
  }

  // ---------------------------------------------------------------------
  // getAlbumsByGroupId
  // ---------------------------------------------------------------------

  /** GroupAlbumListResponseDto without its timestamps. */
  datatype GroupAlbumEntry = GroupAlbumEntry(id: nat, title: string, description: Option<string>,
                                             recentMedia: seq<MS.MediaDto>)

  /** The per-album call of the listing: getRecentMediaDtoByAlbumWithAuth
      with the requested count, on behalf of the requesting user. */
  function RecentOf(t: Tables, c: CS.Content, thumbnailCount: int, userId: nat): nat -> Result<seq<MS.MediaDto>>
    requires CS.Valid(c)
  {
    (albumId: nat) => MS.RecentMediaDtoByAlbumWithAuth(t, c, albumId, thumbnailCount, userId)
  }

  /** The entries of the listed albums from the `i`-th on, in order, each
      with the outcome of `recent` for it, stopping at the first failure. */
  function EntriesFrom(c: CS.Content, ids: seq<nat>, i: nat, recent: nat -> Result<seq<MS.MediaDto>>)
    : (r: Result<seq<GroupAlbumEntry>>)
    requires i <= |ids| && forall k :: k in ids ==> k in c.albums
    ensures r.Ok? ==> |r.value| == |ids| - i
    decreases |ids| - i
  {
    if i == |ids| then Ok([])
    else
      var media :- recent(ids[i]);
      var rest :- EntriesFrom(c, ids, i + 1, recent);
      Ok([GroupAlbumEntry(ids[i], c.albums[ids[i]].title, c.albums[ids[i]].description, media)] + rest)
  }

  /** Entries already built, in front of the outcome for the remaining albums. */
  function Prepend(done: seq<GroupAlbumEntry>, rest: Result<seq<GroupAlbumEntry>>): Result<seq<GroupAlbumEntry>>
  {
    if rest.Err? then rest else Ok(done + rest.value)
  }

  /** getAlbumsByGroupId: the group must exist and the user be a member;
      then each album of the group with its most recent media. */
  function AlbumsByGroup(t: Tables, c: CS.Content, groupId: nat, thumbnailCount: int, userId: nat)
    : (r: Result<seq<GroupAlbumEntry>>)
    requires CS.Valid(c)
    ensures groupId !in t.groups ==> r == Err(EntityNotFound("Group not found with id: " + NatToString(groupId)))
    ensures groupId in t.groups && !MS.IsMember(t.memberships, groupId, userId)
            ==> r == Err(EntityNotFound("User is not a member of this group"))
    ensures r.Ok? ==> |r.value| == |CS.AlbumsOfGroup(c, groupId)|
  {
    if groupId !in t.groups then Err(EntityNotFound("Group not found with id: " + NatToString(groupId)))
    else if !MS.IsMember(t.memberships, groupId, userId) then Err(EntityNotFound("User is not a member of this group"))
    else EntriesFrom(c, CS.AlbumsOfGroup(c, groupId), 0, RecentOf(t, c, thumbnailCount, userId))
  }

  /** getAlbumsByGroupId. */
  method GetAlbumsByGroupId(t: Tables, c: CS.Content, groupId: nat, thumbnailCount: int, userId: nat)
    returns (r: Result<seq<GroupAlbumEntry>>)
    requires CS.Valid(c)
    ensures r == AlbumsByGroup(t, c, groupId, thumbnailCount, userId)
  {
    if groupId !in t.groups {
      return Err(EntityNotFound("Group not found with id: " + NatToString(groupId)));
    }
    if !MS.IsMember(t.memberships, groupId, userId) {
      return Err(EntityNotFound("User is not a member of this group"));
    }
    r := CollectEntries(c, CS.AlbumsOfGroup(c, groupId), RecentOf(t, c, thumbnailCount, userId));
  }

  /** The loop of getAlbumsByGroupId: one entry per album, in order, each
      with the outcome of the per-album call `recentOf`, leaving at the first
      failure. */
  method CollectEntries(c: CS.Content, albums: seq<nat>, recentOf: nat -> Result<seq<MS.MediaDto>>)
    returns (r: Result<seq<GroupAlbumEntry>>)
    requires forall k :: k in albums ==> k in c.albums
    ensures r == EntriesFrom(c, albums, 0, recentOf)
  {
    var result: seq<GroupAlbumEntry> := [];
    var i := 0;
    var all := EntriesFrom(c, albums, 0, recentOf);
    assert all.Ok? ==> [] + all.value == all.value;
    while i < |albums|
      invariant 0 <= i <= |albums|
      invariant all == Prepend(result, EntriesFrom(c, albums, i, recentOf))
    {
      var album := c.albums[albums[i]];
      var recent := recentOf(albums[i]);
      if recent.Err? {
        return recent.PropagateFailure();
      }
      var entry := GroupAlbumEntry(albums[i], album.title, album.description, recent.value);
      PrependTwice(result, [entry], EntriesFrom(c, albums, i + 1, recentOf));
      result := result + [entry];
      i := i + 1;
    }
    assert result + [] == result;
    r := Ok(result);
  }

  /** Prepending twice is prepending the concatenation. */
  lemma PrependTwice(a: seq<GroupAlbumEntry>, b: seq<GroupAlbumEntry>, rest: Result<seq<GroupAlbumEntry>>)
    ensures Prepend(a, Prepend(b, rest)) == Prepend(a + b, rest)
  {
    if rest.Ok? {
      assert a + (b + rest.value) == (a + b) + rest.value;
    }
  }

  /** When `recent` succeeds for every remaining album, the listing
      succeeds with one entry per album, in order, each carrying its media. */
  lemma {:induction false} EntriesWhenAllSucceed(c: CS.Content, ids: seq<nat>, i: nat,
                                                 recent: nat -> Result<seq<MS.MediaDto>>)
    requires i <= |ids| && forall k :: k in ids ==> k in c.albums
    requires forall k :: i <= k < |ids| ==> recent(ids[k]).Ok?
    ensures var r := EntriesFrom(c, ids, i, recent);
            && r.Ok?
            && forall k :: 0 <= k < |r.value| ==>
                 r.value[k] == GroupAlbumEntry(ids[i + k], c.albums[ids[i + k]].title,
                                               c.albums[ids[i + k]].description, recent(ids[i + k]).value)
    decreases |ids| - i
  {
    if i < |ids| {
      EntriesWhenAllSucceed(c, ids, i + 1, recent);
      var rest := EntriesFrom(c, ids, i + 1, recent).value;
      var r := EntriesFrom(c, ids, i, recent).value;
      forall k | 0 < k < |r|
        ensures r[k] == GroupAlbumEntry(ids[i + k], c.albums[ids[i + k]].title,
                                        c.albums[ids[i + k]].description, recent(ids[i + k]).value)
      {
        assert r[k] == rest[k - 1];
        assert i + 1 + (k - 1) == i + k;
      }
    }
  }

  /** The listing fails exactly when `recent` fails for some remaining album. */
  lemma {:induction false} EntriesFailOnSomeAlbum(c: CS.Content, ids: seq<nat>, i: nat,
                                                  recent: nat -> Result<seq<MS.MediaDto>>)
    requires i <= |ids| && forall k :: k in ids ==> k in c.albums
    ensures EntriesFrom(c, ids, i, recent).Err? <==> exists k :: i <= k < |ids| && recent(ids[k]).Err?
    decreases |ids| - i
  {
    if i < |ids| {
      EntriesFailOnSomeAlbum(c, ids, i + 1, recent);
    }
  }

  /** A member asking with a non-negative count gets each album's newest media. */
  lemma MemberGetsRecentMedia(t: Tables, c: CS.Content, albumId: nat, groupId: nat, thumbnailCount: int, userId: nat)
    requires CS.Valid(c) && groupId in t.groups && MS.IsMember(t.memberships, groupId, userId)
    requires thumbnailCount >= 0 && albumId in c.albums && c.albums[albumId].groupId == Some(groupId)
    ensures RecentOf(t, c, thumbnailCount, userId)(albumId)
            == Ok(MS.ToDtos(c, MS.RecentMediaByAlbum(c, albumId, thumbnailCount).value))
  {
  }

  /** A member with a non-negative count sees every album of the group, in
      id order, each with its newest media. */
  lemma MemberSeesEveryAlbum(t: Tables, c: CS.Content, groupId: nat, thumbnailCount: int, userId: nat)
    requires CS.Valid(c) && groupId in t.groups && MS.IsMember(t.memberships, groupId, userId)
    requires thumbnailCount >= 0
    ensures var r := AlbumsByGroup(t, c, groupId, thumbnailCount, userId);
            var ids := CS.AlbumsOfGroup(c, groupId);
            && r.Ok? && |r.value| == |ids|
            && forall j :: 0 <= j < |ids| ==>
                 && r.value[j].id == ids[j]
                 && r.value[j].recentMedia == MS.ToDtos(c, MS.RecentMediaByAlbum(c, ids[j], thumbnailCount).value)
  {
    var ids := CS.AlbumsOfGroup(c, groupId);
    var recent := RecentOf(t, c, thumbnailCount, userId);
    forall k | 0 <= k < |ids|
      ensures recent(ids[k]) == Ok(MS.ToDtos(c, MS.RecentMediaByAlbum(c, ids[k], thumbnailCount).value))
    {
      MemberGetsRecentMedia(t, c, ids[k], groupId, thumbnailCount, userId);
    }
    EntriesWhenAllSucceed(c, ids, 0, recent);
    assert AlbumsByGroup(t, c, groupId, thumbnailCount, userId) == EntriesFrom(c, ids, 0, recent);
  }

  /** A negative count fails the listing exactly when the group has an album. */
  lemma NegativeCountFailsOnAnyAlbum(t: Tables, c: CS.Content, groupId: nat, thumbnailCount: int, userId: nat)
    requires CS.Valid(c) && groupId in t.groups && MS.IsMember(t.memberships, groupId, userId)
    requires thumbnailCount < 0
    ensures AlbumsByGroup(t, c, groupId, thumbnailCount, userId).Ok? <==> CS.AlbumsOfGroup(c, groupId) == []
  {
    var ids := CS.AlbumsOfGroup(c, groupId);
    EntriesFailOnSomeAlbum(c, ids, 0, RecentOf(t, c, thumbnailCount, userId));
    if ids != [] {
      assert RecentOf(t, c, thumbnailCount, userId)(ids[0]).Err?;
    }
  }
}
