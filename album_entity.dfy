/** The Album entity: its enums, the row the albums table stores, and the
    in-place entity with its builder constructor and `update*` mutators. */
module AlbumEntity {
  import opened Common

  datatype AlbumTheme = SENIOR_CARE | CHILD_GROWTH | COUPLE_STORY

  datatype AlbumVisibility = PUBLIC | GROUP | PRIVATE

  /** Enum.name(). */
  function ThemeName(t: AlbumTheme): (r: string)
    ensures t == SENIOR_CARE <==> r == "SENIOR_CARE"
    ensures t == CHILD_GROWTH <==> r == "CHILD_GROWTH"
    ensures t == COUPLE_STORY <==> r == "COUPLE_STORY"
  {
    match t
    case SENIOR_CARE => "SENIOR_CARE"
    case CHILD_GROWTH => "CHILD_GROWTH"
    case COUPLE_STORY => "COUPLE_STORY"
  }

  /** A stored album (its id is the key it is stored under). Title and
      theme are not-null columns; the user and group references (by id), the
      description, the thumbnail and the visibility may be null. */
  datatype AlbumRow = AlbumRow(
    title: string,
    description: Option<string>,
    thumbnailUrl: Option<string>,
    theme: AlbumTheme,
    userId: Option<nat>,
    groupId: Option<nat>,
    visibility: Option<AlbumVisibility>)

  /** Everything an Album object holds besides its identity, each field
      possibly null; `pages` and `mediaList` are the ids of the pages and
      media the object holds. */
  datatype AlbumFields = AlbumFields(
    title: Option<string>,
    description: Option<string>,
    thumbnailUrl: Option<string>,
    theme: Option<AlbumTheme>,
    user: Option<nat>,
    group: Option<nat>,
    visibility: Option<AlbumVisibility>,
    pages: seq<nat>,
    mediaList: seq<nat>)

  class Album {
    var id: Option<nat>
    var title: Option<string>
    var description: Option<string>
    var thumbnailUrl: Option<string>
    var theme: Option<AlbumTheme>
    var user: Option<nat>
    var group: Option<nat>
    var visibility: Option<AlbumVisibility>
    var pages: seq<nat>
    var mediaList: seq<nat>

    function Fields(): AlbumFields
      reads this
    {
      AlbumFields(title, description, thumbnailUrl, theme, user, group, visibility, pages, mediaList)
    }

    /** The builder constructor: the six given fields as passed, no identity
        yet, visibility left at its GROUP initialiser, and no pages or media. */
    constructor (title: Option<string>, description: Option<string>, thumbnailUrl: Option<string>,
                 theme: Option<AlbumTheme>, user: Option<nat>, group: Option<nat>)
      ensures id.None?
      ensures Fields() == AlbumFields(title, description, thumbnailUrl, theme, user, group, Some(GROUP), [], [])
    {
      this.id := None;
      this.title := title;
      this.description := description;
      this.thumbnailUrl := thumbnailUrl;
      this.theme := theme;
      this.user := user;
      this.group := group;
      this.visibility := Some(GROUP);
      this.pages := [];
      this.mediaList := [];
    }

    /** findById: the managed entity holding a stored row. */
    static method Load(id: nat, row: AlbumRow) returns (a: Album)
      ensures fresh(a)
      ensures a.id == Some(id) && a.Row() == Some(row)
      ensures a.pages == [] && a.mediaList == []
    {
      a := new Album(Some(row.title), row.description, row.thumbnailUrl, Some(row.theme), row.userId, row.groupId);
      a.id := Some(id);
      a.visibility := row.visibility;
    }

    /** The row a save of this object stores: none when a not-null column
        (title, theme) is null. */
    function Row(): (r: Option<AlbumRow>)
      reads this
      ensures r.Some? <==> title.Some? && theme.Some?
      ensures r.Some? ==> r.value.title == title.value && r.value.theme == theme.value
                          && r.value.description == description && r.value.thumbnailUrl == thumbnailUrl
                          && r.value.userId == user && r.value.groupId == group
                          && r.value.visibility == visibility
    {
      if title.None? || theme.None? then None
      else Some(AlbumRow(title.value, description, thumbnailUrl, theme.value, user, group, visibility))
    }

    method UpdateGroup(group: Option<nat>) returns (self: Album)
      modifies this
      ensures self == this && id == old(id)
      ensures Fields() == old(Fields()).(group := group)
    {
      this.group := group;
      self := this;
    }

    method UpdateUser(user: Option<nat>) returns (self: Album)
      modifies this
      ensures self == this && id == old(id)
      ensures Fields() == old(Fields()).(user := user)
    {
      this.user := user;
      self := this;
    }

    method UpdateTitle(title: Option<string>) returns (self: Album)
      modifies this
      ensures self == this && id == old(id)
      ensures Fields() == old(Fields()).(title := title)
    {
      this.title := title;
      self := this;
    }

    method UpdateDescription(description: Option<string>) returns (self: Album)
      modifies this
      ensures self == this && id == old(id)
      ensures Fields() == old(Fields()).(description := description)
    {
      this.description := description;
      self := this;
    }

    method UpdateTheme(theme: Option<AlbumTheme>) returns (self: Album)
      modifies this
      ensures self == this && id == old(id)
      ensures Fields() == old(Fields()).(theme := theme)
    {
      this.theme := theme;
      self := this;
    }

    method UpdateThumbnailUrl(thumbnailUrl: Option<string>) returns (self: Album)
      modifies this
      ensures self == this && id == old(id)
      ensures Fields() == old(Fields()).(thumbnailUrl := thumbnailUrl)
    {
      this.thumbnailUrl := thumbnailUrl;
      self := this;
    }

    method UpdateVisibility(visibility: Option<AlbumVisibility>) returns (self: Album)
      modifies this
      ensures self == this && id == old(id)
      ensures Fields() == old(Fields()).(visibility := visibility)
    {
      this.visibility := visibility;
      self := this;
    }
  }

  /** Each mutator applied twice with the same argument leaves the album as
      one application does; the chained calls act on the one object. */
  method UpdatesAreIdempotent(a: Album, title: Option<string>, description: Option<string>,
                              theme: Option<AlbumTheme>, thumbnailUrl: Option<string>)
    modifies a
    ensures a.id == old(a.id)
    ensures a.Fields() == old(a.Fields()).(title := title, description := description,
                                           theme := theme, thumbnailUrl := thumbnailUrl)
  {
    var b := a.UpdateTitle(title);
    b := b.UpdateTitle(title);
    b := b.UpdateDescription(description);
    b := b.UpdateDescription(description);
    b := b.UpdateTheme(theme);
    b := b.UpdateTheme(theme);
    b := b.UpdateThumbnailUrl(thumbnailUrl);
    b := b.UpdateThumbnailUrl(thumbnailUrl);
    assert b == a;
  }
}
