/** GroupService: creating, joining, leaving and editing family groups, and
    removing members.

    Every operation is @Transactional, so an exception leaves both tables as
    they were. The UUID behind an invite code, the clock and the outcome of an
    image upload are parameters. The users table is only read. */
module GroupService {
  import opened Common
  import opened UserEntity
  import opened UserRepo
  import opened GroupRepo

  /** How long a fresh invite code stays valid. */
  const INVITE_VALIDITY: int := 7 * DAY

  // Messages of the exceptions the service throws itself.
  const USER_NOT_FOUND_EN: string := "User not found"
  const USER_NOT_FOUND_KO: string := "사용자를 찾을 수 없습니다."
  const USER_NOT_FOUND_JOIN: string := "사용자를 찾을 수 없습니다.??"
  const GROUP_NOT_FOUND_KO: string := "그룹을 찾을 수 없습니다."
  const NOT_IN_GROUP: string := "그룹에 속하지 않은 사용자입니다."
  const NO_EDIT_PERMISSION: string := "그룹 정보 수정 권한이 없습니다."
  const WRONG_INVITE_CODE: string := "초대코드가 틀렸습니당"
  const ALREADY_JOINED: string := "이미 이 그룹에 가입되어 있습니다."
  const UPLOAD_FAILED: string := "Failed to upload group image"

  /** The GroupException subclasses, each with its code and fixed message. */
  function GroupError(code: ErrorCode): Exception
  {
    match code
    case GROUP_NOT_FOUND => Api(GROUP_NOT_FOUND, "그룹을 찾을 수 없습니다.")
    case NOT_GROUP_MEMBER => Api(NOT_GROUP_MEMBER, "해당 그룹의 멤버가 아닙니다.")
    case OWNER_CANNOT_LEAVE => Api(OWNER_CANNOT_LEAVE, "그룹 소유자는 먼저 다른 멤버에게 소유권을 이전해야 합니다.")
    case NOT_GROUP_OWNER => Api(NOT_GROUP_OWNER, "그룹 소유자만 이 작업을 수행할 수 있습니다.")
    case OWNER_CANNOT_BE_REMOVED => Api(OWNER_CANNOT_BE_REMOVED, "그룹 소유자는 삭제할 수 없습니다.")
    case GROUP_MEMBER_NOT_FOUND => Api(GROUP_MEMBER_NOT_FOUND, "그룹 멤버를 찾을 수 없습니다.")
    case _ => Api(code, "")
  }

  /** generateInviteCode: the first six characters of the UUID text,
      upper-cased. substring throws on a text shorter than six. */
  function InviteCode(uuid: string): (r: Result<string>)
    ensures r.Ok? <==> |uuid| >= 6
    ensures r.Err? ==> r.error == StringIndexOutOfBounds
    ensures r.Ok? ==> |r.value| == 6 && EqualsIgnoreCase(r.value, uuid[..6])
    ensures r.Ok? ==> forall i :: 0 <= i < 6 ==> !('a' <= r.value[i] <= 'z')
  {
    if |uuid| < 6 then Err(StringIndexOutOfBounds)
    else
      var code := Upper(uuid[..6]);
      assert Lower(code) == Lower(uuid[..6]);
      Ok(code)
  }

  /** The sortOrder of a user's next membership: one past the user's largest,
      or 1 for a user without memberships. */
  function NextSortOrder(ms: map<MemberKey, Membership>, userId: nat): (r: int)
    ensures forall k :: k in ms && k.0 == userId ==> ms[k].sortOrder < r
    ensures (forall k :: k in ms ==> k.0 != userId) ==> r == 1
    ensures (exists k :: k in ms && k.0 == userId) ==> exists k :: k in ms && k.0 == userId && ms[k].sortOrder == r - 1
  {
    match MaxSortOrder(ms, userId)
    case None => 1
    case Some(m) => m + 1
  }

  // ---------------------------------------------------------------------
  // createGroup
  // ---------------------------------------------------------------------

  /** createGroup on the tables: the tables afterwards and the new group's id.
      `upload` is None when no (non-empty) image is given, otherwise the
      outcome of uploading it. */
  function CreateGroupSpec(t: Tables, users: map<string, UserRow>, name: string, description: Option<string>,
                           upload: Option<Result<string>>, email: string, uuid: string, now: Instant)
    : (r: Result<(Tables, nat)>)
    ensures email !in users ==> r == Err(EntityNotFound(USER_NOT_FOUND_EN))
    ensures email in users && |uuid| < 6 ==> r == Err(StringIndexOutOfBounds)
    ensures email in users && |uuid| >= 6 && upload.Some? && upload.value.Err? ==>
              r == Err(RuntimeFailure(UPLOAD_FAILED))
    ensures r.Ok? <==> email in users && |uuid| >= 6 && !(upload.Some? && upload.value.Err?)
    ensures r.Ok? ==>
              var (t', gid) := r.value;
              var uid := users[email].id;
              // a fresh group with an active code valid for seven days
              && gid == t.nextGroupId && t'.groups.Keys == t.groups.Keys + {gid}
              && t'.groups[gid].name == name && t'.groups[gid].groupDescription == description
              && t'.groups[gid].inviteCode == InviteCode(uuid).value
              && t'.groups[gid].isInviteCodeActive && t'.groups[gid].inviteCodeExpiryAt == now + INVITE_VALIDITY
              && t'.groups[gid].groupImageUrl == (if upload.Some? then Some(upload.value.value) else None)
              // the creator is a member, as OWNER under the user's own name
              && (uid, gid) in t'.memberships
              && t'.memberships[(uid, gid)].role == OWNER
              && t'.memberships[(uid, gid)].groupNickname == users[email].name
              && t'.memberships[(uid, gid)].sortOrder == NextSortOrder(t.memberships, uid)
              // nothing else changes
              && (forall g :: g in t.groups && g != gid ==> t'.groups[g] == t.groups[g])
              && t'.memberships.Keys == t.memberships.Keys + {(uid, gid)}
              && (forall k :: k in t.memberships && k != (uid, gid) ==> t'.memberships[k] == t.memberships[k])
              && t'.nextGroupId == t.nextGroupId + 1 && t'.nextMembershipId == t.nextMembershipId + 1
  {
    if email !in users then Err(EntityNotFound(USER_NOT_FOUND_EN))
    else
      var user := users[email];
      var code :- InviteCode(uuid);
      var gid := t.nextGroupId;
      var image :- match upload
        case None => Ok(None)
        case Some(Ok(url)) => Ok(Some(url))
        case Some(Err(_)) => Err(RuntimeFailure(UPLOAD_FAILED));
      var group := GroupRow(gid, name, description, code, now + INVITE_VALIDITY, true, image);
      var owner := Membership(t.nextMembershipId, user.id, gid, OWNER, user.name, user.profileImgUrl, true,
                              NextSortOrder(t.memberships, user.id), now);
      Ok((Tables(t.groups[gid := group], t.memberships[(user.id, gid) := owner],
                 t.nextGroupId + 1, t.nextMembershipId + 1), gid))
  }

  // ---------------------------------------------------------------------
  // updateGroup
  // ---------------------------------------------------------------------

  /** updateGroup on the tables. `upload` is None when no (non-empty) image is
      given, otherwise the outcome of uploading it; its exception propagates. */
  function UpdateGroupSpec(t: Tables, users: map<string, UserRow>, groupId: nat, name: string,
                           description: Option<string>, upload: Option<Result<string>>, email: string)
    : (r: Result<Tables>)
    ensures email !in users ==> r == Err(EntityNotFound(USER_NOT_FOUND_KO))
    ensures email in users && groupId !in t.groups ==> r == Err(EntityNotFound(GROUP_NOT_FOUND_KO))
    ensures email in users && groupId in t.groups && (users[email].id, groupId) !in t.memberships ==>
              r == Err(IllegalArgument(NOT_IN_GROUP))
    // an OWNER's edit succeeds exactly when the upload, if any, did not fail
    ensures r.Ok? <==> && email in users && groupId in t.groups && (users[email].id, groupId) in t.memberships
                       && t.memberships[(users[email].id, groupId)].role == OWNER
                       && !(upload.Some? && upload.value.Err?)
    // a failed upload's exception propagates
    ensures && email in users && groupId in t.groups && (users[email].id, groupId) in t.memberships
            && t.memberships[(users[email].id, groupId)].role == OWNER
            && upload.Some? && upload.value.Err?
            ==> r == Err(upload.value.error)
    // only an OWNER may edit
    ensures r.Ok? ==> email in users && (users[email].id, groupId) in t.memberships
                      && t.memberships[(users[email].id, groupId)].role == OWNER
    ensures email in users && (users[email].id, groupId) in t.memberships
            && t.memberships[(users[email].id, groupId)].role != OWNER && groupId in t.groups ==>
              r == Err(IllegalArgument(NO_EDIT_PERMISSION))
    ensures r.Ok? ==>
              && groupId in t.groups
              && r.value == t.(groups := t.groups[groupId := t.groups[groupId].(
                                 name := name, groupDescription := description,
                                 groupImageUrl := if upload.Some? && upload.value.Ok? then Some(upload.value.value)
                                                  else t.groups[groupId].groupImageUrl)])
  {
    if email !in users then Err(EntityNotFound(USER_NOT_FOUND_KO))
    else if groupId !in t.groups then Err(EntityNotFound(GROUP_NOT_FOUND_KO))
    else
      var key := (users[email].id, groupId);
      if key !in t.memberships then Err(IllegalArgument(NOT_IN_GROUP))
      else if t.memberships[key].role != OWNER then Err(IllegalArgument(NO_EDIT_PERMISSION))
      else
        var group := t.groups[groupId];
        var image :- match upload
          case None => Ok(group.groupImageUrl)
          case Some(outcome) => if outcome.Ok? then Ok(Some(outcome.value)) else Err(outcome.error);
        Ok(t.(groups := t.groups[groupId := group.(name := name, groupDescription := description,
                                                  groupImageUrl := image)]))
  }

  // ---------------------------------------------------------------------
  // joinGroup
  // ---------------------------------------------------------------------

  /** joinGroup on the tables: the tables afterwards and the joined group's id. */
  function JoinGroupSpec(t: Tables, users: map<string, UserRow>, code: string, nickname: Option<string>,
                         email: string, now: Instant)
    : (r: Result<(Tables, nat)>)
    // no group with that active code: rejected before the user is looked up
    ensures FindByActiveInviteCode(t.groups, code, now) == Ok(None) ==> r == Err(IllegalArgument(WRONG_INVITE_CODE))
    ensures (FindByActiveInviteCode(t.groups, code, now).Ok? && FindByActiveInviteCode(t.groups, code, now).value.Some?
             && email !in users) ==> r == Err(EntityNotFound(USER_NOT_FOUND_JOIN))
    // a failed lookup (several groups share the active code) is passed through unchanged
    ensures FindByActiveInviteCode(t.groups, code, now).Err? ==>
              r == FindByActiveInviteCode(t.groups, code, now).PropagateFailure()
    // the join succeeds exactly when a group is found, the user exists and is not yet a member of it
    ensures r.Ok? <==>
              && FindByActiveInviteCode(t.groups, code, now).Ok?
              && FindByActiveInviteCode(t.groups, code, now).value.Some?
              && email in users
              && (users[email].id, FindByActiveInviteCode(t.groups, code, now).value.value) !in t.memberships
    ensures r.Ok? ==> email in users
    // the joined group is the one the code found, and one membership id is consumed
    ensures r.Ok? ==> FindByActiveInviteCode(t.groups, code, now) == Ok(Some(r.value.1))
                      && r.value.0.nextMembershipId == t.nextMembershipId + 1
    ensures r.Ok? && email in users ==>
              var (t', gid) := r.value;
              var uid := users[email].id;
              // the group's code is active and expires strictly after now
              && gid in t.groups && ActiveInvite(t.groups[gid], code, now)
              // the user was not yet a member, and now is one, as MEMBER
              && (uid, gid) !in t.memberships
              && t'.memberships.Keys == t.memberships.Keys + {(uid, gid)}
              && t'.memberships[(uid, gid)].role == MEMBER
              && t'.memberships[(uid, gid)].groupNickname == nickname.GetOr(users[email].name)
              && t'.memberships[(uid, gid)].sortOrder == NextSortOrder(t.memberships, uid)
              && (forall k :: k in t.memberships ==> t'.memberships[k] == t.memberships[k])
              && t'.groups == t.groups
    // an existing member is refused
    ensures (FindByActiveInviteCode(t.groups, code, now).Ok? && FindByActiveInviteCode(t.groups, code, now).value.Some?
             && email in users
             && (users[email].id, FindByActiveInviteCode(t.groups, code, now).value.value) in t.memberships) ==>
              r == Err(IllegalArgument(ALREADY_JOINED))
  {
    var found :- FindByActiveInviteCode(t.groups, code, now);
    if found.None? then Err(IllegalArgument(WRONG_INVITE_CODE))
    else if email !in users then Err(EntityNotFound(USER_NOT_FOUND_JOIN))
    else
      var gid := found.value;
      var user := users[email];
      if (user.id, gid) in t.memberships then Err(IllegalArgument(ALREADY_JOINED))
      else
        var member := Membership(t.nextMembershipId, user.id, gid, MEMBER, nickname.GetOr(user.name),
                                 user.profileImgUrl, true, NextSortOrder(t.memberships, user.id), now);
        Ok((t.(memberships := t.memberships[(user.id, gid) := member], nextMembershipId := t.nextMembershipId + 1), gid))
  }

  // ---------------------------------------------------------------------
  // leaveGroup and removeMember
  // ---------------------------------------------------------------------

  /** leaveGroup on the tables. */
  function LeaveGroupSpec(t: Tables, users: map<string, UserRow>, groupId: nat, email: string): (r: Result<Tables>)
    ensures email !in users ==> r == Err(EntityNotFound(USER_NOT_FOUND_KO))
    ensures email in users && groupId !in t.groups ==> r == Err(GroupError(GROUP_NOT_FOUND))
    ensures email in users && groupId in t.groups && (users[email].id, groupId) !in t.memberships ==>
              r == Err(GroupError(NOT_GROUP_MEMBER))
    ensures email in users && groupId in t.groups && (users[email].id, groupId) in t.memberships
            && t.memberships[(users[email].id, groupId)].role == OWNER ==>
              r == Err(GroupError(OWNER_CANNOT_LEAVE))
    ensures r.Ok? ==>
              var key := (users[email].id, groupId);
              && email in users && key in t.memberships && t.memberships[key].role != OWNER
              && r.value.memberships == t.memberships - {key}
              // the group goes exactly when no membership of it remains
              && (r.value.groups == t.groups - {groupId} <==> MembersOf(r.value.memberships, groupId) == {})
              && (MembersOf(r.value.memberships, groupId) != {} ==> r.value.groups == t.groups)
              && r.value.nextGroupId == t.nextGroupId && r.value.nextMembershipId == t.nextMembershipId
  {
    if email !in users then Err(EntityNotFound(USER_NOT_FOUND_KO))
    else if groupId !in t.groups then Err(GroupError(GROUP_NOT_FOUND))
    else
      var key := (users[email].id, groupId);
      if key !in t.memberships then Err(GroupError(NOT_GROUP_MEMBER))
      else if t.memberships[key].role == OWNER then Err(GroupError(OWNER_CANNOT_LEAVE))
      else
        var ms := t.memberships - {key};
        if |MembersOf(ms, groupId)| == 0 then Ok(t.(memberships := ms, groups := t.groups - {groupId}))
        else Ok(t.(memberships := ms))
  }

  /** removeMember on the tables: the checks come in this order, and only the
      target's membership goes. */
  function RemoveMemberSpec(t: Tables, users: map<string, UserRow>, groupId: nat, memberId: nat, email: string)
    : (r: Result<Tables>)
    ensures email !in users ==> r == Err(EntityNotFound(USER_NOT_FOUND_EN))
    ensures email in users && groupId !in t.groups ==> r == Err(GroupError(GROUP_NOT_FOUND))
    ensures email in users && groupId in t.groups && (memberId, groupId) !in t.memberships ==>
              r == Err(GroupError(GROUP_MEMBER_NOT_FOUND))
    ensures email in users && groupId in t.groups && (memberId, groupId) in t.memberships
            && (users[email].id, groupId) !in t.memberships ==>
              r == Err(GroupError(NOT_GROUP_MEMBER))
    ensures email in users && groupId in t.groups && (memberId, groupId) in t.memberships
            && (users[email].id, groupId) in t.memberships && t.memberships[(users[email].id, groupId)].role != OWNER ==>
              r == Err(GroupError(NOT_GROUP_OWNER))
    ensures r.Ok? <==>
              && email in users && groupId in t.groups && (memberId, groupId) in t.memberships
              && (users[email].id, groupId) in t.memberships
              && t.memberships[(users[email].id, groupId)].role == OWNER
              && t.memberships[(memberId, groupId)].role != OWNER
    ensures r.Ok? ==> r.value == t.(memberships := t.memberships - {(memberId, groupId)})
  {
    if email !in users then Err(EntityNotFound(USER_NOT_FOUND_EN))
    else if groupId !in t.groups then Err(GroupError(GROUP_NOT_FOUND))
    else if (memberId, groupId) !in t.memberships then Err(GroupError(GROUP_MEMBER_NOT_FOUND))
    else
      var requester := (users[email].id, groupId);
      if requester !in t.memberships then Err(GroupError(NOT_GROUP_MEMBER))
      else if t.memberships[requester].role != OWNER then Err(GroupError(NOT_GROUP_OWNER))
      else if t.memberships[(memberId, groupId)].role == OWNER then Err(GroupError(OWNER_CANNOT_BE_REMOVED))
      else Ok(t.(memberships := t.memberships - {(memberId, groupId)}))
  }

  // ---------------------------------------------------------------------
  // The invariant
  // ---------------------------------------------------------------------

  /** The two rows a successful createGroup adds. */
  function NewGroupRow(t: Tables, name: string, description: Option<string>, code: string,
                       upload: Option<Result<string>>, now: Instant): GroupRow
  {
    GroupRow(t.nextGroupId, name, description, code, now + INVITE_VALIDITY, true,
             if upload.Some? && upload.value.Ok? then Some(upload.value.value) else None)
  }

  function OwnerRow(t: Tables, user: UserRow, now: Instant): Membership
  {
    Membership(t.nextMembershipId, user.id, t.nextGroupId, OWNER, user.name, user.profileImgUrl, true,
               NextSortOrder(t.memberships, user.id), now)
  }

  lemma CreateShape(t: Tables, users: map<string, UserRow>, name: string, description: Option<string>,
                    upload: Option<Result<string>>, email: string, uuid: string, now: Instant)
    requires email in users && |uuid| >= 6 && !(upload.Some? && upload.value.Err?)
    ensures CreateGroupSpec(t, users, name, description, upload, email, uuid, now) ==
            Ok((Tables(t.groups[t.nextGroupId := NewGroupRow(t, name, description, Upper(uuid[..6]), upload, now)],
                       t.memberships[(users[email].id, t.nextGroupId) := OwnerRow(t, users[email], now)],
                       t.nextGroupId + 1, t.nextMembershipId + 1), t.nextGroupId))
  {
  }

  lemma CreateKeepsWellFormed(t: Tables, users: map<string, UserRow>, name: string, description: Option<string>,
                              upload: Option<Result<string>>, email: string, uuid: string, now: Instant)
    requires WellFormed(t)
    ensures var r := CreateGroupSpec(t, users, name, description, upload, email, uuid, now);
            r.Ok? ==> WellFormed(r.value.0)
  {
    var r := CreateGroupSpec(t, users, name, description, upload, email, uuid, now);
    if r.Ok? {
      CreateShape(t, users, name, description, upload, email, uuid, now);
      AddOwnedGroupKeepsWellFormed(t, NewGroupRow(t, name, description, Upper(uuid[..6]), upload, now),
                                   OwnerRow(t, users[email], now));
    }
  }

  lemma UpdateKeepsWellFormed(t: Tables, users: map<string, UserRow>, groupId: nat, name: string,
                              description: Option<string>, upload: Option<Result<string>>, email: string)
    requires WellFormed(t)
    ensures var r := UpdateGroupSpec(t, users, groupId, name, description, upload, email);
            r.Ok? ==> WellFormed(r.value)
  {
  }

  /** The row a successful joinGroup adds. */
  function JoinRow(t: Tables, user: UserRow, gid: nat, nickname: Option<string>, now: Instant): Membership
  {
    Membership(t.nextMembershipId, user.id, gid, MEMBER, nickname.GetOr(user.name),
               user.profileImgUrl, true, NextSortOrder(t.memberships, user.id), now)
  }

  lemma JoinShape(t: Tables, users: map<string, UserRow>, code: string, nickname: Option<string>,
                  email: string, now: Instant)
    requires JoinGroupSpec(t, users, code, nickname, email, now).Ok?
    ensures var (t1, gid) := JoinGroupSpec(t, users, code, nickname, email, now).value;
            && email in users && gid in t.groups && (users[email].id, gid) !in t.memberships
            && t1 == t.(memberships := t.memberships[(users[email].id, gid) := JoinRow(t, users[email], gid, nickname, now)],
                        nextMembershipId := t.nextMembershipId + 1)
  {
  }

  lemma JoinKeepsWellFormed(t: Tables, users: map<string, UserRow>, code: string, nickname: Option<string>,
                            email: string, now: Instant)
    requires WellFormed(t)
    ensures var r := JoinGroupSpec(t, users, code, nickname, email, now);
            r.Ok? ==> WellFormed(r.value.0)
  {
    var r := JoinGroupSpec(t, users, code, nickname, email, now);
    if r.Ok? {
      JoinShape(t, users, code, nickname, email, now);
      AddMemberKeepsWellFormed(t, JoinRow(t, users[email], r.value.1, nickname, now));
    }
  }

  /** The owner stays: leaving never takes the OWNER's row, so every group
      keeps its owner. */
  lemma LeaveKeepsWellFormed(t: Tables, users: map<string, UserRow>, groupId: nat, email: string)
    requires WellFormed(t)
    ensures var r := LeaveGroupSpec(t, users, groupId, email);
            r.Ok? ==> WellFormed(r.value)
  {
    var r := LeaveGroupSpec(t, users, groupId, email);
    if r.Ok? {
      var key := (users[email].id, groupId);
      RemoveMemberKeepsWellFormed(t, key);
      GroupsAreNeverEmpty(t.(memberships := t.memberships - {key}), groupId);
    }
  }

  /** Removal never takes the OWNER's row either. */
  lemma RemoveKeepsWellFormed(t: Tables, users: map<string, UserRow>, groupId: nat, memberId: nat, email: string)
    requires WellFormed(t)
    ensures var r := RemoveMemberSpec(t, users, groupId, memberId, email);
            r.Ok? ==> WellFormed(r.value)
  {
    var r := RemoveMemberSpec(t, users, groupId, memberId, email);
    if r.Ok? {
      RemoveMemberKeepsWellFormed(t, (memberId, groupId));
    }
  }

  /** Because every group keeps its owner and the owner cannot leave, the
      "delete the group once empty" step of leaveGroup never fires: a
      successful leave keeps every group. */
  lemma LeaveNeverDeletesGroup(t: Tables, users: map<string, UserRow>, groupId: nat, email: string)
    requires WellFormed(t)
    ensures var r := LeaveGroupSpec(t, users, groupId, email);
            r.Ok? ==> r.value.groups == t.groups && MembersOf(r.value.memberships, groupId) != {}
  {
    var r := LeaveGroupSpec(t, users, groupId, email);
    if r.Ok? {
      LeaveTakesOneRow(t, users, groupId, email);
    }
  }

  /** The creator of a group cannot leave it. */
  lemma CreatorCannotLeave(t: Tables, users: map<string, UserRow>, name: string, description: Option<string>,
                           upload: Option<Result<string>>, email: string, uuid: string, now: Instant)
    requires CreateGroupSpec(t, users, name, description, upload, email, uuid, now).Ok?
    ensures var (t', gid) := CreateGroupSpec(t, users, name, description, upload, email, uuid, now).value;
            LeaveGroupSpec(t', users, gid, email) == Err(GroupError(OWNER_CANNOT_LEAVE))
  {
  }

  /** A successful leave by a non-owner member of a well-formed table takes
      exactly that member's row. */
  lemma LeaveTakesOneRow(t: Tables, users: map<string, UserRow>, groupId: nat, email: string)
    requires WellFormed(t) && email in users && groupId in t.groups
    requires (users[email].id, groupId) in t.memberships && t.memberships[(users[email].id, groupId)].role != OWNER
    ensures LeaveGroupSpec(t, users, groupId, email) == Ok(t.(memberships := t.memberships - {(users[email].id, groupId)}))
  {
    var key := (users[email].id, groupId);
    RemoveMemberKeepsWellFormed(t, key);
    GroupsAreNeverEmpty(t.(memberships := t.memberships - {key}), groupId);
  }

  /** Joining and then leaving restores both tables (only the identity
      counter has moved on). */
  lemma JoinThenLeave(t: Tables, users: map<string, UserRow>, code: string, nickname: Option<string>,
                      email: string, now: Instant)
    requires WellFormed(t)
    requires JoinGroupSpec(t, users, code, nickname, email, now).Ok?
    ensures var (t1, gid) := JoinGroupSpec(t, users, code, nickname, email, now).value;
            var r := LeaveGroupSpec(t1, users, gid, email);
            r.Ok? && r.value.memberships == t.memberships && r.value.groups == t.groups
  {
    var j := JoinGroupSpec(t, users, code, nickname, email, now).value;
    var t1, gid := j.0, j.1;
    var key := (users[email].id, gid);
    JoinShape(t, users, code, nickname, email, now);
    JoinKeepsWellFormed(t, users, code, nickname, email, now);
    LeaveTakesOneRow(t1, users, gid, email);
    RemoveInserted(t.memberships, key, JoinRow(t, users[email], gid, nickname, now));
  }

  /** A second join with the same code is refused: (user, group) stays unique. */
  lemma JoinTwiceRefused(t: Tables, users: map<string, UserRow>, code: string, n1: Option<string>,
                         n2: Option<string>, email: string, now: Instant)
    requires JoinGroupSpec(t, users, code, n1, email, now).Ok?
    ensures var t1 := JoinGroupSpec(t, users, code, n1, email, now).value.0;
            JoinGroupSpec(t1, users, code, n2, email, now) == Err(IllegalArgument(ALREADY_JOINED))
  {
  }

  // ---------------------------------------------------------------------
  // The service methods
  // ---------------------------------------------------------------------

  method CreateGroup(tables: GroupTables, users: UserRepository, name: string, description: Option<string>,
                     upload: Option<Result<string>>, email: string, uuid: string, now: Instant)
    returns (r: Result<nat>)
    requires WellFormed(tables.State())
    modifies tables
    ensures WellFormed(tables.State())
    ensures var spec := CreateGroupSpec(old(tables.State()), users.rows, name, description, upload, email, uuid, now);
            && (spec.Ok? ==> r == Ok(spec.value.1) && tables.State() == spec.value.0)
            && (spec.Err? ==> r == Err(spec.error) && tables.State() == old(tables.State()))
  {
    CreateKeepsWellFormed(tables.State(), users.rows, name, description, upload, email, uuid, now);
    var user := users.FindByEmail(email);
    if user.None? {
      return Err(EntityNotFound(USER_NOT_FOUND_EN));
    }
    var code := InviteCode(uuid);
    if code.Err? {
      return Err(code.error);
    }
    if upload.Some? && upload.value.Err? {
      // the upload comes after the group's insert; the rollback undoes it
      return Err(RuntimeFailure(UPLOAD_FAILED));
    }
    CreateShape(tables.State(), users.rows, name, description, upload, email, uuid, now);
    r := InsertOwnedGroup(tables, user.value, name, description, code.value, upload, now);
  }

  /** The writes of a successful createGroup: the group, its image once
      uploaded, then the owner's membership. */
  method InsertOwnedGroup(tables: GroupTables, user: UserRow, name: string, description: Option<string>,
                          code: string, upload: Option<Result<string>>, now: Instant)
    returns (r: Result<nat>)
    requires upload.Some? ==> upload.value.Ok?
    modifies tables
    ensures var t := old(tables.State());
            && r == Ok(t.nextGroupId)
            && tables.State() == Tables(t.groups[t.nextGroupId := NewGroupRow(t, name, description, code, upload, now)],
                                        t.memberships[(user.id, t.nextGroupId) := OwnerRow(t, user, now)],
                                        t.nextGroupId + 1, t.nextMembershipId + 1)
  {
    ghost var t := tables.State();
    var nextOrder := NextSortOrder(tables.memberships, user.id);
    var gid := tables.InsertGroup(GroupRow(0, name, description, code, now + INVITE_VALIDITY, true, None));
    ghost var row := NewGroupRow(t, name, description, code, upload, now);
    if upload.Some? {
      tables.UpdateGroup(tables.groups[gid].(groupImageUrl := Some(upload.value.value)));
      assert tables.groups[gid] == row;
    }
    assert tables.groups == t.groups[gid := row];
    var _ := tables.InsertMembership(Membership(0, user.id, gid, OWNER, user.name, user.profileImgUrl, true,
                                                nextOrder, now));
    r := Ok(gid);
  }

  method UpdateGroup(tables: GroupTables, users: UserRepository, groupId: nat, name: string,
                     description: Option<string>, upload: Option<Result<string>>, email: string)
    returns (r: Result<()>)
    requires WellFormed(tables.State())
    modifies tables
    ensures WellFormed(tables.State())
    ensures var spec := UpdateGroupSpec(old(tables.State()), users.rows, groupId, name, description, upload, email);
            && (spec.Ok? ==> r.Ok? && tables.State() == spec.value)
            && (spec.Err? ==> r == Err(spec.error) && tables.State() == old(tables.State()))
  {
    UpdateKeepsWellFormed(tables.State(), users.rows, groupId, name, description, upload, email);
    var user := users.FindByEmail(email);
    if user.None? {
      return Err(EntityNotFound(USER_NOT_FOUND_KO));
    }
    if groupId !in tables.groups {
      return Err(EntityNotFound(GROUP_NOT_FOUND_KO));
    }
    var key := (user.value.id, groupId);
    if key !in tables.memberships {
      return Err(IllegalArgument(NOT_IN_GROUP));
    }
    if tables.memberships[key].role != OWNER {
      return Err(IllegalArgument(NO_EDIT_PERMISSION));
    }
    var group := tables.groups[groupId];
    var image := group.groupImageUrl;
    if upload.Some? {
      if upload.value.Err? {
        return Err(upload.value.error);
      }
      image := Some(upload.value.value);
    }
    tables.UpdateGroup(group.(name := name, groupDescription := description, groupImageUrl := image));
    r := Ok(());
  }

  method JoinGroup(tables: GroupTables, users: UserRepository, code: string, nickname: Option<string>,
                   email: string, now: Instant)
    returns (r: Result<nat>)
    requires WellFormed(tables.State())
    modifies tables
    ensures WellFormed(tables.State())
    ensures var spec := JoinGroupSpec(old(tables.State()), users.rows, code, nickname, email, now);
            && (spec.Ok? ==> r == Ok(spec.value.1) && tables.State() == spec.value.0)
            && (spec.Err? ==> r == Err(spec.error) && tables.State() == old(tables.State()))
  {
    JoinKeepsWellFormed(tables.State(), users.rows, code, nickname, email, now);
    var found := FindByActiveInviteCode(tables.groups, code, now);
    if found.Err? {
      return Err(found.error);
    }
    if found.value.None? {
      return Err(IllegalArgument(WRONG_INVITE_CODE));
    }
    var user := users.FindByEmail(email);
    if user.None? {
      return Err(EntityNotFound(USER_NOT_FOUND_JOIN));
    }
    var gid := found.value.value;
    if (user.value.id, gid) in tables.memberships {
      return Err(IllegalArgument(ALREADY_JOINED));
    }
    var nextOrder := NextSortOrder(tables.memberships, user.value.id);
    var _ := tables.InsertMembership(Membership(0, user.value.id, gid, MEMBER, nickname.GetOr(user.value.name),
                                                user.value.profileImgUrl, true, nextOrder, now));
    r := Ok(gid);
  }

  method LeaveGroup(tables: GroupTables, users: UserRepository, groupId: nat, email: string)
    returns (r: Result<()>)
    requires WellFormed(tables.State())
    modifies tables
    ensures WellFormed(tables.State())
    ensures var spec := LeaveGroupSpec(old(tables.State()), users.rows, groupId, email);
            && (spec.Ok? ==> r.Ok? && tables.State() == spec.value)
            && (spec.Err? ==> r == Err(spec.error) && tables.State() == old(tables.State()))
  {
    LeaveKeepsWellFormed(tables.State(), users.rows, groupId, email);
    var user := users.FindByEmail(email);
    if user.None? {
      return Err(EntityNotFound(USER_NOT_FOUND_KO));
    }
    if groupId !in tables.groups {
      return Err(GroupError(GROUP_NOT_FOUND));
    }
    var key := (user.value.id, groupId);
    if key !in tables.memberships {
      return Err(GroupError(NOT_GROUP_MEMBER));
    }
    if tables.memberships[key].role == OWNER {
      return Err(GroupError(OWNER_CANNOT_LEAVE));
    }
    tables.DeleteMembership(key);
    var remaining := tables.CountByGroup(groupId);
    if remaining == 0 {
      tables.DeleteGroup(groupId);
    }
    r := Ok(());
  }

  method RemoveMember(tables: GroupTables, users: UserRepository, groupId: nat, memberId: nat, email: string)
    returns (r: Result<()>)
    requires WellFormed(tables.State())
    modifies tables
    ensures WellFormed(tables.State())
    ensures var spec := RemoveMemberSpec(old(tables.State()), users.rows, groupId, memberId, email);
            && (spec.Ok? ==> r.Ok? && tables.State() == spec.value)
            && (spec.Err? ==> r == Err(spec.error) && tables.State() == old(tables.State()))
  {
    RemoveKeepsWellFormed(tables.State(), users.rows, groupId, memberId, email);
    var requester := users.FindByEmail(email);
    if requester.None? {
      return Err(EntityNotFound(USER_NOT_FOUND_EN));
    }
    if groupId !in tables.groups {
      return Err(GroupError(GROUP_NOT_FOUND));
    }
    var target := (memberId, groupId);
    if target !in tables.memberships {
      return Err(GroupError(GROUP_MEMBER_NOT_FOUND));
    }
    var key := (requester.value.id, groupId);
    if key !in tables.memberships {
      return Err(GroupError(NOT_GROUP_MEMBER));
    }
    if tables.memberships[key].role != OWNER {
      return Err(GroupError(NOT_GROUP_OWNER));
    }
    if tables.memberships[target].role == OWNER {
      return Err(GroupError(OWNER_CANNOT_BE_REMOVED));
    }
    tables.DeleteMembership(target);
    r := Ok(());
  }
}
