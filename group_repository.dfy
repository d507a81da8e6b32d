/** The album_groups and user_groups tables, GroupRepository and
    UserGroupRepository.

    Groups are keyed by id. Memberships are keyed by (user id, group id),
    which is the unique constraint of user_groups. */
module GroupRepo {
  import opened Common

  datatype UserGroupRole = OWNER | MEMBER | SENIOR

  /** A row of album_groups. */
  datatype GroupRow = GroupRow(
    id: nat,
    name: string,
    groupDescription: Option<string>,
    inviteCode: string,
    inviteCodeExpiryAt: Instant,
    isInviteCodeActive: bool,
    groupImageUrl: Option<string>)

  /** A row of user_groups. */
  datatype Membership = Membership(
    id: nat,
    userId: nat,
    groupId: nat,
    role: UserGroupRole,
    groupNickname: string,
    groupProfileImgUrl: Option<string>,
    notificationEnabled: bool,
    sortOrder: int,
    lastVisitAt: Instant)

  /** (user id, group id). */
  type MemberKey = (nat, nat)

  /** Both tables with their identity counters. */
  datatype Tables = Tables(
    groups: map<nat, GroupRow>,
    memberships: map<MemberKey, Membership>,
    nextGroupId: nat,
    nextMembershipId: nat)

  /** Some member of group `g` is its OWNER. */
  predicate HasOwner(ms: map<MemberKey, Membership>, g: nat)
  {
    exists k :: k in ms && k.1 == g && ms[k].role == OWNER
  }

  /** The invariant the group service keeps: rows sit under their own keys,
      identities are issued and distinct, every membership names an existing
      group, and every group has an owner. */
  predicate WellFormed(t: Tables)
  {
    && (forall g :: g in t.groups ==> t.groups[g].id == g && g < t.nextGroupId)
    && (forall k :: k in t.memberships ==>
          && t.memberships[k].userId == k.0 && t.memberships[k].groupId == k.1
          && t.memberships[k].id < t.nextMembershipId
          && k.1 in t.groups)
    && (forall k1, k2 :: k1 in t.memberships && k2 in t.memberships && k1 != k2 ==>
          t.memberships[k1].id != t.memberships[k2].id)
    && (forall g :: g in t.groups ==> HasOwner(t.memberships, g))
  }

  /** The sort orders of one user's memberships. */
  function SortOrdersOf(ms: map<MemberKey, Membership>, userId: nat): set<int>
  {
    set k | k in ms && k.0 == userId :: ms[k].sortOrder
  }

  /** Among finitely many memberships, one has the largest sort order. */
  lemma {:induction false} HighestSortOrderExists(ms: map<MemberKey, Membership>, keys: set<MemberKey>)
    requires keys != {} && keys <= ms.Keys
    ensures exists k :: k in keys && forall j :: j in keys ==> ms[j].sortOrder <= ms[k].sortOrder
  {
    var y :| y in keys;
    if keys != {y} {
      var rest := keys - {y};
      HighestSortOrderExists(ms, rest);
      var m :| m in rest && forall j :: j in rest ==> ms[j].sortOrder <= ms[m].sortOrder;
      if ms[y].sortOrder <= ms[m].sortOrder {
        forall j | j in keys ensures ms[j].sortOrder <= ms[m].sortOrder {
          if j != y { assert j in rest; }
        }
      } else {
        forall j | j in keys ensures ms[j].sortOrder <= ms[y].sortOrder {
          if j != y { assert j in rest; }
        }
      }
    } else {
      assert forall j :: j in keys ==> j == y;
    }
  }

  /** A user with memberships has a largest sort order among them. */
  lemma MaxSortOrderExists(ms: map<MemberKey, Membership>, userId: nat)
    requires exists k :: k in ms && k.0 == userId
    ensures exists m :: m in SortOrdersOf(ms, userId) && forall x :: x in SortOrdersOf(ms, userId) ==> x <= m
  {
    var keys := set k | k in ms && k.0 == userId;
    var k0 :| k0 in ms && k0.0 == userId;
    assert k0 in keys;
    HighestSortOrderExists(ms, keys);
    var top :| top in keys && forall j :: j in keys ==> ms[j].sortOrder <= ms[top].sortOrder;
    var orders := SortOrdersOf(ms, userId);
    assert ms[top].sortOrder in orders;
    forall x | x in orders ensures x <= ms[top].sortOrder {
      var k :| k in ms && k.0 == userId && ms[k].sortOrder == x;
      assert k in keys;
    }
  }

  /** findMaxSortOrderByUser: MAX(sortOrder) over the user's memberships, or
      null when the user has none. */
  function MaxSortOrder(ms: map<MemberKey, Membership>, userId: nat): (r: Option<int>)
    ensures r.None? <==> forall k :: k in ms ==> k.0 != userId
    ensures r.Some? ==> (exists k :: k in ms && k.0 == userId && ms[k].sortOrder == r.value)
    ensures r.Some? ==> forall k :: k in ms && k.0 == userId ==> ms[k].sortOrder <= r.value
  {
    if forall k :: k in ms ==> k.0 != userId then None
    else
      MaxSortOrderExists(ms, userId);
      var orders := SortOrdersOf(ms, userId);
      var m :| m in orders && forall x :: x in orders ==> x <= m;
      assert forall k :: k in ms && k.0 == userId ==> ms[k].sortOrder in orders;
      Some(m)
  }

  /** The condition of findByActiveInviteCode: the same code, an expiry
      strictly after `now`, and the code switched on. */
  predicate ActiveInvite(g: GroupRow, code: string, now: Instant)
  {
    g.inviteCode == code && g.inviteCodeExpiryAt > now && g.isInviteCodeActive
  }

  function MatchingGroups(groups: map<nat, GroupRow>, code: string, now: Instant): set<nat>
  {
    set g | g in groups && ActiveInvite(groups[g], code, now)
  }

  lemma SingletonHasElement(s: set<nat>)
    requires |s| == 1
    ensures exists g :: s == {g}
  {
    var g :| g in s;
    assert |s - {g}| == 0;
    assert s - {g} == {};
  }

  /** findByActiveInviteCode returns an Optional: no match is empty, one match
      is that group, and more than one makes the query fail, since nothing
      keeps invite codes unique. */
  function FindByActiveInviteCode(groups: map<nat, GroupRow>, code: string, now: Instant): (r: Result<Option<nat>>)
    ensures r == Ok(None) <==> forall g :: g in groups ==> !ActiveInvite(groups[g], code, now)
    ensures r.Ok? && r.value.Some? ==>
              var g := r.value.value;
              && g in groups && ActiveInvite(groups[g], code, now)
              && forall h :: h in groups && h != g ==> !ActiveInvite(groups[h], code, now)
    ensures r.Err? ==> exists g, h :: g in groups && h in groups && g != h
                                      && ActiveInvite(groups[g], code, now) && ActiveInvite(groups[h], code, now)
  {
    var s := MatchingGroups(groups, code, now);
    if |s| == 0 then
      assert forall g :: g in groups && ActiveInvite(groups[g], code, now) ==> g in s;
      Ok(None)
    else if |s| == 1 then
      SingletonHasElement(s);
      var g :| s == {g};
      assert g in s;
      assert forall h :: h in groups && ActiveInvite(groups[h], code, now) ==> h in s;
      Ok(Some(g))
    else
      var g :| g in s;
      assert |s - {g}| > 0;
      var h :| h in s - {g};
      Err(RuntimeFailure("query did not return a unique result"))
  }

  /** The memberships of group `g`, counted by countByGroup. */
  function MembersOf(ms: map<MemberKey, Membership>, g: nat): (r: set<MemberKey>)
    ensures forall k :: k in r <==> k in ms && k.1 == g
  {
    set k | k in ms && k.1 == g
  }

  // ---------------------------------------------------------------------
  // The changes the group service makes keep the invariant
  // ---------------------------------------------------------------------

  /** A new group together with its owner's membership. */
  lemma AddOwnedGroupKeepsWellFormed(t: Tables, row: GroupRow, owner: Membership)
    requires WellFormed(t)
    requires row.id == t.nextGroupId && owner.groupId == row.id && owner.role == OWNER
    requires owner.id == t.nextMembershipId
    ensures WellFormed(Tables(t.groups[row.id := row], t.memberships[(owner.userId, row.id) := owner],
                              t.nextGroupId + 1, t.nextMembershipId + 1))
  {
    var key := (owner.userId, row.id);
    var t' := Tables(t.groups[row.id := row], t.memberships[key := owner], t.nextGroupId + 1, t.nextMembershipId + 1);
    assert key !in t.memberships;
    forall g | g in t'.groups ensures HasOwner(t'.memberships, g) {
      if g == row.id {
        assert key in t'.memberships && key.1 == g;
      } else {
        var k :| k in t.memberships && k.1 == g && t.memberships[k].role == OWNER;
        assert k in t'.memberships && t'.memberships[k] == t.memberships[k];
      }
    }
  }

  /** A new membership of an existing group. */
  lemma AddMemberKeepsWellFormed(t: Tables, m: Membership)
    requires WellFormed(t)
    requires m.groupId in t.groups && m.id == t.nextMembershipId && (m.userId, m.groupId) !in t.memberships
    ensures WellFormed(t.(memberships := t.memberships[(m.userId, m.groupId) := m],
                          nextMembershipId := t.nextMembershipId + 1))
  {
    AddMemberKeepsRowsKeyed(t, m);
    AddMemberKeepsIdsDistinct(t, m);
    AddMemberKeepsOwners(t, m);
  }

  lemma AddMemberKeepsRowsKeyed(t: Tables, m: Membership)
    requires WellFormed(t)
    requires m.groupId in t.groups && m.id == t.nextMembershipId && (m.userId, m.groupId) !in t.memberships
    ensures var ms := t.memberships[(m.userId, m.groupId) := m];
            forall k :: k in ms ==>
              && ms[k].userId == k.0 && ms[k].groupId == k.1
              && ms[k].id < t.nextMembershipId + 1
              && k.1 in t.groups
  {
    var key := (m.userId, m.groupId);
    var ms := t.memberships[key := m];
    forall k | k in ms
      ensures && ms[k].userId == k.0 && ms[k].groupId == k.1
              && ms[k].id < t.nextMembershipId + 1
              && k.1 in t.groups
    {
      if k != key {
        assert ms[k] == t.memberships[k];
      }
    }
  }

  lemma AddMemberKeepsIdsDistinct(t: Tables, m: Membership)
    requires WellFormed(t)
    requires m.groupId in t.groups && m.id == t.nextMembershipId && (m.userId, m.groupId) !in t.memberships
    ensures var ms := t.memberships[(m.userId, m.groupId) := m];
            forall k1, k2 :: k1 in ms && k2 in ms && k1 != k2 ==> ms[k1].id != ms[k2].id
  {
    var key := (m.userId, m.groupId);
    var ms := t.memberships[key := m];
    forall k1, k2 | k1 in ms && k2 in ms && k1 != k2
      ensures ms[k1].id != ms[k2].id
    {
      if k1 == key {
        assert ms[k2] == t.memberships[k2];
      } else if k2 == key {
        assert ms[k1] == t.memberships[k1];
      }
    }
  }

  lemma AddMemberKeepsOwners(t: Tables, m: Membership)
    requires WellFormed(t)
    requires (m.userId, m.groupId) !in t.memberships
    ensures forall g :: g in t.groups ==> HasOwner(t.memberships[(m.userId, m.groupId) := m], g)
  {
    var ms := t.memberships[(m.userId, m.groupId) := m];
    forall g | g in t.groups ensures HasOwner(ms, g) {
      var k :| k in t.memberships && k.1 == g && t.memberships[k].role == OWNER;
      assert k in ms && ms[k] == t.memberships[k];
    }
  }

  /** Dropping a membership that is not an OWNER's. */
  lemma RemoveMemberKeepsWellFormed(t: Tables, key: MemberKey)
    requires WellFormed(t)
    requires key in t.memberships && t.memberships[key].role != OWNER
    ensures WellFormed(t.(memberships := t.memberships - {key}))
  {
    var t' := t.(memberships := t.memberships - {key});
    forall g | g in t'.groups ensures HasOwner(t'.memberships, g) {
      var k :| k in t.memberships && k.1 == g && t.memberships[k].role == OWNER;
      assert k in t'.memberships;
    }
  }

  /** Taking out a key just put in gives back the map it went into. */
  lemma RemoveInserted(ms: map<MemberKey, Membership>, key: MemberKey, m: Membership)
    requires key !in ms
    ensures ms[key := m] - {key} == ms
  {
  }

  /** A well-formed group always has at least one membership, its owner's. */
  lemma GroupsAreNeverEmpty(t: Tables, g: nat)
    requires WellFormed(t) && g in t.groups
    ensures MembersOf(t.memberships, g) != {}
  {
    var k :| k in t.memberships && k.1 == g && t.memberships[k].role == OWNER;
    assert k in MembersOf(t.memberships, g);
  }

  class GroupTables {
    var groups: map<nat, GroupRow>
    var memberships: map<MemberKey, Membership>
    var nextGroupId: nat
    var nextMembershipId: nat

    function State(): Tables
      reads this
    {
      Tables(groups, memberships, nextGroupId, nextMembershipId)
    }

    constructor ()
      ensures State() == Tables(map[], map[], 1, 1) && WellFormed(State())
    {
      groups := map[];
      memberships := map[];
      nextGroupId := 1;
      nextMembershipId := 1;
    }

    /** groupRepository.save of a new group: it gets the next identity. */
    method InsertGroup(row: GroupRow) returns (id: nat)
      modifies this
      ensures id == old(nextGroupId) && nextGroupId == id + 1
      ensures groups == old(groups)[id := row.(id := id)]
      ensures memberships == old(memberships) && nextMembershipId == old(nextMembershipId)
    {
      id := nextGroupId;
      groups := groups[id := row.(id := id)];
      nextGroupId := nextGroupId + 1;
    }

    /** groupRepository.save of a loaded group (or a change flushed at commit). */
    method UpdateGroup(row: GroupRow)
      modifies this
      ensures groups == old(groups)[row.id := row]
      ensures memberships == old(memberships) && nextGroupId == old(nextGroupId)
      ensures nextMembershipId == old(nextMembershipId)
    {
      groups := groups[row.id := row];
    }

    /** groupRepository.delete. */
    method DeleteGroup(id: nat)
      modifies this
      ensures groups == old(groups) - {id}
      ensures memberships == old(memberships) && nextGroupId == old(nextGroupId)
      ensures nextMembershipId == old(nextMembershipId)
    {
      groups := groups - {id};
    }

    /** userGroupRepository.save of a new membership: it gets the next identity. */
    method InsertMembership(row: Membership) returns (id: nat)
      modifies this
      ensures id == old(nextMembershipId) && nextMembershipId == id + 1
      ensures memberships == old(memberships)[(row.userId, row.groupId) := row.(id := id)]
      ensures groups == old(groups) && nextGroupId == old(nextGroupId)
    {
      id := nextMembershipId;
      memberships := memberships[(row.userId, row.groupId) := row.(id := id)];
      nextMembershipId := nextMembershipId + 1;
    }

    /** userGroupRepository.delete. */
    method DeleteMembership(key: MemberKey)
      modifies this
      ensures memberships == old(memberships) - {key}
      ensures groups == old(groups) && nextGroupId == old(nextGroupId)
      ensures nextMembershipId == old(nextMembershipId)
    {
      memberships := memberships - {key};
    }

    /** countByGroup. */
    method CountByGroup(g: nat) returns (n: nat)
      ensures n == |MembersOf(memberships, g)|
    {
      n := |MembersOf(memberships, g)|;
    }
  }
}
