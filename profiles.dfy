/**
 * UserProfileService: a user's profile, created on first use, with its
 * lists of skills and interests.
 */
module Profiles {
  import opened Domain
  import opened ProfileMapper

  /** A UserProfile row, keyed by its user. */
  datatype Profile = Profile(user: UserId, location: Option<string>, website: Option<string>,
                             socialLinks: Option<string>, skills: seq<ProfileEntry>, interests: seq<ProfileEntry>)

  datatype ProfileRequest = ProfileRequest(location: Option<string>, website: Option<string>, socialLinks: Option<string>,
                                           skills: Option<seq<string>>, interests: Option<seq<string>>)

  /** The profile getUserProfileOrCreate and updateUserProfile start from for a user without one. */
  function EmptyProfile(user: UserId): (p: Profile)
    ensures p.user == user && p.skills == [] && p.interests == []
    ensures p.location.None? && p.website.None? && p.socialLinks.None?
  {
    Profile(user, None, None, None, [], [])
  }

  /** updateFromRequest: every mapped field from the request, the lists rebuilt for this profile. */
  function UpdatedFromRequest(p: Profile, request: ProfileRequest): (p': Profile)
    ensures p'.user == p.user
    ensures p'.location == request.location && p'.website == request.website && p'.socialLinks == request.socialLinks
    ensures EntryValues(Some(p'.skills)) == (if request.skills.Some? then request.skills.value else [])
    ensures EntryValues(Some(p'.interests)) == (if request.interests.Some? then request.interests.value else [])
    ensures forall i :: 0 <= i < |p'.skills| ==> p'.skills[i].profile == p.user
    ensures forall i :: 0 <= i < |p'.interests| ==> p'.interests[i].profile == p.user
  {
    p.(location := request.location, website := request.website, socialLinks := request.socialLinks,
       skills := EntriesFor(request.skills, p.user), interests := EntriesFor(request.interests, p.user))
  }

  // ---------------------------------------------------------------------
  // Skill and interest lists
  // ---------------------------------------------------------------------

  /** Some row carries this text (the negation of the `noneMatch` test). */
  predicate HasValue(entries: seq<ProfileEntry>, value: string)
  {
    exists i :: 0 <= i < |entries| && entries[i].value == value
  }

  /**
   * addSkill / addInterest on the list: a text already present changes
   * nothing; an absent one is appended as one new row of the profile.
   */
  function WithValueAdded(entries: seq<ProfileEntry>, profile: UserId, value: string): (r: seq<ProfileEntry>)
    ensures HasValue(entries, value) ==> r == entries
    ensures !HasValue(entries, value) ==> r == entries + [ProfileEntry(profile, value)]
    ensures HasValue(r, value)
  {
    if HasValue(entries, value) then entries
    else
      var r := entries + [ProfileEntry(profile, value)];
      assert r[|entries|].value == value;
      r
  }

  /** removeSkill / removeInterest on the list: `removeIf` on the text. */
  function WithValueRemoved(entries: seq<ProfileEntry>, value: string): (r: seq<ProfileEntry>)
    ensures forall e :: e in r <==> e in entries && e.value != value
    ensures !HasValue(r, value)
    ensures !HasValue(entries, value) ==> r == entries
  {
    var r := Filter(entries, (e: ProfileEntry) => e.value != value);
    assert forall i :: 0 <= i < |r| ==> r[i] in r;
    r
  }

  /** Adding is idempotent. */
  lemma AddIsIdempotent(entries: seq<ProfileEntry>, profile: UserId, value: string)
    ensures WithValueAdded(WithValueAdded(entries, profile, value), profile, value) == WithValueAdded(entries, profile, value)
  {
  }

  /** Removal keeps the surviving rows in their order: it distributes over concatenation. */
  lemma RemoveKeepsOrder(a: seq<ProfileEntry>, b: seq<ProfileEntry>, value: string)
    ensures WithValueRemoved(a + b, value) == WithValueRemoved(a, value) + WithValueRemoved(b, value)
  {
    FilterAppend(a, b, (e: ProfileEntry) => e.value != value);
  }

  /** Adding an absent text and then removing it gives back the original list. */
  lemma AddThenRemoveRestores(entries: seq<ProfileEntry>, profile: UserId, value: string)
    requires !HasValue(entries, value)
    ensures WithValueRemoved(WithValueAdded(entries, profile, value), value) == entries
  {
    var added := ProfileEntry(profile, value);
    RemoveKeepsOrder(entries, [added], value);
    assert WithValueRemoved([added], value) == [] by {
      assert !(added in WithValueRemoved([added], value));
    }
  }

  // ---------------------------------------------------------------------
  // The service
  // ---------------------------------------------------------------------

  class ProfileService {
    /** The profile table, by user id (findByUserId). */
    var profiles: map<UserId, Profile>
    var users: set<UserId>

    /** Each profile is stored under its own user, and its rows point back to it. */
    ghost predicate Valid()
      reads this
    {
      forall u :: u in profiles ==>
        && profiles[u].user == u
        && (forall i :: 0 <= i < |profiles[u].skills| ==> profiles[u].skills[i].profile == u)
        && (forall i :: 0 <= i < |profiles[u].interests| ==> profiles[u].interests[i].profile == u)
    }

    constructor (initialUsers: set<UserId>)
      ensures Valid() && profiles == map[] && users == initialUsers
    {
      profiles := map[];
      users := initialUsers;
    }

    /**
     * getUserProfileOrCreate: an existing profile is used as it is; for a
     * known user without one an empty profile is stored; an unknown user
     * without a profile fails with "User not found".
     */
    method GetUserProfileOrCreate(userId: UserId) returns (r: Outcome)
      requires Valid()
      modifies this
      ensures Valid() && users == old(users)
      ensures r.Pass? <==> userId in old(profiles) || userId in users
      ensures r.Fail? ==> r.error == NotFound("User not found")
      ensures userId in old(profiles) ==> profiles == old(profiles)
      ensures userId !in old(profiles) && r.Pass? ==> profiles == old(profiles)[userId := EmptyProfile(userId)]
      ensures r.Fail? ==> profiles == old(profiles)
    {
      if userId in profiles {
        return Pass;
      }
      if userId !in users {
        return Fail(NotFound("User not found"));
      }
      profiles := profiles[userId := EmptyProfile(userId)];
      r := Pass;
    }

    /**
     * updateUserProfile: "User not found" for an unknown user (even one with
     * a profile); otherwise the user's profile, or a new one, takes the
     * request's fields and is stored.
     */
    method UpdateUserProfile(userId: UserId, request: ProfileRequest) returns (r: Outcome)
      requires Valid()
      modifies this
      ensures Valid() && users == old(users)
      ensures r.Pass? <==> userId in users
      ensures r.Fail? ==> r.error == NotFound("User not found") && profiles == old(profiles)
      ensures r.Pass? ==> profiles == old(profiles)[userId := UpdatedFromRequest(
        if userId in old(profiles) then old(profiles)[userId] else EmptyProfile(userId), request)]
    {
      if userId !in users {
        return Fail(NotFound("User not found"));
      }
      var profile := if userId in profiles then profiles[userId] else EmptyProfile(userId);
      profiles := profiles[userId := UpdatedFromRequest(profile, request)];
      r := Pass;
    }

    /** addSkill: the profile (created if needed) gains the skill unless it already has it. */
    method AddSkill(userId: UserId, skill: string) returns (r: Outcome)
      requires Valid()
      modifies this
      ensures Valid() && users == old(users)
      ensures r.Pass? <==> userId in old(profiles) || userId in users
      ensures r.Fail? ==> r.error == NotFound("User not found") && profiles == old(profiles)
      ensures r.Pass? ==>
        var p := if userId in old(profiles) then old(profiles)[userId] else EmptyProfile(userId);
        profiles == old(profiles)[userId := p.(skills := WithValueAdded(p.skills, userId, skill))]
    {
      r := GetUserProfileOrCreate(userId);
      if r.Fail? {
        return;
      }
      var p := profiles[userId];
      profiles := profiles[userId := p.(skills := WithValueAdded(p.skills, userId, skill))];
    }

    /** removeSkill: the profile (created if needed) loses every row with that skill. */
    method RemoveSkill(userId: UserId, skill: string) returns (r: Outcome)
      requires Valid()
      modifies this
      ensures Valid() && users == old(users)
      ensures r.Pass? <==> userId in old(profiles) || userId in users
      ensures r.Fail? ==> r.error == NotFound("User not found") && profiles == old(profiles)
      ensures r.Pass? ==>
        var p := if userId in old(profiles) then old(profiles)[userId] else EmptyProfile(userId);
        profiles == old(profiles)[userId := p.(skills := WithValueRemoved(p.skills, skill))]
    {
      r := GetUserProfileOrCreate(userId);
      if r.Fail? {
        return;
      }
      var p := profiles[userId];
      profiles := profiles[userId := p.(skills := WithValueRemoved(p.skills, skill))];
    }

    /** addInterest: the profile (created if needed) gains the interest unless it already has it. */
    method AddInterest(userId: UserId, interest: string) returns (r: Outcome)
      requires Valid()
      modifies this
      ensures Valid() && users == old(users)
      ensures r.Pass? <==> userId in old(profiles) || userId in users
      ensures r.Fail? ==> r.error == NotFound("User not found") && profiles == old(profiles)
      ensures r.Pass? ==>
        var p := if userId in old(profiles) then old(profiles)[userId] else EmptyProfile(userId);
        profiles == old(profiles)[userId := p.(interests := WithValueAdded(p.interests, userId, interest))]
    {
      r := GetUserProfileOrCreate(userId);
      if r.Fail? {
        return;
      }
      var p := profiles[userId];
      profiles := profiles[userId := p.(interests := WithValueAdded(p.interests, userId, interest))];
    }

    /** removeInterest: the profile (created if needed) loses every row with that interest. */
    method RemoveInterest(userId: UserId, interest: string) returns (r: Outcome)
      requires Valid()
      modifies this
      ensures Valid() && users == old(users)
      ensures r.Pass? <==> userId in old(profiles) || userId in users
      ensures r.Fail? ==> r.error == NotFound("User not found") && profiles == old(profiles)
      ensures r.Pass? ==>
        var p := if userId in old(profiles) then old(profiles)[userId] else EmptyProfile(userId);
        profiles == old(profiles)[userId := p.(interests := WithValueRemoved(p.interests, interest))]
    {
      r := GetUserProfileOrCreate(userId);
      if r.Fail? {
        return;
      }
      var p := profiles[userId];
      profiles := profiles[userId := p.(interests := WithValueRemoved(p.interests, interest))];
    }
  }
}
