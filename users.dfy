/**
 * UserService: the user registry with its unique e-mail addresses, the
 * profile link, the delete guard, password changes and the account status.
 */
module Users {
  import opened Domain

  /**
   * A User row. `passwordHash` is null for a user created through
   * createUser (the mapper ignores it); `hasProfile` says whether a
   * UserProfile is attached; `status` is the UserStatus constant's name.
   */
  datatype User = User(id: UserId, email: string, fullName: string, passwordHash: Option<string>,
                       role: string, status: string, hasProfile: bool)

  datatype UserRequest = UserRequest(email: string, fullName: string)

  /** existsByEmail. */
  predicate EmailTaken(users: map<UserId, User>, email: string)
  {
    exists u :: u in users && users[u].email == email
  }

  /** No two stored users share an e-mail address. */
  predicate EmailsUnique(users: map<UserId, User>)
  {
    forall a, b :: a in users && b in users && a != b ==> users[a].email != users[b].email
  }

  /** The row createUser builds from a request: role BACKER, status ACTIVE, no password hash, no profile. */
  function NewUser(id: UserId, request: UserRequest): (u: User)
    ensures u.id == id && u.email == request.email && u.fullName == request.fullName
    ensures u.role == "BACKER" && u.status == "ACTIVE"
    ensures u.passwordHash.None? && !u.hasProfile
  {
    User(id, request.email, request.fullName, None, "BACKER", "ACTIVE", false)
  }

  /** Registering an address nobody uses keeps the addresses unique. */
  lemma {:induction false} AddFreshEmailKeepsUnique(users: map<UserId, User>, id: UserId, request: UserRequest)
    requires EmailsUnique(users)
    requires id !in users
    requires !EmailTaken(users, request.email)
    ensures EmailsUnique(users[id := NewUser(id, request)])
  {
    var users' := users[id := NewUser(id, request)];
    forall a, b | a in users' && b in users' && a != b
      ensures users'[a].email != users'[b].email
    {
      if a == id {
        assert b in users;
      } else if b == id {
        assert a in users;
      }
    }
  }

  /** Changing anything but the e-mail address keeps the addresses unique. */
  lemma {:induction false} SameEmailKeepsUnique(users: map<UserId, User>, id: UserId, u: User)
    requires EmailsUnique(users)
    requires id in users && u.email == users[id].email
    ensures EmailsUnique(users[id := u])
  {
    var users' := users[id := u];
    forall a, b | a in users' && b in users' && a != b
      ensures users'[a].email != users'[b].email
    {
      assert users'[a].email == users[a].email;
      assert users'[b].email == users[b].email;
    }
  }

  /** user.getProjects(): the projects the user created. */
  predicate HasProjects(projects: map<ProjectId, Project>, userId: UserId)
  {
    exists p :: p in projects && projects[p].creator == userId
  }

  /**
   * The password check of updatePassword: the old password must match the
   * stored hash under the encoder's `matches`; a user without a hash never
   * matches.
   */
  predicate PasswordMatches(user: User, oldPassword: string, matches: (string, string) -> bool)
  {
    user.passwordHash.Some? && matches(oldPassword, user.passwordHash.value)
  }

  class UserService {
    var users: map<UserId, User>
    var projects: map<ProjectId, Project>
    var pledges: seq<Pledge>

    /** Every user is stored under its own id and e-mail addresses are unique. */
    ghost predicate Valid()
      reads this
    {
      && (forall u :: u in users ==> users[u].id == u)
      && EmailsUnique(users)
    }

    constructor (initialProjects: map<ProjectId, Project>, initialPledges: seq<Pledge>)
      ensures Valid() && users == map[] && projects == initialProjects && pledges == initialPledges
    {
      users := map[];
      projects := initialProjects;
      pledges := initialPledges;
    }

    /**
     * createUser: an address already in use fails with "Email already
     * exists" and stores nothing; otherwise one new BACKER, ACTIVE user.
     */
    method CreateUser(request: UserRequest, newId: UserId) returns (r: Result<UserId>)
      requires Valid()
      requires newId !in users
      modifies this
      ensures Valid() && projects == old(projects) && pledges == old(pledges)
      ensures r.Err? <==> EmailTaken(old(users), request.email)
      ensures r.Err? ==> r.error == IllegalState("Email already exists") && users == old(users)
      ensures r.Ok? ==> r.value == newId && users == old(users)[newId := NewUser(newId, request)]
    {
      if exists u :: u in users && users[u].email == request.email {
        return Err(IllegalState("Email already exists"));
      }
      AddFreshEmailKeepsUnique(users, newId, request);
      users := users[newId := NewUser(newId, request)];
      r := Ok(newId);
    }

    /** getUser: "User not found" for an unknown id. */
    method GetUser(userId: UserId) returns (r: Result<User>)
      requires Valid()
      ensures r.Ok? <==> userId in users
      ensures r.Ok? ==> r.value == users[userId] && r.value.id == userId
      ensures r.Err? ==> r.error == NotFound("User not found")
    {
      if userId !in users {
        return Err(NotFound("User not found"));
      }
      r := Ok(users[userId]);
    }

    /**
     * updateProfile: "User not found", otherwise the user has a profile
     * afterwards: a new one when there was none, the existing one left in
     * place. No field of the request is applied.
     */
    method UpdateProfile(userId: UserId) returns (r: Outcome)
      requires Valid()
      modifies this
      ensures Valid() && projects == old(projects) && pledges == old(pledges)
      ensures r.Pass? <==> userId in old(users)
      ensures r.Fail? ==> r.error == NotFound("User not found") && users == old(users)
      ensures r.Pass? ==> users == old(users)[userId := old(users)[userId].(hasProfile := true)]
      ensures r.Pass? && old(users)[userId].hasProfile ==> users == old(users)
    {
      if userId !in users {
        return Fail(NotFound("User not found"));
      }
      var user := users[userId];
      if !user.hasProfile {
        SameEmailKeepsUnique(users, userId, user.(hasProfile := true));
        users := users[userId := user.(hasProfile := true)];
      }
      r := Pass;
    }

    /**
     * deleteUser: "User not found", then "Cannot delete user with active
     * projects" when the user created any project; otherwise the user is
     * removed and nobody else changes.
     */
    method DeleteUser(userId: UserId) returns (r: Outcome)
      requires Valid()
      modifies this
      ensures Valid() && projects == old(projects) && pledges == old(pledges)
      ensures userId !in old(users) ==> r == Fail(NotFound("User not found"))
      ensures userId in old(users) && HasProjects(projects, userId) ==>
        r == Fail(Validation("Cannot delete user with active projects"))
      ensures r.Pass? <==> userId in old(users) && !HasProjects(projects, userId)
      ensures r.Fail? ==> users == old(users)
      ensures r.Pass? ==> users == old(users) - {userId}
    {
      if userId !in users {
        return Fail(NotFound("User not found"));
      }
      if exists p :: p in projects && projects[p].creator == userId {
        return Fail(Validation("Cannot delete user with active projects"));
      }
      users := users - {userId};
      r := Pass;
    }

    /**
     * updatePassword: "User not found", then "Invalid old password" unless
     * the old password matches the stored hash; on success the stored hash
     * is the encoding of the new password and nothing else changes.
     */
    method UpdatePassword(userId: UserId, oldPassword: string, newPassword: string,
                          matches: (string, string) -> bool, encode: string -> string) returns (r: Outcome)
      requires Valid()
      modifies this
      ensures Valid() && projects == old(projects) && pledges == old(pledges)
      ensures userId !in old(users) ==> r == Fail(NotFound("User not found"))
      ensures userId in old(users) && !PasswordMatches(old(users)[userId], oldPassword, matches) ==>
        r == Fail(Validation("Invalid old password"))
      ensures r.Pass? <==> userId in old(users) && PasswordMatches(old(users)[userId], oldPassword, matches)
      ensures r.Fail? ==> users == old(users)
      ensures r.Pass? ==> users == old(users)[userId := old(users)[userId].(passwordHash := Some(encode(newPassword)))]
    {
      if userId !in users {
        return Fail(NotFound("User not found"));
      }
      var user := users[userId];
      if !PasswordMatches(user, oldPassword, matches) {
        return Fail(Validation("Invalid old password"));
      }
      var user' := user.(passwordHash := Some(encode(newPassword)));
      SameEmailKeepsUnique(users, userId, user');
      users := users[userId := user'];
      r := Pass;
    }

    /** getUserProjects: "User not found", otherwise the ids of the projects the user created. */
    method GetUserProjects(userId: UserId) returns (r: Result<set<ProjectId>>)
      ensures r.Ok? <==> userId in users
      ensures r.Err? ==> r.error == NotFound("User not found")
      ensures r.Ok? ==> forall p :: p in r.value <==> p in projects && projects[p].creator == userId
    {
      if userId !in users {
        return Err(NotFound("User not found"));
      }
      r := Ok(set p | p in projects && projects[p].creator == userId);
    }

    /** getUserPledges: "User not found", otherwise the user's pledges. */
    method GetUserPledges(userId: UserId) returns (r: Result<seq<Pledge>>)
      ensures r.Ok? <==> userId in users
      ensures r.Err? ==> r.error == NotFound("User not found")
      ensures r.Ok? ==> forall p :: p in r.value <==> p in pledges && p.backer == userId
    {
      if userId !in users {
        return Err(NotFound("User not found"));
      }
      r := Ok(Filter(pledges, (p: Pledge) => p.backer == userId));
    }

    /** updateStatus: "User not found", otherwise the user's status alone changes. */
    method UpdateStatus(userId: UserId, status: string) returns (r: Outcome)
      requires Valid()
      modifies this
      ensures Valid() && projects == old(projects) && pledges == old(pledges)
      ensures r.Pass? <==> userId in old(users)
      ensures r.Fail? ==> r.error == NotFound("User not found") && users == old(users)
      ensures r.Pass? ==> users == old(users)[userId := old(users)[userId].(status := status)]
    {
      if userId !in users {
        return Fail(NotFound("User not found"));
      }
      var user' := users[userId].(status := status);
      SameEmailKeepsUnique(users, userId, user');
      users := users[userId := user'];
      r := Pass;
    }
  }
}
