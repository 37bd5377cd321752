/**
 * ProjectTeamService: the members of a project's team, who may add, update
 * and remove them, and the notifications to the members concerned.
 */
module Team {
  import opened Domain

  type MemberId = Uuid

  datatype TeamRequest = TeamRequest(userId: UserId, projectId: ProjectId, role: string, permissions: Option<string>)

  /**
   * isTeamAdmin exactly as written: it uses `noneMatch`, so it holds when no
   * team row of the project gives this user the ADMIN role, i.e. it answers
   * "is NOT an admin".
   */
  predicate IsTeamAdminAsWritten(projectId: ProjectId, team: seq<TeamMember>, userId: UserId)
  {
    !exists m :: m in team && m.project == projectId && m.user == userId && m.role == Admin
  }

  /** The intended permission: the project's creator or an ADMIN member of its team. */
  predicate IsCreatorOrAdmin(projectId: ProjectId, project: Project, team: seq<TeamMember>, userId: UserId)
  {
    project.creator == userId || exists m :: m in team && m.project == projectId && m.user == userId && m.role == Admin
  }

  /**
   * The permission guard shared by validateTeamMemberAddition, ...Update and
   * ...Removal: it throws when the caller is not the creator and
   * isTeamAdmin holds. The two slips (the inverted helper and the missing
   * negation at its call) cancel out: the guard passes exactly for the
   * creator or an ADMIN member.
   */
  function ValidateTeamManager(projectId: ProjectId, project: Project, team: seq<TeamMember>, userId: UserId, message: string): (r: Outcome)
    ensures r.Pass? <==> IsCreatorOrAdmin(projectId, project, team, userId)
    ensures r.Fail? ==> r.error == Validation(message)
  {
    if project.creator != userId && IsTeamAdminAsWritten(projectId, team, userId) then Fail(Validation(message)) else Pass
  }

  /** existsByProjectIdAndUserId. */
  predicate IsMember(projectId: ProjectId, team: seq<TeamMember>, userId: UserId)
  {
    exists m :: m in team && m.project == projectId && m.user == userId
  }

  /**
   * validateTeamMemberAddition: the permission guard, then "User is already
   * a team member".
   */
  function ValidateTeamMemberAddition(projectId: ProjectId, project: Project, team: seq<TeamMember>,
                                      userId: UserId, addedBy: UserId): (r: Outcome)
    ensures r.Pass? <==> IsCreatorOrAdmin(projectId, project, team, addedBy) && !IsMember(projectId, team, userId)
    ensures !IsCreatorOrAdmin(projectId, project, team, addedBy) ==>
      r == Fail(Validation("Only project creator or admin can add team members"))
    ensures IsCreatorOrAdmin(projectId, project, team, addedBy) && IsMember(projectId, team, userId) ==>
      r == Fail(Validation("User is already a team member"))
  {
    var guard := ValidateTeamManager(projectId, project, team, addedBy, "Only project creator or admin can add team members");
    if guard.Fail? then guard
    else if IsMember(projectId, team, userId) then Fail(Validation("User is already a team member"))
    else Pass
  }

  /** A project never has two team rows for the same user. */
  ghost predicate OneRowPerUser(team: seq<TeamMember>)
  {
    forall i, j :: 0 <= i < j < |team| ==> team[i].project != team[j].project || team[i].user != team[j].user
  }

  class TeamService {
    /** The project_team table. */
    var team: seq<TeamMember>
    var projects: map<ProjectId, Project>
    var users: set<UserId>
    ghost var notifications: seq<Notification>

    /**
     * Row ids are unique, every row's project is stored, and the unique
     * (project, user) constraint holds.
     */
    ghost predicate Valid()
      reads this
    {
      && (forall i, j :: 0 <= i < j < |team| ==> team[i].id != team[j].id)
      && (forall i :: 0 <= i < |team| ==> team[i].project in projects)
      && OneRowPerUser(team)
    }

    constructor (initialProjects: map<ProjectId, Project>, initialUsers: set<UserId>)
      ensures Valid() && team == [] && notifications == []
      ensures projects == initialProjects && users == initialUsers
    {
      team := [];
      projects := initialProjects;
      users := initialUsers;
      notifications := [];
    }

    /** findById on the team table. */
    function Find(id: MemberId): (r: Option<nat>)
      reads this
      ensures r.Some? ==> r.value < |team| && team[r.value].id == id
      ensures r.None? <==> forall j :: 0 <= j < |team| ==> team[j].id != id
    {
      FirstIndex(team, (m: TeamMember) => m.id == id)
    }

    /**
     * addTeamMember: "Project not found", "User not found", the addition
     * check, then the role name must be a TeamRole constant. On success one
     * row linking the user to the project is appended and the added user
     * gets one TEAM_MEMBER_ADDED notification about the project.
     */
    method AddTeamMember(request: TeamRequest, addedBy: UserId, newId: MemberId) returns (r: Result<MemberId>)
      requires Valid()
      requires forall j :: 0 <= j < |team| ==> team[j].id != newId
      modifies this
      ensures Valid() && projects == old(projects) && users == old(users)
      ensures request.projectId !in projects ==> r == Err(NotFound("Project not found"))
      ensures request.projectId in projects && request.userId !in users ==> r == Err(NotFound("User not found"))
      ensures (request.projectId in projects && request.userId in users &&
               ValidateTeamMemberAddition(request.projectId, projects[request.projectId], old(team), request.userId, addedBy).Fail?) ==>
        r == Err(ValidateTeamMemberAddition(request.projectId, projects[request.projectId], old(team), request.userId, addedBy).error)
      ensures r.Ok? <==>
        && request.projectId in projects && request.userId in users
        && ValidateTeamMemberAddition(request.projectId, projects[request.projectId], old(team), request.userId, addedBy).Pass?
        && ParseTeamRole(request.role).Ok?
      ensures (request.projectId in projects && request.userId in users &&
               ValidateTeamMemberAddition(request.projectId, projects[request.projectId], old(team), request.userId, addedBy).Pass? &&
               ParseTeamRole(request.role).Err?) ==>
        r == Err(ParseTeamRole(request.role).error)
      ensures r.Err? ==> team == old(team) && notifications == old(notifications)
      ensures r.Ok? ==> r.value == newId
      ensures r.Ok? ==>
        team == old(team) + [TeamMember(newId, request.projectId, request.userId, ParseTeamRole(request.role).value, request.permissions)]
      ensures r.Ok? ==> notifications == old(notifications) + [Notification(request.userId, TeamMemberAdded, request.projectId)]
    {
      if request.projectId !in projects {
        return Err(NotFound("Project not found"));
      }
      if request.userId !in users {
        return Err(NotFound("User not found"));
      }
      var check := ValidateTeamMemberAddition(request.projectId, projects[request.projectId], team, request.userId, addedBy);
      if check.Fail? {
        return Err(check.error);
      }
      var role := ParseTeamRole(request.role);
      if role.Err? {
        return Err(role.error);
      }
      team := team + [TeamMember(newId, request.projectId, request.userId, role.value, request.permissions)];
      notifications := notifications + [Notification(request.userId, TeamMemberAdded, request.projectId)];
      r := Ok(newId);
    }

    /**
     * updateTeamMember: "Team member not found", the permission guard on the
     * member's project, then the role name; on success that row alone takes
     * the new role and permissions.
     */
    method UpdateTeamMember(id: MemberId, role: string, permissions: Option<string>, updatedBy: UserId) returns (r: Outcome)
      requires Valid()
      modifies this
      ensures Valid() && projects == old(projects) && users == old(users) && notifications == old(notifications)
      ensures old(Find(id)).None? ==> r == Fail(NotFound("Team member not found"))
      ensures r.Pass? <==>
        && old(Find(id)).Some?
        && IsCreatorOrAdmin(old(team)[old(Find(id)).value].project, projects[old(team)[old(Find(id)).value].project], old(team), updatedBy)
        && ParseTeamRole(role).Ok?
      ensures old(Find(id)).Some? &&
              !IsCreatorOrAdmin(old(team)[old(Find(id)).value].project, projects[old(team)[old(Find(id)).value].project], old(team), updatedBy) ==>
        r == Fail(Validation("Only project creator or admin can update team members"))
      ensures old(Find(id)).Some? && ParseTeamRole(role).Err? &&
              IsCreatorOrAdmin(old(team)[old(Find(id)).value].project, projects[old(team)[old(Find(id)).value].project], old(team), updatedBy) ==>
        r == Fail(ParseTeamRole(role).error)
      ensures r.Fail? ==> team == old(team)
      ensures r.Pass? ==>
        var i := old(Find(id)).value;
        team == old(team)[i := old(team)[i].(role := ParseTeamRole(role).value, permissions := permissions)]
    {
      var found := Find(id);
      if found.None? {
        return Fail(NotFound("Team member not found"));
      }
      var i := found.value;
      var projectId := team[i].project;
      r := ValidateTeamManager(projectId, projects[projectId], team, updatedBy, "Only project creator or admin can update team members");
      if r.Fail? {
        return;
      }
      var parsed := ParseTeamRole(role);
      if parsed.Err? {
        return Fail(parsed.error);
      }
      team := team[i := team[i].(role := parsed.value, permissions := permissions)];
    }

    /**
     * removeTeamMember: "Team member not found", the permission guard; on
     * success exactly that row is deleted and the removed user gets one
     * TEAM_MEMBER_REMOVED notification about the project.
     */
    method RemoveTeamMember(id: MemberId, removedBy: UserId) returns (r: Outcome)
      requires Valid()
      modifies this
      ensures Valid() && projects == old(projects) && users == old(users)
      ensures old(Find(id)).None? ==> r == Fail(NotFound("Team member not found"))
      ensures r.Pass? <==>
        && old(Find(id)).Some?
        && IsCreatorOrAdmin(old(team)[old(Find(id)).value].project, projects[old(team)[old(Find(id)).value].project], old(team), removedBy)
      ensures old(Find(id)).Some? &&
              !IsCreatorOrAdmin(old(team)[old(Find(id)).value].project, projects[old(team)[old(Find(id)).value].project], old(team), removedBy) ==>
        r == Fail(Validation("Only project creator or admin can remove team members"))
      ensures r.Fail? ==> team == old(team) && notifications == old(notifications)
      ensures r.Pass? ==>
        var i := old(Find(id)).value;
        && team == old(team)[..i] + old(team)[i + 1..]
        && notifications == old(notifications) + [Notification(old(team)[i].user, TeamMemberRemoved, old(team)[i].project)]
    {
      var found := Find(id);
      if found.None? {
        return Fail(NotFound("Team member not found"));
      }
      var i := found.value;
      var member := team[i];
      r := ValidateTeamManager(member.project, projects[member.project], team, removedBy, "Only project creator or admin can remove team members");
      if r.Fail? {
        return;
      }
      team := team[..i] + team[i + 1..];
      notifications := notifications + [Notification(member.user, TeamMemberRemoved, member.project)];
    }

    /** getProjectTeam: the rows of one project. */
    method GetProjectTeam(projectId: ProjectId) returns (members: seq<TeamMember>)
      ensures forall m :: m in members <==> m in team && m.project == projectId
    {
      members := Filter(team, (m: TeamMember) => m.project == projectId);
    }
  }
}
