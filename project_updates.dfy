/**
 * ProjectUpdateService: news posts on a project by its creator or team, the
 * listings by type, and the notice sent once to every backer.
 */
module ProjectUpdates {
  import opened Domain

  type UpdateId = Uuid

  datatype UpdateType = General | Milestone | Announcement

  /** `UpdateType.valueOf(name)`: the constant with that exact name, or an IllegalArgumentException. */
  function ParseUpdateType(name: string): (r: Result<UpdateType>)
    ensures r.Ok? <==> name in {"GENERAL", "MILESTONE", "ANNOUNCEMENT"}
    ensures r.Ok? ==> TypeName(r.value) == name
    ensures r.Err? ==> r.error == IllegalArgument("No enum constant com.creatorfund.model.UpdateType." + name)
  {
    if name == "GENERAL" then Ok(General)
    else if name == "MILESTONE" then Ok(Milestone)
    else if name == "ANNOUNCEMENT" then Ok(Announcement)
    else Err(IllegalArgument("No enum constant com.creatorfund.model.UpdateType." + name))
  }

  /** `UpdateType.name()`, as the response mapper writes it. */
  function TypeName(t: UpdateType): string
  {
    match t
    case General => "GENERAL"
    case Milestone => "MILESTONE"
    case Announcement => "ANNOUNCEMENT"
  }

  /** Every type's name parses back to that type. */
  lemma TypeNameRoundTrip(t: UpdateType)
    ensures ParseUpdateType(TypeName(t)) == Ok(t)
  {
  }

  /** A ProjectUpdate row. */
  datatype ProjectUpdate = ProjectUpdate(id: UpdateId, project: ProjectId, createdBy: UserId,
                                         title: string, content: string, updateType: UpdateType)

  datatype UpdateRequest = UpdateRequest(title: string, content: string, updateType: string)

  /** validateUpdateCreation: the creator or any member of the project's team. */
  function ValidateUpdateCreation(projectId: ProjectId, project: Project, team: seq<TeamMember>, user: UserId): (r: Outcome)
    ensures r.Pass? <==> IsCreatorOrMember(projectId, project, team, user)
    ensures r.Fail? ==> r.error == Validation("Not authorized to create project updates")
  {
    if IsCreatorOrMember(projectId, project, team, user) then Pass
    else Fail(Validation("Not authorized to create project updates"))
  }

  // ---------------------------------------------------------------------
  // Backers and `distinct`
  // ---------------------------------------------------------------------

  /** `project.getPledges().stream().map(pledge -> pledge.getBacker().getId())`. */
  function ProjectBackers(pledges: seq<Pledge>, projectId: ProjectId): (r: seq<UserId>)
    ensures forall b :: b in r <==> exists p :: p in pledges && p.project == projectId && p.backer == b
  {
    if pledges == [] then []
    else
      var rest := ProjectBackers(pledges[1..], projectId);
      assert forall p :: p in pledges[1..] ==> p in pledges;
      assert forall p :: p in pledges ==> p == pledges[0] || p in pledges[1..];
      if pledges[0].project == projectId then [pledges[0].backer] + rest else rest
  }

  /** The position of the first occurrence of `x`. */
  function IndexOf(s: seq<UserId>, x: UserId): (k: nat)
    requires x in s
    ensures k < |s| && s[k] == x
    ensures forall j :: 0 <= j < k ==> s[j] != x
  {
    if s[0] == x then 0 else 1 + IndexOf(s[1..], x)
  }

  predicate NoDuplicates(s: seq<UserId>)
  {
    forall i, j :: 0 <= i < j < |s| ==> s[i] != s[j]
  }

  /** Stream `distinct`: every element once, at its first occurrence. */
  function Distinct(s: seq<UserId>): (r: seq<UserId>)
    ensures forall x :: x in r <==> x in s
    ensures NoDuplicates(r)
    ensures |r| <= |s|
  {
    if s == [] then []
    else
      var d := Distinct(s[..|s| - 1]);
      assert s == s[..|s| - 1] + [s[|s| - 1]];
      if s[|s| - 1] in d then d else d + [s[|s| - 1]]
  }

  /** A first occurrence in a prefix stays the first occurrence after an append. */
  lemma IndexOfAppend(s: seq<UserId>, y: UserId, x: UserId)
    requires x in s
    ensures IndexOf(s + [y], x) == IndexOf(s, x)
  {
    var q := IndexOf(s, x);
    assert (s + [y])[q] == x;
  }

  /** `distinct` keeps the order of first occurrences. */
  lemma {:induction false} DistinctKeepsFirstOccurrenceOrder(s: seq<UserId>)
    ensures forall i, j :: 0 <= i < j < |Distinct(s)| ==> IndexOf(s, Distinct(s)[i]) < IndexOf(s, Distinct(s)[j])
  {
    if s != [] {
      var init := s[..|s| - 1];
      var x := s[|s| - 1];
      assert s == init + [x];
      DistinctKeepsFirstOccurrenceOrder(init);
      var d := Distinct(init);
      forall y | y in d
        ensures IndexOf(s, y) == IndexOf(init, y)
      {
        IndexOfAppend(init, x, y);
      }
      if x !in d {
        assert x !in init;
        assert IndexOf(s, x) == |init| by {
          assert forall j :: 0 <= j < |init| ==> s[j] == init[j];
        }
        forall i | 0 <= i < |d|
          ensures IndexOf(s, d[i]) < IndexOf(s, x)
        {
          assert d[i] in d;
        }
      }
    }
  }

  /** Without duplicates, every element occurs exactly once. */
  lemma {:induction false} NoDuplicatesOnce(s: seq<UserId>, x: UserId)
    requires NoDuplicates(s)
    ensures multiset(s)[x] == if x in s then 1 else 0
  {
    if s != [] {
      assert s == [s[0]] + s[1..];
      assert NoDuplicates(s[1..]);
      NoDuplicatesOnce(s[1..], x);
      if x == s[0] {
        assert x !in s[1..];
      }
    }
  }

  /** The notices for a list of backers, one each, in order. */
  function BackerNotifications(backers: seq<UserId>, updateId: UpdateId): (ns: seq<Notification>)
    ensures Recipients(ns) == backers
    ensures forall n :: n in ns ==> n.kind == ProjectUpdatePosted && n.referenceId == updateId
  {
    seq(|backers|, i requires 0 <= i < |backers| => Notification(backers[i], ProjectUpdatePosted, updateId))
  }

  /** The users one notice list goes to. */
  function Recipients(ns: seq<Notification>): seq<UserId>
  {
    seq(|ns|, i requires 0 <= i < |ns| => ns[i].userId)
  }

  /**
   * notifyProjectBackers sends exactly one notice to each user who pledged
   * to the project, however many pledges they made, and none to anyone else.
   */
  lemma OneNoticePerBacker(pledges: seq<Pledge>, projectId: ProjectId, updateId: UpdateId, user: UserId)
    ensures var users := Recipients(BackerNotifications(Distinct(ProjectBackers(pledges, projectId)), updateId));
      multiset(users)[user] == if exists p :: p in pledges && p.project == projectId && p.backer == user then 1 else 0
  {
    var backers := Distinct(ProjectBackers(pledges, projectId));
    var users := Recipients(BackerNotifications(backers, updateId));
    assert users == backers;
    NoDuplicatesOnce(backers, user);
  }

  // ---------------------------------------------------------------------
  // Listings by type
  // ---------------------------------------------------------------------

  /** findByProjectIdAndUpdateType. */
  function UpdatesOfType(updates: seq<ProjectUpdate>, projectId: ProjectId, t: UpdateType): (r: seq<ProjectUpdate>)
    ensures forall u :: u in r <==> u in updates && u.project == projectId && u.updateType == t
  {
    Filter(updates, (u: ProjectUpdate) => u.project == projectId && u.updateType == t)
  }

  /** Every update of a project appears in exactly one of the three type listings. */
  lemma TypeListingsPartition(updates: seq<ProjectUpdate>, projectId: ProjectId, u: ProjectUpdate)
    requires u in updates && u.project == projectId
    ensures u in UpdatesOfType(updates, projectId, u.updateType)
    ensures forall t :: t != u.updateType ==> u !in UpdatesOfType(updates, projectId, t)
  {
  }

  class ProjectUpdateService {
    var updates: seq<ProjectUpdate>
    var projects: map<ProjectId, Project>
    var users: set<UserId>
    /** project.getProjectTeam() for every project. */
    var team: seq<TeamMember>
    /** project.getPledges() for every project. */
    var pledges: seq<Pledge>
    ghost var notifications: seq<Notification>

    /** Update ids are unique and every update's project is stored. */
    ghost predicate Valid()
      reads this
    {
      && (forall i, j :: 0 <= i < j < |updates| ==> updates[i].id != updates[j].id)
      && (forall i :: 0 <= i < |updates| ==> updates[i].project in projects)
    }

    constructor (initialProjects: map<ProjectId, Project>, initialUsers: set<UserId>,
                 initialTeam: seq<TeamMember>, initialPledges: seq<Pledge>)
      ensures Valid() && updates == [] && notifications == []
      ensures projects == initialProjects && users == initialUsers && team == initialTeam && pledges == initialPledges
    {
      updates := [];
      projects := initialProjects;
      users := initialUsers;
      team := initialTeam;
      pledges := initialPledges;
      notifications := [];
    }

    /**
     * createUpdate: "Project not found", "User not found", the
     * authorization check, then the type name; on success the update is
     * stored with its project, author and type, and every distinct backer
     * of the project gets one PROJECT_UPDATE notice about it.
     */
    method CreateUpdate(request: UpdateRequest, projectId: ProjectId, creatorId: UserId, newId: UpdateId)
      returns (r: Result<UpdateId>)
      requires Valid()
      requires forall j :: 0 <= j < |updates| ==> updates[j].id != newId
      modifies this
      ensures Valid()
      ensures projects == old(projects) && users == old(users) && team == old(team) && pledges == old(pledges)
      ensures projectId !in projects ==> r == Err(NotFound("Project not found"))
      ensures projectId in projects && creatorId !in users ==> r == Err(NotFound("User not found"))
      ensures projectId in projects && creatorId in users && !IsCreatorOrMember(projectId, projects[projectId], team, creatorId) ==>
        r == Err(Validation("Not authorized to create project updates"))
      ensures r.Ok? <==>
        && projectId in projects && creatorId in users
        && IsCreatorOrMember(projectId, projects[projectId], team, creatorId)
        && ParseUpdateType(request.updateType).Ok?
      ensures (projectId in projects && creatorId in users && IsCreatorOrMember(projectId, projects[projectId], team, creatorId) &&
               ParseUpdateType(request.updateType).Err?) ==>
        r == Err(IllegalArgument("No enum constant com.creatorfund.model.UpdateType." + request.updateType))
      ensures r.Err? ==> updates == old(updates) && notifications == old(notifications)
      ensures r.Ok? ==> r.value == newId
      ensures r.Ok? ==>
        updates == old(updates) + [ProjectUpdate(newId, projectId, creatorId, request.title, request.content,
                                                 ParseUpdateType(request.updateType).value)]
      ensures r.Ok? ==> notifications == old(notifications) + BackerNotifications(Distinct(ProjectBackers(pledges, projectId)), newId)
    {
      if projectId !in projects {
        return Err(NotFound("Project not found"));
      }
      if creatorId !in users {
        return Err(NotFound("User not found"));
      }
      var check := ValidateUpdateCreation(projectId, projects[projectId], team, creatorId);
      if check.Fail? {
        return Err(check.error);
      }
      var updateType := ParseUpdateType(request.updateType);
      if updateType.Err? {
        return Err(updateType.error);
      }
      updates := updates + [ProjectUpdate(newId, projectId, creatorId, request.title, request.content, updateType.value)];
      NotifyProjectBackers(projectId, newId);
      r := Ok(newId);
    }

    /** notifyProjectBackers: one notice per distinct backer, in first-pledge order. */
    method NotifyProjectBackers(projectId: ProjectId, updateId: UpdateId)
      modifies this
      ensures updates == old(updates) && projects == old(projects) && users == old(users)
      ensures team == old(team) && pledges == old(pledges)
      ensures notifications == old(notifications) + BackerNotifications(Distinct(ProjectBackers(pledges, projectId)), updateId)
    {
      var backers := Distinct(ProjectBackers(pledges, projectId));
      var i := 0;
      while i < |backers|
        invariant 0 <= i <= |backers|
        invariant updates == old(updates) && projects == old(projects) && users == old(users)
        invariant team == old(team) && pledges == old(pledges)
        invariant notifications == old(notifications) + BackerNotifications(backers[..i], updateId)
      {
        notifications := notifications + [Notification(backers[i], ProjectUpdatePosted, updateId)];
        i := i + 1;
      }
      assert backers[..i] == backers;
    }

    /** getUpdate: "Update not found" for an unknown id. */
    method GetUpdate(id: UpdateId) returns (r: Result<ProjectUpdate>)
      ensures r.Ok? <==> exists j :: 0 <= j < |updates| && updates[j].id == id
      ensures r.Ok? ==> r.value in updates && r.value.id == id
      ensures r.Err? ==> r.error == NotFound("Update not found")
    {
      var found := FirstIndex(updates, (u: ProjectUpdate) => u.id == id);
      if found.None? {
        return Err(NotFound("Update not found"));
      }
      r := Ok(updates[found.value]);
    }

    /** getProjectUpdates: the updates of one project. */
    method GetProjectUpdates(projectId: ProjectId) returns (result: seq<ProjectUpdate>)
      ensures forall u :: u in result <==> u in updates && u.project == projectId
    {
      result := Filter(updates, (u: ProjectUpdate) => u.project == projectId);
    }

    /** getUpdatesByType. */
    method GetUpdatesByType(projectId: ProjectId, t: UpdateType) returns (result: seq<ProjectUpdate>)
      ensures result == UpdatesOfType(updates, projectId, t)
      ensures forall u :: u in result <==> u in updates && u.project == projectId && u.updateType == t
    {
      result := UpdatesOfType(updates, projectId, t);
    }

    /** getMilestoneUpdates: the MILESTONE listing. */
    method GetMilestoneUpdates(projectId: ProjectId) returns (result: seq<ProjectUpdate>)
      ensures forall u :: u in result <==> u in updates && u.project == projectId && u.updateType == Milestone
    {
      result := GetUpdatesByType(projectId, Milestone);
    }

    /** getAnnouncementUpdates: the ANNOUNCEMENT listing. */
    method GetAnnouncementUpdates(projectId: ProjectId) returns (result: seq<ProjectUpdate>)
      ensures forall u :: u in result <==> u in updates && u.project == projectId && u.updateType == Announcement
    {
      result := GetUpdatesByType(projectId, Announcement);
    }
  }
}
