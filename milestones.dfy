/**
 * MilestoneService: a project's milestones, their PENDING → COMPLETED
 * status rule, and the overdue and upcoming listings.
 */
module Milestones {
  import opened Domain

  type MilestoneId = Uuid

  datatype MilestoneStatus = Pending | Completed

  /** A Milestone row; `completionDate` is the nullable completion_date. */
  datatype Milestone = Milestone(id: MilestoneId, project: ProjectId, title: string, description: string,
                                 targetDate: Day, completionDate: Option<Day>, status: MilestoneStatus,
                                 fundReleaseAmount: Money)

  datatype MilestoneRequest = MilestoneRequest(title: string, description: string, targetDate: Day, fundReleaseAmount: Money)

  // ---------------------------------------------------------------------
  // Validators
  // ---------------------------------------------------------------------

  /**
   * validateMilestoneCreation: the target date may not be after the
   * project's end date (checked first), nor before today.
   */
  function ValidateMilestoneCreation(project: Project, request: MilestoneRequest, today: Day): (r: Outcome)
    ensures r.Pass? <==> today <= request.targetDate <= project.endDate
    ensures project.endDate < request.targetDate ==>
      r == Fail(Validation("Milestone target date cannot be after project end date"))
    ensures request.targetDate <= project.endDate && request.targetDate < today ==>
      r == Fail(Validation("Milestone target date cannot be in the past"))
  {
    if project.endDate < request.targetDate then
      Fail(Validation("Milestone target date cannot be after project end date"))
    else if request.targetDate < today then
      Fail(Validation("Milestone target date cannot be in the past"))
    else
      Pass
  }

  /** validateMilestoneCompletion: a COMPLETED milestone cannot be completed again. */
  function ValidateMilestoneCompletion(milestone: Milestone): (r: Outcome)
    ensures r.Pass? <==> milestone.status != MilestoneStatus.Completed
    ensures r.Fail? ==> r.error == Validation("Milestone is already completed")
  {
    if milestone.status.Completed? then Fail(Validation("Milestone is already completed")) else Pass
  }

  /** validateStatusTransition: a COMPLETED milestone may only be set to COMPLETED again. */
  function ValidateStatusTransition(milestone: Milestone, newStatus: MilestoneStatus): (r: Outcome)
    ensures r.Fail? <==> milestone.status == MilestoneStatus.Completed && newStatus != MilestoneStatus.Completed
    ensures r.Fail? ==> r.error == Validation("Cannot change status of a completed milestone")
  {
    if milestone.status == MilestoneStatus.Completed && newStatus != MilestoneStatus.Completed then
      Fail(Validation("Cannot change status of a completed milestone"))
    else
      Pass
  }

  // ---------------------------------------------------------------------
  // State changes of one milestone
  // ---------------------------------------------------------------------

  /** The milestone createMilestone saves: status PENDING, no completion date. */
  function NewMilestone(id: MilestoneId, projectId: ProjectId, request: MilestoneRequest): (m: Milestone)
    ensures m.id == id && m.project == projectId && m.status == MilestoneStatus.Pending && m.completionDate.None?
    ensures m.title == request.title && m.description == request.description
    ensures m.targetDate == request.targetDate && m.fundReleaseAmount == request.fundReleaseAmount
  {
    Milestone(id, projectId, request.title, request.description, request.targetDate, None, MilestoneStatus.Pending, request.fundReleaseAmount)
  }

  /**
   * The milestone updateMilestoneStatus saves: the new status, and a
   * completion date of today only when the new status is COMPLETED
   * (completeMilestone saves the COMPLETED case of this).
   */
  function WithStatus(m: Milestone, newStatus: MilestoneStatus, today: Day): (m': Milestone)
    ensures m'.status == newStatus
    ensures newStatus == MilestoneStatus.Completed ==> m'.completionDate == Some(today)
    ensures newStatus != MilestoneStatus.Completed ==> m'.completionDate == m.completionDate
    ensures m'.id == m.id && m'.project == m.project && m'.title == m.title && m'.targetDate == m.targetDate
    ensures m'.description == m.description && m'.fundReleaseAmount == m.fundReleaseAmount
  {
    if newStatus == MilestoneStatus.Completed then m.(status := newStatus, completionDate := Some(today))
    else m.(status := newStatus)
  }

  /** A COMPLETED milestone carries its completion date. */
  predicate CompletionDated(m: Milestone)
  {
    m.status == MilestoneStatus.Completed ==> m.completionDate.Some?
  }

  /**
   * COMPLETED is terminal: every status change the validator lets through
   * leaves a COMPLETED milestone COMPLETED, and keeps completion dated.
   */
  lemma StatusChangeKeepsCompletion(m: Milestone, newStatus: MilestoneStatus, today: Day)
    requires ValidateStatusTransition(m, newStatus).Pass?
    requires CompletionDated(m)
    ensures m.status == MilestoneStatus.Completed ==> WithStatus(m, newStatus, today).status == MilestoneStatus.Completed
    ensures CompletionDated(WithStatus(m, newStatus, today))
  {
  }

  // ---------------------------------------------------------------------
  // Listings
  // ---------------------------------------------------------------------

  predicate SortedByTargetDate(s: seq<Milestone>)
  {
    forall i, j :: 0 <= i < j < |s| ==> s[i].targetDate <= s[j].targetDate
  }

  /** Inserts `m` into a list ordered by target date, before the first later-or-equal element. */
  function InsertByTargetDate(m: Milestone, s: seq<Milestone>): (r: seq<Milestone>)
    requires SortedByTargetDate(s)
    ensures |r| == |s| + 1
    ensures r[0] == m || (s != [] && r[0] == s[0])
    ensures SortedByTargetDate(r)
    ensures multiset(r) == multiset(s) + multiset{m}
  {
    if s == [] then [m]
    else if m.targetDate <= s[0].targetDate then [m] + s
    else
      var rest := InsertByTargetDate(m, s[1..]);
      assert s == [s[0]] + s[1..];
      assert s[0].targetDate <= rest[0].targetDate;
      [s[0]] + rest
  }

  /** The ORDER BY target_date ascending of the repository queries. */
  function SortByTargetDate(s: seq<Milestone>): (r: seq<Milestone>)
    ensures SortedByTargetDate(r)
    ensures multiset(r) == multiset(s)
    ensures forall x :: x in r <==> x in s
  {
    if s == [] then []
    else
      assert s == [s[0]] + s[1..];
      var r := InsertByTargetDate(s[0], SortByTargetDate(s[1..]));
      assert forall x :: x in r <==> x in multiset(r);
      assert forall x :: x in s <==> x in multiset(s);
      r
  }

  /** The selection of getOverdueMilestones: target date before today and not COMPLETED. */
  predicate IsOverdue(m: Milestone, today: Day)
  {
    m.targetDate < today && m.status != MilestoneStatus.Completed
  }

  /** The selection of getUpcomingMilestones: target date between today and today + daysAhead, inclusive. */
  predicate IsUpcoming(m: Milestone, today: Day, daysAhead: int)
  {
    today <= m.targetDate <= today + daysAhead
  }

  class MilestoneService {
    var milestones: seq<Milestone>
    var projects: map<ProjectId, Project>
    ghost var notifications: seq<Notification>

    /**
     * Milestone ids are unique, every milestone belongs to a stored project,
     * and every COMPLETED milestone has a completion date.
     */
    ghost predicate Valid()
      reads this
    {
      && (forall i, j :: 0 <= i < j < |milestones| ==> milestones[i].id != milestones[j].id)
      && (forall i :: 0 <= i < |milestones| ==> milestones[i].project in projects)
      && (forall i :: 0 <= i < |milestones| ==> CompletionDated(milestones[i]))
    }

    constructor (initialProjects: map<ProjectId, Project>)
      ensures Valid() && milestones == [] && projects == initialProjects && notifications == []
    {
      milestones := [];
      projects := initialProjects;
      notifications := [];
    }

    /** findById on the milestone store. */
    function Find(id: MilestoneId): (r: Option<nat>)
      reads this
      ensures r.Some? ==> r.value < |milestones| && milestones[r.value].id == id
      ensures r.None? <==> forall j :: 0 <= j < |milestones| ==> milestones[j].id != id
    {
      FirstIndex(milestones, (m: Milestone) => m.id == id)
    }

    /**
     * createMilestone: "Project not found", then validateMilestoneCreation;
     * on success one PENDING milestone of that project is appended.
     */
    method CreateMilestone(projectId: ProjectId, request: MilestoneRequest, newId: MilestoneId, today: Day)
      returns (r: Result<MilestoneId>)
      requires Valid()
      requires forall j :: 0 <= j < |milestones| ==> milestones[j].id != newId
      modifies this
      ensures Valid() && projects == old(projects) && notifications == old(notifications)
      ensures projectId !in projects ==> r == Err(NotFound("Project not found"))
      ensures projectId in projects ==> (r.Ok? <==> ValidateMilestoneCreation(projects[projectId], request, today).Pass?)
      ensures projectId in projects && r.Err? ==> r.error == ValidateMilestoneCreation(projects[projectId], request, today).error
      ensures r.Err? ==> milestones == old(milestones)
      ensures r.Ok? ==> r.value == newId && milestones == old(milestones) + [NewMilestone(newId, projectId, request)]
    {
      if projectId !in projects {
        return Err(NotFound("Project not found"));
      }
      var check := ValidateMilestoneCreation(projects[projectId], request, today);
      if check.Fail? {
        return Err(check.error);
      }
      milestones := milestones + [NewMilestone(newId, projectId, request)];
      r := Ok(newId);
    }

    /**
     * completeMilestone: "Milestone not found", then
     * validateMilestoneCompletion; on success that milestone alone becomes
     * COMPLETED with completion date today, and the project's creator gets
     * one MILESTONE_COMPLETED notification.
     */
    method CompleteMilestone(id: MilestoneId, today: Day) returns (r: Outcome)
      requires Valid()
      modifies this
      ensures Valid() && projects == old(projects)
      ensures old(Find(id)).None? ==> r == Fail(NotFound("Milestone not found"))
      ensures old(Find(id)).Some? ==> r == ValidateMilestoneCompletion(old(milestones)[old(Find(id)).value])
      ensures r.Fail? ==> milestones == old(milestones) && notifications == old(notifications)
      ensures r.Pass? ==>
        var i := old(Find(id)).value;
        && milestones == old(milestones)[i := WithStatus(old(milestones)[i], MilestoneStatus.Completed, today)]
        && notifications == old(notifications) + [Notification(projects[old(milestones)[i].project].creator, MilestoneCompleted, id)]
    {
      var found := Find(id);
      if found.None? {
        return Fail(NotFound("Milestone not found"));
      }
      var i := found.value;
      r := ValidateMilestoneCompletion(milestones[i]);
      if r.Fail? {
        return;
      }
      var m := milestones[i];
      milestones := milestones[i := WithStatus(m, MilestoneStatus.Completed, today)];
      notifications := notifications + [Notification(projects[m.project].creator, MilestoneCompleted, id)];
    }

    /**
     * updateMilestoneStatus: "Milestone not found", then
     * validateStatusTransition; on success that milestone alone takes the new
     * status, and its completion date is re-stamped only for COMPLETED. No
     * notification is sent.
     */
    method UpdateMilestoneStatus(id: MilestoneId, newStatus: MilestoneStatus, today: Day) returns (r: Outcome)
      requires Valid()
      modifies this
      ensures Valid() && projects == old(projects) && notifications == old(notifications)
      ensures old(Find(id)).None? ==> r == Fail(NotFound("Milestone not found"))
      ensures old(Find(id)).Some? ==> r == ValidateStatusTransition(old(milestones)[old(Find(id)).value], newStatus)
      ensures r.Fail? ==> milestones == old(milestones)
      ensures r.Pass? ==>
        var i := old(Find(id)).value;
        milestones == old(milestones)[i := WithStatus(old(milestones)[i], newStatus, today)]
    {
      var found := Find(id);
      if found.None? {
        return Fail(NotFound("Milestone not found"));
      }
      var i := found.value;
      r := ValidateStatusTransition(milestones[i], newStatus);
      if r.Fail? {
        return;
      }
      StatusChangeKeepsCompletion(milestones[i], newStatus, today);
      milestones := milestones[i := WithStatus(milestones[i], newStatus, today)];
    }

    /** getProjectMilestones: the project's milestones ordered by target date. */
    method GetProjectMilestones(projectId: ProjectId) returns (ms: seq<Milestone>)
      ensures SortedByTargetDate(ms)
      ensures forall i :: 0 <= i < |ms| ==> ms[i] in milestones && ms[i].project == projectId
      ensures forall i :: 0 <= i < |milestones| && milestones[i].project == projectId ==> milestones[i] in ms
    {
      var selected := Filter(milestones, (m: Milestone) => m.project == projectId);
      ms := SortByTargetDate(selected);
      forall i | 0 <= i < |ms| ensures ms[i] in milestones && ms[i].project == projectId {
        assert ms[i] in selected;
      }
    }

    /**
     * getOverdueMilestones: every stored milestone, of any project, whose
     * target date is before today and which is not COMPLETED; the project
     * id argument plays no part.
     */
    method GetOverdueMilestones(projectId: ProjectId, today: Day) returns (ms: seq<Milestone>)
      ensures forall i :: 0 <= i < |ms| ==> ms[i] in milestones && IsOverdue(ms[i], today)
      ensures forall i :: 0 <= i < |milestones| && IsOverdue(milestones[i], today) ==> milestones[i] in ms
    {
      ms := Filter(milestones, (m: Milestone) => IsOverdue(m, today));
      forall i | 0 <= i < |ms| ensures ms[i] in milestones && IsOverdue(ms[i], today) {
        assert ms[i] in ms;
      }
    }

    /**
     * getUpcomingMilestones: every stored milestone, of any project, whose
     * target date lies between today and today + daysAhead inclusive,
     * ordered by target date.
     */
    method GetUpcomingMilestones(projectId: ProjectId, daysAhead: int, today: Day) returns (ms: seq<Milestone>)
      ensures SortedByTargetDate(ms)
      ensures forall i :: 0 <= i < |ms| ==> ms[i] in milestones && IsUpcoming(ms[i], today, daysAhead)
      ensures forall i :: 0 <= i < |milestones| && IsUpcoming(milestones[i], today, daysAhead) ==> milestones[i] in ms
    {
      var selected := Filter(milestones, (m: Milestone) => IsUpcoming(m, today, daysAhead));
      ms := SortByTargetDate(selected);
      forall i | 0 <= i < |ms| ensures ms[i] in milestones && IsUpcoming(ms[i], today, daysAhead) {
        assert ms[i] in selected;
      }
    }
  }
}
