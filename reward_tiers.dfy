/**
 * RewardTierService: reward tiers of a project, their capacity counter and
 * the "available tiers" query.
 */
module RewardTiers {
  import opened Domain

  /**
   * The availability condition of the repository query behind
   * getAvailableRewardTiers: no limit, or fewer backers than the limit.
   */
  predicate IsAvailable(t: RewardTier)
  {
    t.limitCount.None? || t.currentBackers < t.limitCount.value
  }

  /**
   * The counter never exceeds the capacity: at most the limit when the limit
   * is not negative, and zero (the initial value) when it is.
   */
  predicate WithinLimit(t: RewardTier)
  {
    0 <= t.currentBackers &&
    (t.limitCount.Some? ==> t.currentBackers <= if t.limitCount.value < 0 then 0 else t.limitCount.value)
  }

  /** getAvailableRewardTiers: the ids of the project's tiers that are available. */
  function AvailableTierIds(tiers: map<TierId, RewardTier>, projectId: ProjectId): (ids: set<TierId>)
    ensures forall id :: id in ids <==> id in tiers && tiers[id].project == projectId && IsAvailable(tiers[id])
  {
    set id | id in tiers && tiers[id].project == projectId && IsAvailable(tiers[id])
  }

  /** The tier incrementBackerCount stores on success. */
  function Incremented(t: RewardTier): (t': RewardTier)
    ensures t'.currentBackers == t.currentBackers + 1
    ensures t'.project == t.project && t'.title == t.title && t'.amount == t.amount && t'.limitCount == t.limitCount
  {
    t.(currentBackers := t.currentBackers + 1)
  }

  /** An increment that the limit check lets through keeps the counter within the limit. */
  lemma IncrementKeepsWithinLimit(t: RewardTier)
    requires WithinLimit(t) && IsAvailable(t)
    ensures WithinLimit(Incremented(t))
    ensures Incremented(t).limitCount.Some? ==> Incremented(t).currentBackers <= Incremented(t).limitCount.value
  {
  }

  /** The validation that createRewardTier runs on the project. */
  function ValidateRewardTierCreation(project: Project): (r: Outcome)
    ensures r.Pass? <==> project.status.Draft? || project.status.Active?
    ensures r.Fail? ==> r.error == Validation("Cannot add reward tiers to completed or cancelled projects")
  {
    if project.status == ProjectStatus.Completed || project.status == ProjectStatus.Cancelled then
      Fail(Validation("Cannot add reward tiers to completed or cancelled projects"))
    else
      Pass
  }

  datatype RewardTierRequest = RewardTierRequest(title: string, amount: Money, limitCount: Option<int>)

  class RewardTierService {
    var tiers: map<TierId, RewardTier>
    var projects: map<ProjectId, Project>

    /** Every stored counter is within its tier's limit. */
    ghost predicate Valid()
      reads this
    {
      forall id :: id in tiers ==> WithinLimit(tiers[id])
    }

    constructor (initialTiers: map<TierId, RewardTier>, initialProjects: map<ProjectId, Project>)
      requires forall id :: id in initialTiers ==> WithinLimit(initialTiers[id])
      ensures Valid() && tiers == initialTiers && projects == initialProjects
    {
      tiers := initialTiers;
      projects := initialProjects;
    }

    /**
     * incrementBackerCount: "Reward tier not found" for an unknown id,
     * "Reward tier limit reached" when the tier is not available (and nothing
     * changes), otherwise the counter of that tier alone goes up by one.
     */
    method IncrementBackerCount(id: TierId) returns (r: Outcome)
      requires Valid()
      modifies this
      ensures Valid() && projects == old(projects)
      ensures id !in old(tiers) ==> r == Fail(NotFound("Reward tier not found"))
      ensures id in old(tiers) && !IsAvailable(old(tiers)[id]) ==> r == Fail(Validation("Reward tier limit reached"))
      ensures r.Pass? <==> id in old(tiers) && IsAvailable(old(tiers)[id])
      ensures r.Pass? ==> tiers == old(tiers)[id := Incremented(old(tiers)[id])]
      ensures r.Fail? ==> tiers == old(tiers)
    {
      if id !in tiers {
        return Fail(NotFound("Reward tier not found"));
      }
      var tier := tiers[id];
      if tier.limitCount.Some? && tier.currentBackers >= tier.limitCount.value {
        return Fail(Validation("Reward tier limit reached"));
      }
      IncrementKeepsWithinLimit(tier);
      tiers := tiers[id := tier.(currentBackers := tier.currentBackers + 1)];
      r := Pass;
    }

    /**
     * createRewardTier: "Project not found", the completed/cancelled check,
     * then one new tier of that project with currentBackers = 0.
     */
    method CreateRewardTier(projectId: ProjectId, request: RewardTierRequest, newId: TierId) returns (r: Result<TierId>)
      requires Valid() && newId !in tiers
      modifies this
      ensures Valid() && projects == old(projects)
      ensures projectId !in projects ==> r == Err(NotFound("Project not found"))
      ensures projectId in projects ==>
        (r.Ok? <==> ValidateRewardTierCreation(projects[projectId]).Pass?)
      ensures projectId in projects && ValidateRewardTierCreation(projects[projectId]).Fail? ==>
        r == Err(Validation("Cannot add reward tiers to completed or cancelled projects"))
      ensures r.Ok? ==> r.value == newId
      ensures r.Ok? ==> tiers == old(tiers)[newId := RewardTier(projectId, request.title, request.amount, request.limitCount, 0)]
      ensures r.Err? ==> tiers == old(tiers)
    {
      if projectId !in projects {
        return Err(NotFound("Project not found"));
      }
      var check := ValidateRewardTierCreation(projects[projectId]);
      if check.Fail? {
        return Err(check.error);
      }
      tiers := tiers[newId := RewardTier(projectId, request.title, request.amount, request.limitCount, 0)];
      r := Ok(newId);
    }

    /** getAvailableRewardTiers. */
    method GetAvailableRewardTiers(projectId: ProjectId) returns (ids: set<TierId>)
      ensures forall id :: id in ids ==> id in tiers && tiers[id].project == projectId
      ensures forall id :: id in tiers && tiers[id].project == projectId ==>
        (id in ids <==> tiers[id].limitCount.None? || tiers[id].currentBackers < tiers[id].limitCount.value)
    {
      ids := AvailableTierIds(tiers, projectId);
    }
  }
}
