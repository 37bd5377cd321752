/**
 * Shared vocabulary of the crowdfunding services: identifiers, money and
 * dates, the error kinds the services throw, the entity records that more
 * than one service reads, and the notification log that stands in for the
 * notification collaborator.
 */
module Domain {

  // ---------------------------------------------------------------------
  // Identifiers, money, time
  // ---------------------------------------------------------------------

  /** A database-generated UUID. */
  type Uuid = nat
  type UserId = Uuid
  type ProjectId = Uuid

  /** A BigDecimal amount, held exactly in minor units (cents). */
  type Money = int

  /** A LocalDate, as a day number. */
  type Day = int

  /** A ZonedDateTime instant, as a tick count. */
  type Instant = int

  // ---------------------------------------------------------------------
  // Failures
  // ---------------------------------------------------------------------

  /** The exception classes the services throw, with their messages. */
  datatype Error =
    | NotFound(message: string)         // ResourceNotFoundException
    | Validation(message: string)       // BusinessValidationException
    | IllegalState(message: string)     // IllegalStateException
    | IllegalArgument(message: string)  // IllegalArgumentException from Enum.valueOf

  datatype Option<T> = None | Some(value: T)

  /** The result of a void validator: it passes or throws. */
  datatype Outcome = Pass | Fail(error: Error)

  /** The result of a service call: a value or the exception it throws. */
  datatype Result<T> = Ok(value: T) | Err(error: Error)

  // ---------------------------------------------------------------------
  // Notifications
  // ---------------------------------------------------------------------

  /** The `type` string handed to NotificationService.createNotification. */
  datatype NotificationType =
    | RefundInitiated | RefundProcessed | RefundCancelled
    | MilestoneCompleted
    | NewMessage
    | TeamMemberAdded | TeamMemberRemoved
    | ProjectUpdatePosted
    | NewComment | CommentReply

  /**
   * One call to createNotification(userId, message, type, referenceId);
   * the formatted message text is not modelled.
   */
  datatype Notification = Notification(userId: UserId, kind: NotificationType, referenceId: Uuid)

  // ---------------------------------------------------------------------
  // Entities read by several services
  // ---------------------------------------------------------------------

  datatype ProjectStatus = Draft | Active | Completed | Cancelled

  /** The parts of a Project the core reads: its creator, status and end date. */
  datatype Project = Project(creator: UserId, title: string, status: ProjectStatus, endDate: Day)

  datatype TeamRole = Admin | Moderator | Contributor

  /** A ProjectTeam row: one user's membership of one project. */
  datatype TeamMember = TeamMember(id: Uuid, project: ProjectId, user: UserId, role: TeamRole, permissions: Option<string>)

  /** `TeamRole.valueOf(name)`: the constant with that exact name, or an IllegalArgumentException. */
  function ParseTeamRole(name: string): (r: Result<TeamRole>)
    ensures r.Ok? <==> name in {"ADMIN", "MODERATOR", "CONTRIBUTOR"}
    ensures r.Err? ==> r.error == IllegalArgument("No enum constant com.creatorfund.model.TeamRole." + name)
  {
    if name == "ADMIN" then Ok(Admin)
    else if name == "MODERATOR" then Ok(Moderator)
    else if name == "CONTRIBUTOR" then Ok(Contributor)
    else Err(IllegalArgument("No enum constant com.creatorfund.model.TeamRole." + name))
  }

  /**
   * The access rule shared by MessageService and ProjectUpdateService: the
   * user created the project or appears in its team list (`anyMatch`).
   */
  predicate IsCreatorOrMember(projectId: ProjectId, project: Project, team: seq<TeamMember>, user: UserId)
  {
    project.creator == user || exists m :: m in team && m.project == projectId && m.user == user
  }

  // ---------------------------------------------------------------------
  // Funding ledger entities
  // ---------------------------------------------------------------------

  type PledgeId = Uuid
  type TierId = Uuid
  type TransactionId = Uuid

  datatype PledgeStatus = Pending | Successful

  /** A Pledge row; `rewardTier` is the nullable reward_tier_id. */
  datatype Pledge = Pledge(backer: UserId, project: ProjectId, rewardTier: Option<TierId>,
                           amount: Money, status: PledgeStatus, anonymous: bool)

  /** A Transaction row; `status` is a raw string column ("PENDING", "COMPLETED", ...). */
  datatype Transaction = Transaction(pledge: PledgeId, amount: Money, currency: string,
                                     status: string, paymentMethod: string)

  /** A RewardTier row; `limitCount` is the nullable Integer capacity. */
  datatype RewardTier = RewardTier(project: ProjectId, title: string, amount: Money,
                                   limitCount: Option<int>, currentBackers: int)

  // ---------------------------------------------------------------------
  // Sequences
  // ---------------------------------------------------------------------

  /** The elements of `s` that satisfy `keep`, in their original order (a stream `filter`). */
  function Filter<T(!new)>(s: seq<T>, keep: T -> bool): (r: seq<T>)
    ensures |r| <= |s|
    ensures forall x :: x in r <==> x in s && keep(x)
    ensures (forall i :: 0 <= i < |s| ==> keep(s[i])) ==> r == s
  {
    if s == [] then []
    else (if keep(s[0]) then [s[0]] else []) + Filter(s[1..], keep)
  }

  /** `Filter` distributes over concatenation. */
  lemma {:induction false} FilterAppend<T(!new)>(s: seq<T>, t: seq<T>, keep: T -> bool)
    ensures Filter(s + t, keep) == Filter(s, keep) + Filter(t, keep)
  {
    if s == [] {
      assert s + t == t;
    } else {
      assert (s + t)[1..] == s[1..] + t;
      FilterAppend(s[1..], t, keep);
    }
  }

  /** The position of the first element satisfying `p` (a repository `findById` over a list store). */
  function FirstIndex<T>(s: seq<T>, p: T -> bool): (r: Option<nat>)
    ensures r.Some? ==> r.value < |s| && p(s[r.value])
    ensures r.Some? ==> forall j :: 0 <= j < r.value ==> !p(s[j])
    ensures r.None? <==> forall j :: 0 <= j < |s| ==> !p(s[j])
  {
    if s == [] then None
    else if p(s[0]) then Some(0)
    else match FirstIndex(s[1..], p)
      case None => None
      case Some(k) => Some(k + 1)
  }

  /** Filtering with two tests that agree on every element gives the same result. */
  lemma {:induction false} FilterCongruent<T(!new)>(s: seq<T>, keep: T -> bool, keep': T -> bool)
    requires forall i :: 0 <= i < |s| ==> keep(s[i]) == keep'(s[i])
    ensures Filter(s, keep) == Filter(s, keep')
  {
    if s != [] {
      FilterCongruent(s[1..], keep, keep');
    }
  }
}
