# CreatorFund service layer in Dafny

This project models the business rules of the CreatorFund crowdfunding
backend, a Spring application, and proves properties about them. It covers:

- the funding ledger: pledges, their payment transactions, reward tiers and
  refunds;
- project milestones;
- the category hierarchy;
- user profiles, with their skill and interest lists;
- direct messages;
- project teams;
- project news updates;
- comments and their moderation;
- the user registry.

Each service is a Dafny `class` whose fields stand for the repository tables
it reads and writes:

- a `map` where the service looks rows up by id;
- a `seq` where it lists, sums or filters them.

The notification log is a ghost `seq<Notification>` field. Every call of
`NotificationService.createNotification` appends one entry to it: the
recipient, the notification type and the reference id.

Every service method returns `Result`/`Outcome` rather than throwing. Each
exception becomes a value: `ResourceNotFoundException` is `NotFound`,
`BusinessValidationException` is `Validation`, `IllegalStateException` is
`IllegalState`, and `IllegalArgumentException` (from an enum `valueOf`) is
`IllegalArgument`. The value carries the source's exact message; for an
enum `valueOf` that is the JDK's "No enum constant " followed by the enum's
fully qualified class name (`com.creatorfund.model.TeamRole` and so on), a
dot and the rejected name. The checks happen in the source's order. A failed call leaves the state
unchanged, which models the rollback of the `@Transactional` service.

Conventions:

- Generated UUIDs are `newId` parameters, with a precondition that the id is
  unused.
- The current date or time is a `today`/`now` parameter.
- Money is an integer number of minor units.
- Dates are day numbers.

The modules:

- `Domain`: shared identifiers, the error and result types, and the
  notification entry. It also holds the entities several services read
  (project, team row, pledge, transaction, reward tier) and the stream
  helpers (`Filter`, `FirstIndex`).
- `Transactions`, `RewardTiers`, `Pledges`, `Refunds`: the funding ledger.
- `Milestones`, `Categories`, `ProfileMapper`, `Profiles`, `Messages`,
  `Team`, `ProjectUpdates`, `Comments`, `Users`: one module per service.

All source paths below are under `backend/creatorfund/src/main/java/com/creatorfund/`
in the original repository; the table gives them in full.

## Model

| member | source | states |
|---|---|---|
| Domain.ParseTeamRole | backend/creatorfund/src/main/java/com/creatorfund/mapper/ProjectTeamMapper.java:16 | `TeamRole.valueOf` succeeds exactly for ADMIN, MODERATOR and CONTRIBUTOR, and otherwise fails with IllegalArgument "No enum constant com.creatorfund.model.TeamRole." followed by the name |
| Transactions.TransactionService.CreateTransactionForPledge | backend/creatorfund/src/main/java/com/creatorfund/service/TransactionService.java:23-35 | exactly one new transaction is stored: it references the pledge, carries the pledge's amount, and has currency USD, method card and status PENDING; existing transactions are untouched |
| Transactions.TransactionService.GetTransaction | backend/creatorfund/src/main/java/com/creatorfund/service/TransactionService.java:37-41 | returns the stored transaction, or fails with "Transaction not found" exactly when the id is unknown |
| RewardTiers.AvailableTierIds | backend/creatorfund/src/main/java/com/creatorfund/service/RewardTierService.java:47-52 | a tier is listed as available exactly when it belongs to the project and is under its limit (or has none) |
| RewardTiers.Incremented | backend/creatorfund/src/main/java/com/creatorfund/service/RewardTierService.java:70 | the backer count goes up by one and every other field of the tier is kept |
| RewardTiers.IncrementKeepsWithinLimit | backend/creatorfund/src/main/java/com/creatorfund/service/RewardTierService.java:65-70 | incrementing an available tier never takes its backer count past the limit |
| RewardTiers.ValidateRewardTierCreation | backend/creatorfund/src/main/java/com/creatorfund/service/RewardTierService.java:74-81 | tiers may be added exactly to DRAFT or ACTIVE projects; otherwise it fails with "Cannot add reward tiers to completed or cancelled projects" |
| RewardTiers.RewardTierService.IncrementBackerCount | backend/creatorfund/src/main/java/com/creatorfund/service/RewardTierService.java:61-72 | "Reward tier not found"; then "Reward tier limit reached" when the tier is full; otherwise only that tier's count grows by one; every tier stays within its limit |
| RewardTiers.RewardTierService.CreateRewardTier | backend/creatorfund/src/main/java/com/creatorfund/service/RewardTierService.java:28-39 | "Project not found", then the status check, whose failure is returned as "Cannot add reward tiers to completed or cancelled projects"; on success one tier with the request's fields and zero backers is added |
| RewardTiers.RewardTierService.GetAvailableRewardTiers | backend/creatorfund/src/main/java/com/creatorfund/service/RewardTierService.java:47-52 | returns exactly the project's tiers that are under their limit |
| Pledges.ValidateRewardTier | backend/creatorfund/src/main/java/com/creatorfund/service/PledgeService.java:60-68 | passes exactly when the amount reaches the tier minimum and the tier is under its limit; the minimum is checked first; both failures are IllegalState with the source's messages |
| Pledges.CapacityCheckMatchesAvailableTiers | backend/creatorfund/src/main/java/com/creatorfund/service/PledgeService.java:64-67 | the pledge-time capacity test agrees with the available-tier listing |
| Pledges.CheckPledge | backend/creatorfund/src/main/java/com/creatorfund/service/PledgeService.java:34-45 | the lookups come in order ("Project not found", "User not found", "Reward tier not found") before the tier check; a pledge without a tier passes once the project and user exist |
| Pledges.AddPledgeKeepsOneTransaction | backend/creatorfund/src/main/java/com/creatorfund/service/PledgeService.java:52-55 | adding a pledge together with its transaction keeps exactly one transaction per pledge, with equal amounts |
| Pledges.PledgeService.CreatePledge | backend/creatorfund/src/main/java/com/creatorfund/service/PledgeService.java:33-58 | fails exactly when the checks fail, storing nothing; otherwise it stores one PENDING pledge and adds exactly one transaction row for it (the pledged amount, USD, card, PENDING), leaving every earlier transaction as it was; the tiers are unchanged |
| Refunds.CompletedTotal | backend/creatorfund/src/main/java/com/creatorfund/service/RefundService.java:105-109 | the sum of the COMPLETED refunds of one transaction; it is zero when there are none and never negative for non-negative amounts |
| Refunds.CompletedTotalAppend | backend/creatorfund/src/main/java/com/creatorfund/service/RefundService.java:105-109 | the refunded total splits over concatenated refund lists |
| Refunds.CompletedTotalUpdate | backend/creatorfund/src/main/java/com/creatorfund/service/RefundService.java:105-109 | replacing one refund changes the total by exactly the difference of the two refunds' counted amounts |
| Refunds.ValidateRefundRequest | backend/creatorfund/src/main/java/com/creatorfund/service/RefundService.java:93-115 | passes exactly when the transaction is COMPLETED, the amount is at most the transaction amount, and the amount is at most that amount minus the COMPLETED refunds; each failure carries the message of the first broken check |
| Refunds.ValidateRefundProcessing | backend/creatorfund/src/main/java/com/creatorfund/service/RefundService.java:117-121 | passes exactly for PENDING refunds; otherwise it fails with "Only pending refunds can be processed" |
| Refunds.ValidateRefundCancellation | backend/creatorfund/src/main/java/com/creatorfund/service/RefundService.java:123-127 | passes exactly for PENDING refunds; otherwise it fails with "Only pending refunds can be cancelled" |
| Refunds.NewRefund | backend/creatorfund/src/main/java/com/creatorfund/service/RefundService.java:38-40 | a new refund is PENDING, not yet processed, and has the request's transaction, amount and reason |
| Refunds.ProcessedRefund | backend/creatorfund/src/main/java/com/creatorfund/service/RefundService.java:55-56 | a processed refund is COMPLETED and stamped with the processing time; its other fields are kept |
| Refunds.CancelledRefund | backend/creatorfund/src/main/java/com/creatorfund/service/RefundService.java:85 | a cancelled refund is CANCELLED; its other fields are kept |
| Refunds.ProcessedAndCancelledAreTerminal | backend/creatorfund/src/main/java/com/creatorfund/service/RefundService.java:117-127 | a processed or cancelled refund can be neither processed nor cancelled again |
| Refunds.CreateKeepsTotals | backend/creatorfund/src/main/java/com/creatorfund/service/RefundService.java:40-42 | creating a refund does not change any transaction's refunded total |
| Refunds.CancelKeepsTotals | backend/creatorfund/src/main/java/com/creatorfund/service/RefundService.java:85-86 | cancelling a pending refund does not change any refunded total |
| Refunds.ProcessAddsAmount | backend/creatorfund/src/main/java/com/creatorfund/service/RefundService.java:55-58 | processing a pending refund adds exactly its amount to its own transaction's total and nothing to the others |
| Refunds.CreateAndCancelKeepWithinAmounts | backend/creatorfund/src/main/java/com/creatorfund/service/RefundService.java:32-47 | creating and cancelling keep every refunded total within its transaction amount |
| Refunds.ProcessWithinRemainderKeepsWithinAmounts | backend/creatorfund/src/main/java/com/creatorfund/service/RefundService.java:49-63 | processing keeps totals within the transaction amount when the refund still fits the remainder |
| Refunds.TwoPendingRefundsCanOverRefund | backend/creatorfund/src/main/java/com/creatorfund/service/RefundService.java:49-58 | there is a transaction whose two pending refunds both pass creation but whose processing refunds more than the transaction amount |
| Refunds.RemainderExample | backend/creatorfund/src/main/java/com/creatorfund/service/RefundService.java:105-114 | with 100.00 paid and 30.00 already refunded, 70.00 passes and 71.00 fails with "Requested refund amount exceeds refundable amount" |
| Refunds.RefundService.CreateRefund | backend/creatorfund/src/main/java/com/creatorfund/service/RefundService.java:32-47 | "Transaction not found", then the request check, whose own failure (its message) is the result; on success one PENDING refund is appended and the backer gets one REFUND_INITIATED notification |
| Refunds.RefundService.ProcessRefund | backend/creatorfund/src/main/java/com/creatorfund/service/RefundService.java:49-63 | "Refund not found", then only a PENDING refund becomes COMPLETED at `now`, with one REFUND_PROCESSED notification; nothing else changes |
| Refunds.RefundService.CancelRefund | backend/creatorfund/src/main/java/com/creatorfund/service/RefundService.java:79-91 | "Refund not found", then only a PENDING refund becomes CANCELLED, with one REFUND_CANCELLED notification |
| Refunds.RefundService.GetTransactionRefunds | backend/creatorfund/src/main/java/com/creatorfund/service/RefundService.java:65-70 | returns exactly the refunds of that transaction |
| Milestones.ValidateMilestoneCreation | backend/creatorfund/src/main/java/com/creatorfund/service/MilestoneService.java:104-114 | passes exactly when today ≤ target date ≤ project end date; the end date is checked first |
| Milestones.ValidateMilestoneCompletion | backend/creatorfund/src/main/java/com/creatorfund/service/MilestoneService.java:116-120 | passes exactly for a milestone that is not COMPLETED; otherwise it fails with "Milestone is already completed" |
| Milestones.ValidateStatusTransition | backend/creatorfund/src/main/java/com/creatorfund/service/MilestoneService.java:122-128 | fails exactly when a COMPLETED milestone would leave COMPLETED |
| Milestones.NewMilestone | backend/creatorfund/src/main/java/com/creatorfund/service/MilestoneService.java:36-40 | a new milestone is PENDING, has no completion date, and has the request's fields |
| Milestones.WithStatus | backend/creatorfund/src/main/java/com/creatorfund/service/MilestoneService.java:74-77 | sets the status; moving to COMPLETED stamps today's date, and any other status keeps the old date; the other fields are kept |
| Milestones.StatusChangeKeepsCompletion | backend/creatorfund/src/main/java/com/creatorfund/service/MilestoneService.java:68-81 | an allowed change never reopens a completed milestone, and every completed milestone keeps a completion date |
| Milestones.InsertByTargetDate | backend/creatorfund/src/main/java/com/creatorfund/service/MilestoneService.java:44-49 | inserting into a target-date-ordered list keeps it ordered and adds exactly that element |
| Milestones.SortByTargetDate | backend/creatorfund/src/main/java/com/creatorfund/service/MilestoneService.java:44-49 | the result is ordered by target date and is a permutation of the input |
| Milestones.MilestoneService.CreateMilestone | backend/creatorfund/src/main/java/com/creatorfund/service/MilestoneService.java:31-42 | "Project not found", then the date checks; on success exactly one new PENDING milestone is appended |
| Milestones.MilestoneService.CompleteMilestone | backend/creatorfund/src/main/java/com/creatorfund/service/MilestoneService.java:51-66 | "Milestone not found", then "Milestone is already completed"; on success only that milestone becomes COMPLETED today, and the creator gets one MILESTONE_COMPLETED notification |
| Milestones.MilestoneService.UpdateMilestoneStatus | backend/creatorfund/src/main/java/com/creatorfund/service/MilestoneService.java:68-81 | "Milestone not found", then the transition check; on success only that milestone changes, as `WithStatus` says |
| Milestones.MilestoneService.GetProjectMilestones | backend/creatorfund/src/main/java/com/creatorfund/service/MilestoneService.java:44-49 | exactly the project's milestones, ordered by target date |
| Milestones.MilestoneService.GetOverdueMilestones | backend/creatorfund/src/main/java/com/creatorfund/service/MilestoneService.java:83-91 | exactly the milestones of any project that are before today and not COMPLETED |
| Milestones.MilestoneService.GetUpcomingMilestones | backend/creatorfund/src/main/java/com/creatorfund/service/MilestoneService.java:93-102 | exactly the milestones of any project due from today to today + daysAhead, ordered by target date |
| Categories.ValidateCategoryName | backend/creatorfund/src/main/java/com/creatorfund/service/ProjectCategoryService.java:106-110 | passes exactly when no stored category has the same name ignoring case, where "ignoring case" is the database's upper-casing, taken as a parameter; otherwise it fails with "Category with this name already exists" |
| Categories.RenameKeepsNamesUnique | backend/creatorfund/src/main/java/com/creatorfund/service/ProjectCategoryService.java:59-80 | a rename that passes its name check keeps stored names unique ignoring case, for any upper-casing |
| Categories.ValidateRename | backend/creatorfund/src/main/java/com/creatorfund/service/ProjectCategoryService.java:63-65 | the name is checked only when it differs exactly from the current name |
| Categories.RenameToCaseVariantRejected | backend/creatorfund/src/main/java/com/creatorfund/service/ProjectCategoryService.java:63-65 | renaming a category to a case variant of its own name is refused, since it matches itself |
| Categories.AncestorStep | backend/creatorfund/src/main/java/com/creatorfund/service/ProjectCategoryService.java:121-127 | `a` is an ancestor of `id` exactly when `a` is `id`'s parent or an ancestor of that parent |
| Categories.ReparentKeepsAcyclic | backend/creatorfund/src/main/java/com/creatorfund/service/ProjectCategoryService.java:112-128 | re-parenting under a stored parent that is neither the category nor one of its descendants keeps the hierarchy acyclic |
| Categories.AddKeepsAcyclic | backend/creatorfund/src/main/java/com/creatorfund/service/ProjectCategoryService.java:25-39 | adding a category under a stored parent keeps the hierarchy acyclic |
| Categories.RemoveLeafKeepsAcyclic | backend/creatorfund/src/main/java/com/creatorfund/service/ProjectCategoryService.java:82-98 | deleting a category without subcategories leaves no dangling parent and keeps the hierarchy acyclic |
| Categories.CategoryService.ValidateParentCategory | backend/creatorfund/src/main/java/com/creatorfund/service/ProjectCategoryService.java:112-128 | the ancestor walk passes exactly when the parent differs from the category, is stored, and does not have the category among its ancestors; each failure carries its source message |
| Categories.CategoryService.CreateCategory | backend/creatorfund/src/main/java/com/creatorfund/service/ProjectCategoryService.java:25-39 | the name check, then "Parent category not found"; on success exactly one category is added; names stay unique and the hierarchy stays acyclic |
| Categories.CategoryService.UpdateCategory | backend/creatorfund/src/main/java/com/creatorfund/service/ProjectCategoryService.java:59-80 | "Category not found", the rename check, then the parent check: "Category cannot be its own parent", "Parent category not found" or "Circular reference in category hierarchy", in that order; on success only that category's name, description and parent change |
| Categories.CategoryService.DeleteCategory | backend/creatorfund/src/main/java/com/creatorfund/service/ProjectCategoryService.java:82-98 | "Category not found", "Cannot delete category with subcategories", "Cannot delete category with existing projects"; on success exactly that category is removed |
| ProfileMapper.EntryValues | backend/creatorfund/src/main/java/com/creatorfund/mapper/UserProfileMapper.java:50-66 | a null list maps to the empty list; otherwise the texts come out in order |
| ProfileMapper.EntriesFor | backend/creatorfund/src/main/java/com/creatorfund/mapper/UserProfileMapper.java:68-94 | a null list maps to the empty list; otherwise there is one row per text, in order, each pointing to the profile |
| ProfileMapper.ValuesOfEntriesRoundTrip | backend/creatorfund/src/main/java/com/creatorfund/mapper/UserProfileMapper.java:50-94 | rows built from a list of texts give that list back |
| ProfileMapper.EntriesOfValuesRoundTrip | backend/creatorfund/src/main/java/com/creatorfund/mapper/UserProfileMapper.java:50-94 | rows that all point to one profile are rebuilt exactly from their texts |
| Profiles.EmptyProfile | backend/creatorfund/src/main/java/com/creatorfund/service/UserProfileService.java:101-102 | a new profile belongs to the user and has empty lists and fields |
| Profiles.UpdatedFromRequest | backend/creatorfund/src/main/java/com/creatorfund/mapper/UserProfileMapper.java:31-37 | copies the request's fields; the skill and interest lists are rebuilt from the request's texts and point to the profile's user |
| Profiles.WithValueAdded | backend/creatorfund/src/main/java/com/creatorfund/service/UserProfileService.java:62-71 | a text already present changes nothing; an absent one is appended as one row; afterwards the text is present |
| Profiles.WithValueRemoved | backend/creatorfund/src/main/java/com/creatorfund/service/UserProfileService.java:73-77 | removes exactly the rows with that text, keeping the others |
| Profiles.AddIsIdempotent | backend/creatorfund/src/main/java/com/creatorfund/service/UserProfileService.java:64 | adding the same text twice is the same as adding it once |
| Profiles.RemoveKeepsOrder | backend/creatorfund/src/main/java/com/creatorfund/service/UserProfileService.java:75 | removal distributes over concatenation, so the surviving rows keep their order |
| Profiles.AddThenRemoveRestores | backend/creatorfund/src/main/java/com/creatorfund/service/UserProfileService.java:62-77 | adding an absent text and then removing it restores the list |
| Profiles.ProfileService.GetUserProfileOrCreate | backend/creatorfund/src/main/java/com/creatorfund/service/UserProfileService.java:96-105 | an existing profile is kept; a known user gets an empty profile; otherwise it fails with "User not found" |
| Profiles.ProfileService.UpdateUserProfile | backend/creatorfund/src/main/java/com/creatorfund/service/UserProfileService.java:34-48 | "User not found" for an unknown user; otherwise the existing or new profile takes the request's fields |
| Profiles.ProfileService.AddSkill | backend/creatorfund/src/main/java/com/creatorfund/service/UserProfileService.java:62-71 | only that user's skill list changes, by `WithValueAdded` |
| Profiles.ProfileService.RemoveSkill | backend/creatorfund/src/main/java/com/creatorfund/service/UserProfileService.java:73-77 | only that user's skill list changes, by `WithValueRemoved` |
| Profiles.ProfileService.AddInterest | backend/creatorfund/src/main/java/com/creatorfund/service/UserProfileService.java:79-88 | only that user's interest list changes, by `WithValueAdded` |
| Profiles.ProfileService.RemoveInterest | backend/creatorfund/src/main/java/com/creatorfund/service/UserProfileService.java:90-94 | only that user's interest list changes, by `WithValueRemoved` |
| Messages.ValidateUsers | backend/creatorfund/src/main/java/com/creatorfund/service/MessageService.java:100-108 | passes exactly for two different users of whom the other exists; "Cannot message yourself" is checked first, then "Other user not found" |
| Messages.ValidateProjectAccess | backend/creatorfund/src/main/java/com/creatorfund/service/MessageService.java:110-122 | passes exactly when both users are the creator or a team member of the project |
| Messages.ValidateProjectMembership | backend/creatorfund/src/main/java/com/creatorfund/service/MessageService.java:124-132 | passes exactly for the creator or a team member; otherwise it fails with "User is not a member of this project" |
| Messages.Conversation | backend/creatorfund/src/main/java/com/creatorfund/service/MessageService.java:65-70 | exactly the messages exchanged between the two users, in either direction |
| Messages.ConversationSymmetric | backend/creatorfund/src/main/java/com/creatorfund/service/MessageService.java:65-70 | the conversation between a and b is the one between b and a |
| Messages.MarkedConversationRead | backend/creatorfund/src/main/java/com/creatorfund/service/MessageService.java:95-98 | a message is read afterwards exactly when it was read already or was sent by the other user to this user; nothing but the read flag changes, and the list keeps its length |
| Messages.MarkConversationReadsIncoming | backend/creatorfund/src/main/java/com/creatorfund/service/MessageService.java:95-98 | afterwards every message in the conversation addressed to the user is read |
| Messages.MessageService.CheckSend | backend/creatorfund/src/main/java/com/creatorfund/service/MessageService.java:33-46 | "Sender not found", "Recipient not found", "Project not found", then the access check, in that order |
| Messages.MessageService.SendMessage | backend/creatorfund/src/main/java/com/creatorfund/service/MessageService.java:33-58 | fails exactly when the checks fail; otherwise one unread message is appended and the recipient gets one NEW_MESSAGE notification |
| Messages.MessageService.GetConversationMessages | backend/creatorfund/src/main/java/com/creatorfund/service/MessageService.java:65-70 | the users check, then exactly the conversation's messages |
| Messages.MessageService.GetProjectMessages | backend/creatorfund/src/main/java/com/creatorfund/service/MessageService.java:72-81 | "Project not found", the membership check, then exactly the project's messages |
| Messages.MessageService.MarkAsRead | backend/creatorfund/src/main/java/com/creatorfund/service/MessageService.java:83-93 | "Message not found"; only the recipient may mark; only that message's read flag changes |
| Messages.MessageService.MarkConversationAsRead | backend/creatorfund/src/main/java/com/creatorfund/service/MessageService.java:95-98 | the users check; on success the messages become `MarkedConversationRead` |
| Team.ValidateTeamManager | backend/creatorfund/src/main/java/com/creatorfund/service/ProjectTeamService.java:109-130 | with the inverted `isTeamAdmin` as written, the guard passes exactly for the project creator or an ADMIN member of its team |
| Team.ValidateTeamMemberAddition | backend/creatorfund/src/main/java/com/creatorfund/service/ProjectTeamService.java:95-107 | passes exactly when the caller is the creator or an ADMIN and the user is not yet on the team, with the source's two messages in order |
| Team.TeamService.AddTeamMember | backend/creatorfund/src/main/java/com/creatorfund/service/ProjectTeamService.java:35-53 | "Project not found", "User not found", the addition check, then the role name; on success one row is appended and the added user gets one TEAM_MEMBER_ADDED notification; (project, user) pairs stay unique |
| Team.TeamService.UpdateTeamMember | backend/creatorfund/src/main/java/com/creatorfund/service/ProjectTeamService.java:62-75 | "Team member not found", then "Only project creator or admin can update team members" unless the caller is the creator or an ADMIN, then the role name; on success only that row's role and permissions change |
| Team.TeamService.RemoveTeamMember | backend/creatorfund/src/main/java/com/creatorfund/service/ProjectTeamService.java:77-86 | "Team member not found", then "Only project creator or admin can remove team members" unless the caller is the creator or an ADMIN; on success exactly that row is deleted and the user gets one TEAM_MEMBER_REMOVED notification |
| Team.TeamService.GetProjectTeam | backend/creatorfund/src/main/java/com/creatorfund/service/ProjectTeamService.java:55-60 | exactly the rows of the project |
| ProjectUpdates.ParseUpdateType | backend/creatorfund/src/main/java/com/creatorfund/service/ProjectUpdateService.java:45 | `UpdateType.valueOf` succeeds exactly for GENERAL, MILESTONE and ANNOUNCEMENT and gives back the constant with that name; any other name fails with IllegalArgument "No enum constant com.creatorfund.model.UpdateType." followed by the name |
| ProjectUpdates.TypeNameRoundTrip | backend/creatorfund/src/main/java/com/creatorfund/mapper/ProjectUpdateMapper.java:18 | the name written in a response parses back to the same type |
| ProjectUpdates.ValidateUpdateCreation | backend/creatorfund/src/main/java/com/creatorfund/service/ProjectUpdateService.java:79-88 | passes exactly for the project creator or any team member; otherwise it fails with "Not authorized to create project updates" |
| ProjectUpdates.ProjectBackers | backend/creatorfund/src/main/java/com/creatorfund/service/ProjectUpdateService.java:94-95 | exactly the users who pledged to the project |
| ProjectUpdates.Distinct | backend/creatorfund/src/main/java/com/creatorfund/service/ProjectUpdateService.java:96 | the same elements, each exactly once |
| ProjectUpdates.DistinctKeepsFirstOccurrenceOrder | backend/creatorfund/src/main/java/com/creatorfund/service/ProjectUpdateService.java:96 | `distinct` keeps elements in the order of their first occurrences |
| ProjectUpdates.OneNoticePerBacker | backend/creatorfund/src/main/java/com/creatorfund/service/ProjectUpdateService.java:90-107 | each user gets exactly one notice if they pledged to the project, however many pledges they made, and none otherwise |
| ProjectUpdates.UpdatesOfType | backend/creatorfund/src/main/java/com/creatorfund/service/ProjectUpdateService.java:64-69 | exactly the project's updates of that type |
| ProjectUpdates.TypeListingsPartition | backend/creatorfund/src/main/java/com/creatorfund/service/ProjectUpdateService.java:64-77 | each update of a project appears in exactly one type listing |
| ProjectUpdates.ProjectUpdateService.CreateUpdate | backend/creatorfund/src/main/java/com/creatorfund/service/ProjectUpdateService.java:33-52 | "Project not found", "User not found", the authorization check, then the type name, an unknown one failing with "No enum constant com.creatorfund.model.UpdateType." followed by the name; on success one update is appended and each distinct backer gets one PROJECT_UPDATE notice |
| ProjectUpdates.ProjectUpdateService.NotifyProjectBackers | backend/creatorfund/src/main/java/com/creatorfund/service/ProjectUpdateService.java:90-107 | the loop appends one notice per distinct backer, in first-pledge order, and nothing else |
| ProjectUpdates.ProjectUpdateService.GetUpdate | backend/creatorfund/src/main/java/com/creatorfund/service/ProjectUpdateService.java:58-62 | returns the update with that id, or fails with "Update not found" exactly when none exists |
| ProjectUpdates.ProjectUpdateService.GetProjectUpdates | backend/creatorfund/src/main/java/com/creatorfund/service/ProjectUpdateService.java:54-56 | exactly the project's updates |
| ProjectUpdates.ProjectUpdateService.GetUpdatesByType | backend/creatorfund/src/main/java/com/creatorfund/service/ProjectUpdateService.java:64-69 | exactly the project's updates of that type |
| ProjectUpdates.ProjectUpdateService.GetMilestoneUpdates | backend/creatorfund/src/main/java/com/creatorfund/service/ProjectUpdateService.java:71-73 | exactly the project's MILESTONE updates |
| ProjectUpdates.ProjectUpdateService.GetAnnouncementUpdates | backend/creatorfund/src/main/java/com/creatorfund/service/ProjectUpdateService.java:75-77 | exactly the project's ANNOUNCEMENT updates |
| Comments.ParseCommentStatus | backend/creatorfund/src/main/java/com/creatorfund/service/CommentService.java:92 | `CommentStatus.valueOf` succeeds exactly for ACTIVE and HIDDEN, the constants the code and its tests name; any other name fails with IllegalArgument "No enum constant com.creatorfund.model.CommentStatus." followed by the name |
| Comments.ValidateParentComment | backend/creatorfund/src/main/java/com/creatorfund/service/CommentService.java:97-102 | as written it never passes: a parent from another project gives "Parent comment must belong to the same project", and any other parent gives "Cannot reply to an inactive comment" |
| Comments.ActiveParentOnSameProjectRefused | backend/creatorfund/src/main/java/com/creatorfund/service/CommentService.java:101 | an ACTIVE parent on the same project, the case the service's reply test expects to succeed, is refused as inactive |
| Comments.ValidateModerator | backend/creatorfund/src/main/java/com/creatorfund/service/CommentService.java:104-111 | passes exactly for the project creator; otherwise it fails with "User is not authorized to moderate comments" |
| Comments.CommentService.CheckComment | backend/creatorfund/src/main/java/com/creatorfund/service/CommentService.java:35-47 | "User not found", "Project not found", "Parent comment not found", then the parent check; passes exactly for a root comment by a known user on a known project |
| Comments.CommentService.CreateComment | backend/creatorfund/src/main/java/com/creatorfund/service/CommentService.java:35-65 | fails exactly when the checks fail; on success one ACTIVE root comment is appended and the project creator gets one NEW_COMMENT notification; no reply is ever created |
| Comments.CommentService.UpdateCommentStatus | backend/creatorfund/src/main/java/com/creatorfund/service/CommentService.java:86-95 | "Comment not found", the moderator check ("User is not authorized to moderate comments"), then the status name, an unknown one failing with "No enum constant com.creatorfund.model.CommentStatus." followed by the name; on success only that comment's status changes |
| Comments.CommentService.GetProjectComments | backend/creatorfund/src/main/java/com/creatorfund/service/CommentService.java:67-70 | exactly the project's comments |
| Comments.CommentService.GetRootComments | backend/creatorfund/src/main/java/com/creatorfund/service/CommentService.java:72-77 | exactly the project's comments without a parent |
| Comments.CommentService.GetCommentReplies | backend/creatorfund/src/main/java/com/creatorfund/service/CommentService.java:79-84 | exactly the comments whose parent is the given one |
| Users.NewUser | backend/creatorfund/src/main/java/com/creatorfund/mapper/UserMapper.java:14-17 | a new user has role BACKER and status ACTIVE, with no password hash and no profile |
| Users.AddFreshEmailKeepsUnique | backend/creatorfund/src/main/java/com/creatorfund/service/UserService.java:42-48 | registering an unused address keeps e-mail addresses unique |
| Users.SameEmailKeepsUnique | backend/creatorfund/src/main/java/com/creatorfund/service/UserService.java:86-124 | a change that keeps the address keeps addresses unique |
| Users.UserService.CreateUser | backend/creatorfund/src/main/java/com/creatorfund/service/UserService.java:41-50 | fails with IllegalState "Email already exists", storing nothing, exactly when the address is taken; otherwise it adds exactly one new user |
| Users.UserService.GetUser | backend/creatorfund/src/main/java/com/creatorfund/service/UserService.java:52-56 | returns the stored user, or fails with "User not found" |
| Users.UserService.UpdateProfile | backend/creatorfund/src/main/java/com/creatorfund/service/UserService.java:58-72 | "User not found"; otherwise the user has a profile afterwards, and an existing one is left in place |
| Users.UserService.DeleteUser | backend/creatorfund/src/main/java/com/creatorfund/service/UserService.java:74-84 | "User not found", then "Cannot delete user with active projects" when the user created any project; otherwise exactly that user is removed |
| Users.UserService.UpdatePassword | backend/creatorfund/src/main/java/com/creatorfund/service/UserService.java:86-98 | "User not found", then "Invalid old password" unless the old password matches; on success only the hash changes, to the encoding of the new password |
| Users.UserService.GetUserProjects | backend/creatorfund/src/main/java/com/creatorfund/service/UserService.java:100-107 | "User not found", otherwise exactly the projects the user created |
| Users.UserService.GetUserPledges | backend/creatorfund/src/main/java/com/creatorfund/service/UserService.java:109-116 | "User not found", otherwise exactly the user's pledges |
| Users.UserService.UpdateStatus | backend/creatorfund/src/main/java/com/creatorfund/service/UserService.java:118-124 | "User not found", otherwise only the user's status changes |

## Behaviour of the source worth knowing

Each of these is modelled as the code is written.

- `createPledge` never calls `incrementBackerCount`. A tier's backer count
  therefore does not grow when someone pledges to it, and the capacity check
  in `validateRewardTier` only sees counts changed elsewhere.
- `processRefund` re-checks only the PENDING status, not the refundable
  remainder. Two pending refunds that each fit the remainder at creation can
  both be processed and together refund more than the transaction amount.
  `Refunds.TwoPendingRefundsCanOverRefund` exhibits such a case.
- `isTeamAdmin` uses `noneMatch`, so it answers "is not an admin". Its
  callers throw when the caller is not the creator and this helper holds.
  The two slips cancel out: the guard admits exactly the creator and ADMIN
  members (`Team.ValidateTeamManager`).
- `addTeamMember` and `updateTeamMember` parse the role name only after the
  permission checks, so an unknown role name surfaces as an
  IllegalArgument error at that point.
- `validateParentComment` ends in an unconditional throw, so no reply can
  ever be created. This contradicts the reply test in the service's test
  suite. The reply notification (`notifyCommentReply`) is therefore
  unreachable.
- `validateModerator` admits only the project creator, although its comment
  mentions team moderators.
- `updateProfile` in `UserService` applies none of the request's fields. It
  only makes sure a profile exists.
- `deleteUser` checks the user's projects but not the user's pledges,
  although its comment mentions both.
- Renaming a category to a case variant of its own name is refused, because
  the case-insensitive name check finds the category itself.
- `getOverdueMilestones` and `getUpcomingMilestones` ignore their
  `projectId` argument and select milestones of every project.
- `UserService.updatePassword` reads `getOldPassword()`, while the request
  class declares `currentPassword`. The model takes the old password as a
  parameter.
- `ProjectCategoryService.hasProjects` reads a `projects` collection that the
  category entity does not declare. The model reads it as "some project has
  this category", through a project-to-category map.
- The `UserProfile` entity declares its skills and interests as string lists,
  but the service and the mapper treat them as `UserSkill`/`UserInterest`
  rows. The model follows the service: rows that point back to their profile.

## Left out

- Notification message texts (`String.format`, including money formatting) are not modelled. Only the recipient, the type and the reference id are kept.
- Comments.ParseCommentStatus / Milestones.MilestoneStatus: the enum declarations (CommentStatus, MilestoneStatus, ProjectStatus, PledgeStatus, TeamRole, UpdateType) are not part of this model; each datatype holds only the constants the code and its tests reference, so a constant the real enum may add is not modelled.
- Notification type strings map to `Domain.NotificationType` constructors. The enum file is not part of this model.
- Repository ordering by creation time (`OrderByCreatedAtDesc`, the conversation order) is left out: creation timestamps are not modelled. Listings state which elements they contain, not their order, except the target-date orderings.
- Paging (`Pageable`) of `getProjectComments` and `getConversations` is not modelled, and `getConversations` itself is left out (a repository query grouping messages by partner).
- Refunds.CancelledRefund / Refunds.RefundService.CancelRefund: the refund entity's `@PreUpdate` hook also stamps `processedAt` when a refund is cancelled; the model keeps the old `processedAt` and stamps it only on processing, since timestamps are not modelled.
- Other `@PrePersist`/`@PreUpdate` timestamp hooks (creation and update times) are not modelled.
- The database collation behind `existsByNameIgnoreCase` is not modelled: its upper-casing is the `upper` parameter of the category name checks, fixed when the `CategoryService` is built.
- Read-only pass-throughs not named among the core operations are left out: `getProjectRefunds`, `getProjectRewardTiers`, `getRewardTier`, `getCategory`, `getRootCategories`, `getSubcategories`, `searchCategories`, `getUserProfile`, `findUsersBySkill`, `findUsersByInterest` and `ProjectTeamService.getUserProjects`.
- `UserProfileService.searchProfiles` (criteria-builder plumbing) and `UserProfileMapper.mapSocialLinksToMap` (a JSON parse in a foreign library) are left out.
- `PasswordEncoder` is not modelled: `matches` and `encode` are function parameters of `Users.UserService.UpdatePassword`. A user without a stored hash is taken never to match.
- `Users.UserService.UpdateProfile`: the request parameter is dropped, since the source never reads it.
- Bean-validation annotations on request classes (`@NotBlank`, `@Size`, `@Min`) are not modelled. They run before the service is entered.
- `BigDecimal` amounts are integers in minor units; the scale of `compareTo` is not modelled.
- Concurrency and database transactions are left out. Each call runs alone, and a failed call changes nothing.
- Controllers, mappers' response shapes and `ProjectService` are not part of this model.
