/**
 * PledgeService: validates a pledge against its reward tier, stores it and
 * has TransactionService record its transaction.
 */
module Pledges {
  import opened Domain
  import RewardTiers
  import Transactions

  /**
   * validateRewardTier: the minimum-amount check first, then the capacity
   * check (a null limit never blocks).
   */
  function ValidateRewardTier(tier: RewardTier, amount: Money): (r: Outcome)
    ensures amount < tier.amount ==> r == Fail(IllegalState("Pledge amount is less than reward tier minimum"))
    ensures amount >= tier.amount && tier.limitCount.Some? && tier.currentBackers >= tier.limitCount.value ==>
      r == Fail(IllegalState("Reward tier is no longer available"))
    ensures r.Pass? <==> amount >= tier.amount && RewardTiers.IsAvailable(tier)
  {
    if amount < tier.amount then
      Fail(IllegalState("Pledge amount is less than reward tier minimum"))
    else if tier.limitCount.Some? && tier.currentBackers >= tier.limitCount.value then
      Fail(IllegalState("Reward tier is no longer available"))
    else
      Pass
  }

  /**
   * The capacity half of validateRewardTier agrees with the "available
   * tiers" query of RewardTierService: a pledge large enough for a tier of
   * the project passes exactly when that tier is listed as available.
   */
  lemma CapacityCheckMatchesAvailableTiers(tiers: map<TierId, RewardTier>, id: TierId, amount: Money)
    requires id in tiers && amount >= tiers[id].amount
    ensures ValidateRewardTier(tiers[id], amount).Pass? <==> id in RewardTiers.AvailableTierIds(tiers, tiers[id].project)
  {
  }

  datatype PledgeRequest = PledgeRequest(amount: Money, projectId: ProjectId, rewardTierId: Option<TierId>, anonymous: bool)

  /**
   * The checks of createPledge, in the order it runs them: project, backer,
   * reward tier lookup, then validateRewardTier.
   */
  function CheckPledge(request: PledgeRequest, backerId: UserId, projects: map<ProjectId, Project>,
                       users: set<UserId>, tiers: map<TierId, RewardTier>): (r: Outcome)
    ensures request.projectId !in projects ==> r == Fail(NotFound("Project not found"))
    ensures request.projectId in projects && backerId !in users ==> r == Fail(NotFound("User not found"))
    ensures (request.projectId in projects && backerId in users && request.rewardTierId.Some? &&
             request.rewardTierId.value !in tiers) ==> r == Fail(NotFound("Reward tier not found"))
    ensures request.projectId in projects && backerId in users && request.rewardTierId.None? ==> r.Pass?
    ensures (request.projectId in projects && backerId in users && request.rewardTierId.Some? &&
             request.rewardTierId.value in tiers) ==> r == ValidateRewardTier(tiers[request.rewardTierId.value], request.amount)
  {
    if request.projectId !in projects then Fail(NotFound("Project not found"))
    else if backerId !in users then Fail(NotFound("User not found"))
    else if request.rewardTierId.None? then Pass
    else if request.rewardTierId.value !in tiers then Fail(NotFound("Reward tier not found"))
    else ValidateRewardTier(tiers[request.rewardTierId.value], request.amount)
  }

  /**
   * Each pledge has exactly one transaction and each transaction belongs to
   * a stored pledge, for the pledge's amount.
   */
  ghost predicate OneTransactionPerPledge(pledges: map<PledgeId, Pledge>, transactions: map<TransactionId, Transaction>)
  {
    && (forall t :: t in transactions ==>
          transactions[t].pledge in pledges && transactions[t].amount == pledges[transactions[t].pledge].amount)
    && (forall t1, t2 :: t1 in transactions && t2 in transactions && transactions[t1].pledge == transactions[t2].pledge ==> t1 == t2)
    && pledges.Keys == set t | t in transactions :: transactions[t].pledge
  }

  /** Every pledge that names a reward tier met that tier's minimum amount. */
  ghost predicate PledgesMeetTierMinimum(pledges: map<PledgeId, Pledge>, tiers: map<TierId, RewardTier>)
  {
    forall p :: p in pledges && pledges[p].rewardTier.Some? ==>
      pledges[p].rewardTier.value in tiers && pledges[p].amount >= tiers[pledges[p].rewardTier.value].amount
  }

  /**
   * Storing a new pledge together with its one new transaction keeps the
   * one-to-one correspondence.
   */
  lemma {:induction false} AddPledgeKeepsOneTransaction(pledges: map<PledgeId, Pledge>, transactions: map<TransactionId, Transaction>,
                                      p: PledgeId, pledge: Pledge, t: TransactionId, tx: Transaction)
    requires OneTransactionPerPledge(pledges, transactions)
    requires p !in pledges && t !in transactions
    requires tx.pledge == p && tx.amount == pledge.amount
    ensures OneTransactionPerPledge(pledges[p := pledge], transactions[t := tx])
  {
    var pledges', transactions' := pledges[p := pledge], transactions[t := tx];
    forall t1, t2 | t1 in transactions' && t2 in transactions' && transactions'[t1].pledge == transactions'[t2].pledge
      ensures t1 == t2
    {
      if t1 != t && t2 != t {
        assert transactions[t1].pledge == transactions[t2].pledge;
      }
    }
    var owners := set u | u in transactions :: transactions[u].pledge;
    var owners' := set u | u in transactions' :: transactions'[u].pledge;
    assert owners' == owners + {p} by {
      forall x | x in owners' ensures x in owners + {p} {
        var u :| u in transactions' && transactions'[u].pledge == x;
        if u != t { assert transactions[u].pledge == x; }
      }
      forall x | x in owners + {p} ensures x in owners' {
        if x == p {
          assert transactions'[t].pledge == x;
        } else {
          var u :| u in transactions && transactions[u].pledge == x;
          assert u != t && transactions'[u].pledge == x;
        }
      }
    }
  }

  class PledgeService {
    var pledges: map<PledgeId, Pledge>
    var projects: map<ProjectId, Project>
    var users: set<UserId>
    var tiers: map<TierId, RewardTier>
    const transactionService: Transactions.TransactionService

    ghost predicate Valid()
      reads this, transactionService
    {
      OneTransactionPerPledge(pledges, transactionService.transactions) &&
      PledgesMeetTierMinimum(pledges, tiers)
    }

    constructor (ts: Transactions.TransactionService, initialProjects: map<ProjectId, Project>,
                 initialUsers: set<UserId>, initialTiers: map<TierId, RewardTier>)
      requires ts.transactions == map[]
      ensures Valid() && transactionService == ts
      ensures pledges == map[] && projects == initialProjects && users == initialUsers && tiers == initialTiers
    {
      transactionService := ts;
      pledges := map[];
      projects := initialProjects;
      users := initialUsers;
      tiers := initialTiers;
    }

    /**
     * createPledge: on a failed check nothing is stored; otherwise the pledge
     * is stored with status PENDING and its tier (if any), and exactly one
     * transaction is recorded for it (USD, card, PENDING, the pledged
     * amount), every earlier transaction left as it was. Reward tiers are never touched, so the
     * tier's currentBackers is unchanged.
     */
    method CreatePledge(request: PledgeRequest, backerId: UserId, newPledgeId: PledgeId, newTransactionId: TransactionId)
      returns (r: Result<PledgeId>)
      requires Valid()
      requires newPledgeId !in pledges && newTransactionId !in transactionService.transactions
      modifies this, transactionService
      ensures Valid()
      ensures tiers == old(tiers) && projects == old(projects) && users == old(users)
      ensures r.Err? <==> CheckPledge(request, backerId, projects, users, tiers).Fail?
      ensures r.Err? ==> r.error == CheckPledge(request, backerId, projects, users, tiers).error
      ensures r.Err? ==> pledges == old(pledges) && transactionService.transactions == old(transactionService.transactions)
      ensures r.Ok? ==> r.value == newPledgeId
      ensures r.Ok? ==> pledges == old(pledges)[newPledgeId := Pledge(backerId, request.projectId, request.rewardTierId,
                                                      request.amount, PledgeStatus.Pending, request.anonymous)]
      ensures r.Ok? ==>
        transactionService.transactions ==
        old(transactionService.transactions)[newTransactionId := Transaction(newPledgeId, request.amount, "USD", "PENDING", "card")]
    {
      var check := CheckPledge(request, backerId, projects, users, tiers);
      if check.Fail? {
        return Err(check.error);
      }
      var pledge := Pledge(backerId, request.projectId, request.rewardTierId, request.amount, PledgeStatus.Pending, request.anonymous);
      ghost var oldTransactions := transactionService.transactions;
      pledges := pledges[newPledgeId := pledge];
      transactionService.CreateTransactionForPledge(newPledgeId, pledge, newTransactionId);
      assert transactionService.transactions == oldTransactions[newTransactionId := transactionService.transactions[newTransactionId]];
      AddPledgeKeepsOneTransaction(old(pledges), oldTransactions, newPledgeId, pledge,
                                   newTransactionId, transactionService.transactions[newTransactionId]);
      r := Ok(newPledgeId);
    }
  }
}
