/**
 * RefundService: refunds against a payment transaction. A refund is created
 * PENDING after checking it against what is still refundable, and then is
 * either processed (COMPLETED) or cancelled (CANCELLED).
 */
module Refunds {
  import opened Domain

  type RefundId = Uuid

  /** The status strings the service writes into a refund. */
  const PENDING: string := "PENDING"
  const COMPLETED: string := "COMPLETED"
  const CANCELLED: string := "CANCELLED"

  /**
   * A Refund row. `status` is a raw string column; `processedAt` is the
   * nullable timestamp set when the refund is processed.
   */
  datatype Refund = Refund(id: RefundId, transaction: TransactionId, amount: Money, reason: string,
                           status: string, processedAt: Option<Instant>)

  datatype RefundRequest = RefundRequest(transactionId: TransactionId, amount: Money, reason: string)

  // ---------------------------------------------------------------------
  // The refunded total of a transaction
  // ---------------------------------------------------------------------

  /** What one refund adds to the refunded total of transaction `tx`. */
  function Counted(r: Refund, tx: TransactionId): (c: Money)
    ensures c == 0 || c == r.amount
    ensures c != 0 ==> r.transaction == tx && r.status == COMPLETED
  {
    if r.transaction == tx && r.status == COMPLETED then r.amount else 0
  }

  /**
   * The total of the COMPLETED refunds of transaction `tx`: the refunds found
   * by transaction id, filtered on COMPLETED, mapped to their amounts and
   * summed from zero. PENDING and CANCELLED refunds do not count.
   */
  function CompletedTotal(refunds: seq<Refund>, tx: TransactionId): (total: Money)
    ensures (forall i :: 0 <= i < |refunds| ==> refunds[i].amount >= 0) ==> total >= 0
    ensures (forall i :: 0 <= i < |refunds| ==> refunds[i].transaction != tx || refunds[i].status != COMPLETED) ==> total == 0
  {
    if refunds == [] then 0 else Counted(refunds[0], tx) + CompletedTotal(refunds[1..], tx)
  }

  /** The total of a store is the sum of the totals of its parts. */
  lemma {:induction false} CompletedTotalAppend(a: seq<Refund>, b: seq<Refund>, tx: TransactionId)
    ensures CompletedTotal(a + b, tx) == CompletedTotal(a, tx) + CompletedTotal(b, tx)
  {
    if a == [] {
      assert a + b == b;
    } else {
      assert (a + b)[1..] == a[1..] + b;
      CompletedTotalAppend(a[1..], b, tx);
    }
  }

  /** Replacing one stored refund changes the total by the difference of their contributions. */
  lemma CompletedTotalUpdate(refunds: seq<Refund>, i: nat, r': Refund, tx: TransactionId)
    requires i < |refunds|
    ensures CompletedTotal(refunds[i := r'], tx) == CompletedTotal(refunds, tx) - Counted(refunds[i], tx) + Counted(r', tx)
  {
    var before, after := refunds[..i], refunds[i + 1..];
    assert refunds == before + [refunds[i]] + after;
    assert refunds[i := r'] == before + [r'] + after;
    CompletedTotalAppend(before + [refunds[i]], after, tx);
    CompletedTotalAppend(before, [refunds[i]], tx);
    CompletedTotalAppend(before + [r'], after, tx);
    CompletedTotalAppend(before, [r'], tx);
  }

  // ---------------------------------------------------------------------
  // Validators
  // ---------------------------------------------------------------------

  /**
   * validateRefundRequest: the transaction must be COMPLETED, the amount may
   * not exceed the transaction amount, nor what remains after the COMPLETED
   * refunds of that transaction.
   */
  function ValidateRefundRequest(transaction: Transaction, txId: TransactionId, amount: Money, refunds: seq<Refund>): (r: Outcome)
    ensures r.Pass? <==>
      transaction.status == COMPLETED && amount <= transaction.amount &&
      amount <= transaction.amount - CompletedTotal(refunds, txId)
    ensures transaction.status != COMPLETED ==> r == Fail(Validation("Transaction is not in a refundable state"))
    ensures transaction.status == COMPLETED && amount > transaction.amount ==>
      r == Fail(Validation("Refund amount cannot exceed transaction amount"))
    ensures transaction.status == COMPLETED && amount <= transaction.amount && r.Fail? ==>
      r.error == Validation("Requested refund amount exceeds refundable amount")
  {
    if transaction.status != COMPLETED then
      Fail(Validation("Transaction is not in a refundable state"))
    else if amount > transaction.amount then
      Fail(Validation("Refund amount cannot exceed transaction amount"))
    else if amount > transaction.amount - CompletedTotal(refunds, txId) then
      Fail(Validation("Requested refund amount exceeds refundable amount"))
    else
      Pass
  }

  /** validateRefundProcessing: only a PENDING refund may be processed. */
  function ValidateRefundProcessing(refund: Refund): (r: Outcome)
    ensures r.Pass? <==> refund.status == PENDING
    ensures r.Fail? ==> r.error == Validation("Only pending refunds can be processed")
  {
    if refund.status != PENDING then Fail(Validation("Only pending refunds can be processed")) else Pass
  }

  /** validateRefundCancellation: only a PENDING refund may be cancelled. */
  function ValidateRefundCancellation(refund: Refund): (r: Outcome)
    ensures r.Pass? <==> refund.status == PENDING
    ensures r.Fail? ==> r.error == Validation("Only pending refunds can be cancelled")
  {
    if refund.status != PENDING then Fail(Validation("Only pending refunds can be cancelled")) else Pass
  }

  // ---------------------------------------------------------------------
  // State changes of one refund
  // ---------------------------------------------------------------------

  /** The refund createRefund saves: the request's fields, the transaction, status PENDING. */
  function NewRefund(id: RefundId, request: RefundRequest): (r: Refund)
    ensures r.id == id && r.transaction == request.transactionId && r.amount == request.amount
    ensures r.reason == request.reason && r.status == PENDING && r.processedAt.None?
  {
    Refund(id, request.transactionId, request.amount, request.reason, PENDING, None)
  }

  /** The refund processRefund saves. */
  function ProcessedRefund(r: Refund, now: Instant): (r': Refund)
    ensures r'.status == COMPLETED && r'.processedAt == Some(now)
    ensures r'.id == r.id && r'.transaction == r.transaction && r'.amount == r.amount && r'.reason == r.reason
  {
    r.(status := COMPLETED, processedAt := Some(now))
  }

  /** The refund cancelRefund saves. */
  function CancelledRefund(r: Refund): (r': Refund)
    ensures r'.status == CANCELLED
    ensures r'.id == r.id && r'.transaction == r.transaction && r'.amount == r.amount
    ensures r'.reason == r.reason && r'.processedAt == r.processedAt
  {
    r.(status := CANCELLED)
  }

  /** COMPLETED and CANCELLED are terminal: neither operation applies to them again. */
  lemma ProcessedAndCancelledAreTerminal(r: Refund, now: Instant)
    ensures ValidateRefundProcessing(ProcessedRefund(r, now)).Fail? && ValidateRefundCancellation(ProcessedRefund(r, now)).Fail?
    ensures ValidateRefundProcessing(CancelledRefund(r)).Fail? && ValidateRefundCancellation(CancelledRefund(r)).Fail?
  {
  }

  // ---------------------------------------------------------------------
  // The refunded total under the three operations
  // ---------------------------------------------------------------------

  /** No transaction has COMPLETED refunds beyond its amount. */
  ghost predicate WithinTransactionAmounts(refunds: seq<Refund>, transactions: map<TransactionId, Transaction>)
  {
    forall tx :: tx in transactions ==> CompletedTotal(refunds, tx) <= transactions[tx].amount
  }

  /** Creating a refund adds a PENDING row, which leaves every transaction's total as it was. */
  lemma CreateKeepsTotals(refunds: seq<Refund>, id: RefundId, request: RefundRequest, tx: TransactionId)
    ensures CompletedTotal(refunds + [NewRefund(id, request)], tx) == CompletedTotal(refunds, tx)
  {
    CompletedTotalAppend(refunds, [NewRefund(id, request)], tx);
  }

  /** Cancelling a PENDING refund leaves every transaction's total as it was. */
  lemma CancelKeepsTotals(refunds: seq<Refund>, i: nat, tx: TransactionId)
    requires i < |refunds| && refunds[i].status == PENDING
    ensures CompletedTotal(refunds[i := CancelledRefund(refunds[i])], tx) == CompletedTotal(refunds, tx)
  {
    CompletedTotalUpdate(refunds, i, CancelledRefund(refunds[i]), tx);
  }

  /**
   * Processing a PENDING refund adds its amount to its own transaction's
   * total and leaves every other transaction's total as it was.
   */
  lemma ProcessAddsAmount(refunds: seq<Refund>, i: nat, now: Instant, tx: TransactionId)
    requires i < |refunds| && refunds[i].status == PENDING
    ensures tx == refunds[i].transaction ==>
      CompletedTotal(refunds[i := ProcessedRefund(refunds[i], now)], tx) == CompletedTotal(refunds, tx) + refunds[i].amount
    ensures tx != refunds[i].transaction ==>
      CompletedTotal(refunds[i := ProcessedRefund(refunds[i], now)], tx) == CompletedTotal(refunds, tx)
  {
    CompletedTotalUpdate(refunds, i, ProcessedRefund(refunds[i], now), tx);
  }

  /** Creation and cancellation keep every transaction within its amount. */
  lemma CreateAndCancelKeepWithinAmounts(refunds: seq<Refund>, transactions: map<TransactionId, Transaction>,
                                         id: RefundId, request: RefundRequest, i: nat)
    requires WithinTransactionAmounts(refunds, transactions)
    requires i < |refunds| && refunds[i].status == PENDING
    ensures WithinTransactionAmounts(refunds + [NewRefund(id, request)], transactions)
    ensures WithinTransactionAmounts(refunds[i := CancelledRefund(refunds[i])], transactions)
  {
    forall tx | tx in transactions
      ensures CompletedTotal(refunds + [NewRefund(id, request)], tx) <= transactions[tx].amount
      ensures CompletedTotal(refunds[i := CancelledRefund(refunds[i])], tx) <= transactions[tx].amount
    {
      CreateKeepsTotals(refunds, id, request, tx);
      CancelKeepsTotals(refunds, i, tx);
    }
  }

  /**
   * Processing keeps every transaction within its amount when the processed
   * refund still fits in what is refundable at the moment it is processed:
   * the check that createRefund makes and processRefund does not repeat.
   */
  lemma ProcessWithinRemainderKeepsWithinAmounts(refunds: seq<Refund>, transactions: map<TransactionId, Transaction>,
                                                 i: nat, now: Instant)
    requires WithinTransactionAmounts(refunds, transactions)
    requires i < |refunds| && refunds[i].status == PENDING
    requires refunds[i].transaction in transactions
    requires refunds[i].amount <= transactions[refunds[i].transaction].amount - CompletedTotal(refunds, refunds[i].transaction)
    ensures WithinTransactionAmounts(refunds[i := ProcessedRefund(refunds[i], now)], transactions)
  {
    forall tx | tx in transactions
      ensures CompletedTotal(refunds[i := ProcessedRefund(refunds[i], now)], tx) <= transactions[tx].amount
    {
      ProcessAddsAmount(refunds, i, now, tx);
    }
  }

  /**
   * processRefund does not re-check the remainder, so two PENDING refunds
   * that each passed createRefund can together refund more than the
   * transaction: a COMPLETED transaction of 100, two refunds of 60 created
   * one after the other (each within the remainder of 100 when created),
   * then both processed, leave a COMPLETED total of 120.
   */
  lemma TwoPendingRefundsCanOverRefund()
    ensures exists transaction: Transaction, s0: seq<Refund>, r1: RefundRequest, r2: RefundRequest ::
      var s1 := s0 + [NewRefund(1, r1)];
      var s2 := s1 + [NewRefund(2, r2)];
      var s3 := s2[0 := ProcessedRefund(s2[0], 10)];
      var s4 := s3[1 := ProcessedRefund(s3[1], 11)];
      && WithinTransactionAmounts(s0, map[0 := transaction])
      && ValidateRefundRequest(transaction, 0, r1.amount, s0).Pass?
      && ValidateRefundRequest(transaction, 0, r2.amount, s1).Pass?
      && ValidateRefundProcessing(s2[0]).Pass?
      && ValidateRefundProcessing(s3[1]).Pass?
      && !WithinTransactionAmounts(s4, map[0 := transaction])
  {
    var transaction := Transaction(0, 100, "USD", COMPLETED, "card");
    var s0: seq<Refund> := [];
    var r1 := RefundRequest(0, 60, "first");
    var r2 := RefundRequest(0, 60, "second");
    var s1 := s0 + [NewRefund(1, r1)];
    var s2 := s1 + [NewRefund(2, r2)];
    var s3 := s2[0 := ProcessedRefund(s2[0], 10)];
    var s4 := s3[1 := ProcessedRefund(s3[1], 11)];
    assert CompletedTotal(s1, 0) == 0;
    assert CompletedTotal(s4, 0) == 120 by {
      assert s4 == [ProcessedRefund(NewRefund(1, r1), 10), ProcessedRefund(NewRefund(2, r2), 11)];
      assert s4[1..] == [ProcessedRefund(NewRefund(2, r2), 11)];
    }
    assert !WithinTransactionAmounts(s4, map[0 := transaction]);
  }

  /**
   * The worked example of the refund rules: a COMPLETED transaction of
   * 100.00 with a COMPLETED refund of 30.00 can still be refunded 70.00 but
   * not 71.00.
   */
  lemma RemainderExample()
    ensures
      var transaction := Transaction(0, 10000, "USD", COMPLETED, "card");
      var refunds := [Refund(1, 0, 3000, "partial", COMPLETED, Some(5))];
      && ValidateRefundRequest(transaction, 0, 7000, refunds).Pass?
      && ValidateRefundRequest(transaction, 0, 7100, refunds) == Fail(Validation("Requested refund amount exceeds refundable amount"))
  {
    var refunds := [Refund(1, 0, 3000, "partial", COMPLETED, Some(5))];
    assert refunds[1..] == [];
    assert CompletedTotal(refunds, 0) == 3000;
  }

  // ---------------------------------------------------------------------
  // Lookup
  // ---------------------------------------------------------------------

  /** findById on the refund store: the position of the first refund with that id. */
  function FindRefund(refunds: seq<Refund>, id: RefundId): (r: Option<nat>)
    ensures r.Some? ==> r.value < |refunds| && refunds[r.value].id == id
    ensures r.None? <==> forall j :: 0 <= j < |refunds| ==> refunds[j].id != id
  {
    FirstIndex(refunds, (x: Refund) => x.id == id)
  }

  // ---------------------------------------------------------------------
  // The service
  // ---------------------------------------------------------------------

  class RefundService {
    var refunds: seq<Refund>
    var transactions: map<TransactionId, Transaction>
    var pledges: map<PledgeId, Pledge>
    ghost var notifications: seq<Notification>

    /**
     * Every refund names a stored transaction, every transaction a stored
     * pledge (the non-null foreign keys), and refund ids are unique.
     */
    ghost predicate Valid()
      reads this
    {
      && (forall i :: 0 <= i < |refunds| ==> refunds[i].transaction in transactions)
      && (forall t :: t in transactions ==> transactions[t].pledge in pledges)
      && (forall i, j :: 0 <= i < j < |refunds| ==> refunds[i].id != refunds[j].id)
    }

    /** The user whose pledge a transaction pays for: the recipient of its refund notifications. */
    ghost function BackerOf(tx: TransactionId): UserId
      reads this
      requires Valid() && tx in transactions
    {
      pledges[transactions[tx].pledge].backer
    }

    constructor (initialTransactions: map<TransactionId, Transaction>, initialPledges: map<PledgeId, Pledge>)
      requires forall t :: t in initialTransactions ==> initialTransactions[t].pledge in initialPledges
      ensures Valid()
      ensures refunds == [] && transactions == initialTransactions && pledges == initialPledges && notifications == []
    {
      refunds := [];
      transactions := initialTransactions;
      pledges := initialPledges;
      notifications := [];
    }

    /**
     * createRefund: "Transaction not found", then validateRefundRequest; on
     * success one PENDING refund is appended (nothing else in the store
     * changes) and the backer gets one REFUND_INITIATED notification.
     */
    method CreateRefund(request: RefundRequest, newId: RefundId) returns (r: Result<RefundId>)
      requires Valid()
      requires forall i :: 0 <= i < |refunds| ==> refunds[i].id != newId
      modifies this
      ensures Valid() && transactions == old(transactions) && pledges == old(pledges)
      ensures request.transactionId !in transactions ==> r == Err(NotFound("Transaction not found"))
      ensures request.transactionId in transactions ==>
        (r.Ok? <==> ValidateRefundRequest(transactions[request.transactionId], request.transactionId, request.amount, old(refunds)).Pass?)
      ensures request.transactionId in transactions &&
              ValidateRefundRequest(transactions[request.transactionId], request.transactionId, request.amount, old(refunds)).Fail? ==>
        r == Err(ValidateRefundRequest(transactions[request.transactionId], request.transactionId, request.amount, old(refunds)).error)
      ensures r.Err? ==> refunds == old(refunds) && notifications == old(notifications)
      ensures r.Ok? ==> r.value == newId && refunds == old(refunds) + [NewRefund(newId, request)]
      ensures r.Ok? ==> notifications == old(notifications) + [Notification(BackerOf(request.transactionId), RefundInitiated, newId)]
    {
      if request.transactionId !in transactions {
        return Err(NotFound("Transaction not found"));
      }
      var check := ValidateRefundRequest(transactions[request.transactionId], request.transactionId, request.amount, refunds);
      if check.Fail? {
        return Err(check.error);
      }
      refunds := refunds + [NewRefund(newId, request)];
      notifications := notifications + [Notification(BackerOf(request.transactionId), RefundInitiated, newId)];
      r := Ok(newId);
    }

    /**
     * processRefund: "Refund not found", then validateRefundProcessing; on
     * success that refund alone becomes COMPLETED with processedAt = now, and
     * the backer gets one REFUND_PROCESSED notification.
     */
    method ProcessRefund(id: RefundId, now: Instant) returns (r: Outcome)
      requires Valid()
      modifies this
      ensures Valid() && transactions == old(transactions) && pledges == old(pledges)
      ensures FindRefund(old(refunds), id).None? ==> r == Fail(NotFound("Refund not found"))
      ensures FindRefund(old(refunds), id).Some? ==>
        r == ValidateRefundProcessing(old(refunds)[FindRefund(old(refunds), id).value])
      ensures r.Fail? ==> refunds == old(refunds) && notifications == old(notifications)
      ensures r.Pass? ==>
        var i := FindRefund(old(refunds), id).value;
        && refunds == old(refunds)[i := ProcessedRefund(old(refunds)[i], now)]
        && notifications == old(notifications) + [Notification(BackerOf(old(refunds)[i].transaction), RefundProcessed, id)]
    {
      var found := FindRefund(refunds, id);
      if found.None? {
        return Fail(NotFound("Refund not found"));
      }
      var i := found.value;
      r := ValidateRefundProcessing(refunds[i]);
      if r.Fail? {
        return;
      }
      var tx := refunds[i].transaction;
      refunds := refunds[i := ProcessedRefund(refunds[i], now)];
      notifications := notifications + [Notification(BackerOf(tx), RefundProcessed, id)];
    }

    /**
     * cancelRefund: "Refund not found", then validateRefundCancellation; on
     * success that refund alone becomes CANCELLED, and the backer gets one
     * REFUND_CANCELLED notification.
     */
    method CancelRefund(id: RefundId) returns (r: Outcome)
      requires Valid()
      modifies this
      ensures Valid() && transactions == old(transactions) && pledges == old(pledges)
      ensures FindRefund(old(refunds), id).None? ==> r == Fail(NotFound("Refund not found"))
      ensures FindRefund(old(refunds), id).Some? ==>
        r == ValidateRefundCancellation(old(refunds)[FindRefund(old(refunds), id).value])
      ensures r.Fail? ==> refunds == old(refunds) && notifications == old(notifications)
      ensures r.Pass? ==>
        var i := FindRefund(old(refunds), id).value;
        && refunds == old(refunds)[i := CancelledRefund(old(refunds)[i])]
        && notifications == old(notifications) + [Notification(BackerOf(old(refunds)[i].transaction), RefundCancelled, id)]
    {
      var found := FindRefund(refunds, id);
      if found.None? {
        return Fail(NotFound("Refund not found"));
      }
      var i := found.value;
      r := ValidateRefundCancellation(refunds[i]);
      if r.Fail? {
        return;
      }
      var tx := refunds[i].transaction;
      refunds := refunds[i := CancelledRefund(refunds[i])];
      notifications := notifications + [Notification(BackerOf(tx), RefundCancelled, id)];
    }

    /** getTransactionRefunds: the refunds of one transaction, in store order. */
    method GetTransactionRefunds(tx: TransactionId) returns (rs: seq<Refund>)
      ensures forall i :: 0 <= i < |rs| ==> rs[i] in refunds && rs[i].transaction == tx
      ensures forall i :: 0 <= i < |refunds| && refunds[i].transaction == tx ==> refunds[i] in rs
    {
      rs := Filter(refunds, (r: Refund) => r.transaction == tx);
    }
  }
}
