/**
 * TransactionService: records the payment transaction of a pledge and looks
 * transactions up by id.
 */
module Transactions {
  import opened Domain

  class TransactionService {
    /** The transaction table, by id. */
    var transactions: map<TransactionId, Transaction>

    constructor (initial: map<TransactionId, Transaction>)
      ensures transactions == initial
    {
      transactions := initial;
    }

    /**
     * createTransactionForPledge: exactly one new row, keyed by the generated
     * id, carrying the pledge's id and amount, currency "USD", payment method
     * "card" and the mapper's constant status "PENDING"; every other row is
     * unchanged.
     */
    method CreateTransactionForPledge(pledgeId: PledgeId, pledge: Pledge, newId: TransactionId)
      requires newId !in transactions
      modifies this
      ensures transactions.Keys == old(transactions).Keys + {newId}
      ensures forall id :: id in old(transactions) ==> transactions[id] == old(transactions)[id]
      ensures transactions[newId].pledge == pledgeId
      ensures transactions[newId].amount == pledge.amount
      ensures transactions[newId].currency == "USD" && transactions[newId].paymentMethod == "card"
      ensures transactions[newId].status == "PENDING"
      ensures transactions == old(transactions)[newId := Transaction(pledgeId, pledge.amount, "USD", "PENDING", "card")]
    {
      var t := Transaction(pledge := pledgeId, amount := pledge.amount, currency := "USD",
                           status := "PENDING", paymentMethod := "card");
      transactions := transactions[newId := t];
    }

    /** getTransaction: the stored row, or "Transaction not found". */
    method GetTransaction(id: TransactionId) returns (r: Result<Transaction>)
      ensures r.Ok? <==> id in transactions
      ensures r.Ok? ==> r.value == transactions[id]
      ensures r.Err? ==> r.error == NotFound("Transaction not found")
    {
      if id in transactions {
        r := Ok(transactions[id]);
      } else {
        r := Err(NotFound("Transaction not found"));
      }
    }
  }
}
