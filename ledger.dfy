/**
 * The ledger view of the stored collections. A user's balance is explained by
 * two sums over record ids: the amounts of that user's approved transactions
 * (credited) and the total costs of that user's orders (spent). Ids are drawn
 * from one counter, so "every record" is "every id below the counter".
 */
module Ledger {
  import opened Records

  /** Every key of m is below n: a record id already drawn from the counter. */
  predicate AllBelow<T>(m: map<Id, T>, n: nat)
  {
    forall k :: k in m ==> k < n
  }

  /** What order `k` took from user `u`'s balance. */
  function Charge(orders: map<Id, Order>, u: Id, k: Id): real
  {
    if k in orders && orders[k].userId == u then orders[k].totalCost else 0.0
  }

  /** What transaction `k` added to user `u`'s balance. */
  function Credit(txs: map<Id, Transaction>, u: Id, k: Id): real
  {
    if k in txs && txs[k].userId == u && txs[k].status == Approved then txs[k].amount else 0.0
  }

  /** Total cost of u's orders among ids below n. */
  function Spent(orders: map<Id, Order>, u: Id, n: nat): real
  {
    if n == 0 then 0.0 else Spent(orders, u, n - 1) + Charge(orders, u, n - 1)
  }

  /** Total amount of u's approved transactions among ids below n. */
  function Credited(txs: map<Id, Transaction>, u: Id, n: nat): real
  {
    if n == 0 then 0.0 else Credited(txs, u, n - 1) + Credit(txs, u, n - 1)
  }

  /** Spending depends only on the charges below n. */
  lemma {:induction false} SpentAgree(orders: map<Id, Order>, other: map<Id, Order>, u: Id, n: nat)
    requires forall k: nat :: k < n ==> Charge(orders, u, k) == Charge(other, u, k)
    ensures Spent(orders, u, n) == Spent(other, u, n)
  {
    if n > 0 {
      SpentAgree(orders, other, u, n - 1);
    }
  }

  /** Credits depend only on the credit of each id below n. */
  lemma {:induction false} CreditedAgree(txs: map<Id, Transaction>, other: map<Id, Transaction>, u: Id, n: nat)
    requires forall k: nat :: k < n ==> Credit(txs, u, k) == Credit(other, u, k)
    ensures Credited(txs, u, n) == Credited(other, u, n)
  {
    if n > 0 {
      CreditedAgree(txs, other, u, n - 1);
    }
  }

  /** Changing the credit of one id j below n by d changes the total by d. */
  lemma {:induction false} CreditedBump(txs: map<Id, Transaction>, other: map<Id, Transaction>,
                                        u: Id, j: nat, n: nat, d: real)
    requires j < n
    requires forall k: nat :: k < n && k != j ==> Credit(txs, u, k) == Credit(other, u, k)
    requires Credit(other, u, j) == Credit(txs, u, j) + d
    ensures Credited(other, u, n) == Credited(txs, u, n) + d
  {
    if j == n - 1 {
      CreditedAgree(txs, other, u, n - 1);
    } else {
      CreditedBump(txs, other, u, j, n - 1, d);
    }
  }

  /** A user who owns no order has spent nothing. */
  lemma {:induction false} SpentNone(orders: map<Id, Order>, u: Id, n: nat)
    requires forall k :: k in orders ==> orders[k].userId != u
    ensures Spent(orders, u, n) == 0.0
  {
    if n > 0 {
      SpentNone(orders, u, n - 1);
    }
  }

  /** A user who owns no transaction has been credited nothing. */
  lemma {:induction false} CreditedNone(txs: map<Id, Transaction>, u: Id, n: nat)
    requires forall k :: k in txs ==> txs[k].userId != u
    ensures Credited(txs, u, n) == 0.0
  {
    if n > 0 {
      CreditedNone(txs, u, n - 1);
    }
  }

  /** Recording a new order under the next id adds its cost to its owner's
      spending and nothing to anybody else's. */
  lemma SpentAppend(orders: map<Id, Order>, o: Order, u: Id, n: nat)
    requires AllBelow(orders, n)
    ensures Spent(orders[n := o], u, n + 1)
         == Spent(orders, u, n) + (if o.userId == u then o.totalCost else 0.0)
  {
    var after := orders[n := o];
    SpentAgree(orders, after, u, n);
  }

  /** Drawing an id for some other kind of record leaves spending unchanged. */
  lemma SpentGrow(orders: map<Id, Order>, u: Id, n: nat)
    requires AllBelow(orders, n)
    ensures Spent(orders, u, n + 1) == Spent(orders, u, n)
  {
  }

  /** Replacing an order by one with the same owner and cost leaves every
      user's spending unchanged. */
  lemma SpentRestatus(orders: map<Id, Order>, id: Id, o: Order, u: Id, n: nat)
    requires id in orders
    requires o.userId == orders[id].userId && o.totalCost == orders[id].totalCost
    ensures Spent(orders[id := o], u, n) == Spent(orders, u, n)
  {
    var after := orders[id := o];
    SpentAgree(orders, after, u, n);
  }

  /** Recording a new pending transaction under the next id credits nobody. */
  lemma CreditedAppend(txs: map<Id, Transaction>, t: Transaction, u: Id, n: nat)
    requires AllBelow(txs, n)
    requires t.status == TxPending
    ensures Credited(txs[n := t], u, n + 1) == Credited(txs, u, n)
  {
    var after := txs[n := t];
    CreditedAgree(txs, after, u, n);
  }

  /** Drawing an id for some other kind of record leaves credits unchanged. */
  lemma CreditedGrow(txs: map<Id, Transaction>, u: Id, n: nat)
    requires AllBelow(txs, n)
    ensures Credited(txs, u, n + 1) == Credited(txs, u, n)
  {
  }

  /** Resolving one pending transaction credits its amount to its owner when
      the new status is approved, and credits nothing otherwise. */
  lemma CreditedResolve(txs: map<Id, Transaction>, id: Id, s: TxStatus, u: Id, n: nat)
    requires id in txs && id < n && txs[id].status == TxPending
    ensures Credited(txs[id := txs[id].(status := s)], u, n)
         == Credited(txs, u, n)
            + (if s == Approved && txs[id].userId == u then txs[id].amount else 0.0)
  {
    var after := txs[id := txs[id].(status := s)];
    var d := if s == Approved && txs[id].userId == u then txs[id].amount else 0.0;
    CreditedBump(txs, after, u, id, n, d);
  }

  /** The ids of the deposits still waiting for an admin. */
  function PendingDeposits(txs: map<Id, Transaction>): set<Id>
  {
    set k | k in txs && txs[k].txType == Deposit && txs[k].status == TxPending
  }

  /** A new pending deposit adds exactly one id to the waiting list. */
  lemma PendingAfterRequest(txs: map<Id, Transaction>, id: Id, t: Transaction)
    requires id !in txs
    requires t.txType == Deposit && t.status == TxPending
    ensures PendingDeposits(txs[id := t]) == PendingDeposits(txs) + {id}
    ensures |PendingDeposits(txs[id := t])| == |PendingDeposits(txs)| + 1
  {
  }

  /** Resolving a pending deposit removes exactly its id from the waiting list. */
  lemma PendingAfterResolve(txs: map<Id, Transaction>, id: Id, s: TxStatus)
    requires id in PendingDeposits(txs)
    requires s != TxPending
    ensures PendingDeposits(txs[id := txs[id].(status := s)]) == PendingDeposits(txs) - {id}
    ensures |PendingDeposits(txs[id := txs[id].(status := s)])| == |PendingDeposits(txs)| - 1
  {
  }
}
