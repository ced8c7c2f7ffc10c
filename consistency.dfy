/**
 * What the four collections always satisfy between requests, and one lemma per
 * state-changing handler saying that the handler's update keeps it. The ledger
 * part (Balanced) is the settlement invariant: a user's balance is their
 * opening balance, plus every approved deposit, less the cost of every order.
 */
module Consistency {
  import opened Records
  import opened Pricing
  import opened Ledger

  /** No two users share an email address. */
  predicate EmailsUnique(users: map<Id, User>)
  {
    forall a, b {:trigger SharesEmail(users, a, b)} :: a in users && b in users && SharesEmail(users, a, b) ==> a == b
  }

  /** Users `a` and `b` are both stored and have the same email. */
  predicate SharesEmail(users: map<Id, User>, a: Id, b: Id)
  {
    a in users && b in users && users[a].email == users[b].email
  }

  /** Every record is filed under its own id, and every id came from the counter. */
  ghost predicate Indexed(users: map<Id, User>, services: map<Id, Service>,
                          orders: map<Id, Order>, txs: map<Id, Transaction>, n: nat)
  {
    && AllBelow(users, n) && AllBelow(services, n) && AllBelow(orders, n) && AllBelow(txs, n)
    && (forall k :: k in users ==> users[k].id == k)
    && (forall k :: k in services ==> services[k].id == k)
    && (forall k :: k in orders ==> orders[k].id == k)
    && (forall k :: k in txs ==> txs[k].id == k)
  }

  /** An order as it was placed: its owner and its service exist, its quantity
      is within the service's bounds, it was charged the prorated rate, and if
      it is completed it carries a completion stamp. */
  ghost predicate OrderPlaced(o: Order, users: map<Id, User>, services: map<Id, Service>)
  {
    && o.userId in users
    && o.serviceId in services
    && services[o.serviceId].minQuantity <= o.quantity <= services[o.serviceId].maxQuantity
    && o.totalCost == OrderCost(o.quantity, services[o.serviceId].rate)
    && (o.status == Completed ==> o.completedAt.Some?)
  }

  /** A transaction as a deposit request files it: an existing owner, type
      deposit, and a positive amount. */
  ghost predicate DepositFiled(t: Transaction, users: map<Id, User>)
  {
    t.userId in users && t.txType == Deposit && t.amount > 0.0
  }

  ghost predicate Linked(users: map<Id, User>, services: map<Id, Service>,
                         orders: map<Id, Order>, txs: map<Id, Transaction>)
  {
    && (forall k :: k in orders ==> OrderPlaced(orders[k], users, services))
    && (forall k :: k in txs ==> DepositFiled(txs[k], users))
  }

  /** No balance is negative. */
  ghost predicate Solvent(users: map<Id, User>)
  {
    forall u :: u in users ==> users[u].balance >= 0.0
  }

  /** The ledger equation for one user: the balance is the opening balance,
      plus every approved deposit, less the cost of every order. */
  ghost predicate Settled(users: map<Id, User>, orders: map<Id, Order>,
                          txs: map<Id, Transaction>, opening: map<Id, real>, n: nat, u: Id)
    requires u in users && u in opening
  {
    users[u].balance == opening[u] + Credited(txs, u, n) - Spent(orders, u, n)
  }

  /** The ledger invariant, for every user. */
  ghost predicate Balanced(users: map<Id, User>, orders: map<Id, Order>,
                           txs: map<Id, Transaction>, opening: map<Id, real>, n: nat)
  {
    && opening.Keys == users.Keys
    && forall u {:trigger Settled(users, orders, txs, opening, n, u)} ::
         u in users ==> Settled(users, orders, txs, opening, n, u)
  }

  ghost predicate Consistent(users: map<Id, User>, services: map<Id, Service>,
                             orders: map<Id, Order>, txs: map<Id, Transaction>,
                             n: nat, opening: map<Id, real>)
  {
    && Indexed(users, services, orders, txs, n)
    && Linked(users, services, orders, txs)
    && EmailsUnique(users)
    && Solvent(users)
    && Balanced(users, orders, txs, opening, n)
  }

  /** A seeded database with no orders and no transactions is consistent, each
      user's opening balance being the seeded one. */
  lemma SeedConsistent(users: map<Id, User>, services: map<Id, Service>, n: nat)
    requires Indexed(users, services, map[], map[], n)
    requires EmailsUnique(users) && Solvent(users)
    ensures Consistent(users, services, map[], map[], n, map u | u in users :: users[u].balance)
  {
    var opening := map u | u in users :: users[u].balance;
    forall u | u in users
      ensures Settled(users, map[], map[], opening, n, u)
    {
      SpentNone(map[], u, n);
      CreditedNone(map[], u, n);
    }
  }

  /** Registration adds a user with balance 0 under the next id: consistency is
      kept as long as the email is new. */
  lemma RegisterKeeps(users: map<Id, User>, services: map<Id, Service>,
                      orders: map<Id, Order>, txs: map<Id, Transaction>,
                      n: nat, opening: map<Id, real>, newcomer: User)
    requires Consistent(users, services, orders, txs, n, opening)
    requires forall k :: k in users ==> users[k].email != newcomer.email
    requires newcomer.id == n && newcomer.balance == 0.0
    ensures Consistent(users[n := newcomer], services, orders, txs, n + 1, opening[n := 0.0])
  {
    var users' := users[n := newcomer];
    forall u | u in users'
      ensures Settled(users', orders, txs, opening[n := 0.0], n + 1, u)
    {
      SpentGrow(orders, u, n);
      CreditedGrow(txs, u, n);
      if u == n {
        SpentNone(orders, u, n);
        CreditedNone(txs, u, n);
      } else {
        assert Settled(users, orders, txs, opening, n, u);
      }
    }
    assert Linked(users', services, orders, txs) by {
      forall k | k in orders ensures OrderPlaced(orders[k], users', services) {
        assert OrderPlaced(orders[k], users, services);
      }
      forall k | k in txs ensures DepositFiled(txs[k], users') {
        assert DepositFiled(txs[k], users);
      }
    }
    assert EmailsUnique(users') by {
      forall a, b | a in users' && b in users' && SharesEmail(users', a, b) ensures a == b {
        if a != n && b != n {
          assert SharesEmail(users, a, b);
        }
      }
    }
  }

  /** Adding a catalog entry under the next id keeps consistency. */
  lemma ServiceKeeps(users: map<Id, User>, services: map<Id, Service>,
                     orders: map<Id, Order>, txs: map<Id, Transaction>,
                     n: nat, opening: map<Id, real>, s: Service)
    requires Consistent(users, services, orders, txs, n, opening)
    requires s.id == n
    ensures Consistent(users, services[n := s], orders, txs, n + 1, opening)
  {
    var services' := services[n := s];
    forall u | u in users
      ensures Settled(users, orders, txs, opening, n + 1, u)
    {
      assert Settled(users, orders, txs, opening, n, u);
      SpentGrow(orders, u, n);
      CreditedGrow(txs, u, n);
    }
    forall k | k in orders ensures OrderPlaced(orders[k], users, services') {
      assert OrderPlaced(orders[k], users, services);
    }
  }

  /** The ledger part of OrderKeeps. */
  lemma BalancedAfterOrder(users: map<Id, User>, orders: map<Id, Order>,
                           txs: map<Id, Transaction>, opening: map<Id, real>, n: nat, o: Order)
    requires Balanced(users, orders, txs, opening, n)
    requires AllBelow(orders, n) && AllBelow(txs, n) && o.userId in users
    ensures Balanced(users[o.userId := users[o.userId].(balance := users[o.userId].balance - o.totalCost)],
                     orders[n := o], txs, opening, n + 1)
  {
    var uid := o.userId;
    var users' := users[uid := users[uid].(balance := users[uid].balance - o.totalCost)];
    forall u | u in users'
      ensures Settled(users', orders[n := o], txs, opening, n + 1, u)
    {
      assert Settled(users, orders, txs, opening, n, u);
      SpentAppend(orders, o, u, n);
      CreditedGrow(txs, u, n);
    }
  }

  /** A placed order: recorded under the next id, and its cost debited from its
      owner, who could afford it. Consistency, and with it the ledger, is kept. */
  lemma OrderKeeps(users: map<Id, User>, services: map<Id, Service>,
                   orders: map<Id, Order>, txs: map<Id, Transaction>,
                   n: nat, opening: map<Id, real>, o: Order,
                   users': map<Id, User>, orders': map<Id, Order>)
    requires Consistent(users, services, orders, txs, n, opening)
    requires o.id == n && o.userId in users && o.status == Pending
    requires OrderPlaced(o, users, services)
    requires users[o.userId].balance >= o.totalCost
    requires users' == users[o.userId := users[o.userId].(balance := users[o.userId].balance - o.totalCost)]
    requires orders' == orders[n := o]
    ensures Consistent(users', services, orders', txs, n + 1, opening)
  {
    var uid := o.userId;
    BalancedAfterOrder(users, orders, txs, opening, n, o);
    assert Indexed(users', services, orders', txs, n + 1);
    assert Solvent(users');
    assert Linked(users', services, orders', txs) by {
      forall k | k in orders' ensures OrderPlaced(orders'[k], users', services) {
        if k != n {
          assert OrderPlaced(orders[k], users, services);
        }
      }
      forall k | k in txs ensures DepositFiled(txs[k], users') {
        assert DepositFiled(txs[k], users);
      }
    }
    assert EmailsUnique(users') by {
      forall a, b | a in users' && b in users' && SharesEmail(users', a, b) ensures a == b {
        assert SharesEmail(users, a, b);
      }
    }
  }

  /** A deposit request: a pending deposit under the next id, no balance touched. */
  lemma DepositKeeps(users: map<Id, User>, services: map<Id, Service>,
                     orders: map<Id, Order>, txs: map<Id, Transaction>,
                     n: nat, opening: map<Id, real>, t: Transaction)
    requires Consistent(users, services, orders, txs, n, opening)
    requires t.id == n && t.status == TxPending
    requires DepositFiled(t, users)
    ensures Consistent(users, services, orders, txs[n := t], n + 1, opening)
  {
    forall u | u in users
      ensures Settled(users, orders, txs[n := t], opening, n + 1, u)
    {
      assert Settled(users, orders, txs, opening, n, u);
      SpentGrow(orders, u, n);
      CreditedAppend(txs, t, u, n);
    }
  }

  /** The balances after a deposit is resolved: its amount credited to its owner
      when approved, nothing changed when rejected. */
  function Settle(users: map<Id, User>, t: Transaction, s: TxStatus): (users': map<Id, User>)
    requires t.userId in users
    ensures users'.Keys == users.Keys
    ensures forall u :: u in users && u != t.userId ==> users'[u] == users[u]
    ensures users'[t.userId].balance
         == users[t.userId].balance + (if s == Approved then t.amount else 0.0)
    ensures users'[t.userId] == users[t.userId].(balance := users'[t.userId].balance)
  {
    if s == Approved then
      users[t.userId := users[t.userId].(balance := users[t.userId].balance + t.amount)]
    else
      users
  }

  /** The ledger part of ResolveKeeps. */
  lemma BalancedAfterResolve(users: map<Id, User>, orders: map<Id, Order>,
                             txs: map<Id, Transaction>, opening: map<Id, real>,
                             n: nat, id: Id, s: TxStatus)
    requires Balanced(users, orders, txs, opening, n)
    requires id in txs && id < n && txs[id].status == TxPending && txs[id].userId in users
    ensures Balanced(Settle(users, txs[id], s), orders, txs[id := txs[id].(status := s)], opening, n)
  {
    var users' := Settle(users, txs[id], s);
    var txs' := txs[id := txs[id].(status := s)];
    forall u | u in users'
      ensures Settled(users', orders, txs', opening, n, u)
    {
      assert Settled(users, orders, txs, opening, n, u);
      CreditedResolve(txs, id, s, u, n);
    }
  }

  /** Resolving a pending deposit, once, keeps consistency: an approval's credit
      is matched by the transaction now counting as approved. */
  lemma ResolveKeeps(users: map<Id, User>, services: map<Id, Service>,
                     orders: map<Id, Order>, txs: map<Id, Transaction>,
                     n: nat, opening: map<Id, real>, id: Id, s: TxStatus)
    requires Consistent(users, services, orders, txs, n, opening)
    requires id in txs && txs[id].status == TxPending && s != TxPending
    ensures txs[id].userId in users
    ensures Consistent(Settle(users, txs[id], s), services, orders,
                       txs[id := txs[id].(status := s)], n, opening)
  {
    var t := txs[id];
    assert DepositFiled(t, users);
    var users' := Settle(users, t, s);
    var txs' := txs[id := t.(status := s)];
    BalancedAfterResolve(users, orders, txs, opening, n, id, s);
    assert Linked(users', services, orders, txs') by {
      forall k | k in orders ensures OrderPlaced(orders[k], users', services) {
        assert OrderPlaced(orders[k], users, services);
      }
      forall k | k in txs' ensures DepositFiled(txs'[k], users') {
        assert DepositFiled(txs[k], users);
      }
    }
    assert EmailsUnique(users') by {
      forall a, b | a in users' && b in users' && SharesEmail(users', a, b) ensures a == b {
        assert SharesEmail(users, a, b);
      }
    }
  }

  /** Replacing an order by one that differs only in status and completion stamp,
      and that is stamped if completed, keeps consistency: no balance moves. */
  lemma RestatusKeeps(users: map<Id, User>, services: map<Id, Service>,
                      orders: map<Id, Order>, txs: map<Id, Transaction>,
                      n: nat, opening: map<Id, real>, id: Id, o: Order)
    requires Consistent(users, services, orders, txs, n, opening)
    requires id in orders
    requires o == orders[id].(status := o.status, completedAt := o.completedAt)
    requires o.status == Completed ==> o.completedAt.Some?
    ensures Consistent(users, services, orders[id := o], txs, n, opening)
  {
    var orders' := orders[id := o];
    forall u | u in users
      ensures Settled(users, orders', txs, opening, n, u)
    {
      assert Settled(users, orders, txs, opening, n, u);
      SpentRestatus(orders, id, o, u, n);
    }
    assert OrderPlaced(orders[id], users, services);
  }
}
