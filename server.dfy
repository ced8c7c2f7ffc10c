/**
 * The route handlers of the panel backend over its four collections. Each
 * handler runs to completion before the next one starts (the model is serial),
 * so an insert_one is a map update under a fresh id and an `$inc` or `$set` is
 * a map update of one record.
 */
module Server {
  import opened Records
  import opened Pricing
  import opened Ledger
  import opened Consistency

  /** What the bearer token decodes to. Checking the signature and the expiry is
      the JWT library's work and happens before the handler runs. */
  datatype Claim = Bearer(userId: Id) | Expired | Malformed

  /** A user as the API returns it: the stored record without the password hash. */
  datatype Profile = Profile(id: Id, email: string, name: string, balance: real, role: string)

  function ProfileOf(u: User): (p: Profile)
    ensures p.id == u.id && p.email == u.email && p.name == u.name
    ensures p.balance == u.balance && p.role == u.role
  {
    Profile(u.id, u.email, u.name, u.balance, u.role)
  }

  /** The counts of the admin stats endpoint. */
  datatype Stats = Stats(totalUsers: nat, totalOrders: nat, pendingDeposits: nat)

  /** The order after the status update's `$set`: the new status, and a new
      completion stamp only when the new status is `completed`. */
  function Restamp(o: Order, s: OrderStatus, now: Stamp): (o': Order)
    ensures o'.status == s
    ensures o'.completedAt == if s == Completed then Some(now) else o.completedAt
    ensures o' == o.(status := o'.status, completedAt := o'.completedAt)
  {
    if s == Completed then o.(status := s, completedAt := Some(now)) else o.(status := s)
  }

  /** The update modifies nothing, and so reports "not found", exactly when the
      order already has the target status and, for `completed`, already carries
      the same stamp. */
  lemma RestampUnchanged(o: Order, s: OrderStatus, now: Stamp)
    ensures Restamp(o, s, now) == o
        <==> o.status == s && (s == Completed ==> o.completedAt == Some(now))
  {
  }

  /** The catalog filter: a non-empty platform selects exactly the services on
      that platform; no platform, or the empty one, selects everything. */
  function FilterByPlatform(services: map<Id, Service>, platform: Option<string>): (r: map<Id, Service>)
    ensures forall k :: k in r <==>
      (k in services && (platform == None || platform == Some("") || services[k].platform == platform.value))
    ensures forall k :: k in r ==> r[k] == services[k]
  {
    if platform == None || platform == Some("") then services
    else map k | k in services && services[k].platform == platform.value :: services[k]
  }

  class Panel {
    var users: map<Id, User>
    var services: map<Id, Service>
    var orders: map<Id, Order>
    var transactions: map<Id, Transaction>
    /** The next fresh record id. */
    var nextId: nat
    /** Each user's balance when it entered the database. */
    ghost var opening: map<Id, real>

    ghost predicate Valid()
      reads this
    {
      Consistent(users, services, orders, transactions, nextId, opening)
    }

    /** A database holding the seeded users and catalog and nothing else. */
    constructor (seedUsers: map<Id, User>, seedServices: map<Id, Service>, firstFree: nat)
      requires AllBelow(seedUsers, firstFree) && AllBelow(seedServices, firstFree)
      requires forall k :: k in seedUsers ==> seedUsers[k].id == k && seedUsers[k].balance >= 0.0
      requires forall k :: k in seedServices ==> seedServices[k].id == k
      requires EmailsUnique(seedUsers)
      ensures Valid()
      ensures users == seedUsers && services == seedServices
      ensures orders == map[] && transactions == map[] && nextId == firstFree
      ensures opening == map u | u in seedUsers :: seedUsers[u].balance
    {
      users, services := seedUsers, seedServices;
      orders, transactions := map[], map[];
      nextId := firstFree;
      opening := map u | u in seedUsers :: seedUsers[u].balance;
      SeedConsistent(seedUsers, seedServices, firstFree);
    }

    /** get_current_user: the caller named by a valid token, who must still exist. */
    function Authenticate(claim: Claim): (r: Result<User>)
      reads this
      ensures r.Ok? <==> claim.Bearer? && claim.userId in users
      ensures r.Ok? ==> r.value == users[claim.userId]
      ensures claim.Expired? ==> r == Err(TokenExpired)
      ensures claim.Malformed? ==> r == Err(InvalidToken)
      ensures claim.Bearer? && claim.userId !in users ==> r == Err(UserNotFound)
    {
      match claim
      case Expired => Err(TokenExpired)
      case Malformed => Err(InvalidToken)
      case Bearer(uid) => if uid in users then Ok(users[uid]) else Err(UserNotFound)
    }

    /** get_admin_user: an authenticated caller whose role is exactly "admin". */
    function RequireAdmin(claim: Claim): (r: Result<User>)
      reads this
      ensures r.Ok? <==> claim.Bearer? && claim.userId in users && users[claim.userId].role == AdminRole
      ensures r.Ok? ==> r.value == users[claim.userId]
      ensures claim.Bearer? && claim.userId in users && users[claim.userId].role != AdminRole
              ==> r == Err(AdminRequired)
      ensures Authenticate(claim).Err? ==> r == Authenticate(claim)
    {
      var caller := Authenticate(claim);
      if caller.Err? then caller
      else if caller.value.role != AdminRole then Err(AdminRequired)
      else caller
    }

    /** register: a new email gets a user with balance 0 and role "user". */
    method Register(email: string, name: string, passwordHash: string) returns (r: Result<Profile>)
      requires Valid()
      modifies this
      ensures Valid()
      ensures r.Err? <==> exists k :: k in old(users) && old(users)[k].email == email
      ensures r.Err? ==> r.error == EmailRegistered && unchanged(this)
      ensures r.Ok? ==>
        && r.value == Profile(old(nextId), email, name, 0.0, DefaultRole)
        && r.value.id !in old(users)
        && users == old(users)[r.value.id := User(r.value.id, email, name, passwordHash, 0.0, DefaultRole)]
        && nextId == old(nextId) + 1
        && services == old(services) && orders == old(orders) && transactions == old(transactions)
        && opening == old(opening)[r.value.id := 0.0]
    {
      if exists k :: k in users && users[k].email == email {
        return Err(EmailRegistered);
      }
      var user := User(nextId, email, name, passwordHash, 0.0, DefaultRole);
      RegisterKeeps(users, services, orders, transactions, nextId, opening, user);
      users, opening, nextId := users[nextId := user], opening[nextId := 0.0], nextId + 1;
      r := Ok(ProfileOf(user));
    }

    /** login: the user with this email, if the password checks against the
        stored hash. `verify` stands for the hashing library's check. */
    method Login(email: string, password: string, verify: (string, string) -> bool) returns (r: Result<Profile>)
      requires Valid()
      ensures r.Ok? <==> exists k :: k in users && users[k].email == email && verify(password, users[k].passwordHash)
      ensures r.Ok? ==> r.value.id in users && r.value == ProfileOf(users[r.value.id]) && r.value.email == email
      ensures r.Err? ==> r.error == InvalidCredentials
    {
      var matching := set k | k in users && users[k].email == email;
      if matching == {} {
        assert forall k :: k in users && users[k].email == email ==> k in matching;
        return Err(InvalidCredentials);
      }
      var k :| k in matching;
      if !verify(password, users[k].passwordHash) {
        assert forall j :: j in users && users[j].email == email ==> SharesEmail(users, j, k);
        return Err(InvalidCredentials);
      }
      r := Ok(ProfileOf(users[k]));
    }

    /** get_me: the caller's own profile. */
    function Me(claim: Claim): (r: Result<Profile>)
      reads this
      ensures r.Ok? <==> Authenticate(claim).Ok?
      ensures r.Err? ==> r.error == Authenticate(claim).error
      ensures r.Ok? ==> r.value == ProfileOf(users[claim.userId])
    {
      var caller := Authenticate(claim);
      if caller.Err? then Err(caller.error) else Ok(ProfileOf(caller.value))
    }

    /** get_services. */
    function GetServices(platform: Option<string>): (r: map<Id, Service>)
      reads this
      ensures r.Keys <= services.Keys
      ensures forall k :: k in r ==> r[k] == services[k]
      ensures platform.Some? && platform.value != "" ==>
        forall k :: k in services ==> (k in r <==> services[k].platform == platform.value)
      ensures platform == None || platform == Some("") ==> r == services
    {
      FilterByPlatform(services, platform)
    }

    /** create_service: an admin adds a catalog entry, with no check on its
        rate or bounds. */
    method CreateService(claim: Claim, platform: string, serviceType: string, name: string,
                         rate: real, minQuantity: int, maxQuantity: int, description: string)
      returns (r: Result<Service>)
      requires Valid()
      modifies this
      ensures Valid()
      ensures r.Ok? <==> old(RequireAdmin(claim)).Ok?
      ensures r.Err? ==> r.error == old(RequireAdmin(claim)).error && unchanged(this)
      ensures r.Ok? ==>
        && r.value == Service(old(nextId), platform, serviceType, name, rate, minQuantity, maxQuantity, description)
        && r.value.id !in old(services)
        && services == old(services)[r.value.id := r.value]
        && nextId == old(nextId) + 1
        && users == old(users) && orders == old(orders) && transactions == old(transactions)
      ensures opening == old(opening)
    {
      var admin := RequireAdmin(claim);
      if admin.Err? {
        return Err(admin.error);
      }
      var s := Service(nextId, platform, serviceType, name, rate, minQuantity, maxQuantity, description);
      ServiceKeeps(users, services, orders, transactions, nextId, opening, s);
      services, nextId := services[nextId := s], nextId + 1;
      r := Ok(s);
    }

    /** The checks of create_order, in the source's order: the caller, the
        service, the quantity bounds, then the balance against the prorated
        cost. On success, the cost to debit. */
    function Quote(claim: Claim, serviceId: Id, quantity: int): (r: Result<real>)
      reads this
      ensures Authenticate(claim).Err? ==> r == Err(Authenticate(claim).error)
      ensures Authenticate(claim).Ok? && serviceId !in services ==> r == Err(ServiceNotFound)
      ensures Authenticate(claim).Ok? && serviceId in services ==>
        var s := services[serviceId];
        && (quantity < s.minQuantity || quantity > s.maxQuantity ==>
              r == Err(QuantityOutOfRange(s.minQuantity, s.maxQuantity)))
        && (s.minQuantity <= quantity <= s.maxQuantity ==>
              (r == Err(InsufficientBalance) <==> users[claim.userId].balance < OrderCost(quantity, s.rate)))
      ensures r.Ok? <==>
        && Authenticate(claim).Ok? && serviceId in services
        && services[serviceId].minQuantity <= quantity <= services[serviceId].maxQuantity
        && OrderCost(quantity, services[serviceId].rate) <= users[claim.userId].balance
      ensures r.Ok? ==>
        && claim.Bearer? && claim.userId in users && serviceId in services
        && services[serviceId].minQuantity <= quantity <= services[serviceId].maxQuantity
        && r.value == OrderCost(quantity, services[serviceId].rate)
        && r.value <= users[claim.userId].balance
    {
      var caller := Authenticate(claim);
      if caller.Err? then Err(caller.error)
      else if serviceId !in services then Err(ServiceNotFound)
      else
        var s := services[serviceId];
        if quantity < s.minQuantity || quantity > s.maxQuantity then
          Err(QuantityOutOfRange(s.minQuantity, s.maxQuantity))
        else
          var cost := OrderCost(quantity, s.rate);
          if caller.value.balance < cost then Err(InsufficientBalance) else Ok(cost)
    }

    /** create_order: when Quote accepts, debits the quoted cost from the
        caller and records one pending order; otherwise changes nothing. */
    method CreateOrder(claim: Claim, serviceId: Id, link: string, quantity: int) returns (r: Result<Order>)
      requires Valid()
      modifies this
      ensures Valid()
      ensures r.Err? <==> old(Quote(claim, serviceId, quantity)).Err?
      ensures r.Err? ==> r.error == old(Quote(claim, serviceId, quantity)).error && unchanged(this)
      ensures r.Ok? ==>
        var o := r.value;
        && o == Order(old(nextId), claim.userId, serviceId, link, quantity,
                      old(Quote(claim, serviceId, quantity)).value, Pending, None)
        && o.id !in old(orders)
        && orders == old(orders)[o.id := o]
        && users == old(users)[o.userId := old(users)[o.userId].(balance := old(users)[o.userId].balance - o.totalCost)]
        && nextId == old(nextId) + 1
        && services == old(services) && transactions == old(transactions)
      ensures opening == old(opening)
    {
      var quote := Quote(claim, serviceId, quantity);
      if quote.Err? {
        return Err(quote.error);
      }
      var uid, cost := claim.userId, quote.value;
      var o := Order(nextId, uid, serviceId, link, quantity, cost, Pending, None);
      ghost var (users0, orders0) := (users, orders);
      users, orders, nextId := users[uid := users[uid].(balance := users[uid].balance - cost)], orders[nextId := o], nextId + 1;
      OrderKeeps(users0, services, orders0, transactions, o.id, opening, o, users, orders);
      r := Ok(o);
    }

    /** get_user_orders: the caller's orders, all of them and no others. */
    function GetUserOrders(claim: Claim): (r: Result<map<Id, Order>>)
      reads this
      ensures r.Ok? <==> Authenticate(claim).Ok?
      ensures r.Err? ==> r.error == Authenticate(claim).error
      ensures r.Ok? ==> forall k :: k in r.value <==> k in orders && orders[k].userId == claim.userId
      ensures r.Ok? ==> forall k :: k in r.value ==> r.value[k] == orders[k]
    {
      var caller := Authenticate(claim);
      if caller.Err? then Err(caller.error)
      else Ok(map k | k in orders && orders[k].userId == claim.userId :: orders[k])
    }

    /** get_order: an order is found only under its own id and only by its owner. */
    function GetOrder(claim: Claim, orderId: Id): (r: Result<Order>)
      reads this
      ensures r.Ok? <==> Authenticate(claim).Ok? && orderId in orders && orders[orderId].userId == claim.userId
      ensures Authenticate(claim).Err? ==> r == Err(Authenticate(claim).error)
      ensures r.Ok? ==> r.value == orders[orderId]
      ensures Authenticate(claim).Ok? && !r.Ok? ==> r == Err(OrderNotFound)
    {
      var caller := Authenticate(claim);
      if caller.Err? then Err(caller.error)
      else if orderId in orders && orders[orderId].userId == claim.userId then Ok(orders[orderId])
      else Err(OrderNotFound)
    }

    /** get_balance. */
    function GetBalance(claim: Claim): (r: Result<real>)
      reads this
      ensures r.Ok? <==> Authenticate(claim).Ok?
      ensures r.Err? ==> r.error == Authenticate(claim).error
      ensures r.Ok? ==> r.value == users[claim.userId].balance
    {
      var caller := Authenticate(claim);
      if caller.Err? then Err(caller.error) else Ok(caller.value.balance)
    }

    /** request_deposit: a positive amount files one pending deposit and moves
        no balance. */
    method RequestDeposit(claim: Claim, amount: real) returns (r: Result<Transaction>)
      requires Valid()
      modifies this
      ensures Valid()
      ensures r.Err? ==> unchanged(this)
      ensures old(Authenticate(claim)).Err? ==> r.Err? && r.error == old(Authenticate(claim)).error
      ensures old(Authenticate(claim)).Ok? && amount <= 0.0 ==> r == Err(AmountNotPositive)
      ensures r.Ok? <==> old(Authenticate(claim)).Ok? && amount > 0.0
      ensures r.Ok? ==>
        var t := r.value;
        && t == Transaction(old(nextId), claim.userId, amount, Deposit, TxPending)
        && t.id !in old(transactions)
        && transactions == old(transactions)[t.id := t]
        && |PendingDeposits(transactions)| == |PendingDeposits(old(transactions))| + 1
        && nextId == old(nextId) + 1
        && users == old(users) && orders == old(orders) && services == old(services)
      ensures opening == old(opening)
    {
      var caller := Authenticate(claim);
      if caller.Err? {
        return Err(caller.error);
      }
      if amount <= 0.0 {
        return Err(AmountNotPositive);
      }
      var t := Transaction(nextId, claim.userId, amount, Deposit, TxPending);
      DepositKeeps(users, services, orders, transactions, nextId, opening, t);
      PendingAfterRequest(transactions, nextId, t);
      transactions, nextId := transactions[nextId := t], nextId + 1;
      r := Ok(t);
    }

    /** get_all_users: every user, without password hashes. */
    function GetAllUsers(claim: Claim): (r: Result<map<Id, Profile>>)
      reads this
      ensures r.Ok? <==> RequireAdmin(claim).Ok?
      ensures r.Err? ==> r.error == RequireAdmin(claim).error
      ensures r.Ok? ==> r.value.Keys == users.Keys
      ensures r.Ok? ==> forall k :: k in r.value ==> r.value[k] == ProfileOf(users[k])
    {
      var admin := RequireAdmin(claim);
      if admin.Err? then Err(admin.error)
      else Ok(map k | k in users :: ProfileOf(users[k]))
    }

    /** get_all_orders. */
    function GetAllOrders(claim: Claim): (r: Result<map<Id, Order>>)
      reads this
      ensures r.Ok? <==> RequireAdmin(claim).Ok?
      ensures r.Err? ==> r.error == RequireAdmin(claim).error
      ensures r.Ok? ==> r.value == orders
    {
      var admin := RequireAdmin(claim);
      if admin.Err? then Err(admin.error) else Ok(orders)
    }

    /** get_deposits: every transaction of type deposit, whatever its status. */
    function GetDeposits(claim: Claim): (r: Result<map<Id, Transaction>>)
      reads this
      ensures r.Ok? <==> RequireAdmin(claim).Ok?
      ensures r.Err? ==> r.error == RequireAdmin(claim).error
      ensures r.Ok? ==> forall k :: k in r.value <==> k in transactions && transactions[k].txType == Deposit
      ensures r.Ok? ==> forall k :: k in r.value ==> r.value[k] == transactions[k]
    {
      var admin := RequireAdmin(claim);
      if admin.Err? then Err(admin.error)
      else Ok(map k | k in transactions && transactions[k].txType == Deposit :: transactions[k])
    }

    /** update_order_status: an admin sets any of the four statuses on any
        order; `completed` stamps the completion time; no balance moves. An
        update that changes nothing reports "not found". */
    method UpdateOrderStatus(claim: Claim, orderId: Id, status: string, now: Stamp) returns (r: Result<Order>)
      requires Valid()
      modifies this
      ensures Valid()
      ensures r.Err? ==> unchanged(this)
      ensures old(RequireAdmin(claim)).Err? ==> r.Err? && r.error == old(RequireAdmin(claim)).error
      ensures old(RequireAdmin(claim)).Ok? && ParseStatus(status).None? ==> r == Err(InvalidStatus)
      ensures old(RequireAdmin(claim)).Ok? && ParseStatus(status).Some? && orderId !in old(orders)
              ==> r == Err(OrderNotFound)
      ensures r.Ok? <==>
        && old(RequireAdmin(claim)).Ok? && ParseStatus(status).Some? && orderId in old(orders)
        && Restamp(old(orders)[orderId], ParseStatus(status).value, now) != old(orders)[orderId]
      ensures r.Ok? ==>
        && r.value == Restamp(old(orders)[orderId], ParseStatus(status).value, now)
        && orders == old(orders)[orderId := r.value]
        && users == old(users) && transactions == old(transactions)
        && services == old(services) && nextId == old(nextId)
      ensures old(RequireAdmin(claim)).Ok? && ParseStatus(status).Some? && orderId in old(orders)
              && Restamp(old(orders)[orderId], ParseStatus(status).value, now) == old(orders)[orderId]
              ==> r == Err(OrderNotFound)
      ensures opening == old(opening)
    {
      var admin := RequireAdmin(claim);
      if admin.Err? {
        return Err(admin.error);
      }
      var target := ParseStatus(status);
      if target.None? {
        return Err(InvalidStatus);
      }
      if orderId !in orders {
        return Err(OrderNotFound);
      }
      var o := Restamp(orders[orderId], target.value, now);
      if o == orders[orderId] {
        return Err(OrderNotFound);
      }
      RestatusKeeps(users, services, orders, transactions, nextId, opening, orderId, o);
      orders := orders[orderId := o];
      r := Ok(o);
    }

    /** approve_deposit: an admin resolves a pending deposit exactly once, to
        approved (crediting its amount to its owner) or to rejected. */
    method ResolveDeposit(claim: Claim, txId: Id, action: string) returns (r: Result<TxStatus>)
      requires Valid()
      modifies this
      ensures Valid()
      ensures r.Err? ==> unchanged(this)
      ensures old(RequireAdmin(claim)).Err? ==> r.Err? && r.error == old(RequireAdmin(claim)).error
      ensures old(RequireAdmin(claim)).Ok? && ParseAction(action).None? ==> r == Err(InvalidAction)
      ensures old(RequireAdmin(claim)).Ok? && ParseAction(action).Some? ==>
        && (txId !in old(transactions) ==> r == Err(TransactionNotFound))
        && (txId in old(transactions) && old(transactions)[txId].status != TxPending ==> r == Err(AlreadyProcessed))
        && (txId in old(transactions) && old(transactions)[txId].status == TxPending ==> r.Ok?)
      ensures r.Ok? ==>
        var t := old(transactions)[txId];
        && txId in old(transactions) && t.status == TxPending && ParseAction(action).Some?
        && r.value == Resolved(ParseAction(action).value)
        && transactions == old(transactions)[txId := t.(status := r.value)]
        && t.userId in old(users)
        && users.Keys == old(users).Keys
        && (forall u :: u in users && u != t.userId ==> users[u] == old(users)[u])
        && users[t.userId].balance == old(users)[t.userId].balance + (if r.value == Approved then t.amount else 0.0)
        && users[t.userId] == old(users)[t.userId].(balance := users[t.userId].balance)
        && |PendingDeposits(transactions)| == |PendingDeposits(old(transactions))| - 1
        && orders == old(orders) && services == old(services) && nextId == old(nextId)
      ensures opening == old(opening)
    {
      var admin := RequireAdmin(claim);
      if admin.Err? {
        return Err(admin.error);
      }
      var decision := ParseAction(action);
      if decision.None? {
        return Err(InvalidAction);
      }
      if txId !in transactions {
        return Err(TransactionNotFound);
      }
      var t := transactions[txId];
      if t.status != TxPending {
        return Err(AlreadyProcessed);
      }
      var s := Resolved(decision.value);
      ResolveKeeps(users, services, orders, transactions, nextId, opening, txId, s);
      assert DepositFiled(t, users);
      PendingAfterResolve(transactions, txId, s);
      transactions, users := transactions[txId := t.(status := s)], Settle(users, t, s);
      r := Ok(s);
    }

    /** get_stats. */
    function GetStats(claim: Claim): (r: Result<Stats>)
      reads this
      ensures r.Ok? <==> RequireAdmin(claim).Ok?
      ensures r.Err? ==> r.error == RequireAdmin(claim).error
      ensures r.Ok? ==> r.value.totalUsers == |users| && r.value.totalOrders == |orders|
      ensures r.Ok? ==> r.value.pendingDeposits == |PendingDeposits(transactions)|
    {
      var admin := RequireAdmin(claim);
      if admin.Err? then Err(admin.error)
      else Ok(Stats(|users|, |orders|, |PendingDeposits(transactions)|))
    }
  }
}
