/**
 * Runs of the handlers on a small database: the seed catalog's first
 * instagram service (2.50 per 1000, between 100 and 10000 units), an admin,
 * and a customer holding 1.00.
 */
module Scenarios {
  import opened Records
  import opened Pricing
  import opened Ledger
  import opened Consistency
  import opened Server

  /** Whatever a first resolution of a deposit does, resolving the same
      deposit again is refused as already processed and changes nothing. */
  method ResolveTwice(p: Panel, claim: Claim, txId: Id, action: string, again: string)
    returns (first: Result<TxStatus>, second: Result<TxStatus>)
    requires p.Valid()
    modifies p
    ensures p.Valid()
    ensures first.Ok? && p.RequireAdmin(claim).Ok? && ParseAction(again).Some?
            ==> second == Err(AlreadyProcessed)
  {
    first := p.ResolveDeposit(claim, txId, action);
    second := p.ResolveDeposit(claim, txId, again);
  }

  const Admin := User(0, "admin@example.com", "Admin", "h0", 0.0, AdminRole)
  const Customer := User(1, "user@example.com", "User", "h1", 1.00, DefaultRole)
  const Followers := Service(2, "instagram", "followers", "Instagram Followers", 2.50, 100, 10000, "")
  const Link := "https://instagram.com/someone"

  /** The database as seeded: the admin, the customer and the one service. */
  method Seeded() returns (p: Panel)
    ensures fresh(p) && p.Valid()
    ensures p.users == map[0 := Admin, 1 := Customer] && p.services == map[2 := Followers]
    ensures p.nextId == 3
  {
    var seedUsers := map[0 := Admin, 1 := Customer];
    assert forall a, b :: a in seedUsers && b in seedUsers && SharesEmail(seedUsers, a, b) ==> a == b;
    p := new Panel(seedUsers, map[2 := Followers], 3);
  }

  /** At 1.00 the order of 500 units is refused and nothing changes. */
  method Refuse(p: Panel) returns (refused: Result<Order>)
    requires p.Valid()
    requires p.users == map[0 := Admin, 1 := Customer] && p.services == map[2 := Followers]
    modifies p
    ensures refused == Err(InsufficientBalance) && unchanged(p)
  {
    CostOfFiveHundredAtTwoFifty();
    refused := p.CreateOrder(Bearer(1), 2, Link, 500);
  }

  /** The customer asks for 0.25: a pending deposit, no balance moved. */
  method Request(p: Panel) returns (deposit: Id)
    requires p.Valid()
    requires p.users == map[0 := Admin, 1 := Customer]
    modifies p
    ensures p.Valid()
    ensures p.users == old(p.users) && p.services == old(p.services)
    ensures deposit in p.transactions && p.transactions[deposit] == Transaction(deposit, 1, 0.25, Deposit, TxPending)
  {
    var request := p.RequestDeposit(Bearer(1), 0.25);
    deposit := request.value.id;
  }

  /** The admin approves it: the customer now holds 1.25. */
  method Approve(p: Panel, deposit: Id)
    requires p.Valid()
    requires p.users == map[0 := Admin, 1 := Customer]
    requires deposit in p.transactions && p.transactions[deposit] == Transaction(deposit, 1, 0.25, Deposit, TxPending)
    modifies p
    ensures p.Valid()
    ensures p.users == map[0 := Admin, 1 := Customer.(balance := 1.25)] && p.services == old(p.services)
    ensures deposit in p.transactions && p.transactions[deposit].status == Approved
  {
    var approved := p.ResolveDeposit(Bearer(0), deposit, "approve");
    assert approved == Ok(Approved);
  }

  /** Approving the same deposit again is refused. */
  method ApproveAgain(p: Panel, deposit: Id) returns (again: Result<TxStatus>)
    requires p.Valid()
    requires p.users == map[0 := Admin, 1 := Customer.(balance := 1.25)]
    requires deposit in p.transactions && p.transactions[deposit].status == Approved
    modifies p
    ensures again == Err(AlreadyProcessed) && unchanged(p)
  {
    again := p.ResolveDeposit(Bearer(0), deposit, "approve");
  }

  /** At 1.25 the same order goes through and leaves nothing. */
  method Place(p: Panel) returns (placed: Result<Order>, left: real)
    requires p.Valid()
    requires p.users == map[0 := Admin, 1 := Customer.(balance := 1.25)] && p.services == map[2 := Followers]
    modifies p
    ensures placed.Ok? && placed.value.totalCost == 1.25 && placed.value.status == Pending
    ensures left == 0.0
  {
    CostOfFiveHundredAtTwoFifty();
    placed := p.CreateOrder(Bearer(1), 2, Link, 500);
    left := p.users[1].balance;
  }

  /** 500 units cost 1.25: refused at a balance of 1.00; once a deposit of
      0.25 is approved the same order goes through and leaves 0; approving the
      deposit a second time is refused. */
  method TopUpThenOrder() returns (refused: Result<Order>, placed: Result<Order>,
                                   approvedAgain: Result<TxStatus>, left: real)
    ensures refused == Err(InsufficientBalance)
    ensures placed.Ok? && placed.value.totalCost == 1.25 && placed.value.status == Pending
    ensures approvedAgain == Err(AlreadyProcessed)
    ensures left == 0.0
  {
    var p := Seeded();
    refused := Refuse(p);
    var deposit := Request(p);
    Approve(p, deposit);
    approvedAgain := ApproveAgain(p, deposit);
    placed, left := Place(p);
  }
}
