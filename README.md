# SMM panel backend: orders, deposits and the balance ledger

This project models the HTTP handlers of a social-media-marketing panel's
backend (`backend/server.py`). The backend keeps four collections:

- users, each with a balance and a role;
- a catalog of services, each priced per 1000 units between a minimum and a
  maximum quantity;
- orders;
- deposit transactions.

A customer places an order, which debits the prorated cost from their balance
and records a pending order. To top up, a customer files a deposit request.
An admin approves it, which credits the amount, or rejects it, and a deposit
is resolved only once. An admin can also move an order between four statuses;
moving an order never moves money.

The model is serial: each handler runs to completion before the next one
starts.

- The database is the class `Server.Panel`, whose fields are four maps from
  record id to record.
- A fresh uuid is the next value of one counter, `nextId`.
- `insert_one` is a map update under that id. `$inc` and `$set` are map
  updates of one record.
- Money is an exact `real`.
- A decoded bearer token is a `Claim`: a user id, expired, or malformed.
- The clock is a `Stamp` parameter.
- Password hashing is a parameter: `Register` takes the hash and `Login`
  takes the check.

Every state-changing handler keeps `Panel.Valid()`, which is
`Consistency.Consistent`:

- every record is stored under its own id, and every id was drawn from the
  counter;
- orders and deposits point at existing users and services;
- every order's cost is the prorated price of its quantity, and that quantity
  is within the service's bounds;
- emails are unique and balances are non-negative;
- the ledger holds: each user's balance is their opening balance, plus the
  amounts of their approved deposits, less the costs of their orders
  (`Ledger.Credited`, `Ledger.Spent`).

This last clause holds over any sequence of handler calls. It is the
statement that the only balance writes are the order debit and the deposit
credit, each tied to exactly one stored record. The opening balances are
fixed: the constructor sets them to the seeded balances, `Register` adds 0
for the new user, and every other handler promises to leave them as they
were. So the equation cannot be met by re-choosing them.

Modules:

- `Records`: the entities, the errors with their HTTP codes, and the status
  and action labels.
- `Pricing`: the cost formula.
- `Ledger`: the per-user sums and the pending-deposit count.
- `Consistency`: the invariant, and one lemma per state-changing handler
  showing that the handler keeps it.
- `Server`: the handlers.
- `Scenarios`: a run on the seeded catalog.

## Model

| member | source | states |
|---|---|---|
| Records.StatusCode | backend/server.py:119-305 | each error is raised with its status: the token and credential errors 401, the admin gate 403, the missing service, order and transaction 404, every other refusal 400 |
| Records.ParseStatus | backend/server.py:277-278 | exactly the four labels pending, processing, completed and cancelled are accepted, and each one parses to the status it names |
| Records.ParseStatusLabel | backend/server.py:277-284 | every order status, written as its stored label and read back, is the same status |
| Records.ParseAction | backend/server.py:297-298 | "approve" and "reject" are the only actions, each mapped to its own decision |
| Records.Resolved | backend/server.py:307 | a resolved deposit is never pending again, and it is approved exactly when the action was approve |
| Pricing.OrderCost | backend/server.py:206 | the cost times 1000 is the quantity times the rate, so the price is prorated with no rounding to whole thousands |
| Pricing.CostAdditive | backend/server.py:206 | splitting a quantity in two never changes the total price |
| Pricing.CostMonotone | backend/server.py:206 | at a non-negative rate, more units never cost less |
| Pricing.CostNonNegative | backend/server.py:206 | a non-negative quantity at a non-negative rate never costs less than zero |
| Pricing.CostOfFiveHundredAtTwoFifty | backend/seed_data.py:62-72 | 500 units of the seeded instagram followers service (2.50 per 1000) cost 1.25 |
| Ledger.SpentAppend | backend/server.py:222-227 | recording an order under the next id adds its cost to its owner's spending and nothing to anyone else's |
| Ledger.SpentRestatus | backend/server.py:284 | replacing an order by one with the same owner and cost changes nobody's spending |
| Ledger.CreditedAppend | backend/server.py:253-260 | a new pending transaction credits nobody |
| Ledger.CreditedResolve | backend/server.py:308-315 | resolving a pending transaction adds its amount to its owner's credits when approved, and adds nothing otherwise |
| Ledger.PendingAfterRequest | backend/server.py:253-260 | a new pending deposit adds exactly its id to the pending deposits, so their count grows by one |
| Ledger.PendingAfterResolve | backend/server.py:307-308 | resolving a pending deposit removes exactly its id from the pending deposits, so their count drops by one |
| Consistency.SeedConsistent | backend/seed_data.py:21-72 | a database holding only seeded users with unique emails and non-negative balances, and a seeded catalog, satisfies the invariant, with each seeded balance as that user's opening balance |
| Consistency.RegisterKeeps | backend/server.py:141-159 | adding a user with a new email and balance 0 under the next id keeps the invariant |
| Consistency.ServiceKeeps | backend/server.py:183-187 | adding a catalog entry under the next id keeps the invariant |
| Consistency.BalancedAfterOrder | backend/server.py:221-227 | debiting an order's cost from its owner while recording the order keeps every user's balance equal to opening plus credits less spending |
| Consistency.OrderKeeps | backend/server.py:191-228 | a pending order within its service's bounds, priced by the formula, which the owner can afford, keeps the whole invariant when recorded together with the debit |
| Consistency.DepositKeeps | backend/server.py:248-261 | filing a pending deposit under the next id keeps the invariant |
| Consistency.Settle | backend/server.py:310-315 | approving adds exactly the amount to the owner's balance; rejecting changes no balance; no other user changes |
| Consistency.BalancedAfterResolve | backend/server.py:308-315 | resolving a pending deposit together with its credit keeps the ledger equation for every user |
| Consistency.ResolveKeeps | backend/server.py:295-317 | resolving a pending deposit once, together with its settlement, keeps the whole invariant |
| Consistency.RestatusKeeps | backend/server.py:275-288 | changing only an order's status and completion stamp keeps the invariant, since no balance moves |
| Server.ProfileOf | backend/server.py:36-43 | the returned user carries the stored id, email, name, balance and role, and not the password hash |
| Server.Restamp | backend/server.py:280-284 | the update sets the new status; it stamps the completion time only for completed; otherwise it keeps the earlier stamp; every other field is unchanged |
| Server.RestampUnchanged | backend/server.py:284-286 | the update changes nothing exactly when the order already has the target status and, for completed, the same stamp |
| Server.FilterByPlatform | backend/server.py:179-180 | a non-empty platform selects exactly the services on that platform, and no platform or the empty one selects all of them |
| Server.Panel.constructor | backend/seed_data.py:21-72 | the seeded database satisfies the invariant, holds only the seeded users and services, and takes each seeded balance as that user's opening balance |
| Server.Panel.Authenticate | backend/server.py:119-132 | a caller is accepted exactly when the token is valid and names a stored user; an expired token, an invalid token and an unknown user each get their own error |
| Server.Panel.RequireAdmin | backend/server.py:134-137 | the caller passes exactly when authenticated with role "admin"; any other role gets the admin-required error; token errors pass through |
| Server.Panel.Register | backend/server.py:141-159 | registration fails exactly when the email is already stored; otherwise one new user with balance 0 and role "user" is added under a fresh id with opening balance 0; nothing else changes, and the invariant is kept |
| Server.Panel.Login | backend/server.py:161-169 | login succeeds exactly when some user has this email and the password checks against that user's hash, and returns that user; otherwise it fails with invalid credentials |
| Server.Panel.Me | backend/server.py:171-173 | an authenticated caller gets their own stored profile; a refused caller gets the token or unknown-user error of authentication |
| Server.Panel.GetServices | backend/server.py:177-181 | with a non-empty platform, a service is listed exactly when it is on that platform; without one, the whole catalog is listed; every listed record is the stored service |
| Server.Panel.CreateService | backend/server.py:183-187 | only an admin adds a service; it is added with the given fields under a fresh id, nothing else changes, the opening balances stay fixed, and the invariant is kept |
| Server.Panel.Quote | backend/server.py:192-210 | the order checks run in the source's order (caller, service, quantity bounds, balance); each refusal carries its own error; a quote is accepted exactly when the caller is stored, the service exists, the quantity is within its bounds and the prorated cost is at most the caller's balance, and then it is that cost |
| Server.Panel.CreateOrder | backend/server.py:191-228 | any refusal leaves the database unchanged. A success adds exactly one pending order for the caller's service, link and quantity at the quoted cost, and debits exactly that cost from the caller. No other user, order, service or transaction changes. The opening balances stay fixed and the ledger invariant is kept |
| Server.Panel.GetUserOrders | backend/server.py:230-233 | an authenticated caller gets exactly the orders they own, unaltered; a refused caller gets the token or unknown-user error of authentication |
| Server.Panel.GetOrder | backend/server.py:235-240 | an order is returned exactly when it exists and the caller owns it; a failed authentication passes its own error through; otherwise an authenticated caller gets not found |
| Server.Panel.GetBalance | backend/server.py:244-246 | an authenticated caller gets their stored balance; a refused caller gets the token or unknown-user error of authentication |
| Server.Panel.RequestDeposit | backend/server.py:248-261 | an amount of 0 or less is refused and changes nothing; otherwise exactly one pending deposit for the caller is added; no balance moves; the pending count grows by one; the opening balances stay fixed and the invariant is kept |
| Server.Panel.GetAllUsers | backend/server.py:265-268 | an admin gets every user as a profile without the password hash; anyone else gets the admin gate's error (admin required, or the token error) |
| Server.Panel.GetAllOrders | backend/server.py:270-273 | an admin gets every order; anyone else gets the admin gate's error (admin required, or the token error) |
| Server.Panel.GetDeposits | backend/server.py:290-293 | an admin gets exactly the transactions of type deposit, whatever their status; anyone else gets the admin gate's error |
| Server.Panel.UpdateOrderStatus | backend/server.py:275-288 | refusals come in order: admin gate, unknown label, unknown order, then not found (404) when the update would change nothing, including re-setting a non-completed order to its own status. Each refusal changes nothing. A success changes only that order, through Restamp. No balance moves, so a cancel refunds nothing. The opening balances stay fixed and the invariant is kept |
| Server.Panel.ResolveDeposit | backend/server.py:295-317 | refusals come in order: admin gate, unknown action, unknown transaction, already processed. Each refusal changes nothing. A pending deposit is resolved to the chosen status, with the amount credited to its owner only on approval. No other record changes. The pending count drops by one. The opening balances stay fixed and the invariant is kept |
| Server.Panel.GetStats | backend/server.py:319-329 | an admin gets the number of users, the number of orders and the number of pending deposits; anyone else gets the admin gate's error (admin required, or the token error) |
| Scenarios.ResolveTwice | backend/server.py:304-305 | after a deposit has been resolved, a second resolution by an admin with a valid action is refused as already processed |
| Scenarios.TopUpThenOrder | backend/seed_data.py:62-72 | 500 units of the 2.50-per-1000 service are refused at a balance of 1.00; after an approved deposit of 0.25 the same order is placed at 1.25 and leaves 0; approving that deposit again is refused |

## Left out

- JWT encoding, decoding and expiry (`backend/server.py:112-132`) belong to a foreign library. A handler receives the decoded `Claim`; the token a login or registration returns is not modelled.
- bcrypt hashing and checking (`backend/server.py:106-110`) belong to a foreign library. `Register` takes the stored hash as a parameter, and `Login` takes the check as a function parameter.
- MongoDB access, FastAPI routing, CORS, logging and environment configuration are I/O and framework plumbing.
- Concurrency is not modelled; handlers are atomic. In the source, `create_order` compares against the balance read when the caller was authenticated. Two concurrent orders can therefore both pass the check before either `$inc` lands.
- Floating-point rounding of balances, rates, amounts and costs is not modelled; money is exact. This also leaves out a NaN deposit amount, which passes the `amount <= 0` test.
- uuid text, `created_at` timestamps, the newest-first sort and the cap of 1000 records per listing are left out. Ids are counter values and listings are maps keyed by id.
- Email syntax validation (`EmailStr`) is left out; emails are plain strings compared exactly.
- Server.Panel.GetUserOrders: returns a map keyed by id, so the newest-first order and the 1000-record cap are not stated.
- Server.Panel.GetAllOrders: returns a map keyed by id, so the newest-first order and the 1000-record cap are not stated.
- Server.Panel.GetDeposits: returns a map keyed by id, so the newest-first order and the 1000-record cap are not stated.
- Server.Panel.GetAllUsers: returns a map keyed by id, so the 1000-record cap is not stated.
- Server.Panel.Login: returns the profile only, without the token, since token creation is left out.
- Server.Panel.Register: returns the profile only, without the token, since token creation is left out.
- `create_service` checks nothing about a new service's rate or bounds. The model keeps that behaviour, so a negative rate makes an order raise its owner's balance; the ledger invariant still accounts for it as a negative cost.
- `backend/seed_data.py` is used only for the seeded values in `Scenarios` and in the constructor's precondition. Its other services and its printing are left out.
- The test scripts `backend_test.py`, `tests/verify_hardening.py` and `test_payment_security.py` are HTTP clients against a live server. The last two call endpoints that `backend/server.py` does not define.
