/**
 * Records of the SMM panel backend: the four stored entities (users, catalog
 * services, orders and deposit transactions), the status labels the handlers
 * accept as text, and the errors the handlers raise.
 */
module Records {

  /** Identity of a stored record. The backend draws uuids; here every new
      record takes the next value of one counter, which is all the model needs
      of a uuid: that it is not already in use. */
  type Id = nat

  /** An abstract reading of the clock (the backend stores ISO-8601 text). */
  type Stamp = nat

  datatype Option<+T> = None | Some(value: T)

  datatype Result<+T> = Ok(value: T) | Err(error: Error)

  /** The HTTP errors the handlers raise, one per distinct `detail`. */
  datatype Error =
    | TokenExpired                                  // 401 "Token expired"
    | InvalidToken                                  // 401 "Invalid token"
    | UserNotFound                                  // 401 "User not found"
    | InvalidCredentials                            // 401 "Invalid credentials"
    | AdminRequired                                 // 403 "Admin access required"
    | EmailRegistered                               // 400 "Email already registered"
    | ServiceNotFound                               // 404 "Service not found"
    | QuantityOutOfRange(low: int, high: int)       // 400 "Quantity must be between …"
    | InsufficientBalance                           // 400 "Insufficient balance"
    | OrderNotFound                                 // 404 "Order not found"
    | AmountNotPositive                             // 400 "Amount must be positive"
    | InvalidStatus                                 // 400 "Invalid status"
    | InvalidAction                                 // 400 "Invalid action"
    | TransactionNotFound                           // 404 "Transaction not found"
    | AlreadyProcessed                              // 400 "Transaction already processed"

  /** The HTTP status code each error is raised with. */
  function StatusCode(e: Error): (code: int)
    ensures code in {400, 401, 403, 404}
    ensures code == 401 <==> e in {TokenExpired, InvalidToken, UserNotFound, InvalidCredentials}
    ensures code == 403 <==> e == AdminRequired
    ensures code == 404 <==> e in {ServiceNotFound, OrderNotFound, TransactionNotFound}
  {
    match e
    case TokenExpired | InvalidToken | UserNotFound | InvalidCredentials => 401
    case AdminRequired => 403
    case ServiceNotFound | OrderNotFound | TransactionNotFound => 404
    case _ => 400
  }

  /** The role stored on a user; the backend keeps it as free text. */
  const AdminRole: string := "admin"
  const DefaultRole: string := "user"

  datatype User = User(
    id: Id,
    email: string,
    name: string,
    passwordHash: string,
    balance: real,
    role: string)

  datatype Service = Service(
    id: Id,
    platform: string,
    serviceType: string,
    name: string,
    rate: real,           // price per 1000 units
    minQuantity: int,
    maxQuantity: int,
    description: string)

  datatype OrderStatus = Pending | Processing | Completed | Cancelled

  datatype Order = Order(
    id: Id,
    userId: Id,
    serviceId: Id,
    link: string,
    quantity: int,
    totalCost: real,
    status: OrderStatus,
    completedAt: Option<Stamp>)

  /** The transaction record admits the types "deposit" and "order"; only
      deposits are ever written. */
  datatype TxType = Deposit | OrderPayment

  datatype TxStatus = TxPending | Approved | Rejected

  datatype Transaction = Transaction(
    id: Id,
    userId: Id,
    amount: real,
    txType: TxType,
    status: TxStatus)

  /** The text an order status is stored and accepted as. */
  function StatusLabel(s: OrderStatus): string
  {
    match s
    case Pending => "pending"
    case Processing => "processing"
    case Completed => "completed"
    case Cancelled => "cancelled"
  }

  /** The order-status check of the admin status update: exactly the four
      labels are accepted, each naming its own status. */
  function ParseStatus(text: string): (r: Option<OrderStatus>)
    ensures r.Some? <==> text in {"pending", "processing", "completed", "cancelled"}
    ensures r.Some? ==> StatusLabel(r.value) == text
  {
    if text == "pending" then Some(Pending)
    else if text == "processing" then Some(Processing)
    else if text == "completed" then Some(Completed)
    else if text == "cancelled" then Some(Cancelled)
    else None
  }

  /** Every status survives being written as its label and read back. */
  lemma ParseStatusLabel(s: OrderStatus)
    ensures ParseStatus(StatusLabel(s)) == Some(s)
  {
    match s
    case Pending =>
    case Processing =>
    case Completed =>
    case Cancelled =>
  }

  /** The admin's decision on a pending deposit. */
  datatype Action = Approve | Reject

  function ParseAction(text: string): (r: Option<Action>)
    ensures r == Some(Approve) <==> text == "approve"
    ensures r == Some(Reject) <==> text == "reject"
    ensures r.None? <==> text !in {"approve", "reject"}
  {
    if text == "approve" then Some(Approve)
    else if text == "reject" then Some(Reject)
    else None
  }

  /** The status a pending deposit takes on each decision. */
  function Resolved(a: Action): (s: TxStatus)
    ensures s != TxPending
    ensures s == Approved <==> a == Approve
  {
    match a
    case Approve => Approved
    case Reject => Rejected
  }
}
