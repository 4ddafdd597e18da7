/** The ledger client (utils/blockchain.js): how an order and a status change are
    encoded for the OrderChain contract, the checks made before sending, and how
    errors from the node or the contract reach the caller. The node itself is a
    value: the answer it gives to `getAccounts` and the outcome of locating the
    deployed contract; the answer to each send is a parameter. */
module Blockchain {
  import opened Wrappers

  type Address = string

  datatype LedgerError =
    | NotDeployed                // 'Contract not deployed on the current network'
    | MissingParameters          // 'Missing or invalid parameters'
    | NoSender                   // web3 refuses a send without a usable `from` address
    | NodeError(reason: string)  // anything raised by the node or by the contract

  datatype Contract = Contract(address: Address)

  /** The connected node, as seen by every call of one process: the account list
      (`web3.eth.getAccounts`) and the contract instance resolved once at start-up. */
  datatype Node = Node(accounts: Result<seq<Address>, LedgerError>, contract: Result<Contract, LedgerError>)

  /** The gas ceiling of every send. */
  const Gas := 8000000

  /** A line item as handed to placeOrder (price in currency units). */
  datatype DetailInput = DetailInput(orderID: int, productID: int, productName: string,
                                     productDescription: string, quantity: int, price: real)

  /** A line item as sent to the contract (price in cents). */
  datatype LedgerDetail = LedgerDetail(orderID: int, productID: int, productName: string,
                                       productDescription: string, quantity: int, price: int)

  /** The argument object of placeOrder; `deliveryDate` is the parsed instant in milliseconds. */
  datatype OrderData = OrderData(userID: Option<Address>, supplierID: int, deliveryDate: int,
                                 totalPrice: real, orderDetails: seq<DetailInput>)

  /** A transaction submitted to the contract at address `to`. */
  datatype Transaction =
    | PlaceOrderTx(to: Address, from: Address, gas: int, supplierID: int, deliveryDate: int,
                   totalPrice: int, orderDetails: seq<LedgerDetail>)
    | UpdateOrderStatusTx(to: Address, from: Address, gas: int, orderID: int, status: int)

  /** initializeContract: the deployment recorded in the contract artifact for the
      connected network, or an error when there is none. */
  function InitializeContract(networkId: Result<int, LedgerError>, networks: map<int, Address>): (r: Result<Contract, LedgerError>)
    ensures networkId.Failure? ==> r == Failure(networkId.error)
    ensures networkId.Success? && networkId.value !in networks ==> r == Failure(NotDeployed)
    ensures r.Success? <==> networkId.Success? && networkId.value in networks
    ensures r.Success? ==> r.value.address == networks[networkId.value]
  {
    match networkId
    case Failure(e) => Failure(e)
    case Success(id) => if id in networks then Success(Contract(networks[id])) else Failure(NotDeployed)
  }

  /** `Math.round(amount * 100)`: the nearest whole number of cents, halves rounded up. */
  function Cents(amount: real): (r: int)
    ensures r as real - 0.5 <= amount * 100.0 < r as real + 0.5
  {
    (amount * 100.0 + 0.5).Floor
  }

  /** `Math.floor(millis / 1000)`: Unix seconds of an instant given in milliseconds. */
  function Seconds(millis: int): (r: int)
    ensures r * 1000 <= millis < r * 1000 + 1000
  {
    millis / 1000
  }

  /** The contract's status enumeration: 'Confirmed' is 1, every other value 0. */
  function StatusEnum(status: string): (r: int)
    ensures r == 0 || r == 1
    ensures r == 1 <==> status == "Confirmed"
  {
    if status == "Confirmed" then 1 else 0
  }

  function FormatDetail(d: DetailInput): LedgerDetail
  {
    LedgerDetail(d.orderID, d.productID, d.productName, d.productDescription, d.quantity, Cents(d.price))
  }

  /** The `orderDetails.map` of placeOrder: same length and order, every field copied,
      the price converted to cents. */
  function FormatDetails(details: seq<DetailInput>): (r: seq<LedgerDetail>)
    ensures |r| == |details|
    ensures forall i :: 0 <= i < |details| ==>
      && r[i].orderID == details[i].orderID
      && r[i].productID == details[i].productID
      && r[i].productName == details[i].productName
      && r[i].productDescription == details[i].productDescription
      && r[i].quantity == details[i].quantity
      && r[i].price == Cents(details[i].price)
  {
    if details == [] then [] else [FormatDetail(details[0])] + FormatDetails(details[1..])
  }

  predicate Falsy(s: Option<string>)
  {
    s.None? || s.value == ""
  }

  /** placeOrder up to the send: the account list is fetched (its result unused), the
      contract instance awaited, the amounts and the date converted. Each failure is
      passed on unchanged and nothing is submitted. */
  function PlaceOrderRequest(node: Node, data: OrderData): (r: Result<Transaction, LedgerError>)
    ensures node.accounts.Failure? ==> r == Failure(node.accounts.error)
    ensures node.accounts.Success? && node.contract.Failure? ==> r == Failure(node.contract.error)
    ensures node.accounts.Success? && node.contract.Success? && Falsy(data.userID) ==> r == Failure(NoSender)
    ensures r.Success? <==> node.accounts.Success? && node.contract.Success? && !Falsy(data.userID)
    ensures r.Success? ==>
      && r.value.PlaceOrderTx?
      && r.value.to == node.contract.value.address
      && r.value.from == data.userID.value
      && r.value.gas == Gas
      && r.value.supplierID == data.supplierID
      && r.value.deliveryDate == Seconds(data.deliveryDate)
      && r.value.totalPrice == Cents(data.totalPrice)
      && r.value.orderDetails == FormatDetails(data.orderDetails)
  {
    if node.accounts.Failure? then Failure(node.accounts.error)
    else if node.contract.Failure? then Failure(node.contract.error)
    else if Falsy(data.userID) then Failure(NoSender)
    else Success(PlaceOrderTx(node.contract.value.address, data.userID.value, Gas, data.supplierID,
                              Seconds(data.deliveryDate), Cents(data.totalPrice), FormatDetails(data.orderDetails)))
  }

  /** A JavaScript value that is falsy: absent or zero. */
  predicate FalsyID(id: Option<int>)
  {
    id.None? || id.value == 0
  }

  /** `accounts[0]`, the sender both controllers use: undefined for an empty list. */
  function FirstAccount(accounts: seq<Address>): (r: Option<Address>)
    ensures r.Some? <==> |accounts| > 0
    ensures r.Some? ==> r.value == accounts[0]
  {
    if |accounts| > 0 then Some(accounts[0]) else None
  }

  /** updateOrderStatus up to the send. The parameters are checked before the contract
      is awaited: a falsy orderID, an undefined status or a falsy sender is refused
      without any contract call. */
  function UpdateOrderStatusRequest(node: Node, orderID: Option<int>, status: Option<string>, userID: Option<Address>)
    : (r: Result<Transaction, LedgerError>)
    ensures FalsyID(orderID) || status.None? || Falsy(userID) ==> r == Failure(MissingParameters)
    ensures !(FalsyID(orderID) || status.None? || Falsy(userID)) && node.contract.Failure? ==> r == Failure(node.contract.error)
    ensures r.Success? <==> !FalsyID(orderID) && status.Some? && !Falsy(userID) && node.contract.Success?
    ensures r.Success? ==>
      && r.value.UpdateOrderStatusTx?
      && r.value.to == node.contract.value.address
      && r.value.from == userID.value
      && r.value.gas == Gas
      && r.value.orderID == orderID.value
      && (r.value.status == 1 <==> status.value == "Confirmed")
  {
    if FalsyID(orderID) || status.None? || Falsy(userID) then Failure(MissingParameters)
    else if node.contract.Failure? then Failure(node.contract.error)
    else Success(UpdateOrderStatusTx(node.contract.value.address, userID.value, Gas, orderID.value, StatusEnum(status.value)))
  }

  /** Sending a prepared request: an error raised before the send, or the node's error
      answer to it, is rethrown unchanged; otherwise the call resolves. */
  function Submit(request: Result<Transaction, LedgerError>, reply: Option<LedgerError>): (r: Outcome<LedgerError>)
    ensures request.Failure? ==> r == Fail(request.error)
    ensures request.Success? && reply.Some? ==> r == Fail(reply.value)
    ensures r.Pass? <==> request.Success? && reply.None?
  {
    if request.Failure? then Fail(request.error)
    else if reply.Some? then Fail(reply.value)
    else Pass
  }

  /** getOrder and getOrderDetails: the contract's answer to a read call, or the error of
      locating the contract, passed on unchanged. */
  function Read<T>(node: Node, answer: Result<T, LedgerError>): (r: Result<T, LedgerError>)
    ensures node.contract.Failure? ==> r == Failure(node.contract.error)
    ensures node.contract.Success? ==> r == answer
  {
    if node.contract.Failure? then Failure(node.contract.error) else answer
  }

  /** Amounts that are already whole cents are converted exactly. */
  lemma {:induction false} CentsExact(cents: int)
    ensures Cents(cents as real / 100.0) == cents
  {
    var r := Cents(cents as real / 100.0);
    assert cents as real / 100.0 * 100.0 == cents as real;
    assert r as real - 0.5 <= cents as real < r as real + 0.5;
  }

  /** Two lines priced 59.99 (quantity 2) and 39.99 (quantity 1) with a grand total of
      159.97 reach the contract as 15997 cents, with the unit prices 5999 and 3999. */
  lemma PlaceOrderExample(node: Node, from: Address, orderID: int)
    requires node.accounts.Success? && node.contract.Success? && from != ""
    ensures var data := OrderData(Some(from), 1, 1735689600000, 159.97,
                                  [DetailInput(orderID, 1, "Oak Wood", "", 2, 59.99),
                                   DetailInput(orderID, 2, "Pine Wood", "", 1, 39.99)]);
            var r := PlaceOrderRequest(node, data);
            && r.Success?
            && r.value.totalPrice == 15997
            && r.value.deliveryDate == 1735689600
            && |r.value.orderDetails| == 2
            && r.value.orderDetails[0].price == 5999 && r.value.orderDetails[0].quantity == 2
            && r.value.orderDetails[1].price == 3999 && r.value.orderDetails[1].quantity == 1
  {
    CentsExact(15997);
    CentsExact(5999);
    CentsExact(3999);
  }
}
