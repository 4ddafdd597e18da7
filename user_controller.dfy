/** controllers/userController.js: the order-confirmation page (placeOrder) and the
    order pipeline (recordOrder) that writes the order locally and then sends it to the
    ledger. */
module UserController {
  import opened Wrappers
  import opened Database
  import opened Web
  import Blockchain
  import UserModels
  import SupplierModels

  // ------------------------------------------------------------------ placeOrder

  /** The `orderDetails` query parameter after `JSON.parse`: absent (read as "{}"),
      not JSON, `null`, or an object whose entries map a product key (None when it
      names no integer) to a quantity. */
  datatype Query = Absent | NotJson | Null | Entries(entries: seq<(Option<int>, int)>)

  /** One enriched line of the confirmation page. */
  datatype Line =
    | Found(product: Product, quantity: int, totalPrice: real)
    | NotFound(productId: Option<int>, name: string, price: real, quantity: int)

  datatype OrderPage = OrderPage(currentDate: int, lines: seq<Line>, supplier: Option<UserModels.SupplierCard>)

  /** The line for one entry: the product (active or not) with its line total, or a
      placeholder priced 0. */
  function EnrichLine(t: Tables, productId: Option<int>, quantity: int): (r: Line)
    ensures r.Found? <==> UserModels.ProductDetails(t, productId).Some?
    ensures r.Found? ==> r.product == UserModels.ProductDetails(t, productId).value
                         && r.quantity == quantity && r.totalPrice == r.product.productPrice * quantity as real
    ensures r.NotFound? ==> r == NotFound(productId, "Product not found", 0.0, quantity)
  {
    match UserModels.ProductDetails(t, productId)
    case Some(p) => Found(p, quantity, p.productPrice * quantity as real)
    case None => NotFound(productId, "Product not found", 0.0, quantity)
  }

  /** The `Object.entries(...).map` of placeOrder: one line per entry, in entry order. */
  function Enrich(t: Tables, entries: seq<(Option<int>, int)>): (r: seq<Line>)
    ensures |r| == |entries|
    ensures forall i :: 0 <= i < |entries| ==> r[i] == EnrichLine(t, entries[i].0, entries[i].1)
  {
    if entries == [] then [] else [EnrichLine(t, entries[0].0, entries[0].1)] + Enrich(t, entries[1..])
  }

  /** placeOrder: a parameter that is not JSON rejects before the try block, so no
      reply is sent; `null` fails inside it with 500. */
  function PlaceOrder(t: Tables, supplierID: Option<int>, query: Query, today: int): (r: Result<OrderPage, Reply>)
    ensures query.NotJson? <==> r == Failure(NoResponse)
    ensures query.Null? <==> r == Failure(Status(500))
    ensures query.Absent? ==> r == Success(OrderPage(today, [], UserModels.SupplierByID(t, supplierID)))
    ensures query.Entries? ==>
      && r.Success? && r.value.currentDate == today
      && r.value.supplier == UserModels.SupplierByID(t, supplierID)
      && r.value.lines == Enrich(t, query.entries)
  {
    match query
    case NotJson => Failure(NoResponse)
    case Null => Failure(Status(500))
    case Absent => Success(OrderPage(today, [], UserModels.SupplierByID(t, supplierID)))
    case Entries(e) => Success(OrderPage(today, Enrich(t, e), UserModels.SupplierByID(t, supplierID)))
  }

  /** The confirmation page prices a product the supplier has deleted: the lookup
      ignores isActive. */
  lemma DeletedProductStillPriced(t: Tables, productID: int, quantity: int, supplierID: Option<int>, today: int)
    requires productID in t.products.rows
    ensures var r := PlaceOrder(SupplierModels.SoftDeleted(t, Some(productID)), supplierID, Entries([(Some(productID), quantity)]), today);
      && r.Success? && |r.value.lines| == 1 && r.value.lines[0].Found?
      && r.value.lines[0].product.isActive == 2
      && r.value.lines[0].totalPrice == t.products.rows[productID].productPrice * quantity as real
  {
    var t' := SupplierModels.SoftDeleted(t, Some(productID));
    assert t'.products.rows[productID] == t.products.rows[productID].(isActive := 2);
  }

  // ----------------------------------------------------------------- recordOrder

  /** An element of the parsed `orderDetails` array. */
  datatype Item = Item(productID: int, productName: string, productDescription: string, quantity: int, productPrice: real)

  /** The `orderDetails` field after `JSON.parse`: not JSON, JSON that is not an array
      (it has no `map`), or the array of items. */
  datatype Parsed = Malformed | NotArray | Items(items: seq<Item>)

  /** The form of recordOrder, with `grandTotal` after `parseFloat`. */
  datatype OrderForm = OrderForm(supplierID: int, orderDetails: Parsed, grandTotal: real, deliveryDate: int)

  /** The row createOrderDetail writes for `item` under key `id`. */
  function DetailRow(id: int, orderID: int, item: Item): OrderDetail
  {
    OrderDetail(id, orderID, item.productID, item.productName, item.productDescription, item.quantity, item.productPrice)
  }

  /** The store after one createOrderDetail per item, in array order. */
  function WithDetails(t: Tables, orderID: int, items: seq<Item>): Tables
    decreases |items|
  {
    if items == [] then t
    else
      var item := items[|items| - 1];
      UserModels.Detailed(WithDetails(t, orderID, items[..|items| - 1]), orderID, item.productID, item.productName,
                          item.productDescription, item.quantity, item.productPrice)
  }

  /** The items become consecutive detail rows after the last key, in order; nothing
      else changes. */
  lemma {:induction false} WithDetailsRows(t: Tables, orderID: int, items: seq<Item>)
    requires Keyed(t.details)
    ensures var t' := WithDetails(t, orderID, items);
      && t'.details.last == t.details.last + |items|
      && t' == t.(details := t'.details)
      && Keyed(t'.details)
      && (forall k :: k in t'.details.rows <==> k in t.details.rows || t.details.last < k <= t.details.last + |items|)
      && (forall k :: k in t.details.rows ==> t'.details.rows[k] == t.details.rows[k])
      && (forall i :: 0 <= i < |items| ==>
            t'.details.rows[t.details.last + 1 + i] == DetailRow(t.details.last + 1 + i, orderID, items[i]))
    decreases |items|
  {
    if items != [] {
      var init := items[..|items| - 1];
      WithDetailsRows(t, orderID, init);
      forall i | 0 <= i < |init| ensures init[i] == items[i] { }
    }
  }

  /** One more item is one more createOrderDetail. */
  lemma WithDetailsStep(t: Tables, orderID: int, items: seq<Item>, i: int)
    requires 0 <= i < |items|
    ensures WithDetails(t, orderID, items[..i + 1])
         == UserModels.Detailed(WithDetails(t, orderID, items[..i]), orderID, items[i].productID, items[i].productName,
                                items[i].productDescription, items[i].quantity, items[i].productPrice)
  {
    assert items[..i + 1][..i] == items[..i];
  }

  /** The recorded write of each detail row, keys `first + 1` to `first + n`. */
  function DetailWrites(first: int, n: nat): (r: seq<Effect>)
    ensures |r| == n
  {
    if n == 0 then [] else DetailWrites(first, n - 1) + [Wrote(OrderDetails, first + n)]
  }

  /** The writes are those of rows `first + 1` onwards, in key order. */
  lemma {:induction false} DetailWritesAt(first: int, n: nat)
    ensures forall i :: 0 <= i < n ==> DetailWrites(first, n)[i] == Wrote(OrderDetails, first + 1 + i)
  {
    if n > 0 {
      DetailWritesAt(first, n - 1);
    }
  }

  /** The order details handed to placeOrder, price after `parseFloat`. */
  function LedgerInputs(orderID: int, items: seq<Item>): (r: seq<Blockchain.DetailInput>)
    ensures |r| == |items|
    ensures forall i :: 0 <= i < |items| ==>
      r[i] == Blockchain.DetailInput(orderID, items[i].productID, items[i].productName, items[i].productDescription,
                                     items[i].quantity, items[i].productPrice)
  {
    seq(|items|, i requires 0 <= i < |items| =>
      Blockchain.DetailInput(orderID, items[i].productID, items[i].productName, items[i].productDescription,
                             items[i].quantity, items[i].productPrice))
  }

  /** What recordOrder sends: the account list is fetched first and its first entry is
      the sender. */
  function OrderRequest(node: Blockchain.Node, orderID: int, form: OrderForm, items: seq<Item>)
    : (r: Result<Blockchain.Transaction, Blockchain.LedgerError>)
    ensures node.accounts.Failure? ==> r == Failure(node.accounts.error)
  {
    if node.accounts.Failure? then Failure(node.accounts.error)
    else Blockchain.PlaceOrderRequest(node, Blockchain.OrderData(Blockchain.FirstAccount(node.accounts.value),
                                                                 form.supplierID, form.deliveryDate, form.grandTotal,
                                                                 LedgerInputs(orderID, items)))
  }

  /** The store after recordOrder's local writes for an array of items. */
  function Recorded(t: Tables, userID: int, form: OrderForm, today: int, items: seq<Item>): Tables
  {
    WithDetails(UserModels.Ordered(t, userID, form.supplierID, today, form.deliveryDate, form.grandTotal),
                t.orders.last + 1, items)
  }

  function SendOf(request: Result<Blockchain.Transaction, Blockchain.LedgerError>): seq<Effect>
  {
    if request.Success? then [Sent(request.value)] else []
  }

  lemma WritesBeforeSend(writes: seq<Effect>, sends: seq<Effect>)
    requires forall i :: 0 <= i < |writes| ==> writes[i].Wrote?
    requires forall i :: 0 <= i < |sends| ==> sends[i].Sent?
    ensures LocalBeforeLedger(writes + sends)
  {
    var trace := writes + sends;
    forall i, j | 0 <= i < j < |trace| && trace[i].Sent? ensures !trace[j].Wrote? {
      assert i >= |writes|;
    }
  }

  /** The createOrderDetail call for item `i`, after those before it; `trace` gains its
      write. */
  method CreateNextDetail(db: Db, orderID: int, ghost placed: Tables, items: seq<Item>, i: int, trace: seq<Effect>)
    returns (trace': seq<Effect>)
    requires db.Valid() && 0 <= i < |items|
    requires db.State() == WithDetails(placed, orderID, items[..i]) && db.details.last == placed.details.last + i
    requires trace == DetailWrites(placed.details.last, i)
    modifies db
    ensures db.Valid() && db.savepoint == old(db.savepoint)
    ensures db.State() == WithDetails(placed, orderID, items[..i + 1]) && db.details.last == placed.details.last + i + 1
    ensures trace' == DetailWrites(placed.details.last, i + 1)
  {
    var item := items[i];
    WithDetailsStep(placed, orderID, items, i);
    var detailID := UserModels.CreateOrderDetail(db, orderID, item.productID, item.productName,
                                                 item.productDescription, item.quantity, item.productPrice);
    trace' := trace + [Wrote(OrderDetails, detailID)];
  }

  /** The `Promise.all` of createOrderDetail calls: one row per item, in array order. */
  method CreateDetails(db: Db, orderID: int, items: seq<Item>) returns (trace: seq<Effect>)
    requires db.Valid()
    modifies db
    ensures db.Valid() && db.savepoint == old(db.savepoint)
    ensures db.State() == WithDetails(old(db.State()), orderID, items)
    ensures trace == DetailWrites(old(db.details.last), |items|)
  {
    trace := [];
    ghost var placed := db.State();
    var i := 0;
    assert items[..0] == [];
    while i < |items|
      invariant 0 <= i <= |items|
      invariant db.Valid() && db.savepoint == old(db.savepoint)
      invariant db.State() == WithDetails(placed, orderID, items[..i])
      invariant db.details.last == placed.details.last + i
      invariant trace == DetailWrites(placed.details.last, i)
    {
      trace := CreateNextDetail(db, orderID, placed, items, i, trace);
      i := i + 1;
    }
    assert items[..i] == items;
  }

  /** recordOrder's trace: the local writes, then at most the one send. */
  lemma RecordTraceOrdered(orderID: int, first: int, n: nat, request: Result<Blockchain.Transaction, Blockchain.LedgerError>)
    ensures LocalBeforeLedger([Wrote(Orders, orderID)] + DetailWrites(first, n) + SendOf(request))
  {
    var writes := [Wrote(Orders, orderID)] + DetailWrites(first, n);
    DetailWritesAt(first, n);
    assert forall i :: 0 <= i < |writes| ==> writes[i].Wrote? by {
      forall i | 0 <= i < |writes| ensures writes[i].Wrote? {
        if i > 0 { assert writes[i] == DetailWrites(first, n)[i - 1]; }
      }
    }
    WritesBeforeSend(writes, SendOf(request));
  }

  /** recordOrder: 403 without a session; a body that is not JSON gives 500 before any
      write; a JSON value without `map` gives 500 after the order row is written; else
      the order row, then the detail rows, then the ledger transaction, whose failure
      gives 500 with the local rows kept. `reply` is the node's answer to the send. */
  method RecordOrder(db: Db, session: Session, form: OrderForm, today: int,
                     node: Blockchain.Node, reply: Option<Blockchain.LedgerError>)
    returns (res: Reply, trace: seq<Effect>)
    requires db.Valid()
    modifies db
    ensures db.Valid() && db.savepoint == old(db.savepoint)
    ensures LocalBeforeLedger(trace)
    ensures session.user.None? ==> res == Status(403) && trace == [] && db.State() == old(db.State())
    ensures session.user.Some? && form.orderDetails.Malformed? ==>
      res == Status(500) && trace == [] && db.State() == old(db.State())
    ensures session.user.Some? && form.orderDetails.NotArray? ==>
      && res == Status(500) && trace == [Wrote(Orders, old(db.orders.last) + 1)]
      && db.State() == Recorded(old(db.State()), session.user.value.id, form, today, [])
    ensures session.user.Some? && form.orderDetails.Items? ==>
      var items := form.orderDetails.items;
      var request := OrderRequest(node, old(db.orders.last) + 1, form, items);
      && db.State() == Recorded(old(db.State()), session.user.value.id, form, today, items)
      && trace == [Wrote(Orders, old(db.orders.last) + 1)] + DetailWrites(old(db.details.last), |items|) + SendOf(request)
      && res == (if Blockchain.Submit(request, reply).Pass? then Redirect("/user/manageorder?orderPlaced=true") else Status(500))
  {
    trace := [];
    if session.user.None? {
      return Status(403), trace;
    }
    match form.orderDetails
    case Malformed =>
      return Status(500), trace;
    case NotArray =>
      var orderID := UserModels.CreateOrder(db, session.user.value.id, form.supplierID, today, form.deliveryDate, form.grandTotal);
      assert db.State() == Recorded(old(db.State()), session.user.value.id, form, today, []);
      return Status(500), [Wrote(Orders, orderID)];
    case Items(items) =>
      res, trace := RecordItems(db, session.user.value.id, form, today, items, node, reply);
  }

  /** recordOrder for an array of items: the order row, the detail rows, the ledger. */
  method RecordItems(db: Db, userID: int, form: OrderForm, today: int, items: seq<Item>,
                     node: Blockchain.Node, reply: Option<Blockchain.LedgerError>)
    returns (res: Reply, trace: seq<Effect>)
    requires db.Valid()
    modifies db
    ensures db.Valid() && db.savepoint == old(db.savepoint)
    ensures var request := OrderRequest(node, old(db.orders.last) + 1, form, items);
      && db.State() == Recorded(old(db.State()), userID, form, today, items)
      && trace == [Wrote(Orders, old(db.orders.last) + 1)] + DetailWrites(old(db.details.last), |items|) + SendOf(request)
      && LocalBeforeLedger(trace)
      && res == (if Blockchain.Submit(request, reply).Pass? then Redirect("/user/manageorder?orderPlaced=true") else Status(500))
  {
    ghost var t0 := db.State();
    var orderID := UserModels.CreateOrder(db, userID, form.supplierID, today, form.deliveryDate, form.grandTotal);
    ghost var t1 := db.State();
    assert t1.details.last == t0.details.last;
    var writes := CreateDetails(db, orderID, items);
    assert db.State() == Recorded(t0, userID, form, today, items);
    var request := OrderRequest(node, orderID, form, items);
    RecordTraceOrdered(orderID, t0.details.last, |items|, request);
    trace := [Wrote(Orders, orderID)] + writes + SendOf(request);
    var outcome := Blockchain.Submit(request, reply);
    res := if outcome.Pass? then Redirect("/user/manageorder?orderPlaced=true") else Status(500);
  }

  /** The ledger copy of a recorded order agrees with the stored order row: the same
      supplier, and the stored total in cents. */
  lemma LedgerMatchesOrder(t: Tables, node: Blockchain.Node, userID: int, form: OrderForm, today: int, items: seq<Item>)
    requires Keyed(t.details)
    requires OrderRequest(node, t.orders.last + 1, form, items).Success?
    ensures var t' := Recorded(t, userID, form, today, items);
      var tx := OrderRequest(node, t.orders.last + 1, form, items).value;
      && t.orders.last + 1 in t'.orders.rows
      && tx.PlaceOrderTx?
      && tx.totalPrice == Blockchain.Cents(t'.orders.rows[t.orders.last + 1].totalPrice)
      && tx.supplierID == t'.orders.rows[t.orders.last + 1].supplierID
  {
    var ordered := UserModels.Ordered(t, userID, form.supplierID, today, form.deliveryDate, form.grandTotal);
    WithDetailsRows(ordered, t.orders.last + 1, items);
  }

  /** ...and its lines are the stored detail rows in key order, each with the unit price
      in cents. */
  lemma LedgerMatchesDetails(t: Tables, node: Blockchain.Node, userID: int, form: OrderForm, today: int, items: seq<Item>)
    requires Keyed(t.details)
    requires OrderRequest(node, t.orders.last + 1, form, items).Success?
    ensures var tx := OrderRequest(node, t.orders.last + 1, form, items).value;
      && tx.PlaceOrderTx?
      && |tx.orderDetails| == |items|
      && forall i :: 0 <= i < |items| ==> LedgerLineMatches(t, node, userID, form, today, items, i)
  {
    RequestLines(node, t.orders.last + 1, form, items);
    forall i | 0 <= i < |items|
      ensures LedgerLineMatches(t, node, userID, form, today, items, i)
    {
      LedgerLineMatchesAt(t, node, userID, form, today, items, i);
    }
  }

  /** Line `i` of the transaction agrees with the detail row stored for item `i`. */
  ghost predicate LedgerLineMatches(t: Tables, node: Blockchain.Node, userID: int, form: OrderForm, today: int,
                                    items: seq<Item>, i: int)
    requires OrderRequest(node, t.orders.last + 1, form, items).Success?
  {
    var t' := Recorded(t, userID, form, today, items);
    var tx := OrderRequest(node, t.orders.last + 1, form, items).value;
    && tx.PlaceOrderTx?
    && 0 <= i < |tx.orderDetails|
    && t.details.last + 1 + i in t'.details.rows
    && var row := t'.details.rows[t.details.last + 1 + i];
    && tx.orderDetails[i].orderID == row.orderID == t.orders.last + 1
    && tx.orderDetails[i].productID == row.productID
    && tx.orderDetails[i].quantity == row.quantity
    && tx.orderDetails[i].price == Blockchain.Cents(row.price)
  }

  lemma LedgerLineMatchesAt(t: Tables, node: Blockchain.Node, userID: int, form: OrderForm, today: int,
                            items: seq<Item>, i: int)
    requires Keyed(t.details) && 0 <= i < |items|
    requires OrderRequest(node, t.orders.last + 1, form, items).Success?
    ensures LedgerLineMatches(t, node, userID, form, today, items, i)
  {
    RecordedRow(t, userID, form, today, items, i);
    RequestLine(node, t.orders.last + 1, form, items, i);
  }

  /** The detail row recordOrder stores for item `i`. */
  lemma RecordedRow(t: Tables, userID: int, form: OrderForm, today: int, items: seq<Item>, i: int)
    requires Keyed(t.details) && 0 <= i < |items|
    ensures var rows := Recorded(t, userID, form, today, items).details.rows;
      && t.details.last + 1 + i in rows
      && rows[t.details.last + 1 + i] == DetailRow(t.details.last + 1 + i, t.orders.last + 1, items[i])
  {
    var ordered := UserModels.Ordered(t, userID, form.supplierID, today, form.deliveryDate, form.grandTotal);
    assert ordered.details == t.details;
    WithDetailsRow(ordered, t.orders.last + 1, items, i);
  }

  /** The row written for item `i`. */
  lemma WithDetailsRow(t: Tables, orderID: int, items: seq<Item>, i: int)
    requires Keyed(t.details) && 0 <= i < |items|
    ensures var rows := WithDetails(t, orderID, items).details.rows;
      && t.details.last + 1 + i in rows
      && rows[t.details.last + 1 + i] == DetailRow(t.details.last + 1 + i, orderID, items[i])
  {
    WithDetailsRows(t, orderID, items);
  }

  /** The lines of the transaction copy the items, the price converted to cents. */
  lemma RequestLines(node: Blockchain.Node, orderID: int, form: OrderForm, items: seq<Item>)
    requires OrderRequest(node, orderID, form, items).Success?
    ensures var tx := OrderRequest(node, orderID, form, items).value;
      && tx.PlaceOrderTx?
      && |tx.orderDetails| == |items|
      && forall i :: 0 <= i < |items| ==>
           && tx.orderDetails[i].orderID == orderID
           && tx.orderDetails[i].productID == items[i].productID
           && tx.orderDetails[i].quantity == items[i].quantity
           && tx.orderDetails[i].price == Blockchain.Cents(items[i].productPrice)
  {
    var inputs := LedgerInputs(orderID, items);
    var tx := OrderRequest(node, orderID, form, items).value;
    assert tx.orderDetails == Blockchain.FormatDetails(inputs);
  }

  /** Line `i` of the transaction copies item `i`, the price converted to cents. */
  lemma RequestLine(node: Blockchain.Node, orderID: int, form: OrderForm, items: seq<Item>, i: int)
    requires OrderRequest(node, orderID, form, items).Success? && 0 <= i < |items|
    ensures var tx := OrderRequest(node, orderID, form, items).value;
      && tx.PlaceOrderTx?
      && i < |tx.orderDetails|
      && tx.orderDetails[i].orderID == orderID
      && tx.orderDetails[i].productID == items[i].productID
      && tx.orderDetails[i].quantity == items[i].quantity
      && tx.orderDetails[i].price == Blockchain.Cents(items[i].productPrice)
  {
    RequestLines(node, orderID, form, items);
  }
}
