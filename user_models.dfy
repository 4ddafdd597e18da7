/** models/userModels.js: what a buying company sees (suppliers, their products, its
    own orders) and the writes of an order. */
module UserModels {
  import opened Wrappers
  import opened Database
  import Text
  import SupplierModels

  // ----------------------------------------------------------------- suppliers

  /** A row of getAllSuppliers: the supplier with its user's company details. */
  datatype SupplierCard = SupplierCard(userID: int, companyName: string, companyAddress: string,
                                       profilePhoto: Option<string>, supplierID: int, supplierDescription: string)

  function Card(u: User, s: Supplier): SupplierCard
  {
    SupplierCard(u.userID, u.companyName, u.companyAddress, u.profilePhoto, s.supplierID, s.supplierDescription)
  }

  /** The supplier rows whose user exists (Users JOIN Suppliers), filtered by `keep` on
      the user. */
  predicate Joined(t: Tables, s: Supplier, keep: User -> bool)
  {
    s.userID in t.users.rows && keep(t.users.rows[s.userID])
  }

  function Cards(t: Tables, suppliers: seq<Supplier>): (r: seq<SupplierCard>)
    requires forall s :: s in suppliers ==> s.userID in t.users.rows
    ensures forall c :: c in r <==> exists s :: s in suppliers && c == Card(t.users.rows[s.userID], s)
    ensures |r| == |suppliers| && forall i :: 0 <= i < |suppliers| ==> r[i] == Card(t.users.rows[suppliers[i].userID], suppliers[i])
  {
    if suppliers == [] then []
    else
      assert forall s :: s in suppliers <==> s == suppliers[0] || s in suppliers[1..];
      [Card(t.users.rows[suppliers[0].userID], suppliers[0])] + Cards(t, suppliers[1..])
  }

  function SupplierCards(t: Tables, keep: User -> bool): (r: seq<SupplierCard>)
    requires Keyed(t.suppliers)
    ensures forall c :: c in r <==> exists k :: k in t.suppliers.rows && Joined(t, t.suppliers.rows[k], keep)
                                     && c == Card(t.users.rows[t.suppliers.rows[k].userID], t.suppliers.rows[k])
    ensures var ids := SelectIds(t.suppliers.rows, s => Joined(t, s, keep), t.suppliers.last);
      |r| == |ids| && forall i :: 0 <= i < |ids| ==> r[i] == Card(t.users.rows[t.suppliers.rows[ids[i]].userID], t.suppliers.rows[ids[i]])
  {
    var suppliers := Rows(t.suppliers, s => Joined(t, s, keep));
    SupplierCardsCover(t, keep, suppliers);
    Cards(t, suppliers)
  }

  /** The cards of the joined supplier rows are the cards of the stored rows that pass
      the join and the filter. */
  lemma SupplierCardsCover(t: Tables, keep: User -> bool, suppliers: seq<Supplier>)
    requires Keyed(t.suppliers)
    requires forall s :: s in suppliers ==> Stored(t.suppliers, s) && s.userID in t.users.rows && keep(t.users.rows[s.userID])
    requires forall s :: Stored(t.suppliers, s) && Joined(t, s, keep) ==> s in suppliers
    ensures forall c :: c in Cards(t, suppliers) <==>
      exists k :: k in t.suppliers.rows && Joined(t, t.suppliers.rows[k], keep)
                  && c == Card(t.users.rows[t.suppliers.rows[k].userID], t.suppliers.rows[k])
  {
    var r := Cards(t, suppliers);
    forall c | c in r
      ensures exists k :: k in t.suppliers.rows && Joined(t, t.suppliers.rows[k], keep)
                          && c == Card(t.users.rows[t.suppliers.rows[k].userID], t.suppliers.rows[k])
    {
      var s :| s in suppliers && c == Card(t.users.rows[s.userID], s);
      var k :| k in t.suppliers.rows && t.suppliers.rows[k] == s;
    }
    forall k | k in t.suppliers.rows && Joined(t, t.suppliers.rows[k], keep)
      ensures Card(t.users.rows[t.suppliers.rows[k].userID], t.suppliers.rows[k]) in r
    {
      assert Stored(t.suppliers, t.suppliers.rows[k]);
    }
  }

  /** getAllSuppliers */
  function AllSuppliers(t: Tables): (r: seq<SupplierCard>)
    requires Keyed(t.suppliers)
    ensures forall c :: c in r <==> exists k :: k in t.suppliers.rows && Joined(t, t.suppliers.rows[k], (u: User) => true)
                                     && c == Card(t.users.rows[t.suppliers.rows[k].userID], t.suppliers.rows[k])
    ensures |r| == |SelectIds(t.suppliers.rows, s => Joined(t, s, (u: User) => true), t.suppliers.last)|
  {
    SupplierCards(t, (u: User) => true)
  }

  /** searchSuppliersByName: suppliers whose company name is LIKE `'%name%'`. */
  function SearchSuppliersByName(t: Tables, name: string): (r: seq<SupplierCard>)
    requires Keyed(t.suppliers)
    ensures forall c :: c in r <==> exists k :: k in t.suppliers.rows && Joined(t, t.suppliers.rows[k], (u: User) => Text.Like(u.companyName, name))
                                     && c == Card(t.users.rows[t.suppliers.rows[k].userID], t.suppliers.rows[k])
    ensures |r| == |SelectIds(t.suppliers.rows, s => Joined(t, s, (u: User) => Text.Like(u.companyName, name)), t.suppliers.last)|
  {
    SupplierCards(t, (u: User) => Text.Like(u.companyName, name))
  }

  /** A search lists some of the suppliers, and the empty search all of them. */
  lemma SearchWithinSuppliers(t: Tables, name: string)
    requires Keyed(t.suppliers)
    ensures forall c :: c in SearchSuppliersByName(t, name) ==> c in AllSuppliers(t)
    ensures forall c :: c in AllSuppliers(t) <==> c in SearchSuppliersByName(t, "")
  {
    forall k | k in t.suppliers.rows && t.suppliers.rows[k].userID in t.users.rows
      ensures Joined(t, t.suppliers.rows[k], (u: User) => Text.Like(u.companyName, ""))
    {
      Text.LikeEmpty(t.users.rows[t.suppliers.rows[k].userID].companyName);
    }
  }

  /** getSupplierById: the supplier's card, or null when there is no such supplier or
      its user row is missing. */
  function SupplierByID(t: Tables, supplierID: Option<int>): (r: Option<SupplierCard>)
    ensures r.Some? <==> supplierID.Some? && supplierID.value in t.suppliers.rows
                         && t.suppliers.rows[supplierID.value].userID in t.users.rows
    ensures r.Some? && Schema(t) ==> r.value.supplierID == supplierID.value
    ensures r.Some? ==> r.value == Card(t.users.rows[t.suppliers.rows[supplierID.value].userID], t.suppliers.rows[supplierID.value])
  {
    match ByKey(t.suppliers, supplierID)
    case Some(s) => if s.userID in t.users.rows then Some(Card(t.users.rows[s.userID], s)) else None
    case None => None
  }

  // ------------------------------------------------------------------ products

  /** fetchProductDetails: the product by ID, without the isActive filter. */
  function ProductDetails(t: Tables, productID: Option<int>): (r: Option<Product>)
    ensures r.Some? <==> productID.Some? && productID.value in t.products.rows
    ensures r.Some? ==> r.value == t.products.rows[productID.value]
  {
    ByKey(t.products, productID)
  }

  /** A soft-deleted product leaves every listing but is still fetched by ID, so an
      order form that names it can still be priced. */
  lemma SoftDeletedStillFetched(t: Tables, productID: int)
    requires productID in t.products.rows
    ensures ProductDetails(SupplierModels.SoftDeleted(t, Some(productID)), Some(productID))
            == Some(t.products.rows[productID].(isActive := 2))
  {
  }

  // -------------------------------------------------------------------- orders

  /** The row createOrder writes: always 'Pending'. */
  function Ordered(t: Tables, userID: int, supplierID: int, date: int, deliveryDate: int, totalPrice: real): Tables
  {
    t.(orders := Insert(t.orders, Order(t.orders.last + 1, userID, supplierID, date, deliveryDate, totalPrice, "Pending")))
  }

  method CreateOrder(db: Db, userID: int, supplierID: int, date: int, deliveryDate: int, totalPrice: real)
    returns (orderID: int)
    requires db.Valid()
    modifies db
    ensures db.Valid() && db.savepoint == old(db.savepoint)
    ensures orderID == old(db.orders.last) + 1
    ensures db.State() == Ordered(old(db.State()), userID, supplierID, date, deliveryDate, totalPrice)
  {
    var r := db.InsertOrder(userID, supplierID, date, deliveryDate, totalPrice, "Pending");
    orderID := r.value;
  }

  /** The row createOrderDetail writes. */
  function Detailed(t: Tables, orderID: int, productID: int, name: string, description: string, quantity: int, price: real): Tables
  {
    t.(details := Insert(t.details, OrderDetail(t.details.last + 1, orderID, productID, name, description, quantity, price)))
  }

  method CreateOrderDetail(db: Db, orderID: int, productID: int, name: string, description: string, quantity: int, price: real)
    returns (detailID: int)
    requires db.Valid()
    modifies db
    ensures db.Valid() && db.savepoint == old(db.savepoint)
    ensures detailID == old(db.details.last) + 1
    ensures db.State() == Detailed(old(db.State()), orderID, productID, name, description, quantity, price)
  {
    detailID := db.InsertOrderDetail(orderID, productID, name, description, quantity, price);
  }

  /** A row of getOrdersByUserID: the order with its supplier's company name. */
  datatype SupplierOrder = SupplierOrder(orderID: int, userID: int, supplierName: string, date: int,
                                         deliveryDate: int, totalPrice: real, status: string)

  /** The company behind an order's supplier (Orders JOIN Suppliers JOIN Users). */
  predicate HasSupplierUser(t: Tables, o: Order)
  {
    o.supplierID in t.suppliers.rows && t.suppliers.rows[o.supplierID].userID in t.users.rows
  }

  function SupplierRow(t: Tables, o: Order): SupplierOrder
    requires HasSupplierUser(t, o)
  {
    SupplierOrder(o.orderID, o.userID, t.users.rows[t.suppliers.rows[o.supplierID].userID].companyName,
                  o.date, o.deliveryDate, o.totalPrice, o.deliveryStatus)
  }

  predicate Bought(t: Tables, o: Order, userID: Option<int>, keep: string -> bool)
  {
    SqlEq(Some(o.userID), userID) && HasSupplierUser(t, o) && keep(t.users.rows[t.suppliers.rows[o.supplierID].userID].companyName)
  }

  function JoinSuppliers(t: Tables, orders: seq<Order>): (r: seq<SupplierOrder>)
    requires forall o :: o in orders ==> HasSupplierUser(t, o)
    ensures forall c :: c in r <==> exists o :: o in orders && c == SupplierRow(t, o)
    ensures |r| == |orders| && forall i :: 0 <= i < |orders| ==> r[i] == SupplierRow(t, orders[i])
  {
    if orders == [] then []
    else
      assert forall o :: o in orders <==> o == orders[0] || o in orders[1..];
      [SupplierRow(t, orders[0])] + JoinSuppliers(t, orders[1..])
  }

  function BuyerOrders(t: Tables, userID: Option<int>, keep: string -> bool): (r: seq<SupplierOrder>)
    requires Keyed(t.orders)
    ensures forall c :: c in r <==> exists k :: k in t.orders.rows && Bought(t, t.orders.rows[k], userID, keep)
                                     && c == SupplierRow(t, t.orders.rows[k])
    ensures var ids := SelectIds(t.orders.rows, o => Bought(t, o, userID, keep), t.orders.last);
      |r| == |ids| && forall i :: 0 <= i < |ids| ==> ids[i] in t.orders.rows && r[i] == SupplierRow(t, t.orders.rows[ids[i]])
  {
    var orders := Rows(t.orders, o => Bought(t, o, userID, keep));
    BuyerOrdersCover(t, userID, keep, orders);
    JoinSuppliers(t, orders)
  }

  /** The joined rows of the selected orders are those of the stored orders that pass
      the joins and the filter. */
  lemma BuyerOrdersCover(t: Tables, userID: Option<int>, keep: string -> bool, orders: seq<Order>)
    requires Keyed(t.orders)
    requires forall o :: o in orders ==> Stored(t.orders, o) && HasSupplierUser(t, o) && Bought(t, o, userID, keep)
    requires forall o :: Stored(t.orders, o) && Bought(t, o, userID, keep) ==> o in orders
    ensures forall c :: c in JoinSuppliers(t, orders) <==>
      exists k :: k in t.orders.rows && Bought(t, t.orders.rows[k], userID, keep) && c == SupplierRow(t, t.orders.rows[k])
  {
    var r := JoinSuppliers(t, orders);
    forall c | c in r
      ensures exists k :: k in t.orders.rows && Bought(t, t.orders.rows[k], userID, keep) && c == SupplierRow(t, t.orders.rows[k])
    {
      var o :| o in orders && c == SupplierRow(t, o);
      var k :| k in t.orders.rows && t.orders.rows[k] == o;
    }
    forall k | k in t.orders.rows && Bought(t, t.orders.rows[k], userID, keep)
      ensures SupplierRow(t, t.orders.rows[k]) in r
    {
      assert Stored(t.orders, t.orders.rows[k]);
    }
  }

  /** getOrdersByUserID: the user's orders whose supplier is known. */
  function OrdersByUserID(t: Tables, userID: Option<int>): (r: seq<SupplierOrder>)
    requires Keyed(t.orders)
    ensures forall c :: c in r <==> exists k :: k in t.orders.rows && Bought(t, t.orders.rows[k], userID, (n: string) => true)
                                     && c == SupplierRow(t, t.orders.rows[k])
    ensures |r| == |SelectIds(t.orders.rows, o => Bought(t, o, userID, (n: string) => true), t.orders.last)|
  {
    BuyerOrders(t, userID, (n: string) => true)
  }

  /** searchOrdersBySupplierName: those of them whose supplier's name is LIKE `'%name%'`. */
  function SearchOrdersBySupplierName(t: Tables, userID: Option<int>, name: string): (r: seq<SupplierOrder>)
    requires Keyed(t.orders)
    ensures forall c :: c in r <==> exists k :: k in t.orders.rows && Bought(t, t.orders.rows[k], userID, (n: string) => Text.Like(n, name))
                                     && c == SupplierRow(t, t.orders.rows[k])
    ensures |r| == |SelectIds(t.orders.rows, o => Bought(t, o, userID, (n: string) => Text.Like(n, name)), t.orders.last)|
  {
    BuyerOrders(t, userID, (n: string) => Text.Like(n, name))
  }

  /** A new order shows in its buyer's order list when its supplier ID names a supplier
      row whose user exists... */
  lemma NewOrderVisibleToBuyer(t: Tables, userID: int, supplierID: int, date: int, deliveryDate: int, totalPrice: real)
    requires Keyed(t.orders)
    requires supplierID in t.suppliers.rows && t.suppliers.rows[supplierID].userID in t.users.rows
    ensures var t' := Ordered(t, userID, supplierID, date, deliveryDate, totalPrice);
      SupplierRow(t', t'.orders.rows[t.orders.last + 1]) in OrdersByUserID(t', Some(userID))
  {
    var t' := Ordered(t, userID, supplierID, date, deliveryDate, totalPrice);
    assert Bought(t', t'.orders.rows[t.orders.last + 1], Some(userID), (n: string) => true);
  }

  /** ...and otherwise the inner joins hide it. */
  lemma NewOrderHiddenWithoutSupplier(t: Tables, userID: int, supplierID: int, date: int, deliveryDate: int, totalPrice: real)
    requires Schema(t)
    requires !(supplierID in t.suppliers.rows && t.suppliers.rows[supplierID].userID in t.users.rows)
    ensures var t' := Ordered(t, userID, supplierID, date, deliveryDate, totalPrice);
      forall c :: c in OrdersByUserID(t', Some(userID)) ==> c.orderID != t.orders.last + 1
  {
    var t' := Ordered(t, userID, supplierID, date, deliveryDate, totalPrice);
    forall c | c in OrdersByUserID(t', Some(userID)) ensures c.orderID != t.orders.last + 1 {
      var k :| k in t'.orders.rows && Bought(t', t'.orders.rows[k], Some(userID), (n: string) => true) && c == SupplierRow(t', t'.orders.rows[k]);
      assert k != t.orders.last + 1;
      assert t'.orders.rows[k] == t.orders.rows[k];
    }
  }
}
