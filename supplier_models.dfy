/** models/supplierModels.js: the supplier's catalogue and the orders placed with it. */
module SupplierModels {
  import opened Wrappers
  import opened Database
  import Text

  // ---------------------------------------------------------------- catalogue

  /** A catalogue row: written for `supplierID` and not soft-deleted. */
  predicate Listed(p: Product, supplierID: Option<int>)
  {
    SqlEq(p.supplierID, supplierID) && p.isActive == 1
  }

  /** getSupplierProducts: the active products of the supplier. */
  function SupplierProducts(t: Tables, supplierID: Option<int>): (r: seq<Product>)
    requires Keyed(t.products)
    ensures forall p :: p in r <==> Stored(t.products, p) && Listed(p, supplierID)
    ensures var ids := SelectIds(t.products.rows, p => Listed(p, supplierID), t.products.last);
      |r| == |ids| && forall i :: 0 <= i < |ids| ==> r[i] == t.products.rows[ids[i]]
  {
    Rows(t.products, p => Listed(p, supplierID))
  }

  /** getProductsByName: the active products of the supplier whose name is LIKE
      `'%name%'`. */
  function ProductsByName(t: Tables, supplierID: Option<int>, name: string): (r: seq<Product>)
    requires Keyed(t.products)
    ensures forall p :: p in r <==> Stored(t.products, p) && Listed(p, supplierID) && Text.Like(p.productName, name)
    ensures var ids := SelectIds(t.products.rows, p => Listed(p, supplierID) && Text.Like(p.productName, name), t.products.last);
      |r| == |ids| && forall i :: 0 <= i < |ids| ==> r[i] == t.products.rows[ids[i]]
  {
    Rows(t.products, p => Listed(p, supplierID) && Text.Like(p.productName, name))
  }

  /** A search returns part of the catalogue, and the empty search all of it. */
  lemma SearchWithinCatalogue(t: Tables, supplierID: Option<int>, name: string)
    requires Keyed(t.products)
    ensures forall p :: p in ProductsByName(t, supplierID, name) ==> p in SupplierProducts(t, supplierID)
    ensures forall p :: p in SupplierProducts(t, supplierID) <==> p in ProductsByName(t, supplierID, "")
  {
    forall p ensures p in SupplierProducts(t, supplierID) ==> p in ProductsByName(t, supplierID, "") {
      Text.LikeEmpty(p.productName);
    }
  }

  /** Searching the catalogue for a product's own name finds that product. */
  lemma SearchFindsOwnName(t: Tables, supplierID: Option<int>, p: Product)
    requires Keyed(t.products) && p in SupplierProducts(t, supplierID)
    ensures p in ProductsByName(t, supplierID, p.productName)
  {
    Text.LikeSelf(p.productName);
  }

  /** The row addProduct writes: isActive takes its default. */
  function Added(t: Tables, supplierID: Option<int>, name: string, description: string, price: real, image: string): Tables
  {
    t.(products := Insert(t.products, Product(t.products.last + 1, supplierID, name, description, price, image, 1)))
  }

  /** addProduct: the new product is in its supplier's catalogue under a fresh ID, and
      no other product changed. */
  lemma AddedIsListed(t: Tables, supplierID: int, name: string, description: string, price: real, image: string)
    requires Schema(t)
    ensures var t' := Added(t, Some(supplierID), name, description, price, image);
      && t.products.last + 1 !in t.products.rows
      && Product(t.products.last + 1, Some(supplierID), name, description, price, image, 1) in SupplierProducts(t', Some(supplierID))
      && forall k :: k in t.products.rows ==> k in t'.products.rows && t'.products.rows[k] == t.products.rows[k]
  {
    var t' := Added(t, Some(supplierID), name, description, price, image);
    assert t'.products.rows[t.products.last + 1] == Product(t.products.last + 1, Some(supplierID), name, description, price, image, 1);
  }

  method AddProduct(db: Db, supplierID: Option<int>, name: string, description: string, price: real, image: string)
    returns (productID: int)
    requires db.Valid()
    modifies db
    ensures db.Valid() && db.savepoint == old(db.savepoint)
    ensures db.State() == Added(old(db.State()), supplierID, name, description, price, image)
    ensures productID == old(db.products.last) + 1
  {
    productID := db.InsertProduct(supplierID, name, description, price, image);
  }

  /** updateProduct: name, description and price are replaced, and the image only when
      a non-empty one is given; the supplier and the active flag are kept. */
  function Edited(t: Tables, productID: Option<int>, name: string, description: string, price: real, image: Option<string>): Tables
  {
    if productID.Some? && productID.value in t.products.rows then
      var p := t.products.rows[productID.value];
      var p' := if image.Some? && image.value != "" then p.(productName := name, productDescription := description, productPrice := price, productImage := image.value)
                else p.(productName := name, productDescription := description, productPrice := price);
      t.(products := Replace(t.products, productID.value, p'))
    else t
  }

  lemma EditKeepsOwnership(t: Tables, productID: int, name: string, description: string, price: real, image: Option<string>)
    requires productID in t.products.rows
    ensures var p := t.products.rows[productID];
      var q := Edited(t, Some(productID), name, description, price, image).products.rows[productID];
      && q.productID == p.productID && q.supplierID == p.supplierID && q.isActive == p.isActive
      && q.productName == name && q.productDescription == description && q.productPrice == price
      && q.productImage == (if image.Some? && image.value != "" then image.value else p.productImage)
  {
  }

  /** `this.changes` of an UPDATE ... WHERE <primary key> = key. */
  function Changes<R>(t: Table<R>, key: Option<int>): (r: int)
    ensures r == 0 || r == 1
    ensures r == 1 <==> ByKey(t, key).Some?
  {
    if key.Some? && key.value in t.rows then 1 else 0
  }

  method UpdateProduct(db: Db, productID: Option<int>, name: string, description: string, price: real, image: Option<string>)
    returns (changes: int)
    requires db.Valid()
    modifies db
    ensures db.Valid() && db.savepoint == old(db.savepoint)
    ensures db.State() == Edited(old(db.State()), productID, name, description, price, image)
    ensures changes == Changes(old(db.products), productID)
  {
    changes := Changes(db.products, productID);
    db.products := Edited(db.State(), productID, name, description, price, image).products;
  }

  /** deleteProduct: the soft delete, isActive = 2. */
  function SoftDeleted(t: Tables, productID: Option<int>): Tables
  {
    if productID.Some? && productID.value in t.products.rows then
      t.(products := Replace(t.products, productID.value, t.products.rows[productID.value].(isActive := 2)))
    else t
  }

  /** A soft delete removes exactly that product from every catalogue listing and search,
      and keeps its row. */
  lemma DeleteHidesProduct(t: Tables, productID: int, supplierID: Option<int>, name: string)
    requires Schema(t)
    ensures var t' := SoftDeleted(t, Some(productID));
      && (forall p :: p in SupplierProducts(t', supplierID) <==> p in SupplierProducts(t, supplierID) && p.productID != productID)
      && (forall p :: p in ProductsByName(t', supplierID, name) <==> p in ProductsByName(t, supplierID, name) && p.productID != productID)
      && t'.products.rows.Keys == t.products.rows.Keys
  {
    var t' := SoftDeleted(t, Some(productID));
    forall p | Stored(t'.products, p) && p.isActive == 1
      ensures Stored(t.products, p) && p.productID != productID
    {
      var k :| k in t'.products.rows && t'.products.rows[k] == p;
      assert t.products.rows[k] == p;
    }
    forall p | Stored(t.products, p) && p.isActive == 1 && p.productID != productID
      ensures Stored(t'.products, p)
    {
      var k :| k in t.products.rows && t.products.rows[k] == p;
      assert t'.products.rows[k] == p;
    }
  }

  method DeleteProduct(db: Db, productID: Option<int>) returns (changes: int)
    requires db.Valid()
    modifies db
    ensures db.Valid() && db.savepoint == old(db.savepoint)
    ensures db.State() == SoftDeleted(old(db.State()), productID)
    ensures changes == Changes(old(db.products), productID)
  {
    changes := Changes(db.products, productID);
    db.products := SoftDeleted(db.State(), productID).products;
  }

  // --------------------------------------------------------------- description

  /** getSupplierDescription: the description, or null when no supplier has the ID. */
  function SupplierDescription(t: Tables, supplierID: Option<int>): (r: Option<string>)
    ensures r.Some? <==> supplierID.Some? && supplierID.value in t.suppliers.rows
    ensures r.Some? ==> r.value == t.suppliers.rows[supplierID.value].supplierDescription
  {
    match ByKey(t.suppliers, supplierID)
    case Some(s) => Some(s.supplierDescription)
    case None => None
  }

  /** updateSupplierDescription */
  function Described(t: Tables, supplierID: Option<int>, description: string): Tables
  {
    if supplierID.Some? && supplierID.value in t.suppliers.rows then
      t.(suppliers := Replace(t.suppliers, supplierID.value, t.suppliers.rows[supplierID.value].(supplierDescription := description)))
    else t
  }

  /** The description read back is the one written, for that supplier only; nothing
      else in the store changes. */
  lemma DescriptionRoundTrip(t: Tables, supplierID: int, other: Option<int>, description: string)
    requires supplierID in t.suppliers.rows && other != Some(supplierID)
    ensures SupplierDescription(Described(t, Some(supplierID), description), Some(supplierID)) == Some(description)
    ensures SupplierDescription(Described(t, Some(supplierID), description), other) == SupplierDescription(t, other)
    ensures Described(t, Some(supplierID), description).(suppliers := t.suppliers) == t
  {
  }

  method UpdateSupplierDescription(db: Db, supplierID: Option<int>, description: string) returns (changes: int)
    requires db.Valid()
    modifies db
    ensures db.Valid() && db.savepoint == old(db.savepoint)
    ensures db.State() == Described(old(db.State()), supplierID, description)
    ensures changes == Changes(old(db.suppliers), supplierID)
  {
    changes := Changes(db.suppliers, supplierID);
    db.suppliers := Described(db.State(), supplierID, description).suppliers;
  }

  // -------------------------------------------------------------------- orders

  /** A row of getOrdersBySupplierID: the order with its customer's company name. */
  datatype CustomerOrder = CustomerOrder(orderID: int, customerName: string, date: int, deliveryDate: int,
                                         totalPrice: real, deliveryStatus: string)

  function CustomerRow(o: Order, customer: User): CustomerOrder
  {
    CustomerOrder(o.orderID, customer.companyName, o.date, o.deliveryDate, o.totalPrice, o.deliveryStatus)
  }

  /** The orders of the supplier that have a customer row (INNER JOIN Users), filtered by
      `keep` on the order and its customer. */
  predicate Placed(t: Tables, o: Order, supplierID: Option<int>, keep: User -> bool)
  {
    SqlEq(Some(o.supplierID), supplierID) && o.userID in t.users.rows && keep(t.users.rows[o.userID])
  }

  function JoinCustomers(t: Tables, orders: seq<Order>): (r: seq<CustomerOrder>)
    requires forall o :: o in orders ==> o.userID in t.users.rows
    ensures forall c :: c in r <==> exists o :: o in orders && c == CustomerRow(o, t.users.rows[o.userID])
    ensures |r| == |orders| && forall i :: 0 <= i < |orders| ==> r[i] == CustomerRow(orders[i], t.users.rows[orders[i].userID])
  {
    if orders == [] then []
    else
      var rest := JoinCustomers(t, orders[1..]);
      assert forall o :: o in orders <==> o == orders[0] || o in orders[1..];
      [CustomerRow(orders[0], t.users.rows[orders[0].userID])] + rest
  }

  function SupplierOrders(t: Tables, supplierID: Option<int>, keep: User -> bool): (r: seq<CustomerOrder>)
    requires Keyed(t.orders)
    ensures SortedDesc(r, (c: CustomerOrder) => c.date)
    ensures forall c :: c in r <==> exists k :: k in t.orders.rows && Placed(t, t.orders.rows[k], supplierID, keep)
                                     && c == CustomerRow(t.orders.rows[k], t.users.rows[t.orders.rows[k].userID])
    ensures |r| == |SelectIds(t.orders.rows, o => Placed(t, o, supplierID, keep), t.orders.last)|
  {
    var orders := Rows(t.orders, o => Placed(t, o, supplierID, keep));
    var joined := JoinCustomers(t, orders);
    OrderKeepsRows(joined, (c: CustomerOrder) => c.date);
    OrderByDesc(joined, (c: CustomerOrder) => c.date)
  }

  /** getOrdersBySupplierID: newest first. */
  function OrdersBySupplierID(t: Tables, supplierID: Option<int>): (r: seq<CustomerOrder>)
    requires Keyed(t.orders)
    ensures SortedDesc(r, (c: CustomerOrder) => c.date)
    ensures forall c :: c in r <==> exists k :: k in t.orders.rows && Placed(t, t.orders.rows[k], supplierID, (u: User) => true)
                                     && c == CustomerRow(t.orders.rows[k], t.users.rows[t.orders.rows[k].userID])
    ensures |r| == |SelectIds(t.orders.rows, o => Placed(t, o, supplierID, (u: User) => true), t.orders.last)|
  {
    SupplierOrders(t, supplierID, (u: User) => true)
  }

  /** getOrdersByCustomerName: newest first, customers whose company name is LIKE
      `'%name%'`. */
  function OrdersByCustomerName(t: Tables, supplierID: Option<int>, name: string): (r: seq<CustomerOrder>)
    requires Keyed(t.orders)
    ensures SortedDesc(r, (c: CustomerOrder) => c.date)
    ensures forall c :: c in r <==> exists k :: k in t.orders.rows && Placed(t, t.orders.rows[k], supplierID, (u: User) => Text.Like(u.companyName, name))
                                     && c == CustomerRow(t.orders.rows[k], t.users.rows[t.orders.rows[k].userID])
    ensures |r| == |SelectIds(t.orders.rows, o => Placed(t, o, supplierID, (u: User) => Text.Like(u.companyName, name)), t.orders.last)|
  {
    SupplierOrders(t, supplierID, (u: User) => Text.Like(u.companyName, name))
  }

  /** supplierModels.updateOrderStatus: the order becomes 'Confirmed', whatever its status
      was and whatever status the caller asked for. */
  function Confirmed(t: Tables, orderID: Option<int>): Tables
  {
    if orderID.Some? && orderID.value in t.orders.rows then
      t.(orders := Replace(t.orders, orderID.value, t.orders.rows[orderID.value].(deliveryStatus := "Confirmed")))
    else t
  }

  /** Confirming is idempotent on the store, yet it reports a changed row every time the
      order exists, already confirmed or not. */
  lemma ConfirmIdempotent(t: Tables, orderID: int)
    requires orderID in t.orders.rows
    ensures Confirmed(Confirmed(t, Some(orderID)), Some(orderID)) == Confirmed(t, Some(orderID))
    ensures Confirmed(t, Some(orderID)).orders.rows[orderID].deliveryStatus == "Confirmed"
    ensures Changes(Confirmed(t, Some(orderID)).orders, Some(orderID)) == 1
  {
    var once := Confirmed(t, Some(orderID));
    assert once.orders.rows[orderID := once.orders.rows[orderID].(deliveryStatus := "Confirmed")] == once.orders.rows;
  }

  method UpdateOrderStatus(db: Db, orderID: Option<int>) returns (changes: int)
    requires db.Valid()
    modifies db
    ensures db.Valid() && db.savepoint == old(db.savepoint)
    ensures db.State() == Confirmed(old(db.State()), orderID)
    ensures changes == Changes(old(db.orders), orderID)
  {
    changes := Changes(db.orders, orderID);
    db.orders := Confirmed(db.State(), orderID).orders;
  }
}
