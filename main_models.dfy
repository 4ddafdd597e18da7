/** models/mainModels.js: accounts (lookup by email, sign-up of a user or of a supplier
    inside a transaction, profile photo) and the invoice view of an order. */
module MainModels {
  import opened Wrappers
  import opened Database
  import Bcrypt

  // ------------------------------------------------------------------ accounts

  /** The row of findByEmail: the user, and the supplierID of the LEFT JOIN (NULL when
      no supplier row references the user). */
  datatype Account = Account(user: User, supplierID: Option<int>)

  /** findByEmail: the user with this email, with its supplier ID if it has one. */
  function FindByEmail(t: Tables, email: string): (r: Option<Account>)
    requires Schema(t)
    ensures r.Some? <==> EmailTaken(t, email)
    ensures r.Some? ==> r.value.user.email == email && Stored(t.users, r.value.user)
    ensures r.Some? ==> (r.value.supplierID.Some? <==> SupplierUserTaken(t, r.value.user.userID))
    ensures r.Some? && r.value.supplierID.Some? ==>
      r.value.supplierID.value in t.suppliers.rows && t.suppliers.rows[r.value.supplierID.value].userID == r.value.user.userID
  {
    var users := Rows(t.users, (u: User) => u.email == email);
    if users == [] then
      None
    else
      var u := users[0];
      assert u in users;
      var suppliers := Rows(t.suppliers, (s: Supplier) => s.userID == u.userID);
      if suppliers == [] then
        assert !SupplierUserTaken(t, u.userID) by {
          forall k | k in t.suppliers.rows ensures t.suppliers.rows[k].userID != u.userID {
            assert Stored(t.suppliers, t.suppliers.rows[k]);
          }
        }
        Some(Account(u, None))
      else
        assert suppliers[0] in suppliers;
        Some(Account(u, Some(suppliers[0].supplierID)))
  }

  /** mainModels.create: the user row, or the constraint that refused it. */
  method Create(db: Db, userType: string, companyAddress: string, companyName: string, email: string, password: Bcrypt.Digest)
    returns (r: Result<int, DbError>)
    requires db.Valid()
    modifies db
    ensures db.Valid() && db.savepoint == old(db.savepoint)
    ensures r.Failure? <==> !IsUserType(userType) || EmailTaken(old(db.State()), email)
    ensures r.Failure? ==> db.State() == old(db.State())
    ensures r.Success? ==> (r.value == old(db.users.last) + 1 &&
      db.State() == old(db.State()).(users := Insert(old(db.users), User(r.value, email, password, userType, companyName, companyAddress, None))))
  {
    r := db.InsertUser(email, password, userType, companyName, companyAddress);
  }

  /** What createSupplier commits: the user, and a supplier row referencing it. */
  function SignedUpSupplier(t: Tables, userType: string, companyAddress: string, companyName: string, email: string,
                            password: Bcrypt.Digest, description: string): Tables
  {
    var userID := t.users.last + 1;
    t.(users := Insert(t.users, User(userID, email, password, userType, companyName, companyAddress, None)),
       suppliers := Insert(t.suppliers, Supplier(t.suppliers.last + 1, userID, description)))
  }

  /** createSupplier refuses exactly when the transaction cannot begin, the user insert
      is refused, or (the foreign key not being enforced) a supplier row already names
      the new user ID. */
  predicate SupplierRefused(t: Tables, inTransaction: bool, userType: string, email: string)
  {
    inTransaction || !IsUserType(userType) || EmailTaken(t, email) || SupplierUserTaken(t, t.users.last + 1)
  }

  /** The two inserts of createSupplier's transaction, stopping at the first refused. */
  method InsertSupplierAccount(db: Db, userType: string, companyAddress: string, companyName: string, email: string,
                               password: Bcrypt.Digest, description: string)
    returns (r: Result<int, DbError>)
    requires db.Valid()
    modifies db
    ensures db.Valid() && db.savepoint == old(db.savepoint)
    ensures r.Failure? <==> SupplierRefused(old(db.State()), false, userType, email)
    ensures r.Success? ==> (r.value == old(db.users.last) + 1 &&
      db.State() == SignedUpSupplier(old(db.State()), userType, companyAddress, companyName, email, password, description))
  {
    ghost var t := db.State();
    var user := db.InsertUser(email, password, userType, companyName, companyAddress);
    if user.Failure? {
      return Failure(user.error);
    }
    assert SupplierUserTaken(db.State(), user.value) == SupplierUserTaken(t, t.users.last + 1);
    var supplier := db.InsertSupplier(user.value, description);
    if supplier.Failure? {
      return Failure(supplier.error);
    }
    ghost var signed := SignedUpSupplier(t, userType, companyAddress, companyName, email, password, description);
    assert db.users == signed.users && db.suppliers == signed.suppliers;
    r := user;
  }

  /** createSupplier: both rows or, after ROLLBACK, neither. */
  method CreateSupplier(db: Db, userType: string, companyAddress: string, companyName: string, email: string,
                        password: Bcrypt.Digest, description: string)
    returns (r: Result<int, DbError>)
    requires db.Valid()
    modifies db
    ensures db.Valid() && db.savepoint == old(db.savepoint)
    ensures r.Failure? <==> SupplierRefused(old(db.State()), old(db.savepoint).Some?, userType, email)
    ensures r.Failure? ==> db.State() == old(db.State())
    ensures r.Success? ==> (r.value == old(db.users.last) + 1 &&
      db.State() == SignedUpSupplier(old(db.State()), userType, companyAddress, companyName, email, password, description))
  {
    var err := db.Begin();
    if err.Some? {
      return Failure(err.value);
    }
    r := InsertSupplierAccount(db, userType, companyAddress, companyName, email, password, description);
    if r.Failure? {
      err := db.Rollback();
    } else {
      err := db.Commit();
    }
  }

  /** updateProfilePhoto */
  function PhotoSet(t: Tables, userID: Option<int>, path: string): Tables
  {
    if userID.Some? && userID.value in t.users.rows then
      t.(users := Replace(t.users, userID.value, t.users.rows[userID.value].(profilePhoto := Some(path))))
    else t
  }

  method UpdateProfilePhoto(db: Db, userID: Option<int>, path: string) returns (changes: int)
    requires db.Valid()
    modifies db
    ensures db.Valid() && db.savepoint == old(db.savepoint)
    ensures db.State() == PhotoSet(old(db.State()), userID, path)
    ensures changes == (if userID.Some? && userID.value in old(db.users.rows) then 1 else 0)
  {
    changes := if userID.Some? && userID.value in db.users.rows then 1 else 0;
    db.users := PhotoSet(db.State(), userID, path).users;
  }

  /** Signing up a supplier keeps every guarantee of the schema. */
  lemma SignedUpSupplierSchema(t: Tables, userType: string, companyAddress: string, companyName: string, email: string,
                               password: Bcrypt.Digest, description: string)
    requires Schema(t) && !SupplierRefused(t, false, userType, email)
    ensures Schema(SignedUpSupplier(t, userType, companyAddress, companyName, email, password, description))
  {
    assert t.users.last + 1 !in t.users.rows && t.suppliers.last + 1 !in t.suppliers.rows;
  }

  /** A signed-up supplier logs in as a supplier: its email finds the new user, with the
      new supplier row's ID. */
  lemma SignedUpSupplierFound(t: Tables, companyAddress: string, companyName: string, email: string,
                              password: Bcrypt.Digest, description: string)
    requires Schema(t) && !SupplierRefused(t, false, "Supplier", email)
    ensures var t' := SignedUpSupplier(t, "Supplier", companyAddress, companyName, email, password, description);
      Schema(t') && FindByEmail(t', email) ==
        Some(Account(User(t.users.last + 1, email, password, "Supplier", companyName, companyAddress, None), Some(t.suppliers.last + 1)))
  {
    SignedUpSupplierSchema(t, "Supplier", companyAddress, companyName, email, password, description);
    var t' := SignedUpSupplier(t, "Supplier", companyAddress, companyName, email, password, description);
    var uid := t.users.last + 1;
    var sid := t.suppliers.last + 1;
    var a := FindByEmail(t', email);
    assert t'.users.rows[uid].email == email;
    assert a.value.user.userID == uid by {
      var k :| k in t'.users.rows && t'.users.rows[k] == a.value.user;
    }
    assert t'.suppliers.rows[sid].userID == uid;
  }

  // ------------------------------------------------------------------- invoice

  /** The row of getOrderDetailsById: the order with its buyer's and its supplier's
      company details. */
  datatype Invoice = Invoice(order: Order, userCompanyName: string, userAddress: string,
                             supplierCompanyName: string, supplierAddress: string, supplierDescription: string)

  /** getOrderDetailsById: undefined unless the order, its buyer, its supplier and the
      supplier's user all exist (three inner joins). */
  function OrderDetailsByID(t: Tables, orderID: Option<int>): (r: Option<Invoice>)
    ensures r.Some? <==> orderID.Some? && orderID.value in t.orders.rows
                         && t.orders.rows[orderID.value].userID in t.users.rows
                         && t.orders.rows[orderID.value].supplierID in t.suppliers.rows
                         && t.suppliers.rows[t.orders.rows[orderID.value].supplierID].userID in t.users.rows
    ensures r.Some? ==> r.value.order == t.orders.rows[orderID.value]
    ensures r.Some? ==>
      var o := r.value.order; var s := t.suppliers.rows[o.supplierID];
      && r.value.userCompanyName == t.users.rows[o.userID].companyName
      && r.value.userAddress == t.users.rows[o.userID].companyAddress
      && r.value.supplierCompanyName == t.users.rows[s.userID].companyName
      && r.value.supplierAddress == t.users.rows[s.userID].companyAddress
      && r.value.supplierDescription == s.supplierDescription
  {
    match ByKey(t.orders, orderID)
    case None => None
    case Some(o) =>
      if o.userID in t.users.rows && o.supplierID in t.suppliers.rows && t.suppliers.rows[o.supplierID].userID in t.users.rows then
        var buyer := t.users.rows[o.userID];
        var s := t.suppliers.rows[o.supplierID];
        var seller := t.users.rows[s.userID];
        Some(Invoice(o, buyer.companyName, buyer.companyAddress, seller.companyName, seller.companyAddress, s.supplierDescription))
      else None
  }

  /** A row of getOrderProducts: the order line and its line total price * quantity. */
  datatype InvoiceLine = InvoiceLine(detail: OrderDetail, totalPrice: real)

  /** The `price * quantity` column of getOrderProducts. */
  function LineTotal(d: OrderDetail): real
  {
    d.price * d.quantity as real
  }

  /** The lines of the order whose product row exists (JOIN Products). */
  predicate OnInvoice(t: Tables, d: OrderDetail, orderID: Option<int>)
  {
    SqlEq(Some(d.orderID), orderID) && d.productID in t.products.rows
  }

  /** One line per detail, in the same order, each with its line total. */
  function Lines(details: seq<OrderDetail>): (r: seq<InvoiceLine>)
    ensures |r| == |details|
    ensures forall i :: 0 <= i < |details| ==>
      r[i].detail == details[i] && r[i].totalPrice == LineTotal(details[i])
  {
    if details == [] then []
    else [InvoiceLine(details[0], LineTotal(details[0]))] + Lines(details[1..])
  }

  /** The WHERE and JOIN conditions of getOrderProducts. */
  function InvoiceFilter(t: Tables, orderID: Option<int>): OrderDetail -> bool
  {
    d => OnInvoice(t, d, orderID)
  }

  /** getOrderProducts: one line for each matching detail row (the JOIN is on the
      product's primary key), in key order. */
  function OrderProducts(t: Tables, orderID: Option<int>): (r: seq<InvoiceLine>)
    requires Keyed(t.details)
    ensures forall l :: l in r <==> (Stored(t.details, l.detail) && OnInvoice(t, l.detail, orderID)
                                     && l.totalPrice == LineTotal(l.detail))
    ensures var ids := SelectIds(t.details.rows, InvoiceFilter(t, orderID), t.details.last);
      && |r| == |ids|
      && forall i :: 0 <= i < |ids| ==> ids[i] in t.details.rows && r[i].detail == t.details.rows[ids[i]]
  {
    var details := Rows(t.details, InvoiceFilter(t, orderID));
    LinesCover(details);
    Lines(details)
  }

  /** The invoice lines are exactly the details, each with its line total. */
  lemma {:induction false} LinesCover(details: seq<OrderDetail>)
    ensures forall l :: l in Lines(details) <==> l.detail in details && l.totalPrice == LineTotal(l.detail)
  {
    var r := Lines(details);
    forall l | l in r ensures l.detail in details && l.totalPrice == LineTotal(l.detail) {
      var i :| 0 <= i < |r| && r[i] == l;
      assert l.detail == details[i];
    }
    forall l: InvoiceLine | l.detail in details && l.totalPrice == LineTotal(l.detail)
      ensures l in r
    {
      var i :| 0 <= i < |details| && details[i] == l.detail;
      assert r[i] == l;
    }
  }
}
