/** The relational store of utils/database.js: the five tables with their
    AUTOINCREMENT keys, the constraints of the schema (CHECK, UNIQUE, NOT NULL,
    DEFAULT), transactions, and the seeding of the default accounts. */
module Database {
  import opened Wrappers
  import Bcrypt

  datatype User = User(userID: int, email: string, password: Bcrypt.Digest, userType: string,
                       companyName: string, companyAddress: string, profilePhoto: Option<string>)

  datatype Supplier = Supplier(supplierID: int, userID: int, supplierDescription: string)

  /** `supplierID` is None when the row was written with a NULL supplier. */
  datatype Product = Product(productID: int, supplierID: Option<int>, productName: string,
                             productDescription: string, productPrice: real, productImage: string,
                             isActive: int)

  /** `date` and `deliveryDate` are instants (the stored date text is not modelled). */
  datatype Order = Order(orderID: int, userID: int, supplierID: int, date: int, deliveryDate: int,
                         totalPrice: real, deliveryStatus: string)

  datatype OrderDetail = OrderDetail(orderDetailID: int, orderID: int, productID: int,
                                     productName: string, productDescription: string,
                                     quantity: int, price: real)

  /** A table whose INTEGER PRIMARY KEY is AUTOINCREMENT: the rows by key, and the largest
      key ever handed out (the table's entry in sqlite_sequence). */
  datatype Table<R> = Table(rows: map<int, R>, last: nat)

  /** The row stored under the next key. */
  function Insert<R>(t: Table<R>, row: R): Table<R>
  {
    Table(t.rows[t.last + 1 := row], t.last + 1)
  }

  function Replace<R>(t: Table<R>, key: int, row: R): Table<R>
  {
    Table(t.rows[key := row], t.last)
  }

  /** Every key lies between 1 and the last key handed out. */
  predicate Keyed<R>(t: Table<R>)
  {
    forall k :: k in t.rows ==> 1 <= k <= t.last
  }

  datatype Tables = Tables(users: Table<User>, suppliers: Table<Supplier>, products: Table<Product>,
                           orders: Table<Order>, details: Table<OrderDetail>)

  /** The five tables as initializeDatabase creates them. */
  const Empty := Tables(Table(map[], 0), Table(map[], 0), Table(map[], 0), Table(map[], 0), Table(map[], 0))

  /** CHECK(userType IN ('User', 'Supplier')) */
  predicate IsUserType(s: string)
  {
    s == "User" || s == "Supplier"
  }

  /** CHECK(deliveryStatus IN ('Pending', 'Confirmed')) */
  predicate IsDeliveryStatus(s: string)
  {
    s == "Pending" || s == "Confirmed"
  }

  /** What the schema guarantees of every state of the store. */
  ghost predicate Schema(t: Tables)
  {
    && Keyed(t.users) && Keyed(t.suppliers) && Keyed(t.products) && Keyed(t.orders) && Keyed(t.details)
    && (forall k :: k in t.users.rows ==> t.users.rows[k].userID == k && IsUserType(t.users.rows[k].userType))
    && (forall a, b :: a in t.users.rows && b in t.users.rows && t.users.rows[a].email == t.users.rows[b].email ==> a == b)
    && (forall k :: k in t.suppliers.rows ==> t.suppliers.rows[k].supplierID == k)
    && (forall a, b :: a in t.suppliers.rows && b in t.suppliers.rows && t.suppliers.rows[a].userID == t.suppliers.rows[b].userID ==> a == b)
    && (forall k :: k in t.products.rows ==> t.products.rows[k].productID == k)
    && (forall k :: k in t.orders.rows ==> t.orders.rows[k].orderID == k && IsDeliveryStatus(t.orders.rows[k].deliveryStatus))
    && (forall k :: k in t.details.rows ==> t.details.rows[k].orderDetailID == k)
  }

  predicate EmailTaken(t: Tables, email: string)
  {
    exists k | k in t.users.rows :: t.users.rows[k].email == email
  }

  predicate SupplierUserTaken(t: Tables, userID: int)
  {
    exists k | k in t.suppliers.rows :: t.suppliers.rows[k].userID == userID
  }

  /** The keys from 1 to `hi`, in increasing order, whose rows satisfy `keep`: a table
      scan in rowid order. */
  function SelectIds<R>(rows: map<int, R>, keep: R -> bool, hi: nat): (r: seq<int>)
    ensures forall k :: k in r <==> 1 <= k <= hi && k in rows && keep(rows[k])
    ensures forall i, j :: 0 <= i < j < |r| ==> r[i] < r[j]
  {
    if hi == 0 then []
    else
      var below := SelectIds(rows, keep, hi - 1);
      assert forall i | 0 <= i < |below| :: below[i] < hi by {
        forall i | 0 <= i < |below| ensures below[i] < hi {
          assert below[i] in below;
        }
      }
      below + (if hi in rows && keep(rows[hi]) then [hi] else [])
  }

  /** `x` is one of the rows of `t`. */
  predicate Stored<R(==)>(t: Table<R>, x: R)
  {
    exists k | k in t.rows :: t.rows[k] == x
  }

  /** `SELECT * FROM t WHERE keep`: exactly the rows that satisfy the condition. */
  function Rows<R(==,!new)>(t: Table<R>, keep: R -> bool): (r: seq<R>)
    requires Keyed(t)
    ensures forall x :: x in r <==> Stored(t, x) && keep(x)
    ensures var ids := SelectIds(t.rows, keep, t.last);
      |r| == |ids| && forall i :: 0 <= i < |ids| ==> ids[i] in t.rows && r[i] == t.rows[ids[i]]
  {
    var ids := SelectIds(t.rows, keep, t.last);
    var r := seq(|ids|, i requires 0 <= i < |ids| => t.rows[ids[i]]);
    assert forall x :: Stored(t, x) && keep(x) ==> x in r by {
      forall x | Stored(t, x) && keep(x) ensures x in r {
        var k :| k in t.rows && t.rows[k] == x;
        assert k in ids;
        var i :| 0 <= i < |ids| && ids[i] == k;
        assert r[i] == x;
      }
    }
    r
  }

  /** The SQL comparison `a = b`: never true when either side is NULL. */
  predicate SqlEq<T(==)>(a: Option<T>, b: Option<T>)
  {
    a.Some? && b.Some? && a.value == b.value
  }

  /** `SELECT ... WHERE <primary key> = key` through `db.get`: the row, or undefined. */
  function ByKey<R>(t: Table<R>, key: Option<int>): (r: Option<R>)
    ensures r.Some? <==> key.Some? && key.value in t.rows
    ensures r.Some? ==> r.value == t.rows[key.value]
  {
    if key.Some? && key.value in t.rows then Some(t.rows[key.value]) else None
  }

  predicate SortedDesc<T>(s: seq<T>, key: T -> int)
  {
    forall i, j :: 0 <= i < j < |s| ==> key(s[i]) >= key(s[j])
  }

  function InsertDesc<T(==)>(x: T, s: seq<T>, key: T -> int): (r: seq<T>)
    requires SortedDesc(s, key)
    ensures SortedDesc(r, key) && multiset(r) == multiset(s) + multiset{x}
    ensures |r| == |s| + 1
    ensures forall y :: y in r ==> y == x || y in s
  {
    if s == [] then [x]
    else if key(s[0]) <= key(x) then
      HeadBounds(s, key);
      ConsSortedDesc(x, s, key);
      [x] + s
    else
      var rest := InsertDesc(x, s[1..], key);
      assert s == [s[0]] + s[1..];
      HeadBounds(s, key);
      ConsSortedDesc(s[0], rest, key);
      [s[0]] + rest
  }

  /** The first row of a sorted list carries the largest key. */
  lemma HeadBounds<T>(s: seq<T>, key: T -> int)
    requires SortedDesc(s, key) && s != []
    ensures forall y :: y in s ==> key(y) <= key(s[0])
  {
    forall y | y in s ensures key(y) <= key(s[0]) {
      var k :| 0 <= k < |s| && s[k] == y;
      if k > 0 {
        assert key(s[0]) >= key(s[k]);
      }
    }
  }

  /** A row whose key bounds every key of a sorted list can go in front of it. */
  lemma ConsSortedDesc<T>(h: T, rest: seq<T>, key: T -> int)
    requires SortedDesc(rest, key) && forall y :: y in rest ==> key(y) <= key(h)
    ensures SortedDesc([h] + rest, key)
  {
    var r := [h] + rest;
    forall i, j | 0 <= i < j < |r| ensures key(r[i]) >= key(r[j]) {
      assert r[j] == rest[j - 1];
      if i > 0 {
        assert r[i] == rest[i - 1];
      }
    }
  }

  /** `ORDER BY key DESC`: the same rows, a permutation of the input, with the keys
      non-increasing. */
  function OrderByDesc<T(==)>(s: seq<T>, key: T -> int): (r: seq<T>)
    ensures SortedDesc(r, key) && multiset(r) == multiset(s) && |r| == |s|
  {
    if s == [] then []
    else
      assert s == [s[0]] + s[1..];
      InsertDesc(s[0], OrderByDesc(s[1..], key), key)
  }

  /** Ordering keeps exactly the rows it was given. */
  lemma OrderKeepsRows<T>(s: seq<T>, key: T -> int)
    ensures forall x :: x in OrderByDesc(s, key) <==> x in s
  {
    var r := OrderByDesc(s, key);
    forall x ensures x in r <==> x in s {
      assert x in r <==> x in multiset(r);
      assert x in s <==> x in multiset(s);
    }
  }

  datatype DbError =
    | CheckFailed(constraint: string)   // SQLITE_CONSTRAINT_CHECK
    | UniqueFailed(column: string)      // SQLITE_CONSTRAINT_UNIQUE
    | NestedTransaction                 // cannot start a transaction within a transaction
    | NoTransaction                     // cannot commit/rollback - no transaction is active
    | IoError                           // any failure of the storage engine itself

  /** The database connection: the five tables, and while a transaction is open the
      state that ROLLBACK returns to. */
  class Db {
    var users: Table<User>
    var suppliers: Table<Supplier>
    var products: Table<Product>
    var orders: Table<Order>
    var details: Table<OrderDetail>
    var savepoint: Option<Tables>

    function State(): Tables
      reads this
    {
      Tables(users, suppliers, products, orders, details)
    }

    ghost predicate Valid()
      reads this
    {
      Schema(State()) && (savepoint.Some? ==> Schema(savepoint.value))
    }

    /** A database file created from scratch, with the empty tables. */
    constructor ()
      ensures Valid() && State() == Empty && savepoint.None?
    {
      users, suppliers, products, orders, details := Table(map[], 0), Table(map[], 0), Table(map[], 0), Table(map[], 0), Table(map[], 0);
      savepoint := None;
    }

    /** BEGIN TRANSACTION */
    method Begin() returns (err: Option<DbError>)
      requires Valid()
      modifies this
      ensures Valid() && State() == old(State())
      ensures err.Some? <==> old(savepoint).Some?
      ensures err.Some? ==> err.value == NestedTransaction && savepoint == old(savepoint)
      ensures err.None? ==> savepoint == Some(old(State()))
    {
      if savepoint.Some? {
        err := Some(NestedTransaction);
      } else {
        savepoint := Some(State());
        err := None;
      }
    }

    /** COMMIT: the changes since BEGIN stay. */
    method Commit() returns (err: Option<DbError>)
      requires Valid()
      modifies this
      ensures Valid() && State() == old(State()) && savepoint.None?
      ensures err.Some? <==> old(savepoint).None?
    {
      err := if savepoint.None? then Some(NoTransaction) else None;
      savepoint := None;
    }

    /** ROLLBACK: the tables, their key counters included, return to their state at BEGIN. */
    method Rollback() returns (err: Option<DbError>)
      requires Valid()
      modifies this
      ensures Valid() && savepoint.None?
      ensures old(savepoint).Some? ==> State() == old(savepoint.value) && err.None?
      ensures old(savepoint).None? ==> State() == old(State()) && err == Some(NoTransaction)
    {
      if savepoint.Some? {
        var t := savepoint.value;
        users, suppliers, products, orders, details := t.users, t.suppliers, t.products, t.orders, t.details;
        err := None;
      } else {
        err := Some(NoTransaction);
      }
      savepoint := None;
    }

    /** INSERT INTO Users: refused by the userType CHECK or the email UNIQUE constraint;
        profilePhoto starts NULL. */
    method InsertUser(email: string, password: Bcrypt.Digest, userType: string, companyName: string, companyAddress: string)
      returns (r: Result<int, DbError>)
      requires Valid()
      modifies this
      ensures Valid() && savepoint == old(savepoint)
      ensures r.Failure? <==> !IsUserType(userType) || EmailTaken(old(State()), email)
      ensures r.Failure? ==> State() == old(State())
      ensures r.Success? ==> (r.value == old(users.last) + 1 &&
        State() == old(State()).(users := Insert(old(users), User(r.value, email, password, userType, companyName, companyAddress, None))))
    {
      if !IsUserType(userType) {
        r := Failure(CheckFailed("userType"));
      } else if EmailTaken(State(), email) {
        r := Failure(UniqueFailed("Users.email"));
      } else {
        var id := users.last + 1;
        users := Insert(users, User(id, email, password, userType, companyName, companyAddress, None));
        r := Success(id);
      }
    }

    /** INSERT INTO Suppliers: refused when a supplier row already references the user. */
    method InsertSupplier(userID: int, description: string) returns (r: Result<int, DbError>)
      requires Valid()
      modifies this
      ensures Valid() && savepoint == old(savepoint)
      ensures r.Failure? <==> SupplierUserTaken(old(State()), userID)
      ensures r.Failure? ==> State() == old(State())
      ensures r.Success? ==> (r.value == old(suppliers.last) + 1 &&
        State() == old(State()).(suppliers := Insert(old(suppliers), Supplier(r.value, userID, description))))
    {
      if SupplierUserTaken(State(), userID) {
        r := Failure(UniqueFailed("Suppliers.userID"));
      } else {
        var id := suppliers.last + 1;
        suppliers := Insert(suppliers, Supplier(id, userID, description));
        r := Success(id);
      }
    }

    /** INSERT INTO Products without isActive: the column takes its DEFAULT 1. */
    method InsertProduct(supplierID: Option<int>, name: string, description: string, price: real, image: string)
      returns (id: int)
      requires Valid()
      modifies this
      ensures Valid() && savepoint == old(savepoint)
      ensures id == old(products.last) + 1
      ensures State() == old(State()).(products := Insert(old(products), Product(id, supplierID, name, description, price, image, 1)))
    {
      id := products.last + 1;
      products := Insert(products, Product(id, supplierID, name, description, price, image, 1));
    }

    /** INSERT INTO Orders: refused by the deliveryStatus CHECK. */
    method InsertOrder(userID: int, supplierID: int, date: int, deliveryDate: int, totalPrice: real, status: string)
      returns (r: Result<int, DbError>)
      requires Valid()
      modifies this
      ensures Valid() && savepoint == old(savepoint)
      ensures r.Failure? <==> !IsDeliveryStatus(status)
      ensures r.Failure? ==> State() == old(State())
      ensures r.Success? ==> (r.value == old(orders.last) + 1 &&
        State() == old(State()).(orders := Insert(old(orders), Order(r.value, userID, supplierID, date, deliveryDate, totalPrice, status))))
    {
      if !IsDeliveryStatus(status) {
        r := Failure(CheckFailed("deliveryStatus"));
      } else {
        var id := orders.last + 1;
        orders := Insert(orders, Order(id, userID, supplierID, date, deliveryDate, totalPrice, status));
        r := Success(id);
      }
    }

    /** INSERT INTO OrderDetails: no constraint applies. */
    method InsertOrderDetail(orderID: int, productID: int, name: string, description: string, quantity: int, price: real)
      returns (id: int)
      requires Valid()
      modifies this
      ensures Valid() && savepoint == old(savepoint)
      ensures id == old(details.last) + 1
      ensures State() == old(State()).(details := Insert(old(details), OrderDetail(id, orderID, productID, name, description, quantity, price)))
    {
      id := details.last + 1;
      details := Insert(details, OrderDetail(id, orderID, productID, name, description, quantity, price));
    }
  }

  const DefaultUserEmail := "user@example.com"
  const DefaultSupplierEmail := "supplier@example.com"
  // The seeded digests stand for the bcrypt hashes of the passwords noted beside the seeding.
  const DefaultUserPassword := Bcrypt.Digest("ShbcPtmnE3iIdKk6.s.5fu", "adminpassword")
  const DefaultSupplierPassword := Bcrypt.Digest("w.2FpdjWpIvk7avUSLuvKe", "supplierpassword")

  function DefaultUser(id: int): User
  {
    User(id, DefaultUserEmail, DefaultUserPassword, "User", "Apple Furniture Manufacturing",
         "123, Jln Apple, 82000, Pontian, Johor", None)
  }

  function DefaultSupplierUser(id: int): User
  {
    User(id, DefaultSupplierEmail, DefaultSupplierPassword, "Supplier", "Best Wood Supplier",
         "456, Jln Supplier, 82000, Pontian, Johor", None)
  }

  /** insertDefaultUser: INSERT ... WHERE NOT EXISTS on the email. The default user is
      present afterwards, and when it already was nothing changed, so a second run is
      a no-op. */
  method InsertDefaultUser(db: Db)
    requires db.Valid()
    modifies db
    ensures db.Valid() && db.savepoint == old(db.savepoint)
    ensures EmailTaken(db.State(), DefaultUserEmail)
    ensures EmailTaken(old(db.State()), DefaultUserEmail) ==> db.State() == old(db.State())
    ensures !EmailTaken(old(db.State()), DefaultUserEmail) ==>
      db.State() == old(db.State()).(users := Insert(old(db.users), DefaultUser(old(db.users.last) + 1)))
  {
    if !EmailTaken(db.State(), DefaultUserEmail) {
      var u := DefaultUser(0);
      var r := db.InsertUser(u.email, u.password, u.userType, u.companyName, u.companyAddress);
      assert db.users.rows[r.value].email == DefaultUserEmail;
    }
  }

  /** The statement of insertDefaultSupplier's transaction that the storage engine fails, if any. */
  datatype SeedStep = UserInsert | SupplierInsert | ProductsInsert

  const DefaultSupplierDescription := "Supplier of high quality wood products"

  function OakWood(id: int): Product
  {
    Product(id, Some(1), "Oak Wood", "High-quality oak wood for construction", 59.99, "", 1)
  }

  function PineWood(id: int): Product
  {
    Product(id, Some(1), "Pine Wood", "Sustainable pine wood", 39.99, "", 1)
  }

  /** The Suppliers row of the seeded supplier, skipped when a row already references the user. */
  function SeedSupplierRow(t: Tables, userID: int): Table<Supplier>
  {
    if SupplierUserTaken(t, userID) then t.suppliers
    else Insert(t.suppliers, Supplier(t.suppliers.last + 1, userID, DefaultSupplierDescription))
  }

  /** The two seeded products, written with the literal supplierID 1. */
  function SeedProducts(p: Table<Product>): Table<Product>
  {
    var oak := Insert(p, OakWood(p.last + 1));
    Insert(oak, PineWood(oak.last + 1))
  }

  /** What insertDefaultSupplier commits when the supplier email is absent: the supplier
      user, its Suppliers row, and the two products. */
  function SeededSupplier(t: Tables): Tables
  {
    var userID := t.users.last + 1;
    var withUser := t.(users := Insert(t.users, DefaultSupplierUser(userID)));
    withUser.(suppliers := SeedSupplierRow(withUser, userID), products := SeedProducts(t.products))
  }

  /** An insert into a keyed table uses a fresh key, so the table gains exactly one row. */
  lemma InsertFresh<R>(t: Table<R>, row: R)
    requires Keyed(t)
    ensures t.last + 1 !in t.rows
    ensures Keyed(Insert(t, row)) && |Insert(t, row).rows| == |t.rows| + 1
  {
  }

  /** Seeding the supplier adds exactly one user and two products, and a supplier row
      that references the new user unless another row already does. */
  lemma SeededSupplierCounts(t: Tables)
    requires Keyed(t.users) && Keyed(t.suppliers) && Keyed(t.products)
    ensures var s := SeededSupplier(t);
      && |s.users.rows| == |t.users.rows| + 1
      && |s.products.rows| == |t.products.rows| + 2
      && (SupplierUserTaken(t, t.users.last + 1) || |s.suppliers.rows| == |t.suppliers.rows| + 1)
      && s.orders == t.orders && s.details == t.details
      && forall k :: k in s.products.rows && k !in t.products.rows ==>
           s.products.rows[k].supplierID == Some(1) && s.products.rows[k].isActive == 1
  {
    var user := DefaultSupplierUser(t.users.last + 1);
    InsertFresh(t.users, user);
    InsertFresh(t.suppliers, Supplier(t.suppliers.last + 1, t.users.last + 1, DefaultSupplierDescription));
    InsertFresh(t.products, OakWood(t.products.last + 1));
    var oak := Insert(t.products, OakWood(t.products.last + 1));
    InsertFresh(oak, PineWood(oak.last + 1));
    assert SupplierUserTaken(t.(users := Insert(t.users, user)), t.users.last + 1) == SupplierUserTaken(t, t.users.last + 1);
  }

  /** The product insert of insertDefaultSupplier's transaction. */
  method InsertSeedProducts(db: Db)
    requires db.Valid()
    modifies db
    ensures db.Valid() && db.savepoint == old(db.savepoint)
    ensures db.State() == old(db.State()).(products := SeedProducts(old(db.products)))
  {
    var p := OakWood(0);
    var oak := db.InsertProduct(p.supplierID, p.productName, p.productDescription, p.productPrice, p.productImage);
    p := PineWood(0);
    var pine := db.InsertProduct(p.supplierID, p.productName, p.productDescription, p.productPrice, p.productImage);
  }

  /** The supplier insert of insertDefaultSupplier's transaction, guarded by NOT EXISTS. */
  method InsertSeedSupplier(db: Db, userID: int)
    requires db.Valid()
    modifies db
    ensures db.Valid() && db.savepoint == old(db.savepoint)
    ensures db.State() == old(db.State()).(suppliers := SeedSupplierRow(old(db.State()), userID))
  {
    if !SupplierUserTaken(db.State(), userID) {
      var s := db.InsertSupplier(userID, DefaultSupplierDescription);
    }
  }

  /** The user insert of insertDefaultSupplier's transaction, once the supplier email is
      known to be absent. */
  method InsertSeedUser(db: Db) returns (userID: int)
    requires db.Valid() && !EmailTaken(db.State(), DefaultSupplierEmail)
    modifies db
    ensures db.Valid() && db.savepoint == old(db.savepoint)
    ensures userID == old(db.users.last) + 1
    ensures db.State() == old(db.State()).(users := Insert(old(db.users), DefaultSupplierUser(userID)))
  {
    var u := DefaultSupplierUser(0);
    var r := db.InsertUser(u.email, u.password, u.userType, u.companyName, u.companyAddress);
    userID := r.value;
  }

  /** The writes of insertDefaultSupplier's transaction once the supplier email is known
      to be absent, stopping at the failing statement, if any. */
  method SeedSupplierRows(db: Db, fault: Option<SeedStep>)
    requires db.Valid() && !EmailTaken(db.State(), DefaultSupplierEmail) && fault != Some(UserInsert)
    modifies db
    ensures db.Valid() && db.savepoint == old(db.savepoint)
    ensures fault.None? ==> db.State() == SeededSupplier(old(db.State()))
  {
    ghost var seeded := SeededSupplier(db.State());
    var userID := InsertSeedUser(db);
    assert db.users == seeded.users;
    if fault == Some(SupplierInsert) {
      return;
    }
    InsertSeedSupplier(db, userID);
    assert db.suppliers == seeded.suppliers;
    if fault == Some(ProductsInsert) {
      return;
    }
    InsertSeedProducts(db);
    assert db.products == seeded.products;
    assert db.orders == seeded.orders && db.details == seeded.details;
  }

  /** insertDefaultSupplier: one transaction. When the supplier email is present it
      commits without further writes; a failing statement rolls everything back; a
      transaction that cannot begin changes nothing. */
  method InsertDefaultSupplier(db: Db, fault: Option<SeedStep>)
    requires db.Valid()
    modifies db
    ensures db.Valid() && db.savepoint == old(db.savepoint)
    ensures old(db.savepoint).Some? || fault.Some? || EmailTaken(old(db.State()), DefaultSupplierEmail) ==>
      db.State() == old(db.State())
    ensures old(db.savepoint).None? && fault.None? && !EmailTaken(old(db.State()), DefaultSupplierEmail) ==>
      db.State() == SeededSupplier(old(db.State()))
  {
    var err := db.Begin();
    if err.Some? {
      return;
    }
    if fault == Some(UserInsert) {
      err := db.Rollback();
      return;
    }
    if EmailTaken(db.State(), DefaultSupplierEmail) {
      err := db.Commit();
      return;
    }
    SeedSupplierRows(db, fault);
    if fault.Some? {
      err := db.Rollback();
    } else {
      err := db.Commit();
    }
  }
}
