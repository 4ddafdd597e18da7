/** controllers/mainController.js: sign-up, login and the session it writes, the
    login page's one-shot message, the profile photo upload, and the invoice pages of
    an order. */
module MainController {
  import opened Wrappers
  import opened Database
  import opened Web
  import Bcrypt
  import Blockchain
  import MainModels
  import Upload

  // -------------------------------------------------------------------- signup

  datatype SignupForm = SignupForm(userType: Option<string>, companyAddress: string, companyName: string,
                                   email: string, password: string)

  /** `!userType || userType === 'Please Select User Type'`: never true of a type the
      Users table accepts. */
  predicate NoUserType(userType: Option<string>)
    ensures userType.Some? && IsUserType(userType.value) ==> !NoUserType(userType)
  {
    userType.None? || userType.value == "" || userType.value == "Please Select User Type"
  }

  const SignedUp := Redirect("/login?success=true")

  /** The default description of a supplier who signs up. */
  const SignupDescription := "Supplier Description"

  /** signup: 400 without a user type or for a known email; otherwise the password is
      hashed with `salt` (bcrypt's random salt) and the account created, through
      createSupplier for a supplier, and a refused insert gives 500. */
  method Signup(db: Db, form: SignupForm, salt: string) returns (res: Reply)
    requires db.Valid()
    modifies db
    ensures db.Valid() && db.savepoint == old(db.savepoint)
    ensures res != SignedUp ==> db.State() == old(db.State())
    ensures NoUserType(form.userType) ==> res == Status(400)
    ensures !NoUserType(form.userType) && EmailTaken(old(db.State()), form.email) ==> res == Status(400)
    ensures !NoUserType(form.userType) && !EmailTaken(old(db.State()), form.email) && form.userType.value == "Supplier" ==>
      && (res == SignedUp <==> !MainModels.SupplierRefused(old(db.State()), old(db.savepoint).Some?, "Supplier", form.email))
      && (res != SignedUp ==> res == Status(500))
      && (res == SignedUp ==>
            db.State() == MainModels.SignedUpSupplier(old(db.State()), "Supplier", form.companyAddress, form.companyName,
                                                      form.email, Bcrypt.Hash(form.password, salt), SignupDescription))
    ensures !NoUserType(form.userType) && !EmailTaken(old(db.State()), form.email) && form.userType.value != "Supplier" ==>
      && (res == SignedUp <==> IsUserType(form.userType.value))
      && (res != SignedUp ==> res == Status(500))
      && (res == SignedUp ==>
            db.State() == old(db.State()).(users := Insert(old(db.users),
              User(old(db.users.last) + 1, form.email, Bcrypt.Hash(form.password, salt), form.userType.value,
                   form.companyName, form.companyAddress, None))))
  {
    if NoUserType(form.userType) {
      return Status(400);
    }
    var existing := MainModels.FindByEmail(db.State(), form.email);
    if existing.Some? {
      return Status(400);
    }
    res := CreateAccount(db, form.userType.value, form, Bcrypt.Hash(form.password, salt));
  }

  /** The account-creating branch of signup, for a user type that is set. */
  method CreateAccount(db: Db, userType: string, form: SignupForm, hashed: Bcrypt.Digest) returns (res: Reply)
    requires db.Valid()
    modifies db
    ensures db.Valid() && db.savepoint == old(db.savepoint)
    ensures res == SignedUp || res == Status(500)
    ensures res != SignedUp ==> db.State() == old(db.State())
    ensures userType == "Supplier" ==>
      && (res == SignedUp <==> !MainModels.SupplierRefused(old(db.State()), old(db.savepoint).Some?, "Supplier", form.email))
      && (res == SignedUp ==>
            db.State() == MainModels.SignedUpSupplier(old(db.State()), "Supplier", form.companyAddress, form.companyName,
                                                      form.email, hashed, SignupDescription))
    ensures userType != "Supplier" ==>
      && (res == SignedUp <==> IsUserType(userType) && !EmailTaken(old(db.State()), form.email))
      && (res == SignedUp ==>
            db.State() == old(db.State()).(users := Insert(old(db.users),
              User(old(db.users.last) + 1, form.email, hashed, userType, form.companyName, form.companyAddress, None))))
  {
    var created;
    if userType == "Supplier" {
      created := MainModels.CreateSupplier(db, userType, form.companyAddress, form.companyName, form.email, hashed, SignupDescription);
    } else {
      created := MainModels.Create(db, userType, form.companyAddress, form.companyName, form.email, hashed);
    }
    res := if created.Success? then SignedUp else Status(500);
  }

  // --------------------------------------------------------------------- login

  /** The account whose stored hash accepts the password, if any. */
  function Authenticate(t: Tables, email: string, password: string): (r: Option<MainModels.Account>)
    requires Schema(t)
    ensures r.Some? <==> EmailTaken(t, email) && Bcrypt.Compare(password, MainModels.FindByEmail(t, email).value.user.password)
    ensures r.Some? ==> r == MainModels.FindByEmail(t, email)
  {
    match MainModels.FindByEmail(t, email)
    case None => None
    case Some(a) => if Bcrypt.Compare(password, a.user.password) then Some(a) else None
  }

  /** The `req.session.user` object login writes: supplierID only for a supplier whose
      supplier row was found. */
  function SessionOf(a: MainModels.Account): (s: SessionUser)
    ensures s.supplierID.Some? <==> a.user.userType == "Supplier" && !Blockchain.FalsyID(a.supplierID)
    ensures s.supplierID.Some? ==> s.supplierID == a.supplierID
    ensures s.id == a.user.userID && s.userType == a.user.userType && s.profilePhoto == a.user.profilePhoto
    ensures s.companyName == a.user.companyName && s.companyAddress == a.user.companyAddress
  {
    var supplierID := if a.user.userType == "Supplier" && !Blockchain.FalsyID(a.supplierID) then a.supplierID else None;
    SessionUser(supplierID, a.user.userID, a.user.userType, a.user.profilePhoto, a.user.companyName, a.user.companyAddress)
  }

  /** The home page of a user type. */
  function Home(userType: string): (r: Reply)
    ensures r == Redirect("/supplier/supplierhome") <==> userType == "Supplier"
    ensures r.Redirect? && (r != Redirect("/supplier/supplierhome") ==> r == Redirect("/user/userhome"))
  {
    if userType == "Supplier" then Redirect("/supplier/supplierhome") else Redirect("/user/userhome")
  }

  /** login: one 401 for an unknown email and for a wrong password, leaving the session
      as it was; otherwise the session user is written and the browser sent home. */
  method Login(db: Db, session: Session, email: string, password: string) returns (res: Reply)
    requires db.Valid()
    modifies session
    ensures session.message == old(session.message)
    ensures Authenticate(db.State(), email, password).None? ==> res == Status(401) && session.user == old(session.user)
    ensures Authenticate(db.State(), email, password).Some? ==>
      var a := Authenticate(db.State(), email, password).value;
      session.user == Some(SessionOf(a)) && res == Home(a.user.userType)
  {
    var user := MainModels.FindByEmail(db.State(), email);
    if user.None? {
      return Status(401);
    }
    if !Bcrypt.Compare(password, user.value.user.password) {
      return Status(401);
    }
    session.user := Some(SessionOf(user.value));
    res := Home(user.value.user.userType);
  }

  /** A supplier who signed up logs in with the same password as a supplier: the session
      carries the new supplier row's ID and the browser goes to the supplier home. */
  lemma SignupLoginRoundTrip(t: Tables, companyAddress: string, companyName: string, email: string,
                             password: string, salt: string)
    requires Schema(t) && !MainModels.SupplierRefused(t, false, "Supplier", email)
    ensures var t' := MainModels.SignedUpSupplier(t, "Supplier", companyAddress, companyName, email,
                                                  Bcrypt.Hash(password, salt), SignupDescription);
      && Schema(t')
      && Authenticate(t', email, password).Some?
      && SessionOf(Authenticate(t', email, password).value).supplierID == Some(t.suppliers.last + 1)
      && SessionOf(Authenticate(t', email, password).value).id == t.users.last + 1
      && Home(Authenticate(t', email, password).value.user.userType) == Redirect("/supplier/supplierhome")
  {
    MainModels.SignedUpSupplierFound(t, companyAddress, companyName, email, Bcrypt.Hash(password, salt), SignupDescription);
  }

  /** ...and any other password is refused. */
  lemma SignupWrongPassword(t: Tables, companyAddress: string, companyName: string, email: string,
                            password: string, other: string, salt: string)
    requires Schema(t) && !MainModels.SupplierRefused(t, false, "Supplier", email) && other != password
    ensures var t' := MainModels.SignedUpSupplier(t, "Supplier", companyAddress, companyName, email,
                                                  Bcrypt.Hash(password, salt), SignupDescription);
      Schema(t') && Authenticate(t', email, other).None?
  {
    MainModels.SignedUpSupplierFound(t, companyAddress, companyName, email, Bcrypt.Hash(password, salt), SignupDescription);
  }

  /** showLogin: the stored message is shown once and cleared. */
  method ShowLogin(session: Session) returns (message: Option<string>)
    modifies session
    ensures message == old(session.message)
    ensures session.message.None? && session.user == old(session.user)
  {
    message := session.message;
    session.message := None;
  }

  // ------------------------------------------------------------- profile photo

  /** What multer hands the handler: the uploaded file's original name and mimetype. */
  datatype UploadedFile = UploadedFile(originalName: string, mimetype: string)

  const ProfilePhotoDir := "/uploads/profilephoto/"

  /** uploadProfilePhoto (behind the login check): a file the filter refuses or no file
      gives 400; otherwise the user's photo path is stored and copied into the session,
      and a failure to save the session gives 500. `stamp` is `Date.now()`. */
  method UploadProfilePhoto(db: Db, session: Session, file: Option<UploadedFile>, stamp: string, sessionSaved: bool)
    returns (res: Reply)
    requires db.Valid() && session.user.Some?
    modifies db, session
    ensures db.Valid() && db.savepoint == old(db.savepoint) && session.message == old(session.message)
    ensures file.None? || !Upload.CheckFileType(file.value.originalName, file.value.mimetype) ==>
      res == Status(400) && db.State() == old(db.State()) && session.user == old(session.user)
    ensures file.Some? && Upload.CheckFileType(file.value.originalName, file.value.mimetype) ==>
      var path := ProfilePhotoDir + Upload.StoredName("profile-", stamp, file.value.originalName);
      && db.State() == MainModels.PhotoSet(old(db.State()), Some(old(session.user).value.id), path)
      && session.user == Some(old(session.user).value.(profilePhoto := Some(path)))
      && res == (if sessionSaved then Status(200) else Status(500))
  {
    if file.None? || !Upload.CheckFileType(file.value.originalName, file.value.mimetype) {
      return Status(400);
    }
    var path := ProfilePhotoDir + Upload.StoredName("profile-", stamp, file.value.originalName);
    var user := session.user.value;
    var changes := MainModels.UpdateProfilePhoto(db, Some(user.id), path);
    session.user := Some(user.(profilePhoto := Some(path)));
    res := if sessionSaved then Status(200) else Status(500);
  }

  // ------------------------------------------------------------------- invoice

  /** The invoice page: the order, its lines, and the sum of their line totals. */
  datatype InvoicePage = InvoicePage(invoice: MainModels.Invoice, lines: seq<MainModels.InvoiceLine>, grandTotal: real)

  /** The sum of the line totals, left to right. */
  function Sum(lines: seq<MainModels.InvoiceLine>): real
  {
    if lines == [] then 0.0 else Sum(lines[..|lines| - 1]) + lines[|lines| - 1].totalPrice
  }

  /** The `forEach` of showOrderDetails accumulating the line totals. */
  method GrandTotal(lines: seq<MainModels.InvoiceLine>) returns (total: real)
    ensures total == Sum(lines)
  {
    total := 0.0;
    var i := 0;
    while i < |lines|
      invariant 0 <= i <= |lines|
      invariant total == Sum(lines[..i])
    {
      assert lines[..i + 1][..i] == lines[..i];
      total := total + lines[i].totalPrice;
      i := i + 1;
    }
    assert lines[..i] == lines;
  }

  /** The page an unconfirmed order sends its viewer back to. */
  function OrdersPage(user: SessionUser): (r: Reply)
    ensures r == Redirect("/supplier/supplierorder") <==> user.userType == "Supplier"
    ensures r.Redirect? && (r != Redirect("/supplier/supplierorder") ==> r == Redirect("/user/manageorder"))
  {
    if user.userType == "Supplier" then Redirect("/supplier/supplierorder") else Redirect("/user/manageorder")
  }

  /** showOrderDetails: an unknown order fails with 500 when its status is read; an order
      that is not confirmed sends the viewer back to their orders page; otherwise the
      invoice with the grand total of its lines. */
  method ShowOrderDetails(db: Db, session: Session, orderID: Option<int>) returns (r: Result<InvoicePage, Reply>)
    requires db.Valid() && session.user.Some?
    ensures var invoice := MainModels.OrderDetailsByID(db.State(), orderID);
      && (invoice.None? ==> r == Failure(Status(500)))
      && (invoice.Some? && invoice.value.order.deliveryStatus != "Confirmed" ==> r == Failure(OrdersPage(session.user.value)))
      && (invoice.Some? && invoice.value.order.deliveryStatus == "Confirmed" ==>
            var lines := MainModels.OrderProducts(db.State(), orderID);
            r == Success(InvoicePage(invoice.value, lines, Sum(lines))))
  {
    var invoice := MainModels.OrderDetailsByID(db.State(), orderID);
    var lines := MainModels.OrderProducts(db.State(), orderID);
    var grandTotal := GrandTotal(lines);
    if invoice.None? {
      return Failure(Status(500));
    }
    if invoice.value.order.deliveryStatus != "Confirmed" {
      return Failure(OrdersPage(session.user.value));
    }
    r := Success(InvoicePage(invoice.value, lines, grandTotal));
  }

  /** showUnconfirmedOrderDetails (no login check, no status gate): the order with its
      lines for any order that the joins find, 500 otherwise. */
  function UnconfirmedOrderDetails(t: Tables, orderID: Option<int>): (r: Result<(MainModels.Invoice, seq<MainModels.InvoiceLine>), Reply>)
    requires Keyed(t.details)
    ensures r.Success? <==> MainModels.OrderDetailsByID(t, orderID).Some?
    ensures r.Failure? ==> r.error == Status(500)
    ensures r.Success? ==> r.value.0.order == t.orders.rows[orderID.value]
    ensures r.Success? ==> forall l :: l in r.value.1 <==> l in MainModels.OrderProducts(t, orderID)
    ensures r.Success? ==> r.value.0 == MainModels.OrderDetailsByID(t, orderID).value && r.value.1 == MainModels.OrderProducts(t, orderID)
  {
    match MainModels.OrderDetailsByID(t, orderID)
    case None => Failure(Status(500))
    case Some(invoice) => Success((invoice, MainModels.OrderProducts(t, orderID)))
  }
}
