/** controllers/supplierController.js: the catalogue and description handlers, and the
    order-confirmation pipeline that mirrors to the ledger. */
module SupplierController {
  import opened Wrappers
  import opened Database
  import opened Web
  import Blockchain
  import SupplierModels

  // ----------------------------------------------------------- catalogue handlers

  /** The handlers' reply to an UPDATE's row count. */
  function ReplyForChanges(changes: int): (r: Reply)
    ensures changes > 0 <==> r == Redirect("/supplier/supplierhome")
    ensures changes <= 0 <==> r == Status(404)
  {
    if changes > 0 then Redirect("/supplier/supplierhome") else Status(404)
  }

  /** updateSupplierDescription (the route lets only a logged-in session through). */
  method UpdateSupplierDescription(db: Db, session: Session, description: string) returns (res: Reply)
    requires db.Valid() && session.user.Some?
    modifies db
    ensures db.Valid() && db.savepoint == old(db.savepoint)
    ensures db.State() == SupplierModels.Described(old(db.State()), session.user.value.supplierID, description)
    ensures res == ReplyForChanges(SupplierModels.Changes(old(db.suppliers), session.user.value.supplierID))
  {
    var changes := SupplierModels.UpdateSupplierDescription(db, session.user.value.supplierID, description);
    res := ReplyForChanges(changes);
  }

  /** The stored image name: the uploaded file's name, or "" when there is none. */
  function ImageOf(file: Option<string>): (r: string)
    ensures file.None? ==> r == ""
    ensures file.Some? ==> r == file.value
  {
    if file.Some? && file.value != "" then file.value else ""
  }

  /** addProduct: the product is written for the session's supplier. */
  method AddProduct(db: Db, session: Session, name: string, description: string, price: real, file: Option<string>)
    returns (res: Reply)
    requires db.Valid() && session.user.Some?
    modifies db
    ensures db.Valid() && db.savepoint == old(db.savepoint)
    ensures db.State() == SupplierModels.Added(old(db.State()), session.user.value.supplierID, name, description, price, ImageOf(file))
    ensures res == Redirect("/supplier/supplierhome")
  {
    var productID := SupplierModels.AddProduct(db, session.user.value.supplierID, name, description, price, ImageOf(file));
    res := Redirect("/supplier/supplierhome");
  }

  /** updateProduct: the image is passed on only when a file was uploaded. No check ties
      the product to the session's supplier. */
  method UpdateProduct(db: Db, productID: Option<int>, name: string, description: string, price: real, file: Option<string>)
    returns (res: Reply)
    requires db.Valid()
    modifies db
    ensures db.Valid() && db.savepoint == old(db.savepoint)
    ensures db.State() == SupplierModels.Edited(old(db.State()), productID, name, description, price, file)
    ensures res == ReplyForChanges(SupplierModels.Changes(old(db.products), productID))
  {
    var changes := SupplierModels.UpdateProduct(db, productID, name, description, price, file);
    res := ReplyForChanges(changes);
  }

  /** deleteProduct */
  method DeleteProduct(db: Db, productID: Option<int>) returns (res: Reply)
    requires db.Valid()
    modifies db
    ensures db.Valid() && db.savepoint == old(db.savepoint)
    ensures db.State() == SupplierModels.SoftDeleted(old(db.State()), productID)
    ensures res == ReplyForChanges(SupplierModels.Changes(old(db.products), productID))
  {
    var changes := SupplierModels.DeleteProduct(db, productID);
    res := ReplyForChanges(changes);
  }

  // ------------------------------------------------------------ order status

  /** The request updateOrderStatus sends, from the first account of the node. */
  function StatusRequest(node: Blockchain.Node, orderID: Option<int>, status: Option<string>)
    : Result<Blockchain.Transaction, Blockchain.LedgerError>
    requires node.accounts.Success?
  {
    Blockchain.UpdateOrderStatusRequest(node, orderID, status, Blockchain.FirstAccount(node.accounts.value))
  }

  /** `!orderID || !status`: a request that passes also passes the ledger client's own
      check on the order ID and the status. */
  predicate BadStatusRequest(orderID: Option<int>, status: Option<string>)
    ensures !BadStatusRequest(orderID, status) ==> !(Blockchain.FalsyID(orderID) || status.None?)
  {
    Blockchain.FalsyID(orderID) || Blockchain.Falsy(status)
  }

  /** updateOrderStatus: 403 without a session; the account list is fetched first, so a
      node that cannot list accounts gives 500 even for a malformed request; then 400,
      the local update, 404 when no row changed, and otherwise the ledger call, whose
      failure gives 500 while the local row stays confirmed. `reply` is the node's
      answer to the sent transaction. */
  method UpdateOrderStatus(db: Db, session: Session, orderID: Option<int>, status: Option<string>,
                           node: Blockchain.Node, reply: Option<Blockchain.LedgerError>)
    returns (res: Reply, trace: seq<Effect>)
    requires db.Valid()
    modifies db
    ensures db.Valid() && db.savepoint == old(db.savepoint)
    ensures LocalBeforeLedger(trace)
    ensures session.user.None? ==> res == Status(403) && trace == [] && db.State() == old(db.State())
    ensures session.user.Some? && node.accounts.Failure? ==> res == Status(500) && trace == [] && db.State() == old(db.State())
    ensures session.user.Some? && node.accounts.Success? && BadStatusRequest(orderID, status) ==>
      res == Status(400) && trace == [] && db.State() == old(db.State())
    ensures session.user.Some? && node.accounts.Success? && !BadStatusRequest(orderID, status) ==>
      && db.State() == SupplierModels.Confirmed(old(db.State()), orderID)
      && (SupplierModels.Changes(old(db.orders), orderID) == 0 ==> res == Status(404) && trace == [])
      && (SupplierModels.Changes(old(db.orders), orderID) == 1 ==>
            var request := StatusRequest(node, orderID, status);
            && trace == [Wrote(Orders, orderID.value)] + (if request.Success? then [Sent(request.value)] else [])
            && res == (if Blockchain.Submit(request, reply).Pass? then Status(200) else Status(500)))
  {
    trace := [];
    if session.user.None? {
      return Status(403), trace;
    }
    if node.accounts.Failure? {
      return Status(500), trace;
    }
    var userAddress := Blockchain.FirstAccount(node.accounts.value);
    if BadStatusRequest(orderID, status) {
      return Status(400), trace;
    }
    var changes := SupplierModels.UpdateOrderStatus(db, orderID);
    if changes > 0 {
      trace := trace + [Wrote(Orders, orderID.value)];
      var request := Blockchain.UpdateOrderStatusRequest(node, orderID, status, userAddress);
      if request.Success? {
        trace := trace + [Sent(request.value)];
      }
      var outcome := Blockchain.Submit(request, reply);
      res := if outcome.Pass? then Status(200) else Status(500);
    } else {
      res := Status(404);
    }
  }

  /** The status the ledger records can disagree with the local row: a request carrying
      "Pending" confirms the row locally but sends the enum 0. */
  lemma LedgerMayDisagree(t: Tables, node: Blockchain.Node, orderID: int)
    requires orderID in t.orders.rows && orderID != 0
    requires node.accounts.Success? && |node.accounts.value| > 0 && node.accounts.value[0] != "" && node.contract.Success?
    ensures SupplierModels.Confirmed(t, Some(orderID)).orders.rows[orderID].deliveryStatus == "Confirmed"
    ensures StatusRequest(node, Some(orderID), Some("Pending")).Success?
    ensures StatusRequest(node, Some(orderID), Some("Pending")).value.status == 0
  {
  }
}
