/** What the Express layer gives the controllers and takes back from them:
    the session object, the reply sent to the browser, and the trace of
    effects a pipeline performs on the store and on the ledger. */
module Web {
  import opened Wrappers
  import Blockchain

  /** The `req.session.user` object written by login (`userType` is the object's `type`
      field). */
  datatype SessionUser = SessionUser(
    supplierID: Option<int>,
    id: int,
    userType: string,
    profilePhoto: Option<string>,
    companyName: string,
    companyAddress: string)

  /** `req.session`: the logged-in user and a one-shot message. */
  class Session {
    var user: Option<SessionUser>
    var message: Option<string>

    constructor (user: Option<SessionUser>, message: Option<string>)
      ensures this.user == user && this.message == message
    {
      this.user := user;
      this.message := message;
    }
  }

  /** The reply of a handler: a redirect or a status code (a rendered page or JSON body
      is not modelled beyond its status), or none at all when the handler's promise
      rejects outside its try block. */
  datatype Reply = Redirect(location: string) | Status(code: int) | NoResponse

  datatype TableName = Users | Suppliers | Products | Orders | OrderDetails

  /** One step of a pipeline, in the order performed: a statement that writes the
      row `rowID` of a local table, or a transaction sent to the ledger. */
  datatype Effect = Wrote(table: TableName, rowID: int) | Sent(tx: Blockchain.Transaction)

  /** No local write follows a ledger submission. */
  predicate LocalBeforeLedger(trace: seq<Effect>)
  {
    forall i, j :: 0 <= i < j < |trace| && trace[i].Sent? ==> !trace[j].Wrote?
  }

  /** The first `n` effects are writes and the rest are sends. */
  predicate SplitAt(trace: seq<Effect>, n: int)
  {
    && 0 <= n <= |trace|
    && (forall i :: 0 <= i < n ==> trace[i].Wrote?)
    && (forall j :: n <= j < |trace| ==> trace[j].Sent?)
  }

  /** The number of writes before the first send. */
  function LeadingWrites(trace: seq<Effect>): (n: nat)
    ensures n <= |trace|
    ensures forall i :: 0 <= i < n ==> trace[i].Wrote?
    ensures n < |trace| ==> trace[n].Sent?
  {
    if trace == [] || trace[0].Sent? then 0 else 1 + LeadingWrites(trace[1..])
  }

  /** A trace keeps local writes before ledger sends exactly when it is all of its
      writes followed by all of its sends. */
  lemma LocalBeforeLedgerSplits(trace: seq<Effect>)
    ensures LocalBeforeLedger(trace) <==> exists n :: SplitAt(trace, n)
  {
    if LocalBeforeLedger(trace) {
      var n := LeadingWrites(trace);
      forall j | n <= j < |trace| ensures trace[j].Sent? {
        if j > n {
          assert !trace[j].Wrote?;
        }
      }
      assert SplitAt(trace, n);
    }
    if n :| SplitAt(trace, n) {
      forall i, j | 0 <= i < j < |trace| && trace[i].Sent? ensures !trace[j].Wrote? {
        assert i >= n;
      }
    }
  }
}
