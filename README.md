# WoodChain order pipeline — a Dafny model

WoodChain is a wood marketplace. Buyers ("User" accounts) order products from
suppliers ("Supplier" accounts). Every order is written to a local SQLite store and
then mirrored onto the OrderChain ledger contract. When a supplier confirms an order,
the confirmation also goes to the store first and then to the ledger. This project
models that core and proves properties of the model:

- **The store** (`database.dfy`, module `Database`, from `utils/database.js`).
  - The five tables are AUTOINCREMENT tables: a map of rows plus the last key handed
    out.
  - The class `Db` holds the tables and the open transaction (BEGIN, COMMIT and
    ROLLBACK restore a saved copy).
  - `Schema` states the CHECK, UNIQUE and key invariants. Every `Db` method preserves
    them.
  - Inserts fail exactly when a constraint refuses them.
  - The start-up seeding is modelled, including its transaction.
- **The model layer** (`supplier_models.dfy`, `user_models.dfy`, `main_models.dfy`,
  one module per file under `models/`).
  - Each query is a function over the tables. Its contract gives the rows it returns:
    WHERE filters, inner joins, `LIKE '%q%'` (ASCII case-insensitive, with the search
    text taken literally), and `ORDER BY date DESC`.
  - Each statement that writes is a method. Its new state is a function of the old
    one, and the affected-row count is stated exactly.
- **The ledger client** (`blockchain.dfy`, module `Blockchain`, from
  `utils/blockchain.js`).
  - The checks made before a send.
  - The conversion to cents and to Unix seconds.
  - The `StatusEnum` mapping.
  - How errors are passed on.
  - The node is a value: its account list and its contract lookup. The node's answer
    to each send is a parameter.
- **The controllers** (`supplier_controller.dfy`, `user_controller.dfy`,
  `main_controller.dfy`, plus `upload.dfy` for the file filter both upload handlers
  share).
  - Each handler returns its reply: a redirect, a status code, or no reply at all.
  - The two pipelines (`recordOrder`, `updateOrderStatus`) also return the trace of
    effects they perform: store writes and ledger sends. `LocalBeforeLedger` proves
    that no local write follows a ledger send.
- **Shared modules.**
  - `wrappers.dfy` (Option, Result, Outcome).
  - `text.dfy`: substring, ASCII lower-casing, last dot.
  - `bcrypt.dfy`: an idealised password digest.
  - `web.dfy`: the session, replies and effects.

Inputs that the running program takes from outside become parameters:

- the current date (`today`) and `Date.now()` (`stamp`);
- bcrypt's random salt;
- the node's reply to a send;
- whether the session could be saved;
- for the seeding, which storage step fails.

Request bodies arrive already parsed, as `UserController.Query`,
`UserController.Parsed` and `UserController.OrderForm`. Parsing failures are
constructors of these types.

## Model

| member | source | states |
|---|---|---|
| Database.Db.constructor | utils/database.js:18-83 | a new store has the five empty tables, satisfies the schema and has no open transaction |
| Database.Db.Begin | models/mainModels.js:75-80 | BEGIN fails with a nested-transaction error when one is open, otherwise saves the current tables; the tables do not change |
| Database.Db.Commit | models/mainModels.js:112-118 | COMMIT keeps the tables and drops the saved copy; it fails when no transaction is open |
| Database.Db.Rollback | models/mainModels.js:85-90 | ROLLBACK restores exactly the tables saved at BEGIN; it fails when no transaction is open |
| Database.Db.InsertUser | utils/database.js:22-30 | the insert is refused iff the userType is not 'User'/'Supplier' or the email is taken; on success the row gets key last+1 and nothing else changes |
| Database.Db.InsertSupplier | utils/database.js:34-39 | refused iff a supplier row already has this userID (UNIQUE); otherwise the row gets the next key |
| Database.Db.InsertProduct | utils/database.js:43-52 | the product gets the next key with isActive defaulting to 1 |
| Database.Db.InsertOrder | utils/database.js:56-66 | refused iff deliveryStatus is not 'Pending'/'Confirmed'; otherwise the next key |
| Database.Db.InsertOrderDetail | utils/database.js:70-80 | the detail row gets the next key; no constraint applies |
| Database.SelectIds | models/supplierModels.js:13-28 | a table scan returns exactly the keys whose rows pass the filter, each once, in increasing key order (the order the model fixes for a scan) |
| Database.Rows | models/supplierModels.js:13-28 | a SELECT returns exactly the stored rows that satisfy its WHERE clause, each once; the model lists them by increasing key |
| Database.ByKey | models/userModels.js:116-129 | `WHERE key = ?` finds the row iff the key is present (NULL matches nothing) |
| Database.OrderByDesc | models/supplierModels.js:209-235 | ORDER BY date DESC returns the same rows (as a multiset) sorted by descending date |
| Database.InsertDesc | models/supplierModels.js:209-235 | inserting into a date-descending list keeps it sorted and adds exactly that row |
| Database.OrderKeepsRows | models/supplierModels.js:209-235 | sorting neither adds nor drops a row |
| Database.InsertDefaultUser | utils/database.js:87-98 | afterwards the default user's email is taken; an existing account is left unchanged, otherwise exactly the default user is inserted |
| Database.SeedSupplierRows | utils/database.js:109-172 | with no failing step, the writes are exactly the supplier user, its supplier row (skipped when one already references the user) and the two products; the caller rolls back after a failing step |
| Database.InsertDefaultSupplier | utils/database.js:101-176 | an open transaction, a failing step or an existing supplier email leave the store unchanged; otherwise the supplier user, its row and the Oak and Pine products are added together |
| Database.SeededSupplierCounts | utils/database.js:131-156 | seeding adds exactly one user and two products, both with the literal supplierID 1 and active, and one supplier row unless one already references the new user; orders and details are untouched |
| Database.InsertSeedSupplier | utils/database.js:134-145 | the supplier row is inserted for the new user unless that user already has one |
| Database.InsertSeedUser | utils/database.js:109-131 | when the supplier email is absent, the supplier user is inserted under the next key, and that key is the userID handed on |
| Database.InsertSeedProducts | utils/database.js:149-157 | the two seed products are inserted as consecutive rows |
| SupplierModels.SupplierProducts | models/supplierModels.js:13-28 | exactly the stored products of the supplier with isActive = 1, one per matching key |
| SupplierModels.ProductsByName | models/supplierModels.js:88-103 | exactly the supplier's active products whose name is LIKE '%name%', one per matching key |
| SupplierModels.SearchWithinCatalogue | models/supplierModels.js:88-103 | every search result is in the catalogue, and the empty search is the whole catalogue |
| SupplierModels.SearchFindsOwnName | models/supplierModels.js:88-103 | searching a supplier's catalogue for a listed product's exact name returns that product |
| SupplierModels.AddProduct | models/supplierModels.js:116-131 | the new product is stored under the returned next key |
| SupplierModels.AddedIsListed | models/supplierModels.js:116-131 | a newly added product shows in its supplier's catalogue |
| SupplierModels.Changes | models/supplierModels.js:38-54 | an UPDATE by key reports 1 iff the key exists, else 0 |
| SupplierModels.UpdateProduct | models/supplierModels.js:144-175 | the row's name, description and price are replaced, and its image only when a non-empty image is given; the count is the affected rows |
| SupplierModels.EditKeepsOwnership | models/supplierModels.js:144-175 | an edit keeps the product's supplier and isActive, and keeps the old image when none is given |
| SupplierModels.DeleteProduct | models/supplierModels.js:184-200 | soft delete: isActive becomes 2 and the row stays; the count is the affected rows |
| SupplierModels.DeleteHidesProduct | models/supplierModels.js:184-200 | after deletion the product is absent from catalogue and search results; every other listed product stays; no key disappears |
| SupplierModels.SupplierDescription | models/supplierModels.js:63-78 | the description of the supplier row, or null when there is none |
| SupplierModels.UpdateSupplierDescription | models/supplierModels.js:38-54 | the description of that supplier row is replaced; the count is the affected rows |
| SupplierModels.DescriptionRoundTrip | models/supplierModels.js:38-78 | reading after writing returns the written description; other suppliers and every other table are untouched |
| SupplierModels.JoinCustomers | models/supplierModels.js:209-235 | one row per order, in the same position, carrying the order and its buyer's company name |
| SupplierModels.SupplierOrders | models/supplierModels.js:209-235 | the supplier's orders whose buyer exists (inner join) and passes the filter, as many rows as such orders, sorted by date descending |
| SupplierModels.OrdersBySupplierID | models/supplierModels.js:209-235 | exactly the supplier's orders with a known buyer, as many rows as such orders, newest first |
| SupplierModels.OrdersByCustomerName | models/supplierModels.js:245-263 | exactly those whose buyer's company name is LIKE '%name%', as many rows as such orders, newest first |
| SupplierModels.UpdateOrderStatus | models/supplierModels.js:272-285 | the order becomes 'Confirmed' whatever its status was, and the count is 1 iff the order exists |
| SupplierModels.ConfirmIdempotent | models/supplierModels.js:272-285 | confirming twice equals confirming once, and the second call still reports 1 changed row |
| UserModels.Cards | models/userModels.js:12-29 | one card per supplier row, in the same position, carrying the row and its user's company details |
| UserModels.SupplierCards | models/userModels.js:12-29 | exactly the suppliers whose user exists and passes the filter, one card per such supplier row |
| UserModels.SupplierCardsCover | models/userModels.js:12-29 | the cards of the selected supplier rows are exactly the cards of the stored rows that pass the join and the filter |
| UserModels.AllSuppliers | models/userModels.js:12-29 | every supplier with an existing user, as a card, one per supplier row |
| UserModels.SearchSuppliersByName | models/userModels.js:38-56 | exactly the suppliers whose company name is LIKE '%name%', one card per such supplier row |
| UserModels.SearchWithinSuppliers | models/userModels.js:38-56 | a search returns a subset of all suppliers, and the empty search returns all of them |
| UserModels.SupplierByID | models/userModels.js:65-86 | the card of the supplier row and its user, or none when either is missing |
| UserModels.ProductDetails | models/userModels.js:116-129 | the product row by key, active or not |
| UserModels.SoftDeletedStillFetched | models/userModels.js:116-129 | a soft-deleted product is still fetched by ID |
| UserModels.CreateOrder | models/userModels.js:143-169 | one 'Pending' order with the given total, under the returned next key |
| UserModels.CreateOrderDetail | models/userModels.js:184-193 | one detail row under the returned next key |
| UserModels.JoinSuppliers | models/userModels.js:202-229 | one row per order, in the same position, carrying the order and its supplier's company name |
| UserModels.BuyerOrders | models/userModels.js:202-229 | exactly the buyer's orders whose supplier row and supplier user exist and pass the filter, one row per such order |
| UserModels.BuyerOrdersCover | models/userModels.js:202-229 | the joined rows of the selected orders are exactly those of the stored orders that pass the joins and the filter |
| UserModels.OrdersByUserID | models/userModels.js:202-229 | exactly the buyer's orders with a known supplier company, as many rows as such orders |
| UserModels.SearchOrdersBySupplierName | models/userModels.js:239-265 | exactly those whose supplier's company name is LIKE '%name%', as many rows as such orders |
| UserModels.NewOrderVisibleToBuyer | models/userModels.js:202-229 | a new order with a known supplier company shows in the buyer's list |
| UserModels.NewOrderHiddenWithoutSupplier | models/userModels.js:202-229 | a new order whose supplier row or supplier user is missing never shows |
| MainModels.FindByEmail | models/mainModels.js:13-30 | an account is found iff the email is taken; it is the stored user with that email; its supplierID is present iff a supplier row references the user |
| MainModels.Create | models/mainModels.js:44-55 | the user is inserted unless the type check or the unique email refuses it |
| MainModels.InsertSupplierAccount | models/mainModels.js:84-110 | the user and then a supplier row for it, refused exactly under SupplierRefused |
| MainModels.CreateSupplier | models/mainModels.js:70-127 | both rows are committed, or neither after ROLLBACK; it fails iff a transaction is open or an insert is refused |
| MainModels.SignedUpSupplierSchema | models/mainModels.js:70-127 | a supplier sign-up keeps every schema invariant |
| MainModels.SignedUpSupplierFound | models/mainModels.js:13-30 | after a supplier sign-up, findByEmail returns the new user with the new supplier row's ID |
| MainModels.UpdateProfilePhoto | models/mainModels.js:137-150 | only the user's photo path changes; the count is 1 iff the user exists |
| MainModels.OrderDetailsByID | models/mainModels.js:159-185 | an invoice exists iff the order, its buyer, its supplier row and the supplier's user all exist; it carries that order, the buyer's company name and address, the supplier user's company name and address, and the supplier row's description |
| MainModels.Lines | models/mainModels.js:194-212 | one line per detail, in the same order, each carrying that detail and its total price × quantity |
| MainModels.LinesCover | models/mainModels.js:194-212 | a line is among the lines of a list of details iff it is the line of one of those details |
| MainModels.OrderProducts | models/mainModels.js:194-212 | one line per stored detail of the order whose product exists, each once and with its line total; the model lists them by increasing key |
| Blockchain.InitializeContract | utils/blockchain.js:35-45 | the contract is found iff the network ID is known and has a recorded deployment; otherwise the error is "not deployed" |
| Blockchain.Cents | utils/blockchain.js:69 | the result is the nearest whole cent to amount × 100 |
| Blockchain.CentsExact | utils/blockchain.js:69-76 | an amount that is already in whole cents converts exactly |
| Blockchain.Seconds | utils/blockchain.js:65 | floor of milliseconds / 1000 |
| Blockchain.StatusEnum | utils/blockchain.js:115 | 1 iff the status is 'Confirmed', otherwise 0 |
| Blockchain.FormatDetails | utils/blockchain.js:70-77 | same length and order; every field copied, the price converted to cents |
| Blockchain.PlaceOrderRequest | utils/blockchain.js:63-97 | fails with the account error, then the contract error, then the no-sender error; otherwise the transaction carries the sender, the gas, the seconds, the total in cents and the formatted lines |
| Blockchain.PlaceOrderExample | utils/blockchain.js:63-92 | two lines at 59.99 (×2) and 39.99 with total 159.97 reach the contract as 15997 cents, with unit prices 5999 and 3999 |
| Blockchain.UpdateOrderStatusRequest | utils/blockchain.js:108-121 | a falsy orderID, an undefined status or a falsy sender is refused before the contract is awaited; otherwise the status enum goes to the contract |
| Blockchain.Submit | utils/blockchain.js:87-96 | an error before the send or the node's error answer is passed on unchanged; the call succeeds iff neither happens |
| Blockchain.Read | utils/blockchain.js:130-155 | a read fails with the contract error, otherwise returns the node's answer |
| Blockchain.FirstAccount | controllers/supplierController.js:333-334 | `accounts[0]`: present iff the list is non-empty |
| Text.Lower | controllers/supplierController.js:40 | same length, and each ASCII capital is lowered |
| Text.LastDot | controllers/supplierController.js:40 | the index of a '.' with no '.' after it, or -1 when there is none |
| Text.Like | models/supplierModels.js:88-103 | `LIKE '%q%'` matches iff the search text agrees, character by character up to ASCII case, with some stretch of the string; so it never matches a shorter string |
| Text.LowerOccursAt | models/supplierModels.js:88-103 | the lower-cased search text occurs in the lower-cased column exactly where the two agree character by character up to case |
| Text.LikeIgnoresCase | models/userModels.js:38-56 | lower-casing either the column or the search text does not change whether LIKE matches |
| Text.ContainsWithin | models/supplierModels.js:88-103 | a substring of a string stays a substring of any string that contains it |
| Text.LikeEmpty | models/userModels.js:38-56 | the pattern '%%' matches every string |
| Text.LikeSelf | models/supplierModels.js:88-103 | every string is LIKE '%s%' for itself, ignoring case |
| Upload.ImageType | controllers/supplierController.js:39 | the unanchored jpeg, jpg or png test passes iff some position starts "jp" then "g" or "eg", or starts "png"; so no string under three characters passes |
| Upload.ImageAtIndex | controllers/supplierController.js:39 | one of jpeg, jpg and png occurs at a position iff it starts "jp" then "g" or "eg", or "png" |
| Upload.ImageTypeAt | controllers/supplierController.js:39 | the regular expression matches somewhere iff some position starts one of the alternatives, read character by character |
| Upload.ImageTypeUnanchored | controllers/supplierController.js:39 | any string containing one that passes the test passes it too |
| Upload.CheckFileType | controllers/supplierController.js:38-48 | a file passes the filter only when its name has an extension and its mimetype passes the test |
| Upload.AcceptsImageName | controllers/supplierController.js:38-48 | every name made of a non-empty stem and ".jpeg", ".jpg" or ".png" passes with an accepted mimetype |
| Upload.TailMismatch | controllers/supplierController.js:39 | a pattern does not occur at a position whose character differs from its first |
| Upload.ExtName | controllers/supplierController.js:40 | "" or a suffix of the name that starts with its only '.'; non-empty iff the last '.' is not the first character and the name is not ".." |
| Upload.AcceptsUpperCasePng | controllers/supplierController.js:38-48 | "Oak.PNG" with mimetype image/png is accepted, because only the extension is lower-cased |
| Upload.RejectsUpperCaseMimetype | controllers/supplierController.js:38-48 | the mimetype "image/PNG" is refused, because it is not lower-cased |
| Upload.RejectsNameWithoutDot | controllers/supplierController.js:38-48 | a name without a dot, such as "png", has no extension and is refused whatever its mimetype |
| Upload.AcceptsUnanchoredExtension | controllers/supplierController.js:38-48 | ".jpgx" passes, because the pattern is unanchored |
| Upload.StoredName | controllers/supplierController.js:13-18 | the stored file name starts with the field prefix, and its length is that of the prefix, the timestamp and the original extension together |
| Upload.StoredNameKeepsExtension | controllers/supplierController.js:13-18 | the stored name's extension is the one the filter checked |
| SupplierController.ReplyForChanges | controllers/supplierController.js:99-104 | more than 0 changed rows redirect to the supplier home, otherwise 404 |
| SupplierController.UpdateSupplierDescription | controllers/supplierController.js:93-109 | the session's supplier description is written, and the reply follows the changed-row count |
| SupplierController.ImageOf | controllers/supplierController.js:165-170 | the uploaded file's name, or "" when nothing was uploaded |
| SupplierController.AddProduct | controllers/supplierController.js:161-180 | the product is added for the session's supplier and the reply is a redirect to the supplier home |
| SupplierController.UpdateProduct | controllers/supplierController.js:197-220 | the edit (image only if uploaded) and a reply that follows the changed-row count |
| SupplierController.DeleteProduct | controllers/supplierController.js:232-248 | the soft delete and a reply that follows the changed-row count |
| SupplierController.BadStatusRequest | controllers/supplierController.js:336-339 | a request that passes the 400 check has an orderID that is not falsy and a status that is present |
| SupplierController.UpdateOrderStatus | controllers/supplierController.js:324-357 | 403, 500 when the accounts cannot be listed, 400, 404 with nothing sent, or the local confirmation followed by the send: 200 iff the send succeeds, 500 otherwise with the row still confirmed; no write follows the send |
| SupplierController.LedgerMayDisagree | controllers/supplierController.js:342-347 | the request status "Pending" confirms the row locally but sends status 0 to the ledger |
| UserController.EnrichLine | controllers/userController.js:115-126 | a found product (active or not) with total price × quantity, or the placeholder "Product not found" priced 0 |
| UserController.Enrich | controllers/userController.js:114-127 | one line per entry, in entry order |
| UserController.PlaceOrder | controllers/userController.js:106-139 | no reply when the parameter is not JSON; 500 for null; no lines when it is absent; otherwise the enriched lines and the supplier |
| UserController.DeletedProductStillPriced | controllers/userController.js:115-122 | a soft-deleted product is still offered on the confirmation page at its price |
| UserController.WithDetailsRows | controllers/userController.js:176-185 | the items become consecutive detail rows after the last key, in order, and nothing else changes |
| UserController.DetailWritesAt | controllers/userController.js:176-185 | the i-th detail write is the row last + 1 + i |
| UserController.LedgerInputs | controllers/userController.js:195-202 | one ledger line per item, with the order ID and the item's fields |
| UserController.OrderRequest | controllers/userController.js:188-203 | a failing account list gives that error and no transaction |
| UserController.CreateNextDetail | controllers/userController.js:176-185 | writing item i adds its detail row as key last + 1 + i and extends the trace by that write |
| UserController.CreateDetails | controllers/userController.js:176-185 | the store gains exactly the items' detail rows, in order, and the trace records their keys |
| UserController.RecordItems | controllers/userController.js:166-205 | the order row, then the detail rows, then at most one send; the redirect iff the send succeeds, otherwise 500 with the rows kept |
| UserController.RecordOrder | controllers/userController.js:157-210 | 403 with nothing written; 500 with nothing written for a body that is not JSON; 500 after the order row for a non-array; otherwise RecordItems; no write follows the send |
| UserController.WritesBeforeSend | controllers/userController.js:176-203 | writes followed by sends never put a write after a send |
| UserController.RecordTraceOrdered | controllers/userController.js:166-203 | recordOrder's trace puts every local write before the send |
| UserController.LedgerMatchesOrder | controllers/userController.js:168-203 | the ledger total is the stored order total in cents, and the supplier is the same |
| UserController.LedgerMatchesDetails | controllers/userController.js:176-202 | each ledger line matches the stored detail row with the same position: order ID, product, quantity, and the unit price in cents |
| UserController.LedgerLineMatchesAt | controllers/userController.js:176-202 | ledger line i carries the order ID, product, quantity and unit price in cents of the detail row stored for item i |
| UserController.RecordedRow | controllers/userController.js:166-185 | item i is stored as the detail row with key last + 1 + i, under the new order's ID |
| UserController.RequestLines | controllers/userController.js:195-202 | the transaction's lines copy the items, with the price in cents |
| UserController.RequestLine | controllers/userController.js:195-202 | line i of the transaction copies item i, with its price in cents |
| MainController.NoUserType | controllers/mainController.js:70-72 | the missing-type check never fires for a type the Users table accepts |
| MainController.Signup | controllers/mainController.js:64-112 | 400 with no write for a missing type or a taken email; otherwise creation through createSupplier for 'Supplier' and create for other types, and a redirect iff nothing was refused, else 500 with no write |
| MainController.CreateAccount | controllers/mainController.js:84-107 | the supplier path commits both rows with 'Supplier Description'; any other type inserts just the user and fails on the type check |
| MainController.Authenticate | controllers/mainController.js:129-137 | an account iff the email is known and the stored hash accepts the password |
| MainController.SessionOf | controllers/mainController.js:139-157 | the session user copies the account; its supplierID is present iff the type is 'Supplier' and a supplier row was found |
| MainController.Home | controllers/mainController.js:160-166 | suppliers go to the supplier home, everyone else to the user home |
| MainController.Login | controllers/mainController.js:125-171 | one 401 for an unknown email and for a wrong password, with the session unchanged; otherwise the session user is written and the user sent home |
| MainController.SignupLoginRoundTrip | controllers/mainController.js:84-161 | a supplier who signed up logs in with the same password, gets the new supplier ID in the session, and is sent to the supplier home |
| MainController.SignupWrongPassword | controllers/mainController.js:134-137 | after sign-up, any other password is refused |
| MainController.ShowLogin | controllers/mainController.js:181-185 | the stored message is returned once and cleared |
| MainController.UploadProfilePhoto | controllers/mainController.js:196-224 | 400 for a refused or missing file; otherwise the photo path is stored and copied into the session, then 200 or 500 depending on the session save |
| MainController.GrandTotal | controllers/mainController.js:244-248 | the loop sums the line totals |
| MainController.OrdersPage | controllers/mainController.js:249-258 | an unconfirmed order sends a supplier to the supplier orders page and anyone else to the manage-order page |
| MainController.ShowOrderDetails | controllers/mainController.js:239-295 | 500 for an unknown order; a redirect by user type for an order that is not 'Confirmed'; otherwise the invoice with its lines and their sum |
| MainController.UnconfirmedOrderDetails | controllers/mainController.js:307-320 | every order the joins find is shown, whatever its status, with exactly the invoice of getOrderDetailsById and the lines of getOrderProducts; 500 otherwise |
| Web.LeadingWrites | controllers/userController.js:166-203 | the writes before the first send: all of them are writes, and the effect after them, if any, is a send |
| Web.LocalBeforeLedgerSplits | controllers/supplierController.js:342-351 | no write follows a send iff the trace is a run of writes followed by a run of sends |
| Bcrypt.CompareHash | controllers/mainController.js:134 | the stored hash accepts exactly the password that was hashed |

## Left out

- Routing and server wiring (`routes/*.js`, `index.js`) are not modelled.
  - The login check in `utils/authMiddleware.js` appears as a `session.user.Some?`
    precondition on the handlers that are mounted behind it and dereference the
    session.
  - `updateOrderStatus` and `recordOrder` check the session themselves, and that
    check is modelled.
- The read-only page handlers are modelled only through the queries they call. These
  are `showSupplierHome`, `searchProducts`, `showSupplierOrders`, both
  `searchOrders`, `showSelectProduct`, `showManageOrderPage`, `searchSuppliers` and
  the home routes.
- `getProductsBySupplierId` (models/userModels.js:95-107) issues the same SQL as
  `getSupplierProducts`. `SupplierModels.SupplierProducts` models both.
- Rendering, JSON bodies and the PDF export (puppeteer) in `showOrderDetails` are not
  modelled. A reply is its status code or redirect target. `ShowOrderDetails` stops
  at the data handed to the template.
- Storage errors are not modelled.
  - SQLite I/O errors, locking and the `err` callbacks of the model functions are
    left out. In the model, a statement fails only when a constraint refuses it.
  - The 500 replies that such errors would cause are therefore not modelled.
  - The exception is the start-up seeding, which takes a failing step as a parameter.
- Concurrency is not modelled.
  - The `Promise.all` of `createOrderDetail` calls runs as one insert per item, in
    array order.
  - Interleaving between requests is not modelled.
- Parsing is done before the model sees the input. `JSON.parse`,
  `decodeURIComponent`, `parseFloat` and the parsing of date strings happen outside
  it. Dates are integers (milliseconds), and IDs from request bodies are integers.
  The cases the handlers distinguish are constructors of the input types.
- Time is a parameter. `new Date()` and `Date.now()` arrive as `today` and `stamp`.
  - `today` stands for the stored order date, `new Date().toISOString().slice(0, 10)`
    (controllers/userController.js:110,164): the UTC calendar day, not the instant.
  - Orders placed on the same day tie under `ORDER BY date DESC`
    (models/supplierModels.js:217,253). SQLite returns tied rows in no fixed order, so
    `OrderByDesc` states only sortedness and the multiset of rows.
- `Bcrypt`: hashing is an idealised digest that pairs the salt and the password. The
  real bcrypt algorithm and its cost factor are not modelled.
- Bcrypt.CompareHash: the idealised comparison accepts only the password itself. The
  `bcrypt` package (controllers/mainController.js:4,134) uses only the first 72 bytes
  of a password, so it also accepts any password that agrees with the hashed one in
  those bytes. The model does not capture that truncation.
- MainController.SignupWrongPassword: "any other password is refused" holds for the
  idealised comparison. With bcrypt it holds only for passwords that differ from the
  signed-up one within their first 72 bytes.
- The ledger node and the OrderChain contract are values.
  - The contract's own logic is not modelled.
  - The answers to `getOrder` and `getOrderDetails` are parameters of
    `Blockchain.Read`.
  - The provider options and the HTTP transport are left out.
- multer is left out except for the file filter and the stored file name. This covers
  the disk writes and the size limit. `SupplierController.AddProduct` takes the
  stored name as given.
- Login's session persistence (the session store) is not modelled. Only
  `UploadProfilePhoto`'s explicit `session.save` has an outcome parameter.
- Foreign keys are not invariants. SQLite does not enforce them by default, so the
  model allows rows that reference missing rows.
- Blockchain.Cents: amounts are exact reals, not IEEE doubles, so floating-point
  rounding of `amount * 100` is not modelled.
- MainModels.Lines: SQLite's `price * quantity` (models/mainModels.js:199) is a
  double; the model's line total is the exact product.
- UserController.EnrichLine: `productPrice * quantity`
  (controllers/userController.js:121) is a double; the model's total is exact.
- MainController.GrandTotal: the `grandTotal +=` loop
  (controllers/mainController.js:244-248) adds doubles; the model adds exact reals,
  so `Sum` carries no rounding error.
- Database.Rows: a SELECT without ORDER BY comes back in no order SQL promises, and
  getOrderProducts is a join whose plan decides the order. The model lists such rows
  by increasing key. This order is a choice of the model, not a promise of the
  source. What the source does fix is which rows come back and that each comes back
  once. This applies to every unordered query in the models: `SelectIds`,
  `SupplierProducts`, `ProductsByName`, the `UserModels` supplier and order lists,
  and `OrderProducts`.
- Upload.ExtName: models `path.extname` only for names without a directory part.
  Browsers send only the base name as the original file name.
- MainController.ShowOrderDetails: requires a logged-in session, which the route's
  `isAuthenticated` (routes/main.js:83) guarantees. The handler reads the session
  only for an order that is not 'Confirmed' (controllers/mainController.js:249-251).
- Text.Like: the search text is bound as `%${name}%`
  (models/supplierModels.js:95,255; models/userModels.js:47,256), so a `%` or `_`
  the user types is a SQL wildcard. `Text.Like` takes every character of the search
  text literally, so it models only search texts without `%` and `_`.

## Notes on the modelled behaviour

These facts are proved above. They are points where the code differs from what a
reader might expect.

1. **The ledger lines carry unit prices, not line totals.**
   - The ledger receives each line's unit price in cents, not price × quantity
     (utils/blockchain.js:70-77, controllers/userController.js:195-202;
     `UserController.LedgerMatchesDetails`, `Blockchain.PlaceOrderExample`).
2. **The order total is not recomputed.**
   - The stored and mirrored order total is the client's `grandTotal`
     (`UserController.LedgerMatchesOrder`).
   - The invoice page recomputes its grand total from the lines
     (`MainController.ShowOrderDetails`).
3. **The status update ignores the requested status.**
   - `updateOrderStatus` confirms an order whatever status is requested, and reports 1
     changed row even when the order is already confirmed
     (`SupplierModels.ConfirmIdempotent`).
   - So the "already confirmed" 404 is never produced for an existing order.
   - The ledger receives the requested status's enum, so a "Pending" request confirms
     the row locally while sending 0 (`SupplierController.LedgerMayDisagree`).
4. **Neither pipeline rolls back.**
   - After the local writes, a ledger failure still gives 500 with the rows kept.
   - A non-array `orderDetails` leaves an order row without details.
5. **Some routes check only that a user is logged in.**
   - `updateProduct`, `deleteProduct` and `updateOrderStatus` do not check that the
     product or order belongs to the session's supplier.
   - `showUnconfirmedOrderDetails` has no login check and no status gate.
6. **The file filter is loose.**
   - The match is unanchored, so ".jpgx" passes.
   - The mimetype is matched case-sensitively.
