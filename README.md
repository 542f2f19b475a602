# KisanPay ledger and marketplace, modelled in Dafny

KisanPay is a farmer-oriented banking web application. Customers sign up as
Buyers or Sellers and each gets one account. Sellers stock products in an
inventory. Buyers purchase from it, which moves money from the buyer's
account to the seller's account, lowers the stock and records an Order, an
OrderDetail and a Transaction. Admins credit accounts and add products to
the catalogue.

This project models the routes that change that data, and the form checks
the sign-up page runs before it calls them.

- `web.dfy`: module `Web`. A request field as the routes' guards
  `!x || isNaN(x)` see it (`Field`), the HTTP `Response`, and `Option`.
  A field is missing, not a number, a JSON number, or a numeric string.
  The customer dashboard sends `cust_id` as a string read from
  `localStorage`, and `receiver_account` as the raw input text. The JSON
  number 0 is falsy and is refused as an id. The string "0" is truthy and
  gets through. Negative ids pass the guard.
- `js.dfy`: module `Js`. The string operations the code relies on:
  ECMAScript whitespace (`\s` and `trim`), `trim()`, and `includes()`.
  `includes()` is proved equal to "occurs at some index". For `trim()` only
  the fact the routes use is proved: it gives `''` exactly for an
  all-whitespace string. The whitespace set is written out from the
  ECMAScript WhiteSpace and LineTerminator tables and has no lemma.
- `store.dfy`: module `Store`. The tables as datatypes and the class
  `Ledger`, which holds one map or sequence per table and the next value of
  each serial key. `Ledger.Valid()` holds:
  - the schema's foreign keys;
  - that the serial keys are fresh: every customer, product and inventory
    id, and every order id already used, is below the next value;
  - the invariants the routes keep: balances and stock are never negative,
    prices are positive, and there is one Inventory row per (supplier, product).

  The module also holds the balance update `Adjust` and the sum of all
  balances, `TotalBalance`.
- `customers.dfy`: module `CustomerRoutes`. It covers sign-up and
  create-account, the transfer route's input checks and its mapping from
  database error to HTTP status, the inventory upsert, and the purchase.
- `admin.dfy`: module `AdminRoutes`. It covers add-money and add-product.
- `signup_page.dfy`: module `SignUpPage`. The seven ordered checks of the
  sign-up form. Each regular expression is proved equal to a predicate over
  character classes and lengths.

Routes that change data are module-level methods that take the database
as `db: Ledger` and declare `modifies db`. Each method's postcondition gives
the whole new state in terms of the old one. Checks and mappings that only
compute are functions, and lemmas tie them to independent definitions:
- a "first failing check in rank order" reading of the purchase checks
  (`PurchaseCheck`) and of the sign-up form checks (`FirstError`);
- regex-shaped readings of the form validators;
- a left-to-right scan of `includes()`, proved equal to its occurrence
  definition.

The shorter input-guard chains (`TransferInputCheck`, `StockInputCheck`,
`MoneyInputCheck`, `ProductInputCheck`) are stated branch by branch: when
the request gets through, and which text each failing guard answers with.

All five purchase checks come before the first write. So the route's
ROLLBACK on a thrown error means the tables are unchanged on every
refusal, and `Purchase` says exactly that. The route does not check roles,
so a customer may buy their own stock. The two balance updates then cancel,
and `PurchaseSettlement` covers that case.

A few behaviours of the code are worth naming:
- A purchase refused inside the transaction answers 500 with the error
  text, for example "Insufficient funds", not a 4xx.
- A second stocking of the same (seller, product) overwrites quantity and
  price; `LastStockingWins` states it.
- The debit and credit of a transfer happen in the database function
  `transfer_funds`, not in the route.

The schema is not part of this model. These foreign keys are assumed:
Accounts.cust_id references Customers, and Inventory.supplier_id and
Inventory.product_id reference Customers and Products. Under them the
JOINs in the purchase's inventory query are plain key lookups. An account
created for an id that is not a customer breaks the foreign key and ends in
the route's catch block.

## Model

| member | source | states |
|---|---|---|
| `Web.GuardsAreJavaScriptGuards` | backend/routes/customers.js:222-233 | `IsId` is the guard `!x \|\| isNaN(x)` and `IsPositiveInt`/`IsPositiveAmount` are that guard with `\|\| x <= 0`, under JavaScript truthiness. The string "0" passes the first and not the second; the number 0 passes neither. The same guards sit at customers.js:79, 290-301 and 404-412 and at admin.js:12-19 and 79. |
| `Js.TrimIsEmptyIffBlank` | backend/routes/customers.js:293 | `s.trim() === ''` holds exactly when every character of `s` is ECMAScript whitespace, the empty string included |
| `Js.IncludesIffOccurs` | backend/routes/customers.js:262-277 | the `includes` scan finds `sub` exactly when `sub` occurs in `s` at some index |
| `Store.AccountNumber` | backend/routes/customers.js:37 | `floor(100000000000 + r * 900000000000)` for `0 <= r < 1` is always in [100000000000, 999999999999] |
| `Store.Adjust` | backend/routes/admin.js:32 | `balance = balance + delta WHERE cust_id`: same keys, only that customer's balance changes, by exactly `delta`; nothing changes when the customer has no account |
| `Store.AdjustTotal` | backend/routes/customers.js:462-468 | adjusting one existing account by `delta` changes the total money in all accounts by exactly `delta` |
| `CustomerRoutes.ParseRole` | backend/routes/customers.js:23-25 | a role is accepted exactly when it is "Buyer" or "Seller" |
| `CustomerRoutes.Signup` | backend/routes/customers.js:19-53 | any other role gives 400 and changes nothing. Otherwise 201: one new customer under a fresh id and one account for it, with balance 0 and an acc_no in range. Nothing else changes, and the invariants hold. |
| `CustomerRoutes.CreateAccount` | backend/routes/customers.js:76-105 | an invalid id gives 400, and an existing account gives 400 "Account already exists". Each leaves the tables unchanged. An unknown customer gives 500 (foreign key). Otherwise 201: one new account with balance 0 and an acc_no in range. |
| `CustomerRoutes.TransferInputCheck` | backend/routes/customers.js:222-233 | the request gets through exactly when cust_id and receiver_account are valid ids and amount > 0. Otherwise 400 with the text of the first failing guard. |
| `CustomerRoutes.TransferFailureResponse` | backend/routes/customers.js:259-279 | 400 exactly when the database message contains one of the five known phrases, with the text of the first phrase that matches in table order. Otherwise 500 "Transfer failed". |
| `CustomerRoutes.Transfer` | backend/routes/customers.js:216-283 | 200 "Transfer successful" exactly when the inputs pass and the database raised nothing. Invalid input gets its 400 from the input check. A database error is mapped by `TransferFailureResponse`. |
| `CustomerRoutes.TransferRejectsBeforeDatabase` | backend/routes/customers.js:222-244 | on invalid input the response is 400 and does not depend on what `transfer_funds` would do |
| `CustomerRoutes.StockInputCheck` | backend/routes/customers.js:290-301 | the request gets through exactly when the id is valid, the name is present and not blank, quantity > 0 and price > 0. Otherwise 400 with the first failing guard's text. |
| `CustomerRoutes.UpsertKeepsOneRowPerPair` | backend/routes/customers.js:321-337 | `Upsert` is the route's count (`HasRow`), then either its UPDATE of every row for the pair (`Restock`) or its INSERT under a fresh id. After it, exactly one row holds (supplier, product), with the new quantity and price. Other rows are unchanged. A row is inserted only when none existed. The one-row-per-pair invariant is kept. |
| `CustomerRoutes.LastStockingWins` | backend/routes/customers.js:324-326 | stocking the same pair twice gives the same table as the second stocking alone, so the update overwrites and does not add |
| `CustomerRoutes.AddToInventory` | backend/routes/customers.js:286-344 | 400 for bad input, 404 for an unknown customer, 403 for a non-Seller and 404 for an unknown product name, each with no change. Otherwise the inventory becomes the upsert for a product of that name: 201 "updated" when a row existed, 201 "added" with a fresh id otherwise. |
| `CustomerRoutes.PassesEveryCheck` | backend/routes/customers.js:420-458 | all eight purchase checks, each read on its own, pass exactly when the direct purchase condition holds |
| `CustomerRoutes.PurchaseCheck` | backend/routes/customers.js:404-458 | the purchase goes ahead exactly when it is possible: valid inputs, buyer account, the item, quantity ≤ stock, balance ≥ `Total` (price × quantity, line 446), supplier account. Otherwise the refusal is the failed check with every earlier check, in the route's order, passing. |
| `CustomerRoutes.PurchaseResponse` | backend/routes/customers.js:404-502 | 200 exactly on success, 400 exactly for the three input guards, 500 exactly for errors thrown inside the transaction, with the route's text for each |
| `CustomerRoutes.PurchaseSettlement` | backend/routes/customers.js:461-468 | the buyer loses exactly the total and the supplier gains exactly the total (both unchanged if they are the same customer). Their sum, every other account and the money in the system are unchanged. |
| `CustomerRoutes.WithdrawKeepsUniquePairs` | backend/routes/customers.js:470-474 | lowering an item's quantity keeps one row per (supplier, product) |
| `CustomerRoutes.CommitKeepsConsistent` | backend/routes/customers.js:442-474 | after `AfterPurchase`'s writes no balance and no stock is negative, and the other table invariants still hold. The money in all accounts is the same before and after. |
| `CustomerRoutes.AfterPurchase` | backend/routes/customers.js:460-495 | the tables after a purchase: debit and credit by `Total`. That item's stock is lowered by exactly the quantity. Exactly one Order (total_price = total), one OrderDetail (buyer, supplier, item, quantity, unit price) and one Transaction (buyer acc_no → supplier acc_no, amount = total, sender buyer, receiver supplier) are appended. No keys are added or removed. |
| `CustomerRoutes.CommitPurchase` | backend/routes/customers.js:460-495 | the written tables are `AfterPurchase` of the old ones, the stock left is ≥ 0, the money in the system is unchanged, and customers, products and the other counters are untouched |
| `CustomerRoutes.Purchase` | backend/routes/customers.js:400-506 | the outcome is `PurchaseCheck` of the old state and the response is `PurchaseResponse`. A refusal changes nothing (rollback). Success makes exactly the writes of `AfterPurchase` and conserves money, and the invariants hold. |
| `AdminRoutes.MoneyInputCheck` | backend/routes/admin.js:12-19 | the request gets through exactly when cust_id is a valid id and amount > 0. Otherwise 400 "Invalid customer ID" or "Invalid amount", in that order. |
| `AdminRoutes.CreditIsExact` | backend/routes/admin.js:31-34 | a credit raises that customer's balance by exactly `amount` and leaves every other account unchanged. The money in the system grows by exactly `amount`. |
| `AdminRoutes.AddMoney` | backend/routes/admin.js:8-46 | 400 for invalid input and 404 for a customer without an account, each with no change. Otherwise 200: that balance rises by exactly `amount`, the total by `amount`, and nothing else changes. |
| `AdminRoutes.ProductInputCheck` | backend/routes/admin.js:76-81 | a missing or blank name gives 400 "Product name is required". Otherwise a base_price that is missing, not a number or ≤ 0 gives 400 "Invalid base price". The request gets through exactly when neither applies. |
| `AdminRoutes.StoredDescription` | backend/routes/admin.js:86 | `description \|\| null` stores NULL exactly for an absent or empty description |
| `AdminRoutes.AddProduct` | backend/routes/admin.js:73-98 | a refused input changes nothing. Otherwise 201: one catalogue row under a fresh id, and nothing else changes. |
| `SignUpPage.RepeatMatchesIff` | frontend/src/pages/SignUp.js:37-41 | `^[class]{lo,hi}$` matches exactly the strings of the class whose length is between lo and hi |
| `SignUpPage.NameIsRegex` | frontend/src/pages/SignUp.js:37 | a first or last name is accepted exactly when it is 2-50 characters, all ASCII letters or whitespace |
| `SignUpPage.PhoneIsRegex` | frontend/src/pages/SignUp.js:39 | a phone number is accepted exactly when it is 10-15 ASCII digits |
| `SignUpPage.CnicIsRegex` | frontend/src/pages/SignUp.js:40 | a CNIC is accepted exactly when it is 13-15 ASCII digits |
| `SignUpPage.UsernameIsRegex` | frontend/src/pages/SignUp.js:41 | a username is accepted exactly when it is 3-30 characters, all ASCII letters, digits or underscores |
| `SignUpPage.IndexOf` | frontend/src/pages/SignUp.js:38 | the index found holds the character, and no earlier index does |
| `SignUpPage.ValidEmailIsRegex` | frontend/src/pages/SignUp.js:38 | the first-at-sign split check accepts exactly what the regex matches: a non-empty run without whitespace or `@`, then `@`, then such a run, `.`, and such a run |
| `SignUpPage.PassesEveryCheck` | frontend/src/pages/SignUp.js:43-78 | the seven checks all pass exactly when every field is valid |
| `SignUpPage.FirstError` | frontend/src/pages/SignUp.js:43-78 | no error exactly when every check passes. Otherwise the error is a failing check with every earlier check passing, in the order first name, last name, email, phone, CNIC, username, password. |
| `SignUpPage.Submit` | frontend/src/pages/SignUp.js:43-85 | the sign-up request is sent, with the form and role unchanged, exactly when every check passes. Otherwise the message shown is the first error's text. |

## Left out

- Transfer's money movement: the debit, the credit and the Transactions row are made by the database function `transfer_funds`, which is not part of this model. The route's guards and error mapping are modelled; what the function did is a parameter of `Transfer`.
- Loan repayment: the client calls a repayment route that the backend does not define, so there is no code to model.
- Listing and lookup routes (customers, balance, profile, transactions, inventory, orders, seller orders, admin listings), login, and the middleware: they read data and have no invariant to state.
- The other backend route files (accounts, loans, employees, manager, inventory, transactions, billing, purchase, sales, orders): they wrap single SQL statements.
- Floating point: money is an exact `real` and `parseFloat` is identity. `Math.random()` is a parameter in [0, 1).
- Request values: `Text(v)` stands for a plain decimal string such as `"12"`, which is what the clients send. The guards read it with `Number`, the routes read it again with `parseInt` (customers.js:84, 94, 245-246; admin.js:24, 33), and PostgreSQL casts the raw text (customers.js:305, 321, 420, 462). For a plain decimal string all three agree, and the model uses that one value. Strings they read differently are not modelled: whitespace-only (`" "`), exponent (`"1e3"`), hexadecimal (`"0x10"`) and `"Infinity"`. For example, add-money answers 500 for `" "` where `AddMoney` would answer 404, and for `"1e3"` it credits customer 1. Ids and quantities are whole numbers. A fractional id or quantity (`1.5`, `"1.5"`), which passes the guards and then meets an integer column, is not modelled. Neither is a `product_name` that is not a string, whose `.trim` call throws outside the route's `try`.
- Store.Adjust: the model keys Accounts by `cust_id` and so holds at most one account per customer. Sign-up and create-account keep that, but no constraint in the code shown enforces it. The separate accounts routes (backend/routes/accounts.js:7-18, 45-60) insert an account for any `cust_id` and set any balance, keyed by `acc_no`. With two accounts for one customer, the purchase debits both while checking only the first, and add-money credits both. Then `PurchaseSettlement`, `CreditIsExact` and the no-negative-balance part of `Ledger.Valid()` would not hold.
- Infrastructure errors: a lost connection, or a constraint of the unseen schema other than the foreign keys above. If the schema made, say, e-mail unique, a duplicate e-mail on sign-up would answer 500 "Signup failed"; without such a constraint the insert succeeds and `Signup` answers 201, as modelled. These paths are not modelled. BEGIN, COMMIT and ROLLBACK are modelled only as "all writes or none".
- Concurrency: two purchases or two stockings racing between their check and their write are not modelled. Each route runs by itself to completion.
- Response bodies: only the status and the `message` text are modelled. The rows a success returns are dropped: `cust_id` (customers.js:45), `account` (customers.js:99, admin.js:40), `inventory` (customers.js:327, 336; on the update branch it is `undefined`, since that UPDATE has no RETURNING) and `product` (admin.js:92). Each returned row is part of the new state the route's `ensures` already gives.
- Timestamps: `CURRENT_TIMESTAMP` and `NOW()` are the parameter `now`.
- OrderDetails.total_price: the purchase route does not write it, so the model does not either.
- Serial keys: they are modelled as counters that only a successful insert advances.
- The sign-up page's UI state (`setLoading`, `setError`, `setMessage`), navigation, and what happens after the request is sent. Only the decision whether to send, and the message shown otherwise, are modelled.
- Regular expressions run over UTF-16 code units and Dafny strings hold Unicode scalar values. Every character the name, phone, CNIC and username classes accept is in the Basic Multilingual Plane, so the length bounds agree. The e-mail pattern has no bound.
