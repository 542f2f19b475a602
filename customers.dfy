/** The customer routes: sign-up and account creation, the transfer route's
    input checks and error mapping, the inventory upsert, and the marketplace
    purchase. */
module CustomerRoutes {
  import opened Web
  import opened Store
  import Js

  // ---------------------------------------------------------------------
  // Sign-up and account creation
  // ---------------------------------------------------------------------

  /** The body of a sign-up request; `role` is free text until checked. */
  datatype SignupRequest = SignupRequest(
    fName: string, lName: string, email: string, phone: string,
    pass: string, cnic: string, uName: string, role: string)

  /** `['Buyer', 'Seller'].includes(role)`, returning the role it names. */
  function ParseRole(role: string): (r: Option<Role>)
    ensures r.None? <==> role != "Buyer" && role != "Seller"
    ensures r == Some(Buyer) <==> role == "Buyer"
    ensures r == Some(Seller) <==> role == "Seller"
  {
    if role == "Buyer" then Some(Buyer)
    else if role == "Seller" then Some(Seller)
    else None
  }

  /** POST /signup: insert the customer under the next serial id and, in the
      same transaction, an account for it with balance 0. */
  method Signup(db: Ledger, req: SignupRequest, random: real) returns (resp: Response)
    requires db.Valid()
    requires 0.0 <= random < 1.0
    modifies db
    ensures db.Valid()
    ensures ParseRole(req.role).None? ==>
      resp == Response(400, "Invalid role. Must be Buyer or Seller.") && unchanged(db)
    ensures ParseRole(req.role).Some? ==>
      var id := old(db.nextCustId);
      && resp == Response(201, "Signup successful")
      && id !in old(db.customers) && id !in old(db.accounts)
      && db.customers == old(db.customers)[id := Customer(req.fName, req.lName, req.email, req.phone,
                                                          req.pass, req.cnic, req.uName, ParseRole(req.role).value)]
      && db.accounts == old(db.accounts)[id := Account(AccountNumber(random), 0.0)]
      && MinAccountNumber <= db.accounts[id].accNo <= MaxAccountNumber
      && db.nextCustId == id + 1
      && unchanged(db`products, db`inventory, db`orders, db`orderDetails, db`transactions,
                   db`nextProductId, db`nextInventoryId, db`nextOrderId)
  {
    var role := ParseRole(req.role);
    if role.None? {
      return Response(400, "Invalid role. Must be Buyer or Seller.");
    }
    var id := db.nextCustId;
    db.customers := db.customers[id := Customer(req.fName, req.lName, req.email, req.phone,
                                                req.pass, req.cnic, req.uName, role.value)];
    db.nextCustId := id + 1;
    var accountNumber := AccountNumber(random);
    db.accounts := db.accounts[id := Account(accountNumber, 0.0)];
    resp := Response(201, "Signup successful");
  }

  /** POST /create-account: open a zero-balance account for a customer that
      has none. The INSERT of an account for an id that is not a customer
      violates the foreign key and ends in the route's catch block. */
  method CreateAccount(db: Ledger, custId: Field<int>, random: real) returns (resp: Response)
    requires db.Valid()
    requires 0.0 <= random < 1.0
    modifies db
    ensures db.Valid()
    ensures !IsId(custId) ==> resp == Response(400, "Invalid or missing Customer ID") && unchanged(db)
    ensures IsId(custId) && custId.value in old(db.accounts) ==>
      resp == Response(400, "Account already exists") && unchanged(db)
    ensures IsId(custId) && custId.value !in old(db.accounts) && custId.value !in old(db.customers) ==>
      resp == Response(500, "Server error") && unchanged(db)
    ensures IsId(custId) && custId.value !in old(db.accounts) && custId.value in old(db.customers) ==>
      && resp == Response(201, "Account created successfully")
      && db.accounts == old(db.accounts)[custId.value := Account(AccountNumber(random), 0.0)]
      && MinAccountNumber <= db.accounts[custId.value].accNo <= MaxAccountNumber
      && unchanged(db`customers, db`products, db`inventory, db`orders, db`orderDetails, db`transactions,
                   db`nextCustId, db`nextProductId, db`nextInventoryId, db`nextOrderId)
  {
    if !IsId(custId) {
      return Response(400, "Invalid or missing Customer ID");
    }
    var c := custId.value;
    if c in db.accounts {
      return Response(400, "Account already exists");
    }
    var accountNumber := AccountNumber(random);
    if c !in db.customers {
      return Response(500, "Server error");
    }
    db.accounts := db.accounts[c := Account(accountNumber, 0.0)];
    resp := Response(201, "Account created successfully");
  }

  // ---------------------------------------------------------------------
  // Transfer: the route's own checks and its mapping of database errors.
  // The debit and credit happen in the database function transfer_funds.
  // ---------------------------------------------------------------------

  /** The route's three input guards, in order; `None` lets the request through. */
  function TransferInputCheck(custId: Field<int>, receiverAccount: Field<int>, amount: Field<real>): (r: Option<Response>)
    ensures r.None? <==> IsId(custId) && IsId(receiverAccount) && IsPositiveAmount(amount)
    ensures r.Some? ==> r.value.status == 400
    ensures !IsId(custId) ==> r == Some(Response(400, "Invalid customer ID"))
    ensures IsId(custId) && !IsId(receiverAccount) ==> r == Some(Response(400, "Invalid receiver account"))
    ensures IsId(custId) && IsId(receiverAccount) && !IsPositiveAmount(amount) ==>
      r == Some(Response(400, "Invalid transfer amount"))
  {
    if !IsId(custId) then Some(Response(400, "Invalid customer ID"))
    else if !IsId(receiverAccount) then Some(Response(400, "Invalid receiver account"))
    else if !IsPositiveAmount(amount) then Some(Response(400, "Invalid transfer amount"))
    else None
  }

  /** The phrases the catch block looks for in the database's error message,
      in the order it tries them, each with the text it answers with. */
  const TransferErrorTable: seq<(string, string)> := [
    ("Insufficient balance", "Insufficient balance"),
    ("Receiver account not found", "Receiver account not found"),
    ("Sender account not found", "Sender account not found"),
    ("Transfer amount must be positive", "Invalid transfer amount"),
    ("Invalid input parameters", "Invalid input parameters")
  ]

  /** The catch block: a known phrase anywhere in the message gives 400 with the
      text of the first phrase that matches; any other error gives 500. */
  function TransferFailureResponse(dbMessage: string): (r: Response)
    ensures r.status == 400 <==>
      exists k :: 0 <= k < |TransferErrorTable| && Js.Includes(dbMessage, TransferErrorTable[k].0)
    ensures r.status != 400 ==> r == Response(500, "Transfer failed")
    ensures r.status == 400 ==>
      exists k :: 0 <= k < |TransferErrorTable|
        && Js.Includes(dbMessage, TransferErrorTable[k].0)
        && r.message == TransferErrorTable[k].1
        && forall j :: 0 <= j < k ==> !Js.Includes(dbMessage, TransferErrorTable[j].0)
  {
    assert TransferErrorTable[0] == ("Insufficient balance", "Insufficient balance");
    assert TransferErrorTable[1] == ("Receiver account not found", "Receiver account not found");
    assert TransferErrorTable[2] == ("Sender account not found", "Sender account not found");
    assert TransferErrorTable[3] == ("Transfer amount must be positive", "Invalid transfer amount");
    assert TransferErrorTable[4] == ("Invalid input parameters", "Invalid input parameters");
    if Js.Includes(dbMessage, "Insufficient balance") then Response(400, "Insufficient balance")
    else if Js.Includes(dbMessage, "Receiver account not found") then Response(400, "Receiver account not found")
    else if Js.Includes(dbMessage, "Sender account not found") then Response(400, "Sender account not found")
    else if Js.Includes(dbMessage, "Transfer amount must be positive") then Response(400, "Invalid transfer amount")
    else if Js.Includes(dbMessage, "Invalid input parameters") then Response(400, "Invalid input parameters")
    else Response(500, "Transfer failed")
  }

  /** POST /transfer, with what `transfer_funds` did passed in: `None` when it
      returned, `Some(message)` when it raised an error with that message. */
  function Transfer(custId: Field<int>, receiverAccount: Field<int>, amount: Field<real>,
                    dbError: Option<string>): (r: Response)
    ensures r.status == 200 <==> TransferInputCheck(custId, receiverAccount, amount).None? && dbError.None?
    ensures r.status == 200 ==> r.message == "Transfer successful"
    ensures TransferInputCheck(custId, receiverAccount, amount).Some? ==>
      r == TransferInputCheck(custId, receiverAccount, amount).value
    ensures TransferInputCheck(custId, receiverAccount, amount).None? && dbError.Some? ==>
      r == TransferFailureResponse(dbError.value)
  {
    match TransferInputCheck(custId, receiverAccount, amount)
    case Some(rejection) => rejection
    case None =>
      match dbError
      case None => Response(200, "Transfer successful")
      case Some(message) => TransferFailureResponse(message)
  }

  /** Invalid input is answered before the database is reached: whatever
      `transfer_funds` would have done makes no difference to the response. */
  lemma TransferRejectsBeforeDatabase(custId: Field<int>, receiverAccount: Field<int>, amount: Field<real>,
                                      e1: Option<string>, e2: Option<string>)
    requires !(IsId(custId) && IsId(receiverAccount) && IsPositiveAmount(amount))
    ensures Transfer(custId, receiverAccount, amount, e1) == Transfer(custId, receiverAccount, amount, e2)
    ensures Transfer(custId, receiverAccount, amount, e1).status == 400
  {
  }

  // ---------------------------------------------------------------------
  // Inventory stocking
  // ---------------------------------------------------------------------

  /** The route's four input guards, in order; `None` lets the request through.
      A product name is required unless it is absent or trims to nothing. */
  function StockInputCheck(custId: Field<int>, productName: Option<string>, quantity: Field<int>, price: Field<real>)
    : (r: Option<Response>)
    ensures r.None? <==>
      IsId(custId) && productName.Some? && !Js.IsBlank(productName.value) && IsPositiveInt(quantity) && IsPositiveAmount(price)
    ensures !IsId(custId) ==> r == Some(Response(400, "Invalid customer ID"))
    ensures IsId(custId) && (productName.None? || Js.IsBlank(productName.value)) ==>
      r == Some(Response(400, "Product name is required"))
    ensures IsId(custId) && productName.Some? && !Js.IsBlank(productName.value) && !IsPositiveInt(quantity) ==>
      r == Some(Response(400, "Invalid quantity"))
    ensures (IsId(custId) && productName.Some? && !Js.IsBlank(productName.value) && IsPositiveInt(quantity)
             && !IsPositiveAmount(price)) ==> r == Some(Response(400, "Invalid price"))
  {
    if !IsId(custId) then Some(Response(400, "Invalid customer ID"))
    else if productName.None? || (Js.TrimIsEmptyIffBlank(productName.value); Js.Trim(productName.value) == "") then
      Some(Response(400, "Product name is required"))
    else if !IsPositiveInt(quantity) then Some(Response(400, "Invalid quantity"))
    else if !IsPositiveAmount(price) then Some(Response(400, "Invalid price"))
    else None
  }

  /** `SELECT count(*) ... WHERE supplier_id = s AND product_id = p` is non-zero. */
  predicate HasRow(inventory: map<int, Item>, s: int, p: int) {
    exists id :: id in inventory && Stocks(inventory[id], s, p)
  }

  /** `UPDATE Inventory SET quantity = q, price = price WHERE supplier_id = s AND product_id = p`. */
  function Restock(inventory: map<int, Item>, s: int, p: int, q: int, price: real): map<int, Item> {
    map id | id in inventory :: if Stocks(inventory[id], s, p) then Item(s, p, q, price) else inventory[id]
  }

  /** The count-then-update-or-insert of the route: overwrite the rows for
      (s, p) if there are any, otherwise insert one under `newId`. */
  function Upsert(inventory: map<int, Item>, newId: int, s: int, p: int, q: int, price: real): map<int, Item> {
    if HasRow(inventory, s, p) then Restock(inventory, s, p, q, price)
    else inventory[newId := Item(s, p, q, price)]
  }

  /** Stocking keeps one row per seller and product: afterwards exactly one row
      holds (s, p), with the new quantity and price, no other row changed, and
      a row was added only when there was none for the pair. */
  lemma UpsertKeepsOneRowPerPair(inventory: map<int, Item>, newId: int, s: int, p: int, q: int, price: real)
    requires UniquePairs(inventory) && newId !in inventory
    ensures UniquePairs(Upsert(inventory, newId, s, p, q, price))
    ensures var r := Upsert(inventory, newId, s, p, q, price);
      && (exists id :: id in r && r[id] == Item(s, p, q, price))
      && (forall id :: id in r && Stocks(r[id], s, p) ==> r[id] == Item(s, p, q, price))
      && (forall id :: id in inventory && !Stocks(inventory[id], s, p) ==> id in r && r[id] == inventory[id])
      && (HasRow(inventory, s, p) ==> r.Keys == inventory.Keys)
      && (!HasRow(inventory, s, p) ==> r.Keys == inventory.Keys + {newId})
  {
    var r := Upsert(inventory, newId, s, p, q, price);
    if HasRow(inventory, s, p) {
      var id :| id in inventory && Stocks(inventory[id], s, p);
      assert r[id] == Item(s, p, q, price);
      forall i, j | i in r && j in r && i != j ensures !Stocks(r[i], r[j].supplierId, r[j].productId) {
        assert !Stocks(inventory[i], inventory[j].supplierId, inventory[j].productId);
      }
    } else {
      assert r[newId] == Item(s, p, q, price);
      forall i, j | i in r && j in r && i != j ensures !Stocks(r[i], r[j].supplierId, r[j].productId) {
        if i != newId && j != newId {
          assert !Stocks(inventory[i], inventory[j].supplierId, inventory[j].productId);
        }
      }
    }
  }

  /** Stocking is an overwrite, not an addition: stocking a pair a second time
      leaves the table as if only the second stocking had happened. */
  lemma LastStockingWins(inventory: map<int, Item>, id1: int, id2: int, s: int, p: int,
                         q1: int, price1: real, q2: int, price2: real)
    requires id1 !in inventory
    ensures Upsert(Upsert(inventory, id1, s, p, q1, price1), id2, s, p, q2, price2)
         == Upsert(inventory, id1, s, p, q2, price2)
  {
    var once := Upsert(inventory, id1, s, p, q1, price1);
    if HasRow(inventory, s, p) {
      var id :| id in inventory && Stocks(inventory[id], s, p);
      assert id in once && Stocks(once[id], s, p);
      assert Restock(once, s, p, q2, price2) == Restock(inventory, s, p, q2, price2);
    } else {
      assert id1 in once && Stocks(once[id1], s, p);
      assert forall id :: id in inventory ==> !Stocks(inventory[id], s, p);
      assert Restock(once, s, p, q2, price2) == inventory[id1 := Item(s, p, q2, price2)];
    }
  }

  /** POST /inventory/add. The product is looked up by name; the query has no
      ORDER BY, so when several products share the name any one of them may be
      the one taken. */
  method AddToInventory(db: Ledger, custId: Field<int>, productName: Option<string>,
                        quantity: Field<int>, price: Field<real>) returns (resp: Response)
    requires db.Valid()
    modifies db
    ensures db.Valid()
    ensures StockInputCheck(custId, productName, quantity, price).Some? ==>
      resp == StockInputCheck(custId, productName, quantity, price).value && unchanged(db)
    ensures StockInputCheck(custId, productName, quantity, price).None? ==>
      var c, name, q, pr := custId.value, productName.value, quantity.value, price.value;
      && (c !in old(db.customers) ==> resp == Response(404, "Customer not found") && unchanged(db))
      && (c in old(db.customers) && old(db.customers)[c].role != Seller ==>
            resp == Response(403, "Only sellers can add products to inventory") && unchanged(db))
      && (c in old(db.customers) && old(db.customers)[c].role == Seller
          && (forall pid :: pid in old(db.products) ==> old(db.products)[pid].name != name) ==>
            resp == Response(404, "Product not found in products list") && unchanged(db))
      && (c in old(db.customers) && old(db.customers)[c].role == Seller
          && (exists pid :: pid in old(db.products) && old(db.products)[pid].name == name) ==>
            exists pid :: pid in old(db.products) && old(db.products)[pid].name == name
              && db.inventory == Upsert(old(db.inventory), old(db.nextInventoryId), c, pid, q, pr)
              && (HasRow(old(db.inventory), c, pid) ==>
                    resp == Response(201, "Product updated to inventory") && db.nextInventoryId == old(db.nextInventoryId))
              && (!HasRow(old(db.inventory), c, pid) ==>
                    resp == Response(201, "Product added to inventory") && db.nextInventoryId == old(db.nextInventoryId) + 1))
      && unchanged(db`customers, db`accounts, db`products, db`orders, db`orderDetails, db`transactions,
                   db`nextCustId, db`nextProductId, db`nextOrderId)
  {
    var rejection := StockInputCheck(custId, productName, quantity, price);
    if rejection.Some? {
      return rejection.value;
    }
    var c, name, q, pr := custId.value, productName.value, quantity.value, price.value;
    if c !in db.customers {
      return Response(404, "Customer not found");
    }
    if db.customers[c].role != Seller {
      return Response(403, "Only sellers can add products to inventory");
    }
    if !exists pid :: pid in db.products && db.products[pid].name == name {
      return Response(404, "Product not found in products list");
    }
    var pid :| pid in db.products && db.products[pid].name == name;
    var newId := db.nextInventoryId;
    UpsertKeepsOneRowPerPair(db.inventory, newId, c, pid, q, pr);
    if HasRow(db.inventory, c, pid) {
      db.inventory := Restock(db.inventory, c, pid, q, pr);
      resp := Response(201, "Product updated to inventory");
    } else {
      db.inventory := db.inventory[newId := Item(c, pid, q, pr)];
      db.nextInventoryId := newId + 1;
      resp := Response(201, "Product added to inventory");
    }
  }

  // ---------------------------------------------------------------------
  // Purchase
  // ---------------------------------------------------------------------

  /** Why a purchase is refused: the three input guards, then the five
      conditions checked inside the database transaction. */
  datatype PurchaseFailure =
    | InvalidBuyerId | InvalidInventoryId | InvalidQuantity
    | BuyerAccountNotFound | InventoryItemNotFound | NotEnoughQuantity
    | InsufficientFunds | SupplierAccountNotFound

  /** The position of each check in the order the route performs them. */
  function Rank(e: PurchaseFailure): nat {
    match e
    case InvalidBuyerId => 0
    case InvalidInventoryId => 1
    case InvalidQuantity => 2
    case BuyerAccountNotFound => 3
    case InventoryItemNotFound => 4
    case NotEnoughQuantity => 5
    case InsufficientFunds => 6
    case SupplierAccountNotFound => 7
  }

  /** The route's text for each refusal. */
  function FailureMessage(e: PurchaseFailure): string {
    match e
    case InvalidBuyerId => "Invalid buyer ID"
    case InvalidInventoryId => "Invalid inventory ID"
    case InvalidQuantity => "Invalid quantity"
    case BuyerAccountNotFound => "Buyer account not found"
    case InventoryItemNotFound => "Inventory item not found"
    case NotEnoughQuantity => "Not enough quantity available"
    case InsufficientFunds => "Insufficient funds"
    case SupplierAccountNotFound => "Supplier account not found"
  }

  /** Unit price times quantity. */
  function Total(item: Item, quantity: int): real {
    item.price * quantity as real
  }

  /** Check `e` is satisfied, read on its own: each check that needs a value
      looked up by an earlier check holds trivially when that value is missing. */
  predicate Passes(accounts: map<int, Account>, inventory: map<int, Item>,
                   buyer: Field<int>, inventoryId: Field<int>, quantity: Field<int>, e: PurchaseFailure)
  {
    match e
    case InvalidBuyerId => IsId(buyer)
    case InvalidInventoryId => IsId(inventoryId)
    case InvalidQuantity => IsPositiveInt(quantity)
    case BuyerAccountNotFound => Present(buyer) ==> buyer.value in accounts
    case InventoryItemNotFound => Present(inventoryId) ==> inventoryId.value in inventory
    case NotEnoughQuantity =>
      (Present(quantity) && Present(inventoryId) && inventoryId.value in inventory) ==>
        quantity.value <= inventory[inventoryId.value].quantity
    case InsufficientFunds =>
      (Present(quantity) && Present(buyer) && buyer.value in accounts
       && Present(inventoryId) && inventoryId.value in inventory) ==>
        accounts[buyer.value].balance >= Total(inventory[inventoryId.value], quantity.value)
    case SupplierAccountNotFound =>
      (Present(inventoryId) && inventoryId.value in inventory) ==> inventory[inventoryId.value].supplierId in accounts
  }

  /** Each check passing, read on its own, is the same as all of them passing together. */
  lemma PassesEveryCheck(accounts: map<int, Account>, inventory: map<int, Item>,
                         buyer: Field<int>, inventoryId: Field<int>, quantity: Field<int>)
    ensures CanPurchase(accounts, inventory, buyer, inventoryId, quantity)
        <==> forall e :: Passes(accounts, inventory, buyer, inventoryId, quantity, e)
  {
    if forall e :: Passes(accounts, inventory, buyer, inventoryId, quantity, e) {
      assert Passes(accounts, inventory, buyer, inventoryId, quantity, InvalidBuyerId);
      assert Passes(accounts, inventory, buyer, inventoryId, quantity, InvalidInventoryId);
      assert Passes(accounts, inventory, buyer, inventoryId, quantity, InvalidQuantity);
      assert Passes(accounts, inventory, buyer, inventoryId, quantity, BuyerAccountNotFound);
      assert Passes(accounts, inventory, buyer, inventoryId, quantity, InventoryItemNotFound);
      assert Passes(accounts, inventory, buyer, inventoryId, quantity, NotEnoughQuantity);
      assert Passes(accounts, inventory, buyer, inventoryId, quantity, InsufficientFunds);
      assert Passes(accounts, inventory, buyer, inventoryId, quantity, SupplierAccountNotFound);
    }
    if CanPurchase(accounts, inventory, buyer, inventoryId, quantity) {
      forall e ensures Passes(accounts, inventory, buyer, inventoryId, quantity, e) {
        match e
        case InvalidBuyerId =>
        case InvalidInventoryId =>
        case InvalidQuantity =>
        case BuyerAccountNotFound =>
        case InventoryItemNotFound =>
        case NotEnoughQuantity =>
        case InsufficientFunds =>
        case SupplierAccountNotFound =>
      }
    }
  }

  /** What the tables must offer for buyer `b` to take `q` of row `i`: both
      accounts, the row, enough stock and enough money. */
  predicate Purchasable(accounts: map<int, Account>, inventory: map<int, Item>, b: int, i: int, q: int) {
    && b in accounts
    && i in inventory
    && q <= inventory[i].quantity
    && accounts[b].balance >= Total(inventory[i], q)
    && inventory[i].supplierId in accounts
  }

  /** Everything a successful purchase needs, stated directly. */
  predicate CanPurchase(accounts: map<int, Account>, inventory: map<int, Item>,
                        buyer: Field<int>, inventoryId: Field<int>, quantity: Field<int>)
  {
    && IsId(buyer) && IsId(inventoryId) && IsPositiveInt(quantity)
    && Purchasable(accounts, inventory, buyer.value, inventoryId.value, quantity.value)
  }

  /** The route's checks in the route's order. The purchase goes ahead exactly
      when all of them hold; otherwise the refusal is the first check, in
      `Rank` order, that fails. */
  function PurchaseCheck(accounts: map<int, Account>, inventory: map<int, Item>,
                         buyer: Field<int>, inventoryId: Field<int>, quantity: Field<int>)
    : (r: Option<PurchaseFailure>)
    ensures r.None? <==> CanPurchase(accounts, inventory, buyer, inventoryId, quantity)
    ensures r.None? <==> forall e :: Passes(accounts, inventory, buyer, inventoryId, quantity, e)
    ensures r.Some? ==>
      && !Passes(accounts, inventory, buyer, inventoryId, quantity, r.value)
      && forall e :: Rank(e) < Rank(r.value) ==> Passes(accounts, inventory, buyer, inventoryId, quantity, e)
  {
    PassesEveryCheck(accounts, inventory, buyer, inventoryId, quantity);
    if !IsId(buyer) then Some(InvalidBuyerId)
    else if !IsId(inventoryId) then Some(InvalidInventoryId)
    else if !IsPositiveInt(quantity) then Some(InvalidQuantity)
    else if buyer.value !in accounts then Some(BuyerAccountNotFound)
    else if inventoryId.value !in inventory then Some(InventoryItemNotFound)
    else if quantity.value > inventory[inventoryId.value].quantity then Some(NotEnoughQuantity)
    else if accounts[buyer.value].balance < Total(inventory[inventoryId.value], quantity.value) then Some(InsufficientFunds)
    else if inventory[inventoryId.value].supplierId !in accounts then Some(SupplierAccountNotFound)
    else None
  }

  /** The HTTP answer: 200 on success, 400 for the input guards, and 500 with
      the error's own message for anything thrown inside the transaction. */
  function PurchaseResponse(r: Option<PurchaseFailure>): (resp: Response)
    ensures resp.status == 200 <==> r.None?
    ensures resp.status == 400 <==> r.Some? && Rank(r.value) < 3
    ensures resp.status == 500 <==> r.Some? && Rank(r.value) >= 3
    ensures r.Some? ==> resp.message == FailureMessage(r.value)
    ensures r.None? ==> resp.message == "Purchase successful"
  {
    match r
    case None => Response(200, "Purchase successful")
    case Some(e) =>
      if e == InvalidBuyerId || e == InvalidInventoryId || e == InvalidQuantity
      then Response(400, FailureMessage(e))
      else Response(500, FailureMessage(e))
  }

  /** The two balance updates of a purchase move exactly `total` from the buyer
      to the supplier: the buyer loses it, the supplier gains it, their sum and
      the money in the system are unchanged, and no other account moves. When
      buyer and supplier are the same customer the two updates cancel. */
  lemma PurchaseSettlement(accounts: map<int, Account>, b: int, s: int, total: real)
    requires b in accounts && s in accounts
    ensures var r := Adjust(Adjust(accounts, b, -total), s, total);
      && r.Keys == accounts.Keys
      && (b != s ==> r[b].balance == accounts[b].balance - total && r[s].balance == accounts[s].balance + total)
      && (b == s ==> r[b] == accounts[b])
      && r[b].balance + r[s].balance == accounts[b].balance + accounts[s].balance
      && (forall c :: c in accounts && c != b && c != s ==> r[c] == accounts[c])
      && TotalBalance(r) == TotalBalance(accounts)
  {
    var debited := Adjust(accounts, b, -total);
    AdjustTotal(accounts, b, -total);
    AdjustTotal(debited, s, total);
  }

  /** Lowering one row's quantity keeps one row per seller and product. */
  lemma WithdrawKeepsUniquePairs(inventory: map<int, Item>, i: int, quantity: int)
    requires UniquePairs(inventory) && i in inventory
    ensures UniquePairs(inventory[i := inventory[i].(quantity := quantity)])
  {
    var r := inventory[i := inventory[i].(quantity := quantity)];
    forall a, b | a in r && b in r && a != b ensures !Stocks(r[a], r[b].supplierId, r[b].productId) {
      assert !Stocks(inventory[a], inventory[b].supplierId, inventory[b].productId);
    }
  }

  /** The tables after buyer `b` has taken `q` of row `i`, in the route's
      order: debit the buyer, credit the supplier, lower the stock, then
      append the Order, the OrderDetail and the Transaction. The
      transaction names both account numbers as they were before. */
  function AfterPurchase(t: SalesTables, b: int, i: int, q: int, now: int): (r: SalesTables)
    requires Purchasable(t.accounts, t.inventory, b, i, q)
    ensures r.inventory.Keys == t.inventory.Keys && r.accounts.Keys == t.accounts.Keys
    ensures r.inventory[i].quantity == t.inventory[i].quantity - q
    ensures |r.orders| == |t.orders| + 1
    ensures |r.orderDetails| == |t.orderDetails| + 1
    ensures |r.transactions| == |t.transactions| + 1
  {
    var item := t.inventory[i];
    var s := item.supplierId;
    var total := Total(item, q);
    SalesTables(
      Adjust(Adjust(t.accounts, b, -total), s, total),
      t.inventory[i := item.(quantity := item.quantity - q)],
      t.orders + [Order(t.nextOrderId, b, total, now)],
      t.orderDetails + [OrderDetail(t.nextOrderId, b, s, i, q, item.price)],
      t.transactions + [Transaction(t.accounts[b].accNo, total, now, t.accounts[s].accNo, b, s)],
      t.nextOrderId + 1)
  }

  /** The writes of a purchase keep the tables consistent: no balance goes
      negative (the buyer could pay the total) and no stock goes negative
      (the buyer took no more than there was). The money in the system is
      the same before and after. */
  lemma CommitKeepsConsistent(customers: map<int, Customer>, products: map<int, Product>, t: SalesTables,
                              nc: int, np: int, ni: int, b: int, i: int, q: int, now: int)
    requires Consistent(customers, t.accounts, products, t.inventory, nc, np, ni)
    requires Purchasable(t.accounts, t.inventory, b, i, q) && 0 < q
    requires forall k :: 0 <= k < |t.orders| ==> t.orders[k].orderId < t.nextOrderId
    ensures var r := AfterPurchase(t, b, i, q, now);
      && Consistent(customers, r.accounts, products, r.inventory, nc, np, ni)
      && TotalBalance(r.accounts) == TotalBalance(t.accounts)
      && (forall k :: 0 <= k < |r.orders| ==> r.orders[k].orderId < r.nextOrderId)
  {
    var item := t.inventory[i];
    var total := Total(item, q);
    assert total >= 0.0;
    PurchaseSettlement(t.accounts, b, item.supplierId, total);
    WithdrawKeepsUniquePairs(t.inventory, i, item.quantity - q);
  }

  /** The writes of a purchase whose checks have all passed. */
  method CommitPurchase(db: Ledger, b: int, i: int, q: int, now: int)
    requires db.Valid()
    requires Purchasable(db.accounts, db.inventory, b, i, q) && 0 < q
    modifies db
    ensures db.Valid()
    ensures db.Sales() == AfterPurchase(old(db.Sales()), b, i, q, now)
    ensures 0 <= db.inventory[i].quantity
    ensures TotalBalance(db.accounts) == TotalBalance(old(db.accounts))
    ensures unchanged(db`customers, db`products, db`nextCustId, db`nextProductId, db`nextInventoryId)
  {
    ghost var after := AfterPurchase(db.Sales(), b, i, q, now);
    CommitKeepsConsistent(db.customers, db.products, db.Sales(),
                          db.nextCustId, db.nextProductId, db.nextInventoryId, b, i, q, now);
    var item := db.inventory[i];
    var s := item.supplierId;
    var buyerAccNo, supplierAccNo := db.accounts[b].accNo, db.accounts[s].accNo;
    var total := Total(item, q);

    // The statements of the transaction, one per query, on local copies of the tables.
    var accounts := Adjust(db.accounts, b, -total);
    accounts := Adjust(accounts, s, total);
    var inventory := db.inventory[i := item.(quantity := item.quantity - q)];
    var orderId := db.nextOrderId;
    var orders := db.orders + [Order(orderId, b, total, now)];
    var details := db.orderDetails + [OrderDetail(orderId, b, s, i, q, item.price)];
    var transactions := db.transactions + [Transaction(buyerAccNo, total, now, supplierAccNo, b, s)];
    assert SalesTables(accounts, inventory, orders, details, transactions, orderId + 1) == after;

    // COMMIT: the new tables become visible together.
    db.accounts, db.inventory, db.nextOrderId := accounts, inventory, orderId + 1;
    db.orders, db.orderDetails, db.transactions := orders, details, transactions;
  }

  /** POST /purchase. All five database checks precede the first write, so a
      refused purchase leaves every table as it was (the route's ROLLBACK). */
  method Purchase(db: Ledger, buyer: Field<int>, inventoryId: Field<int>, quantity: Field<int>, now: int)
    returns (outcome: Option<PurchaseFailure>, resp: Response)
    requires db.Valid()
    modifies db
    ensures db.Valid()
    ensures outcome == PurchaseCheck(old(db.accounts), old(db.inventory), buyer, inventoryId, quantity)
    ensures resp == PurchaseResponse(outcome)
    ensures outcome.Some? ==> unchanged(db)
    ensures outcome.None? ==>
      && db.Sales() == AfterPurchase(old(db.Sales()), buyer.value, inventoryId.value, quantity.value, now)
      && 0 <= db.inventory[inventoryId.value].quantity
      && TotalBalance(db.accounts) == TotalBalance(old(db.accounts))
      && unchanged(db`customers, db`products, db`nextCustId, db`nextProductId, db`nextInventoryId)
  {
    outcome := None;
    if !IsId(buyer) {
      outcome := Some(InvalidBuyerId);
    } else if !IsId(inventoryId) {
      outcome := Some(InvalidInventoryId);
    } else if !IsPositiveInt(quantity) {
      outcome := Some(InvalidQuantity);
    }
    if outcome.Some? {
      resp := PurchaseResponse(outcome);
      return;
    }
    var b, i, q := buyer.value, inventoryId.value, quantity.value;

    // BEGIN; each failed check below throws, and the catch block rolls back.
    if b !in db.accounts {
      outcome := Some(BuyerAccountNotFound);
    } else if i !in db.inventory {
      outcome := Some(InventoryItemNotFound);
    } else if q > db.inventory[i].quantity {
      outcome := Some(NotEnoughQuantity);
    } else if db.accounts[b].balance < Total(db.inventory[i], q) {
      outcome := Some(InsufficientFunds);
    } else if db.inventory[i].supplierId !in db.accounts {
      outcome := Some(SupplierAccountNotFound);
    }
    if outcome.Some? {
      resp := PurchaseResponse(outcome);
      return;
    }
    CommitPurchase(db, b, i, q, now);
    // COMMIT
    resp := PurchaseResponse(None);
  }
}
