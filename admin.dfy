/** The admin routes that change data: crediting an account and adding a
    product to the catalogue. */
module AdminRoutes {
  import opened Web
  import opened Store
  import Js

  /** The two input guards of POST /add-money, in order; `None` lets the request through. */
  function MoneyInputCheck(custId: Field<int>, amount: Field<real>): (r: Option<Response>)
    ensures r.None? <==> IsId(custId) && IsPositiveAmount(amount)
    ensures !IsId(custId) ==> r == Some(Response(400, "Invalid customer ID"))
    ensures IsId(custId) && !IsPositiveAmount(amount) ==> r == Some(Response(400, "Invalid amount"))
  {
    if !IsId(custId) then Some(Response(400, "Invalid customer ID"))
    else if !IsPositiveAmount(amount) then Some(Response(400, "Invalid amount"))
    else None
  }

  /** A credit raises exactly one balance by exactly `amount`: every other
      account is untouched and the money in the system grows by `amount`. */
  lemma CreditIsExact(accounts: map<int, Account>, custId: int, amount: real)
    requires custId in accounts
    ensures var r := Adjust(accounts, custId, amount);
      && r.Keys == accounts.Keys
      && r[custId] == Account(accounts[custId].accNo, accounts[custId].balance + amount)
      && (forall c :: c in accounts && c != custId ==> r[c] == accounts[c])
      && TotalBalance(r) == TotalBalance(accounts) + amount
  {
    AdjustTotal(accounts, custId, amount);
  }

  /** POST /add-money: credit the account of `custId` with `amount`. */
  method AddMoney(db: Ledger, custId: Field<int>, amount: Field<real>) returns (resp: Response)
    requires db.Valid()
    modifies db
    ensures db.Valid()
    ensures MoneyInputCheck(custId, amount).Some? ==>
      resp == MoneyInputCheck(custId, amount).value && unchanged(db)
    ensures MoneyInputCheck(custId, amount).None? && custId.value !in old(db.accounts) ==>
      resp == Response(404, "Account not found") && unchanged(db)
    ensures MoneyInputCheck(custId, amount).None? && custId.value in old(db.accounts) ==>
      && resp == Response(200, "Money added successfully")
      && db.accounts == Adjust(old(db.accounts), custId.value, amount.value)
      && db.accounts[custId.value].balance == old(db.accounts)[custId.value].balance + amount.value
      && TotalBalance(db.accounts) == TotalBalance(old(db.accounts)) + amount.value
    ensures unchanged(db`customers, db`products, db`inventory, db`orders, db`orderDetails, db`transactions,
                      db`nextCustId, db`nextProductId, db`nextInventoryId, db`nextOrderId)
  {
    var rejection := MoneyInputCheck(custId, amount);
    if rejection.Some? {
      return rejection.value;
    }
    var c := custId.value;
    if c !in db.accounts {
      return Response(404, "Account not found");
    }
    CreditIsExact(db.accounts, c, amount.value);
    db.accounts := Adjust(db.accounts, c, amount.value);
    resp := Response(200, "Money added successfully");
  }

  /** The two input guards of POST /add-product, in order: a name that is
      absent or trims to nothing, then a base price that is absent, not a
      number or not positive. */
  function ProductInputCheck(productName: Option<string>, basePrice: Field<real>): (r: Option<Response>)
    ensures r.None? <==> productName.Some? && !Js.IsBlank(productName.value) && IsPositiveAmount(basePrice)
    ensures (productName.None? || Js.IsBlank(productName.value)) ==>
      r == Some(Response(400, "Product name is required"))
    ensures productName.Some? && !Js.IsBlank(productName.value) && !IsPositiveAmount(basePrice) ==>
      r == Some(Response(400, "Invalid base price"))
  {
    if productName.None? || (Js.TrimIsEmptyIffBlank(productName.value); Js.Trim(productName.value) == "") then
      Some(Response(400, "Product name is required"))
    else if !IsPositiveAmount(basePrice) then Some(Response(400, "Invalid base price"))
    else None
  }

  /** `description || null`: an absent or empty description is stored as NULL. */
  function StoredDescription(description: Option<string>): (r: Option<string>)
    ensures r.Some? <==> description.Some? && description.value != ""
    ensures r.Some? ==> r == description
  {
    if description.Some? && description.value != "" then description else None
  }

  /** POST /add-product: insert a catalogue row under the next serial id. */
  method AddProduct(db: Ledger, productName: Option<string>, description: Option<string>, basePrice: Field<real>)
    returns (resp: Response)
    requires db.Valid()
    modifies db
    ensures db.Valid()
    ensures ProductInputCheck(productName, basePrice).Some? ==>
      resp == ProductInputCheck(productName, basePrice).value && unchanged(db)
    ensures ProductInputCheck(productName, basePrice).None? ==>
      var id := old(db.nextProductId);
      && resp == Response(201, "Product added successfully")
      && id !in old(db.products)
      && db.products == old(db.products)[id := Product(productName.value, StoredDescription(description), basePrice.value)]
      && db.nextProductId == id + 1
    ensures unchanged(db`customers, db`accounts, db`inventory, db`orders, db`orderDetails, db`transactions,
                      db`nextCustId, db`nextInventoryId, db`nextOrderId)
  {
    var rejection := ProductInputCheck(productName, basePrice);
    if rejection.Some? {
      return rejection.value;
    }
    var id := db.nextProductId;
    db.products := db.products[id := Product(productName.value, StoredDescription(description), basePrice.value)];
    db.nextProductId := id + 1;
    resp := Response(201, "Product added successfully");
  }
}
