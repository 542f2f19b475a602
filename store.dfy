/** The KisanPay tables (Customers, Accounts, Products, Inventory, Orders,
    OrderDetails, Transactions) and the balance arithmetic the routes apply to them. */
module Store {
  import opened Web

  datatype Role = Buyer | Seller

  datatype Customer = Customer(
    fName: string, lName: string, email: string, phone: string,
    pass: string, cnic: string, uName: string, role: Role)

  /** An Accounts row. The routes modelled here find an account by its
      owner's `cust_id`, so the model keys the table by that id and holds at
      most one account per customer. */
  datatype Account = Account(accNo: int, balance: real)

  datatype Product = Product(name: string, description: Option<string>, basePrice: real)

  /** An Inventory row: one seller's stock of one product. */
  datatype Item = Item(supplierId: int, productId: int, quantity: int, price: real)

  datatype Order = Order(orderId: int, buyerId: int, totalPrice: real, orderDate: int)

  datatype OrderDetail = OrderDetail(
    orderId: int, buyerId: int, supplierId: int, inventoryId: int, quantity: int, price: real)

  /** A Transactions row: money leaving account `accNo` for account `transferTo`. */
  datatype Transaction = Transaction(
    accNo: int, amount: real, dateTime: int, transferTo: int, senderId: int, receiverId: int)

  const MinAccountNumber := 100000000000
  const MaxAccountNumber := 999999999999

  /** `Math.floor(100000000000 + Math.random() * 900000000000)`, with the value of
      `Math.random()` passed in; it always yields a twelve-digit account number. */
  function AccountNumber(random: real): (n: int)
    requires 0.0 <= random < 1.0
    ensures MinAccountNumber <= n <= MaxAccountNumber
  {
    (100000000000.0 + random * 900000000000.0).Floor
  }

  /** `UPDATE Accounts SET balance = balance + delta WHERE cust_id = custId`:
      only that customer's row changes, and only when it exists. */
  function Adjust(accounts: map<int, Account>, custId: int, delta: real): (r: map<int, Account>)
    ensures r.Keys == accounts.Keys
    ensures forall c :: c in accounts && c != custId ==> r[c] == accounts[c]
    ensures custId in accounts ==>
      r[custId].accNo == accounts[custId].accNo && r[custId].balance == accounts[custId].balance + delta
  {
    if custId in accounts then
      accounts[custId := accounts[custId].(balance := accounts[custId].balance + delta)]
    else
      accounts
  }

  /** The sum of the balances of the accounts whose keys are in `keys`. */
  ghost function SumOver(accounts: map<int, Account>, keys: set<int>): real
    requires keys <= accounts.Keys
    decreases keys
  {
    if exists k :: k in keys then
      var k :| k in keys;
      accounts[k].balance + SumOver(accounts, keys - {k})
    else
      0.0
  }

  /** All the money held in accounts. */
  ghost function TotalBalance(accounts: map<int, Account>): real {
    SumOver(accounts, accounts.Keys)
  }

  /** The sum does not depend on the order in which keys are taken. */
  lemma {:induction false} SumOverPick(accounts: map<int, Account>, keys: set<int>, k: int)
    requires keys <= accounts.Keys && k in keys
    ensures SumOver(accounts, keys) == accounts[k].balance + SumOver(accounts, keys - {k})
    decreases keys
  {
    var j :| j in keys && SumOver(accounts, keys) == accounts[j].balance + SumOver(accounts, keys - {j});
    if j != k {
      SumOverPick(accounts, keys - {j}, k);
      SumOverPick(accounts, keys - {k}, j);
      assert keys - {j} - {k} == keys - {k} - {j};
    }
  }

  lemma {:induction false} SumOverAgree(m1: map<int, Account>, m2: map<int, Account>, keys: set<int>)
    requires keys <= m1.Keys && keys <= m2.Keys
    requires forall k :: k in keys ==> m1[k].balance == m2[k].balance
    ensures SumOver(m1, keys) == SumOver(m2, keys)
    decreases keys
  {
    if exists k :: k in keys {
      var k :| k in keys;
      SumOverPick(m1, keys, k);
      SumOverPick(m2, keys, k);
      SumOverAgree(m1, m2, keys - {k});
    }
  }

  /** Adjusting one existing account by `delta` changes the money in the system by exactly `delta`. */
  lemma AdjustTotal(accounts: map<int, Account>, custId: int, delta: real)
    requires custId in accounts
    ensures TotalBalance(Adjust(accounts, custId, delta)) == TotalBalance(accounts) + delta
  {
    var r := Adjust(accounts, custId, delta);
    SumOverPick(accounts, accounts.Keys, custId);
    SumOverPick(r, r.Keys, custId);
    SumOverAgree(accounts, r, accounts.Keys - {custId});
  }

  /** Row `it` is seller `s`'s stock of product `p`. */
  predicate Stocks(it: Item, s: int, p: int) {
    it.supplierId == s && it.productId == p
  }

  /** At most one Inventory row per (supplier_id, product_id). */
  ghost predicate UniquePairs(inventory: map<int, Item>) {
    forall i, j :: i in inventory && j in inventory && i != j ==>
      !Stocks(inventory[i], inventory[j].supplierId, inventory[j].productId)
  }

  /** The schema's foreign keys, the serial keys' freshness, and what the
      routes keep true: no negative balance or stock, positive prices and
      one Inventory row per seller and product. */
  ghost predicate Consistent(customers: map<int, Customer>, accounts: map<int, Account>,
                             products: map<int, Product>, inventory: map<int, Item>,
                             nextCustId: int, nextProductId: int, nextInventoryId: int)
  {
    && (forall c :: c in accounts ==> c in customers && accounts[c].balance >= 0.0)
    && (forall id :: id in inventory ==>
          && inventory[id].supplierId in customers
          && inventory[id].productId in products
          && inventory[id].quantity >= 0
          && inventory[id].price > 0.0)
    && UniquePairs(inventory)
    && (forall c :: c in customers ==> c < nextCustId)
    && (forall p :: p in products ==> p < nextProductId)
    && (forall id :: id in inventory ==> id < nextInventoryId)
  }

  /** The tables a purchase writes, with the next order id. */
  datatype SalesTables = SalesTables(
    accounts: map<int, Account>, inventory: map<int, Item>, orders: seq<Order>,
    orderDetails: seq<OrderDetail>, transactions: seq<Transaction>, nextOrderId: int)

  /** The database: one field per table, plus the next values of the serial key columns. */
  class Ledger {
    var customers: map<int, Customer>
    var accounts: map<int, Account>
    var products: map<int, Product>
    var inventory: map<int, Item>
    var orders: seq<Order>
    var orderDetails: seq<OrderDetail>
    var transactions: seq<Transaction>
    var nextCustId: int
    var nextProductId: int
    var nextInventoryId: int
    var nextOrderId: int

    /** The tables are consistent (see `Consistent`) and every order id
      already used is below the next one. */
    ghost predicate Valid()
      reads this
    {
      && Consistent(customers, accounts, products, inventory, nextCustId, nextProductId, nextInventoryId)
      && (forall k :: 0 <= k < |orders| ==> orders[k].orderId < nextOrderId)
    }

    /** The tables a purchase writes. */
    function Sales(): SalesTables
      reads this
    {
      SalesTables(accounts, inventory, orders, orderDetails, transactions, nextOrderId)
    }

    /** An empty database; every serial column starts at 1. */
    constructor ()
      ensures Valid()
      ensures customers == map[] && accounts == map[] && products == map[] && inventory == map[]
      ensures orders == [] && orderDetails == [] && transactions == []
      ensures nextCustId == 1 && nextProductId == 1 && nextInventoryId == 1 && nextOrderId == 1
    {
      customers, accounts, products, inventory := map[], map[], map[], map[];
      orders, orderDetails, transactions := [], [], [];
      nextCustId, nextProductId, nextInventoryId, nextOrderId := 1, 1, 1, 1;
    }
  }
}
