/** The records of the inventory database (models.py): suppliers, products and
    the stock-transaction log, with the declared constraints and defaults and
    the derived properties of a transaction. */
module Models {
  import opened PyBuiltins

  /** A supplier row; every contact field is optional. */
  datatype Supplier = Supplier(
    id: int,
    name: string,
    contactPerson: Option<string>,
    email: Option<string>,
    phone: Option<string>,
    address: Option<string>,
    createdAt: int)

  /** A product row. `supplier` stands for the optional `supplier_id` foreign
      key together with the `supplier` back-reference it resolves to. `price`
      is a float column; no arithmetic on it is modelled. */
  datatype Product = Product(
    id: int,
    name: string,
    sku: string,
    description: Option<string>,
    price: real,
    quantity: int,
    createdAt: int,
    supplier: Option<Supplier>)

  /** A stock-transaction row. Nothing in the model ties `quantityAfter` to
      `quantityBefore + quantityChange`: the declarations do not. */
  datatype StockTransaction = StockTransaction(
    id: int,
    productId: int,
    transactionType: string,
    quantityChange: int,
    quantityBefore: int,
    quantityAfter: int,
    reason: Option<string>,
    userNotes: Option<string>,
    createdAt: int)

  /** A reorder-point row: the per-product alert threshold and restock target. */
  datatype ReorderPoint = ReorderPoint(
    productId: int,
    minimumQuantity: int,
    reorderQuantity: int,
    isActive: bool)

  // ---------------------------------------------------------------------------
  // Inserting a product: the `sku` constraint and the `quantity` default

  /** The values a new product is created with; `quantity` is None when the
      caller leaves it out. */
  datatype NewProduct = NewProduct(
    name: string,
    sku: string,
    description: Option<string>,
    price: real,
    quantity: Option<int>,
    supplier: Option<Supplier>)

  datatype IntegrityError = DuplicateSku(sku: string)

  predicate SkusUnique(table: seq<Product>)
  {
    forall i, j :: 0 <= i < j < |table| ==> table[i].sku != table[j].sku
  }

  predicate HasSku(table: seq<Product>, sku: string)
  {
    exists i :: 0 <= i < |table| && table[i].sku == sku
  }

  /** INSERT of a product with database-assigned `id` and `createdAt`: a taken
      SKU violates the unique constraint, a missing quantity becomes 0. */
  function InsertProduct(table: seq<Product>, p: NewProduct, id: int, now: int): (r: Result<seq<Product>, IntegrityError>)
    ensures r.Err? <==> HasSku(table, p.sku)
    ensures r.Err? ==> r.error == DuplicateSku(p.sku)
    ensures r.Ok? ==> |r.value| == |table| + 1 && r.value[..|table|] == table
    ensures r.Ok? ==> r.value[|table|].sku == p.sku && r.value[|table|].id == id
    ensures r.Ok? ==> r.value[|table|].quantity == (if p.quantity.Some? then p.quantity.value else 0)
    ensures r.Ok? && SkusUnique(table) ==> SkusUnique(r.value)
  {
    if HasSku(table, p.sku) then Err(DuplicateSku(p.sku))
    else
      var quantity := if p.quantity.Some? then p.quantity.value else 0;
      Ok(table + [Product(id, p.name, p.sku, p.description, p.price, quantity, now, p.supplier)])
  }

  // ---------------------------------------------------------------------------
  // Properties of a stock transaction

  /** `is_increase`: the change added stock. */
  predicate IsIncrease(t: StockTransaction)
  {
    t.quantityChange > 0
  }

  /** `is_decrease`: the change removed stock. */
  predicate IsDecrease(t: StockTransaction)
  {
    t.quantityChange < 0
  }

  /** A transaction is never both an increase and a decrease, and it is one of
      the two exactly when its change is non-zero. */
  lemma DirectionExclusive(t: StockTransaction)
    ensures !(IsIncrease(t) && IsDecrease(t))
    ensures IsIncrease(t) || IsDecrease(t) <==> t.quantityChange != 0
    ensures t.quantityChange == 0 ==> !IsIncrease(t) && !IsDecrease(t)
  {
  }

  /** `transaction_display`: "Added n units" for a positive change, otherwise
      "Removed |change| units" (so a zero change reads "Removed 0 units"). */
  function TransactionDisplay(t: StockTransaction): (s: string)
    ensures IsIncrease(t) ==> s == "Added " + NatToString(t.quantityChange) + " units"
    ensures !IsIncrease(t) ==> s == "Removed " + NatToString(-t.quantityChange) + " units"
  {
    if t.quantityChange > 0 then "Added " + IntToString(t.quantityChange) + " units"
    else "Removed " + IntToString(if t.quantityChange < 0 then -t.quantityChange else t.quantityChange) + " units"
  }

  /** The change a display text reports. */
  function DisplayedChange(s: string): int
  {
    if |s| >= 12 && s[..6] == "Added " && AllDigits(s[6..|s| - 6]) then ParseDigits(s[6..|s| - 6])
    else if |s| >= 14 && s[..8] == "Removed " && AllDigits(s[8..|s| - 6]) then -(ParseDigits(s[8..|s| - 6]) as int)
    else 0
  }

  /** The display text gives the exact change back: reading it recovers
      `quantity_change`. */
  lemma DisplayRecoversChange(t: StockTransaction)
    ensures DisplayedChange(TransactionDisplay(t)) == t.quantityChange
  {
    if t.quantityChange > 0 {
      AddedTextRecovers(t.quantityChange);
    } else {
      RemovedTextRecovers(-t.quantityChange);
    }
  }

  lemma AddedTextRecovers(n: nat)
    ensures DisplayedChange("Added " + NatToString(n) + " units") == n
  {
    var s := "Added " + NatToString(n) + " units";
    assert s[..6] == "Added ";
    assert s[6..|s| - 6] == NatToString(n);
    ParseNatToString(n);
  }

  lemma RemovedTextRecovers(n: nat)
    ensures DisplayedChange("Removed " + NatToString(n) + " units") == -(n as int)
  {
    var s := "Removed " + NatToString(n) + " units";
    assert s[..6] != "Added " by { assert s[0] == 'R'; }
    assert s[..8] == "Removed ";
    assert s[8..|s| - 6] == NatToString(n);
    ParseNatToString(n);
  }

  /** Two transactions read the same exactly when their changes are equal; in
      particular the text starts with "Added" exactly for an increase. */
  lemma DisplayDeterminesChange(t: StockTransaction, u: StockTransaction)
    ensures TransactionDisplay(t) == TransactionDisplay(u) <==> t.quantityChange == u.quantityChange
    ensures TransactionDisplay(t)[0] == 'A' <==> IsIncrease(t)
  {
    if TransactionDisplay(t) == TransactionDisplay(u) {
      DisplayRecoversChange(t);
      DisplayRecoversChange(u);
    }
    var s := TransactionDisplay(t);
    if IsIncrease(t) {
      assert s == "Added " + NatToString(t.quantityChange) + " units";
      assert s[0] == "Added "[0];
    } else {
      assert s == "Removed " + NatToString(-t.quantityChange) + " units";
      assert s[0] == "Removed "[0];
    }
  }

  // ---------------------------------------------------------------------------
  // Product.transactions: a product's log, newest first by `created_at`

  predicate NewestFirst(h: seq<StockTransaction>)
  {
    forall i, j :: 0 <= i < j < |h| ==> h[i].createdAt >= h[j].createdAt
  }

  /** Places t in a newest-first log. */
  function InsertByDate(t: StockTransaction, h: seq<StockTransaction>): (r: seq<StockTransaction>)
    requires NewestFirst(h)
    ensures NewestFirst(r)
    ensures multiset(r) == multiset(h) + multiset{t}
    ensures forall x :: x in r ==> x == t || x in h
    decreases |h|
  {
    if h == [] || t.createdAt >= h[0].createdAt then
      PrependNewest(t, h);
      [t] + h
    else
      var rest := InsertByDate(t, h[1..]);
      HeadIsNewest(h);
      PrependNewest(h[0], rest);
      assert h == [h[0]] + h[1..];
      [h[0]] + rest
  }

  lemma PrependNewest(x: StockTransaction, r: seq<StockTransaction>)
    requires NewestFirst(r)
    requires forall y :: y in r ==> y.createdAt <= x.createdAt
    ensures NewestFirst([x] + r)
  {
    forall i, j | 0 <= i < j < |r| + 1 ensures ([x] + r)[i].createdAt >= ([x] + r)[j].createdAt {
      if i > 0 {
        assert ([x] + r)[i] == r[i - 1] && ([x] + r)[j] == r[j - 1];
      } else {
        assert ([x] + r)[j] == r[j - 1];
        assert r[j - 1] in r;
      }
    }
  }

  lemma HeadIsNewest(h: seq<StockTransaction>)
    requires NewestFirst(h) && h != []
    ensures forall x :: x in h[1..] ==> x.createdAt <= h[0].createdAt
  {
    forall x | x in h[1..] ensures x.createdAt <= h[0].createdAt {
      var k :| 0 <= k < |h| - 1 && h[1..][k] == x;
      assert h[k + 1] == x;
    }
  }

  function SortNewestFirst(s: seq<StockTransaction>): (r: seq<StockTransaction>)
    ensures NewestFirst(r)
    ensures multiset(r) == multiset(s)
    decreases |s|
  {
    if s == [] then []
    else
      assert s == [s[0]] + s[1..];
      InsertByDate(s[0], SortNewestFirst(s[1..]))
  }

  /** The rows of the log that belong to one product, in log order. */
  function OwnTransactions(log: seq<StockTransaction>, productId: int): seq<StockTransaction>
  {
    Filter(log, (t: StockTransaction) => t.productId == productId)
  }

  /** The `transactions` relationship of a product: its own rows, newest
      first. Rows with equal timestamps may come in either order. */
  function History(log: seq<StockTransaction>, productId: int): (h: seq<StockTransaction>)
    ensures NewestFirst(h)
    ensures multiset(h) == multiset(OwnTransactions(log, productId))
    ensures forall t :: t in h <==> t in log && t.productId == productId
  {
    var own := OwnTransactions(log, productId);
    var h := SortNewestFirst(own);
    forall t ensures t in h <==> t in log && t.productId == productId {
      assert t in h <==> t in multiset(h);
      assert t in own <==> t in multiset(own);
    }
    h
  }
}
