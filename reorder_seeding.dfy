/** The set-up script that gives every product without a reorder point a
    default one (add_reorder_points.py): the two default formulas and the
    seeding loop over the products lacking a configuration. */
module ReorderSeeding {
  import opened PyBuiltins
  import opened Models

  /** `max(5, min(20, int(stock * 0.25)))`. Multiplying by 0.25 is exact on
      floats and int() truncates toward zero, so this is the truncated quarter
      of the stock, clamped to [5, 20]. */
  function DefaultMinimum(stock: int): (m: int)
    ensures 5 <= m <= 20
    ensures stock >= 0 ==> m == (if stock / 4 < 5 then 5 else if stock / 4 > 20 then 20 else stock / 4)
    ensures stock < 20 ==> m == 5
    ensures stock >= 80 ==> m == 20
  {
    Max(5, Min(20, TruncDiv(stock, 4)))
  }

  /** `max(25, int(stock * 1.5))`: the truncated one-and-a-half times the
      stock, at least 25. */
  function DefaultReorder(stock: int): (r: int)
    ensures r >= 25
    ensures stock >= 0 && (3 * stock) / 2 >= 25 ==> r == (3 * stock) / 2
    ensures stock < 17 ==> r == 25
    ensures stock >= 17 ==> r == (3 * stock) / 2
  {
    Max(25, TruncDiv(3 * stock, 2))
  }

  /** The restock target always lies strictly above the alert threshold. */
  lemma ReorderAboveMinimum(stock: int)
    ensures DefaultReorder(stock) > DefaultMinimum(stock)
    ensures DefaultReorder(stock) - DefaultMinimum(stock) >= 5
  {
  }

  /** The configuration created for one product. */
  function DefaultReorderPoint(p: Product): (rp: ReorderPoint)
    ensures rp.productId == p.id && rp.isActive
    ensures 5 <= rp.minimumQuantity <= 20 < 25 <= rp.reorderQuantity
  {
    ReorderPoint(p.id, DefaultMinimum(p.quantity), DefaultReorder(p.quantity), true)
  }

  predicate HasReorderPoint(points: seq<ReorderPoint>, productId: int)
  {
    exists i :: 0 <= i < |points| && points[i].productId == productId
  }

  /** `Product.query.outerjoin(ReorderPoint).filter(ReorderPoint.id.is_(None))`:
      the products no reorder point refers to, in query order. */
  function ProductsWithoutReorder(products: seq<Product>, points: seq<ReorderPoint>): (r: seq<Product>)
    ensures forall p :: p in r <==> p in products && !HasReorderPoint(points, p.id)
  {
    Filter(products, (p: Product) => !HasReorderPoint(points, p.id))
  }

  /** The rows the loop adds, one per product, in order. */
  function Seeds(products: seq<Product>): (rs: seq<ReorderPoint>)
    ensures |rs| == |products|
    ensures forall i :: 0 <= i < |products| ==> rs[i] == DefaultReorderPoint(products[i])
  {
    seq(|products|, i requires 0 <= i < |products| => DefaultReorderPoint(products[i]))
  }

  /** The reorder-point table as seen through the database session: committed
      rows and rows added since the last commit. */
  class Session {
    var committed: seq<ReorderPoint>
    var pending: seq<ReorderPoint>
    ghost var commits: nat

    constructor (existing: seq<ReorderPoint>)
      ensures committed == existing && pending == [] && commits == 0
    {
      committed := existing;
      pending := [];
      commits := 0;
    }

    /** `db.session.add`. */
    method Add(rp: ReorderPoint)
      modifies this
      ensures pending == old(pending) + [rp]
      ensures committed == old(committed) && commits == old(commits)
    {
      pending := pending + [rp];
    }

    /** `db.session.commit`. */
    method Commit()
      modifies this
      ensures committed == old(committed) + old(pending) && pending == []
      ensures commits == old(commits) + 1
    {
      committed := committed + pending;
      pending := [];
      commits := commits + 1;
    }
  }

  /** Step 3 of `migrate_reorder_points`: one active default configuration for
      every product lacking one, all written by a single commit after the
      loop; `createdCount` is the number of rows created. */
  method SeedReorderPoints(products: seq<Product>, session: Session) returns (createdCount: nat)
    requires session.pending == []
    modifies session
    ensures session.committed == old(session.committed) + Seeds(ProductsWithoutReorder(products, old(session.committed)))
    ensures session.pending == []
    ensures session.commits == old(session.commits) + 1
    ensures createdCount == |ProductsWithoutReorder(products, old(session.committed))|
  {
    var missing := ProductsWithoutReorder(products, session.committed);
    createdCount := 0;
    var i := 0;
    while i < |missing|
      invariant 0 <= i <= |missing|
      invariant createdCount == i
      invariant session.committed == old(session.committed)
      invariant session.commits == old(session.commits)
      invariant session.pending == Seeds(missing[..i])
    {
      var product := missing[i];
      var rp := ReorderPoint(product.id, DefaultMinimum(product.quantity), DefaultReorder(product.quantity), true);
      session.Add(rp);
      createdCount := createdCount + 1;
      i := i + 1;
    }
    assert missing[..i] == missing;
    session.Commit();
  }

  /** After seeding, every product of the query has a reorder point; the rows
      that were there before are kept, in place; every new row is active and
      belongs to a product that had none. */
  lemma SeedingCoversEveryProduct(products: seq<Product>, existing: seq<ReorderPoint>)
    ensures var after := existing + Seeds(ProductsWithoutReorder(products, existing));
      && after[..|existing|] == existing
      && (forall p :: p in products ==> HasReorderPoint(after, p.id))
      && (forall k :: |existing| <= k < |after| ==>
            after[k].isActive && !HasReorderPoint(existing, after[k].productId))
  {
    EveryProductCovered(products, existing);
    NewRowsAreFresh(products, existing);
  }

  lemma EveryProductCovered(products: seq<Product>, existing: seq<ReorderPoint>)
    ensures forall p :: p in products ==> HasReorderPoint(existing + Seeds(ProductsWithoutReorder(products, existing)), p.id)
  {
    var missing := ProductsWithoutReorder(products, existing);
    forall p | p in products ensures HasReorderPoint(existing + Seeds(missing), p.id) {
      if HasReorderPoint(existing, p.id) {
        KeptPointStillThere(existing, Seeds(missing), p.id);
      } else {
        SeededPointThere(existing, missing, p);
      }
    }
  }

  lemma NewRowsAreFresh(products: seq<Product>, existing: seq<ReorderPoint>)
    ensures var after := existing + Seeds(ProductsWithoutReorder(products, existing));
      forall k :: |existing| <= k < |after| ==> after[k].isActive && !HasReorderPoint(existing, after[k].productId)
  {
    var missing := ProductsWithoutReorder(products, existing);
    var after := existing + Seeds(missing);
    forall k | |existing| <= k < |after|
      ensures after[k].isActive && !HasReorderPoint(existing, after[k].productId)
    {
      var j := k - |existing|;
      assert after[k] == Seeds(missing)[j] == DefaultReorderPoint(missing[j]);
      assert missing[j] in missing;
    }
  }

  lemma KeptPointStillThere(existing: seq<ReorderPoint>, added: seq<ReorderPoint>, productId: int)
    requires HasReorderPoint(existing, productId)
    ensures HasReorderPoint(existing + added, productId)
  {
    var i :| 0 <= i < |existing| && existing[i].productId == productId;
    assert (existing + added)[i] == existing[i];
  }

  lemma SeededPointThere(existing: seq<ReorderPoint>, missing: seq<Product>, p: Product)
    requires p in missing
    ensures HasReorderPoint(existing + Seeds(missing), p.id)
  {
    var j :| 0 <= j < |missing| && missing[j] == p;
    assert (existing + Seeds(missing))[|existing| + j] == DefaultReorderPoint(p);
  }

  predicate IdsDistinct(products: seq<Product>)
  {
    forall i, j :: 0 <= i < j < |products| ==> products[i].id != products[j].id
  }

  /** Products whose ids are distinct get at most one configuration each. */
  lemma SeedsAreOnePerProduct(products: seq<Product>, existing: seq<ReorderPoint>)
    requires IdsDistinct(products)
    ensures var rs := Seeds(ProductsWithoutReorder(products, existing));
      forall i, j :: 0 <= i < j < |rs| ==> rs[i].productId != rs[j].productId
  {
    MissingIdsDistinct(products, existing);
  }

  lemma TailOfDistinct(products: seq<Product>)
    requires IdsDistinct(products) && products != []
    ensures IdsDistinct(products[1..])
    ensures forall x :: x in products[1..] ==> x.id != products[0].id
  {
    forall i, j | 0 <= i < j < |products| - 1 ensures products[1..][i].id != products[1..][j].id {
      assert products[1..][i] == products[i + 1] && products[1..][j] == products[j + 1];
    }
    forall x | x in products[1..] ensures x.id != products[0].id {
      var k :| 0 <= k < |products| - 1 && products[1..][k] == x;
      assert products[k + 1] == x;
    }
  }

  lemma {:induction false} MissingIdsDistinct(products: seq<Product>, existing: seq<ReorderPoint>)
    requires IdsDistinct(products)
    ensures IdsDistinct(ProductsWithoutReorder(products, existing))
    decreases |products|
  {
    if products != [] {
      TailOfDistinct(products);
      MissingIdsDistinct(products[1..], existing);
      var rest := ProductsWithoutReorder(products[1..], existing);
      if !HasReorderPoint(existing, products[0].id) {
        PrependDistinct(products[0], rest);
      }
    }
  }

  lemma PrependDistinct(x: Product, rest: seq<Product>)
    requires IdsDistinct(rest)
    requires forall y :: y in rest ==> y.id != x.id
    ensures IdsDistinct([x] + rest)
  {
    var r := [x] + rest;
    forall i, j | 0 <= i < j < |r| ensures r[i].id != r[j].id {
      assert r[j] == rest[j - 1];
      if i == 0 {
        assert rest[j - 1] in rest;
      } else {
        assert r[i] == rest[i - 1];
      }
    }
  }
}
