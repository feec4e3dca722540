/** The quantity selector of the product list: one pending count per catalog
    product, the amount the user intends to add to the cart next. */
module Selector {
  import opened Catalog

  /** Every pending count is at least zero. */
  predicate NonNegative(quantities: map<ProductId, int>)
  {
    forall id :: id in quantities ==> quantities[id] >= 0
  }

  /** The initial selector state: a left-to-right fold over the catalog that
      sets the count of every product to zero. */
  function InitialQuantities(catalog: seq<Product>): (quantities: map<ProductId, int>)
    ensures quantities.Keys == CatalogIds(catalog)
    ensures forall id :: id in quantities ==> quantities[id] == 0
    decreases |catalog|
  {
    if |catalog| == 0 then map[]
    else
      var init := catalog[..|catalog| - 1];
      var last := catalog[|catalog| - 1];
      assert CatalogIds(catalog) == CatalogIds(init) + {last.id} by {
        forall id | id in CatalogIds(catalog) ensures id in CatalogIds(init) + {last.id} {
          var i :| 0 <= i < |catalog| && catalog[i].id == id;
          if i < |catalog| - 1 { assert init[i] == catalog[i]; }
        }
        forall id | id in CatalogIds(init) ensures id in CatalogIds(catalog) {
          var i :| 0 <= i < |init| && init[i].id == id;
          assert catalog[i] == init[i];
        }
      }
      InitialQuantities(init)[last.id := 0]
  }

  /** `handleQuantityChange`: add `delta` to the pending count of `id`,
      clamping the result at zero; every other count is unchanged. */
  function AdjustQuantity(quantities: map<ProductId, int>, id: ProductId, delta: int): (r: map<ProductId, int>)
    requires id in quantities
    ensures r.Keys == quantities.Keys
    ensures r[id] >= 0
    ensures quantities[id] + delta >= 0 ==> r[id] == quantities[id] + delta
    ensures quantities[id] + delta < 0 ==> r[id] == 0
    ensures forall other :: other in quantities && other != id ==> r[other] == quantities[other]
    ensures NonNegative(quantities) ==> NonNegative(r)
  {
    var newQuantity := if quantities[id] + delta < 0 then 0 else quantities[id] + delta;
    quantities[id := newQuantity]
  }

  /** The reset after a successful add to cart: the count of `id` becomes zero. */
  function ResetQuantity(quantities: map<ProductId, int>, id: ProductId): (r: map<ProductId, int>)
    requires id in quantities
    ensures r.Keys == quantities.Keys
    ensures r[id] == 0
    ensures forall other :: other in quantities && other != id ==> r[other] == quantities[other]
    ensures NonNegative(quantities) ==> NonNegative(r)
  {
    quantities[id := 0]
  }

  /** Pressing "-" on a selector already at zero leaves it at zero. */
  lemma AdjustClampsAtZero(quantities: map<ProductId, int>, id: ProductId, delta: int)
    requires id in quantities && quantities[id] == 0 && delta <= 0
    ensures AdjustQuantity(quantities, id, delta) == quantities
  {
  }

  /** Raising a count and lowering it again by the same amount restores the
      selector; the opposite order does not when the decrement was clamped. */
  lemma AdjustUndo(quantities: map<ProductId, int>, id: ProductId, delta: int)
    requires id in quantities && quantities[id] >= 0 && delta >= 0
    ensures AdjustQuantity(AdjustQuantity(quantities, id, delta), id, -delta) == quantities
    ensures quantities[id] < delta ==>
      AdjustQuantity(AdjustQuantity(quantities, id, -delta), id, delta) != quantities
  {
    var up := AdjustQuantity(quantities, id, delta);
    assert AdjustQuantity(up, id, -delta)[id] == quantities[id];
    if quantities[id] < delta {
      assert AdjustQuantity(AdjustQuantity(quantities, id, -delta), id, delta)[id] == delta;
    }
  }
}
