/** The cart engine: the line items of the cart, the subtotal, the three cart
    edits of the application and the free-gift reconciliation that runs after
    every change of the cart. Everything here is a pure transformation of
    values; the state cells that hold the results live in module Shop. */
module CartEngine {
  import opened Catalog

  /** One line of the cart: a copy of a product together with its quantity. */
  datatype LineItem = LineItem(id: ProductId, name: string, price: nat, quantity: int)

  /** The two state cells the gift reconciliation writes: cart and message. */
  datatype GiftState = GiftState(cart: seq<LineItem>, message: string)

  /** The message shown while the gift is in the cart. */
  const Congratulations: string := "Congratulations! You've earned a free Wireless Mouse!"

  /** `{ ...product, quantity }` */
  function LineOf(product: Product, quantity: int): LineItem
  {
    LineItem(product.id, product.name, product.price, quantity)
  }

  /** The gift line: the gift product with quantity one. */
  function GiftLine(gift: Product): LineItem
  {
    LineOf(gift, 1)
  }

  /** `Math.max` */
  function Max(a: int, b: int): int
  {
    if a < b then b else a
  }

  /** `cart.some(item => item.id === id)` */
  predicate HasLine(cart: seq<LineItem>, id: ProductId)
  {
    exists i :: 0 <= i < |cart| && cart[i].id == id
  }

  /** No two lines share an id. */
  predicate Distinct(cart: seq<LineItem>)
  {
    forall i, j :: 0 <= i < j < |cart| ==> cart[i].id != cart[j].id
  }

  /** Every line has a quantity of at least one. */
  predicate AllPositive(cart: seq<LineItem>)
  {
    forall l :: l in cart ==> l.quantity > 0
  }

  /** Every line carrying the gift's id is exactly the gift line. */
  predicate GiftLinesExact(cart: seq<LineItem>, gift: Product)
  {
    forall l :: l in cart && l.id == gift.id ==> l == GiftLine(gift)
  }

  /** The message is the congratulation exactly when the gift is in the cart. */
  predicate MessageTracksGift(cart: seq<LineItem>, message: string, gift: Product)
  {
    message == if HasLine(cart, gift.id) then Congratulations else ""
  }

  /** A cart at rest: ids distinct, quantities positive, the gift line intact
      and present exactly when the subtotal reaches the threshold, and the
      message in step with it. */
  predicate Settled(cart: seq<LineItem>, message: string, config: Config)
  {
    && Distinct(cart)
    && AllPositive(cart)
    && GiftLinesExact(cart, config.gift)
    && MessageTracksGift(cart, message, config.gift)
    && (HasLine(cart, config.gift.id) <==> Subtotal(cart, config.gift.id) >= config.threshold)
  }

  /** `cart.filter(keep)`: the lines satisfying `keep`, in their original order. */
  function Filter(cart: seq<LineItem>, keep: LineItem -> bool): (r: seq<LineItem>)
    ensures |r| <= |cart|
    ensures (forall i :: 0 <= i < |cart| ==> keep(cart[i])) ==> r == cart
    ensures (exists i :: 0 <= i < |cart| && !keep(cart[i])) ==> |r| < |cart|
  {
    if |cart| == 0 then []
    else if keep(cart[0]) then [cart[0]] + Filter(cart[1..], keep)
    else Filter(cart[1..], keep)
  }

  /** The lines kept are exactly the lines satisfying `keep`. */
  lemma {:induction false} FilterMembers(cart: seq<LineItem>, keep: LineItem -> bool)
    ensures forall l :: l in Filter(cart, keep) <==> l in cart && keep(l)
  {
    if |cart| > 0 {
      FilterMembers(cart[1..], keep);
      assert cart == [cart[0]] + cart[1..];
    }
  }

  /** Filtering keeps ids distinct. */
  lemma {:induction false} FilterDistinct(cart: seq<LineItem>, keep: LineItem -> bool)
    ensures Distinct(cart) ==> Distinct(Filter(cart, keep))
  {
    if |cart| > 0 && Distinct(cart) {
      var tail := cart[1..];
      assert Distinct(tail);
      FilterDistinct(tail, keep);
      FilterMembers(tail, keep);
      if keep(cart[0]) {
        var r := Filter(cart, keep);
        assert r == [cart[0]] + Filter(tail, keep);
        forall j | 0 < j < |r| ensures r[0].id != r[j].id {
          assert r[j] in tail;
          var k :| 0 <= k < |tail| && tail[k] == r[j];
          assert cart[k + 1] == r[j];
        }
      }
    }
  }

  /** Filtering a concatenation filters each part: the order of lines is kept. */
  lemma {:induction false} FilterAppend(a: seq<LineItem>, b: seq<LineItem>, keep: LineItem -> bool)
    ensures Filter(a + b, keep) == Filter(a, keep) + Filter(b, keep)
  {
    if |a| > 0 {
      assert (a + b)[1..] == a[1..] + b;
      FilterAppend(a[1..], b, keep);
    } else {
      assert a + b == b;
    }
  }

  /** The filter condition `item => item.id !== id`. */
  function OtherThan(id: ProductId): LineItem -> bool
  {
    (l: LineItem) => l.id != id
  }

  /** The filter condition `item => item.quantity > 0`. */
  function InStock(l: LineItem): bool
  {
    l.quantity > 0
  }

  /** `cart.filter(item => item.id !== id)` */
  function WithoutId(cart: seq<LineItem>, id: ProductId): (r: seq<LineItem>)
    ensures forall other :: other != id ==> (HasLine(r, other) <==> HasLine(cart, other))
    ensures !HasLine(cart, id) ==> r == cart
    ensures HasLine(cart, id) ==> |r| < |cart|
    ensures Distinct(cart) ==> Distinct(r)
  {
    var r := Filter(cart, OtherThan(id));
    FilterDistinct(cart, OtherThan(id));
    FilterMembers(cart, OtherThan(id));
    assert forall i :: 0 <= i < |r| ==> r[i] in r;
    assert forall i :: 0 <= i < |cart| ==> cart[i] in cart;
    r
  }

  /** The lines left by `WithoutId` are exactly the lines of other ids. */
  lemma WithoutIdMembers(cart: seq<LineItem>, id: ProductId)
    ensures !HasLine(WithoutId(cart, id), id)
    ensures forall l :: l in WithoutId(cart, id) <==> l in cart && l.id != id
  {
    var r := WithoutId(cart, id);
    FilterMembers(cart, OtherThan(id));
    assert forall i :: 0 <= i < |r| ==> r[i] in r;
  }

  /** Total of price times quantity over all lines (the `reduce`). */
  function Sum(cart: seq<LineItem>): (total: int)
    ensures AllPositive(cart) ==> total >= 0
  {
    if |cart| == 0 then 0
    else
      assert AllPositive(cart) ==> AllPositive(cart[1..]) by {
        assert forall l :: l in cart[1..] ==> l in cart;
      }
      cart[0].price * cart[0].quantity + Sum(cart[1..])
  }

  /** `calculateSubtotal`: the lines other than the gift, summed. */
  function Subtotal(cart: seq<LineItem>, giftId: ProductId): (total: int)
    ensures AllPositive(cart) ==> total >= 0
  {
    WithoutIdMembers(cart, giftId);
    Sum(WithoutId(cart, giftId))
  }

  /** An independent description of the subtotal: walk the cart, counting
      price times quantity of every line except those with the gift's id. */
  ghost function PricedTotal(cart: seq<LineItem>, giftId: ProductId): int
  {
    if |cart| == 0 then 0
    else (if cart[0].id == giftId then 0 else cart[0].price * cart[0].quantity)
         + PricedTotal(cart[1..], giftId)
  }

  /** The subtotal, computed as filter-then-sum, agrees with that walk. */
  lemma {:induction false} SubtotalIsPricedTotal(cart: seq<LineItem>, giftId: ProductId)
    ensures Subtotal(cart, giftId) == PricedTotal(cart, giftId)
  {
    if |cart| > 0 {
      SubtotalIsPricedTotal(cart[1..], giftId);
      assert cart == [cart[0]] + cart[1..];
      FilterAppend([cart[0]], cart[1..], OtherThan(giftId));
      if cart[0].id != giftId {
        var rest := WithoutId(cart[1..], giftId);
        assert ([cart[0]] + rest)[1..] == rest;
      }
    }
  }

  /** The sum of a concatenation is the sum of the sums. */
  lemma {:induction false} SumAppend(a: seq<LineItem>, b: seq<LineItem>)
    ensures Sum(a + b) == Sum(a) + Sum(b)
  {
    if |a| > 0 {
      assert (a + b)[1..] == a[1..] + b;
      SumAppend(a[1..], b);
    } else {
      assert a + b == b;
    }
  }

  /** The subtotal of a concatenation is the sum of the subtotals. */
  lemma SubtotalAppend(a: seq<LineItem>, b: seq<LineItem>, giftId: ProductId)
    ensures Subtotal(a + b, giftId) == Subtotal(a, giftId) + Subtotal(b, giftId)
  {
    FilterAppend(a, b, OtherThan(giftId));
    SumAppend(WithoutId(a, giftId), WithoutId(b, giftId));
  }

  /** The gift line never contributes: appending it or filtering every gift
      line out leaves the subtotal unchanged. */
  lemma SubtotalIgnoresGift(cart: seq<LineItem>, gift: Product)
    ensures Subtotal(cart + [GiftLine(gift)], gift.id) == Subtotal(cart, gift.id)
    ensures Subtotal(WithoutId(cart, gift.id), gift.id) == Subtotal(cart, gift.id)
  {
    SubtotalAppend(cart, [GiftLine(gift)], gift.id);
    assert WithoutId([GiftLine(gift)], gift.id) == [];
    WithoutIdMembers(cart, gift.id);
  }

  /** Raising the quantity of one non-gift line by `growth` raises the
      subtotal by that line's price times `growth`. */
  lemma SubtotalGrow(cart: seq<LineItem>, k: int, growth: int, giftId: ProductId)
    requires 0 <= k < |cart| && cart[k].id != giftId
    ensures Subtotal(cart[k := cart[k].(quantity := cart[k].quantity + growth)], giftId)
         == Subtotal(cart, giftId) + cart[k].price * growth
  {
    var grown := cart[k := cart[k].(quantity := cart[k].quantity + growth)];
    SubtotalRequantify(cart, k, cart[k].quantity + growth, giftId);
    Rebalance(Subtotal(grown, giftId), Subtotal(cart, giftId), cart[k].price, cart[k].quantity, growth);
  }

  /** Setting the quantity of one non-gift line replaces that line's old
      amount in the subtotal by its new amount. */
  lemma SubtotalRequantify(cart: seq<LineItem>, k: int, quantity: int, giftId: ProductId)
    requires 0 <= k < |cart| && cart[k].id != giftId
    ensures Subtotal(cart[k := cart[k].(quantity := quantity)], giftId) + cart[k].price * cart[k].quantity
         == Subtotal(cart, giftId) + cart[k].price * quantity
  {
    var before, after := cart[..k], cart[k + 1..];
    assert cart == before + [cart[k]] + after;
    assert cart[k := cart[k].(quantity := quantity)] == before + [cart[k].(quantity := quantity)] + after;
    SubtotalAround(before, cart[k], after, giftId);
    SubtotalAround(before, cart[k].(quantity := quantity), after, giftId);
  }

  /** The subtotal of a cart split around one non-gift line. */
  lemma SubtotalAround(before: seq<LineItem>, line: LineItem, after: seq<LineItem>, giftId: ProductId)
    requires line.id != giftId
    ensures Subtotal(before + [line] + after, giftId)
         == Subtotal(before, giftId) + line.price * line.quantity + Subtotal(after, giftId)
  {
    SubtotalAppend(before + [line], after, giftId);
    SubtotalAppend(before, [line], giftId);
    SubtotalSingle(line, giftId);
  }

  /** A single non-gift line contributes its price times its quantity. */
  lemma SubtotalSingle(line: LineItem, giftId: ProductId)
    requires line.id != giftId
    ensures Subtotal([line], giftId) == line.price * line.quantity
  {
    assert WithoutId([line], giftId) == [line];
    SumSingle(line);
  }

  lemma SumSingle(line: LineItem)
    ensures Sum([line]) == line.price * line.quantity
  {
    assert [line][1..] == [];
  }

  /** Distributivity, kept apart from the sequence reasoning. */
  lemma Rebalance(after: int, before: int, price: int, was: int, growth: int)
    requires after + price * was == before + price * (was + growth)
    ensures after == before + price * growth
  {
  }

  /** The gift-reconciliation effect: add the gift (and the congratulation)
      once the subtotal reaches the threshold, take every gift line out (and
      clear the message) once it falls below, and otherwise change nothing. */
  function ReconcileGift(cart: seq<LineItem>, message: string, config: Config): (r: GiftState)
    ensures Subtotal(r.cart, config.gift.id) == Subtotal(cart, config.gift.id)
    ensures HasLine(r.cart, config.gift.id) <==> Subtotal(cart, config.gift.id) >= config.threshold
    ensures Subtotal(cart, config.gift.id) >= config.threshold && !HasLine(cart, config.gift.id) ==>
      r == GiftState(cart + [GiftLine(config.gift)], Congratulations)
    ensures Subtotal(cart, config.gift.id) < config.threshold && HasLine(cart, config.gift.id) ==>
      r == GiftState(WithoutId(cart, config.gift.id), "")
    ensures (HasLine(cart, config.gift.id) <==> Subtotal(cart, config.gift.id) >= config.threshold) ==>
      r == GiftState(cart, message)
  {
    var gift := config.gift;
    var subtotal := Subtotal(cart, gift.id);
    var hasFreeGift := HasLine(cart, gift.id);
    SubtotalIgnoresGift(cart, gift);
    if subtotal >= config.threshold && !hasFreeGift then
      assert (cart + [GiftLine(gift)])[|cart|] == GiftLine(gift);
      GiftState(cart + [GiftLine(gift)], Congratulations)
    else if subtotal < config.threshold && hasFreeGift then
      WithoutIdMembers(cart, gift.id);
      GiftState(WithoutId(cart, gift.id), "")
    else
      GiftState(cart, message)
  }

  /** Running the reconciliation a second time changes nothing. */
  lemma ReconcileIdempotent(cart: seq<LineItem>, message: string, config: Config)
    ensures var r := ReconcileGift(cart, message, config);
      ReconcileGift(r.cart, r.message, config) == r
  {
  }

  /** The reconciliation leaves a cart unchanged exactly when gift presence
      already matches the threshold test. */
  lemma ReconcileFixpoint(cart: seq<LineItem>, message: string, config: Config)
    ensures ReconcileGift(cart, message, config) == GiftState(cart, message)
        <==> (HasLine(cart, config.gift.id) <==> Subtotal(cart, config.gift.id) >= config.threshold)
  {
  }

  /** From a cart whose invariants other than gift presence hold, the
      reconciliation reaches a settled cart. */
  lemma ReconcileSettles(cart: seq<LineItem>, message: string, config: Config)
    requires Distinct(cart) && AllPositive(cart) && GiftLinesExact(cart, config.gift)
    requires MessageTracksGift(cart, message, config.gift)
    ensures var r := ReconcileGift(cart, message, config);
      Settled(r.cart, r.message, config)
  {
    var gift := config.gift;
    var r := ReconcileGift(cart, message, config);
    WithoutIdMembers(cart, gift.id);
    if Subtotal(cart, gift.id) >= config.threshold && !HasLine(cart, gift.id) {
      var added := cart + [GiftLine(gift)];
      forall i, j | 0 <= i < j < |added| ensures added[i].id != added[j].id {
        if j == |cart| {
          assert added[i] == cart[i];
        }
      }
    }
  }

  /** `cart.map(...)` of the add operation: every line with the product's id
      gets `quantity` more; ids and length are unchanged. */
  function Merge(cart: seq<LineItem>, id: ProductId, quantity: int): (r: seq<LineItem>)
    ensures |r| == |cart|
    ensures forall i :: 0 <= i < |r| ==> r[i].id == cart[i].id
  {
    seq(|cart|, i requires 0 <= i < |cart| =>
      if cart[i].id == id then cart[i].(quantity := cart[i].quantity + quantity) else cart[i])
  }

  /** The cart part of `addToCart`: nothing for a zero quantity, a merge
      into the existing line of the product, or a new line at the end. */
  function AddLine(cart: seq<LineItem>, product: Product, quantity: int): (r: seq<LineItem>)
    ensures quantity == 0 ==> r == cart
    ensures quantity != 0 && !HasLine(cart, product.id) ==> r == cart + [LineOf(product, quantity)]
    ensures quantity != 0 && HasLine(cart, product.id) ==> |r| == |cart|
    ensures forall id :: HasLine(r, id) <==> HasLine(cart, id) || (quantity != 0 && id == product.id)
    ensures forall l :: l in r && l.id != product.id ==> l in cart
    ensures Distinct(cart) ==> Distinct(r)
    ensures AllPositive(cart) && quantity >= 0 ==> AllPositive(r)
  {
    if quantity == 0 then cart
    else if HasLine(cart, product.id) then
      var r := Merge(cart, product.id, quantity);
      assert forall id :: HasLine(r, id) ==> HasLine(cart, id);
      assert forall i :: 0 <= i < |r| ==> r[i] in r;
      assert forall i :: 0 <= i < |cart| ==> cart[i] in cart;
      r
    else
      var r := cart + [LineOf(product, quantity)];
      assert r[|cart|].id == product.id;
      assert forall id :: HasLine(r, id) && id != product.id ==> HasLine(cart, id) by {
        forall id | HasLine(r, id) && id != product.id ensures HasLine(cart, id) {
          var i :| 0 <= i < |r| && r[i].id == id;
          assert r[i] == cart[i];
        }
      }
      assert forall i :: 0 <= i < |cart| ==> r[i] == cart[i];
      r
  }

  /** Adding to an existing line grows exactly that line's quantity; the
      other lines and the length stay as they were. */
  lemma AddMergesExisting(cart: seq<LineItem>, product: Product, quantity: int, k: int)
    requires Distinct(cart) && 0 <= k < |cart| && cart[k].id == product.id && quantity != 0
    ensures AddLine(cart, product, quantity) == cart[k := cart[k].(quantity := cart[k].quantity + quantity)]
  {
    var r := AddLine(cart, product, quantity);
    assert HasLine(cart, product.id);
    assert r == Merge(cart, product.id, quantity);
  }

  /** Adding a non-gift product raises the subtotal by its price times the
      added quantity, whether the line is merged or appended. */
  lemma AddLineSubtotal(cart: seq<LineItem>, product: Product, quantity: int, giftId: ProductId)
    requires Distinct(cart) && product.id != giftId
    requires forall l :: l in cart && l.id == product.id ==> l.price == product.price
    ensures Subtotal(AddLine(cart, product, quantity), giftId)
         == Subtotal(cart, giftId) + product.price * quantity
  {
    if quantity != 0 {
      if HasLine(cart, product.id) {
        var k :| 0 <= k < |cart| && cart[k].id == product.id;
        assert cart[k] in cart;
        AddMergesExisting(cart, product, quantity, k);
        SubtotalGrow(cart, k, quantity, giftId);
        assert cart[k].price == product.price;
      } else {
        SubtotalAppend(cart, [LineOf(product, quantity)], giftId);
        SubtotalSingle(LineOf(product, quantity), giftId);
      }
    }
  }

  /** `cart.map(...)` of the quantity edit: the lines with `id` get
      `max(1, quantity + delta)`. */
  function Clamp(cart: seq<LineItem>, id: ProductId, delta: int): (r: seq<LineItem>)
    ensures |r| == |cart|
    ensures forall i :: 0 <= i < |r| ==> r[i].id == cart[i].id
    ensures forall l :: l in r && l.id != id ==> l in cart
    ensures forall l :: l in r && l.id == id ==> l.quantity >= 1
    ensures Distinct(cart) ==> Distinct(r)
  {
    var r := seq(|cart|, i requires 0 <= i < |cart| =>
      if cart[i].id == id then cart[i].(quantity := Max(1, cart[i].quantity + delta)) else cart[i]);
    assert forall l :: l in r ==> exists i :: 0 <= i < |r| && r[i] == l;
    r
  }

  /** `updateCartQuantity`: the clamped edit followed by the filter that
      drops lines whose quantity is not positive. */
  function UpdateQuantity(cart: seq<LineItem>, id: ProductId, delta: int): (r: seq<LineItem>)
    ensures AllPositive(r)
    ensures forall l :: l in r && l.id != id ==> l in cart
    ensures AllPositive(cart) ==> r == Clamp(cart, id, delta)
    ensures Distinct(cart) ==> Distinct(r)
  {
    var clamped := Clamp(cart, id, delta);
    FilterDistinct(clamped, InStock);
    FilterMembers(clamped, InStock);
    assert AllPositive(cart) ==> AllPositive(clamped);
    Filter(clamped, InStock)
  }

  /** With positive quantities the edit keeps every line in place: the
      target lines get `max(1, quantity + delta)`, the others are untouched,
      and no line is dropped. */
  lemma UpdateQuantityInPlace(cart: seq<LineItem>, id: ProductId, delta: int)
    requires AllPositive(cart)
    ensures var r := UpdateQuantity(cart, id, delta);
      && |r| == |cart|
      && (forall i :: 0 <= i < |r| && cart[i].id != id ==> r[i] == cart[i])
      && (forall i :: 0 <= i < |r| && cart[i].id == id ==>
            r[i] == cart[i].(quantity := Max(1, cart[i].quantity + delta)))
      && (forall other :: HasLine(r, other) <==> HasLine(cart, other))
  {
    var r := UpdateQuantity(cart, id, delta);
    assert r == Clamp(cart, id, delta);
  }

  /** A line already at quantity one stays at one under decrements: the
      edit never removes a line. */
  lemma UpdateHoldsAtFloor(cart: seq<LineItem>, id: ProductId, delta: int, k: int)
    requires AllPositive(cart) && Distinct(cart)
    requires 0 <= k < |cart| && cart[k].id == id && cart[k].quantity == 1 && delta <= 0
    ensures UpdateQuantity(cart, id, delta) == cart
  {
    UpdateQuantityAt(cart, id, delta, k);
    assert cart[k := cart[k]] == cart;
  }

  /** On a cart with distinct ids and positive quantities, editing the
      line at `k` is a point update of that line. */
  lemma UpdateQuantityAt(cart: seq<LineItem>, id: ProductId, delta: int, k: int)
    requires AllPositive(cart) && Distinct(cart)
    requires 0 <= k < |cart| && cart[k].id == id
    ensures UpdateQuantity(cart, id, delta) == cart[k := cart[k].(quantity := Max(1, cart[k].quantity + delta))]
  {
    var line := cart[k].(quantity := Max(1, cart[k].quantity + delta));
    var r := UpdateQuantity(cart, id, delta);
    UpdateQuantityInPlace(cart, id, delta);
    forall i | 0 <= i < |cart| ensures r[i] == cart[k := line][i] {
      if cart[i].id == id { assert i == k; }
    }
  }

  /** Editing a non-gift line changes the subtotal by the line's price times
      the change of its quantity. */
  lemma UpdateQuantitySubtotal(cart: seq<LineItem>, id: ProductId, delta: int, k: int, giftId: ProductId)
    requires AllPositive(cart) && Distinct(cart)
    requires 0 <= k < |cart| && cart[k].id == id && id != giftId
    ensures Subtotal(UpdateQuantity(cart, id, delta), giftId) + cart[k].price * cart[k].quantity
         == Subtotal(cart, giftId) + cart[k].price * Max(1, cart[k].quantity + delta)
  {
    UpdatedSubtotalAt(cart, id, delta, k, giftId);
    SubtotalRequantify(cart, k, Max(1, cart[k].quantity + delta), giftId);
  }

  /** The subtotal after an edit at `k` is that of the point update. */
  lemma UpdatedSubtotalAt(cart: seq<LineItem>, id: ProductId, delta: int, k: int, giftId: ProductId)
    requires AllPositive(cart) && Distinct(cart)
    requires 0 <= k < |cart| && cart[k].id == id
    ensures Subtotal(UpdateQuantity(cart, id, delta), giftId)
         == Subtotal(cart[k := cart[k].(quantity := Max(1, cart[k].quantity + delta))], giftId)
  {
    UpdateQuantityAt(cart, id, delta, k);
  }

  /** The quantity edit does not protect the gift: applied to the gift's id
      it moves the gift line's quantity away from one. */
  lemma UpdateQuantityReachesGift(gift: Product)
    ensures UpdateQuantity([GiftLine(gift)], gift.id, 1) == [GiftLine(gift).(quantity := 2)]
  {
    var clamped := Clamp([GiftLine(gift)], gift.id, 1);
    assert clamped == [GiftLine(gift).(quantity := 2)];
  }

  /** `removeFromCart`: the gift cannot be removed; any other id has its
      lines filtered out. */
  function RemoveLine(cart: seq<LineItem>, id: ProductId, giftId: ProductId): (r: seq<LineItem>)
    ensures id == giftId ==> r == cart
    ensures !HasLine(cart, id) ==> r == cart
    ensures id != giftId ==> !HasLine(r, id)
    ensures forall l :: l in r <==> l in cart && (id == giftId || l.id != id)
    ensures forall other :: other != id ==> (HasLine(r, other) <==> HasLine(cart, other))
    ensures Distinct(cart) ==> Distinct(r)
  {
    if id == giftId then cart
    else
      WithoutIdMembers(cart, id);
      WithoutId(cart, id)
  }

  /** Removing the product at position `k` keeps every other line in order. */
  lemma RemoveLineAt(cart: seq<LineItem>, k: int, giftId: ProductId)
    requires Distinct(cart) && 0 <= k < |cart| && cart[k].id != giftId
    ensures RemoveLine(cart, cart[k].id, giftId) == cart[..k] + cart[k + 1..]
  {
    WithoutIdAt(cart, k);
  }

  /** In a cart with distinct ids, filtering out the id of the line at `k`
      removes exactly that line and keeps the others in order. */
  lemma WithoutIdAt(cart: seq<LineItem>, k: int)
    requires Distinct(cart) && 0 <= k < |cart|
    ensures WithoutId(cart, cart[k].id) == cart[..k] + cart[k + 1..]
  {
    var id := cart[k].id;
    var before, after := cart[..k], cart[k + 1..];
    assert cart == before + [cart[k]] + after;
    FilterAppend(before + [cart[k]], after, OtherThan(id));
    FilterAppend(before, [cart[k]], OtherThan(id));
    assert !HasLine(before, id) by {
      forall i | 0 <= i < |before| ensures before[i].id != id { assert before[i] == cart[i]; }
    }
    assert !HasLine(after, id) by {
      forall i | 0 <= i < |after| ensures after[i].id != id { assert after[i] == cart[k + 1 + i]; }
    }
    assert WithoutId([cart[k]], id) == [];
  }

  /** Withdrawing the gift from a cart with distinct ids takes out just the
      gift line and keeps the other lines in order. */
  lemma ReconcileRemovesAt(cart: seq<LineItem>, message: string, config: Config, k: int)
    requires Distinct(cart) && 0 <= k < |cart| && cart[k].id == config.gift.id
    requires Subtotal(cart, config.gift.id) < config.threshold
    ensures ReconcileGift(cart, message, config) == GiftState(cart[..k] + cart[k + 1..], "")
  {
    WithoutIdAt(cart, k);
  }
}
