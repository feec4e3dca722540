/** The shopping-cart component: three state cells (the selector counts, the
    cart and the gift message) replaced by the event handlers, and the
    gift effect that re-runs whenever the cart has been replaced. Each
    handler is one synchronous step; a handler that replaces the cart ends
    by running the gift effect, so every state observable between handlers
    is settled. */
module Shop {
  import opened Catalog
  import opened Selector
  import opened CartEngine

  class App {
    const config: Config
    var quantities: map<ProductId, int>
    var cart: seq<LineItem>
    var giftMessage: string

    /** The state between two handlers: one non-negative count per catalog
        product and a settled cart. */
    ghost predicate Valid()
      reads this
    {
      && ValidConfig(config)
      && quantities.Keys == CatalogIds(config.catalog)
      && NonNegative(quantities)
      && Settled(cart, giftMessage, config)
    }

    /** Mounting the component: every count at zero, an empty cart, no
        message, and one run of the gift effect (which grants the gift at
        once when the threshold is zero). */
    constructor (config: Config)
      requires ValidConfig(config)
      ensures Valid()
      ensures this.config == config
      ensures quantities == InitialQuantities(config.catalog)
      ensures GiftState(cart, giftMessage) == ReconcileGift([], "", config)
    {
      this.config := config;
      quantities := InitialQuantities(config.catalog);
      cart := [];
      giftMessage := "";
      new;
      RunGiftEffect();
    }

    /** The effect keyed on the cart: grant or withdraw the gift according
        to the subtotal. */
    method RunGiftEffect()
      requires Distinct(cart) && AllPositive(cart) && GiftLinesExact(cart, config.gift)
      requires MessageTracksGift(cart, giftMessage, config.gift)
      modifies this
      ensures GiftState(cart, giftMessage) == ReconcileGift(old(cart), old(giftMessage), config)
      ensures Settled(cart, giftMessage, config)
      ensures quantities == old(quantities)
    {
      ReconcileSettles(cart, giftMessage, config);
      var gift := config.gift;
      var subtotal := Subtotal(cart, gift.id);
      var hasFreeGift := HasLine(cart, gift.id);
      if subtotal >= config.threshold && !hasFreeGift {
        cart := cart + [GiftLine(gift)];
        giftMessage := Congratulations;
      } else if subtotal < config.threshold && hasFreeGift {
        cart := WithoutId(cart, gift.id);
        giftMessage := "";
      }
    }

    /** `handleQuantityChange`: only the selector changes. The cart is not
        replaced, so the gift effect does not run. */
    method HandleQuantityChange(id: ProductId, delta: int)
      requires Valid() && id in quantities
      modifies this
      ensures Valid()
      ensures quantities == AdjustQuantity(old(quantities), id, delta)
      ensures cart == old(cart) && giftMessage == old(giftMessage)
    {
      quantities := AdjustQuantity(quantities, id, delta);
    }

    /** `addToCart`: a zero count changes nothing; otherwise the count is
        merged into or appended to the cart, the selector is reset and the
        gift effect runs. */
    method AddToCart(product: Product)
      requires Valid() && product in config.catalog
      modifies this
      ensures Valid()
      ensures old(quantities)[product.id] == 0 ==>
        quantities == old(quantities) && cart == old(cart) && giftMessage == old(giftMessage)
      ensures old(quantities)[product.id] != 0 ==>
        && quantities == ResetQuantity(old(quantities), product.id)
        && GiftState(cart, giftMessage)
           == ReconcileGift(AddLine(old(cart), product, old(quantities)[product.id]), old(giftMessage), config)
    {
      ghost var k :| 0 <= k < |config.catalog| && config.catalog[k] == product;
      assert product.id in CatalogIds(config.catalog);
      var quantity := quantities[product.id];
      if quantity == 0 {
        return;
      }
      cart := AddLine(cart, product, quantity);
      quantities := ResetQuantity(quantities, product.id);
      RunGiftEffect();
    }

    /** `updateCartQuantity`, restricted to the lines the cart controls are
        shown for: the gift line has none. */
    method UpdateCartQuantity(id: ProductId, delta: int)
      requires Valid() && id != config.gift.id
      modifies this
      ensures Valid()
      ensures quantities == old(quantities)
      ensures GiftState(cart, giftMessage)
           == ReconcileGift(UpdateQuantity(old(cart), id, delta), old(giftMessage), config)
    {
      UpdateQuantityInPlace(cart, id, delta);
      cart := UpdateQuantity(cart, id, delta);
      RunGiftEffect();
    }

    /** `removeFromCart`: the gift id is refused without touching the cart;
        any other id is filtered out and the gift effect runs. */
    method RemoveFromCart(id: ProductId)
      requires Valid()
      modifies this
      ensures Valid()
      ensures quantities == old(quantities)
      ensures id == config.gift.id ==> cart == old(cart) && giftMessage == old(giftMessage)
      ensures GiftState(cart, giftMessage)
           == ReconcileGift(RemoveLine(old(cart), id, config.gift.id), old(giftMessage), config)
    {
      if id == config.gift.id {
        return;
      }
      WithoutIdMembers(cart, id);
      cart := WithoutId(cart, id);
      RunGiftEffect();
    }
  }

  /** The demonstration configuration: one product priced 300, a gift and
      a threshold of 500. */
  function DemoConfig(): Config
  {
    Config([Product(1, "Headphones", 300)], Product(0, "Wireless Mouse", 999), 500)
  }

  /** A client run with a threshold of 500, starting from an empty cart
      (no gift): three presses of "+" and one of "-" select two units. */
  method SelectScenario() returns (app: App)
    ensures fresh(app) && app.Valid() && app.config == DemoConfig()
    ensures app.cart == [] && app.giftMessage == "" && 1 in app.quantities && app.quantities[1] == 2
  {
    app := new App(DemoConfig());
    assert app.cart == [] && app.giftMessage == "" by {
      assert Subtotal([], 0) == 0;
    }
    assert 1 in CatalogIds(DemoConfig().catalog);
    app.HandleQuantityChange(1, 1);
    app.HandleQuantityChange(1, 1);
    app.HandleQuantityChange(1, -1);
    app.HandleQuantityChange(1, 1);
  }

  /** Adding the two selected units, at 600, crosses the threshold: the
      gift and its message appear and the selector is back at zero. */
  method EarnGiftScenario() returns (app: App)
    ensures fresh(app) && app.Valid() && app.config == DemoConfig()
    ensures app.cart == [LineOf(Product(1, "Headphones", 300), 2), GiftLine(Product(0, "Wireless Mouse", 999))]
    ensures app.giftMessage == Congratulations && 1 in app.quantities && app.quantities[1] == 0
  {
    app := SelectScenario();
    var headphones := Product(1, "Headphones", 300);
    var line := LineOf(headphones, 2);
    var gift := GiftLine(Product(0, "Wireless Mouse", 999));
    app.AddToCart(headphones);
    assert app.cart == [line, gift] && app.giftMessage == Congratulations by {
      assert AddLine([], headphones, 2) == [line];
      SubtotalSingle(line, 0);
      assert !HasLine([line], 0);
      assert ReconcileGift([line], "", app.config) == GiftState([line] + [gift], Congratulations);
      assert [line] + [gift] == [line, gift];
    }
  }

  /** Continuing that run: removing the gift by hand is refused, and taking
      the headphones down to one unit (300, below the threshold) withdraws
      the gift and clears the message. */
  method LoseGiftScenario()
  {
    var app := EarnGiftScenario();
    var line := LineOf(Product(1, "Headphones", 300), 2);
    var mouse := Product(0, "Wireless Mouse", 999);
    var gift := GiftLine(mouse);

    app.RemoveFromCart(0);
    assert app.cart == [line, gift];

    var single := LineOf(Product(1, "Headphones", 300), 1);
    app.UpdateCartQuantity(1, -1);
    assert app.cart == [single] && app.giftMessage == "" by {
      assert single == line.(quantity := Max(1, line.quantity - 1));
      UpdateQuantityAt([line, gift], 1, -1, 0);
      assert UpdateQuantity([line, gift], 1, -1) == [single, gift];
      SubtotalIgnoresGift([single], mouse);
      SubtotalSingle(single, 0);
      assert [single] + [gift] == [single, gift];
      ReconcileRemovesAt([single, gift], Congratulations, app.config, 1);
    }
  }
}
