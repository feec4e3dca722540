/** The static configuration the shopping cart is built from: the list of
    purchasable products, the free gift and the subtotal threshold. In the
    application these come from a data file that is not part of this model,
    so they are parameters here, constrained only by the assumptions the
    cart logic relies on. */
module Catalog {

  /** Product identifiers are only ever compared for equality. */
  type ProductId = int

  /** A catalog entry; prices are non-negative whole amounts. */
  datatype Product = Product(id: ProductId, name: string, price: nat)

  /** The externally supplied configuration: catalog, gift and threshold. */
  datatype Config = Config(catalog: seq<Product>, gift: Product, threshold: nat)

  /** The ids of all catalog products. */
  function CatalogIds(catalog: seq<Product>): set<ProductId>
  {
    set i | 0 <= i < |catalog| :: catalog[i].id
  }

  /** The gift is never one of the purchasable products. */
  predicate ValidConfig(config: Config)
  {
    config.gift.id !in CatalogIds(config.catalog)
  }
}
