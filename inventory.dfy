/** The ProductVariants table as the stock rules see it: each variant's
    stock level and current unit price. The cart and order services share
    one store, as they share one database. */
module Inventory {
  import opened Common

  /** The fields of a ProductVariant row that stock bookkeeping reads or writes. */
  datatype Variant = Variant(productId: Guid, stock: int, price: int)

  /** The variant rows, keyed by ProductVariantId. */
  class VariantStore {
    var variants: map<Guid, Variant>

    constructor (initial: map<Guid, Variant>)
      ensures variants == initial
    {
      variants := initial;
    }
  }

  /** No variant has a negative stock level. */
  predicate NoNegativeStock(vs: map<Guid, Variant>)
  {
    forall v :: v in vs ==> vs[v].stock >= 0
  }

  /** The stock level of a variant, 0 for an unknown one. */
  function StockOf(vs: map<Guid, Variant>, v: Guid): int
  {
    if v in vs then vs[v].stock else 0
  }

  /** The store with the stock of variant v moved by delta and nothing else changed. */
  function MoveStock(vs: map<Guid, Variant>, v: Guid, delta: int): (r: map<Guid, Variant>)
    requires v in vs
    ensures r.Keys == vs.Keys
    ensures r[v] == vs[v].(stock := vs[v].stock + delta)
    ensures forall w :: w in vs && w != v ==> r[w] == vs[w]
  {
    vs[v := vs[v].(stock := vs[v].stock + delta)]
  }
}
