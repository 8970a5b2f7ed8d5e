/** The seller's product list (fontend/src/pages/seller/ProductSeller.tsx):
    the chain of filters over the products, the total stock of a product and
    its price range. */
module ProductSeller {
  import opened Common

  datatype Variant = Variant(id: string, name: string, price: int, stock: int, sku: string)

  datatype Product = Product(id: string, name: string, image: string, variants: seq<Variant>, category: string,
                             status: string, totalSold: int)

  /** The four filter inputs; "" means the filter is off. */
  datatype Filters = Filters(search: string, status: string, category: string, stockStatus: string)

  /** Array.prototype.filter. */
  function Filter(ps: seq<Product>, keep: Product -> bool): (r: seq<Product>)
    ensures |r| <= |ps|
  {
    if ps == [] then [] else (if keep(ps[0]) then [ps[0]] else []) + Filter(ps[1..], keep)
  }

  /** The filter keeps exactly the products that pass. */
  lemma {:induction false} FilterMembers(ps: seq<Product>, keep: Product -> bool)
    ensures forall p :: p in Filter(ps, keep) <==> p in ps && keep(p)
  {
    if ps != [] {
      FilterMembers(ps[1..], keep);
      assert ps == [ps[0]] + ps[1..];
    }
  }

  /** Filtering keeps the order: the kept products of a concatenation are the
      kept products of each part, in turn. */
  lemma {:induction false} FilterAppend(a: seq<Product>, b: seq<Product>, keep: Product -> bool)
    ensures Filter(a + b, keep) == Filter(a, keep) + Filter(b, keep)
  {
    if a != [] {
      FilterAppend(a[1..], b, keep);
      assert (a + b)[1..] == a[1..] + b;
      assert Filter(a + b, keep) == (if keep(a[0]) then [a[0]] else []) + Filter(a[1..] + b, keep);
    } else {
      assert a + b == b;
    }
  }

  /** A filter everything passes changes nothing. */
  lemma {:induction false} FilterAll(ps: seq<Product>, keep: Product -> bool)
    requires forall p :: p in ps ==> keep(p)
    ensures Filter(ps, keep) == ps
  {
    if ps != [] {
      FilterAll(ps[1..], keep);
      assert forall p :: p in ps[1..] ==> p in ps;
    }
  }

  /** `variants.some(v => v.stock > 0)`. */
  predicate InStock(p: Product)
  {
    exists v | v in p.variants :: v.stock > 0
  }

  /** `variants.every(v => v.stock === 0)`. */
  predicate OutOfStock(p: Product)
  {
    forall v | v in p.variants :: v.stock == 0
  }

  function SearchTest(search: string): Product -> bool
  {
    (p: Product) => Contains(Lower(p.name), Lower(search))
  }

  function StatusTest(status: string): Product -> bool
  {
    (p: Product) => p.status == status
  }

  function CategoryTest(category: string): Product -> bool
  {
    (p: Product) => p.category == category
  }

  /** The in_stock test, or the out_of_stock one for any other value. */
  function StockTest(stockStatus: string): Product -> bool
  {
    if stockStatus == "in_stock" then (p: Product) => InStock(p) else (p: Product) => OutOfStock(p)
  }

  /** One `if (...) filtered = filtered.filter(...)` step. */
  function Stage(ps: seq<Product>, on: bool, keep: Product -> bool): seq<Product>
  {
    if on then Filter(ps, keep) else ps
  }

  /** filteredProducts: each filter that is set narrows the list in turn; a
      stock status other than the two known values filters nothing. */
  function FilteredProducts(products: seq<Product>, filters: Filters): seq<Product>
  {
    var bySearch := Stage(products, filters.search != "", SearchTest(filters.search));
    var byStatus := Stage(bySearch, filters.status != "", StatusTest(filters.status));
    var byCategory := Stage(byStatus, filters.category != "", CategoryTest(filters.category));
    Stage(byCategory, filters.stockStatus == "in_stock" || filters.stockStatus == "out_of_stock",
          StockTest(filters.stockStatus))
  }

  /** A step keeps a product exactly when it was there and passes the test,
      or the step is off. */
  lemma StageMembers(ps: seq<Product>, on: bool, keep: Product -> bool, p: Product)
    ensures p in Stage(ps, on, keep) <==> p in ps && (on ==> keep(p))
  {
    FilterMembers(ps, keep);
  }

  /** A product is listed exactly when it passes every filter that is set,
      and status and category must match exactly. */
  lemma FilteredMembers(products: seq<Product>, filters: Filters, p: Product)
    ensures p in FilteredProducts(products, filters) <==>
      && p in products
      && (filters.search != "" ==> Contains(Lower(p.name), Lower(filters.search)))
      && (filters.status != "" ==> p.status == filters.status)
      && (filters.category != "" ==> p.category == filters.category)
      && (filters.stockStatus == "in_stock" ==> InStock(p))
      && (filters.stockStatus == "out_of_stock" ==> OutOfStock(p))
  {
    var bySearch := Stage(products, filters.search != "", SearchTest(filters.search));
    var byStatus := Stage(bySearch, filters.status != "", StatusTest(filters.status));
    var byCategory := Stage(byStatus, filters.category != "", CategoryTest(filters.category));
    StageMembers(products, filters.search != "", SearchTest(filters.search), p);
    StageMembers(bySearch, filters.status != "", StatusTest(filters.status), p);
    StageMembers(byStatus, filters.category != "", CategoryTest(filters.category), p);
    StageMembers(byCategory, filters.stockStatus == "in_stock" || filters.stockStatus == "out_of_stock",
                 StockTest(filters.stockStatus), p);
  }

  /** With no filter set the whole list comes back in its order. */
  lemma NoFilterKeepsAll(products: seq<Product>, stockStatus: string)
    requires stockStatus != "in_stock" && stockStatus != "out_of_stock"
    ensures FilteredProducts(products, Filters("", "", "", stockStatus)) == products
  {
  }

  /** A step distributes over concatenation. */
  lemma StageAppend(a: seq<Product>, b: seq<Product>, on: bool, keep: Product -> bool)
    ensures Stage(a + b, on, keep) == Stage(a, on, keep) + Stage(b, on, keep)
  {
    if on {
      FilterAppend(a, b, keep);
    }
  }

  /** Filtering only removes products and keeps the order of the rest: the
      filtered list of a concatenation is the concatenation of the filtered
      lists. */
  lemma FilteredKeepsOrder(a: seq<Product>, b: seq<Product>, filters: Filters)
    ensures FilteredProducts(a + b, filters) == FilteredProducts(a, filters) + FilteredProducts(b, filters)
  {
    var on1, t1 := filters.search != "", SearchTest(filters.search);
    var on2, t2 := filters.status != "", StatusTest(filters.status);
    var on3, t3 := filters.category != "", CategoryTest(filters.category);
    var on4 := filters.stockStatus == "in_stock" || filters.stockStatus == "out_of_stock";
    var t4 := StockTest(filters.stockStatus);
    StageAppend(a, b, on1, t1);
    var a1, b1 := Stage(a, on1, t1), Stage(b, on1, t1);
    StageAppend(a1, b1, on2, t2);
    var a2, b2 := Stage(a1, on2, t2), Stage(b1, on2, t2);
    StageAppend(a2, b2, on3, t3);
    var a3, b3 := Stage(a2, on3, t3), Stage(b2, on3, t3);
    StageAppend(a3, b3, on4, t4);
  }

  /** When no stock is negative, every product is in exactly one of the two
      stock filters. */
  lemma StockFiltersPartition(p: Product)
    requires forall v | v in p.variants :: v.stock >= 0
    ensures InStock(p) <==> !OutOfStock(p)
  {
  }

  /** A negative stock puts a product in neither stock filter. */
  lemma NegativeStockInNeither()
    ensures var p := Product("p", "", "", [Variant("v", "", 0, -1, "")], "", "active", 0);
      !InStock(p) && !OutOfStock(p)
  {
    var p := Product("p", "", "", [Variant("v", "", 0, -1, "")], "", "active", 0);
    assert p.variants[0] in p.variants;
  }

  /** getTotalStock: variants.reduce((t, v) => t + v.stock, 0). */
  function TotalStock(variants: seq<Variant>): int
  {
    if variants == [] then 0 else TotalStock(variants[..|variants| - 1]) + variants[|variants| - 1].stock
  }

  /** The total of two lists of variants is the sum of their totals; with no
      negative stock the total is zero exactly when the product is out of
      stock. */
  lemma {:induction false} TotalStockAppend(a: seq<Variant>, b: seq<Variant>)
    ensures TotalStock(a + b) == TotalStock(a) + TotalStock(b)
    decreases |b|
  {
    if b != [] {
      TotalStockAppend(a, b[..|b| - 1]);
      assert (a + b)[..|a + b| - 1] == a + b[..|b| - 1];
    } else {
      assert a + b == a;
    }
  }

  /** With no negative stock, the total is never negative, it is zero exactly
      when every variant's stock is zero, and it bounds each stock. */
  lemma {:induction false} TotalStockZero(variants: seq<Variant>)
    requires forall v | v in variants :: v.stock >= 0
    ensures TotalStock(variants) >= 0
    ensures TotalStock(variants) == 0 <==> forall v | v in variants :: v.stock == 0
    ensures forall k :: 0 <= k < |variants| ==> variants[k].stock <= TotalStock(variants)
  {
    if variants != [] {
      var init := variants[..|variants| - 1];
      assert forall v | v in init :: v in variants;
      TotalStockZero(init);
      assert variants == init + [variants[|variants| - 1]];
      assert forall v | v in variants :: v in init || v == variants[|variants| - 1];
    }
  }

  /** The price range of a product. */
  datatype PriceRange = PriceRange(min: int, max: int)

  /** Math.min(...prices) and Math.max(...prices) of a non-empty list. */
  function MinMax(variants: seq<Variant>): (r: PriceRange)
    requires variants != []
    ensures r.min <= r.max
    ensures exists k :: 0 <= k < |variants| && variants[k].price == r.min
    ensures exists k :: 0 <= k < |variants| && variants[k].price == r.max
    ensures forall k :: 0 <= k < |variants| ==> r.min <= variants[k].price <= r.max
  {
    if |variants| == 1 then PriceRange(variants[0].price, variants[0].price)
    else
      var rest := MinMax(variants[1..]);
      assert forall k :: 1 <= k < |variants| ==> variants[k] == variants[1..][k - 1];
      var p := variants[0].price;
      PriceRange(if p < rest.min then p else rest.min, if p > rest.max then p else rest.max)
  }

  /** getPriceRange: {0, 0} for no variants, otherwise the least and the
      greatest variant price. */
  function GetPriceRange(variants: seq<Variant>): (r: PriceRange)
    ensures variants == [] ==> r == PriceRange(0, 0)
    ensures r.min <= r.max
    ensures variants != [] ==>
      (exists k :: 0 <= k < |variants| && variants[k].price == r.min) &&
      (exists k :: 0 <= k < |variants| && variants[k].price == r.max) &&
      (forall k :: 0 <= k < |variants| ==> r.min <= variants[k].price <= r.max)
  {
    if variants == [] then PriceRange(0, 0) else MinMax(variants)
  }
}
