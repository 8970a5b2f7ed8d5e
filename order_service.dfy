/** Order placement (EcommerceBe/Services/OrderService.cs and the order
    repository it calls). Placing an order walks the requested lines in order;
    each line takes its quantity out of the variant's stock, and that change is
    saved at once, so a later line that fails leaves the earlier decrements in
    place. */
module OrderService {
  import opened Common
  import opened Inventory

  /** One requested line of an OrderCreateDto. */
  datatype OrderLine = OrderLine(variantId: Guid, quantity: int)

  /** An OrderItem row, with the unit price copied from the variant. */
  datatype OrderItem = OrderItem(itemId: Guid, variantId: Guid, productId: Guid, quantity: int, price: int)

  /** The fields of an Order row the rules read or write. */
  datatype Order = Order(orderId: Guid, userId: Guid, shopId: Guid, shippingAddressId: Guid,
                         paymentMethod: string, status: string, total: int, items: seq<OrderItem>)

  const PendingStatus: string := "Pending"
  /** OrderStatus.Cancelled.ToString(), as CancelOrderAsync writes it. */
  const CancelledStatus: string := "Cancelled"

  /** Where the loop of CreateOrderAsync stands: the variants as saved so far,
      the order items built, the running total, and the exception if one was thrown. */
  datatype Placing = Placing(vs: map<Guid, Variant>, items: seq<OrderItem>, total: int, error: Option<string>)

  /** One turn of the loop for a line; nothing happens once an exception was thrown. */
  function PlaceStep(s: Placing, line: OrderLine, id: Guid): Placing
  {
    if s.error.Some? then s
    else if line.variantId !in s.vs then s.(error := Some("Product variant not found"))
    else
      var variant := s.vs[line.variantId];
      if variant.stock < line.quantity then s.(error := Some("Not enough stock for one product"))
      else Placing(MoveStock(s.vs, line.variantId, -line.quantity),
                   s.items + [OrderItem(id, line.variantId, variant.productId, line.quantity, variant.price)],
                   s.total + Cost(variant.price, line.quantity), None)
  }

  /** The loop run over the lines, with the fresh OrderItemIds it draws. */
  function Place(vs: map<Guid, Variant>, lines: seq<OrderLine>, ids: seq<Guid>): Placing
    requires |ids| == |lines|
  {
    if lines == [] then Placing(vs, [], 0, None)
    else PlaceStep(Place(vs, lines[..|lines| - 1], ids[..|lines| - 1]), lines[|lines| - 1], ids[|lines| - 1])
  }

  /** The loop's state after k + 1 lines is one step from its state after k. */
  lemma PlaceExtend(vs: map<Guid, Variant>, lines: seq<OrderLine>, ids: seq<Guid>, k: nat)
    requires |ids| == |lines| && k < |lines|
    ensures Place(vs, lines[..k + 1], ids[..k + 1]) == PlaceStep(Place(vs, lines[..k], ids[..k]), lines[k], ids[k])
  {
    assert lines[..k + 1][..k] == lines[..k] && ids[..k + 1][..k] == ids[..k];
  }

  /** The units of variant v the lines ask for. */
  function Ordered(lines: seq<OrderLine>, v: Guid): int
  {
    if lines == [] then 0
    else Ordered(lines[..|lines| - 1], v) + (if lines[|lines| - 1].variantId == v then lines[|lines| - 1].quantity else 0)
  }

  /** The sum over order items of unit price times quantity. */
  function ItemsTotal(items: seq<OrderItem>): int
  {
    if items == [] then 0
    else ItemsTotal(items[..|items| - 1]) + Cost(items[|items| - 1].price, items[|items| - 1].quantity)
  }

  /** An order that places without error: one item per line, in line order,
      each with the variant's product and price; the total is the sum of
      price times quantity; and each variant's stock drops by exactly the
      units ordered of it. */
  lemma {:induction false} PlaceSucceeds(vs: map<Guid, Variant>, lines: seq<OrderLine>, ids: seq<Guid>)
    requires |ids| == |lines|
    requires Place(vs, lines, ids).error.None?
    ensures var p := Place(vs, lines, ids);
      && p.vs.Keys == vs.Keys
      && |p.items| == |lines|
      && (forall i :: 0 <= i < |lines| ==>
            (lines[i].variantId in vs && p.items[i] ==
             OrderItem(ids[i], lines[i].variantId, vs[lines[i].variantId].productId, lines[i].quantity, vs[lines[i].variantId].price)))
      && p.total == ItemsTotal(p.items)
      && (forall v :: v in vs ==> p.vs[v] == vs[v].(stock := vs[v].stock - Ordered(lines, v)))
  {
    if lines != [] {
      var n := |lines| - 1;
      var prev := Place(vs, lines[..n], ids[..n]);
      assert prev.error.None?;
      PlaceSucceeds(vs, lines[..n], ids[..n]);
      var p := Place(vs, lines, ids);
      assert p.items == prev.items + [p.items[n]];
      assert p.items[..n] == prev.items;
      forall i | 0 <= i < n
        ensures lines[i].variantId in vs && p.items[i] ==
          OrderItem(ids[i], lines[i].variantId, vs[lines[i].variantId].productId, lines[i].quantity, vs[lines[i].variantId].price)
      {
        assert lines[..n][i] == lines[i] && ids[..n][i] == ids[i];
      }
      assert lines[..n] == lines[..|lines| - 1];
    }
  }

  /** Once an exception is thrown, the remaining lines change nothing. */
  lemma {:induction false} PlaceErrorSticks(vs: map<Guid, Variant>, lines: seq<OrderLine>, ids: seq<Guid>, k: nat)
    requires |ids| == |lines| && k <= |lines|
    requires Place(vs, lines[..k], ids[..k]).error.Some?
    ensures Place(vs, lines, ids) == Place(vs, lines[..k], ids[..k])
    decreases |lines|
  {
    if k < |lines| {
      var n := |lines| - 1;
      assert lines[..n][..k] == lines[..k] && ids[..n][..k] == ids[..k];
      PlaceErrorSticks(vs, lines[..n], ids[..n], k);
    } else {
      assert lines[..k] == lines && ids[..k] == ids;
    }
  }

  /** When line k is the first to fail, the stock keeps the decrements of
      lines 0 .. k-1: nothing is rolled back. */
  lemma PlaceFailureKeepsEarlierDecrements(vs: map<Guid, Variant>, lines: seq<OrderLine>, ids: seq<Guid>, k: nat)
    requires |ids| == |lines| && k < |lines|
    requires Place(vs, lines[..k], ids[..k]).error.None?
    requires Place(vs, lines[..k + 1], ids[..k + 1]).error.Some?
    ensures Place(vs, lines, ids).error.Some?
    ensures forall v :: v in vs ==>
      (v in Place(vs, lines, ids).vs && Place(vs, lines, ids).vs[v].stock == vs[v].stock - Ordered(lines[..k], v))
  {
    PlaceErrorSticks(vs, lines, ids, k + 1);
    assert lines[..k + 1][..k] == lines[..k] && ids[..k + 1][..k] == ids[..k];
    PlaceSucceeds(vs, lines[..k], ids[..k]);
  }

  /** A line whose variant exists with enough stock is taken. */
  lemma PlaceStepTakes(s: Placing, line: OrderLine, id: Guid)
    requires s.error.None? && line.variantId in s.vs && s.vs[line.variantId].stock >= line.quantity
    ensures var variant := s.vs[line.variantId];
      PlaceStep(s, line, id) == Placing(MoveStock(s.vs, line.variantId, -line.quantity),
        s.items + [OrderItem(id, line.variantId, variant.productId, line.quantity, variant.price)],
        s.total + Cost(variant.price, line.quantity), None)
  {
  }

  /** Taking at most the available units out of a variant keeps every stock
      level non-negative. */
  lemma TakeKeepsNonNegative(vs: map<Guid, Variant>, v: Guid, q: int)
    requires NoNegativeStock(vs) && v in vs && vs[v].stock >= q
    ensures NoNegativeStock(MoveStock(vs, v, -q))
  {
  }

  /** The orders table beside the shared variant store. */
  class OrderService {
    const store: VariantStore
    var orders: map<Guid, Order>

    /** Stock is never negative and each order is stored under its own id. */
    ghost predicate Valid()
      reads this, store
    {
      && NoNegativeStock(store.variants)
      && (forall id :: id in orders ==> orders[id].orderId == id)
    }

    constructor (s: VariantStore)
      requires NoNegativeStock(s.variants)
      ensures Valid() && store == s && orders == map[]
      ensures s.variants == old(s.variants)
    {
      store := s;
      orders := map[];
    }

    /** CreateOrderAsync: itemIds and orderId stand for the Guid.NewGuid()
        values the loop and the order draw. */
    method CreateOrder(userId: Guid, shopId: Guid, shippingAddressId: Guid, paymentMethod: string,
                       lines: seq<OrderLine>, itemIds: seq<Guid>, orderId: Guid) returns (r: Outcome<Guid>)
      requires Valid()
      requires |itemIds| == |lines| && orderId !in orders
      modifies this, store
      ensures Valid()
      ensures store.variants == Place(old(store.variants), lines, itemIds).vs
      ensures r.Ok? <==> Place(old(store.variants), lines, itemIds).error.None?
      ensures r.Ok? ==> var p := Place(old(store.variants), lines, itemIds);
        r.value == orderId && orders == old(orders)[orderId :=
          Order(orderId, userId, shopId, shippingAddressId, paymentMethod, PendingStatus, p.total, p.items)]
      ensures r.Err? ==> orders == old(orders) && Place(old(store.variants), lines, itemIds).error == Some(r.message)
    {
      var totalAmount := 0;
      var orderItems := [];
      ghost var start := store.variants;
      var k := 0;
      while k < |lines|
        invariant 0 <= k <= |lines|
        invariant Place(start, lines[..k], itemIds[..k]) == Placing(store.variants, orderItems, totalAmount, None)
        invariant NoNegativeStock(store.variants)
        invariant orders == old(orders)
      {
        var line := lines[k];
        PlaceExtend(start, lines, itemIds, k);
        if line.variantId !in store.variants {
          PlaceErrorSticks(start, lines, itemIds, k + 1);
          return Err("Product variant not found");
        }
        var variant := store.variants[line.variantId];
        if variant.stock < line.quantity {
          PlaceErrorSticks(start, lines, itemIds, k + 1);
          return Err("Not enough stock for one product");
        }
        PlaceStepTakes(Placing(store.variants, orderItems, totalAmount, None), line, itemIds[k]);
        TakeKeepsNonNegative(store.variants, line.variantId, line.quantity);
        store.variants := MoveStock(store.variants, line.variantId, -line.quantity);
        orderItems := orderItems + [OrderItem(itemIds[k], line.variantId, variant.productId, line.quantity, variant.price)];
        totalAmount := totalAmount + Cost(variant.price, line.quantity);
        k := k + 1;
      }
      assert lines[..k] == lines && itemIds[..k] == itemIds;
      orders := orders[orderId := Order(orderId, userId, shopId, shippingAddressId, paymentMethod, PendingStatus, totalAmount, orderItems)];
      r := Ok(orderId);
    }

    /** UpdateOrderStatusAsync: set exactly the given status. */
    method UpdateOrderStatus(orderId: Guid, status: string) returns (r: Outcome<()>)
      requires Valid()
      modifies this
      ensures Valid()
      ensures r.Ok? <==> orderId in old(orders)
      ensures r.Ok? ==> orders == old(orders)[orderId := old(orders)[orderId].(status := status)]
      ensures r.Err? ==> orders == old(orders) && r.message == "Order not found"
    {
      if orderId !in orders {
        return Err("Order not found");
      }
      orders := orders[orderId := orders[orderId].(status := status)];
      r := Ok(());
    }

    /** CancelOrderAsync (through the repository): the status becomes
        "Cancelled"; the reason is not stored. */
    method CancelOrder(orderId: Guid, reason: string) returns (r: Outcome<()>)
      requires Valid()
      modifies this
      ensures Valid()
      ensures r.Ok? <==> orderId in old(orders)
      ensures r.Ok? ==> orders == old(orders)[orderId := old(orders)[orderId].(status := CancelledStatus)]
      ensures r.Err? ==> orders == old(orders) && r.message == "Order not found"
    {
      r := UpdateOrderStatus(orderId, CancelledStatus);
    }

    /** CheckOrderBelongsToUserAsync. */
    function BelongsTo(orderId: Guid, userId: Guid): bool
      reads this
    {
      orderId in orders && orders[orderId].userId == userId
    }
  }
}
