/** The user-facing order endpoints (EcommerceBe/Controllers/OrderController.cs):
    who may read an order and when a user may cancel one. */
module OrderController {
  import opened Common
  import opened OrderService

  /** The HTTP outcomes the two actions choose between. */
  datatype Reply<T> = Success(body: T) | Forbid | BadRequest(error: string)

  /** A reply together with the orders table it leaves behind. */
  datatype CancelResult = CancelResult(reply: Reply<string>, orders: map<Guid, Order>)

  /** CheckOrderBelongsToUserAsync. */
  predicate Owns(orders: map<Guid, Order>, orderId: Guid, userId: Guid)
  {
    orderId in orders && orders[orderId].userId == userId
  }

  /** GetOrder: the order for its owner, Forbid for anybody else. */
  function GetOrder(orders: map<Guid, Order>, orderId: Guid, userId: Guid): (r: Reply<Order>)
    ensures r.Success? <==> Owns(orders, orderId, userId)
    ensures r.Success? ==> r.body == orders[orderId] && r.body.userId == userId
    ensures !r.Success? ==> r == Forbid
  {
    if !Owns(orders, orderId, userId) then Forbid else Success(orders[orderId])
  }

  /** The status test of CancelUserOrder as the code writes it: an exact,
      case-sensitive comparison with "pending" and "confirmed". */
  predicate CancellableAsWritten(status: string)
  {
    status == "pending" || status == "confirmed"
  }

  /** The intended status test: the status names compared without regard to
      case, the way every other screen of the shop reads them. */
  predicate Cancellable(status: string)
  {
    Lower(status) == "pending" || Lower(status) == "confirmed"
  }

  /** CancelUserOrder with a given status test: Forbid for a non-owner, a
      BadRequest for a status the test refuses, otherwise CancelOrderAsync
      marks the order "Cancelled". */
  function CancelWith(orders: map<Guid, Order>, orderId: Guid, userId: Guid, asWritten: bool): CancelResult
  {
    if !Owns(orders, orderId, userId) then CancelResult(Forbid, orders)
    else
      var status := orders[orderId].status;
      if !(if asWritten then CancellableAsWritten(status) else Cancellable(status))
      then CancelResult(BadRequest("Cannot cancel order in current status"), orders)
      else CancelResult(Success("Order cancelled successfully"), orders[orderId := orders[orderId].(status := CancelledStatus)])
  }

  /** CancelUserOrder exactly as written. */
  function CancelUserOrderAsWritten(orders: map<Guid, Order>, orderId: Guid, userId: Guid): (r: CancelResult)
    ensures r.reply.Success? <==> Owns(orders, orderId, userId) && CancellableAsWritten(orders[orderId].status)
    ensures !r.reply.Success? ==> r.orders == orders
  {
    CancelWith(orders, orderId, userId, true)
  }

  /** CancelUserOrder with the status compared case-insensitively. */
  function CancelUserOrder(orders: map<Guid, Order>, orderId: Guid, userId: Guid): (r: CancelResult)
    ensures r.reply.Success? <==> Owns(orders, orderId, userId) && Cancellable(orders[orderId].status)
    ensures !Owns(orders, orderId, userId) ==> r.reply == Forbid
    ensures !r.reply.Success? ==> r.orders == orders
    ensures r.reply.Success? ==>
      && r.orders.Keys == orders.Keys
      && r.orders[orderId] == orders[orderId].(status := CancelledStatus)
      && (forall id :: id in orders && id != orderId ==> r.orders[id] == orders[id])
  {
    CancelWith(orders, orderId, userId, false)
  }

  lemma LowerPending()
    ensures Lower("Pending") == "pending"
  {
    assert "Pending"[1..] == "ending";
    assert "ending"[1..] == "nding";
    assert "nding"[1..] == "ding";
    assert "ding"[1..] == "ing";
    assert "ing"[1..] == "ng";
    assert "ng"[1..] == "g";
    assert "g"[1..] == "";
  }

  /** As written, the owner of an order that CreateOrderAsync just placed
      (status "Pending") is refused: the cancel endpoint answers BadRequest
      and the order is not cancelled. */
  lemma AsWrittenRefusesNewOrder(orders: map<Guid, Order>, orderId: Guid, userId: Guid)
    requires Owns(orders, orderId, userId) && orders[orderId].status == PendingStatus
    ensures CancelUserOrderAsWritten(orders, orderId, userId).reply == BadRequest("Cannot cancel order in current status")
    ensures CancelUserOrderAsWritten(orders, orderId, userId).orders == orders
  {
  }

  /** With the status compared case-insensitively, the owner can cancel an
      order that is still "Pending", and it ends "Cancelled". */
  lemma CancelNewOrder(orders: map<Guid, Order>, orderId: Guid, userId: Guid)
    requires Owns(orders, orderId, userId) && orders[orderId].status == PendingStatus
    ensures CancelUserOrder(orders, orderId, userId).reply.Success?
    ensures CancelUserOrder(orders, orderId, userId).orders[orderId].status == CancelledStatus
  {
    LowerPending();
  }

  /** A cancelled order cannot be cancelled again. */
  lemma CancelledStaysCancelled(orders: map<Guid, Order>, orderId: Guid, userId: Guid)
    requires Owns(orders, orderId, userId) && orders[orderId].status == CancelledStatus
    ensures CancelUserOrder(orders, orderId, userId).reply.BadRequest?
  {
    assert Lower(CancelledStatus)[0] == 'c';
    assert Lower(CancelledStatus)[1] == 'a';
  }
}
