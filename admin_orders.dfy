/** The admin order screen (fontend/src/components/admin/AdminOrderManagement.tsx):
    status labels, the list filter and the one status-advance button each row offers. */
module AdminOrderManagement {
  import opened Common

  /** The fields of an order row the screen's logic reads. */
  datatype AdminOrder = AdminOrder(orderId: string, status: string, recipientName: string, userName: string)

  /** The lower-case status names the label switches know. */
  predicate KnownStatus(lower: string)
  {
    lower == "pending" || lower == "processing" || lower == "shipping" || lower == "delivered" || lower == "cancelled"
  }

  /** getStatusColor: the tag colour for a status, any letter case. */
  function StatusColor(status: string): (r: string)
    ensures !KnownStatus(Lower(status)) <==> r == "default"
  {
    var s := Lower(status);
    if s == "pending" then "orange"
    else if s == "processing" then "blue"
    else if s == "shipping" then "purple"
    else if s == "delivered" then "green"
    else if s == "cancelled" then "red"
    else "default"
  }

  /** getStatusText: the Vietnamese label for a known status, any letter
      case; an unknown status is shown as it is. */
  function StatusText(status: string): (r: string)
    ensures !KnownStatus(Lower(status)) ==> r == status
  {
    var s := Lower(status);
    if s == "pending" then "Chờ xử lý"
    else if s == "processing" then "Đang xử lý"
    else if s == "shipping" then "Đang giao"
    else if s == "delivered" then "Đã giao"
    else if s == "cancelled" then "Đã huỷ"
    else status
  }

  /** The labels of the five known statuses are pairwise different, so the
      label names the status. */
  lemma KnownLabelsDistinct(a: string, b: string)
    requires KnownStatus(Lower(a)) && KnownStatus(Lower(b))
    requires StatusText(a) == StatusText(b)
    ensures Lower(a) == Lower(b)
  {
  }

  /** The status the row's action button moves the order to. The buttons
      compare the status exactly, in its capitalised form. */
  function NextStatus(status: string): (r: Option<string>)
    ensures r.Some? <==> status == "Pending" || status == "Processing" || status == "Shipping"
  {
    if status == "Shipping" then Some("Delivered")
    else if status == "Processing" then Some("Shipping")
    else if status == "Pending" then Some("Processing")
    else None
  }

  /** The position of a status on the delivery path
      Pending, Processing, Shipping, Delivered. */
  function PathRank(status: string): int
  {
    if status == "Pending" then 0
    else if status == "Processing" then 1
    else if status == "Shipping" then 2
    else if status == "Delivered" then 3
    else -1
  }

  /** Every offered move goes exactly one step forward on the delivery path;
      nothing is offered for Delivered, Cancelled, or a status spelt in any
      other case. */
  lemma TransitionsMoveForward(status: string)
    ensures NextStatus(status).Some? ==> PathRank(NextStatus(status).value) == PathRank(status) + 1
    ensures status == "Delivered" || status == "Cancelled" || PathRank(status) == -1 ==> NextStatus(status).None?
  {
  }

  /** Following the buttons from Pending reaches Delivered after exactly
      three moves, and then no button is left. */
  lemma PendingReachesDelivered()
    ensures NextStatus("Pending") == Some("Processing")
    ensures NextStatus("Processing") == Some("Shipping")
    ensures NextStatus("Shipping") == Some("Delivered")
    ensures NextStatus("Delivered") == None
  {
  }

  /** The status part of the filter: 'all', or the same status in any case. */
  predicate MatchesStatus(o: AdminOrder, statusFilter: string)
  {
    statusFilter == "all" || Lower(o.status) == Lower(statusFilter)
  }

  /** The search part of the filter: empty, or found in the order id, the
      recipient or the user name, in any case. */
  predicate MatchesSearch(o: AdminOrder, searchText: string)
  {
    var needle := Lower(searchText);
    searchText == "" || Contains(Lower(o.orderId), needle) || Contains(Lower(o.recipientName), needle)
      || Contains(Lower(o.userName), needle)
  }

  /** filteredOrders. */
  function FilteredOrders(orders: seq<AdminOrder>, statusFilter: string, searchText: string): (r: seq<AdminOrder>)
    ensures |r| <= |orders|
  {
    if orders == [] then []
    else
      (if MatchesStatus(orders[0], statusFilter) && MatchesSearch(orders[0], searchText) then [orders[0]] else [])
      + FilteredOrders(orders[1..], statusFilter, searchText)
  }

  /** An order is listed exactly when it passes both tests. */
  lemma {:induction false} FilteredMembers(orders: seq<AdminOrder>, statusFilter: string, searchText: string)
    ensures forall o :: o in FilteredOrders(orders, statusFilter, searchText) <==>
      o in orders && MatchesStatus(o, statusFilter) && MatchesSearch(o, searchText)
  {
    if orders != [] {
      FilteredMembers(orders[1..], statusFilter, searchText);
      assert orders == [orders[0]] + orders[1..];
    }
  }

  /** With the default filter ('all' and no search text) every order is listed, in order. */
  lemma {:induction false} DefaultFilterKeepsAll(orders: seq<AdminOrder>)
    ensures FilteredOrders(orders, "all", "") == orders
  {
    if orders != [] {
      DefaultFilterKeepsAll(orders[1..]);
      assert orders == [orders[0]] + orders[1..];
    }
  }
}
