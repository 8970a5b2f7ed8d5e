/** The client-side cart (fontend/src/redux/cartSlice.ts): a Redux slice whose
    reducers edit a list of cart lines in place and mirror it to local storage.
    A line is identified by its product, size and colour. */
module CartSlice {
  import opened Common

  /** The fields of a client CartItem the reducers and selectors read. */
  datatype ClientItem = ClientItem(productId: string, size: Option<string>, color: Option<string>, price: int, quantity: int)

  /** The identity the reducers match lines by. */
  datatype LineKey = LineKey(productId: string, size: Option<string>, color: Option<string>)

  datatype Status = Idle | Loading | Succeeded | Failed

  function KeyOf(it: ClientItem): LineKey
  {
    LineKey(it.productId, it.size, it.color)
  }

  /** The line with its quantity set to q. */
  function WithQuantity(it: ClientItem, q: int): ClientItem
  {
    ClientItem(it.productId, it.size, it.color, it.price, q)
  }

  /** The position of the first line with the key (`items.find`), or |items|. */
  function FindKey(items: seq<ClientItem>, k: LineKey): (i: nat)
    ensures i <= |items|
    ensures i < |items| ==> KeyOf(items[i]) == k
    ensures forall j :: 0 <= j < i ==> KeyOf(items[j]) != k
  {
    if items == [] then 0
    else if KeyOf(items[0]) == k then 0
    else 1 + FindKey(items[1..], k)
  }

  /** Line i is the first line with key k. */
  predicate FirstWithKey(items: seq<ClientItem>, k: LineKey, i: nat)
  {
    i < |items| && KeyOf(items[i]) == k && forall j :: 0 <= j < i ==> KeyOf(items[j]) != k
  }

  /** The lines whose key differs from k, in their order (`items.filter`). */
  function DropKey(items: seq<ClientItem>, k: LineKey): seq<ClientItem>
  {
    if items == [] then []
    else (if KeyOf(items[0]) != k then [items[0]] else []) + DropKey(items[1..], k)
  }

  /** The lines after addItemLocally(p). */
  function Added(items: seq<ClientItem>, p: ClientItem): seq<ClientItem>
  {
    var i := FindKey(items, KeyOf(p));
    if i < |items| then items[i := WithQuantity(items[i], items[i].quantity + p.quantity)]
    else items + [p]
  }

  /** The lines after updateItemQuantity(k, q). */
  function Updated(items: seq<ClientItem>, k: LineKey, q: int): seq<ClientItem>
  {
    var i := FindKey(items, k);
    if i == |items| then items
    else
      var edited := items[i := WithQuantity(items[i], q)];
      if q <= 0 then DropKey(edited, k) else edited
  }

  /** What one line adds to the total. */
  function LineTotal(it: ClientItem): int
  {
    Cost(it.price, it.quantity)
  }

  /** selectCartTotal: the sum of price times quantity. */
  function CartTotal(items: seq<ClientItem>): int
  {
    if items == [] then 0 else LineTotal(items[0]) + CartTotal(items[1..])
  }

  /** selectCartItemsCount: the sum of quantities. */
  function ItemsCount(items: seq<ClientItem>): int
  {
    if items == [] then 0 else items[0].quantity + ItemsCount(items[1..])
  }

  /** The cart slice state, and what saveCartToStorage last wrote. */
  class CartSlice {
    var items: seq<ClientItem>
    var status: Status
    var error: Option<string>
    var storage: seq<ClientItem>

    /** initialState: the lines loaded from storage, idle, no error. */
    constructor (stored: seq<ClientItem>)
      ensures items == stored && storage == stored && status == Idle && error == None
    {
      items := stored;
      storage := stored;
      status := Idle;
      error := None;
    }

    /** cartActionStart: loading, error cleared, lines untouched. */
    method CartActionStart()
      modifies this
      ensures status == Loading && error == None
      ensures items == old(items) && storage == old(storage)
    {
      status := Loading;
      error := None;
    }

    /** cartActionSuccess: the server's lines replace the local ones and are saved. */
    method CartActionSuccess(payload: seq<ClientItem>)
      modifies this
      ensures items == payload && storage == payload && status == Succeeded
      ensures error == old(error)
    {
      items := payload;
      status := Succeeded;
      storage := items;
    }

    /** cartActionFailed: failed, with the message; lines untouched. */
    method CartActionFailed(message: string)
      modifies this
      ensures status == Failed && error == Some(message)
      ensures items == old(items) && storage == old(storage)
    {
      status := Failed;
      error := Some(message);
    }

    method AddItemLocally(p: ClientItem)
      modifies this
      ensures items == Added(old(items), p) && storage == items
      ensures status == old(status) && error == old(error)
    {
      var i := FindKey(items, KeyOf(p));
      if i < |items| {
        items := items[i := WithQuantity(items[i], items[i].quantity + p.quantity)];
      } else {
        items := items + [p];
      }
      storage := items;
    }

    method RemoveItemLocally(id: string, color: Option<string>, size: Option<string>)
      modifies this
      ensures items == DropKey(old(items), LineKey(id, size, color)) && storage == items
      ensures status == old(status) && error == old(error)
    {
      items := DropKey(items, LineKey(id, size, color));
      storage := items;
    }

    method UpdateItemQuantity(id: string, quantity: int, size: Option<string>, color: Option<string>)
      modifies this
      ensures items == Updated(old(items), LineKey(id, size, color), quantity) && storage == items
      ensures status == old(status) && error == old(error)
    {
      var k := LineKey(id, size, color);
      var i := FindKey(items, k);
      if i < |items| {
        items := items[i := WithQuantity(items[i], quantity)];
        if quantity <= 0 {
          items := DropKey(items, k);
        }
      }
      storage := items;
    }

    method ClearCartLocally()
      modifies this
      ensures items == [] && storage == []
      ensures status == old(status) && error == old(error)
    {
      items := [];
      storage := items;
    }
  }

  // ---------------------------------------------------------------------
  // Properties of the reducers

  /** After removal no line carries the key, and every line with another key
      is still there, in the same relative order. */
  lemma {:induction false} DropKeyMeaning(items: seq<ClientItem>, k: LineKey)
    ensures forall it :: it in DropKey(items, k) <==> it in items && KeyOf(it) != k
    ensures |DropKey(items, k)| <= |items|
    ensures (forall it :: it in items ==> KeyOf(it) != k) ==> DropKey(items, k) == items
  {
    if items != [] {
      DropKeyMeaning(items[1..], k);
      assert items == [items[0]] + items[1..];
    }
  }

  /** DropKey keeps order: it distributes over concatenation. */
  lemma {:induction false} DropKeyConcat(a: seq<ClientItem>, b: seq<ClientItem>, k: LineKey)
    ensures DropKey(a + b, k) == DropKey(a, k) + DropKey(b, k)
  {
    if a != [] {
      assert (a + b)[1..] == a[1..] + b;
      DropKeyConcat(a[1..], b, k);
    } else {
      assert a + b == b;
    }
  }

  /** Adding a present key adds to that line and keeps the length; the other
      lines are unchanged. */
  lemma AddMerges(items: seq<ClientItem>, p: ClientItem, i: nat)
    requires FirstWithKey(items, KeyOf(p), i)
    ensures |Added(items, p)| == |items|
    ensures Added(items, p)[i].quantity == items[i].quantity + p.quantity
    ensures Added(items, p)[i].price == items[i].price
    ensures forall j :: 0 <= j < |items| && j != i ==> Added(items, p)[j] == items[j]
  {
    FindKeyIsFirst(items, KeyOf(p), i);
  }

  lemma FindKeyIsFirst(items: seq<ClientItem>, k: LineKey, i: nat)
    requires FirstWithKey(items, k, i)
    ensures FindKey(items, k) == i
  {
  }

  /** Adding a new key appends the payload at the end. */
  lemma AddAppends(items: seq<ClientItem>, p: ClientItem)
    requires forall it :: it in items ==> KeyOf(it) != KeyOf(p)
    ensures Added(items, p) == items + [p]
  {
  }

  /** updateItemQuantity on a missing key changes nothing. */
  lemma UpdateMissing(items: seq<ClientItem>, k: LineKey, q: int)
    requires forall it :: it in items ==> KeyOf(it) != k
    ensures Updated(items, k, q) == items
  {
  }

  /** With q > 0 only the first line with the key changes, to quantity q. */
  lemma UpdatePositive(items: seq<ClientItem>, k: LineKey, q: int, i: nat)
    requires q > 0 && FirstWithKey(items, k, i)
    ensures |Updated(items, k, q)| == |items|
    ensures Updated(items, k, q)[i] == WithQuantity(items[i], q)
    ensures forall j :: 0 <= j < |items| && j != i ==> Updated(items, k, q)[j] == items[j]
  {
    FindKeyIsFirst(items, k, i);
  }

  /** With q <= 0 every line with the key is removed and the rest stay, in order. */
  lemma UpdateNonPositive(items: seq<ClientItem>, k: LineKey, q: int)
    requires q <= 0 && exists it :: it in items && KeyOf(it) == k
    ensures Updated(items, k, q) == DropKey(items, k)
  {
    var i := FindKey(items, k);
    assert items == items[..i] + [items[i]] + items[i + 1..];
    var edited := items[i := WithQuantity(items[i], q)];
    assert edited == items[..i] + [edited[i]] + items[i + 1..];
    DropKeyConcat(items[..i] + [edited[i]], items[i + 1..], k);
    DropKeyConcat(items[..i], [edited[i]], k);
    DropKeyConcat(items[..i] + [items[i]], items[i + 1..], k);
    DropKeyConcat(items[..i], [items[i]], k);
  }

  // ---------------------------------------------------------------------
  // Properties of the selectors

  lemma {:induction false} TotalConcat(a: seq<ClientItem>, b: seq<ClientItem>)
    ensures CartTotal(a + b) == CartTotal(a) + CartTotal(b)
    ensures ItemsCount(a + b) == ItemsCount(a) + ItemsCount(b)
  {
    if a != [] {
      assert (a + b)[1..] == a[1..] + b;
      TotalConcat(a[1..], b);
    } else {
      assert a + b == b;
    }
  }

  lemma TotalReplace(items: seq<ClientItem>, i: nat, x: ClientItem)
    requires i < |items|
    ensures CartTotal(items[i := x]) == CartTotal(items) - LineTotal(items[i]) + LineTotal(x)
    ensures ItemsCount(items[i := x]) == ItemsCount(items) - items[i].quantity + x.quantity
  {
    assert items == items[..i] + [items[i]] + items[i + 1..];
    assert items[i := x] == items[..i] + [x] + items[i + 1..];
    TotalConcat(items[..i] + [items[i]], items[i + 1..]);
    TotalConcat(items[..i], [items[i]]);
    TotalConcat(items[..i] + [x], items[i + 1..]);
    TotalConcat(items[..i], [x]);
  }

  lemma MergedLineTotal(line: ClientItem, q: int)
    ensures LineTotal(WithQuantity(line, line.quantity + q)) == LineTotal(line) + Cost(line.price, q)
  {
    assert line.price * (line.quantity + q) == line.price * line.quantity + line.price * q;
  }

  /** addItemLocally raises the item count by the payload quantity. */
  lemma AddCount(items: seq<ClientItem>, p: ClientItem)
    ensures ItemsCount(Added(items, p)) == ItemsCount(items) + p.quantity
  {
    var i := FindKey(items, KeyOf(p));
    if i < |items| {
      TotalReplace(items, i, WithQuantity(items[i], items[i].quantity + p.quantity));
    } else {
      TotalConcat(items, [p]);
    }
  }

  /** Adding onto a present line raises the total by the payload quantity
      at that line's old price. */
  lemma AddTotalMerged(items: seq<ClientItem>, p: ClientItem, i: nat)
    requires FirstWithKey(items, KeyOf(p), i)
    ensures CartTotal(Added(items, p)) == CartTotal(items) + Cost(items[i].price, p.quantity)
  {
    AddedMerges(items, p, i);
    TotalMerged(items, i, p.quantity);
  }

  /** Raising line i by q raises the total by q at that line's price. */
  lemma TotalMerged(items: seq<ClientItem>, i: nat, q: int)
    requires i < |items|
    ensures CartTotal(items[i := WithQuantity(items[i], items[i].quantity + q)]) ==
            CartTotal(items) + Cost(items[i].price, q)
  {
    TotalReplace(items, i, WithQuantity(items[i], items[i].quantity + q));
    MergedLineTotal(items[i], q);
  }

  /** Adding onto the first line with the payload's key raises that line's quantity. */
  lemma AddedMerges(items: seq<ClientItem>, p: ClientItem, i: nat)
    requires FirstWithKey(items, KeyOf(p), i)
    ensures Added(items, p) == items[i := WithQuantity(items[i], items[i].quantity + p.quantity)]
  {
    AddMerges(items, p, i);
  }

  /** Adding a new line raises the total by the payload's own price times quantity. */
  lemma AddTotalNew(items: seq<ClientItem>, p: ClientItem)
    requires forall j :: 0 <= j < |items| ==> KeyOf(items[j]) != KeyOf(p)
    ensures CartTotal(Added(items, p)) == CartTotal(items) + Cost(p.price, p.quantity)
  {
    TotalConcat(items, [p]);
    assert CartTotal([p]) == LineTotal(p);
  }
}
