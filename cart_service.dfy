/** The server-side cart (EcommerceBe/Services/CartService.cs). Putting units
    of a variant in a cart takes them out of that variant's stock, and taking
    them out of the cart puts them back, so that for every variant the stock
    plus the units reserved in carts stays the same. */
module CartService {
  import opened Common
  import opened Inventory

  /** A CartItem row; `owner` is the user whose cart holds it. */
  datatype CartItem = CartItem(itemId: Guid, owner: Guid, variantId: Guid, quantity: int, price: int)

  /** The units of variant v held in the given cart lines. */
  function Reserved(items: seq<CartItem>, v: Guid): int
  {
    if items == [] then 0
    else (if items[0].variantId == v then items[0].quantity else 0) + Reserved(items[1..], v)
  }

  /** What one line contributes to Reserved. */
  function Share(it: CartItem, v: Guid): int
  {
    if it.variantId == v then it.quantity else 0
  }

  /** The user's cart, in storage order. */
  function UserCart(items: seq<CartItem>, user: Guid): (r: seq<CartItem>)
    ensures |r| <= |items|
  {
    if items == [] then []
    else (if items[0].owner == user then [items[0]] else []) + UserCart(items[1..], user)
  }

  /** Every cart line except the user's, in storage order. */
  function OtherCarts(items: seq<CartItem>, user: Guid): (r: seq<CartItem>)
    ensures |r| <= |items|
  {
    if items == [] then []
    else (if items[0].owner != user then [items[0]] else []) + OtherCarts(items[1..], user)
  }

  /** The user's cart holds exactly the user's lines, and the other carts
      exactly everybody else's. */
  lemma {:induction false} CartMembers(items: seq<CartItem>, user: Guid)
    ensures forall it :: it in UserCart(items, user) <==> it in items && it.owner == user
    ensures forall it :: it in OtherCarts(items, user) <==> it in items && it.owner != user
  {
    if items != [] {
      CartMembers(items[1..], user);
      assert items == [items[0]] + items[1..];
    }
  }

  /** Cart lines with the listed ids deleted. */
  function WithoutIds(items: seq<CartItem>, ids: set<Guid>): (r: seq<CartItem>)
    ensures |r| <= |items|
  {
    if items == [] then []
    else (if items[0].itemId !in ids then [items[0]] else []) + WithoutIds(items[1..], ids)
  }

  /** The ids of the given lines. */
  function IdsOf(items: seq<CartItem>): (r: set<Guid>)
    ensures forall id :: id in r <==> exists it :: it in items && it.itemId == id
  {
    set it | it in items :: it.itemId
  }

  /** No two lines share an id (CartItemId is a primary key). */
  predicate UniqueIds(items: seq<CartItem>)
  {
    forall i, j :: 0 <= i < j < |items| ==> items[i].itemId != items[j].itemId
  }

  /** The position of the first line of the user's cart for variant v
      (`cart.CartItems.FirstOrDefault(ci => ci.ProductVariantId == v)`), or |items|. */
  function FindVariantLine(items: seq<CartItem>, user: Guid, v: Guid): (i: nat)
    ensures i <= |items|
    ensures i < |items| ==> items[i].owner == user && items[i].variantId == v
    ensures forall j :: 0 <= j < i ==> !(items[j].owner == user && items[j].variantId == v)
  {
    if items == [] then 0
    else if items[0].owner == user && items[0].variantId == v then 0
    else 1 + FindVariantLine(items[1..], user, v)
  }

  /** The position of the user's line with the given id
      (`cart?.CartItems.FirstOrDefault(ci => ci.CartItemId == id)`), or |items|. */
  function FindItemLine(items: seq<CartItem>, user: Guid, id: Guid): (i: nat)
    ensures i <= |items|
    ensures i < |items| ==> items[i].owner == user && items[i].itemId == id
    ensures forall j :: 0 <= j < i ==> !(items[j].owner == user && items[j].itemId == id)
  {
    if items == [] then 0
    else if items[0].owner == user && items[0].itemId == id then 0
    else 1 + FindItemLine(items[1..], user, id)
  }

  /** The cart lines after AddOrUpdateCartItemAsync put q units of v, at the
      given unit price, into the user's cart. */
  function AddedLines(items: seq<CartItem>, user: Guid, v: Guid, q: int, price: int, newId: Guid): seq<CartItem>
  {
    var i := FindVariantLine(items, user, v);
    if i < |items| then items[i := items[i].(quantity := items[i].quantity + q, price := price)]
    else items + [CartItem(newId, user, v, q, price)]
  }

  /** The variants after the units of the given lines went back to stock
      (lines whose variant is unknown return nothing). */
  function Returned(vs: map<Guid, Variant>, lines: seq<CartItem>): (r: map<Guid, Variant>)
    ensures r.Keys == vs.Keys
  {
    if lines == [] then vs
    else
      var before := Returned(vs, lines[..|lines| - 1]);
      var last := lines[|lines| - 1];
      if last.variantId in before then MoveStock(before, last.variantId, last.quantity) else before
  }

  // ---------------------------------------------------------------------
  // Reserved under each change of the cart lines

  lemma {:induction false} ReservedAppend(items: seq<CartItem>, x: CartItem, v: Guid)
    ensures Reserved(items + [x], v) == Reserved(items, v) + Share(x, v)
  {
    if items != [] {
      assert (items + [x])[1..] == items[1..] + [x];
      ReservedAppend(items[1..], x, v);
    }
  }

  lemma {:induction false} ReservedConcat(a: seq<CartItem>, b: seq<CartItem>, v: Guid)
    ensures Reserved(a + b, v) == Reserved(a, v) + Reserved(b, v)
  {
    if a != [] {
      assert (a + b)[1..] == a[1..] + b;
      ReservedConcat(a[1..], b, v);
    } else {
      assert a + b == b;
    }
  }

  lemma {:induction false} ReservedReplace(items: seq<CartItem>, i: nat, x: CartItem, v: Guid)
    requires i < |items|
    ensures Reserved(items[i := x], v) == Reserved(items, v) - Share(items[i], v) + Share(x, v)
  {
    if i > 0 {
      assert items[i := x][1..] == items[1..][i - 1 := x];
      ReservedReplace(items[1..], i - 1, x, v);
    }
  }

  lemma ReservedRemoveAt(items: seq<CartItem>, i: nat, v: Guid)
    requires i < |items|
    ensures Reserved(items[..i] + items[i + 1..], v) == Reserved(items, v) - Share(items[i], v)
  {
    assert items == items[..i] + [items[i]] + items[i + 1..];
    ReservedConcat(items[..i] + [items[i]], items[i + 1..], v);
    ReservedAppend(items[..i], items[i], v);
    ReservedConcat(items[..i], items[i + 1..], v);
  }

  /** A cart's reservation splits into the user's lines and everybody else's. */
  lemma {:induction false} ReservedSplit(items: seq<CartItem>, user: Guid, v: Guid)
    ensures Reserved(items, v) == Reserved(UserCart(items, user), v) + Reserved(OtherCarts(items, user), v)
  {
    if items != [] {
      ReservedSplit(items[1..], user, v);
      var head := if items[0].owner == user then [items[0]] else [];
      var rest := if items[0].owner != user then [items[0]] else [];
      ReservedConcat(head, UserCart(items[1..], user), v);
      ReservedConcat(rest, OtherCarts(items[1..], user), v);
    }
  }

  /** Adding q units of v reserves exactly q more units of v and changes no
      other variant's reservation (CartService.cs, lines 56-75). */
  lemma ReservedAfterAdd(items: seq<CartItem>, user: Guid, v: Guid, q: int, price: int, newId: Guid, w: Guid)
    ensures Reserved(AddedLines(items, user, v, q, price, newId), w) == Reserved(items, w) + (if w == v then q else 0)
  {
    var i := FindVariantLine(items, user, v);
    if i < |items| {
      ReservedReplace(items, i, items[i].(quantity := items[i].quantity + q, price := price), w);
    } else {
      ReservedAppend(items, CartItem(newId, user, v, q, price), w);
    }
  }

  /** A variant already in the user's cart is merged into its line: the
      quantities add up, the price is refreshed and no line is added
      (CartService.cs, lines 56-62); otherwise one new line is appended. */
  lemma AddMergesLines(items: seq<CartItem>, user: Guid, v: Guid, q: int, price: int, newId: Guid)
    ensures var r := AddedLines(items, user, v, q, price, newId);
      (exists i :: 0 <= i < |items| && items[i].owner == user && items[i].variantId == v) ==>
        |r| == |items| &&
        var i := FindVariantLine(items, user, v);
        r[i].quantity == items[i].quantity + q && r[i].price == price &&
        r[i].itemId == items[i].itemId &&
        forall j :: 0 <= j < |items| && j != i ==> r[j] == items[j]
    ensures var r := AddedLines(items, user, v, q, price, newId);
      (forall i :: 0 <= i < |items| ==> !(items[i].owner == user && items[i].variantId == v)) ==>
        r == items + [CartItem(newId, user, v, q, price)]
  {
  }

  /** Returning the lines to stock raises each known variant's stock by the
      units the lines hold of it. */
  lemma {:induction false} ReturnedStock(vs: map<Guid, Variant>, lines: seq<CartItem>, v: Guid)
    requires v in vs
    ensures Returned(vs, lines)[v] == vs[v].(stock := vs[v].stock + Reserved(lines, v))
  {
    if lines != [] {
      var init := lines[..|lines| - 1];
      ReturnedStock(vs, init, v);
      assert lines == init + [lines[|lines| - 1]];
      ReservedAppend(init, lines[|lines| - 1], v);
    }
  }

  lemma {:induction false} WithoutIdsStep(items: seq<CartItem>, ids: set<Guid>, id: Guid)
    ensures WithoutIds(WithoutIds(items, ids), {id}) == WithoutIds(items, ids + {id})
  {
    if items != [] {
      WithoutIdsStep(items[1..], ids, id);
      assert WithoutIds(items, ids) == (if items[0].itemId !in ids then [items[0]] else []) + WithoutIds(items[1..], ids);
      var h := if items[0].itemId !in ids then [items[0]] else [];
      WithoutIdsConcat(h, WithoutIds(items[1..], ids), {id});
    }
  }

  lemma {:induction false} WithoutIdsConcat(a: seq<CartItem>, b: seq<CartItem>, ids: set<Guid>)
    ensures WithoutIds(a + b, ids) == WithoutIds(a, ids) + WithoutIds(b, ids)
  {
    if a != [] {
      assert (a + b)[1..] == a[1..] + b;
      WithoutIdsConcat(a[1..], b, ids);
    } else {
      assert a + b == b;
    }
  }

  /** Deleting the ids of all the user's lines leaves exactly the other carts. */
  lemma {:induction false} WithoutUserIds(items: seq<CartItem>, user: Guid)
    requires UniqueIds(items)
    ensures WithoutIds(items, IdsOf(UserCart(items, user))) == OtherCarts(items, user)
  {
    var ids := IdsOf(UserCart(items, user));
    CartMembers(items, user);
    var k := |items|;
    while k > 0
      invariant 0 <= k <= |items|
      invariant WithoutIds(items[k..], ids) == OtherCarts(items[k..], user)
      decreases k
    {
      k := k - 1;
      var it := items[k];
      assert items[k..][1..] == items[k + 1..];
      if it.owner == user {
        assert it in UserCart(items, user);
      } else if it.itemId in ids {
        var other :| other in UserCart(items, user) && other.itemId == it.itemId;
        var j :| 0 <= j < |items| && items[j] == other;
        assert false;
      }
    }
  }

  lemma WithoutNoIds(items: seq<CartItem>)
    ensures WithoutIds(items, {}) == items
  {
  }

  lemma ReplaceKeepsUnique(items: seq<CartItem>, i: nat, x: CartItem)
    requires UniqueIds(items) && i < |items| && x.itemId == items[i].itemId
    ensures UniqueIds(items[i := x])
  {
  }

  lemma AppendKeepsUnique(items: seq<CartItem>, x: CartItem)
    requires UniqueIds(items) && x.itemId !in IdsOf(items)
    ensures UniqueIds(items + [x])
  {
    forall i | 0 <= i < |items| ensures items[i].itemId != x.itemId {
      assert items[i] in items;
    }
  }

  lemma RemoveKeepsUnique(items: seq<CartItem>, i: nat)
    requires UniqueIds(items) && i < |items|
    ensures UniqueIds(items[..i] + items[i + 1..])
    ensures forall it :: it in items[..i] + items[i + 1..] ==> it.itemId != items[i].itemId
  {
    var r := items[..i] + items[i + 1..];
    forall it | it in r ensures it.itemId != items[i].itemId {
      var j :| 0 <= j < |r| && r[j] == it;
      assert it == items[if j < i then j else j + 1];
    }
    forall a, b | 0 <= a < b < |r| ensures r[a].itemId != r[b].itemId {
      var a' := if a < i then a else a + 1;
      var b' := if b < i then b else b + 1;
      assert r[a] == items[a'] && r[b] == items[b'];
    }
  }

  /** No negative stock, every line has a positive quantity and belongs to
      an existing cart, and line ids are unique. */
  predicate ValidState(vs: map<Guid, Variant>, items: seq<CartItem>, owners: set<Guid>)
  {
    && NoNegativeStock(vs)
    && (forall i :: 0 <= i < |items| ==> items[i].quantity > 0 && items[i].owner in owners)
    && UniqueIds(items)
  }

  /** The server cart: the shared variant store, every cart line of every
      user, and the users that already have a Cart row. */
  class CartService {
    const store: VariantStore
    var items: seq<CartItem>
    var cartOwners: set<Guid>

    /** The cart invariant of ValidState holds. */
    ghost predicate Valid()
      reads this, store
    {
      ValidState(store.variants, items, cartOwners)
    }

    constructor (s: VariantStore)
      requires NoNegativeStock(s.variants)
      ensures Valid() && store == s && items == [] && cartOwners == {}
      ensures s.variants == old(s.variants)
    {
      store := s;
      items := [];
      cartOwners := {};
    }

    /** AddOrUpdateCartItemAsync: put q units of variant v in the user's cart. */
    method AddOrUpdateCartItem(user: Guid, v: Guid, q: int, newId: Guid) returns (r: Outcome<seq<CartItem>>)
      requires Valid()
      requires newId !in IdsOf(items)
      modifies this, store
      ensures Valid()
      ensures r.Ok? <==> q > 0 && v in old(store.variants) && old(store.variants[v].stock) >= q
      ensures cartOwners == if q > 0 then old(cartOwners) + {user} else old(cartOwners)
      ensures r.Ok? ==>
        && items == AddedLines(old(items), user, v, q, old(store.variants[v].price), newId)
        && store.variants == MoveStock(old(store.variants), v, -q)
        && r.value == UserCart(items, user)
      ensures r.Err? ==> items == old(items) && store.variants == old(store.variants)
      ensures forall w :: StockOf(store.variants, w) + Reserved(items, w) == StockOf(old(store.variants), w) + Reserved(old(items), w)
    {
      if q <= 0 {
        return Err("Quantity must be greater than 0");
      }
      cartOwners := cartOwners + {user};
      if v !in store.variants {
        return Err("Product variant not found");
      }
      var variant := store.variants[v];
      if variant.stock < q {
        return Err("Insufficient stock");
      }
      ghost var before := items;
      var i := FindVariantLine(items, user, v);
      if i < |items| {
        ReplaceKeepsUnique(items, i, items[i].(quantity := items[i].quantity + q, price := variant.price));
        items := items[i := items[i].(quantity := items[i].quantity + q, price := variant.price)];
      } else {
        AppendKeepsUnique(items, CartItem(newId, user, v, q, variant.price));
        items := items + [CartItem(newId, user, v, q, variant.price)];
      }
      store.variants := MoveStock(store.variants, v, -q);
      forall w ensures StockOf(store.variants, w) + Reserved(items, w) == StockOf(old(store.variants), w) + Reserved(before, w) {
        ReservedAfterAdd(before, user, v, q, variant.price, newId, w);
      }
      r := Ok(UserCart(items, user));
    }

    /** UpdateCartItemQuantityAsync: set the quantity of one of the user's lines. */
    method UpdateCartItemQuantity(user: Guid, id: Guid, newQ: int) returns (r: Outcome<seq<CartItem>>)
      requires Valid()
      modifies this, store
      ensures Valid() && cartOwners == old(cartOwners)
      ensures var i := FindItemLine(old(items), user, id);
        r.Ok? <==> newQ > 0 && i < |old(items)| && old(items)[i].variantId in old(store.variants)
                   && old(store.variants)[old(items)[i].variantId].stock + old(items)[i].quantity >= newQ
      ensures r.Ok? ==>
        var i := FindItemLine(old(items), user, id);
        var line := old(items)[i];
        && items == old(items)[i := line.(quantity := newQ)]
        && store.variants == MoveStock(old(store.variants), line.variantId, line.quantity - newQ)
        && r.value == UserCart(items, user)
      ensures r.Err? ==> items == old(items) && store.variants == old(store.variants)
      ensures forall w :: StockOf(store.variants, w) + Reserved(items, w) == StockOf(old(store.variants), w) + Reserved(old(items), w)
    {
      if newQ <= 0 {
        return Err("Quantity must be greater than 0");
      }
      var i := FindItemLine(items, user, id);
      if i == |items| {
        return Err("CartItem not found");
      }
      var line := items[i];
      if line.variantId !in store.variants {
        return Err("Product variant not found");
      }
      var restored := store.variants[line.variantId].stock + line.quantity;
      if restored < newQ {
        return Err("Insufficient stock");
      }
      ghost var before := items;
      ReplaceKeepsUnique(items, i, line.(quantity := newQ));
      items := items[i := line.(quantity := newQ)];
      store.variants := MoveStock(store.variants, line.variantId, line.quantity - newQ);
      forall w ensures StockOf(store.variants, w) + Reserved(items, w) == StockOf(old(store.variants), w) + Reserved(before, w) {
        ReservedReplace(before, i, line.(quantity := newQ), w);
      }
      r := Ok(UserCart(items, user));
    }

    /** RemoveCartItemAsync: delete one of the user's lines, its units back to stock. */
    method RemoveCartItem(user: Guid, id: Guid) returns (r: Outcome<()>)
      requires Valid()
      modifies this, store
      ensures Valid() && cartOwners == old(cartOwners)
      ensures var i := FindItemLine(old(items), user, id); r.Ok? <==> i < |old(items)|
      ensures r.Ok? ==>
        var i := FindItemLine(old(items), user, id);
        var line := old(items)[i];
        && items == old(items)[..i] + old(items)[i + 1..]
        && (forall it :: it in items ==> it.itemId != id)
        && store.variants == if line.variantId in old(store.variants)
                             then MoveStock(old(store.variants), line.variantId, line.quantity)
                             else old(store.variants)
      ensures r.Err? ==> items == old(items) && store.variants == old(store.variants)
      ensures forall w :: w in store.variants ==>
        StockOf(store.variants, w) + Reserved(items, w) == StockOf(old(store.variants), w) + Reserved(old(items), w)
    {
      var i := FindItemLine(items, user, id);
      if i == |items| {
        return Err("CartItem not found");
      }
      var line := items[i];
      if line.variantId in store.variants {
        store.variants := MoveStock(store.variants, line.variantId, line.quantity);
      }
      ghost var before := items;
      RemoveKeepsUnique(items, i);
      items := items[..i] + items[i + 1..];
      forall w | w in store.variants
        ensures StockOf(store.variants, w) + Reserved(items, w) == StockOf(old(store.variants), w) + Reserved(before, w)
      {
        ReservedRemoveAt(before, i, w);
      }
      r := Ok(());
    }

    /** ClearCartAsync: delete every line of the user's cart, returning each
        line's units to stock. */
    method ClearCart(user: Guid)
      requires Valid()
      modifies this, store
      ensures Valid() && cartOwners == old(cartOwners)
      ensures items == OtherCarts(old(items), user)
      ensures UserCart(items, user) == []
      ensures store.variants == Returned(old(store.variants), UserCart(old(items), user))
    {
      var lines := UserCart(items, user);
      var k := 0;
      WithoutNoIds(items);
      assert IdsOf(lines[..0]) == {};
      while k < |lines|
        invariant 0 <= k <= |lines|
        invariant items == WithoutIds(old(items), IdsOf(lines[..k]))
        invariant store.variants == Returned(old(store.variants), lines[..k])
        invariant cartOwners == old(cartOwners)
      {
        var line := lines[k];
        ClearStep(old(items), old(store.variants), lines, k);
        if line.variantId in store.variants {
          store.variants := MoveStock(store.variants, line.variantId, line.quantity);
        }
        items := WithoutIds(items, {line.itemId});
        k := k + 1;
      }
      assert lines[..k] == lines;
      ClearOutcome(old(items), old(store.variants), user, cartOwners);
    }
  }

  /** One turn of ClearCartAsync's loop. */
  lemma ClearStep(items: seq<CartItem>, vs: map<Guid, Variant>, lines: seq<CartItem>, k: nat)
    requires k < |lines|
    ensures WithoutIds(WithoutIds(items, IdsOf(lines[..k])), {lines[k].itemId}) == WithoutIds(items, IdsOf(lines[..k + 1]))
    ensures var b := Returned(vs, lines[..k]);
      Returned(vs, lines[..k + 1]) == if lines[k].variantId in b then MoveStock(b, lines[k].variantId, lines[k].quantity) else b
  {
    WithoutIdsStep(items, IdsOf(lines[..k]), lines[k].itemId);
    assert lines[..k + 1] == lines[..k] + [lines[k]];
    assert IdsOf(lines[..k + 1]) == IdsOf(lines[..k]) + {lines[k].itemId};
    assert lines[..k + 1][..k] == lines[..k];
  }

  /** Lines with positive quantities reserve a non-negative amount. */
  lemma {:induction false} ReservedNonNegative(items: seq<CartItem>, v: Guid)
    requires forall i :: 0 <= i < |items| ==> items[i].quantity > 0
    ensures Reserved(items, v) >= 0
  {
    if items != [] {
      ReservedNonNegative(items[1..], v);
    }
  }

  /** Clearing the user's cart raises each known variant's stock by what the
      cart held of it, so stock plus all reservations is unchanged. */
  lemma ClearStock(items: seq<CartItem>, vs: map<Guid, Variant>, user: Guid)
    requires forall i :: 0 <= i < |items| ==> items[i].quantity > 0
    ensures forall w :: w in vs ==>
      Returned(vs, UserCart(items, user))[w].stock == vs[w].stock + Reserved(UserCart(items, user), w)
    ensures forall w :: w in vs ==>
      Returned(vs, UserCart(items, user))[w].stock >= vs[w].stock
    ensures forall w :: w in vs ==>
      StockOf(Returned(vs, UserCart(items, user)), w) + Reserved(OtherCarts(items, user), w) == StockOf(vs, w) + Reserved(items, w)
  {
    var lines := UserCart(items, user);
    CartMembers(items, user);
    forall i | 0 <= i < |lines| ensures lines[i].quantity > 0 {
      assert lines[i] in lines;
      var j :| 0 <= j < |items| && items[j] == lines[i];
    }
    forall w | w in vs
      ensures Returned(vs, lines)[w].stock == vs[w].stock + Reserved(lines, w)
      ensures Returned(vs, lines)[w].stock >= vs[w].stock
      ensures StockOf(Returned(vs, lines), w) + Reserved(OtherCarts(items, user), w) == StockOf(vs, w) + Reserved(items, w)
    {
      ReturnedStock(vs, lines, w);
      ReservedSplit(items, user, w);
      ReservedNonNegative(lines, w);
    }
  }

  /** What ClearCartAsync leaves behind once every line of the user is gone. */
  lemma ClearOutcome(items: seq<CartItem>, vs: map<Guid, Variant>, user: Guid, owners: set<Guid>)
    requires ValidState(vs, items, owners)
    ensures ValidState(Returned(vs, UserCart(items, user)), OtherCarts(items, user), owners)
    ensures WithoutIds(items, IdsOf(UserCart(items, user))) == OtherCarts(items, user)
    ensures UserCart(OtherCarts(items, user), user) == []
  {
    var rest := OtherCarts(items, user);
    CartMembers(items, user);
    forall i | 0 <= i < |rest| ensures rest[i].quantity > 0 && rest[i].owner in owners {
      assert rest[i] in rest;
      var j :| 0 <= j < |items| && items[j] == rest[i];
    }
    WithoutUserIds(items, user);
    OtherCartsHasNoUser(items, user);
    OtherCartsKeepsValid(items, user);
    ClearStock(items, vs, user);
  }

  lemma {:induction false} OtherCartsHasNoUser(items: seq<CartItem>, user: Guid)
    ensures UserCart(OtherCarts(items, user), user) == []
  {
    if items != [] {
      OtherCartsHasNoUser(items[1..], user);
      var h := if items[0].owner != user then [items[0]] else [];
      UserCartConcat(h, OtherCarts(items[1..], user), user);
    }
  }

  lemma {:induction false} UserCartConcat(a: seq<CartItem>, b: seq<CartItem>, user: Guid)
    ensures UserCart(a + b, user) == UserCart(a, user) + UserCart(b, user)
  {
    if a != [] {
      assert (a + b)[1..] == a[1..] + b;
      UserCartConcat(a[1..], b, user);
    } else {
      assert a + b == b;
    }
  }

  /** OtherCarts keeps the lines in order, so unique ids stay unique. */
  lemma {:induction false} OtherCartsKeepsValid(items: seq<CartItem>, user: Guid)
    requires UniqueIds(items)
    ensures UniqueIds(OtherCarts(items, user))
  {
    if items != [] {
      assert UniqueIds(items[1..]) by {
        forall i, j | 0 <= i < j < |items[1..]| ensures items[1..][i].itemId != items[1..][j].itemId {
          assert items[1..][i] == items[i + 1] && items[1..][j] == items[j + 1];
        }
      }
      OtherCartsKeepsValid(items[1..], user);
      var rest := OtherCarts(items[1..], user);
      CartMembers(items[1..], user);
      if items[0].owner != user {
        forall x | x in rest ensures x.itemId != items[0].itemId {
          var j :| 1 <= j < |items| && items[j] == x;
        }
        assert OtherCarts(items, user) == [items[0]] + rest;
      }
    }
  }
}
