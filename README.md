# Ecommerce: inventory, order, payment and storefront rules in Dafny

This project models the business core of a small e-commerce shop. The shop
has an ASP.NET backend (`EcommerceBe`) and a React/Redux front end
(`fontend`). The model covers the stock bookkeeping of the server cart, order
creation and order status changes, and the mock payment gateway. It also
covers VNPay request signing and callback checking, the reconciliation
`UpdateAsync` performs when a seller edits a product, and the category-tree
and paged product queries. The shipping-address default rule and the review
rules are modelled too. On the front end it covers the Redux cart reducers
and selectors, the admin order screen, the password-strength form and the
admin user table. It also covers the seller product filters, the header
category menu, the banner carousel and the paged product list.

Each source file has its own Dafny module, in the file of the same name:

- `cart_service.dfy`
- `cart_slice.dfy`
- `order_service.dfy`
- `order_controller.dfy`
- `admin_orders.dfy`
- `mock_payment.dfy`
- `vnpay_library.dfy` and `vnpay_service.dfy`: `VNPayService.cs` holds both `VnPayLibrary` and the service
- `payment_controller.dfy`
- `product_repository.dfy`
- `shipping_address.dfy`
- `review_service.dfy`
- `change_password.dfy`
- `users_manager.dfy`
- `product_seller.dfy`
- `header_categories.dfy`
- `carousel.dfy`
- `product_list_section.dfy`

The shared pieces live in two more files:

- `inventory.dfy` holds the `ProductVariants` table, shared by the cart and by order creation.
- `common.dfy` holds a few shared helpers:
  - a `Guid` as a number, with 0 for `Guid.Empty`
  - `Option` and `Outcome` (an exception becomes `Err`)
  - ASCII lower-casing
  - .NET `Trim`
  - ordinal string order

The code follows the shape of the source:

- **State changed in place** becomes a class whose methods change its fields. This covers:
  - the cart service over a shared variant store
  - the Redux slice
  - the order service
  - the mock payment dictionary
  - the `VnPayLibrary` sorted lists
  - the product store
  - the address repository and service
  - the review store
- **Loops** stay loops, each proved against a specification function. This covers:
  - clearing a cart
  - placing the lines of an order
  - the sorted-list insertion
  - the query-string builder
  - variant and image reconciliation
  - the two passes that build the category tree
- **Pure code** becomes functions, with lemmas about them. This covers:
  - the guards of the controllers
  - the filters and mappings of the screens
  - the carousel and paging arithmetic

The environment is passed in as parameters:

- HMAC-SHA512 and URL encoding are function parameters.
- The clock, fresh GUIDs, the transaction id and the `vnp_CreateDate` text are plain parameters.
- A method that needs fresh ids requires them to be unused.

Monetary amounts are unbounded integers; the VND amounts here have no fractional part. The one place the source truncates a decimal, `vnp_Amount`, uses an explicit decimal.

## Model

| member | source | states |
|---|---|---|
| CartService.CartService.constructor | EcommerceBe/Services/CartService.cs:13-17 | The service starts over a store without negative stock, with no cart lines, and satisfies the cart invariant. |
| CartService.CartService.AddOrUpdateCartItem | EcommerceBe/Services/CartService.cs:44-82 | Success exactly when q > 0, the variant exists and its stock is at least q. On success the lines are those of AddedLines and the stock of v drops by exactly q; on error nothing changes. For every variant, stock plus units reserved in carts is unchanged, and no stock goes negative. |
| CartService.CartService.UpdateCartItemQuantity | EcommerceBe/Services/CartService.cs:84-109 | Success exactly when newQ > 0, the user owns a line with that id, its variant exists, and old stock plus old quantity covers newQ. On success only that line's quantity changes, to newQ, and the variant's stock moves by old minus new. On error nothing changes. Stock plus reservations is conserved. |
| CartService.CartService.RemoveCartItem | EcommerceBe/Services/CartService.cs:111-125 | Fails exactly when the user has no line with that id, and then changes nothing. Otherwise the line is gone, no line with that id remains, the other lines keep their order, and its quantity goes back to its variant's stock. Stock plus reservations is conserved for every known variant. |
| CartService.CartService.ClearCart | EcommerceBe/Services/CartService.cs:127-143 | The user's cart ends empty, every other cart is untouched, and every variant gets back exactly what the user's lines reserved. |
| CartService.ReservedAfterAdd | EcommerceBe/Services/CartService.cs:56-75 | Adding q units of v reserves exactly q more units of v and no more of any other variant. |
| CartService.AddMergesLines | EcommerceBe/Services/CartService.cs:56-75 | A variant already in the user's cart merges into its first line: quantities add, the price is refreshed, the id is kept and other lines are unchanged. A new variant is appended as a new line. |
| CartService.ClearStock | EcommerceBe/Services/CartService.cs:132-141 | Clearing raises each known variant's stock by what the user's cart reserved, never lowers it, and keeps stock plus the remaining reservations equal to the old total. |
| CartService.ClearOutcome | EcommerceBe/Services/CartService.cs:127-143 | After the loop deletes every id of the user's lines, exactly the other carts remain, the user has no line left, and the cart invariant still holds. |
| CartService.WithoutUserIds | EcommerceBe/Services/CartService.cs:132-141 | Deleting the ids of all the user's lines, with unique ids, leaves exactly the other users' lines in their order. |
| CartService.ReservedSplit | EcommerceBe/Services/CartService.cs:56 | The reservation of a variant is the user's share plus everybody else's. |
| CartService.CartMembers | EcommerceBe/Services/CartService.cs:89-90 | The user's cart holds exactly the lines the user owns; the other carts hold exactly the rest. |
| CartService.UserCart | EcommerceBe/Services/CartService.cs:89-90 | The user's lines, a sub-list of all the lines. |
| CartService.OtherCarts | EcommerceBe/Services/CartService.cs:132-141 | The other users' lines, a sub-list of all the lines. |
| CartService.Returned | EcommerceBe/Services/CartService.cs:137 | Returning lines to stock keeps the set of variants. |
| CartService.FindVariantLine | EcommerceBe/Services/CartService.cs:56 | FirstOrDefault: the first line of the user's cart for the variant, or the list's length when there is none. |
| CartService.FindItemLine | EcommerceBe/Services/CartService.cs:90 | FirstOrDefault: the user's line with the given id, or the list's length when there is none. |
| CartService.ReturnedStock | EcommerceBe/Services/CartService.cs:137 | Returning lines to stock raises a variant's stock by exactly the units those lines reserved. |
| CartService.ReservedNonNegative | EcommerceBe/Services/CartService.cs:46-47 | Lines with positive quantities reserve a non-negative amount, so conservation keeps stock within its original total. |
| Inventory.MoveStock | EcommerceBe/Services/CartService.cs:77 | Moving the stock of one variant changes that variant's stock by delta and leaves every other variant and the key set unchanged. |
| Inventory.VariantStore.constructor | EcommerceBe/Services/CartService.cs:50-51 | The store holds the given variant rows, keyed by ProductVariantId, which the variant lookups read. |
| CartSlice.CartSlice.constructor | fontend/src/redux/cartSlice.ts:61-65 | The initial state holds the stored cart, status idle and no error. |
| CartSlice.CartSlice.CartActionStart | fontend/src/redux/cartSlice.ts:71-74 | Status becomes loading and the error is cleared; items stay. |
| CartSlice.CartSlice.CartActionSuccess | fontend/src/redux/cartSlice.ts:75-79 | Items become the payload, are saved, and status becomes succeeded. |
| CartSlice.CartSlice.CartActionFailed | fontend/src/redux/cartSlice.ts:80-83 | Status becomes failed and the error is the message; items stay. |
| CartSlice.CartSlice.AddItemLocally | fontend/src/redux/cartSlice.ts:84-98 | Items become Added(old items, payload) and are saved; status and error stay. |
| CartSlice.CartSlice.RemoveItemLocally | fontend/src/redux/cartSlice.ts:99-105 | Items become old items without the key and are saved. |
| CartSlice.CartSlice.UpdateItemQuantity | fontend/src/redux/cartSlice.ts:106-121 | Items become Updated(old items, key, quantity) and are saved. |
| CartSlice.CartSlice.ClearCartLocally | fontend/src/redux/cartSlice.ts:122-125 | Items and the stored cart become empty. |
| CartSlice.FindKey | fontend/src/redux/cartSlice.ts:85-90 | find: the first line whose (productId, size, color) equals the key, or the length. |
| CartSlice.Added | fontend/src/redux/cartSlice.ts:84-98 | The lines after addItemLocally; AddMerges and AddAppends state both cases. |
| CartSlice.AddMerges | fontend/src/redux/cartSlice.ts:85-93 | Adding a present key keeps the length, adds the quantity to the first matching line, keeps its price and leaves every other line unchanged. |
| CartSlice.AddAppends | fontend/src/redux/cartSlice.ts:94-96 | Adding a new key appends the payload at the end. |
| CartSlice.DropKeyMeaning | fontend/src/redux/cartSlice.ts:101-103 | After removal, a line is present exactly when it was present and has another key. Nothing grows, and removing an absent key changes nothing. |
| CartSlice.DropKeyConcat | fontend/src/redux/cartSlice.ts:101-103 | Removal filters each part of a list separately, so the remaining lines keep their order. |
| CartSlice.Updated | fontend/src/redux/cartSlice.ts:106-121 | The lines after updateItemQuantity; UpdatePositive, UpdateNonPositive and UpdateMissing state the three cases. |
| CartSlice.UpdatePositive | fontend/src/redux/cartSlice.ts:108-113 | With q > 0 and the key present, only the first matching line changes, and its quantity becomes q. |
| CartSlice.UpdateNonPositive | fontend/src/redux/cartSlice.ts:114-118 | With q <= 0 and the key present, every line with that key is removed. |
| CartSlice.UpdateMissing | fontend/src/redux/cartSlice.ts:107-112 | Updating a missing key leaves the items unchanged. |
| CartSlice.CartTotal | fontend/src/redux/cartSlice.ts:312-313 | selectCartTotal; TotalConcat, AddTotalMerged and AddTotalNew state how it sums and moves. |
| CartSlice.ItemsCount | fontend/src/redux/cartSlice.ts:314-315 | selectCartItemsCount; TotalConcat and AddCount state how it sums and moves. |
| CartSlice.TotalConcat | fontend/src/redux/cartSlice.ts:312-315 | selectCartTotal and selectCartItemsCount add up over concatenation: they are sums over the lines. |
| CartSlice.AddCount | fontend/src/redux/cartSlice.ts:84-96 | Adding a payload raises the item count by exactly its quantity, merged or appended. |
| CartSlice.AddTotalMerged | fontend/src/redux/cartSlice.ts:92-93 | Merging into a line raises the total by that line's price times the added quantity. |
| CartSlice.AddTotalNew | fontend/src/redux/cartSlice.ts:94-96 | Appending a new line raises the total by its price times its quantity. |
| CartSlice.AddedMerges | fontend/src/redux/cartSlice.ts:85-93 | Adding a present key is the same as bumping the first matching line's quantity in place. |
| CartSlice.FindKeyIsFirst | fontend/src/redux/cartSlice.ts:85-90 | find returns the first position holding the key. |
| CartSlice.TotalReplace | fontend/src/redux/cartSlice.ts:312-315 | Replacing one line changes the total and the count by the difference of that line only. |
| OrderService.OrderService.constructor | EcommerceBe/Services/OrderService.cs:13-17 | The service starts with no orders over a store without negative stock. |
| OrderService.OrderService.CreateOrder | EcommerceBe/Services/OrderService.cs:19-61 | The store ends as Place leaves it: earlier decrements stay even when a later line fails. Success exactly when no line fails. Then the new order has status "Pending", the placed items and their total, under the fresh id. On error no order is added and the message is the failing line's. |
| OrderService.Place | EcommerceBe/Services/OrderService.cs:23-44 | The loop over the order lines; PlaceSucceeds, PlaceFailureKeepsEarlierDecrements and PlaceErrorSticks state its outcome. |
| OrderService.PlaceSucceeds | EcommerceBe/Services/OrderService.cs:23-44 | When every line succeeds there is one order item per line, in input order, with the variant's product and price. The total is the sum of price times quantity. Each variant's stock drops by exactly the quantity ordered of it. |
| OrderService.PlaceFailureKeepsEarlierDecrements | EcommerceBe/Services/OrderService.cs:25-33 | When line k is the first to fail, the whole order fails, and every variant keeps exactly the decrements of lines before k. |
| OrderService.PlaceErrorSticks | EcommerceBe/Services/OrderService.cs:26-29 | Once a line has failed, the remaining lines change nothing. |
| OrderService.PlaceStepTakes | EcommerceBe/Services/OrderService.cs:25-43 | A line whose variant has enough stock decrements that stock by the quantity and appends an item. The item snapshots the variant's price, and the total grows by price times quantity. |
| OrderService.PlaceExtend | EcommerceBe/Services/OrderService.cs:23 | Placing one more line is one more step of the loop. |
| OrderService.TakeKeepsNonNegative | EcommerceBe/Services/OrderService.cs:28-32 | Taking at most the available stock leaves no stock negative. |
| OrderService.OrderService.UpdateOrderStatus | EcommerceBe/Services/OrderService.cs:115-121 | An unknown order fails with "Order not found" and nothing changes; otherwise only that order's status changes, to exactly the given one. |
| OrderService.OrderService.CancelOrder | EcommerceBe/Services/OrderService.cs:123-126 | An unknown order fails with "Order not found"; otherwise only that order's status changes, to "Cancelled". |
| OrderController.GetOrder | EcommerceBe/Controllers/OrderController.cs:39-48 | The order is returned exactly to its owner; anybody else gets Forbid. |
| OrderController.CancellableAsWritten | EcommerceBe/Controllers/OrderController.cs:75-79 | The status test as written; AsWrittenRefusesNewOrder states that it refuses "Pending". |
| OrderController.Cancellable | EcommerceBe/Controllers/OrderController.cs:75-79 | The corrected status test; CancelNewOrder states that it accepts "Pending", CancelledStaysCancelled that it refuses "Cancelled". |
| OrderController.CancelUserOrderAsWritten | EcommerceBe/Controllers/OrderController.cs:65-88 | As written, a cancel succeeds exactly for an owner whose order's status is literally "pending" or "confirmed". Every refusal leaves the orders unchanged. |
| OrderController.AsWrittenRefusesNewOrder | EcommerceBe/Controllers/OrderController.cs:75-79 | As written, an owner's order in the stored status "Pending" is refused with a BadRequest and left unchanged. |
| OrderController.CancelUserOrder | EcommerceBe/Controllers/OrderController.cs:65-88 | Corrected: a non-owner gets Forbid. The cancel succeeds exactly for an owner whose status is pending or confirmed in any case. Success marks only that order "Cancelled"; a refusal changes nothing. |
| OrderController.CancelNewOrder | EcommerceBe/Controllers/OrderController.cs:75-81 | Corrected: an owner can cancel a freshly created "Pending" order, which ends "Cancelled". |
| OrderController.CancelledStaysCancelled | EcommerceBe/Controllers/OrderController.cs:75-79 | A cancelled order cannot be cancelled again. |
| OrderController.LowerPending | EcommerceBe/Services/OrderService.cs:55 | The stored status "Pending" lower-cases to "pending", which the corrected guard accepts. |
| AdminOrderManagement.StatusColor | fontend/src/components/admin/AdminOrderManagement.tsx:84-99 | The colour is "default" exactly for a status that is none of the five known ones in any case. |
| AdminOrderManagement.StatusText | fontend/src/components/admin/AdminOrderManagement.tsx:101-116 | An unknown status label is returned unchanged. |
| AdminOrderManagement.KnownLabelsDistinct | fontend/src/components/admin/AdminOrderManagement.tsx:101-116 | Two known statuses with the same label are the same status ignoring case. |
| AdminOrderManagement.NextStatus | fontend/src/components/admin/AdminOrderManagement.tsx:194-223 | A transition button is offered exactly for "Pending", "Processing" and "Shipping". |
| AdminOrderManagement.TransitionsMoveForward | fontend/src/components/admin/AdminOrderManagement.tsx:194-223 | Each offered transition moves one step along Pending, Processing, Shipping, Delivered; Delivered, Cancelled and unknown statuses offer none. |
| AdminOrderManagement.PendingReachesDelivered | fontend/src/components/admin/AdminOrderManagement.tsx:194-223 | Pending goes to Processing, then Shipping, then Delivered, where the buttons stop. |
| AdminOrderManagement.FilteredMembers | fontend/src/components/admin/AdminOrderManagement.tsx:129-137 | An order is listed exactly when it matches the status filter ("all" or equal ignoring case) and the search. The search matches when empty, or when orderId, recipientName or userName contains it ignoring case. |
| AdminOrderManagement.DefaultFilterKeepsAll | fontend/src/components/admin/AdminOrderManagement.tsx:129-137 | Status "all" with an empty search keeps every order in order. |
| AdminOrderManagement.FilteredOrders | fontend/src/components/admin/AdminOrderManagement.tsx:129-137 | The filter never adds orders. |
| MockPayment.MockPaymentService.constructor | EcommerceBe/Services/MockPaymentService.cs:15-18 | The service starts with no transactions. |
| MockPayment.MockPaymentService.CreatePayment | EcommerceBe/Services/MockPaymentService.cs:18-58 | A new Pending transaction is stored under its id, and the response is Success with URL "/api/mockpayment/process/{id}". |
| MockPayment.PaymentUrl | EcommerceBe/Services/MockPaymentService.cs:46 | "/api/mockpayment/process/{id}"; CreatePayment states it is the returned URL. |
| MockPayment.NewTransaction | EcommerceBe/Services/MockPaymentService.cs:24-39 | A created transaction is Pending, carries the request's order, amount and method, and uses the request's simulation or the default one. |
| MockPayment.MockPaymentService.ProcessPayment | EcommerceBe/Services/MockPaymentService.cs:72-141 | An unknown id answers Failed/"01" "Transaction not found" and changes nothing. Otherwise the transaction becomes Processed and the callback reports it. |
| MockPayment.Processed | EcommerceBe/Services/MockPaymentService.cs:105-127 | The status is Success with "00" and "Payment successful" exactly when the simulation should succeed. Otherwise it is Failed with "05" and the failure reason, or "Payment failed" when there is none. Nothing else changes. |
| MockPayment.ProcessCallback | EcommerceBe/Services/MockPaymentService.cs:129-141 | The callback repeats the processed status, code and message; the bank reference is the simulation's or "MOCK_" + id. |
| MockPayment.ProcessingSettles | EcommerceBe/Services/MockPaymentService.cs:105-127 | Processing always ends in Success or Failed, Success exactly with code "00", and processing again changes nothing. |
| MockPayment.ProcessingAfterCancel | EcommerceBe/Services/MockPaymentService.cs:76-127 | Processing has no status guard: a cancelled transaction that should succeed is processed into Success. |
| MockPayment.MockPaymentService.CancelPayment | EcommerceBe/Services/MockPaymentService.cs:204-223 | Returns false, changing nothing, exactly for an unknown or successful transaction. Otherwise it marks the transaction Cancelled with "Payment cancelled" and returns true. |
| MockPayment.CancelledTx | EcommerceBe/Services/MockPaymentService.cs:217-218 | Cancelling sets status Cancelled and message "Payment cancelled" and nothing else. |
| MockPayment.MockPaymentService.VerifyPayment | EcommerceBe/Services/MockPaymentService.cs:181-202 | IsValid exactly when the id exists. The status and message are then the transaction's, with GetStatusMessage for a missing message; otherwise Failed with "Transaction not found". |
| MockPayment.MockPaymentService.GetPaymentStatus | EcommerceBe/Services/MockPaymentService.cs:156-179 | With no transaction for the order: Failed with "Payment not found". Otherwise, the report of some transaction of that order. |
| MockPayment.MockPaymentService.AllPayments | EcommerceBe/Services/MockPaymentService.cs:225-235 | One report per transaction, with its id, status and shown message. |
| MockPayment.ShownMessage | EcommerceBe/Services/MockPaymentService.cs:176 | The stored message, or the status message when there is none. |
| MockPayment.StatusMessageDistinct | EcommerceBe/Services/MockPaymentService.cs:242-254 | GetStatusMessage gives every status its own message. |
| VnPayLibrary.VnPayCompare | EcommerceBe/Services/VNPayService.cs:229-240 | 0 exactly on equal keys, null before any string, and otherwise the sign of the ordinal comparison. |
| VnPayLibrary.CompareAntisymmetric | EcommerceBe/Services/VNPayService.cs:229-240 | x sorts before y exactly when y sorts after x. |
| VnPayLibrary.VnPayLibrary.constructor | EcommerceBe/Services/VNPayService.cs:138-139 | Both sorted lists start empty. |
| VnPayLibrary.SortedAdd | EcommerceBe/Services/VNPayService.cs:141-155 | SortedList.Add keeps the list sorted by key. It fails, changing nothing, exactly on a key already present; otherwise it adds exactly the new pair. |
| VnPayLibrary.VnPayLibrary.AddRequestData | EcommerceBe/Services/VNPayService.cs:141-147 | An empty value is ignored. A duplicate key fails and changes nothing. Otherwise the request data gains exactly the pair and stays sorted. |
| VnPayLibrary.VnPayLibrary.AddResponseData | EcommerceBe/Services/VNPayService.cs:149-155 | The same for the response data. |
| VnPayLibrary.VnPayLibrary.GetResponseData | EcommerceBe/Services/VNPayService.cs:157-160 | The value stored under the key, or "" exactly when the key is absent. |
| VnPayLibrary.LookUp | EcommerceBe/Services/VNPayService.cs:159 | TryGetValue on a sorted list of non-empty values: the stored value, or "" exactly when the key is absent. |
| VnPayLibrary.BuildQuery | EcommerceBe/Services/VNPayService.cs:164-172 | The StringBuilder loop produces Join: the encoded key=value pairs in list order, separated by '&'. |
| VnPayLibrary.Join | EcommerceBe/Services/VNPayService.cs:164-172 | The query string; BuildQuery states the loop computes it, JoinEmpty and JoinExtend its separators. |
| VnPayLibrary.JoinExtend | EcommerceBe/Services/VNPayService.cs:165-172 | Each pair after the first is preceded by exactly one '&'. |
| VnPayLibrary.JoinEmpty | EcommerceBe/Services/VNPayService.cs:167 | The query is empty exactly when there are no pairs. |
| VnPayLibrary.VnPayLibrary.CreateRequestUrl | EcommerceBe/Services/VNPayService.cs:162-180 | The URL is baseUrl + "?" + query + "&vnp_SecureHash=" + HMAC(secret, query). |
| VnPayLibrary.VnPayLibrary.ValidateSignature | EcommerceBe/Services/VNPayService.cs:182-210 | vnp_SecureHash and vnp_SecureHashType are removed from the response data. The result is true exactly when the HMAC of the rest equals the given hash, ignoring case. |
| VnPayLibrary.RemoveKey | EcommerceBe/Services/VNPayService.cs:192-199 | Removing a key keeps exactly the other pairs. |
| VnPayLibrary.RemoveKeySorted | EcommerceBe/Services/VNPayService.cs:192-199 | Removing a key keeps the list sorted. |
| VnPayLibrary.RemoveAbsentKey | EcommerceBe/Services/VNPayService.cs:192-199 | Removing an absent key changes nothing. |
| VnPayLibrary.SortedUnique | EcommerceBe/Services/VNPayService.cs:138-139 | Two sorted lists with the same pairs are equal, so the query depends only on which pairs were added, not on the order of the Add calls. |
| VnPayLibrary.InsertSorted | EcommerceBe/Services/VNPayService.cs:145 | Inserting a new key keeps the list sorted and adds exactly that pair. |
| VnPayLibrary.FilledSorted | EcommerceBe/Services/VNPayService.cs:141-147 | Adding pairs with distinct keys gives a sorted list of exactly those with non-empty values. |
| VnPayLibrary.SignedRequestValidates | EcommerceBe/Services/VNPayService.cs:162-187 | A hash made by CreateRequestUrl over pairs without the two hash keys validates with the same secret, ignoring case. |
| VNPayService.CreatePayment | EcommerceBe/Services/VNPayService.cs:22-56 | The response is Success with "Payment URL created successfully" and the order id. Its URL is the base URL, the sorted query of the twelve request fields, and their HMAC. |
| VNPayService.RequestFields | EcommerceBe/Services/VNPayService.cs:32-43 | The twelve request fields in call order; RequestKeysDistinct and RequestQueryOrder state their names and order in the query. |
| VNPayService.AddRequestFields | EcommerceBe/Services/VNPayService.cs:32-43 | The twelve AddRequestData calls leave exactly the fields with non-empty values in the request data. |
| VNPayService.RequestKeysDistinct | EcommerceBe/Services/VNPayService.cs:32-43 | The twelve request field names are distinct, so no Add call throws. |
| VNPayService.RequestQueryOrder | EcommerceBe/Services/VNPayService.cs:32-45 | The query lists exactly the non-empty request fields, in ordinal key order. |
| VNPayService.PaymentSignatureChecks | EcommerceBe/Services/VNPayService.cs:182-187 | The hash in a payment URL validates against the same fields with the same secret. |
| VNPayService.MinorUnits | EcommerceBe/Services/VNPayService.cs:35 | The vnp_Amount value; MinorUnitsTruncates states the truncation. |
| VNPayService.MinorUnitsTruncates | EcommerceBe/Services/VNPayService.cs:35 | vnp_Amount is amount × 100 truncated toward zero: within one unit of the exact value, on the side of zero, and exact for whole amounts. |
| VNPayService.DecimalStringRoundTrip | EcommerceBe/Services/VNPayService.cs:35 | long.ToString() starts with '-' exactly for negative numbers, and its digits read back as the absolute value. |
| VNPayService.DigitsRoundTrip | EcommerceBe/Services/VNPayService.cs:35 | The decimal digits of a natural number read back as that number. |
| VNPayService.Digits | EcommerceBe/Services/VNPayService.cs:35 | A natural number prints as a non-empty run of decimal digits. |
| VNPayService.NegativeText | EcommerceBe/Services/VNPayService.cs:35 | A negative number prints as '-' and the digits of its absolute value. |
| VNPayService.NonNegativeText | EcommerceBe/Services/VNPayService.cs:35 | A non-negative number prints without '-' and reads back as itself. |
| VNPayService.ProcessCallback | EcommerceBe/Services/VNPayService.cs:69-83 | Each callback property takes the value of the query parameter of its name, "" when absent, and no other parameter matters. |
| VNPayService.CallbackRoundTrip | EcommerceBe/Services/VNPayService.cs:69-83 | Reading back the query of a callback's own properties gives that callback. |
| VNPayService.UnknownParameterIgnored | EcommerceBe/Services/VNPayService.cs:75-76 | A parameter with no matching property does not change the callback. |
| VNPayService.CallbackFields | EcommerceBe/Services/VNPayService.cs:92 | The callback's fields come in declaration order, one per property. |
| VNPayService.CallbackKeys | EcommerceBe/Services/VNPayService.cs:92 | The property names are distinct. |
| VNPayService.SignedKeys | EcommerceBe/Services/VNPayService.cs:92-102 | The signed fields have distinct names and include neither hash key. |
| VNPayService.AddResponseFields | EcommerceBe/Services/VNPayService.cs:92-102 | The property loop leaves exactly the non-empty fields other than vnp_SecureHash in the response data. |
| VNPayService.SignatureMatches | EcommerceBe/Services/VNPayService.cs:104-110 | The signature test; CheckCallbackSignature states that the method computes it. |
| VNPayService.CallbackValid | EcommerceBe/Services/VNPayService.cs:85-127 | What ValidateCallbackAsync accepts; ValidateCallback states that the method computes it, GatewaySignedCallbackValid that a gateway-signed success passes. |
| VNPayService.CheckCallbackSignature | EcommerceBe/Services/VNPayService.cs:89-110 | True exactly when the HMAC of the sorted non-empty signed fields equals vnp_SecureHash, ignoring case. |
| VNPayService.ValidateCallback | EcommerceBe/Services/VNPayService.cs:85-127 | True exactly when the signature matches and vnp_ResponseCode is "00". |
| VNPayService.GatewaySignedCallbackValid | EcommerceBe/Services/VNPayService.cs:104-120 | A callback signed by the gateway with the shared secret and code "00" is valid. |
| PaymentController.CreatePayment | EcommerceBe/Controllers/PaymentController.cs:29-67 | A missing request, an amount <= 0 and an empty OrderId each get their BadRequest, in that order. Otherwise the reply is 200 with the service's signed payment URL. |
| PaymentController.CreatePaymentDirect | EcommerceBe/Controllers/PaymentController.cs:70-101 | The same checks and reply, without the missing-request check. |
| PaymentController.PaymentCallback | EcommerceBe/Controllers/PaymentController.cs:103-152 | No parameters redirects with error=no_params. A valid callback redirects with status=success; any other redirects with status=failed and valid=False. |
| PaymentController.SuccessRedirect | EcommerceBe/Controllers/PaymentController.cs:126-137 | The success redirect; PaymentCallback states when it is chosen, RedirectsDiffer that it differs from the failure redirect. |
| PaymentController.FailedRedirect | EcommerceBe/Controllers/PaymentController.cs:138-145 | The failure redirect with its validity flag; PaymentCallback states when it is chosen. |
| PaymentController.RedirectsDiffer | EcommerceBe/Controllers/PaymentController.cs:136-144 | The success and failure redirects are never the same URL. |
| PaymentController.PaymentIpnAsWritten | EcommerceBe/Controllers/PaymentController.cs:154-209 | As written: no parameters answers "99". "00" is answered exactly when ValidateCallbackAsync accepts, which also demands code "00"; otherwise "97". |
| PaymentController.IpnRefusesSignedFailure | EcommerceBe/Controllers/PaymentController.cs:175-201 | A correctly signed callback whose response code is not "00" is not valid, so the IPN as written answers it "97 Fail checksum". |
| PaymentController.PaymentIpn | EcommerceBe/Controllers/PaymentController.cs:154-209 | Corrected: no parameters answers "99", a matching signature "00" whether or not the payment succeeded, and a wrong signature "97". |
| PaymentController.IpnDifference | EcommerceBe/Controllers/PaymentController.cs:177-201 | A valid callback always has a matching signature. The two IPNs differ exactly on a correctly signed callback with a code other than "00". |
| ProductRepository.ProductStore.constructor | EcommerceBe/Repositories/ProductRepository.cs:55-61 | The store holds the given products and categories. |
| ProductRepository.ProductStore.Update | EcommerceBe/Repositories/ProductRepository.cs:55-166 | An unknown product id fails (NotFoundException) and changes nothing. Equal category and subcategory ids also fail and change nothing: the two ProductCategories rows share the composite key (ProductId, CategoryId) declared at EcommerceBe/Database/AppDbContext.cs line 57, so SaveChangesAsync throws. Otherwise only that product is replaced, by its reconciled version, and the categories table is unchanged. |
| ProductRepository.Updated | EcommerceBe/Repositories/ProductRepository.cs:66-163 | The update keeps id, creation date and deleted flag. It copies name, description, original price and shop, stamps the time, and makes the categories exactly [CategoryId, SubcategoryId]. |
| ProductRepository.FindProduct | EcommerceBe/Repositories/ProductRepository.cs:57-61 | FirstOrDefault by product id, or the length when absent. |
| ProductRepository.ReconcileVariants | EcommerceBe/Repositories/ProductRepository.cs:74-117 | The removal and the foreach loop produce ReconciledVariants. |
| ProductRepository.ReconciledVariants | EcommerceBe/Repositories/ProductRepository.cs:74-117 | The variants after UpdateAsync; VariantKeysMatchIncoming, MatchedVariantsKeepIdentity and ApplyVariantRefreshes state their keys, identities and values. |
| ProductRepository.VariantKeysMatchIncoming | EcommerceBe/Repositories/ProductRepository.cs:74-117 | After the update, the set of Size-ColorCode keys equals the incoming key set. |
| ProductRepository.MatchedVariantsKeepIdentity | EcommerceBe/Repositories/ProductRepository.cs:78-115 | Kept variants keep their id, views and sales; every added variant has a fresh id and zero views and sales. |
| ProductRepository.KeepVariants | EcommerceBe/Repositories/ProductRepository.cs:78-83 | Exactly the variants whose key is incoming survive the removal. |
| ProductRepository.FindVariant | EcommerceBe/Repositories/ProductRepository.cs:88-89 | FirstOrDefault by key. |
| ProductRepository.ApplyVariantKeys | EcommerceBe/Repositories/ProductRepository.cs:85-117 | One step adds exactly the incoming key to the key set. |
| ProductRepository.ApplyVariantKeeps | EcommerceBe/Repositories/ProductRepository.cs:91-115 | One step keeps each existing variant's identity and counters, and anything appended is the new variant. |
| ProductRepository.ApplyVariantRefreshes | EcommerceBe/Repositories/ProductRepository.cs:91-98 | After a step, the variant with the incoming key has the incoming stock and price. |
| ProductRepository.ApplyVariantsKeys | EcommerceBe/Repositories/ProductRepository.cs:85-117 | After n steps the key set is the old one plus the first n incoming keys. |
| ProductRepository.ApplyVariantsIdentity | EcommerceBe/Repositories/ProductRepository.cs:85-117 | After n steps the old variants keep their identity, and every appended one is new with one of the first n fresh ids. |
| ProductRepository.ReconcileImages | EcommerceBe/Repositories/ProductRepository.cs:120-150 | The removal and, when the list is non-empty, the for loop produce ReconciledImages. |
| ProductRepository.MarkOrAddImages | EcommerceBe/Repositories/ProductRepository.cs:129-150 | The for loop over the URLs equals ApplyImages over all of them. |
| ProductRepository.ReconciledImages | EcommerceBe/Repositories/ProductRepository.cs:120-150 | The images after UpdateAsync; ImageUrlsMatchIncoming and FirstImagePrimary state their URLs and primary flag. |
| ProductRepository.ImageUrlsMatchIncoming | EcommerceBe/Repositories/ProductRepository.cs:120-150 | After the update the set of trimmed image URLs equals the set of trimmed incoming URLs. A null list leaves none. |
| ProductRepository.FirstImagePrimary | EcommerceBe/Repositories/ProductRepository.cs:129-150 | With distinct trimmed URLs, each incoming URL has an image, and exactly the first is primary. |
| ProductRepository.RepeatedFirstUrlLeavesNoPrimary | EcommerceBe/Repositories/ProductRepository.cs:131-148 | When the first URL is repeated, the second pass clears the flag the first set, and no image is primary. |
| ProductRepository.KeepImages | EcommerceBe/Repositories/ProductRepository.cs:122-127 | Exactly the images whose trimmed URL is incoming survive the removal. |
| ProductRepository.FindImage | EcommerceBe/Repositories/ProductRepository.cs:134 | FirstOrDefault by trimmed URL. |
| ProductRepository.TrimIsIdempotent | EcommerceBe/Repositories/ProductRepository.cs:133-134 | Trimming twice is trimming once, so stored trimmed URLs match themselves. |
| ProductRepository.ApplyImageUrls | EcommerceBe/Repositories/ProductRepository.cs:133-148 | One pass adds exactly the trimmed URL to the URL set. |
| ProductRepository.ApplyImagesUrls | EcommerceBe/Repositories/ProductRepository.cs:131-149 | After n passes the URL set is the old one plus the first n trimmed URLs. |
| ProductRepository.ApplyImageSets | EcommerceBe/Repositories/ProductRepository.cs:135-147 | A pass leaves the image of its URL with IsPrimary equal to (i == 0). |
| ProductRepository.ApplyImageLeavesOthers | EcommerceBe/Repositories/ProductRepository.cs:133-148 | A pass does not touch the image of any other URL. |
| ProductRepository.ApplyImagesPrimary | EcommerceBe/Repositories/ProductRepository.cs:131-149 | With distinct URLs, after n passes the image of URL m is primary exactly when m == 0. |
| ProductRepository.PassMarks | EcommerceBe/Repositories/ProductRepository.cs:131-149 | Pass n keeps the marks of earlier URLs and sets its own. |
| ProductRepository.PassKeepsEarlierMarks | EcommerceBe/Repositories/ProductRepository.cs:131-149 | Pass n keeps the marks of earlier distinct URLs. |
| ProductRepository.ChildrenOf | EcommerceBe/Repositories/ProductRepository.cs:198-201 | The direct children of a category: the ids whose parent is it. |
| ProductRepository.ChildCategoryIdsExact | EcommerceBe/Repositories/ProductRepository.cs:196-209 | GetAllChildCategoryIds yields exactly the categories below the parent. |
| ProductRepository.BelowAllExact | EcommerceBe/Repositories/ProductRepository.cs:204-207 | The loop over the children collects exactly what lies below any of them. |
| ProductRepository.ProductsByCategoryTree | EcommerceBe/Repositories/ProductRepository.cs:190-224 | The tree query only filters the products. |
| ProductRepository.CategoryTreeIds | EcommerceBe/Repositories/ProductRepository.cs:196-212 | The root and every category below it; ChildCategoryIdsExact and CategoryTreeMembers state exactly which ids it holds. |
| ProductRepository.CategoryTreeMembers | EcommerceBe/Repositories/ProductRepository.cs:211-221 | A product is returned exactly when it is present and not deleted, and has a category that is the root or lies below it. |
| ProductRepository.ProductsInTreeMembers | EcommerceBe/Repositories/ProductRepository.cs:211-221 | The same, stated against the computed id list. |
| ProductRepository.Filtered | EcommerceBe/Repositories/ProductRepository.cs:284-297 | A product passes exactly when it matches every set filter: shop, search term in name or description, category, and min and max price. |
| ProductRepository.Matches | EcommerceBe/Repositories/ProductRepository.cs:284-297 | The query filters; Filtered states that a product passes exactly when it matches them. |
| ProductRepository.Ordering | EcommerceBe/Repositories/ProductRepository.cs:299-321 | No sort key, or an unknown one, sorts by creation date, newest first. |
| ProductRepository.SortProducts | EcommerceBe/Repositories/ProductRepository.cs:299-321 | Sorting is a permutation of the filtered products. |
| ProductRepository.SortProductsOrdered | EcommerceBe/Repositories/ProductRepository.cs:299-321 | The sorted list is ordered by the chosen key and direction. |
| ProductRepository.InsertOrdered | EcommerceBe/Repositories/ProductRepository.cs:305-314 | Insertion adds exactly one element. |
| ProductRepository.InsertKeepsOrder | EcommerceBe/Repositories/ProductRepository.cs:305-314 | Inserting into an ordered list keeps it ordered. |
| ProductRepository.BeforeIrreflexive | EcommerceBe/Repositories/ProductRepository.cs:305-314 | No product sorts before itself. |
| ProductRepository.BeforeTransitive | EcommerceBe/Repositories/ProductRepository.cs:305-314 | The sort order is transitive. |
| ProductRepository.PageBounds | EcommerceBe/Repositories/ProductRepository.cs:324-327 | Skip((Page-1)·PageSize).Take(PageSize) stays within the list: it starts at the skip count or the end, and holds at most PageSize items. |
| ProductRepository.QueryProducts | EcommerceBe/Repositories/ProductRepository.cs:276-334 | TotalCount counts the filtered products. Items holds at most PageSize of them, and every item is a matching product. |
| ProductRepository.QueryPage | EcommerceBe/Repositories/ProductRepository.cs:299-333 | Items is the page slice of the sorted filtered list, which is ordered and a permutation of the filtered products. |
| ShippingAddress.ShippingAddressRepository.constructor | EcommerceBe/Repositories/ShippingAddressRepository.cs:12-15 | The repository holds the given addresses. |
| ShippingAddress.ShippingAddressRepository.GetByUserId | EcommerceBe/Repositories/ShippingAddressRepository.cs:17-23 | Exactly the user's addresses, each once, with every default before every non-default. |
| ShippingAddress.ByUser | EcommerceBe/Repositories/ShippingAddressRepository.cs:17-23 | The listing; ByUserListsTheUsersAddresses states that it is a permutation of the user's addresses with defaults first. |
| ShippingAddress.ByUserListsTheUsersAddresses | EcommerceBe/Repositories/ShippingAddressRepository.cs:17-23 | The query is a permutation of the user's addresses, holds no other user's, and puts defaults first. |
| ShippingAddress.OfUserSplits | EcommerceBe/Repositories/ShippingAddressRepository.cs:19-21 | The user's defaults and non-defaults together are all the user's addresses. |
| ShippingAddress.DefaultsFirst | EcommerceBe/Repositories/ShippingAddressRepository.cs:21 | Defaults followed by non-defaults put every default first. |
| ShippingAddress.OfUser | EcommerceBe/Repositories/ShippingAddressRepository.cs:20-21 | The user's addresses with the given default flag. |
| ShippingAddress.UserAddresses | EcommerceBe/Repositories/ShippingAddressRepository.cs:20 | The user's addresses. |
| ShippingAddress.ShippingAddressRepository.GetById | EcommerceBe/Repositories/ShippingAddressRepository.cs:24-27 | The address with that id, or None exactly when there is none. |
| ShippingAddress.FindAddress | EcommerceBe/Repositories/ShippingAddressRepository.cs:26 | The position of the address with that id, or the length. |
| ShippingAddress.ShippingAddressRepository.Add | EcommerceBe/Repositories/ShippingAddressRepository.cs:29-31 | The address is appended. |
| ShippingAddress.ShippingAddressRepository.Update | EcommerceBe/Repositories/ShippingAddressRepository.cs:32-35 | The stored address with the same id is replaced. |
| ShippingAddress.ShippingAddressRepository.Delete | EcommerceBe/Repositories/ShippingAddressRepository.cs:36-39 | The stored address with the same id is removed. |
| ShippingAddress.Removed | EcommerceBe/Repositories/ShippingAddressRepository.cs:36-39 | Removal drops exactly that one address. |
| ShippingAddress.ShippingAddressRepository.UnsetDefault | EcommerceBe/Repositories/ShippingAddressRepository.cs:40-46 | Clears IsDefault on the user's first default address; a no-op when there is none. |
| ShippingAddress.FirstDefault | EcommerceBe/Repositories/ShippingAddressRepository.cs:41 | FirstOrDefault: the user's first default address, or the length. |
| ShippingAddress.UnsetTouchesOnlyTheUser | EcommerceBe/Repositories/ShippingAddressRepository.cs:40-46 | Unsetting changes no address but in IsDefault, never another user's, and never sets a flag. |
| ShippingAddress.UnsetLeavesNoDefault | EcommerceBe/Repositories/ShippingAddressRepository.cs:40-46 | With at most one default per user, unsetting leaves the user no default and keeps the invariant. |
| ShippingAddress.UnsetKeepsPositions | EcommerceBe/Repositories/ShippingAddressRepository.cs:40-46 | Unsetting keeps every address at its position. |
| ShippingAddress.ShippingAddressService.constructor | EcommerceBe/Services/ShippingAddressService.cs:11-14 | The service works on the given repository. |
| ShippingAddress.ShippingAddressService.GetAddresses | EcommerceBe/Services/ShippingAddressService.cs:16-30 | One dto per address of the user's query, in its order. |
| ShippingAddress.ShippingAddressService.Create | EcommerceBe/Services/ShippingAddressService.cs:32-57 | Returns true. When the new address is default it first clears the user's default, then appends the new address. |
| ShippingAddress.Created | EcommerceBe/Services/ShippingAddressService.cs:32-57 | The table after CreateAsync; Create's ensures ties the method to it, CreatedKeepsOneDefault states the default invariant it keeps. |
| ShippingAddress.CreatedKeepsOneDefault | EcommerceBe/Services/ShippingAddressService.cs:32-57 | Creating keeps at most one default per user. The new address is last, and a new default leaves the user no other default. |
| ShippingAddress.ShippingAddressService.Update | EcommerceBe/Services/ShippingAddressService.cs:59-83 | A missing or foreign address throws "Không thể cập nhật địa chỉ." and changes nothing. Otherwise the default is cleared when the form sets it, and every field is copied from the form. |
| ShippingAddress.Copied | EcommerceBe/Services/ShippingAddressService.cs:71-78 | The updated address keeps id, owner and creation date, takes every form field, and stamps the time. |
| ShippingAddress.Edited | EcommerceBe/Services/ShippingAddressService.cs:59-83 | The table after UpdateAsync; Copied states the new address, EditedKeepsOneDefault the invariant. |
| ShippingAddress.EditedKeepsOneDefault | EcommerceBe/Services/ShippingAddressService.cs:59-83 | Editing keeps at most one default per user and leaves other users' addresses unchanged. |
| ShippingAddress.ShippingAddressService.Delete | EcommerceBe/Services/ShippingAddressService.cs:85-94 | A missing or foreign address throws "Không thể xóa địa chỉ." and changes nothing; otherwise the address is removed. |
| ShippingAddress.RemovedKeepsOneDefault | EcommerceBe/Services/ShippingAddressService.cs:85-94 | Removing keeps at most one default per user. |
| ShippingAddress.ShippingAddressService.SetDefault | EcommerceBe/Services/ShippingAddressService.cs:96-109 | A missing or foreign address throws "Không tìm thấy địa chỉ." and changes nothing. Otherwise the user's default is cleared and the target becomes default. |
| ShippingAddress.MadeDefault | EcommerceBe/Services/ShippingAddressService.cs:96-109 | The table after SetDefaultAsync; MadeDefaultIsTheOnlyDefault states that the target is the user's only default. |
| ShippingAddress.MadeDefaultIsTheOnlyDefault | EcommerceBe/Services/ShippingAddressService.cs:96-109 | After SetDefault the target is the user's only default, and the invariant holds. |
| ShippingAddress.FirstDefaultIs | EcommerceBe/Repositories/ShippingAddressRepository.cs:41 | The first default is the unique position with no user default before it. |
| ShippingAddress.FindAddressByIds | EcommerceBe/Repositories/ShippingAddressRepository.cs:26 | Lookup by id depends only on the ids in order. |
| ReviewService.ReviewStore.constructor | EcommerceBe/Services/ReviewService.cs:17-24 | The store holds the given reviews, users and products. |
| ReviewService.ReviewStore.AddReview | EcommerceBe/Services/ReviewService.cs:26-61 | A refusal throws its error and changes nothing; otherwise the new review is appended. |
| ReviewService.AddReviewError | EcommerceBe/Services/ReviewService.cs:29-48 | No error exactly when all of these hold: the dto is present, ProductId is not empty, the rating is in 1..5, the user and product exist, and the user has not reviewed the product. A rating outside 1..5 is always refused. |
| ReviewService.AddedKeepsOneReviewEach | EcommerceBe/Services/ReviewService.cs:46-60 | An accepted review keeps one review per user and product, and stores the given rating, comment, user and product. |
| ReviewService.SecondReviewRefused | EcommerceBe/Services/ReviewService.cs:46-48 | After an accepted review, the same review again is refused with "User has already reviewed this product." |
| ReviewService.FindByUserAndProduct | EcommerceBe/Services/ReviewService.cs:46 | The first review by that user of that product, or the length. |
| ReviewService.ReviewStore.DeleteReview | EcommerceBe/Services/ReviewService.cs:120-130 | Refused, changing nothing, unless both ids are set and the review exists and belongs to the user; otherwise it is removed. |
| ReviewService.DeleteReviewError | EcommerceBe/Services/ReviewService.cs:122-127 | No error exactly when both ids are non-empty and the review exists and is the user's. |
| ReviewService.Without | EcommerceBe/Services/ReviewService.cs:129 | Deletion drops exactly that review. |
| ReviewService.WithoutKeepsOneReviewEach | EcommerceBe/Services/ReviewService.cs:129 | Deleting keeps one review per user and product. |
| ReviewService.FindReview | EcommerceBe/Services/ReviewService.cs:125 | GetByIdAsync: the position of the review with that id, or the length. |
| ReviewService.ReviewStore.AddSellerReply | EcommerceBe/Services/ReviewService.cs:133-151 | Refused, changing nothing, without a dto, a review id, a non-blank reply, a seller id and an existing review. Otherwise only that review's reply and reply time are set. |
| ReviewService.AddReplyError | EcommerceBe/Services/ReviewService.cs:135-146 | No error exactly when the dto, review id, non-blank reply and seller id are present and the review exists. |
| ReviewService.ReviewStore.DeleteSellerReply | EcommerceBe/Services/ReviewService.cs:153-165 | Refused, changing nothing, without both ids and an existing review; otherwise that review's reply is cleared. |
| ReviewService.DeleteReplyError | EcommerceBe/Services/ReviewService.cs:155-162 | No error exactly when both ids are non-empty and the review exists. |
| ReviewService.RepliedKeepsOneReviewEach | EcommerceBe/Services/ReviewService.cs:150-164 | Setting or clearing a reply keeps one review per user and product. |
| ReviewService.ReviewStore.ListReviews | EcommerceBe/Services/ReviewService.cs:63-99 | An empty id throws. Otherwise there is one dto per matching review, carrying that review's id, user, product, rating, comment and date. The author's name appears only in the by-product listing, whose query loads the author; the by-user listing, whose query does not, always shows "Unknown", as does a review whose author row is missing. The queries have no OrderBy and fix no order; the model keeps table order. |
| ReviewService.ToDto | EcommerceBe/Services/ReviewService.cs:89-98 | The DTO of a review in a listing; ListReviews states each of its fields. |
| ReviewService.AuthorName | EcommerceBe/Services/ReviewService.cs:93 | `r.user?.Username ?? "Unknown"`, with the author loaded only by the by-product query; ListReviews states the rule. |
| ReviewService.Matching | EcommerceBe/Services/ReviewService.cs:68-88 | The reviews of the given product (or user). |
| ChangePassword.Score | fontend/src/components/User/UserProfile/ChangePassword/ChangePassword.tsx:32-49 | getPasswordStrength's score; ScoreIsCount and ScoreBounds state that it counts the passed requirements and lies in 0..5. |
| ChangePassword.ScoreIsCount | fontend/src/components/User/UserProfile/ChangePassword/ChangePassword.tsx:32-48 | The score is the number of the five requirements the password passes. |
| ChangePassword.ScoreBounds | fontend/src/components/User/UserProfile/ChangePassword/ChangePassword.tsx:32-48 | 0 <= score <= 5; 5 exactly when all pass, 0 exactly when none does. |
| ChangePassword.CountOfFive | fontend/src/components/User/UserProfile/ChangePassword/ChangePassword.tsx:33-43 | filter(...).length over the five requirements counts those that pass. |
| ChangePassword.PassedOf | fontend/src/components/User/UserProfile/ChangePassword/ChangePassword.tsx:41 | filter never grows the list. |
| ChangePassword.PassedMembers | fontend/src/components/User/UserProfile/ChangePassword/ChangePassword.tsx:41 | filter keeps exactly the requirements that pass. |
| ChangePassword.PassedOfStep | fontend/src/components/User/UserProfile/ChangePassword/ChangePassword.tsx:41 | Each requirement adds one to the count exactly when it passes. |
| ChangePassword.EmptyScoresZero | fontend/src/components/User/UserProfile/ChangePassword/ChangePassword.tsx:32-48 | The empty password scores 0. |
| ChangePassword.MinLengthIsLength | fontend/src/components/User/UserProfile/ChangePassword/ChangePassword.tsx:34 | Passing /.{8,}/ needs at least 8 characters; without line terminators it passes exactly from 8 characters on. |
| ChangePassword.LineBreakSplitsLength | fontend/src/components/User/UserProfile/ChangePassword/ChangePassword.tsx:34 | A nine-character password split by a newline fails /.{8,}/. |
| ChangePassword.StrengthLabel | fontend/src/components/User/UserProfile/ChangePassword/ChangePassword.tsx:219-222 | Yếu for score <= 2, Trung bình for 3, Mạnh from 4. |
| ChangePassword.ValidateForm | fontend/src/components/User/UserProfile/ChangePassword/ChangePassword.tsx:62-86 | Current is in error exactly when empty. New is in error exactly when it is empty, weak (score < 4) or equal to the current one. Confirm is in error exactly when it is empty or differs from the new password. Equal current and new always give the "must differ" message, and a weak password the "not strong enough" one. |
| ChangePassword.Submits | fontend/src/components/User/UserProfile/ChangePassword/ChangePassword.tsx:91-95 | The submit gate; SubmitsExactly states exactly when it opens. |
| ChangePassword.SubmitsExactly | fontend/src/components/User/UserProfile/ChangePassword/ChangePassword.tsx:88-95 | The form submits exactly with the following: a current password, a new one different from it scoring at least 4, and a matching confirmation. |
| UsersManager.MapEnumToRole | fontend/src/pages/admin/UsersManager.tsx:177-184 | 1 is Seller, 2 is Admin, everything else (0 included) is Client. |
| UsersManager.MapRoleToEnum | fontend/src/pages/admin/UsersManager.tsx:186-193 | Seller is 1, Admin is 2, everything else (Client included) is 0. |
| UsersManager.RoleRoundTrip | fontend/src/pages/admin/UsersManager.tsx:177-193 | mapRoleToEnum(mapEnumToRole(n)) == n for n in 0..2, and the reverse for the three role names; other names come back as Client. |
| UsersManager.NumberRows | fontend/src/pages/admin/UsersManager.tsx:74-79 | The table rows of a page; RowsNumbered states their contents and numbering, RowKeys their keys. |
| UsersManager.RowsNumbered | fontend/src/pages/admin/UsersManager.tsx:74-79 | Rows keep their user's fields. Numbering starts at (page-1)·pageSize + 1 and rises by one, and a full page continues into the next. |
| UsersManager.RowKeys | fontend/src/pages/admin/UsersManager.tsx:76 | Rows without a user id get distinct keys. |
| UsersManager.Total | fontend/src/pages/admin/UsersManager.tsx:81 | A zero totalCount falls back to the page length. |
| UsersManager.ParseFormBool | fontend/src/pages/admin/UsersManager.tsx:155-156 | A form flag is true exactly for the string "true". |
| UsersManager.FormBoolRoundTrip | fontend/src/pages/admin/UsersManager.tsx:155-156 | A flag written by handleEdit reads back unchanged. |
| ProductSeller.FilteredMembers | fontend/src/pages/seller/ProductSeller.tsx:184-218 | A product is listed exactly when it passes every filter that is set. The search is case-insensitive in the name, status and category match exactly, and the two stock filters apply. |
| ProductSeller.FilteredKeepsOrder | fontend/src/pages/seller/ProductSeller.tsx:184-218 | The filters keep order: the list of a concatenation is the concatenation of the lists. |
| ProductSeller.FilteredProducts | fontend/src/pages/seller/ProductSeller.tsx:184-218 | The filter chain. FilteredMembers states exactly which products it lists, FilteredKeepsOrder that it keeps their order, NoFilterKeepsAll that it changes nothing when no filter is set. |
| ProductSeller.NoFilterKeepsAll | fontend/src/pages/seller/ProductSeller.tsx:184-218 | With nothing set the whole list comes back. |
| ProductSeller.Filter | fontend/src/pages/seller/ProductSeller.tsx:189-212 | A filter never grows the list. |
| ProductSeller.FilterMembers | fontend/src/pages/seller/ProductSeller.tsx:189-212 | A filter keeps exactly the products that pass. |
| ProductSeller.FilterAppend | fontend/src/pages/seller/ProductSeller.tsx:189-212 | A filter keeps the order of its input. |
| ProductSeller.FilterAll | fontend/src/pages/seller/ProductSeller.tsx:189-212 | A filter that everything passes changes nothing. |
| ProductSeller.StageMembers | fontend/src/pages/seller/ProductSeller.tsx:188-215 | One guarded filter step keeps a product exactly when it passes, or the step is off. |
| ProductSeller.StageAppend | fontend/src/pages/seller/ProductSeller.tsx:188-215 | One guarded step distributes over concatenation. |
| ProductSeller.StockFiltersPartition | fontend/src/pages/seller/ProductSeller.tsx:205-215 | With no negative stock, a product is in stock exactly when it is not out of stock. |
| ProductSeller.NegativeStockInNeither | fontend/src/pages/seller/ProductSeller.tsx:205-215 | A product with a negative stock passes neither stock filter. |
| ProductSeller.TotalStockAppend | fontend/src/pages/seller/ProductSeller.tsx:221-223 | getTotalStock is additive over the variant list. |
| ProductSeller.TotalStock | fontend/src/pages/seller/ProductSeller.tsx:221-223 | getTotalStock; TotalStockAppend states it is additive, TotalStockZero its sign, its zero case and that it bounds every stock. |
| ProductSeller.TotalStockZero | fontend/src/pages/seller/ProductSeller.tsx:221-223 | With no negative stock the total is non-negative, is 0 exactly when every stock is 0, and bounds each stock. |
| ProductSeller.GetPriceRange | fontend/src/pages/seller/ProductSeller.tsx:225-229 | {0, 0} for no variants. Otherwise min <= max, both are variant prices, and every price lies between them. |
| ProductSeller.MinMax | fontend/src/pages/seller/ProductSeller.tsx:227-228 | Math.min and Math.max of a non-empty price list are attained prices that bound every price. |
| HeaderCategories.DefaultSlug | fontend/src/layout/Header/index.tsx:67 | The default slug of a name; DashRunsProperties and SlugExample state its form. |
| HeaderCategories.Slug | fontend/src/layout/Header/index.tsx:67 | A non-empty slug is kept; otherwise the default slug of the name. |
| HeaderCategories.DashRunsProperties | fontend/src/layout/Header/index.tsx:67 | replace(/\s+/g, '-') leaves no white space, and changes nothing in a string without any. |
| HeaderCategories.DashRuns | fontend/src/layout/Header/index.tsx:67 | The dashed string is never longer. |
| HeaderCategories.DropSpaces | fontend/src/layout/Header/index.tsx:67 | A run of white space is consumed whole. |
| HeaderCategories.SlugExample | fontend/src/layout/Header/index.tsx:67 | "A b" gets the slug "a-b". |
| HeaderCategories.FillTable | fontend/src/layout/Header/index.tsx:62-71 | The first forEach produces the key order and the table of nodes. |
| HeaderCategories.KeyOrder | fontend/src/layout/Header/index.tsx:62-71 | The table keys are exactly the fetched ids. |
| HeaderCategories.KeyOrderDistinct | fontend/src/layout/Header/index.tsx:62-71 | Every id appears once in the key order. |
| HeaderCategories.Table | fontend/src/layout/Header/index.tsx:62-71 | The table holds exactly the keys of the key order. |
| HeaderCategories.TableLast | fontend/src/layout/Header/index.tsx:63-70 | A later entry with the same id replaces an earlier one. |
| HeaderCategories.TableChildless | fontend/src/layout/Header/index.tsx:69 | Every node starts with no children. |
| HeaderCategories.PlaceCategories | fontend/src/layout/Header/index.tsx:73-80 | The second forEach makes the tree the unattached categories and gives every node exactly its attached children, in key order. |
| HeaderCategories.Roots | fontend/src/layout/Header/index.tsx:73-80 | The top-level list; PlaceCategories states that the loop builds it, and PlacedOnce that it holds exactly the categories whose parent is missing. |
| HeaderCategories.Children | fontend/src/layout/Header/index.tsx:75-76 | A node's children list; PlaceCategories and PlacedOnce state that it holds exactly the categories attached to that node. |
| HeaderCategories.PlaceStep | fontend/src/layout/Header/index.tsx:74-79 | One turn either pushes the category under its present parent or to the top level. |
| HeaderCategories.BuildCategoryTree | fontend/src/layout/Header/index.tsx:61-80 | The two loops produce the roots and the children lists of the table. |
| HeaderCategories.PlacedOnce | fontend/src/layout/Header/index.tsx:73-80 | Every category appears exactly once. It is at the top when its parent is missing, otherwise under exactly that parent, whose id is its parentCategoryId. |
| HeaderCategories.KeepIds | fontend/src/layout/Header/index.tsx:74-79 | Selecting ids never grows the list. |
| HeaderCategories.KeepIdsMembers | fontend/src/layout/Header/index.tsx:74-79 | Selection keeps exactly the ids that pass, and keeps them distinct. |
| HeaderCategories.MenuMembers | fontend/src/layout/Header/index.tsx:223-229 | The menu lists exactly the children of the top-level nodes. |
| HeaderCategories.Menu | fontend/src/layout/Header/index.tsx:223-229 | The menu; MenuMembers and MenuIsChildrenOfRoots state exactly which categories it shows. |
| HeaderCategories.MenuIsChildrenOfRoots | fontend/src/layout/Header/index.tsx:73-80 | A category is in the menu exactly when its parent is present and that parent is at the top level. |
| HeaderCategories.SelfParentHidden | fontend/src/layout/Header/index.tsx:75-76 | A category that is its own parent is neither at the top nor reachable from it. |
| Carousel.NextSlide | fontend/src/layout/Banner/carousel/index.tsx:38-40 | (i + 1) % n: the next index, wrapping from the last to 0, and staying in range. |
| Carousel.PrevSlide | fontend/src/layout/Banner/carousel/index.tsx:42-44 | n - 1 from 0, otherwise i - 1, staying in range. |
| Carousel.GoToSlide | fontend/src/layout/Banner/carousel/index.tsx:46-48 | The index becomes the argument. |
| Carousel.JsRem | fontend/src/layout/Banner/carousel/index.tsx:39 | JavaScript's % keeps the dividend's sign. |
| Carousel.ArrowsInverse | fontend/src/layout/Banner/carousel/index.tsx:38-44 | The two arrows undo each other on every showable index. |
| Carousel.AdvanceWraps | fontend/src/layout/Banner/carousel/index.tsx:54-56 | After k ticks the index is (i + k) mod n and stays showable. |
| Carousel.FullCircle | fontend/src/layout/Banner/carousel/index.tsx:54-56 | n ticks bring the carousel back to where it started. |
| Carousel.IndicatorsInRange | fontend/src/layout/Banner/carousel/index.tsx:46-48 | An indicator picks a showable slide, and the arrows stay in range from it. |
| ProductListSection.TotalPages | fontend/src/components/Product/ProductListSection/index.tsx:23 | Math.ceil(length / itemsPerPage): the least page count that covers the list, 0 exactly for an empty list. |
| ProductListSection.CurrentProducts | fontend/src/components/Product/ProductListSection/index.tsx:25-29 | Without paging the whole list; with paging at most itemsPerPage products. |
| ProductListSection.Slice | fontend/src/components/Product/ProductListSection/index.tsx:28 | Array.prototype.slice never grows the list. |
| ProductListSection.SliceIndex | fontend/src/components/Product/ProductListSection/index.tsx:28 | slice's clamped position, equal to the argument inside the list. |
| ProductListSection.PageContents | fontend/src/components/Product/ProductListSection/index.tsx:25-29 | A reachable page starts inside the list at (page-1)·itemsPerPage and holds the next itemsPerPage products or the rest; every page but the last is full. |
| ProductListSection.PageStartInList | fontend/src/components/Product/ProductListSection/index.tsx:23-28 | A reachable page starts inside the list, and a page before the last ends inside it. |
| ProductListSection.Previous | fontend/src/components/Product/ProductListSection/index.tsx:35-37 | Back one page only when past the first. |
| ProductListSection.Next | fontend/src/components/Product/ProductListSection/index.tsx:39-41 | On one page only when before the last. |
| ProductListSection.PressKeepsReachable | fontend/src/components/Product/ProductListSection/index.tsx:31-41 | Every button keeps 1 <= page <= max(1, totalPages). |
| ProductListSection.RenderedAsWritten | fontend/src/components/Product/ProductListSection/index.tsx:55-57 | The grid as written draws `products`, the whole list, on every page; RenderedIgnoresPaging states what that shows. |
| ProductListSection.RenderedIgnoresPaging | fontend/src/components/Product/ProductListSection/index.tsx:54-57 | As written, with seven products and six a page, page 1 draws all seven and page 2 does not draw the last one alone. |
| ProductListSection.Rendered | fontend/src/components/Product/ProductListSection/index.tsx:25-29 | Corrected: the grid draws at most itemsPerPage products with paging, and the whole list without it. |
| ProductListSection.PagesCoverList | fontend/src/components/Product/ProductListSection/index.tsx:25-29 | The pages before p together are exactly the first (p-1)·itemsPerPage products. |
| ProductListSection.NextPageExtends | fontend/src/components/Product/ProductListSection/index.tsx:25-29 | Page q continues exactly where the pages before it stop. |
| ProductListSection.AllPagesAreTheList | fontend/src/components/Product/ProductListSection/index.tsx:23-29 | All pages, one after another, are the whole list once and in order. |
| Common.Lower | fontend/src/components/admin/AdminOrderManagement.tsx:85 | toLowerCase keeps the length and lowers each character. |
| Common.LowerChar | fontend/src/components/admin/AdminOrderManagement.tsx:85 | An upper-case ASCII letter becomes its lower-case letter; other characters stay. |
| Common.Trim | EcommerceBe/Repositories/ProductRepository.cs:120 | Trim never lengthens a string. |
| Common.TrimSlice | EcommerceBe/Repositories/ProductRepository.cs:120 | Trim is the middle slice between a blank prefix and a blank suffix. |
| Common.TrimEnds | EcommerceBe/Repositories/ProductRepository.cs:120 | A trimmed string starts and ends with non-white-space. |
| Common.TrimIdempotent | EcommerceBe/Repositories/ProductRepository.cs:123-134 | Trimming twice is trimming once. |
| Common.OrdinalTotal | EcommerceBe/Services/VNPayService.cs:238 | Ordinal order separates any two different strings. |
| Common.OrdinalTransitive | EcommerceBe/Services/VNPayService.cs:238 | Ordinal order is transitive. |
| Common.OrdinalAsymmetric | EcommerceBe/Services/VNPayService.cs:238 | Ordinal order is asymmetric. |
| Common.OrdinalIrreflexive | EcommerceBe/Services/VNPayService.cs:238 | No string is ordinally before itself. |

## Left out

- Persistence: EF Core, `SaveChangesAsync`, the `Include` calls, the repositories behind the services and the DTO mapping are modelled as in-memory sequences and maps. An exception becomes an `Err` result. A service that saved earlier steps before throwing keeps them; `OrderService` saves each decrement through `UpdateProductVariantAsync`.
- HTTP, redirects' host names, logging, axios calls, Redux thunks, localStorage and React rendering are not modelled. The Redux slice keeps a `storage` field for what `saveCartToStorage` writes.
- OrderController.CancelUserOrder: a non-owner is modelled as Forbid (403). In the source, `Forbid("You can only cancel your own orders")` passes the text as an authentication scheme name. No handler is registered under that name, so ASP.NET fails when it runs the result, and the request ends in a server error rather than 403. CancelUserOrderAsWritten is the same. `GetOrder` uses plain `Forbid()` and is a real 403.
- HMAC-SHA512 and `WebUtility.UrlEncode` are function parameters: nothing is proved about the hash beyond its being a function.
- The clock, `Guid.NewGuid`, `GenerateTransactionId` and the `vnp_CreateDate` text are parameters. The model states the uniqueness of fresh ids as a requires on the caller.
- Concurrency: `ConcurrentDictionary`, `Task.Delay` and parallel requests are not modelled; every service is single-threaded.
- Decimal, int and long arithmetic: prices, quantities and totals are unbounded integers. `(long)(amount * 100)` is truncation toward zero of an explicit decimal. Neither long overflow nor the wrap-around of C# `int` arithmetic is modelled. Examples of the latter are `(queryDto.Page - 1) * queryDto.PageSize` in `QueryProductsAsync` and the summed cart quantities in `AddOrUpdateCartItemAsync`.
- Characters are Unicode scalar values, not UTF-16 code units. `ToLower`/`toLowerCase` is modelled on ASCII letters only.
- The header's `\s`, .NET `Trim` and the regular expressions are modelled for their stated character classes only.
- ChangePassword.MinLengthIsLength: /.{8,}/ tests for 8 consecutive non-line-terminator characters, so the equivalence holds only for passwords without line breaks (LineBreakSplitsLength shows the split).
- Dictionary enumeration order: `GetPaymentStatus` takes `FirstOrDefault` over `Dictionary.Values`, whose order .NET does not fix, so the model returns some matching transaction.
- MockPayment.MockPaymentService.GetPaymentStatus: states only that some transaction of the order is reported, because the enumeration order is unspecified.
- The `catch` branches are not modelled. These are `CreatePaymentAsync`'s "Failed to create payment" and `ProcessPaymentAsync`'s "99", `VNPayService`'s error responses, the controllers' 500 replies and the IPN's "99 Unknown error". No modelled step throws there except through the left-out I/O.
- PaymentController.PaymentCallback: the `callback == null` branches of the callback and the IPN are not modelled; `ProcessCallbackAsync` never returns null.
- The twelve `AddRequestData` calls and the reflection loop over `PaymentCallbackDto` are modelled as loops over a sequence of (name, value) fields in declaration order. `StringValues.ToString()` of a repeated query parameter is modelled as one value.
- VnPayLibrary.VnPayCompare: models the sign of the comparison only, which is all `SortedList` uses.
- ProductRepository.Filtered: `Contains` is ordinal, and SQL collation is not modelled. `QueryProductsAsync` does not exclude deleted products, and the model follows it.
- ProductRepository.SortProducts: insertion sort stands for `OrderBy`; the stability of the SQL sort is not modelled.
- ProductRepository.PageBounds: the model clamps a negative skip or take count to 0 and returns a page. The source sends `Skip((Page - 1) * PageSize).Take(PageSize)` to MySQL as OFFSET/LIMIT, and MySQL rejects negative values. So Page < 1 with PageSize > 0, or PageSize < 0, makes the source's query fail, where the model answers with the clamped page. `ProductQueryDto` does not validate Page or PageSize.
- ProductRepository.ChildCategoryIdsExact: `GetAllChildCategoryIds` recurses without bound and overflows on cyclic data. The model bounds the depth by the number of categories, which covers every acyclic tree.
- ProductRepository.ProductStore.Update: EF change tracking is approximated. Variants and images added in the loop are visible to later `FirstOrDefault` lookups in the same loop. `CreateProductDto.Price` is not used by `UpdateAsync`.
- ProductRepository.FirstImagePrimary: assumes distinct trimmed URLs; RepeatedFirstUrlLeavesNoPrimary shows what a repeated first URL does.
- ShippingAddress: the tracked entity `GetByIdAsync` returns is modelled by replacing the stored address. Reference aliasing is not modelled.
- ReviewService: `ReviewService` never calls `SaveChangesAsync`; the model treats each repository call as persisted.
- ReviewService.ReviewStore.ListReviews: the by-user listing is modelled with the author never loaded. EF's relationship fix-up would still fill `r.user` for an author entity the same context already tracks; that is not modelled.
- ReviewService.ReviewStore.AddSellerReply: `IReviewRepository` has no reply methods and no `GetByShopIdAsync`, `CreateReviewReplyDto` does not exist, and `ReviewDto` has no reply fields. The model gives the reply methods their natural effect. No seller ownership check is made, as in the source.
- `GetReviewsByShopAsync` is left out because the repository method it calls does not exist.
- OrderService.OrderService.CreateOrder: non-positive quantities are accepted, as in the source, which has no check.
- MockPayment.MockPaymentService.ProcessPayment: has no status guard, as in the source (ProcessingAfterCancel).
- Carousel: requires at least one slide, since the component renders nothing for an empty list. A slide list that shrinks under the current index is not modelled.
- ProductListSection: requires itemsPerPage > 0, since the default is 6. The `product ? ... : null` guard of the grid is not modelled.
- HeaderCategories: `Object.values` is taken to follow insertion order, which holds for non-integer-like keys such as GUIDs. Cyclic or self-parented categories vanish from the tree (SelfParentHidden).
- ProductSeller: a negative stock puts a product in neither stock filter (NegativeStockInNeither).
- VNPayController.cs, the duplicate of `PaymentController`, and the other controllers, services and screens are not part of this model.

## Findings

| source | as written | input that shows it | evidently intended | confidence | as-written member | corrected member |
|---|---|---|---|---|---|---|
| EcommerceBe/Controllers/OrderController.cs:75-79 | The cancel guard compares the status with lower-case "pending" and "confirmed", but `CreateOrderAsync` stores "Pending" (OrderService.cs:55). | An owner cancelling a freshly created order with status "Pending" gets BadRequest "Cannot cancel order in current status". | Pending and confirmed orders, in whatever case they are stored, can be cancelled by their owner. | not executed | OrderController.CancelUserOrderAsWritten, OrderController.AsWrittenRefusesNewOrder | OrderController.CancelUserOrder, OrderController.CancelNewOrder |
| fontend/src/components/Product/ProductListSection/index.tsx:55 | The grid maps over `products`, so `currentProducts` is computed and never drawn. | Seven products, six per page, paging on: page 1 draws seven and page 2 draws the same seven. | The grid draws `currentProducts`, the page slice. | not executed | ProductListSection.RenderedAsWritten, ProductListSection.RenderedIgnoresPaging | ProductListSection.Rendered, ProductListSection.AllPagesAreTheList |
| EcommerceBe/Controllers/PaymentController.cs:175-201 | The IPN uses `ValidateCallbackAsync`, which also refuses a response code other than "00" (VNPayService.cs:113-117). | A correctly signed IPN with vnp_ResponseCode "24", a cancelled payment, is answered "97 Fail checksum". | A valid signature is acknowledged with "00" whatever the payment outcome, as the "Payment failed but signature is valid" branch at lines 190-195 intends. | not executed | PaymentController.PaymentIpnAsWritten, PaymentController.IpnRefusesSignedFailure | PaymentController.PaymentIpn, PaymentController.IpnDifference |
