# In-memory order service: placement and the order-status state machine

This project models the core of `hdfc.go`, an in-memory order service. The
service keeps a product catalogue and an order list as two maps keyed by
identifier. Two operations work on them:

- **Order placement.** The quantity must lie in 1..10, and this is checked
  first. The product must then be in the catalogue. The order value is the
  quantity times the unit price, less 10% for the category `"Premium"`, which
  also sets the premium flag. The order is stored under its caller-supplied
  id, replacing any order already stored there. Its product is marked
  unavailable.
- **Status updates.** An update names a stored order and a requested status.
  `Dispatched` is allowed only from `Placed` and records the dispatch date.
  `Completed` is allowed only from `Dispatched`. `Cancelled` is allowed from
  `Placed` or `Dispatched`. Any other requested status is refused as an
  invalid status. The order is written back only when the update succeeds.

Layout:

- `wrappers.dfy`: module `Wrappers`, the `Result` datatype used for error returns.
- `order_service.dfy`: module `OrderService`. It holds the `Product` and
  `Order` records, the decoded request bodies, the pricing function
  `OrderValue`, the transition table `Allowed` and the switch `Transition`.
  It also holds the class `Shop`, whose two map fields the methods
  `PlaceOrder` and `UpdateStatus` update in place. `Shop.Valid()` is the
  invariant both methods preserve. Every order is stored under its own id.
  Every order names a catalogue product that is now unavailable. Every order
  has a quantity in 1..10. Every order's value and premium flag agree with
  that product's price and category.
- `status_runs.dfy`: module `StatusRuns`. It proves properties of any
  sequence of status updates on one order. `Run` applies the updates one
  after another and keeps the order unchanged when an update is refused,
  which matches the write-back rule of `Shop.UpdateStatus`.
- `scenarios.dfy`: module `Scenarios`. These client methods start from the
  seed catalogue and check the worked examples from the contracts of `Shop`
  alone. Two premium units at 10.0 cost 18.0. Three regular units at 5.0
  cost 15.0. Placed → Completed is refused, while Placed → Dispatched →
  Completed succeeds. Cancelled → Dispatched is refused.

Where the service's own description and the code disagree, the model follows
the code:

- Placement does not set the status to `Placed` and does not clear the
  dispatch date. Both keep whatever the request carried. An order whose
  request had no status therefore can never be dispatched or cancelled
  (`StatusRuns.RunFromTerminal`).
- Requesting the status `"Placed"` is refused as an invalid status, not as an
  invalid transition.
- The premium flag is never read from the request, because the decoder skips
  that field. `OrderRequest` therefore has no such field.

## Model

| member | source | states |
|---|---|---|
| `OrderService.OrderValue` | hdfc.go:57-60 | The value is quantity × unit price. In the premium category, exactly a tenth of that is taken off. For a non-negative quantity and price, the value lies between 0 and the undiscounted subtotal. |
| `OrderService.Transition` | hdfc.go:92-116 | A status update succeeds iff (current, requested) is in the four-entry transition table. It fails with InvalidStatus iff the requested status is not Dispatched, Completed or Cancelled, so "Placed" is included. It fails with InvalidTransition iff the requested status is one of those three but the pair is not in the table. On success, only the status changes, and the dispatch date too, to the payload date, exactly when the request is Dispatched. |
| `OrderService.SeedCatalogue` | hdfc.go:123-127 | The starting catalogue holds products "1", "2" and "3". Each is stored under its own id, and each is available. |
| `OrderService.Shop.constructor` | hdfc.go:123-129 | The service starts with the given catalogue and an empty order list, and the store invariant holds. |
| `OrderService.Shop.GetCatalogue` | hdfc.go:34-36 | Reading the catalogue returns the current catalogue and changes nothing. |
| `OrderService.Shop.PlaceOrder` | hdfc.go:46-67 | Placement fails with InvalidQuantity iff the quantity is outside 1..10, which is checked before the product. It fails with ProductNotFound iff the quantity is valid but the product is unknown. It succeeds iff both checks pass. On failure, neither map changes. On success, the order keeps the request's id, product, quantity, status and dispatch date. Its value is OrderValue, and the caller's value is discarded. Its premium flag is true iff the category is "Premium". The order is stored under its id, overwriting any earlier entry, and no other order changes. The product is marked unavailable, whatever its earlier availability, and nothing else in the catalogue changes. The store invariant is preserved. |
| `OrderService.Shop.UpdateStatus` | hdfc.go:74-118 | An unknown order id fails with OrderNotFound. Otherwise the result is Transition applied to the stored order. The order list changes only on success, and then only at that id. The catalogue is never modified. The store invariant is preserved. |
| `StatusRuns.StepsLeft` | hdfc.go:92-116 | A status has no transitions left, not even Cancelled, iff it is neither Placed nor Dispatched. |
| `StatusRuns.TransitionUsesAStep` | hdfc.go:92-116 | Every accepted update moves the order to a status that is reachable from the old one and has fewer transitions left. |
| `StatusRuns.RunKeepsPlacement` | hdfc.go:92-118 | No sequence of status updates changes an order's id, product, value, quantity or premium flag. |
| `StatusRuns.RunFromTerminal` | hdfc.go:92-116 | From Completed, Cancelled or any unknown status, every later update is refused and the order never changes. |
| `StatusRuns.AcceptedBounded` | hdfc.go:92-116 | In any sequence of updates, at most two are accepted from Placed, at most one from Dispatched, and none from any other status. |
| `StatusRuns.RunStaysReachable` | hdfc.go:92-116 | After any sequence of updates, the status is one the transition table can reach from the starting status. |
| `StatusRuns.RunKeepsDateUnlessPlaced` | hdfc.go:93-99 | Only a Dispatched update accepted from Placed writes the dispatch date. An order not in Placed keeps its date through any sequence of updates. |

## Left out

- JSON decoding and encoding: the model takes requests that are already decoded (`OrderRequest`, `StatusPayload`) and returns results as values. The MalformedInput error path of both handlers is therefore not modelled.
- HTTP transport: status codes, error messages, reading the `orderID` query parameter, route registration and the listening server. The order id is a parameter of `Shop.UpdateStatus`.
- Concurrency: the handlers run concurrently against unsynchronised maps. The model runs one operation at a time.
- OrderService.OrderValue: computes with exact reals, not float64. IEEE-754 rounding of the product and of the 0.9 discount is not modelled.
