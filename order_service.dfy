/**
  The in-memory order service of hdfc.go: the product catalogue and the order
  list, order placement (validation, pricing, the availability flip) and the
  order-status state machine. Requests reach this module already decoded; the
  JSON and HTTP layers are not modelled.
 */
module OrderService {
  import opened Wrappers

  /** A catalogue entry. Prices are exact reals where the service uses float64. */
  datatype Product = Product(id: string, name: string, availability: bool, price: real, category: string)

  /** A stored order. An empty dispatchDate stands for a date that was never set. */
  datatype Order = Order(
    id: string,
    productId: string,
    orderValue: real,
    dispatchDate: string,
    orderStatus: string,
    prodQuantity: int,
    isPremium: bool)

  /**
    The decoded body of a placement request: every field of an Order except
    isPremium, which the decoder never fills, so it starts out false.
   */
  datatype OrderRequest = OrderRequest(
    id: string,
    productId: string,
    orderValue: real,
    dispatchDate: string,
    orderStatus: string,
    prodQuantity: int)

  /** The decoded body of a status-update request. */
  datatype StatusPayload = StatusPayload(status: string, dispatchDate: string)

  datatype PlaceError = InvalidQuantity | ProductNotFound

  datatype UpdateError = OrderNotFound | InvalidStatus | InvalidTransition

  const PremiumCategory: string := "Premium"
  const MaxQuantity: int := 10

  const Placed: string := "Placed"
  const Dispatched: string := "Dispatched"
  const Completed: string := "Completed"
  const Cancelled: string := "Cancelled"

  predicate ValidQuantity(quantity: int)
  {
    0 < quantity <= MaxQuantity
  }

  /**
    The value of an order for `quantity` units of `product`: the unit price
    times the quantity, less ten percent in the premium category.
   */
  function OrderValue(quantity: int, product: Product): (v: real)
    ensures product.category != PremiumCategory ==> v == quantity as real * product.price
    ensures product.category == PremiumCategory ==> v + (quantity as real * product.price) / 10.0 == quantity as real * product.price
    ensures 0 <= quantity && 0.0 <= product.price ==> 0.0 <= v <= quantity as real * product.price
  {
    var subtotal := quantity as real * product.price;
    if product.category == PremiumCategory then subtotal * 0.9 else subtotal
  }

  /** The status changes the state machine allows, as a table of (current, requested) pairs. */
  predicate Allowed(current: string, requested: string)
  {
    (current, requested) in {(Placed, Dispatched), (Dispatched, Completed), (Placed, Cancelled), (Dispatched, Cancelled)}
  }

  /** The statuses a status update may ask for; "Placed" is not among them. */
  predicate IsTargetStatus(status: string)
  {
    status in {Dispatched, Completed, Cancelled}
  }

  /**
    The decision of a status update on order `o`: the new order, or why the
    request is refused. Only the status changes, and the dispatch date with it
    when the order is dispatched; the date may be empty.
   */
  function Transition(o: Order, payload: StatusPayload): (r: Result<Order, UpdateError>)
    ensures r.Ok? <==> Allowed(o.orderStatus, payload.status)
    ensures r == Err(InvalidStatus) <==> !IsTargetStatus(payload.status)
    ensures r == Err(InvalidTransition) <==> IsTargetStatus(payload.status) && !Allowed(o.orderStatus, payload.status)
    ensures r.Ok? ==> r.value.orderStatus == payload.status
    ensures r.Ok? ==> r.value.dispatchDate == if payload.status == Dispatched then payload.dispatchDate else o.dispatchDate
    ensures r.Ok? ==> r.value.(orderStatus := o.orderStatus, dispatchDate := o.dispatchDate) == o
  {
    match payload.status
    case "Dispatched" =>
      if o.orderStatus != Placed then Err(InvalidTransition)
      else Ok(o.(orderStatus := payload.status, dispatchDate := payload.dispatchDate))
    case "Completed" =>
      if o.orderStatus != Dispatched then Err(InvalidTransition)
      else Ok(o.(orderStatus := payload.status))
    case "Cancelled" =>
      if o.orderStatus != Placed && o.orderStatus != Dispatched then Err(InvalidTransition)
      else Ok(o.(orderStatus := payload.status))
    case _ =>
      Err(InvalidStatus)
  }

  /** What a stored order owes to the catalogue entry it was priced against. */
  ghost predicate PricedAgainst(o: Order, catalogue: map<string, Product>)
  {
    && o.productId in catalogue
    && !catalogue[o.productId].availability
    && ValidQuantity(o.prodQuantity)
    && o.orderValue == OrderValue(o.prodQuantity, catalogue[o.productId])
    && o.isPremium == (catalogue[o.productId].category == PremiumCategory)
  }

  /** The catalogue the service starts with. */
  function SeedCatalogue(): (c: map<string, Product>)
    ensures c.Keys == {"1", "2", "3"}
    ensures forall id :: id in c ==> c[id].id == id && c[id].availability
  {
    map[
      "1" := Product("1", "Product 1", true, 10.0, "Premium"),
      "2" := Product("2", "Product 2", true, 5.0, "Regular"),
      "3" := Product("3", "Product 3", true, 3.0, "Budget")
    ]
  }

  /** The service state: the product catalogue and the order list, both updated in place. */
  class Shop {
    var catalogue: map<string, Product>
    var orders: map<string, Order>

    /**
      Every order is stored under its own id, and was priced against the
      catalogue entry it names, which has been marked unavailable since.
     */
    ghost predicate Valid()
      reads this
    {
      forall id :: id in orders ==> orders[id].id == id && PricedAgainst(orders[id], catalogue)
    }

    constructor (seed: map<string, Product>)
      ensures catalogue == seed && orders == map[]
      ensures Valid()
    {
      catalogue := seed;
      orders := map[];
    }

    /** A snapshot of the catalogue; reading it changes nothing. */
    method GetCatalogue() returns (snapshot: map<string, Product>)
      ensures snapshot == catalogue
    {
      snapshot := catalogue;
    }

    /**
      Places an order: the quantity must lie in 1..10 and the product must be
      in the catalogue, checked in that order. The order is priced, stored
      under its id whether or not that id is taken, and its product is marked
      unavailable, without regard to whether it was available before. The
      status and dispatch date are kept as the request carried them.
     */
    method PlaceOrder(req: OrderRequest) returns (r: Result<Order, PlaceError>)
      modifies this
      ensures r == Err(InvalidQuantity) <==> !ValidQuantity(req.prodQuantity)
      ensures r == Err(ProductNotFound) <==> ValidQuantity(req.prodQuantity) && req.productId !in old(catalogue)
      ensures r.Err? ==> catalogue == old(catalogue) && orders == old(orders)
      ensures r.Ok? <==> ValidQuantity(req.prodQuantity) && req.productId in old(catalogue)
      ensures r.Ok? ==>
        var product := old(catalogue)[req.productId];
        && r.value == Order(req.id, req.productId, OrderValue(req.prodQuantity, product),
                            req.dispatchDate, req.orderStatus, req.prodQuantity,
                            product.category == PremiumCategory)
        && orders == old(orders)[req.id := r.value]
        && catalogue == old(catalogue)[req.productId := product.(availability := false)]
      ensures old(Valid()) ==> Valid()
    {
      if req.prodQuantity <= 0 || req.prodQuantity > 10 {
        return Err(InvalidQuantity);
      }
      if req.productId !in catalogue {
        return Err(ProductNotFound);
      }
      var product := catalogue[req.productId];

      var order := Order(req.id, req.productId, req.orderValue, req.dispatchDate,
                         req.orderStatus, req.prodQuantity, false);
      order := order.(orderValue := order.prodQuantity as real * product.price);
      if product.category == PremiumCategory {
        order := order.(orderValue := order.orderValue * 0.9, isPremium := true);
      }

      orders := orders[order.id := order];

      product := product.(availability := false);
      catalogue := catalogue[order.productId := product];

      r := Ok(order);
    }

    /**
      Applies a status update to the order stored under `orderID`. An unknown
      id is refused first; otherwise the transition table decides, and the
      order is written back only when the transition succeeds. The catalogue
      is never touched.
     */
    method UpdateStatus(orderID: string, payload: StatusPayload) returns (r: Result<Order, UpdateError>)
      modifies this`orders
      ensures orderID !in old(orders) ==> r == Err(OrderNotFound)
      ensures orderID in old(orders) ==> r == Transition(old(orders)[orderID], payload)
      ensures orders == if r.Ok? then old(orders)[orderID := r.value] else old(orders)
      ensures old(Valid()) ==> Valid()
    {
      if orderID !in orders {
        return Err(OrderNotFound);
      }
      var order := orders[orderID];
      r := Transition(order, payload);
      if r.Ok? {
        orders := orders[orderID := r.value];
      }
    }
  }
}
