/**
  Clients of the order service started on its seed catalogue, showing what
  callers can conclude from the contracts of Shop alone.
 */
module Scenarios {
  import opened Wrappers
  import opened OrderService

  /** Quantities outside 1..10 and unknown products are refused, and nothing changes. */
  method RefusedPlacements()
  {
    var shop := new Shop(SeedCatalogue());
    var before := shop.GetCatalogue();

    // The quantity is checked before the product is looked up.
    var r := shop.PlaceOrder(OrderRequest("a", "missing", 0.0, "", Placed, 0));
    assert r == Err(InvalidQuantity);
    r := shop.PlaceOrder(OrderRequest("a", "1", 0.0, "", Placed, 11));
    assert r == Err(InvalidQuantity);
    r := shop.PlaceOrder(OrderRequest("a", "9", 0.0, "", Placed, 1));
    assert r == Err(ProductNotFound);

    var after := shop.GetCatalogue();
    assert after == before && shop.orders == map[];
  }

  /** Pricing on the seed catalogue, and the availability flip. */
  method PricedPlacements()
  {
    var shop := new Shop(SeedCatalogue());

    // Two premium units at 10.0 cost 18.0; the caller's value is discarded.
    var r := shop.PlaceOrder(OrderRequest("a", "1", 99.0, "", Placed, 2));
    assert r.Ok? && r.value.orderValue == 18.0 && r.value.isPremium;
    var catalogue := shop.GetCatalogue();
    assert !catalogue["1"].availability && catalogue["2"].availability;

    // Three regular units at 5.0 cost 15.0.
    r := shop.PlaceOrder(OrderRequest("b", "2", 0.0, "", Placed, 3));
    assert r.Ok? && r.value.orderValue == 15.0 && !r.value.isPremium;

    // Availability is not checked: product "1" can be ordered again.
    r := shop.PlaceOrder(OrderRequest("c", "1", 0.0, "", Placed, 1));
    assert r.Ok? && r.value.orderValue == 9.0;
  }

  /** Placed -> Dispatched -> Completed succeeds; skipping Dispatched does not. */
  method DispatchAndComplete()
  {
    var shop := new Shop(SeedCatalogue());
    var placed := shop.PlaceOrder(OrderRequest("a", "1", 0.0, "", Placed, 2));
    assert placed.Ok?;

    var u := shop.UpdateStatus("a", StatusPayload(Completed, ""));
    assert u == Err(InvalidTransition);
    u := shop.UpdateStatus("a", StatusPayload(Dispatched, "2024-01-02"));
    assert u.Ok? && u.value.dispatchDate == "2024-01-02" && u.value.orderValue == 18.0;
    u := shop.UpdateStatus("a", StatusPayload(Completed, ""));
    assert u.Ok? && u.value.orderStatus == Completed;
    u := shop.UpdateStatus("zz", StatusPayload(Dispatched, ""));
    assert u == Err(OrderNotFound);
  }

  /** Cancelled is terminal, "Placed" cannot be requested, and a blank status never moves. */
  method RefusedTransitions()
  {
    var shop := new Shop(SeedCatalogue());
    var placed := shop.PlaceOrder(OrderRequest("b", "2", 0.0, "", Placed, 3));
    assert placed.Ok?;

    var u := shop.UpdateStatus("b", StatusPayload(Placed, ""));
    assert u == Err(InvalidStatus);
    u := shop.UpdateStatus("b", StatusPayload(Cancelled, ""));
    assert u.Ok?;
    u := shop.UpdateStatus("b", StatusPayload(Dispatched, ""));
    assert u == Err(InvalidTransition);

    var blank := shop.PlaceOrder(OrderRequest("d", "3", 0.0, "", "", 1));
    assert blank.Ok? && blank.value.orderStatus == "";
    u := shop.UpdateStatus("d", StatusPayload(Dispatched, "2024-01-03"));
    assert u == Err(InvalidTransition);
  }
}
