/** createPurchaseUnitArray exactly as written. The fee lookup's argument on
    line 62 reads `element.product.storeId`, but no variable `element` is in
    scope in that function: evaluating the argument throws a ReferenceError.
    The model in OrderBody takes the store id handed to the fee lookup as an
    explicit parameter instead. */
module OrderBodyAsWritten {
  import opened Wrappers
  import opened OrderBody

  /** The as-written loop: the first store's amount, items and shipping
      address are built (and may throw first), then the undeclared variable
      is read. */
  function PurchaseUnitArrayAsWritten(order: OrderObject, currencyCode: string, address: AddressInput,
                                      env: Collaborators)
    : (r: Result<seq<PurchaseUnit>, OrderError>)
    requires WellFormed(order)
    ensures |order.storeIds| > 0 ==> r.Failure?
    ensures |order.storeIds| == 0 ==> r == Success([])
  {
    if |order.storeIds| == 0 then Success([])
    else
      var element := order.elements[order.storeIds[0]];
      var amount :- CreateAmount(element.products, currencyCode, element.store, env.shippingCostOf);
      var shipping :- CreateShippingAddress(address);
      Failure(ReferenceError("element"))
  }

  /** Whenever the corrected model accepts an order with at least one store,
      the code as written rejects it with the ReferenceError. */
  lemma AsWrittenRejectsEveryAcceptedOrder(order: OrderObject, currencyCode: string, address: AddressInput,
                                           env: Collaborators, feeStoreId: (string, OrderElement) -> string)
    requires WellFormed(order) && |order.storeIds| > 0
    requires PurchaseUnits(order, currencyCode, address, env, feeStoreId).Success?
    ensures PurchaseUnitArrayAsWritten(order, currencyCode, address, env) == Failure(ReferenceError("element"))
  {
    PurchaseUnitsUpToShape(order, |order.storeIds|, currencyCode, address, env, feeStoreId);
    assert PurchaseUnitAt(order, 0, currencyCode, address, env, feeStoreId).Success?;
  }

  /** A concrete one-store order: the corrected model builds its purchase
      unit, the code as written throws. */
  lemma OneStoreOrderShowsReferenceError()
    ensures var p := Product("Honey", "A jar of honey", 1000, "store1");
      var order := OrderObject(["store1"], map["store1" := OrderElement(ArrayOf([LineItem(p, 2)]), Store("store1", "MERCHANT1"))]);
      var address := AddressInput(Some("Erika"), Some("Mustermann"), Some("Hauptstr. 1"), Some("Berlin"), Some("10115"));
      var env := Collaborators((s: Store, ps: seq<LineItem>) => 500, (id: string) => FeeRate(5, 100),
                               PlatformAccount("PLATFORM", "platform@example.com"));
      && WellFormed(order)
      && PurchaseUnits(order, "EUR", address, env, (key: string, e: OrderElement) => key).Success?
      && PurchaseUnitArrayAsWritten(order, "EUR", address, env) == Failure(ReferenceError("element"))
  {
    var p := Product("Honey", "A jar of honey", 1000, "store1");
    var order := OrderObject(["store1"], map["store1" := OrderElement(ArrayOf([LineItem(p, 2)]), Store("store1", "MERCHANT1"))]);
    var address := AddressInput(Some("Erika"), Some("Mustermann"), Some("Hauptstr. 1"), Some("Berlin"), Some("10115"));
    var env := Collaborators((s: Store, ps: seq<LineItem>) => 500, (id: string) => FeeRate(5, 100),
                             PlatformAccount("PLATFORM", "platform@example.com"));
    var feeStoreId := (key: string, e: OrderElement) => key;
    assert WellFormed(order);
    var element := order.elements["store1"];
    assert element.products.items[..0] == [];
    assert GrossSum(element.products.items) == 2000;
    var amount := CreateAmount(element.products, "EUR", element.store, env.shippingCostOf);
    assert amount.Success? && amount.value.value == 2500;
    assert CreateShippingAddress(address).Success?;
    assert CreatePaymentInstruction(2500, "EUR", "store1", env.feeRateOf, env.platform).Success?;
    assert PurchaseUnitAt(order, 0, "EUR", address, env, feeStoreId).Success?;
    assert PurchaseUnitsUpTo(order, 0, "EUR", address, env, feeStoreId) == Success([]);
    assert PurchaseUnitsUpTo(order, 1, "EUR", address, env, feeStoreId).Success?;
  }
}
