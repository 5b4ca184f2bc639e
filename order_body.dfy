/** The multi-seller checkout payload: one purchase unit per store of the
    order, each with its amount breakdown, item list, shipping address and
    the platform's fee instruction, wrapped into the create-order request.
    Money is integer cents throughout. */
module OrderBody {
  import opened Wrappers
  import Money
  import Decimal

  // ---------------------------------------------------------------------
  // Input

  /** The fields of a product document the order code reads; the price is
      `priceFloat` in cents. */
  datatype Product = Product(title: string, description: string, priceCents: int, storeId: string)

  /** One element of a store's product array: a product and the quantity
      ordered (`amount`). */
  datatype LineItem = LineItem(product: Product, amount: int)

  /** `orderElement.products`. Nothing in the caller forces it to be an
      array, so the model keeps the case where it is not. */
  datatype ProductArray = ArrayOf(items: seq<LineItem>) | NotArray

  /** The fields of a store document the order code reads. */
  datatype Store = Store(id: string, merchantIdInPayPal: string)

  /** The value stored under one store key of the order object. */
  datatype OrderElement = OrderElement(products: ProductArray, store: Store)

  /** The order object: its keys in `Object.keys` order, and the element
      stored under each key. */
  datatype OrderObject = OrderObject(storeIds: seq<string>, elements: map<string, OrderElement>)

  /** What a JavaScript object guarantees of its keys: they are distinct and
      they are exactly the keys that hold an element. */
  predicate WellFormed(o: OrderObject) {
    && (forall i :: 0 <= i < |o.storeIds| ==> o.storeIds[i] in o.elements)
    && (forall i, j :: 0 <= i < j < |o.storeIds| ==> o.storeIds[i] != o.storeIds[j])
    && (forall k :: k in o.elements ==> k in o.storeIds)
  }

  /** The shipping address sent by the frontend. A field is `None` when it
      fails the `hasValidProperty` check (missing or not valid). */
  datatype AddressInput = AddressInput(
    firstName: Option<string>,
    lastName: Option<string>,
    addressLine1: Option<string>,
    city: Option<string>,
    postcode: Option<string>)

  type PositiveInt = d: int | d > 0 witness 1

  /** A platform fee rate as the fraction num / den. */
  datatype FeeRate = FeeRate(num: int, den: PositiveInt)

  /** The rate a store's fee lookup is expected to deliver: 0 <= rate <= 1. */
  predicate InUnitInterval(rate: FeeRate) {
    0 <= rate.num <= rate.den
  }

  /** The platform's own PayPal account (configuration constants). */
  datatype PlatformAccount = PlatformAccount(merchantId: string, emailAddress: string)

  /** The collaborators the order code calls but that are not part of this
      model: the shipping-cost calculation for one store, the per-store fee
      rate lookup, and the platform's account. */
  datatype Collaborators = Collaborators(
    shippingCostOf: (Store, seq<LineItem>) -> int,
    feeRateOf: string -> FeeRate,
    platform: PlatformAccount)

  // ---------------------------------------------------------------------
  // Output: the PayPal request body

  /** A PayPal money object: a currency code and a value in cents. */
  datatype CurrencyAmount = CurrencyAmount(currencyCode: string, value: int)

  datatype Item = Item(
    name: string,
    description: string,
    unitAmount: CurrencyAmount,
    tax: CurrencyAmount,
    quantity: int)

  datatype Breakdown = Breakdown(itemTotal: CurrencyAmount, shipping: CurrencyAmount, taxTotal: CurrencyAmount)

  datatype Amount = Amount(currencyCode: string, value: int, breakdown: Breakdown)

  /** The four numbers `calculateBreakdown` returns. */
  datatype BreakdownValues = BreakdownValues(totalSum: int, itemTotal: int, taxTotal: int, shippingCosts: int)

  datatype PostalAddress = PostalAddress(
    addressLine1: string,
    addressLine2: string,
    adminArea2: string,
    adminArea1: string,
    postalCode: string,
    countryCode: string)

  datatype Shipping = Shipping(fullName: string, address: PostalAddress)

  datatype Payee = Payee(merchantId: string)

  datatype PlatformFee = PlatformFee(amount: CurrencyAmount, payee: PlatformAccount)

  datatype PaymentInstruction = PaymentInstruction(disbursementMode: string, platformFees: seq<PlatformFee>)

  datatype PurchaseUnit = PurchaseUnit(
    referenceId: string,
    payee: Payee,
    amount: Amount,
    items: seq<Item>,
    shipping: Shipping,
    paymentInstruction: PaymentInstruction)

  datatype ApplicationContext = ApplicationContext(
    brandName: string,
    landingPage: string,
    shippingPreference: string,
    userAction: string)

  datatype OrderRequest = OrderRequest(
    intent: string,
    applicationContext: ApplicationContext,
    purchaseUnits: seq<PurchaseUnit>)

  /** The errors the order code throws. `ReferenceError` is what JavaScript
      throws on reading an undeclared variable. */
  datatype OrderError =
    | ProductArrayNotAnArray
    | MissingAddressField(field: string)
    | NegativeTotalSum
    | ReferenceError(variable: string)

  const CheckoutContext: ApplicationContext :=
    ApplicationContext("MySellum", "BILLING", "SET_PROVIDED_ADDRESS", "CONTINUE")

  // ---------------------------------------------------------------------
  // Sums over a store's products (the specification of calculateBreakdown's loop)

  /** Σ unit price × quantity. */
  function GrossSum(ps: seq<LineItem>): int {
    if |ps| == 0 then 0
    else GrossSum(ps[..|ps| - 1]) + ps[|ps| - 1].product.priceCents * ps[|ps| - 1].amount
  }

  /** Σ tax(unit price) × quantity: the tax is taken on the unit price and
      then multiplied, never taken on the extended price. */
  function TaxSum(ps: seq<LineItem>): int {
    if |ps| == 0 then 0
    else TaxSum(ps[..|ps| - 1]) + Money.ProductTax(ps[|ps| - 1].product.priceCents) * ps[|ps| - 1].amount
  }

  /** Σ unit_amount × quantity over an item list. */
  function UnitTotal(items: seq<Item>): int {
    if |items| == 0 then 0
    else UnitTotal(items[..|items| - 1]) + items[|items| - 1].unitAmount.value * items[|items| - 1].quantity
  }

  /** Σ tax × quantity over an item list. */
  function ItemTaxTotal(items: seq<Item>): int {
    if |items| == 0 then 0
    else ItemTaxTotal(items[..|items| - 1]) + items[|items| - 1].tax.value * items[|items| - 1].quantity
  }

  // ---------------------------------------------------------------------
  // Items

  /** The PayPal item for one line: net unit price, unit tax, quantity. */
  function ItemOf(li: LineItem, currencyCode: string): Item {
    var tax := Money.ProductTax(li.product.priceCents);
    Item(li.product.title, li.product.description,
         CurrencyAmount(currencyCode, li.product.priceCents - tax),
         CurrencyAmount(currencyCode, tax),
         li.amount)
  }

  function ItemsOf(ps: seq<LineItem>, currencyCode: string): (items: seq<Item>)
    ensures |items| == |ps|
  {
    seq(|ps|, i requires 0 <= i < |ps| => ItemOf(ps[i], currencyCode))
  }

  /** What `createItemArray` returns. */
  function ItemArray(pa: ProductArray, currencyCode: string): (r: Result<seq<Item>, OrderError>)
    ensures r.Failure? <==> pa.NotArray?
    ensures r.Failure? ==> r.error == ProductArrayNotAnArray
    ensures r.Success? ==> |r.value| == |pa.items|
    ensures r.Success? ==> forall i :: 0 <= i < |pa.items| ==>
      var price := pa.items[i].product.priceCents;
      && r.value[i].name == pa.items[i].product.title
      && r.value[i].description == pa.items[i].product.description
      && r.value[i].tax == CurrencyAmount(currencyCode, Money.ProductTax(price))
      && r.value[i].unitAmount == CurrencyAmount(currencyCode, price - Money.ProductTax(price))
      && r.value[i].quantity == pa.items[i].amount
  {
    if pa.NotArray? then Failure(ProductArrayNotAnArray) else Success(ItemsOf(pa.items, currencyCode))
  }

  /** createItemArray: one item per product, pushed in input order. */
  method CreateItemArray(pa: ProductArray, currencyCode: string) returns (r: Result<seq<Item>, OrderError>)
    ensures r == ItemArray(pa, currencyCode)
  {
    if pa.NotArray? {
      return Failure(ProductArrayNotAnArray);
    }
    var items: seq<Item> := [];
    for k := 0 to |pa.items|
      invariant items == ItemsOf(pa.items[..k], currencyCode)
    {
      items := items + [ItemOf(pa.items[k], currencyCode)];
    }
    assert pa.items[..|pa.items|] == pa.items;
    r := Success(items);
  }

  /** The item list of a product list carries the same totals as the
      breakdown: Σ unit_amount × quantity = gross − tax total, and
      Σ tax × quantity = tax total. */
  lemma {:induction false} ItemSums(ps: seq<LineItem>, currencyCode: string)
    ensures UnitTotal(ItemsOf(ps, currencyCode)) == GrossSum(ps) - TaxSum(ps)
    ensures ItemTaxTotal(ItemsOf(ps, currencyCode)) == TaxSum(ps)
  {
    if |ps| > 0 {
      var n := |ps| - 1;
      var items := ItemsOf(ps, currencyCode);
      assert items[..n] == ItemsOf(ps[..n], currencyCode);
      ItemSums(ps[..n], currencyCode);
      var p := ps[n].product.priceCents;
      var t := Money.ProductTax(p);
      assert items[n].unitAmount.value * items[n].quantity == p * ps[n].amount - t * ps[n].amount by {
        assert items[n].unitAmount.value == p - t;
        assert (p - t) * ps[n].amount == p * ps[n].amount - t * ps[n].amount;
      }
    }
  }

  // ---------------------------------------------------------------------
  // Amount

  /** What `calculateBreakdown` returns: the total is the gross item sum plus
      shipping, and the item total is net of tax. */
  function BreakdownOf(pa: ProductArray, store: Store, shippingCostOf: (Store, seq<LineItem>) -> int): (r: Result<BreakdownValues, OrderError>)
    ensures r.Failure? <==> pa.NotArray?
    ensures r.Failure? ==> r.error == ProductArrayNotAnArray
    ensures r.Success? ==> r.value.itemTotal + r.value.taxTotal + r.value.shippingCosts == r.value.totalSum
    ensures r.Success? ==> r.value.totalSum == GrossSum(pa.items) + shippingCostOf(store, pa.items)
    ensures r.Success? ==> r.value.taxTotal == TaxSum(pa.items)
    ensures r.Success? ==> r.value.shippingCosts == shippingCostOf(store, pa.items)
  {
    if pa.NotArray? then Failure(ProductArrayNotAnArray)
    else
      var gross := GrossSum(pa.items);
      var tax := TaxSum(pa.items);
      var shipping := shippingCostOf(store, pa.items);
      Success(BreakdownValues(gross + shipping, gross - tax, tax, shipping))
  }

  /** calculateBreakdown: accumulates the gross sum and the tax total over
      the products, adds shipping, then takes the tax out of the item total. */
  method CalculateBreakdown(pa: ProductArray, store: Store, shippingCostOf: (Store, seq<LineItem>) -> int)
    returns (r: Result<BreakdownValues, OrderError>)
    ensures r == BreakdownOf(pa, store, shippingCostOf)
  {
    if pa.NotArray? {
      return Failure(ProductArrayNotAnArray);
    }
    var ps := pa.items;
    var itemTotal := 0;
    var taxTotal := 0;
    for k := 0 to |ps|
      invariant itemTotal == GrossSum(ps[..k])
      invariant taxTotal == TaxSum(ps[..k])
    {
      assert ps[..k + 1][..k] == ps[..k];
      taxTotal := taxTotal + Money.ProductTax(ps[k].product.priceCents) * ps[k].amount;
      itemTotal := itemTotal + ps[k].product.priceCents * ps[k].amount;
    }
    assert ps[..|ps|] == ps;
    var shippingCosts := shippingCostOf(store, ps);
    var totalSum := itemTotal + shippingCosts;
    itemTotal := itemTotal - taxTotal;
    r := Success(BreakdownValues(totalSum, itemTotal, taxTotal, shippingCosts));
  }

  /** createAmount: the amount object of one purchase unit. Its value is
      item_total + tax_total + shipping, exactly, as PayPal demands of an
      amount that carries a breakdown. */
  function CreateAmount(pa: ProductArray, currencyCode: string, store: Store, shippingCostOf: (Store, seq<LineItem>) -> int)
    : (r: Result<Amount, OrderError>)
    ensures r.Failure? <==> pa.NotArray?
    ensures r.Failure? ==> r.error == ProductArrayNotAnArray
    ensures r.Success? ==>
      r.value.value == r.value.breakdown.itemTotal.value + r.value.breakdown.taxTotal.value + r.value.breakdown.shipping.value
    ensures r.Success? ==>
      && r.value.currencyCode == currencyCode
      && r.value.breakdown.itemTotal.currencyCode == currencyCode
      && r.value.breakdown.taxTotal.currencyCode == currencyCode
      && r.value.breakdown.shipping.currencyCode == currencyCode
    ensures r.Success? ==>
      && r.value.value == GrossSum(pa.items) + shippingCostOf(store, pa.items)
      && r.value.breakdown.itemTotal.value == GrossSum(pa.items) - TaxSum(pa.items)
      && r.value.breakdown.taxTotal.value == TaxSum(pa.items)
      && r.value.breakdown.shipping.value == shippingCostOf(store, pa.items)
  {
    if pa.NotArray? then Failure(ProductArrayNotAnArray)
    else
      var b := BreakdownOf(pa, store, shippingCostOf).value;
      Success(Amount(currencyCode, b.totalSum,
                     Breakdown(CurrencyAmount(currencyCode, b.itemTotal),
                               CurrencyAmount(currencyCode, b.shippingCosts),
                               CurrencyAmount(currencyCode, b.taxTotal))))
  }

  // ---------------------------------------------------------------------
  // Payment instruction and shipping address

  /** createPaymentInstruction: the platform's cut, total × rate rounded to
      the cent, paid out instantly to the platform account. A negative
      total is refused before the rate is looked up. */
  function CreatePaymentInstruction(totalSum: int, currencyCode: string, storeId: string,
                                    feeRateOf: string -> FeeRate, platform: PlatformAccount)
    : (r: Result<PaymentInstruction, OrderError>)
    ensures totalSum < 0 ==> r == Failure(NegativeTotalSum)
    ensures totalSum >= 0 ==> r.Success?
    ensures r.Success? ==>
      && r.value.disbursementMode == "INSTANT"
      && |r.value.platformFees| == 1
      && r.value.platformFees[0].payee == platform
      && r.value.platformFees[0].amount.currencyCode == currencyCode
    ensures r.Success? ==>
      var rate := feeRateOf(storeId);
      var fee := r.value.platformFees[0].amount.value;
      2 * totalSum * rate.num - rate.den < 2 * fee * rate.den <= 2 * totalSum * rate.num + rate.den
    ensures r.Success? && InUnitInterval(feeRateOf(storeId)) ==>
      0 <= r.value.platformFees[0].amount.value <= totalSum
  {
    if totalSum < 0 then Failure(NegativeTotalSum)
    else
      var rate := feeRateOf(storeId);
      var fee := Money.RoundHalfUp(totalSum * rate.num, rate.den);
      FeeWithinTotal(totalSum, rate);
      Success(PaymentInstruction("INSTANT", [PlatformFee(CurrencyAmount(currencyCode, fee), platform)]))
  }

  /** With 0 <= rate <= 1 the rounded fee lies between 0 and the total. */
  lemma FeeWithinTotal(totalSum: int, rate: FeeRate)
    requires totalSum >= 0
    ensures InUnitInterval(rate) ==> 0 <= Money.RoundHalfUp(totalSum * rate.num, rate.den) <= totalSum
  {
    if InUnitInterval(rate) {
      Money.MulMonotone(0, rate.num, totalSum);
      Money.MulMonotone(rate.num, rate.den, totalSum);
      assert 0 * rate.den <= totalSum * rate.num <= totalSum * rate.den;
      Money.RoundHalfUpBetween(totalSum * rate.num, rate.den, 0, totalSum);
    }
  }

  /** createShippingAddress: the first missing field, in the order
      firstName, lastName, addressLine1, city, postcode, is reported;
      otherwise the address is reshaped for PayPal, always in Germany. */
  function CreateShippingAddress(a: AddressInput): (r: Result<Shipping, OrderError>)
    ensures a.firstName.None? ==> r == Failure(MissingAddressField("firstName"))
    ensures a.firstName.Some? && a.lastName.None? ==> r == Failure(MissingAddressField("lastName"))
    ensures a.firstName.Some? && a.lastName.Some? && a.addressLine1.None? ==>
      r == Failure(MissingAddressField("addressLine1"))
    ensures a.firstName.Some? && a.lastName.Some? && a.addressLine1.Some? && a.city.None? ==>
      r == Failure(MissingAddressField("city"))
    ensures a.firstName.Some? && a.lastName.Some? && a.addressLine1.Some? && a.city.Some? && a.postcode.None? ==>
      r == Failure(MissingAddressField("postcode"))
    ensures r.Success? <==>
      a.firstName.Some? && a.lastName.Some? && a.addressLine1.Some? && a.city.Some? && a.postcode.Some?
    ensures r.Success? ==>
      && r.value.fullName == a.firstName.value + " " + a.lastName.value
      && r.value.address == PostalAddress(a.addressLine1.value, "", a.city.value, "", a.postcode.value, "DE")
  {
    if a.firstName.None? then Failure(MissingAddressField("firstName"))
    else if a.lastName.None? then Failure(MissingAddressField("lastName"))
    else if a.addressLine1.None? then Failure(MissingAddressField("addressLine1"))
    else if a.city.None? then Failure(MissingAddressField("city"))
    else if a.postcode.None? then Failure(MissingAddressField("postcode"))
    else
      Success(Shipping(a.firstName.value + " " + a.lastName.value,
                       PostalAddress(a.addressLine1.value, "", a.city.value, "", a.postcode.value, "DE")))
  }

  // ---------------------------------------------------------------------
  // Purchase units

  /** `${storeId}~${index}` */
  function ReferenceId(storeId: string, index: nat): string {
    storeId + "~" + Decimal.NatToString(index)
  }

  /** The purchase unit of the store at position `index` of the order, built
      in the source's order: amount, items, shipping address, payment
      instruction. `feeStoreId` gives the store id handed to the fee lookup. */
  function PurchaseUnitAt(order: OrderObject, index: nat, currencyCode: string, address: AddressInput,
                          env: Collaborators, feeStoreId: (string, OrderElement) -> string)
    : Result<PurchaseUnit, OrderError>
    requires WellFormed(order) && index < |order.storeIds|
  {
    var key := order.storeIds[index];
    var element := order.elements[key];
    var amount :- CreateAmount(element.products, currencyCode, element.store, env.shippingCostOf);
    // createItemArray's own array check cannot fail once createAmount's has passed
    var items := ItemArray(element.products, currencyCode).value;
    var shipping :- CreateShippingAddress(address);
    var instruction :- CreatePaymentInstruction(amount.value, currencyCode, feeStoreId(key, element),
                                                env.feeRateOf, env.platform);
    Success(PurchaseUnit(ReferenceId(key, index), Payee(element.store.merchantIdInPayPal),
                         amount, items, shipping, instruction))
  }

  /** The purchase units of the first n stores, stopping at the first error. */
  function PurchaseUnitsUpTo(order: OrderObject, n: nat, currencyCode: string, address: AddressInput,
                             env: Collaborators, feeStoreId: (string, OrderElement) -> string)
    : Result<seq<PurchaseUnit>, OrderError>
    requires WellFormed(order) && n <= |order.storeIds|
  {
    if n == 0 then Success([])
    else
      var done :- PurchaseUnitsUpTo(order, n - 1, currencyCode, address, env, feeStoreId);
      var unit :- PurchaseUnitAt(order, n - 1, currencyCode, address, env, feeStoreId);
      Success(done + [unit])
  }

  /** The purchase units of the whole order. */
  function PurchaseUnits(order: OrderObject, currencyCode: string, address: AddressInput,
                         env: Collaborators, feeStoreId: (string, OrderElement) -> string)
    : Result<seq<PurchaseUnit>, OrderError>
    requires WellFormed(order)
  {
    PurchaseUnitsUpTo(order, |order.storeIds|, currencyCode, address, env, feeStoreId)
  }

  /** The first n stores give n units, in key order, exactly when none of
      them fails; otherwise the error is that of the first store that fails. */
  lemma {:induction false} PurchaseUnitsUpToShape(order: OrderObject, n: nat, currencyCode: string, address: AddressInput,
                                                  env: Collaborators, feeStoreId: (string, OrderElement) -> string)
    requires WellFormed(order) && n <= |order.storeIds|
    ensures var r := PurchaseUnitsUpTo(order, n, currencyCode, address, env, feeStoreId);
      && (r.Success? <==> forall i :: 0 <= i < n ==> PurchaseUnitAt(order, i, currencyCode, address, env, feeStoreId).Success?)
      && (r.Success? ==> |r.value| == n && forall i :: 0 <= i < n ==>
            PurchaseUnitAt(order, i, currencyCode, address, env, feeStoreId) == Success(r.value[i]))
      && (r.Failure? ==> exists k :: (0 <= k < n
            && PurchaseUnitAt(order, k, currencyCode, address, env, feeStoreId) == Failure(r.error)
            && forall j :: 0 <= j < k ==> PurchaseUnitAt(order, j, currencyCode, address, env, feeStoreId).Success?))
  {
    if n > 0 {
      PurchaseUnitsUpToShape(order, n - 1, currencyCode, address, env, feeStoreId);
      var prev := PurchaseUnitsUpTo(order, n - 1, currencyCode, address, env, feeStoreId);
      var r := PurchaseUnitsUpTo(order, n, currencyCode, address, env, feeStoreId);
      var last := PurchaseUnitAt(order, n - 1, currencyCode, address, env, feeStoreId);
      if prev.Failure? {
        var k :| 0 <= k < n - 1
          && PurchaseUnitAt(order, k, currencyCode, address, env, feeStoreId) == Failure(prev.error)
          && forall j :: 0 <= j < k ==> PurchaseUnitAt(order, j, currencyCode, address, env, feeStoreId).Success?;
        assert r == Failure(prev.error);
        assert 0 <= k < n;
      } else if last.Failure? {
        assert r == Failure(last.error);
        assert PurchaseUnitAt(order, n - 1, currencyCode, address, env, feeStoreId) == Failure(r.error);
      } else {
        assert r == Success(prev.value + [last.value]);
        forall i | 0 <= i < n
          ensures PurchaseUnitAt(order, i, currencyCode, address, env, feeStoreId) == Success(r.value[i])
        {
          if i < n - 1 {
            assert r.value[i] == prev.value[i];
          }
        }
      }
    }
  }

  /** Once a store fails, the units of any longer prefix fail with the same error. */
  lemma {:induction false} FailureIsFinal(order: OrderObject, k: nat, n: nat, currencyCode: string, address: AddressInput,
                                          env: Collaborators, feeStoreId: (string, OrderElement) -> string)
    requires WellFormed(order) && k <= n <= |order.storeIds|
    requires PurchaseUnitsUpTo(order, k, currencyCode, address, env, feeStoreId).Failure?
    ensures PurchaseUnitsUpTo(order, n, currencyCode, address, env, feeStoreId)
         == PurchaseUnitsUpTo(order, k, currencyCode, address, env, feeStoreId)
    decreases n
  {
    if n > k {
      FailureIsFinal(order, k, n - 1, currencyCode, address, env, feeStoreId);
    }
  }

  /** createPurchaseUnitArray: one purchase unit per store key, pushed in key
      order; the first error of any store aborts the whole array. */
  method CreatePurchaseUnitArray(order: OrderObject, currencyCode: string, address: AddressInput,
                                 env: Collaborators, feeStoreId: (string, OrderElement) -> string)
    returns (r: Result<seq<PurchaseUnit>, OrderError>)
    requires WellFormed(order)
    ensures r == PurchaseUnits(order, currencyCode, address, env, feeStoreId)
    ensures r.Success? ==> |r.value| == |order.storeIds|
    ensures r.Success? ==> forall i :: 0 <= i < |order.storeIds| ==>
      PurchaseUnitAt(order, i, currencyCode, address, env, feeStoreId) == Success(r.value[i])
    ensures r.Failure? ==> exists k :: (0 <= k < |order.storeIds|
      && PurchaseUnitAt(order, k, currencyCode, address, env, feeStoreId) == Failure(r.error)
      && forall j :: 0 <= j < k ==> PurchaseUnitAt(order, j, currencyCode, address, env, feeStoreId).Success?)
  {
    var units: seq<PurchaseUnit> := [];
    var i := 0;
    while i < |order.storeIds|
      invariant 0 <= i <= |order.storeIds|
      invariant PurchaseUnitsUpTo(order, i, currencyCode, address, env, feeStoreId) == Success(units)
    {
      var unit := CreatePurchaseUnit(order, i, currencyCode, address, env, feeStoreId);
      if unit.Failure? {
        FailureIsFinal(order, i + 1, |order.storeIds|, currencyCode, address, env, feeStoreId);
        r := Failure(unit.error);
        PurchaseUnitsUpToShape(order, |order.storeIds|, currencyCode, address, env, feeStoreId);
        return;
      }
      units := units + [unit.value];
      i := i + 1;
    }
    r := Success(units);
    PurchaseUnitsUpToShape(order, |order.storeIds|, currencyCode, address, env, feeStoreId);
  }

  /** The body of createPurchaseUnitArray's loop for the store at `index`. */
  method CreatePurchaseUnit(order: OrderObject, index: nat, currencyCode: string, address: AddressInput,
                            env: Collaborators, feeStoreId: (string, OrderElement) -> string)
    returns (r: Result<PurchaseUnit, OrderError>)
    requires WellFormed(order) && index < |order.storeIds|
    ensures r == PurchaseUnitAt(order, index, currencyCode, address, env, feeStoreId)
  {
    var key := order.storeIds[index];
    var element := order.elements[key];
    var amount := CreateAmount(element.products, currencyCode, element.store, env.shippingCostOf);
    if amount.Failure? {
      return Failure(amount.error);
    }
    var items := CreateItemArray(element.products, currencyCode);
    var shipping := CreateShippingAddress(address);
    if shipping.Failure? {
      return Failure(shipping.error);
    }
    var instruction := CreatePaymentInstruction(amount.value.value, currencyCode, feeStoreId(key, element),
                                                env.feeRateOf, env.platform);
    if instruction.Failure? {
      return Failure(instruction.error);
    }
    r := Success(PurchaseUnit(ReferenceId(key, index), Payee(element.store.merchantIdInPayPal),
                              amount.value, items.value, shipping.value, instruction.value));
  }

  /** getCreateOrderBody: the purchase units wrapped with the capture intent
      and the fixed application context. */
  method GetCreateOrderBody(order: OrderObject, currencyCode: string, address: AddressInput,
                            env: Collaborators, feeStoreId: (string, OrderElement) -> string)
    returns (r: Result<OrderRequest, OrderError>)
    requires WellFormed(order)
    ensures var units := PurchaseUnits(order, currencyCode, address, env, feeStoreId);
      && (r.Success? <==> units.Success?)
      && (r.Success? ==> r.value == OrderRequest("CAPTURE", CheckoutContext, units.value))
      && (r.Failure? ==> r.error == units.error)
  {
    var units := CreatePurchaseUnitArray(order, currencyCode, address, env, feeStoreId);
    if units.Failure? {
      return Failure(units.error);
    }
    r := Success(OrderRequest("CAPTURE", CheckoutContext, units.value));
  }

  // ---------------------------------------------------------------------
  // Properties of a purchase unit

  /** Every purchase unit that is built keeps PayPal's accounting identity
      and agrees with its item list; its fee lies within its total when the
      store's rate lies in [0, 1]. */
  lemma PurchaseUnitFacts(order: OrderObject, index: nat, currencyCode: string, address: AddressInput,
                          env: Collaborators, feeStoreId: (string, OrderElement) -> string)
    requires WellFormed(order) && index < |order.storeIds|
    requires PurchaseUnitAt(order, index, currencyCode, address, env, feeStoreId).Success?
    ensures var key := order.storeIds[index];
      var element := order.elements[key];
      var u := PurchaseUnitAt(order, index, currencyCode, address, env, feeStoreId).value;
      var b := u.amount.breakdown;
      && element.products.ArrayOf?
      && u.referenceId == ReferenceId(key, index)
      && u.payee.merchantId == element.store.merchantIdInPayPal
      && u.amount.value == b.itemTotal.value + b.taxTotal.value + b.shipping.value
      && u.amount.value >= 0
      && |u.items| == |element.products.items|
      && UnitTotal(u.items) == b.itemTotal.value
      && ItemTaxTotal(u.items) == b.taxTotal.value
      && u.paymentInstruction.disbursementMode == "INSTANT"
      && |u.paymentInstruction.platformFees| == 1
      && (InUnitInterval(env.feeRateOf(feeStoreId(key, element))) ==>
            0 <= u.paymentInstruction.platformFees[0].amount.value <= u.amount.value)
  {
    var key := order.storeIds[index];
    var element := order.elements[key];
    ItemSums(element.products.items, currencyCode);
  }

  /** The reference ids of the units of one order are pairwise distinct. */
  lemma ReferenceIdsDistinct(order: OrderObject, currencyCode: string, address: AddressInput,
                             env: Collaborators, feeStoreId: (string, OrderElement) -> string)
    requires WellFormed(order)
    requires PurchaseUnits(order, currencyCode, address, env, feeStoreId).Success?
    ensures var us := PurchaseUnits(order, currencyCode, address, env, feeStoreId).value;
      forall i, j :: 0 <= i < j < |us| ==> us[i].referenceId != us[j].referenceId
  {
    var us := PurchaseUnits(order, currencyCode, address, env, feeStoreId).value;
    PurchaseUnitsUpToShape(order, |order.storeIds|, currencyCode, address, env, feeStoreId);
    forall i, j | 0 <= i < j < |us|
      ensures us[i].referenceId != us[j].referenceId
    {
      var si, sj := Decimal.NatToString(i), Decimal.NatToString(j);
      if us[i].referenceId == us[j].referenceId {
        Decimal.SuffixAfterSeparator(order.storeIds[i], si, order.storeIds[j], sj, '~');
        Decimal.NatToStringInjective(i, j);
      }
    }
  }

  /** The example of a single store selling two units at 10.00 with 5.00
      shipping and a 5% fee: 0.70 tax per unit, 18.60 net items, 1.40 tax,
      25.00 in all, and a 1.25 fee. */
  lemma SingleStoreExample()
    ensures var p := Product("Honey", "A jar of honey", 1000, "store1");
      var store := Store("store1", "MERCHANT1");
      var a := CreateAmount(ArrayOf([LineItem(p, 2)]), "EUR", store, (s: Store, ps: seq<LineItem>) => 500);
      && a.Success?
      && a.value.value == 2500
      && a.value.breakdown.itemTotal.value == 1860
      && a.value.breakdown.taxTotal.value == 140
      && a.value.breakdown.shipping.value == 500
      && CreatePaymentInstruction(2500, "EUR", "store1", (id: string) => FeeRate(5, 100), PlatformAccount("P", "p@example.com"))
           .value.platformFees[0].amount.value == 125
  {
    var p := Product("Honey", "A jar of honey", 1000, "store1");
    assert [LineItem(p, 2)][..0] == [];
  }
}
