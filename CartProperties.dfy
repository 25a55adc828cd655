/** What the pricing engine promises, stated over the specification `Priced`
    that `CartService.CalculateCart` is proved to compute. */
module CartProperties {
  import opened Wrappers
  import opened Products
  import opened Cart
  import Decimal

  // ---------------------------------------------------------------------
  // Power and the subtotal
  // ---------------------------------------------------------------------

  /** Compounding at a non-negative rate is never cheaper than simple
      interest (Bernoulli's inequality). */
  lemma {:induction false} CompoundAtLeastSimple(rate: real, n: nat)
    requires rate >= 0.0
    ensures Pow(1.0 + rate, n) >= 1.0 + n as real * rate
  {
    if n > 0 {
      CompoundAtLeastSimple(rate, n - 1);
      var p := Pow(1.0 + rate, n - 1);
      var s := 1.0 + (n - 1) as real * rate;
      MulLeft(1.0 + rate, p, s);
      assert (1.0 + rate) * s == 1.0 + n as real * rate + (n - 1) as real * rate * rate;
      assert (n - 1) as real * rate * rate >= 0.0;
    }
  }

  lemma MulLeft(a: real, x: real, y: real)
    requires a >= 0.0 && x >= y
    ensures a * x >= a * y
  {
  }

  /** The subtotal over two carts laid end to end is the sum of their subtotals. */
  lemma {:induction false} LinesTotalAppend(catalog: seq<Product>, a: seq<CartItem>, b: seq<CartItem>)
    requires AllResolved(catalog, a) && AllResolved(catalog, b)
    ensures AllResolved(catalog, a + b)
    ensures LinesTotal(catalog, a + b) == LinesTotal(catalog, a) + LinesTotal(catalog, b)
  {
    assert forall i :: 0 <= i < |a + b| ==> (a + b)[i] == if i < |a| then a[i] else b[i - |a|];
    if b != [] {
      var b' := b[..|b| - 1];
      assert AllResolved(catalog, b');
      LinesTotalAppend(catalog, a, b');
      assert (a + b)[..|a + b| - 1] == a + b';
    } else {
      assert a + b == a;
    }
  }

  /** Replacing one line by another for the same product changes the
      subtotal by exactly the difference of the two line totals. */
  lemma LinesTotalReplaceLine(catalog: seq<Product>, items: seq<CartItem>, k: nat, item': CartItem)
    requires k < |items| && AllResolved(catalog, items)
    requires item'.productId == items[k].productId
    ensures AllResolved(catalog, items[k := item'])
    ensures LinesTotal(catalog, items[k := item']) ==
            LinesTotal(catalog, items) - LineTotal(catalog, items[k]) + LineTotal(catalog, item')
  {
    var items' := items[k := item'];
    assert AllResolved(catalog, items') by {
      forall i | 0 <= i < |items'| ensures Resolves(catalog, items'[i]) {
        if i != k { assert items'[i] == items[i]; }
      }
    }
    assert items'[..k] == items[..k];
    assert items'[k + 1..] == items[k + 1..];
    LinesTotalSplit(catalog, items, k);
    LinesTotalSplit(catalog, items', k);
  }

  /** More of a product with a positive price costs more. */
  lemma LineTotalIncreasing(catalog: seq<Product>, item: CartItem, q: int)
    requires Resolves(catalog, item) && Lookup(catalog, item.productId).value.price > 0.0
    requires q > item.quantity
    ensures LineTotal(catalog, item.(quantity := q)) > LineTotal(catalog, item)
  {
    var price := Lookup(catalog, item.productId).value.price;
    MulRight(q as real, item.quantity as real, price);
    assert price * q as real == q as real * price;
    assert price * item.quantity as real == item.quantity as real * price;
  }

  /** The subtotal is the part before line k, line k, and the part after. */
  lemma LinesTotalSplit(catalog: seq<Product>, items: seq<CartItem>, k: nat)
    requires k < |items| && AllResolved(catalog, items)
    ensures AllResolved(catalog, items[..k]) && AllResolved(catalog, items[k + 1..])
    ensures LinesTotal(catalog, items) ==
            LinesTotal(catalog, items[..k]) + LineTotal(catalog, items[k]) +
            LinesTotal(catalog, items[k + 1..])
  {
    var head, tail := items[..k + 1], items[k + 1..];
    assert AllResolved(catalog, head) && AllResolved(catalog, tail);
    assert head[..k] == items[..k];
    assert LinesTotal(catalog, head) == LinesTotal(catalog, items[..k]) + LineTotal(catalog, items[k]);
    LinesTotalAppend(catalog, head, tail);
    assert head + tail == items;
  }

  // ---------------------------------------------------------------------
  // Order of the checks
  // ---------------------------------------------------------------------

  /** The empty-cart error is reported exactly for an empty cart, whatever
      the catalog, payment method or installment count. */
  lemma EmptyCartRejected(catalog: seq<Product>, request: CartRequest)
    ensures Priced(catalog, request) == Failure(EmptyCart) <==> |request.items| == 0
  {
  }

  /** For the installment method, a non-empty cart is rejected for its
      installment count exactly when the count lies outside 2..12, whatever
      the catalog holds; 2 and 12 are accepted. */
  lemma InstallmentRangeChecked(catalog: seq<Product>, request: CartRequest)
    requires |request.items| > 0 && request.paymentMethod == CREDIT_CARD_INSTALLMENTS
    ensures Priced(catalog, request) == Failure(InvalidInstallments) <==>
            request.installments < 2 || request.installments > 12
  {
  }

  /** The other methods never look at `installments`: changing it changes
      nothing in the outcome but the echoed field. */
  lemma OtherMethodsIgnoreInstallments(catalog: seq<Product>, request: CartRequest, k: int)
    requires request.paymentMethod != CREDIT_CARD_INSTALLMENTS
    ensures Priced(catalog, request.(installments := k)) ==
            match Priced(catalog, request)
            case Success(v) => Success(v.(installments := k))
            case Failure(e) => Failure(e)
  {
  }

  /** A product missing from the catalog is reported by the id of the first
      such line, and this is reported even when the payment method is invalid. */
  lemma UnknownProductRejected(catalog: seq<Product>, request: CartRequest, k: nat)
    requires k < |request.items| && !Resolves(catalog, request.items[k])
    requires forall j :: 0 <= j < k ==> Resolves(catalog, request.items[j])
    requires request.paymentMethod == CREDIT_CARD_INSTALLMENTS ==>
               2 <= request.installments <= 12
    ensures Priced(catalog, request) == Failure(ProductNotFound(request.items[k].productId))
  {
    FirstUnresolvedAt(catalog, request.items, k);
  }

  /** Any method other than the three is rejected, naming the method, once
      the cart is non-empty and every line resolves. */
  lemma InvalidMethodRejected(catalog: seq<Product>, request: CartRequest)
    requires |request.items| > 0 && AllResolved(catalog, request.items)
    requires request.paymentMethod !in {PIX, CREDIT_CARD_FULL, CREDIT_CARD_INSTALLMENTS}
    ensures Priced(catalog, request) == Failure(InvalidPaymentMethod(request.paymentMethod))
  {
  }

  /** Exactly the non-empty, fully resolvable carts paid by PIX, in full by
      card, or by card in 2..12 installments are priced. */
  lemma PricedExactly(catalog: seq<Product>, request: CartRequest)
    ensures Priced(catalog, request).Success? <==>
            |request.items| > 0 && AllResolved(catalog, request.items) &&
            (request.paymentMethod == PIX || request.paymentMethod == CREDIT_CARD_FULL ||
             (request.paymentMethod == CREDIT_CARD_INSTALLMENTS &&
              2 <= request.installments <= 12))
  {
  }

  // ---------------------------------------------------------------------
  // The priced result
  // ---------------------------------------------------------------------

  /** A priced cart echoes the request's method and installment count and
      carries the sum of price * quantity over its lines. */
  lemma PricedEchoesRequest(catalog: seq<Product>, request: CartRequest)
    requires Priced(catalog, request).Success?
    ensures AllResolved(catalog, request.items)
    ensures Priced(catalog, request).value.paymentMethod == request.paymentMethod
    ensures Priced(catalog, request).value.installments == request.installments
    ensures Priced(catalog, request).value.subtotal == LinesTotal(catalog, request.items)
  {
  }

  /** PIX and full card payment: 10% off, no interest, no installment value. */
  lemma DiscountPricing(catalog: seq<Product>, request: CartRequest)
    requires Priced(catalog, request).Success?
    requires request.paymentMethod == PIX || request.paymentMethod == CREDIT_CARD_FULL
    ensures var v := Priced(catalog, request).value;
            v.discount == v.subtotal / 10.0 &&
            v.finalValue == v.subtotal - v.discount &&
            v.interest == 0.0 && v.installmentValue == None
  {
  }

  /** Installments: the subtotal compounded at 1% per installment, with no
      discount and an installment value that divides the total evenly. */
  lemma InstallmentPricing(catalog: seq<Product>, request: CartRequest)
    requires Priced(catalog, request).Success?
    requires request.paymentMethod == CREDIT_CARD_INSTALLMENTS
    ensures 2 <= request.installments <= 12
    ensures var v := Priced(catalog, request).value;
            v.finalValue == v.subtotal * Pow(101.0 / 100.0, request.installments) &&
            v.interest == v.finalValue - v.subtotal && v.discount == 0.0 &&
            v.installmentValue == Some(v.finalValue / request.installments as real)
  {
  }

  /** With non-negative prices and quantities every amount is non-negative
      and a discount never raises the price. */
  lemma AmountsNonNegative(catalog: seq<Product>, request: CartRequest)
    requires forall p :: p in catalog ==> p.price >= 0.0
    requires forall i :: 0 <= i < |request.items| ==> request.items[i].quantity >= 0
    requires Priced(catalog, request).Success?
    ensures var v := Priced(catalog, request).value;
            v.subtotal >= 0.0 && v.discount >= 0.0 && v.interest >= 0.0 && v.finalValue >= 0.0
    ensures var v := Priced(catalog, request).value;
            v.installmentValue.Some? ==> v.installmentValue.value >= 0.0
    ensures var v := Priced(catalog, request).value;
            request.paymentMethod != CREDIT_CARD_INSTALLMENTS ==> v.finalValue <= v.subtotal
  {
    PricedSucceeds(catalog, request);
    var s := LinesTotal(catalog, request.items);
    LinesTotalNonNegative(catalog, request.items);
    PricedDispatches(catalog, request);
    DispatchAmounts(s, request.paymentMethod, request.installments);
  }

  /** The amounts of a dispatch on a non-negative subtotal. */
  lemma DispatchAmounts(s: real, paymentMethod: string, installments: int)
    requires paymentMethod == CREDIT_CARD_INSTALLMENTS ==> installments >= 1
    requires s >= 0.0 && Dispatch(s, paymentMethod, installments).Success?
    ensures var v := Dispatch(s, paymentMethod, installments).value;
            v.subtotal == s && v.discount >= 0.0 && v.interest >= 0.0 && v.finalValue >= 0.0
    ensures var v := Dispatch(s, paymentMethod, installments).value;
            v.installmentValue.Some? ==> v.installmentValue.value >= 0.0
    ensures var v := Dispatch(s, paymentMethod, installments).value;
            paymentMethod != CREDIT_CARD_INSTALLMENTS ==> v.finalValue <= s
  {
    if paymentMethod == CREDIT_CARD_INSTALLMENTS {
      CompoundedNotBelow(s, installments);
    }
  }

  /** Compounding a non-negative subtotal never lowers it, and its share per
      installment is non-negative. */
  lemma CompoundedNotBelow(s: real, n: nat)
    requires s >= 0.0 && n >= 1
    ensures s * Pow(1.0 + INTEREST_RATE, n) - s >= 0.0
    ensures s * Pow(1.0 + INTEREST_RATE, n) / n as real >= 0.0
  {
    var f := Pow(1.0 + INTEREST_RATE, n);
    CompoundAtLeastSimple(INTEREST_RATE, n);
    MulLeft(s, f, 1.0);
    MulLeft(s * f, 1.0 / n as real, 0.0);
  }

  /** A priced request passed the checks and resolved every line. */
  lemma PricedSucceeds(catalog: seq<Product>, request: CartRequest)
    requires Priced(catalog, request).Success?
    ensures Validate(request).None? && AllResolved(catalog, request.items)
  {
  }

  lemma {:induction false} LinesTotalNonNegative(catalog: seq<Product>, items: seq<CartItem>)
    requires forall p :: p in catalog ==> p.price >= 0.0
    requires forall i :: 0 <= i < |items| ==> items[i].quantity >= 0
    requires AllResolved(catalog, items)
    ensures LinesTotal(catalog, items) >= 0.0
  {
    if items != [] {
      var last := items[|items| - 1];
      LinesTotalNonNegative(catalog, items[..|items| - 1]);
      var price := Lookup(catalog, last.productId).value.price;
      assert price >= 0.0;
      assert price * last.quantity as real >= 0.0;
    }
  }

  /** Raising one line's quantity, for a product with a positive price,
      keeps a priced cart priced and strictly raises its subtotal and its
      final value. */
  lemma MoreQuantityCostsMore(catalog: seq<Product>, request: CartRequest, k: nat, q: int,
                              request': CartRequest)
    requires Priced(catalog, request).Success?
    requires k < |request.items| && q > request.items[k].quantity
    requires Resolves(catalog, request.items[k]) &&
             Lookup(catalog, request.items[k].productId).value.price > 0.0
    requires request' == request.(items := request.items[k := request.items[k].(quantity := q)])
    ensures Priced(catalog, request').Success?
    ensures Priced(catalog, request').value.subtotal > Priced(catalog, request).value.subtotal
    ensures Priced(catalog, request').value.finalValue > Priced(catalog, request).value.finalValue
  {
    var items := request.items;
    PricedSucceeds(catalog, request);
    LinesTotalReplaceLine(catalog, items, k, items[k].(quantity := q));
    LineTotalIncreasing(catalog, items[k], q);
    assert Validate(request') == Validate(request);
    var s, s' := LinesTotal(catalog, items), LinesTotal(catalog, request'.items);
    PricedDispatches(catalog, request);
    PricedDispatches(catalog, request');
    DispatchIncreasing(s, s', request.paymentMethod, request.installments);
  }

  /** Once the checks pass and every line resolves, the outcome is the
      dispatch on the subtotal. */
  lemma PricedDispatches(catalog: seq<Product>, request: CartRequest)
    requires Validate(request).None? && AllResolved(catalog, request.items)
    ensures Priced(catalog, request) ==
            Dispatch(LinesTotal(catalog, request.items), request.paymentMethod, request.installments)
  {
  }

  /** A larger subtotal gives a larger final value under either strategy. */
  lemma DispatchIncreasing(s: real, s': real, paymentMethod: string, installments: int)
    requires paymentMethod == CREDIT_CARD_INSTALLMENTS ==> installments >= 1
    requires s < s' && Dispatch(s, paymentMethod, installments).Success?
    ensures Dispatch(s', paymentMethod, installments).Success?
    ensures Dispatch(s, paymentMethod, installments).value.subtotal == s
    ensures Dispatch(s', paymentMethod, installments).value.subtotal == s'
    ensures Dispatch(s', paymentMethod, installments).value.finalValue >
            Dispatch(s, paymentMethod, installments).value.finalValue
  {
    if paymentMethod == CREDIT_CARD_INSTALLMENTS {
      var n: nat := installments;
      var f := Pow(1.0 + INTEREST_RATE, n);
      assert f > 0.0 by {
        CompoundAtLeastSimple(INTEREST_RATE, n);
      }
      MulRight(s', s, f);
    }
  }

  lemma MulRight(x: real, y: real, f: real)
    requires x > y && f > 0.0
    ensures x * f > y * f
  {
  }

  // ---------------------------------------------------------------------
  // Messages and concrete scenarios
  // ---------------------------------------------------------------------

  /** The messages of the exceptions, as the source formats them. */
  lemma MessagesAsInSource()
    ensures Message(EmptyCart) == "Cart items cannot be empty"
    ensures Message(InvalidInstallments) == "Installments must be between 2 and 12"
    ensures Message(ProductNotFound(999)) == "Product with ID 999 not found"
    ensures Message(InvalidPaymentMethod("INVALID_METHOD")) == "Invalid payment method: INVALID_METHOD"
  {
    InstallmentsMessage();
    MissingProductMessage();
  }

  lemma InstallmentsMessage()
    ensures Message(InvalidInstallments) == "Installments must be between 2 and 12"
  {
    assert Decimal.DigitChar(1) == '1' && Decimal.DigitChar(2) == '2';
    assert Decimal.NatToDecimal(12) == Decimal.NatToDecimal(1) + [Decimal.DigitChar(2)];
  }

  lemma MissingProductMessage()
    ensures Message(ProductNotFound(999)) == "Product with ID 999 not found"
  {
    assert Decimal.DigitChar(9) == '9';
    assert Decimal.NatToDecimal(99) == Decimal.NatToDecimal(9) + [Decimal.DigitChar(9)];
    assert Decimal.NatToDecimal(999) == Decimal.NatToDecimal(99) + [Decimal.DigitChar(9)];
  }

  /** Different missing ids give different messages. */
  lemma ProductNotFoundMessagesDiffer(a: int, b: int)
    requires a != b
    ensures Message(ProductNotFound(a)) != Message(ProductNotFound(b))
  {
    if Message(ProductNotFound(a)) == Message(ProductNotFound(b)) {
      var ma, mb := Message(ProductNotFound(a)), Message(ProductNotFound(b));
      var prefix := "Product with ID ";
      var suffix := " not found";
      var da, db := Decimal.IntToDecimal(a), Decimal.IntToDecimal(b);
      assert ma == prefix + da + suffix && mb == prefix + db + suffix;
      assert |da| == |db|;
      assert da == ma[|prefix|..|ma| - |suffix|];
      assert db == mb[|prefix|..|mb| - |suffix|];
      Decimal.IntToDecimalInjective(a, b);
    }
  }

  function TestProduct(price: real): Product {
    Product(1, "Test Product", "Test Description", price, "test.jpg")
  }

  /** PIX on one product at 100.00: subtotal 100, discount 10, final 90. */
  lemma PixScenario()
    ensures Priced([TestProduct(100.0)], CartRequest([CartItem(1, 1)], PIX, 1)) ==
            Success(CartResult(100.0, 10.0, 0.0, 90.0, PIX, 1, None))
  {
  }

  /** Full card payment on one product at 200.00: discount 20, final 180. */
  lemma FullPaymentScenario()
    ensures Priced([TestProduct(200.0)], CartRequest([CartItem(1, 1)], CREDIT_CARD_FULL, 1)) ==
            Success(CartResult(200.0, 20.0, 0.0, 180.0, CREDIT_CARD_FULL, 1, None))
  {
  }

  /** Two lines, 2 x 100 and 1 x 200, paid by PIX: 400, 40, 360. */
  lemma MultipleItemsScenario()
    ensures var catalog := [TestProduct(100.0), Product(2, "Product 2", "Description 2", 200.0, "test2.jpg")];
            Priced(catalog, CartRequest([CartItem(1, 2), CartItem(2, 1)], PIX, 1)) ==
            Success(CartResult(400.0, 40.0, 0.0, 360.0, PIX, 1, None))
  {
    var catalog := [TestProduct(100.0), Product(2, "Product 2", "Description 2", 200.0, "test2.jpg")];
    var items := [CartItem(1, 2), CartItem(2, 1)];
    assert items[..1] == [CartItem(1, 2)];
    assert LinesTotal(catalog, items) == 400.0;
  }

  /** 500.00 in 2 installments: 510.05, of which 10.05 interest. */
  lemma TwoInstallmentsScenario()
    ensures Priced([TestProduct(500.0)], CartRequest([CartItem(1, 1)], CREDIT_CARD_INSTALLMENTS, 2)) ==
            Success(CartResult(500.0, 0.0, 10.05, 510.05, CREDIT_CARD_INSTALLMENTS, 2, Some(255.025)))
  {
    assert Pow(1.01, 2) == 1.0201;
  }

  /** 1000.00 in 12 installments: no discount, interest within a cent of
      126.83, final 1126.825..., 93.90... per installment, count echoed. */
  lemma TwelveInstallmentsScenario()
    ensures var r := Priced([TestProduct(1000.0)], CartRequest([CartItem(1, 1)], CREDIT_CARD_INSTALLMENTS, 12));
            r.Success? && r.value.subtotal == 1000.0 && r.value.discount == 0.0 &&
            126.82 <= r.value.interest <= 126.84 && r.value.installments == 12 &&
            r.value.finalValue == 1126.825030131969720661201 &&
            1126.82 <= r.value.finalValue <= 1126.84 &&
            r.value.installmentValue.Some? && 93.89 <= r.value.installmentValue.value <= 93.91
  {
    assert Pow(1.01, 12) == 1.126825030131969720661201;
  }

  /** 1000.00 in 6 installments: 1000 x 1.01^6 = 1061.520150601. */
  lemma SixInstallmentsScenario()
    ensures Priced([TestProduct(1000.0)], CartRequest([CartItem(1, 1)], CREDIT_CARD_INSTALLMENTS, 6)) ==
            Success(CartResult(1000.0, 0.0, 61.520150601, 1061.520150601, CREDIT_CARD_INSTALLMENTS, 6,
                               Some(1061.520150601 / 6.0)))
  {
    assert Pow(1.01, 6) == 1.061520150601;
  }

  /** The error scenarios: empty cart, 1 and 13 installments, product 999. */
  lemma ErrorScenarios()
    ensures Priced([TestProduct(100.0)], CartRequest([], PIX, 1)) == Failure(EmptyCart)
    ensures Priced([TestProduct(100.0)], CartRequest([CartItem(1, 1)], CREDIT_CARD_INSTALLMENTS, 1)) ==
            Failure(InvalidInstallments)
    ensures Priced([TestProduct(100.0)], CartRequest([CartItem(1, 1)], CREDIT_CARD_INSTALLMENTS, 13)) ==
            Failure(InvalidInstallments)
    ensures Priced(LoadProducts(), CartRequest([CartItem(999, 1)], PIX, 1)) == Failure(ProductNotFound(999))
    ensures Priced([TestProduct(100.0)], CartRequest([CartItem(1, 1)], "INVALID_METHOD", 1)) ==
            Failure(InvalidPaymentMethod("INVALID_METHOD"))
  {
    CatalogLookup(999);
  }
}
