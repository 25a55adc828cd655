/** The cart pricing engine: validates a cart request, resolves its lines
    against the catalog, sums a subtotal and prices it by payment method. */
module Cart {
  import opened Wrappers
  import opened Products
  import Decimal

  const PIX: string := "PIX"
  const CREDIT_CARD_FULL: string := "CREDIT_CARD_FULL_PAYMENT"
  const CREDIT_CARD_INSTALLMENTS: string := "CREDIT_CARD_INSTALLMENTS"

  const DISCOUNT_RATE: real := 0.10
  const INTEREST_RATE: real := 0.01
  const MIN_INSTALLMENTS: int := 2
  const MAX_INSTALLMENTS: int := 12

  /** One cart line. The engine itself does not check `quantity`. */
  datatype CartItem = CartItem(productId: int, quantity: int)

  /** The request; `installments` defaults to 1 where the caller omits it. */
  datatype CartRequest = CartRequest(items: seq<CartItem>, paymentMethod: string, installments: int := 1)

  /** The response; `installmentValue` is None (PHP null) except for installments. */
  datatype CartResult = CartResult(
    subtotal: real,
    discount: real,
    interest: real,
    finalValue: real,
    paymentMethod: string,
    installments: int,
    installmentValue: Option<real>)

  /** One case per `InvalidArgumentException` the engine throws. */
  datatype CartError =
    | EmptyCart
    | InvalidInstallments
    | ProductNotFound(productId: int)
    | InvalidPaymentMethod(paymentMethod: string)

  /** The exception message of each error. */
  function Message(e: CartError): string {
    match e
    case EmptyCart => "Cart items cannot be empty"
    case InvalidInstallments =>
      "Installments must be between " + Decimal.IntToDecimal(MIN_INSTALLMENTS) +
      " and " + Decimal.IntToDecimal(MAX_INSTALLMENTS)
    case ProductNotFound(id) => "Product with ID " + Decimal.IntToDecimal(id) + " not found"
    case InvalidPaymentMethod(m) => "Invalid payment method: " + m
  }

  /** x raised to the n-th power. */
  function Pow(x: real, n: nat): real {
    if n == 0 then 1.0 else x * Pow(x, n - 1)
  }

  /** The request checks made before any product is looked up: an empty cart
      first, then the installment range, for the installment method only. */
  function Validate(request: CartRequest): (r: Option<CartError>)
    ensures r == Some(EmptyCart) <==> |request.items| == 0
    ensures r == Some(InvalidInstallments) <==>
              |request.items| > 0 && request.paymentMethod == CREDIT_CARD_INSTALLMENTS &&
              !(MIN_INSTALLMENTS <= request.installments <= MAX_INSTALLMENTS)
    ensures r.None? <==>
              |request.items| > 0 &&
              (request.paymentMethod == CREDIT_CARD_INSTALLMENTS ==>
                 MIN_INSTALLMENTS <= request.installments <= MAX_INSTALLMENTS)
  {
    if |request.items| == 0 then Some(EmptyCart)
    else if request.paymentMethod == CREDIT_CARD_INSTALLMENTS &&
            (request.installments < MIN_INSTALLMENTS || request.installments > MAX_INSTALLMENTS)
    then Some(InvalidInstallments)
    else None
  }

  predicate Resolves(catalog: seq<Product>, item: CartItem) {
    Lookup(catalog, item.productId).Some?
  }

  predicate AllResolved(catalog: seq<Product>, items: seq<CartItem>) {
    forall i :: 0 <= i < |items| ==> Resolves(catalog, items[i])
  }

  /** The id of the first line, in input order, that the catalog cannot resolve. */
  function FirstUnresolved(catalog: seq<Product>, items: seq<CartItem>): (r: Option<int>)
    ensures r.None? <==> AllResolved(catalog, items)
    ensures r.Some? ==> exists k :: 0 <= k < |items| && items[k].productId == r.value &&
                          !Resolves(catalog, items[k]) &&
                          forall j :: 0 <= j < k ==> Resolves(catalog, items[j])
  {
    if items == [] then None
    else if !Resolves(catalog, items[0]) then Some(items[0].productId)
    else
      var rest := FirstUnresolved(catalog, items[1..]);
      if rest.Some? then
        var k :| 0 <= k < |items[1..]| && items[1..][k].productId == rest.value &&
                 !Resolves(catalog, items[1..][k]) &&
                 forall j :: 0 <= j < k ==> Resolves(catalog, items[1..][j]);
        assert items[k + 1] == items[1..][k];
        assert forall j :: 0 <= j < k + 1 ==> Resolves(catalog, items[j]) by {
          forall j | 0 <= j < k + 1 ensures Resolves(catalog, items[j]) {
            if j > 0 { assert items[j] == items[1..][j - 1]; }
          }
        }
        rest
      else rest
  }

  /** `price * quantity` of one resolved line. */
  function LineTotal(catalog: seq<Product>, item: CartItem): real
    requires Resolves(catalog, item)
  {
    Lookup(catalog, item.productId).value.price * item.quantity as real
  }

  /** The sum of the line totals, accumulated in input order. */
  function LinesTotal(catalog: seq<Product>, items: seq<CartItem>): real
    requires AllResolved(catalog, items)
  {
    if items == [] then 0.0
    else LinesTotal(catalog, items[..|items| - 1]) + LineTotal(catalog, items[|items| - 1])
  }

  /** The subtotal, or the error for the first unknown product. */
  function Subtotal(catalog: seq<Product>, items: seq<CartItem>): (r: Result<real, CartError>)
    ensures r.Failure? <==> !AllResolved(catalog, items)
    ensures r.Failure? ==> r.error.ProductNotFound?
  {
    match FirstUnresolved(catalog, items)
    case Some(id) => Failure(ProductNotFound(id))
    case None => Success(LinesTotal(catalog, items))
  }

  /** The `match` on the payment method: the discount strategy, the
      compound-interest strategy, or the invalid-method error. */
  function Dispatch(subtotal: real, paymentMethod: string, installments: int): Result<CartResult, CartError>
    requires paymentMethod == CREDIT_CARD_INSTALLMENTS ==> installments >= 1
  {
    if paymentMethod == PIX || paymentMethod == CREDIT_CARD_FULL then
      var discount := subtotal * DISCOUNT_RATE;
      Success(CartResult(subtotal, discount, 0.0, subtotal - discount,
                         paymentMethod, installments, None))
    else if paymentMethod == CREDIT_CARD_INSTALLMENTS then
      var finalValue := subtotal * Pow(1.0 + INTEREST_RATE, installments);
      Success(CartResult(subtotal, 0.0, finalValue - subtotal, finalValue,
                         paymentMethod, installments, Some(finalValue / installments as real)))
    else
      Failure(InvalidPaymentMethod(paymentMethod))
  }

  /** What `calculateCart` computes for `request` against `catalog`: the
      checks in order, then the dispatch on the subtotal. */
  function Priced(catalog: seq<Product>, request: CartRequest): Result<CartResult, CartError> {
    match Validate(request)
    case Some(e) => Failure(e)
    case None =>
      match Subtotal(catalog, request.items)
      case Failure(e) => Failure(e)
      case Success(subtotal) => Dispatch(subtotal, request.paymentMethod, request.installments)
  }

  /** The service; it holds the repository it was built with and never
      changes any state. */
  class CartService {
    const productRepository: ProductRepository

    constructor (productRepository: ProductRepository)
      ensures this.productRepository == productRepository
    {
      this.productRepository := productRepository;
    }

    method CalculateCart(request: CartRequest) returns (r: Result<CartResult, CartError>)
      ensures r == Priced(productRepository.products, request)
    {
      ghost var catalog := productRepository.products;
      var invalid := Validate(request);
      if invalid.Some? {
        return Failure(invalid.value);
      }
      var subtotalOrError := CalculateSubtotal(request);
      if subtotalOrError.Failure? {
        return Failure(subtotalOrError.error);
      }
      var subtotal := subtotalOrError.value;
      assert Priced(catalog, request) == Dispatch(subtotal, request.paymentMethod, request.installments);
      var discount, interest, installmentValue := 0.0, 0.0, None;
      var finalValue: real;
      var pm := request.paymentMethod;
      if pm == PIX || pm == CREDIT_CARD_FULL {
        finalValue, discount := ApplyDiscount(subtotal);
        assert Dispatch(subtotal, pm, request.installments) ==
               Success(CartResult(subtotal, discount, interest, finalValue, pm, request.installments, None));
      } else if pm == CREDIT_CARD_INSTALLMENTS {
        finalValue, interest, installmentValue := ApplyCompoundInterest(subtotal, request.installments);
        var d := Dispatch(subtotal, pm, request.installments);
        assert d.value.finalValue == finalValue;
        assert d.value.interest == interest;
        assert d.value.installmentValue == installmentValue;
        assert d.value.discount == discount;
      } else {
        return Failure(InvalidPaymentMethod(pm));
      }
      r := Success(CartResult(subtotal, discount, interest, finalValue,
                              pm, request.installments, installmentValue));
    }

    /** Sums the lines in order, failing on the first product the repository
        does not find. */
    method CalculateSubtotal(request: CartRequest) returns (r: Result<real, CartError>)
      ensures r == Subtotal(productRepository.products, request.items)
    {
      var items := request.items;
      ghost var catalog := productRepository.products;
      var subtotal := 0.0;
      var i := 0;
      while i < |items|
        invariant 0 <= i <= |items|
        invariant AllResolved(catalog, items[..i])
        invariant subtotal == LinesTotal(catalog, items[..i])
      {
        var product := productRepository.FindProductById(items[i].productId);
        if product.None? {
          FirstUnresolvedAt(catalog, items, i);
          return Failure(ProductNotFound(items[i].productId));
        }
        subtotal := subtotal + product.value.price * items[i].quantity as real;
        assert items[..i + 1][..i] == items[..i];
        i := i + 1;
      }
      assert items[..i] == items;
      r := Success(subtotal);
    }

    /** The discount strategy; `discount` stands for PHP's `&$discount`. */
    method ApplyDiscount(subtotal: real) returns (finalValue: real, discount: real)
      ensures discount == subtotal / 10.0
      ensures finalValue + discount == subtotal
      ensures subtotal >= 0.0 ==> 0.0 <= finalValue <= subtotal
    {
      discount := subtotal * DISCOUNT_RATE;
      finalValue := subtotal - discount;
    }

    /** The compound-interest strategy; `interest` and `installmentValue`
        stand for the source's reference parameters. */
    method ApplyCompoundInterest(subtotal: real, installments: int)
      returns (finalValue: real, interest: real, installmentValue: Option<real>)
      requires installments >= 1
      ensures finalValue == subtotal * Pow(1.0 + INTEREST_RATE, installments)
      ensures finalValue == subtotal + interest
      ensures installmentValue == Some(finalValue / installments as real)
      ensures installmentValue.value * installments as real == finalValue
    {
      finalValue := subtotal * Pow(1.0 + INTEREST_RATE, installments);
      interest := finalValue - subtotal;
      installmentValue := Some(finalValue / installments as real);
    }
  }

  /** A line that does not resolve, after lines that all do, is the one
      reported. */
  lemma {:induction false} FirstUnresolvedAt(catalog: seq<Product>, items: seq<CartItem>, k: nat)
    requires k < |items| && !Resolves(catalog, items[k])
    requires AllResolved(catalog, items[..k])
    ensures FirstUnresolved(catalog, items) == Some(items[k].productId)
  {
    if k > 0 {
      assert items[..k][0] == items[0];
      assert items[1..][..k - 1] == items[..k][1..];
      FirstUnresolvedAt(catalog, items[1..], k - 1);
    }
  }
}
