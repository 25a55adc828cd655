# Shopping-cart pricing engine

A Dafny model of the pricing core of a small shop: the product catalog held
by `ProductRepository` and the cart calculation of `CartService`.

- `Products` models the in-memory catalog. `ProductRepository` is a class whose
  constant `products` field is set once by its constructor with the five fixed products
  (ids 1 to 5, prices 3499.99, 89.90, 299.99, 249.00 and 159.90).
  `GetAllProducts` hands the list back in load order. `FindProductById` scans
  it front to back and returns the first product with the id, or `None` where
  the source returns `null`. `Lookup` is the pure specification of that scan.
- `Cart` models `CartService`. A request is validated (empty cart, then the
  installment range 2..12 for `CREDIT_CARD_INSTALLMENTS` only). Then every line
  is priced in order, failing on the first product id the catalog does not
  hold. Then the payment method is dispatched: `PIX` and
  `CREDIT_CARD_FULL_PAYMENT` take 10% off. `CREDIT_CARD_INSTALLMENTS`
  compounds 1% per installment and splits the total evenly. Any other method
  is rejected. Each exception the source throws is a `CartError` value, and
  `Message` gives the text the source puts in it. `Priced` is the pure
  specification of a whole calculation. The `CartService` class holds the
  repository, and its methods `CalculateCart`, `CalculateSubtotal`,
  `ApplyDiscount` and `ApplyCompoundInterest` are proved against `Priced`,
  `Subtotal` and `Pow`.
- `CartProperties` proves what the engine promises over `Priced`: the order
  of the errors, the two pricing strategies, the echo of the request,
  non-negative amounts, monotonicity in quantity and the worked cases of the
  unit tests.
- `Decimal` renders integers in decimal, as PHP interpolation does in the
  exception messages. It also proves that rendering injective.
- `Wrappers` holds `Option` and `Result`.

Money is modelled as exact `real`. The source uses PHP floats (doubles), so
the model's amounts are the exact values that the float computations
approximate.

## Model

| member | source | states |
|---|---|---|
| Products.LoadProducts | backend/app/Repositories/ProductRepository.php:25-64 | the catalog holds exactly five products, the i-th with id i+1, all prices non-negative |
| Products.Lookup | backend/app/Repositories/ProductRepository.php:82-91 | a found product is in the list and has the id asked for; nothing is found exactly when no product has that id |
| Products.LookupFirst | backend/app/Repositories/ProductRepository.php:84-88 | when index k is the first one holding the id, the lookup returns the product at k (first match wins) |
| Products.LookupIsFirst | backend/app/Repositories/ProductRepository.php:84-88 | a successful lookup returns the product at the first index whose id matches |
| Products.CatalogLookup | backend/app/Repositories/ProductRepository.php:27-63 | in the loaded catalog an id is found exactly when it lies in 1..5, and then the product is the (id-1)-th loaded |
| Products.ProductRepository.constructor | backend/app/Repositories/ProductRepository.php:15-18 | a new repository holds the loaded catalog |
| Products.ProductRepository.GetAllProducts | backend/app/Repositories/ProductRepository.php:71-74 | returns the held catalog in load order and leaves it unchanged |
| Products.ProductRepository.FindProductById | backend/app/Repositories/ProductRepository.php:82-91 | the loop returns the first product with the id or none when no product has it, without changing the catalog |
| Decimal.NatToDecimalRoundTrip | backend/app/Services/CartService.php:98 | reading back the decimal rendering of a natural number gives that number |
| Decimal.IntToDecimalInjective | backend/app/Services/CartService.php:98 | two integers with the same decimal rendering are equal |
| Cart.Validate | backend/app/Services/CartService.php:65-82 | rejects an empty cart first; then rejects installments outside 2..12 for the installment method only; accepts everything else |
| Cart.FirstUnresolved | backend/app/Services/CartService.php:94-99 | none exactly when every line's product is in the catalog; otherwise the id of the first line whose product is missing |
| Cart.FirstUnresolvedAt | backend/app/Services/CartService.php:94-99 | when line k is missing and all earlier lines resolve, the reported id is line k's |
| Cart.Subtotal | backend/app/Services/CartService.php:90-105 | fails exactly when some line's product is missing, and then with a product-not-found error |
| Cart.CartService.constructor | backend/app/Services/CartService.php:22-25 | the service keeps the repository it is given |
| Cart.CartService.CalculateCart | backend/app/Services/CartService.php:27-57 | the result equals the specification `Priced` on the repository's catalog: validate, then subtotal, then dispatch on the method |
| Cart.CartService.CalculateSubtotal | backend/app/Services/CartService.php:90-105 | the loop's result equals `Subtotal`: the in-order sum of price times quantity, or the first missing product's error |
| Cart.CartService.ApplyDiscount | backend/app/Services/CartService.php:108-112 | the discount is a tenth of the subtotal, final plus discount equals the subtotal, and a non-negative subtotal gives a final value between 0 and the subtotal |
| Cart.CartService.ApplyCompoundInterest | backend/app/Services/CartService.php:115-126 | final is the subtotal times 1.01 to the n; interest is final minus subtotal; n installments of the installment value add up to final |
| CartProperties.CompoundAtLeastSimple | backend/app/Services/CartService.php:121 | compounding at a non-negative rate over n periods is at least 1 + n times the rate |
| CartProperties.LinesTotalAppend | backend/app/Services/CartService.php:94-102 | the subtotal of two carts laid end to end is the sum of their subtotals |
| CartProperties.LinesTotalSplit | backend/app/Services/CartService.php:94-102 | the subtotal is the lines before k, plus line k, plus the lines after k |
| CartProperties.LinesTotalReplaceLine | backend/app/Services/CartService.php:94-102 | replacing one line changes the subtotal by exactly the difference of the two line totals |
| CartProperties.LineTotalIncreasing | backend/app/Services/CartService.php:101 | a larger quantity of a product with a positive price gives a larger line total |
| CartProperties.LinesTotalNonNegative | backend/app/Services/CartService.php:92-104 | with non-negative prices and quantities the subtotal is non-negative |
| CartProperties.EmptyCartRejected | backend/app/Services/CartService.php:67-69 | the empty-cart error comes back exactly for an empty cart, whatever the method or installments |
| CartProperties.InstallmentRangeChecked | backend/app/Services/CartService.php:71-81 | for the installment method and a non-empty cart, the installments error comes back exactly when the count is outside 2..12 |
| CartProperties.OtherMethodsIgnoreInstallments | backend/app/Services/CartService.php:71 | for any other method, changing the installment count does not change the outcome beyond the echoed count |
| CartProperties.UnknownProductRejected | backend/app/Services/CartService.php:94-99 | once validation passes, the first line whose product is missing is reported by its id |
| CartProperties.InvalidMethodRejected | backend/app/Services/CartService.php:36-46 | an unknown method on a valid, fully resolvable cart is rejected, naming the method |
| CartProperties.PricedExactly | backend/app/Services/CartService.php:27-57 | a calculation succeeds exactly for non-empty, fully resolvable carts paid by one of the three methods, installments in range for the third |
| CartProperties.PricedEchoesRequest | backend/app/Services/CartService.php:48-56 | a result echoes the request's method and installment count, and its subtotal is the in-order sum of the lines |
| CartProperties.DiscountPricing | backend/app/Services/CartService.php:36-38 | for PIX and full card payment: discount is a tenth of the subtotal, final is subtotal minus discount, no interest and no installment value |
| CartProperties.InstallmentPricing | backend/app/Services/CartService.php:39-44 | for installments: final is the subtotal times 1.01 to the n, interest is final minus subtotal, installment value is final over n, no discount |
| CartProperties.AmountsNonNegative | backend/app/Services/CartService.php:27-57 | with non-negative prices and quantities every amount is non-negative and a discounted final never exceeds the subtotal |
| CartProperties.DispatchAmounts | backend/app/Services/CartService.php:36-46 | the amounts of either strategy on a non-negative subtotal are non-negative, the discounted final at most the subtotal |
| CartProperties.CompoundedNotBelow | backend/app/Services/CartService.php:121-123 | compounding never lowers a non-negative subtotal, and each installment is non-negative |
| CartProperties.PricedSucceeds | backend/app/Services/CartService.php:29-31 | a successful calculation passed validation and resolved every line |
| CartProperties.PricedDispatches | backend/app/Services/CartService.php:29-46 | once validation passes and every line resolves, the outcome is the method's strategy applied to the subtotal |
| CartProperties.DispatchIncreasing | backend/app/Services/CartService.php:36-46 | a larger subtotal gives a larger final value under either strategy |
| CartProperties.MoreQuantityCostsMore | backend/app/Services/CartService.php:94-102 | raising one line's quantity of a positively priced product keeps the cart priced and strictly raises subtotal and final value |
| CartProperties.MessagesAsInSource | backend/app/Services/CartService.php:45-98 | the four exception messages read as the source formats them, e.g. "Installments must be between 2 and 12" |
| CartProperties.InstallmentsMessage | backend/app/Services/CartService.php:73-79 | the installments message is "Installments must be between 2 and 12" |
| CartProperties.MissingProductMessage | backend/app/Services/CartService.php:98 | the missing-product message for id 999 is "Product with ID 999 not found" |
| CartProperties.ProductNotFoundMessagesDiffer | backend/app/Services/CartService.php:98 | different missing ids give different messages |
| CartProperties.PixScenario | backend/tests/Unit/CartServiceTest.php:29-57 | PIX on 100.00 gives subtotal 100, discount 10, no interest, final 90 |
| CartProperties.FullPaymentScenario | backend/tests/Unit/CartServiceTest.php:62-88 | full card payment on 200.00 gives discount 20 and final 180 |
| CartProperties.MultipleItemsScenario | backend/tests/Unit/CartServiceTest.php:166-204 | 2 x 100.00 plus 1 x 200.00 by PIX gives 400, 40 and 360 |
| CartProperties.TwoInstallmentsScenario | backend/tests/Unit/CartServiceTest.php:133-161 | 500.00 in 2 installments gives 510.05, of which 10.05 interest, 255.025 each |
| CartProperties.TwelveInstallmentsScenario | backend/tests/Unit/CartServiceTest.php:94-128 | 1000.00 in 12 installments gives subtotal 1000, no discount, interest within a cent of 126.83, final 1000 x 1.01^12 within a cent of 1126.83, about 93.90 each, and echoes the count 12 |
| CartProperties.SixInstallmentsScenario | backend/tests/Unit/CartServiceTest.php:334-371 | 1000.00 in 6 installments gives exactly 1000 x 1.01^6 = 1061.520150601 |
| CartProperties.ErrorScenarios | backend/tests/Unit/CartServiceTest.php:209-329 | empty cart, 1 and 13 installments, product 999 and an invalid method give the expected errors |

## Left out

- HTTP controllers, routes, the framework's request validation, the service
  provider wiring and the frontend are not part of this model. In particular
  the request-level rules (quantity at least 1, a known payment method string)
  are enforced before the service is called, and the service itself checks
  neither, so the model accepts any integer quantity just as the service does.
- DTO classes become datatypes. They are immutable value carriers, so no
  aliasing is lost. The `ProductRepositoryInterface` indirection is dropped:
  the service holds the concrete repository.
- Floating point: amounts are exact reals. PHP's double rounding (for example
  `pow(1.01, 12)` and the 10% product) is not modelled.
- Exceptions become `Failure` values of `CartError`. Their texts are given by
  `Message`.
- By-reference parameters (`&$discount`, `&$interest`, `&$installmentValue`)
  become out-parameters. The initial `0.0`/`null` values of the source become
  the values the result carries on the branch that does not set them.
- Cart.CartService.ApplyCompoundInterest: requires at least one installment,
  because the source divides by the count; validation guarantees 2..12
  before it is reached.
- CartProperties.AmountsNonNegative: states only that interest is non-negative,
  not that it is at least 1% of the subtotal per installment. That lower bound
  is proved on the factor itself (`CompoundAtLeastSimple`).
