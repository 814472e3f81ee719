# Portfolio service: a Dafny model

This project models the core of the portfolio micro-service of a stock-trading
sample application. The core has two parts.

- `PortfolioService` builds a user's portfolio from the order history, in
  three steps:
  - It folds the orders into one holding per symbol, creating each holding
    the first time its symbol is seen.
  - It fetches quotes for the new symbols in one batched call.
  - It writes each quote's last price into its holding and refreshes the
    total value.
- `PortfolioService` also settles a new order:
  - It fills in a missing fee with the default.
  - It turns the order into a debit or credit transaction.
  - It posts that transaction to the accounts service.
  - It persists the order only when the accounts service answers OK.
- `QuoteRemoteCallService` shapes the requests to the quote service:
  - the single-quote URL;
  - the batch URL, whose query is the comma-joined symbol list built by a
    `StringBuilder` loop;
  - the sentinel `FAILED` quote returned by the circuit breaker's fallback.

The model keeps the source's imperative form.

- `Portfolio`, `Holding` and `Order` are classes whose fields the methods
  update in place.
- The two loops of `createPortfolio` and the builder loop of
  `getMultipleQuotes` are `while` loops with invariants.
- Each method is proved against a pure reference definition:
  - `GroupSpec`/`FileSpec` for the order fold;
  - `Priced`/`ValueAfter` for the quote loop;
  - `Join` for the builder loop;
  - `TransactionFor` for the order-to-transaction step.
- The properties the code promises are then proved about those definitions
  as lemmas. Examples:
  - one holding per distinct symbol;
  - its currency is the first order's;
  - its orders are exactly the orders naming it, in input order;
  - every order lands in exactly one holding;
  - the last quote for a symbol wins;
  - splitting the joined symbol list gives the symbols back;
  - the fee is always charged to the account.

The files:

- `domain.dfy` (module `Domain`): the entities.
  - `Order` holds the fee, which is its only mutable field.
  - `Holding` holds its orders and current value.
  - `Portfolio` is the holding map plus the total.
  - `Quote` and `Transaction` are values.
  - `Portfolio.View()` is the observable state of the holdings as a pure map.
- `grouping.dfy` (module `Grouping`): the reference definitions of the
  order fold and of the quote loop, and the lemmas about them.
- `portfolio_service.dfy` (module `Service`): the order repository and the
  transaction synthesis. It also holds the `PortfolioService` class with
  `GetPortfolio`, `CreatePortfolio` (with the steps it is split into) and
  `AddOrder`.
- `quote_remote_call.dfy` (module `QuoteRemoteCall`) contains:
  - `Join`/`Split`;
  - the URLs;
  - the fallback quote;
  - the `QuoteRemoteCallService` class with `GetQuote` and
    `GetMultipleQuotes`.

The collaborators the code calls but does not define are parameters of the
methods that use them:

| parameter | stands for | used by |
|---|---|---|
| `quoteSource` | the batched quote call | `CreatePortfolio`, `GetPortfolio` |
| `remote` | the quote service's answer to a GET | `GetQuote`, `GetMultipleQuotes` |
| `ledger` | the accounts service's status code for the POST | `AddOrder` |
| `describe` | `Order.toString()` | `AddOrder` |
| `valuation` | the formula of `Portfolio.refreshTotalValue()` | `CreatePortfolio`, `GetPortfolio` |

The domain classes `Order`, `Holding`, `Portfolio`, `Quote` and `Transaction`
are not part of this model. Their members are modelled from how the two core
files use them.

How the code's behaviour is rendered:

- Amounts are exact integers in minor currency units.
- A Java `null` is `None`.
- The `NullPointerException` of `createPortfolio` is an explicit outcome.
  It happens when a quote names a symbol that has no holding, hence no
  refresh of the total. The outcome is `Completion.NullHolding(symbol)`.

Where the service's specification and the code disagree, the model follows
the code:

- **FAILED quotes.** The specification says a FAILED or missing quote leaves
  the holding's current value unset. The code writes `quote.getLastPrice()`
  whatever the status. So a quote without a price resets the value to none,
  and a FAILED quote that carries a price is used.
- **Missing holding.** The specification says quote handling never crashes.
  The code dereferences a missing holding, modelled as `NullHolding`.
- **Failed settlement.** The specification asks for an explicit error when the
  ledger answers anything but OK. The code returns `null`, which is `None`
  here. In both cases the order is not persisted.
- **Validation.** The specification asks for orders to be validated before the
  remote call. The code does no validation, so no precondition on quantity or
  price is imposed.
- **Existing holdings.** `createPortfolio` requests quotes only for symbols
  whose holding it created. Holdings the portfolio already had are not
  re-priced. This is visible only when it is given a non-empty portfolio.

## Model

| member | source | states |
|---|---|---|
| Domain.Order.SetOrderFee | src/main/java/io/pivotal/portfolio/service/PortfolioService.java:143-146 | the fee becomes the given value |
| Domain.Holding.constructor | src/main/java/io/pivotal/portfolio/service/PortfolioService.java:94-96 | a new holding has the order's symbol and currency, no orders and no current value |
| Domain.Holding.AddOrder | src/main/java/io/pivotal/portfolio/service/PortfolioService.java:100 | the order is appended at the end of the holding's orders; the value is unchanged |
| Domain.Holding.SetCurrentValue | src/main/java/io/pivotal/portfolio/service/PortfolioService.java:109 | the value becomes the quote's price; the orders are unchanged |
| Domain.Portfolio.GetHolding | src/main/java/io/pivotal/portfolio/service/PortfolioService.java:92 | there is a result exactly when the symbol has a holding, and it is that holding |
| Domain.Portfolio.AddHolding | src/main/java/io/pivotal/portfolio/service/PortfolioService.java:97 | the holding is filed under its own symbol and the key-to-symbol invariant is kept |
| Domain.Portfolio.RefreshTotalValue | src/main/java/io/pivotal/portfolio/service/PortfolioService.java:111 | the total becomes the valuation of the current holdings |
| Grouping.Symbols | src/main/java/io/pivotal/portfolio/service/PortfolioService.java:89-106 | the set of symbols is empty exactly when there are no orders, so the batched quote call is made exactly when there are orders |
| Grouping.FirstWith | src/main/java/io/pivotal/portfolio/service/PortfolioService.java:92-97 | the first order naming a symbol is one of the orders and carries that symbol |
| Grouping.SymbolsMembership | src/main/java/io/pivotal/portfolio/service/PortfolioService.java:91-98 | a symbol is collected exactly when some order carries it |
| Grouping.SymbolsAppend | src/main/java/io/pivotal/portfolio/service/PortfolioService.java:91-98 | the symbols of two order lists together are the union of their symbols |
| Grouping.OrdersForAppend | src/main/java/io/pivotal/portfolio/service/PortfolioService.java:100 | later orders are appended after earlier ones in a holding's order list |
| Grouping.OrdersForSound | src/main/java/io/pivotal/portfolio/service/PortfolioService.java:91-100 | a holding's orders are input orders carrying its symbol, and there are some exactly when the symbol occurs |
| Grouping.OrdersPartition | src/main/java/io/pivotal/portfolio/service/PortfolioService.java:91-101 | summed over the distinct symbols, the holdings' order lists hold exactly as many orders as the input: every order lands in exactly one holding |
| Grouping.FirstWithAppend | src/main/java/io/pivotal/portfolio/service/PortfolioService.java:93-97 | once a symbol has occurred, later orders never change which order fixed its holding's currency |
| Grouping.FirstWithIsFirst | src/main/java/io/pivotal/portfolio/service/PortfolioService.java:93-97 | the creating order is at the first position that carries the symbol |
| Grouping.WithHolding | src/main/java/io/pivotal/portfolio/service/PortfolioService.java:92-99 | after the lookup or creation there is a holding for the order's symbol |
| Grouping.FiledStepKept | src/main/java/io/pivotal/portfolio/service/PortfolioService.java:92-100 | filing an order leaves the holdings of other symbols well shaped for the longer order list |
| Grouping.FiledStepGrown | src/main/java/io/pivotal/portfolio/service/PortfolioService.java:100 | filing an order into its existing holding keeps the holding's currency and value and extends its orders by exactly that order |
| Grouping.FiledStepCreated | src/main/java/io/pivotal/portfolio/service/PortfolioService.java:93-100 | filing an order under a new symbol creates a holding with that order's currency, no value and that one order |
| Grouping.FiledStep | src/main/java/io/pivotal/portfolio/service/PortfolioService.java:91-101 | one round of the fold keeps every holding shaped as `Filed` says |
| Grouping.GroupSpecSnoc | src/main/java/io/pivotal/portfolio/service/PortfolioService.java:91-101 | filing one more order is one more step of the fold and adds its symbol |
| Grouping.GroupSpecShape | src/main/java/io/pivotal/portfolio/service/PortfolioService.java:91-101 | the fold yields one holding per symbol seen before or in the orders and no other. Existing holdings keep currency and value. New ones take the first order's currency and no value. Every holding gains exactly the orders naming it, in input order |
| Grouping.ValueAfterUntouched | src/main/java/io/pivotal/portfolio/service/PortfolioService.java:108-110 | a holding no quote names keeps its value |
| Grouping.ValueAfterLast | src/main/java/io/pivotal/portfolio/service/PortfolioService.java:108-110 | a holding named by several quotes ends with the last one's price |
| Grouping.PricedSnoc | src/main/java/io/pivotal/portfolio/service/PortfolioService.java:109 | writing one quote changes the value of its symbol's holding and nothing else |
| Grouping.FirstUnknown | src/main/java/io/pivotal/portfolio/service/PortfolioService.java:108-109 | the position of the first quote whose symbol has no holding: all quotes before it have one, and it has none |
| Grouping.BuiltFromOrders | src/main/java/io/pivotal/portfolio/service/PortfolioService.java:65-74 | a portfolio built from nothing has a holding for a symbol exactly when an order names it. The holding takes the first such order's currency, all the orders naming it in input order, and the last quote's price or none |
| QuoteRemoteCall.JoinEdgeCases | src/main/java/io/pivotal/portfolio/service/QuoteRemoteCallService.java:110-116 | no symbols give the empty string; one symbol gives itself, with no comma |
| QuoteRemoteCall.JoinSnoc | src/main/java/io/pivotal/portfolio/service/QuoteRemoteCallService.java:111-116 | appending a symbol appends a comma and the symbol |
| QuoteRemoteCall.JoinLength | src/main/java/io/pivotal/portfolio/service/QuoteRemoteCallService.java:111-116 | n >= 1 symbols join to their total length plus n - 1 |
| QuoteRemoteCall.JoinSeparatorCount | src/main/java/io/pivotal/portfolio/service/QuoteRemoteCallService.java:111-116 | with no comma inside a symbol, the joined string of n >= 1 symbols has exactly n - 1 commas, so none leads or trails |
| QuoteRemoteCall.SplitJoin | src/main/java/io/pivotal/portfolio/service/QuoteRemoteCallService.java:110-117 | splitting the joined list on commas gives back the symbols in order |
| QuoteRemoteCall.FallbackQuoteFields | src/main/java/io/pivotal/portfolio/service/QuoteRemoteCallService.java:72-81 | the fallback quote names the requested symbol, has status FAILED and carries no price |
| QuoteRemoteCall.QuoteRemoteCallService.QuoteUrlShape | src/main/java/io/pivotal/portfolio/service/QuoteRemoteCallService.java:57 | the single-quote URL is `//`, the service name, `/quote/` and the symbol |
| QuoteRemoteCall.QuoteRemoteCallService.QuoteUrlInjective | src/main/java/io/pivotal/portfolio/service/QuoteRemoteCallService.java:57 | distinct symbols are fetched from distinct URLs |
| QuoteRemoteCall.QuoteRemoteCallService.MultipleQuotesUrlRoundTrip | src/main/java/io/pivotal/portfolio/service/QuoteRemoteCallService.java:94 | the batch URL is `//`, the service name and `/v1/quotes?q=`, and its query splits back into the symbols |
| QuoteRemoteCall.QuoteRemoteCallService.GetQuote | src/main/java/io/pivotal/portfolio/service/QuoteRemoteCallService.java:51-81 | asks the single-quote URL. Returns the service's quote when the call succeeds, otherwise the FAILED fallback for the symbol with no price |
| QuoteRemoteCall.QuoteRemoteCallService.GetMultipleQuotes | src/main/java/io/pivotal/portfolio/service/QuoteRemoteCallService.java:108-118 | the builder loop produces `Join` of the symbols, commas between and none at either end. One GET goes to the batch URL with that query, and its answer is returned |
| Service.TransactionFor | src/main/java/io/pivotal/portfolio/service/PortfolioService.java:149-173 | a buy is a debit of quantity × price + fee, a sell a credit of quantity × price − fee. Account, currency, date and description are copied from the order |
| Service.FeeIsCharged | src/main/java/io/pivotal/portfolio/service/PortfolioService.java:149-173 | whichever the direction, the account's cash flow is the trade's value less the fee |
| Service.SettlementExample | src/main/java/io/pivotal/portfolio/service/PortfolioService.java:149-173 | 10 units at 100.00 with a 9.99 fee: a debit of 1009.99 for a buy, a credit of 990.01 for a sell |
| Service.OrderRepository.Save | src/main/java/io/pivotal/portfolio/service/PortfolioService.java:189 | the order is appended to the persisted orders and returned |
| Service.PortfolioService.GroupOrders | src/main/java/io/pivotal/portfolio/service/PortfolioService.java:89-101 | the loop leaves the holdings equal to the fold `GroupSpec` of the old ones. It adds exactly the orders' symbols as keys and returns exactly the newly created symbols. Existing holding objects are kept; new ones are fresh |
| Service.PortfolioService.GroupStep | src/main/java/io/pivotal/portfolio/service/PortfolioService.java:91-101 | one round of the loop moves the holdings, keys and created symbols one order further along the fold |
| Service.PortfolioService.FileOrder | src/main/java/io/pivotal/portfolio/service/PortfolioService.java:92-100 | the holdings become `FileSpec` of the old ones. A holding is created exactly when the symbol had none, and other holding objects are kept |
| Service.PortfolioService.HoldingFor | src/main/java/io/pivotal/portfolio/service/PortfolioService.java:92-99 | returns the existing holding for the symbol, or a fresh one with the order's symbol and currency added to the portfolio |
| Service.PortfolioService.AppendTo | src/main/java/io/pivotal/portfolio/service/PortfolioService.java:100 | appending the order changes that one holding's order list and nothing else in the portfolio |
| Service.PortfolioService.ApplyQuotes | src/main/java/io/pivotal/portfolio/service/PortfolioService.java:108-110 | the quotes are written in order up to the first one without a holding, and the holdings become `Priced` by them. The outcome is `NullHolding` of that quote's symbol, or `Completed` when every quote found its holding |
| Service.PortfolioService.SetValueIn | src/main/java/io/pivotal/portfolio/service/PortfolioService.java:109 | setting the value changes that one holding's value and nothing else in the portfolio |
| Service.PortfolioService.PriceAndTotal | src/main/java/io/pivotal/portfolio/service/PortfolioService.java:108-111 | quotes are applied as `ApplyQuotes` says; the total is refreshed when every quote found its holding and is otherwise unchanged |
| Service.PortfolioService.CreatePortfolio | src/main/java/io/pivotal/portfolio/service/PortfolioService.java:86-114 | the holdings become the fold of the orders, priced by the quotes for the created symbols. The quote call is made exactly when some holding was created, and the outcome and total are as in `PriceAndTotal` |
| Service.PortfolioService.GetPortfolio | src/main/java/io/pivotal/portfolio/service/PortfolioService.java:65-74 | the fresh portfolio has one fresh holding per distinct symbol, each with the first order's currency and exactly its orders in input order. Prices come from one batched call, made exactly when there are orders, with the last quote per symbol winning. The total is refreshed on completion |
| Service.PortfolioService.AddOrder | src/main/java/io/pivotal/portfolio/service/PortfolioService.java:141-197 | a missing fee becomes the default and an existing fee is kept. The request is `TransactionFor` the order, posted to `//<accounts>/accounts/transaction` with a bearer token. On OK the order is persisted and returned; otherwise nothing is persisted and the result is none |

## Left out

- Network I/O: the `WebClient` calls, `block()` and the parsing of response bodies. The services' answers are parameters (`remote`, `quoteSource`, `ledger`).
- The Hystrix circuit breaker's states and thresholds. Only its effect is modelled: `GetQuote` returns the fallback quote whenever the remote answer is missing.
- Logging, tracing annotations, Spring configuration, security, and the `@Transactional` rollback behaviour of `addOrder`.
- The domain classes `Order`, `Holding`, `Portfolio`, `Quote` and `Transaction` are not part of this model. `Order.DEFAULT_ORDER_FEE` is a constant of unknown value. `Order.toString()` is the `describe` parameter. The formula of `Portfolio.refreshTotalValue()` is the `valuation` parameter.
- Floating point: `addOrder` computes the amount in `double` before `BigDecimal.valueOf`. The model uses exact integer arithmetic in minor units, so rounding is not modelled.
- The iteration order of the `HashSet` of symbols. `CreatePortfolio` passes the set to `quoteSource`. `GetMultipleQuotes` takes the symbols as a sequence in whatever order the set yields them.
- A `null` body from the batched quote call, and exceptions it raises. These would propagate out of `createPortfolio`; the model's quote answer is always a sequence.
- `null` fields of an order, such as a missing symbol or order type. The model's fields are always present, and `OrderType` has exactly the two cases the code tests.
- The repository's query (the user filter and ordering by completion date). Its result is the `orders` input of `GetPortfolio`.
- Id assignment by the JPA `save`. `OrderRepository.Save` returns the same order and records it.
- `Service.PortfolioService.CreatePortfolio`: after a `NullHolding` outcome the Java method has thrown, so the partially priced portfolio is never returned to a caller. The model states the state it leaves anyway.
