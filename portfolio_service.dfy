/** The portfolio service: building a portfolio from the order history and a
    batch of quotes, and settling a new order against the ledger before
    persisting it. */
module Service {
  import opened Domain
  import opened Grouping

  /** The HTTP status the ledger answers with when the transaction was booked. */
  const HttpOk := 200
  const TransactionPath := "/accounts/transaction"

  /** The POST sent to the accounts service. */
  datatype LedgerRequest = LedgerRequest(url: string, authorization: string, body: Transaction)

  /** How building a portfolio ends: normally, or at a quote whose symbol has
      no holding (where the Java code dereferences null). */
  datatype Completion = Completed | NullHolding(symbol: string)

  function FeeOrDefault(fee: Option<int>): int
  {
    if fee.Some? then fee.value else DefaultOrderFee
  }

  function Gross(d: OrderData): int
  {
    d.quantity * d.price
  }

  /** The transaction an order with a fee settles as. */
  function TransactionFor(d: OrderData, description: string): (t: Transaction)
    requires d.orderFee.Some?
    ensures d.orderType == Buy ==> t.transactionType == Debit && t.amount == Gross(d) + d.orderFee.value
    ensures d.orderType == Sell ==> t.transactionType == Credit && t.amount == Gross(d) - d.orderFee.value
    ensures t.accountId == d.accountId && t.currency == d.currency && t.date == d.completionDate
    ensures t.description == description
  {
    match d.orderType
    case Buy =>
      Transaction(d.accountId, Gross(d) + d.orderFee.value, d.currency, d.completionDate,
                  description, Debit)
    case Sell =>
      Transaction(d.accountId, Gross(d) - d.orderFee.value, d.currency, d.completionDate,
                  description, Credit)
  }

  /** The change a transaction makes to the account's funds. */
  function CashFlow(t: Transaction): int
  {
    if t.transactionType == Debit then -t.amount else t.amount
  }

  /** Whichever the direction, the account pays the fee: a buy takes the cost
      plus the fee out of the account, a sell pays in the proceeds less the fee. */
  lemma FeeIsCharged(d: OrderData, description: string)
    requires d.orderFee.Some?
    ensures CashFlow(TransactionFor(d, description))
            == (if d.orderType == Buy then -Gross(d) else Gross(d)) - d.orderFee.value
  {
  }

  /** 10 units at 100.00 with a fee of 9.99: a debit of 1009.99 for a buy and a
      credit of 990.01 for a sell (amounts in cents). */
  lemma SettlementExample(accountId: string, currency: string, date: int, description: string)
    ensures var buy := OrderData("u", accountId, "AAPL", currency, Buy, 10, 10000, Some(999), date);
            TransactionFor(buy, description).transactionType == Debit
            && TransactionFor(buy, description).amount == 100999
    ensures var sell := OrderData("u", accountId, "AAPL", currency, Sell, 10, 10000, Some(999), date);
            TransactionFor(sell, description).transactionType == Credit
            && TransactionFor(sell, description).amount == 99001
  {
  }

  /** The order store: persisting an order is recorded as appending it. */
  class OrderRepository {
    var persisted: seq<Order>

    constructor ()
      ensures persisted == []
    {
      persisted := [];
    }

    method Save(order: Order) returns (saved: Order)
      modifies this
      ensures persisted == old(persisted) + [order]
      ensures saved == order
    {
      persisted := persisted + [order];
      saved := order;
    }
  }

  /** The holding map `now` keeps every holding object of `before` under its
      key. */
  ghost predicate Extends(now: map<string, Holding>, before: map<string, Holding>)
  {
    forall s :: s in before ==> s in now && now[s] == before[s]
  }

  /** Filing one more symbol `x` into holdings keyed by `known + seen`
      creates a holding exactly when `x` is new, so the created symbols stay
      `seen - known`. */
  lemma CreatedSymbolsStep(known: set<string>, seen: set<string>, created: set<string>, x: string)
    requires created == seen - known
    ensures x in known + seen ==> created == (seen + {x}) - known
    ensures x !in known + seen ==> created + {x} == (seen + {x}) - known
    ensures (known + seen) + {x} == known + (seen + {x})
  {
  }

  class PortfolioService {
    const accountsService: string
    const repository: OrderRepository

    constructor (accountsService: string, repository: OrderRepository)
      ensures this.accountsService == accountsService && this.repository == repository
    {
      this.accountsService := accountsService;
      this.repository := repository;
    }

    /** The ledger request that settles `transaction` for the caller holding
        `bearerToken`. */
    function LedgerRequestFor(transaction: Transaction, bearerToken: string): LedgerRequest
    {
      LedgerRequest("//" + accountsService + TransactionPath, "Bearer " + bearerToken, transaction)
    }

    /** Folds the orders into the portfolio's holdings, left to right, as
        `GroupSpec` does: in place, keeping the existing holding objects.
        Returns the symbols of the holdings it created. */
    method GroupOrders(portfolio: Portfolio, orders: seq<Order>) returns (symbols: set<string>)
      requires portfolio.Valid()
      modifies portfolio`holdings, portfolio.holdings.Values
      ensures portfolio.Valid()
      ensures portfolio.View() == GroupSpec(old(portfolio.View()), orders)
      ensures portfolio.holdings.Keys == old(portfolio.holdings.Keys) + Symbols(orders)
      ensures symbols == Symbols(orders) - old(portfolio.holdings.Keys)
      ensures Extends(portfolio.holdings, old(portfolio.holdings))
      ensures forall s :: s in portfolio.holdings && s !in old(portfolio.holdings) ==>
                fresh(portfolio.holdings[s])
    {
      ghost var start := portfolio.View();
      ghost var startHoldings := portfolio.holdings;
      ghost var done: seq<Order> := [];
      symbols := {};
      var i := 0;
      while i < |orders|
        invariant 0 <= i <= |orders| && done == orders[..i]
        invariant portfolio.Valid()
        invariant portfolio.View() == GroupSpec(start, done)
        invariant portfolio.holdings.Keys == startHoldings.Keys + Symbols(done)
        invariant symbols == Symbols(done) - startHoldings.Keys
        invariant Extends(portfolio.holdings, startHoldings)
        invariant forall s :: s in portfolio.holdings && s !in startHoldings ==>
                    fresh(portfolio.holdings[s])
      {
        var order := orders[i];
        symbols := GroupStep(portfolio, order, start, startHoldings.Keys, done, symbols);
        PrefixSnoc(orders, i);
        done := done + [order];
        i := i + 1;
      }
      PrefixWhole(orders);
    }

    /** One round of the grouping loop: files `order` and adds its symbol to
        the created ones when its holding had to be created. The filed prefix
        `done`, the starting `view` and its `known` symbols are ghost. */
    method GroupStep(portfolio: Portfolio, order: Order, ghost view: map<string, HoldingView>,
                     ghost known: set<string>, ghost done: seq<Order>, symbols: set<string>)
      returns (symbols': set<string>)
      requires portfolio.Valid()
      requires portfolio.View() == GroupSpec(view, done)
      requires portfolio.holdings.Keys == known + Symbols(done)
      requires symbols == Symbols(done) - known
      modifies portfolio`holdings, portfolio.holdings.Values
      ensures portfolio.Valid()
      ensures portfolio.View() == GroupSpec(view, done + [order])
      ensures portfolio.holdings.Keys == known + Symbols(done + [order])
      ensures symbols' == Symbols(done + [order]) - known
      ensures Extends(portfolio.holdings, old(portfolio.holdings))
      ensures forall s :: s in portfolio.holdings && s !in old(portfolio.holdings) ==>
                fresh(portfolio.holdings[s])
    {
      GroupSpecSnoc(view, done, order);
      CreatedSymbolsStep(known, Symbols(done), symbols, order.symbol);
      var created := FileOrder(portfolio, order);
      symbols' := symbols;
      if created {
        symbols' := symbols + {order.symbol};
      }
    }

    /** Files one order as `FileSpec` does: looks up the holding for its
        symbol, creating it with the order's symbol and currency when there is
        none, and appends the order to it. Tells whether it created one. */
    method FileOrder(portfolio: Portfolio, order: Order) returns (created: bool)
      requires portfolio.Valid()
      modifies portfolio`holdings, portfolio.holdings.Values
      ensures portfolio.Valid()
      ensures created == (order.symbol !in old(portfolio.holdings))
      ensures portfolio.View() == FileSpec(old(portfolio.View()), order)
      ensures portfolio.holdings.Keys == old(portfolio.holdings.Keys) + {order.symbol}
      ensures Extends(portfolio.holdings, old(portfolio.holdings))
      ensures created ==> fresh(portfolio.holdings[order.symbol])
    {
      var holding;
      holding, created := HoldingFor(portfolio, order);
      AppendTo(portfolio, holding, order);
    }

    /** Appends the order to a holding of the portfolio; the rest of the
        portfolio is untouched. */
    method AppendTo(portfolio: Portfolio, holding: Holding, order: Order)
      requires portfolio.Valid()
      requires holding.symbol in portfolio.holdings && portfolio.holdings[holding.symbol] == holding
      modifies holding
      ensures portfolio.View()
              == old(portfolio.View())[holding.symbol := old(portfolio.View())[holding.symbol].(orders := old(holding.orders) + [order])]
    {
      ghost var before := portfolio.View();
      holding.AddOrder(order);
      forall s | s in portfolio.holdings && s != holding.symbol
        ensures portfolio.View()[s] == before[s]
      {
        assert portfolio.holdings[s] != holding;
      }
    }

    /** The holding for the order's symbol, created with the order's symbol
        and currency and added to the portfolio when there is none. */
    method HoldingFor(portfolio: Portfolio, order: Order) returns (holding: Holding, created: bool)
      requires portfolio.Valid()
      modifies portfolio`holdings
      ensures portfolio.Valid()
      ensures created == (order.symbol !in old(portfolio.holdings))
      ensures portfolio.holdings == old(portfolio.holdings)[order.symbol := holding]
      ensures !created ==> holding == old(portfolio.holdings[order.symbol])
      ensures created ==> fresh(holding)
      ensures portfolio.View() == WithHolding(old(portfolio.View()), order)
    {
      var found := portfolio.GetHolding(order.symbol);
      if found.None? {
        holding := new Holding(order.symbol, order.currency);
        portfolio.AddHolding(holding);
      } else {
        holding := found.value;
      }
      created := found.None?;
    }

    /** Writes each quote's price into the holding for its symbol, in order,
        as `Priced` does. Stops at the first quote whose symbol has no holding,
        leaving the prices written so far in place. */
    method ApplyQuotes(portfolio: Portfolio, quotes: seq<Quote>) returns (outcome: Completion)
      requires portfolio.Valid()
      modifies portfolio.holdings.Values
      ensures var k := FirstUnknown(quotes, portfolio.holdings.Keys);
              && outcome == (if k == |quotes| then Completed else NullHolding(quotes[k].symbol))
              && portfolio.View() == Priced(old(portfolio.View()), quotes[..k])
    {
      ghost var before := portfolio.View();
      ghost var done: seq<Quote> := [];
      var j := 0;
      while j < |quotes|
        invariant 0 <= j <= |quotes| && done == quotes[..j]
        invariant forall k :: 0 <= k < j ==> quotes[k].symbol in portfolio.holdings
        invariant portfolio.View() == Priced(before, done)
      {
        var quote := quotes[j];
        var found := portfolio.GetHolding(quote.symbol);
        if found.None? {
          outcome := NullHolding(quote.symbol);
          return;
        }
        PricedSnoc(before, done, quote);
        SetValueIn(portfolio, found.value, quote.lastPrice);
        PrefixSnoc(quotes, j);
        done := done + [quote];
        j := j + 1;
      }
      outcome := Completed;
    }

    /** Sets the current value of a holding of the portfolio; the rest of
        the portfolio is untouched. */
    method SetValueIn(portfolio: Portfolio, holding: Holding, value: Option<int>)
      requires portfolio.Valid()
      requires holding.symbol in portfolio.holdings && portfolio.holdings[holding.symbol] == holding
      modifies holding
      ensures portfolio.View()
              == old(portfolio.View())[holding.symbol := old(portfolio.View())[holding.symbol].(currentValue := value)]
    {
      ghost var before := portfolio.View();
      holding.SetCurrentValue(value);
      forall s | s in portfolio.holdings && s != holding.symbol
        ensures portfolio.View()[s] == before[s]
      {
        assert portfolio.holdings[s] != holding;
      }
    }

    /** Builds the portfolio from the order history: the orders are folded
        into the holdings as `GroupSpec` does, one batched quote call,
        `quoteSource`, is made for the symbols of the holdings created and only
        when there are any, the quotes are written in as `Priced` does, and the
        total is refreshed at the end. */
    method CreatePortfolio(portfolio: Portfolio, orders: seq<Order>,
                           quoteSource: set<string> -> seq<Quote>,
                           valuation: map<string, HoldingView> -> int)
      returns (requested: Option<set<string>>, outcome: Completion)
      requires portfolio.Valid()
      modifies portfolio, portfolio.holdings.Values
      ensures portfolio.Valid()
      ensures portfolio.holdings.Keys == old(portfolio.holdings.Keys) + Symbols(orders)
      ensures requested
              == (var created := Symbols(orders) - old(portfolio.holdings.Keys);
                  if created == {} then None else Some(created))
      ensures Extends(portfolio.holdings, old(portfolio.holdings))
      ensures forall s :: s in portfolio.holdings && s !in old(portfolio.holdings) ==>
                fresh(portfolio.holdings[s])
      ensures var quotes := if requested.Some? then quoteSource(requested.value) else [];
              var k := FirstUnknown(quotes, portfolio.holdings.Keys);
              && outcome == (if k == |quotes| then Completed else NullHolding(quotes[k].symbol))
              && portfolio.View() == Priced(GroupSpec(old(portfolio.View()), orders), quotes[..k])
      ensures portfolio.totalValue
              == if outcome.Completed? then valuation(portfolio.View()) else old(portfolio.totalValue)
    {
      var symbols := GroupOrders(portfolio, orders);
      ghost var grouped := portfolio.View();
      ghost var keys := portfolio.holdings.Keys;
      var quotes := [];
      requested := None;
      if |symbols| > 0 {
        requested := Some(symbols);
        quotes := quoteSource(symbols);
      }
      outcome := PriceAndTotal(portfolio, quotes, valuation);
      assert portfolio.holdings.Keys == keys;
      assert portfolio.View() == Priced(grouped, quotes[..FirstUnknown(quotes, keys)]);
    }

    /** Applies the batch of quotes and, when every quote found its holding,
        recomputes the total value. */
    method PriceAndTotal(portfolio: Portfolio, quotes: seq<Quote>,
                         valuation: map<string, HoldingView> -> int)
      returns (outcome: Completion)
      requires portfolio.Valid()
      modifies portfolio`totalValue, portfolio.holdings.Values
      ensures var k := FirstUnknown(quotes, portfolio.holdings.Keys);
              && outcome == (if k == |quotes| then Completed else NullHolding(quotes[k].symbol))
              && portfolio.View() == Priced(old(portfolio.View()), quotes[..k])
      ensures portfolio.totalValue
              == if outcome.Completed? then valuation(portfolio.View()) else old(portfolio.totalValue)
    {
      outcome := ApplyQuotes(portfolio, quotes);
      ghost var priced := portfolio.View();
      if outcome.Completed? {
        portfolio.RefreshTotalValue(valuation);
      }
      assert portfolio.View() == priced;
    }

    /** Reads the portfolio of the caller, whose order history the order store
        answers with `orders`: one holding per distinct symbol and no other,
        each with the currency of the first order naming it and all the orders
        naming it in input order, priced from one batched quote call for all
        the symbols, made only when there are orders. */
    method GetPortfolio(orders: seq<Order>, quoteSource: set<string> -> seq<Quote>,
                        valuation: map<string, HoldingView> -> int)
      returns (portfolio: Portfolio, requested: Option<set<string>>, outcome: Completion)
      ensures fresh(portfolio) && portfolio.Valid()
      ensures portfolio.holdings.Keys == Symbols(orders)
      ensures requested == if orders == [] then None else Some(Symbols(orders))
      ensures forall s :: s in portfolio.holdings ==>
                fresh(portfolio.holdings[s])
                && portfolio.holdings[s].currency == FirstWith(orders, s).currency
                && portfolio.holdings[s].orders == OrdersFor(orders, s)
      ensures var quotes := if orders == [] then [] else quoteSource(Symbols(orders));
              var k := FirstUnknown(quotes, Symbols(orders));
              && outcome == (if k == |quotes| then Completed else NullHolding(quotes[k].symbol))
              && (forall s :: s in portfolio.holdings ==>
                    portfolio.holdings[s].currentValue == ValueAfter(quotes[..k], s, None))
      ensures outcome.Completed? ==> portfolio.totalValue == valuation(portfolio.View())
    {
      portfolio := new Portfolio();
      requested, outcome := CreatePortfolio(portfolio, orders, quoteSource, valuation);
      ghost var quotes := if orders == [] then [] else quoteSource(Symbols(orders));
      ghost var k := FirstUnknown(quotes, Symbols(orders));
      assert portfolio.holdings.Keys == Symbols(orders);
      assert requested == if orders == [] then None else Some(Symbols(orders));
      assert portfolio.View() == Priced(GroupSpec(map[], orders), quotes[..k]);
      forall s | s in portfolio.holdings
        ensures portfolio.holdings[s].currency == FirstWith(orders, s).currency
        ensures portfolio.holdings[s].orders == OrdersFor(orders, s)
        ensures portfolio.holdings[s].currentValue == ValueAfter(quotes[..k], s, None)
      {
        BuiltFromOrders(orders, quotes[..k], s);
        assert portfolio.View()[s].orders == portfolio.holdings[s].orders;
      }
    }

    /** Settles a new order: a missing fee is set to the default in place, the
        order becomes a transaction, the transaction is posted to the ledger,
        and the order is persisted and returned only when the ledger answers OK.
        `describe` is the order's printed form and `ledger` the status the
        accounts service answers the request with. */
    method AddOrder(order: Order, bearerToken: string, describe: OrderData -> string,
                    ledger: LedgerRequest -> int)
      returns (request: LedgerRequest, result: Option<Order>)
      modifies order, repository
      ensures order.orderFee == Some(FeeOrDefault(old(order.orderFee)))
      ensures old(order.orderFee).Some? ==> order.orderFee == old(order.orderFee)
      ensures request == LedgerRequestFor(TransactionFor(order.Data(), describe(order.Data())), bearerToken)
      ensures ledger(request) == HttpOk ==>
                result == Some(order) && repository.persisted == old(repository.persisted) + [order]
      ensures ledger(request) != HttpOk ==>
                result == None && repository.persisted == old(repository.persisted)
    {
      if order.orderFee.None? {
        order.SetOrderFee(Some(DefaultOrderFee));
      }
      var transaction := TransactionFor(order.Data(), describe(order.Data()));
      request := LedgerRequest("//" + accountsService + TransactionPath, "Bearer " + bearerToken,
                               transaction);
      var status := ledger(request);
      if status == HttpOk {
        var saved := repository.Save(order);
        result := Some(saved);
      } else {
        result := None;
      }
    }
  }
}
