/** The domain types the two services work on: orders, quotes, transactions,
    holdings and portfolios. Amounts are exact integers in minor currency units
    (cents); dates are opaque integers. */
module Domain {

  datatype Option<+T> = None | Some(value: T)

  datatype OrderType = Buy | Sell

  datatype TransactionType = Debit | Credit

  /** Java's `Order.DEFAULT_ORDER_FEE`: a fixed fee whose value is defined in the
      domain class `Order`, which is not part of this model. */
  const DefaultOrderFee: int

  /** The status string a quote carries when it could not be fetched. */
  const StatusFailed := "FAILED"

  /** A snapshot of an order's fields, as rendered into a transaction. */
  datatype OrderData = OrderData(
    userId: string,
    accountId: string,
    symbol: string,
    currency: string,
    orderType: OrderType,
    quantity: int,
    price: int,
    orderFee: Option<int>,
    completionDate: int)

  /** A buy or sell instruction. The settlement path fills in a missing fee in
      place; every other field is fixed once the order exists. */
  class Order {
    const userId: string
    const accountId: string
    const symbol: string
    const currency: string
    const orderType: OrderType
    const quantity: int
    const price: int
    const completionDate: int
    var orderFee: Option<int>

    constructor (userId: string, accountId: string, symbol: string, currency: string,
                 orderType: OrderType, quantity: int, price: int, orderFee: Option<int>,
                 completionDate: int)
      ensures Data() == OrderData(userId, accountId, symbol, currency, orderType,
                                  quantity, price, orderFee, completionDate)
    {
      this.userId := userId;
      this.accountId := accountId;
      this.symbol := symbol;
      this.currency := currency;
      this.orderType := orderType;
      this.quantity := quantity;
      this.price := price;
      this.orderFee := orderFee;
      this.completionDate := completionDate;
    }

    function Data(): OrderData
      reads this
    {
      OrderData(userId, accountId, symbol, currency, orderType, quantity, price,
                orderFee, completionDate)
    }

    method SetOrderFee(fee: Option<int>)
      modifies this
      ensures orderFee == fee
    {
      orderFee := fee;
    }
  }

  /** A price reading; a quote that could not be fetched has no price. */
  datatype Quote = Quote(symbol: string, lastPrice: Option<int>, status: string)

  /** The ledger-facing record derived from an order. */
  datatype Transaction = Transaction(
    accountId: string,
    amount: int,
    currency: string,
    date: int,
    description: string,
    transactionType: TransactionType)

  /** The observable state of one holding. */
  datatype HoldingView = HoldingView(
    symbol: string,
    currency: string,
    orders: seq<Order>,
    currentValue: Option<int>)

  /** The position in one symbol: created when the symbol is first seen, then
      given orders and a current value in place. */
  class Holding {
    const symbol: string
    const currency: string
    var orders: seq<Order>
    var currentValue: Option<int>

    constructor (symbol: string, currency: string)
      ensures View() == HoldingView(symbol, currency, [], None)
    {
      this.symbol := symbol;
      this.currency := currency;
      orders := [];
      currentValue := None;
    }

    function View(): HoldingView
      reads this
    {
      HoldingView(symbol, currency, orders, currentValue)
    }

    method AddOrder(order: Order)
      modifies this
      ensures orders == old(orders) + [order]
      ensures currentValue == old(currentValue)
    {
      orders := orders + [order];
    }

    method SetCurrentValue(value: Option<int>)
      modifies this
      ensures currentValue == value
      ensures orders == old(orders)
    {
      currentValue := value;
    }
  }

  /** A user's holdings keyed by symbol, and their total value. */
  class Portfolio {
    var holdings: map<string, Holding>
    var totalValue: int

    /** Every holding is filed under its own symbol, so distinct keys hold
        distinct holdings. */
    ghost predicate Valid()
      reads this
    {
      forall s :: s in holdings ==> holdings[s].symbol == s
    }

    function View(): map<string, HoldingView>
      reads this`holdings, holdings.Values
    {
      map s | s in holdings ::
        HoldingView(holdings[s].symbol, holdings[s].currency, holdings[s].orders,
                    holdings[s].currentValue)
    }

    constructor ()
      ensures Valid() && holdings == map[]
    {
      holdings := map[];
      totalValue := 0;
    }

    function GetHolding(symbol: string): (h: Option<Holding>)
      reads this
      ensures h.Some? <==> symbol in holdings
      ensures h.Some? ==> h.value == holdings[symbol]
    {
      if symbol in holdings then Some(holdings[symbol]) else None
    }

    method AddHolding(holding: Holding)
      requires Valid()
      modifies this`holdings
      ensures Valid()
      ensures holdings == old(holdings)[holding.symbol := holding]
    {
      holdings := holdings[holding.symbol := holding];
    }

    /** Recomputes the total from the holdings; the formula belongs to the
        domain class and is passed in as `valuation`. */
    method RefreshTotalValue(valuation: map<string, HoldingView> -> int)
      modifies this`totalValue
      ensures totalValue == valuation(View())
    {
      totalValue := valuation(View());
    }
  }
}
