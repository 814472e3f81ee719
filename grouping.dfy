/** Reference definitions of what folding an order list into holdings and
    applying a batch of quotes produce, and the lemmas that characterise them. */
module Grouping {
  import opened Domain

  /** The distinct symbols of an order list. */
  function Symbols(orders: seq<Order>): (r: set<string>)
    ensures orders == [] <==> r == {}
  {
    if orders == [] then {} else {orders[0].symbol} + Symbols(orders[1..])
  }

  /** The orders with symbol `s`, in input order. */
  function OrdersFor(orders: seq<Order>, s: string): seq<Order>
  {
    if orders == [] then []
    else (if orders[0].symbol == s then [orders[0]] else []) + OrdersFor(orders[1..], s)
  }

  /** The first order with symbol `s`. */
  function FirstWith(orders: seq<Order>, s: string): (r: Order)
    requires s in Symbols(orders)
    ensures r in orders && r.symbol == s
  {
    if orders[0].symbol == s then orders[0] else FirstWith(orders[1..], s)
  }

  lemma {:induction false} SymbolsAppend(a: seq<Order>, b: seq<Order>)
    ensures Symbols(a + b) == Symbols(a) + Symbols(b)
  {
    if a != [] {
      assert (a + b)[0] == a[0] && (a + b)[1..] == a[1..] + b;
      SymbolsAppend(a[1..], b);
    } else {
      assert a + b == b;
    }
  }

  /** A symbol occurs in the orders exactly when some order carries it. */
  lemma {:induction false} SymbolsMembership(orders: seq<Order>, s: string)
    ensures s in Symbols(orders) <==> exists k :: 0 <= k < |orders| && orders[k].symbol == s
  {
    if orders != [] {
      SymbolsMembership(orders[1..], s);
      if s in Symbols(orders[1..]) {
        var k :| 0 <= k < |orders[1..]| && orders[1..][k].symbol == s;
        assert orders[k + 1].symbol == s;
      }
      if exists k :: 0 <= k < |orders| && orders[k].symbol == s {
        var k :| 0 <= k < |orders| && orders[k].symbol == s;
        if k > 0 { assert orders[1..][k - 1].symbol == s; }
      }
    }
  }

  /** Filtering by symbol distributes over concatenation: orders that arrive
      later are appended after the earlier ones. */
  lemma {:induction false} OrdersForAppend(a: seq<Order>, b: seq<Order>, s: string)
    ensures OrdersFor(a + b, s) == OrdersFor(a, s) + OrdersFor(b, s)
  {
    if a != [] {
      assert (a + b)[0] == a[0] && (a + b)[1..] == a[1..] + b;
      OrdersForAppend(a[1..], b, s);
    } else {
      assert a + b == b;
    }
  }

  /** The orders filed under `s` are orders of the input, all with symbol `s`,
      and there are some exactly when `s` occurs. */
  lemma {:induction false} OrdersForSound(orders: seq<Order>, s: string)
    ensures forall o :: o in OrdersFor(orders, s) ==> o in orders && o.symbol == s
    ensures OrdersFor(orders, s) == [] <==> s !in Symbols(orders)
  {
    if orders != [] {
      OrdersForSound(orders[1..], s);
    }
  }

  /** How many times `s` occurs in `syms`. */
  function Occurrences(syms: seq<string>, s: string): nat
  {
    if syms == [] then 0 else (if syms[0] == s then 1 else 0) + Occurrences(syms[1..], s)
  }

  /** The number of orders filed under the symbols `syms`, summed. */
  function FiledCount(orders: seq<Order>, syms: seq<string>): nat
  {
    if syms == [] then 0 else |OrdersFor(orders, syms[0])| + FiledCount(orders, syms[1..])
  }

  ghost predicate Distinct(syms: seq<string>)
  {
    forall i, j :: 0 <= i < j < |syms| ==> syms[i] != syms[j]
  }

  lemma {:induction false} FiledCountCons(o: Order, rest: seq<Order>, syms: seq<string>)
    ensures FiledCount([o] + rest, syms) == Occurrences(syms, o.symbol) + FiledCount(rest, syms)
  {
    if syms != [] {
      assert ([o] + rest)[0] == o && ([o] + rest)[1..] == rest;
      FiledCountCons(o, rest, syms[1..]);
    }
  }

  lemma {:induction false} OccursOnce(syms: seq<string>, s: string)
    requires Distinct(syms) && s in syms
    ensures Occurrences(syms, s) == 1
  {
    if syms[0] == s {
      OccursNever(syms[1..], s);
    } else {
      OccursOnce(syms[1..], s);
    }
  }

  lemma {:induction false} OccursNever(syms: seq<string>, s: string)
    requires s !in syms
    ensures Occurrences(syms, s) == 0
  {
    if syms != [] {
      OccursNever(syms[1..], s);
    }
  }

  /** Every order lands in exactly one holding: summed over any duplicate-free
      list of symbols that covers the orders' symbols (for instance the keys of
      the holding map), the holdings' order lists hold |orders| orders. */
  lemma {:induction false} OrdersPartition(orders: seq<Order>, syms: seq<string>)
    requires Distinct(syms)
    requires Symbols(orders) <= set s | s in syms
    ensures FiledCount(orders, syms) == |orders|
  {
    if orders != [] {
      assert [orders[0]] + orders[1..] == orders;
      FiledCountCons(orders[0], orders[1..], syms);
      OccursOnce(syms, orders[0].symbol);
      OrdersPartition(orders[1..], syms);
    } else {
      FiledCountEmpty(syms);
    }
  }

  lemma {:induction false} FiledCountEmpty(syms: seq<string>)
    ensures FiledCount([], syms) == 0
  {
    if syms != [] {
      FiledCountEmpty(syms[1..]);
    }
  }

  /** The first order with a symbol is fixed once the symbol has occurred:
      later orders never change it. */
  lemma {:induction false} FirstWithAppend(a: seq<Order>, b: seq<Order>, s: string)
    requires s in Symbols(a + b)
    ensures s in Symbols(a) ==> FirstWith(a + b, s) == FirstWith(a, s)
    ensures s !in Symbols(a) ==> s in Symbols(b) && FirstWith(a + b, s) == FirstWith(b, s)
  {
    SymbolsAppend(a, b);
    if a != [] {
      assert (a + b)[0] == a[0] && (a + b)[1..] == a[1..] + b;
      if a[0].symbol != s {
        FirstWithAppend(a[1..], b, s);
      }
    } else {
      assert a + b == b;
    }
  }

  /** `FirstWith` is the order at the first position that carries `s`. */
  lemma {:induction false} FirstWithIsFirst(orders: seq<Order>, s: string)
    requires s in Symbols(orders)
    ensures exists k :: 0 <= k < |orders| && orders[k] == FirstWith(orders, s)
                        && forall j :: 0 <= j < k ==> orders[j].symbol != s
  {
    if orders[0].symbol != s {
      FirstWithIsFirst(orders[1..], s);
      var k :| 0 <= k < |orders[1..]| && orders[1..][k] == FirstWith(orders[1..], s)
               && forall j :: 0 <= j < k ==> orders[1..][j].symbol != s;
      assert orders[k + 1] == FirstWith(orders, s);
      assert forall j :: 0 < j < k + 1 ==> orders[j].symbol == orders[1..][j - 1].symbol;
    } else {
      assert orders[0] == FirstWith(orders, s);
    }
  }

  /** The holdings with one for the order's symbol: the existing one, or a
      new one with the order's symbol and currency, no orders and no value. */
  function WithHolding(view: map<string, HoldingView>, o: Order): (g: map<string, HoldingView>)
    ensures o.symbol in g
  {
    if o.symbol in view then view
    else view[o.symbol := HoldingView(o.symbol, o.currency, [], None)]
  }

  /** The holdings after one order is filed: appended to the holding for its
      symbol, which is created from the order when there is none. */
  function FileSpec(view: map<string, HoldingView>, o: Order): map<string, HoldingView>
  {
    var g := WithHolding(view, o);
    g[o.symbol := g[o.symbol].(orders := g[o.symbol].orders + [o])]
  }

  /** The holdings after the orders are filed one by one, left to right. */
  function GroupSpec(view: map<string, HoldingView>, orders: seq<Order>): map<string, HoldingView>
    decreases |orders|
  {
    if orders == [] then view
    else FileSpec(GroupSpec(view, orders[..|orders| - 1]), orders[|orders| - 1])
  }

  /** The orders a holding for `s` already had in `view`. */
  function OrdersBefore(view: map<string, HoldingView>, s: string): seq<Order>
  {
    if s in view then view[s].orders else []
  }

  /** What the holding for `s` looks like after `orders` were filed into the
      holdings `view`: it keeps its symbol, currency and value if it existed,
      and is otherwise created with the currency of the first order naming it
      and no value; its order list grows by exactly the orders with its
      symbol, in input order. */
  ghost predicate FiledHolding(view: map<string, HoldingView>, orders: seq<Order>, s: string, h: HoldingView)
  {
    && h.symbol == s
    && h.orders == OrdersBefore(view, s) + OrdersFor(orders, s)
    && (s in view ==> h.currency == view[s].currency && h.currentValue == view[s].currentValue)
    && (s !in view ==> s in Symbols(orders) && h.currency == FirstWith(orders, s).currency
                       && h.currentValue == None)
  }

  /** One holding per symbol seen before or in the orders, and no other;
      each shaped as `FiledHolding` says. */
  ghost predicate Filed(view: map<string, HoldingView>, orders: seq<Order>, g: map<string, HoldingView>)
  {
    && g.Keys == view.Keys + Symbols(orders)
    && forall s :: s in g ==> FiledHolding(view, orders, s, g[s])
  }

  /** Filing `o` leaves the holding of every other symbol as it was, which
      stays well shaped as the orders grow by `o`. */
  lemma FiledStepKept(view: map<string, HoldingView>, init: seq<Order>, o: Order,
                      g: map<string, HoldingView>, s: string)
    requires s in g && s != o.symbol
    requires FiledHolding(view, init, s, g[s])
    ensures FiledHolding(view, init + [o], s, FileSpec(g, o)[s])
  {
    SymbolsAppend(init, [o]);
    OrdersForAppend(init, [o], s);
    assert OrdersFor([o], s) == [];
    if s !in view {
      FirstWithAppend(init, [o], s);
    }
  }

  /** Filing `o` into an existing holding for its symbol appends `o` to it. */
  lemma FiledStepGrown(view: map<string, HoldingView>, init: seq<Order>, o: Order,
                       g: map<string, HoldingView>)
    requires o.symbol in g
    requires FiledHolding(view, init, o.symbol, g[o.symbol])
    ensures FiledHolding(view, init + [o], o.symbol, FileSpec(g, o)[o.symbol])
  {
    var s := o.symbol;
    SymbolsAppend(init, [o]);
    OrdersForAppend(init, [o], s);
    assert OrdersFor([o], s) == [o];
    if s !in view {
      FirstWithAppend(init, [o], s);
    }
  }

  /** Filing `o` under a symbol never seen creates its holding from `o`. */
  lemma FiledStepCreated(view: map<string, HoldingView>, init: seq<Order>, o: Order,
                         g: map<string, HoldingView>)
    requires o.symbol !in g && o.symbol !in view && o.symbol !in Symbols(init)
    ensures FiledHolding(view, init + [o], o.symbol, FileSpec(g, o)[o.symbol])
  {
    var s := o.symbol;
    SymbolsAppend(init, [o]);
    OrdersForAppend(init, [o], s);
    OrdersForSound(init, s);
    assert OrdersFor([o], s) == [o];
    FirstWithAppend(init, [o], s);
  }

  lemma FiledStep(view: map<string, HoldingView>, init: seq<Order>, o: Order, g: map<string, HoldingView>)
    requires Filed(view, init, g)
    ensures Filed(view, init + [o], FileSpec(g, o))
  {
    SymbolsAppend(init, [o]);
    forall s | s in FileSpec(g, o)
      ensures FiledHolding(view, init + [o], s, FileSpec(g, o)[s])
    {
      if s != o.symbol {
        FiledStepKept(view, init, o, g, s);
      } else if s in g {
        FiledStepGrown(view, init, o, g);
      } else {
        FiledStepCreated(view, init, o, g);
      }
    }
  }

  /** The prefix one longer is the prefix with the next element appended. */
  lemma PrefixSnoc<T>(s: seq<T>, i: nat)
    requires i < |s|
    ensures s[..i + 1] == s[..i] + [s[i]]
  {
  }

  lemma PrefixWhole<T>(s: seq<T>)
    ensures s[..|s|] == s
  {
  }

  /** Filing one more order is one more step of the fold. */
  lemma GroupSpecSnoc(view: map<string, HoldingView>, done: seq<Order>, o: Order)
    ensures GroupSpec(view, done + [o]) == FileSpec(GroupSpec(view, done), o)
    ensures Symbols(done + [o]) == Symbols(done) + {o.symbol}
  {
    assert (done + [o])[..|done|] == done;
    SymbolsAppend(done, [o]);
  }

  /** The reference fold produces holdings shaped as `Filed` says. */
  lemma {:induction false} GroupSpecShape(view: map<string, HoldingView>, orders: seq<Order>)
    requires forall s :: s in view ==> view[s].symbol == s
    ensures Filed(view, orders, GroupSpec(view, orders))
    decreases |orders|
  {
    if orders == [] {
      assert forall s :: OrdersFor([], s) == [];
    } else {
      var init, o := orders[..|orders| - 1], orders[|orders| - 1];
      assert orders == init + [o];
      GroupSpecShape(view, init);
      FiledStep(view, init, o, GroupSpec(view, init));
    }
  }

  /** The current value a holding for `s` has after the quotes have been
      written in order, starting from `initial`: the last quote for `s` wins. */
  function ValueAfter(quotes: seq<Quote>, s: string, initial: Option<int>): Option<int>
    decreases |quotes|
  {
    if quotes == [] then initial
    else if quotes[|quotes| - 1].symbol == s then quotes[|quotes| - 1].lastPrice
    else ValueAfter(quotes[..|quotes| - 1], s, initial)
  }

  /** A holding no quote names keeps its value. */
  lemma {:induction false} ValueAfterUntouched(quotes: seq<Quote>, s: string, initial: Option<int>)
    requires forall k :: 0 <= k < |quotes| ==> quotes[k].symbol != s
    ensures ValueAfter(quotes, s, initial) == initial
  {
    if quotes != [] {
      ValueAfterUntouched(quotes[..|quotes| - 1], s, initial);
    }
  }

  /** A holding named by some quote takes the price of the last such quote. */
  lemma {:induction false} ValueAfterLast(quotes: seq<Quote>, s: string, initial: Option<int>, k: nat)
    requires k < |quotes| && quotes[k].symbol == s
    requires forall j :: k < j < |quotes| ==> quotes[j].symbol != s
    ensures ValueAfter(quotes, s, initial) == quotes[k].lastPrice
  {
    if k < |quotes| - 1 {
      ValueAfterLast(quotes[..|quotes| - 1], s, initial, k);
    }
  }

  /** The holdings after the quotes `quotes` have been written into them. */
  function Priced(g: map<string, HoldingView>, quotes: seq<Quote>): map<string, HoldingView>
  {
    map s | s in g :: g[s].(currentValue := ValueAfter(quotes, s, g[s].currentValue))
  }

  /** Writing one more quote sets the value of its symbol's holding and no
      other. */
  lemma PricedSnoc(g: map<string, HoldingView>, done: seq<Quote>, q: Quote)
    requires q.symbol in g
    ensures Priced(g, done + [q])
            == Priced(g, done)[q.symbol := Priced(g, done)[q.symbol].(currentValue := q.lastPrice)]
  {
    assert (done + [q])[..|done|] == done;
  }

  /** The index of the first quote whose symbol has no holding, or |quotes|. */
  function FirstUnknown(quotes: seq<Quote>, keys: set<string>): (k: nat)
    ensures k <= |quotes|
    ensures forall j :: 0 <= j < k ==> quotes[j].symbol in keys
    ensures k < |quotes| ==> quotes[k].symbol !in keys
  {
    if quotes == [] || quotes[0].symbol !in keys then 0
    else 1 + FirstUnknown(quotes[1..], keys)
  }

  /** A portfolio built from no holdings has a holding for `s` exactly when
      some order names `s`; it has the currency of the first order naming
      `s`, all the orders naming `s` in input order, and the value the last
      quote for `s` left, or none. */
  lemma BuiltFromOrders(orders: seq<Order>, quotes: seq<Quote>, s: string)
    ensures var g := Priced(GroupSpec(map[], orders), quotes);
            && (s in g <==> s in Symbols(orders))
            && (s in g ==>
                 && g[s].symbol == s
                 && g[s].currency == FirstWith(orders, s).currency
                 && g[s].orders == OrdersFor(orders, s)
                 && g[s].currentValue == ValueAfter(quotes, s, None))
  {
    GroupSpecShape(map[], orders);
  }
}
