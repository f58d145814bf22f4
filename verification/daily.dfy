/**
 * What a checkout does to the daily report: the report view reads the same
 * Sales ledger the /sell view writes, so the units and profit of a
 * successful checkout show up in the totals of its date and of no other.
 */
module Daily {
  import opened Wrappers
  import opened Records
  import opened Checkout
  import opened Reports
  import Store

  /** The units a list of well-formed lines asks for, over all products. */
  function Requested(lines: seq<Line>): int
  {
    if lines == [] then 0
    else (if lines[0].quantity.Some? then lines[0].quantity.value else 0) + Requested(lines[1..])
  }

  /** The profit column the lines earn at the stored per-unit profits of inv. */
  function Earned(inv: Inventory, lines: seq<Line>): int
    requires WellFormed(inv, lines)
  {
    if lines == [] then 0
    else lines[0].quantity.value * inv[lines[0].productId].profit + Earned(inv, lines[1..])
  }

  /** What the lines are charged at the selling prices of inv. */
  function Charged(inv: Inventory, lines: seq<Line>): int
    requires WellFormed(inv, lines)
  {
    if lines == [] then 0
    else inv[lines[0].productId].sellingPrice * lines[0].quantity.value + Charged(inv, lines[1..])
  }

  /** What the lines' units cost at the stored cost prices of inv. */
  function Cost(inv: Inventory, lines: seq<Line>): int
    requires WellFormed(inv, lines)
  {
    if lines == [] then 0
    else lines[0].quantity.value * inv[lines[0].productId].costPrice + Cost(inv, lines[1..])
  }

  /** Where every stored profit is its selling price less its cost price, the lines earn what they are charged less what they cost. */
  lemma {:induction false} EarnedIsMargin(inv: Inventory, lines: seq<Line>)
    requires WellFormed(inv, lines)
    requires forall p :: p in inv ==> ProfitConsistent(inv[p])
    ensures Earned(inv, lines) == Charged(inv, lines) - Cost(inv, lines)
  {
    if lines != [] {
      EarnedIsMargin(inv, lines[1..]);
      var q, item := lines[0].quantity.value, inv[lines[0].productId];
      assert q * item.profit == item.sellingPrice * q - q * item.costPrice by {
        assert item.profit == item.sellingPrice - item.costPrice;
      }
    }
  }

  /** The sale rows of a checkout all carry its date, and record the units the lines ask for and what they are charged. */
  lemma {:induction false} SalesForDated(inv: Inventory, lines: seq<Line>, today: Date, d: Date)
    requires WellFormed(inv, lines)
    ensures OnDate(SalesFor(inv, lines, today), d) == if d == today then SalesFor(inv, lines, today) else []
    ensures SumQuantity(SalesFor(inv, lines, today)) == Requested(lines)
    ensures SumRevenue(SalesFor(inv, lines, today)) == Charged(inv, lines)
  {
    if lines != [] {
      var sales := SalesFor(inv, lines, today);
      assert sales[1..] == SalesFor(inv, lines[1..], today);
      SalesForDated(inv, lines[1..], today, d);
    }
  }

  /**
   * Joined with any inventory holding the same products at the same per-unit
   * profits, the sale rows of a checkout earn what the lines earn.
   */
  lemma {:induction false} SalesForProfit(inv: Inventory, inv': Inventory, lines: seq<Line>, today: Date)
    requires WellFormed(inv, lines)
    requires inv'.Keys == inv.Keys
    requires forall p :: p in inv ==> inv'[p].profit == inv[p].profit
    ensures SumProfit(Join(SalesFor(inv, lines, today), inv')) == Earned(inv, lines)
  {
    if lines != [] {
      var sales := SalesFor(inv, lines, today);
      assert sales[1..] == SalesFor(inv, lines[1..], today);
      SalesForProfit(inv, inv', lines[1..], today);
    }
  }

  /**
   * After a successful checkout, total_items_sold for its date grows by the
   * units the lines asked for, and for every other date stays as it was.
   */
  lemma CheckoutCountsInReport(inv: Inventory, ledger: seq<Sale>, lines: seq<Line>, today: Date, d: Date)
    requires Feasible(inv, lines)
    ensures TotalItemsSold(Sell(inv, ledger, lines, today).db.ledger, d)
            == TotalItemsSold(ledger, d) + (if d == today then Requested(lines) else 0)
  {
    SellSuccess(inv, ledger, lines, today);
    var sales := SalesFor(inv, lines, today);
    OnDateAppend(ledger, sales, d);
    SalesForDated(inv, lines, today, d);
    SumQuantityAppend(OnDate(ledger, d), OnDate(sales, d));
    assert OnDate(ledger, d) + [] == OnDate(ledger, d);
  }

  /**
   * After a successful checkout, the dashboard's total_sales for its date
   * grows by what the lines were charged, and for every other date stays as
   * it was.
   */
  lemma CheckoutRevenueOnDashboard(inv: Inventory, ledger: seq<Sale>, lines: seq<Line>, today: Date, d: Date)
    requires Feasible(inv, lines)
    ensures TotalSales(Sell(inv, ledger, lines, today).db.ledger, d)
            == TotalSales(ledger, d) + (if d == today then Charged(inv, lines) else 0)
  {
    SellSuccess(inv, ledger, lines, today);
    var sales := SalesFor(inv, lines, today);
    OnDateAppend(ledger, sales, d);
    SalesForDated(inv, lines, today, d);
    SumRevenueAppend(OnDate(ledger, d), OnDate(sales, d));
    assert OnDate(ledger, d) + [] == OnDate(ledger, d);
  }

  /**
   * After a successful checkout, the report's total_profit for its date grows
   * by the lines' units times their products' stored profit, and for every
   * other date stays as it was (both read against the new inventory).
   */
  lemma CheckoutProfitInReport(inv: Inventory, ledger: seq<Sale>, lines: seq<Line>, today: Date, d: Date)
    requires Feasible(inv, lines)
    ensures var o := Sell(inv, ledger, lines, today);
      TotalProfit(o.db.ledger, o.db.inventory, d)
      == TotalProfit(ledger, o.db.inventory, d) + (if d == today then Earned(inv, lines) else 0)
  {
    SellSuccess(inv, ledger, lines, today);
    var inv' := Deduct(inv, lines);
    var sales := SalesFor(inv, lines, today);
    OnDateAppend(ledger, sales, d);
    SalesForDated(inv, lines, today, d);
    JoinAppend(OnDate(ledger, d), OnDate(sales, d), inv');
    SumProfitAppend(Join(OnDate(ledger, d), inv'), Join(OnDate(sales, d), inv'));
    if d == today {
      SalesForProfit(inv, inv', lines, today);
    } else {
      assert OnDate(ledger, d) + [] == OnDate(ledger, d);
    }
  }

  /** A single sale row forms one group: its name with its units. */
  lemma OneSaleGroup(sale: Sale)
    ensures SalesByName([sale]) == [Ranked(sale.productName, sale.quantity)]
  {
    var groups := SalesByName([sale]);
    assert (set g | g in groups :: g.name) == {sale.productName};
    assert groups[0].name in (set g | g in groups :: g.name);
    assert [sale][1..] == [];
    assert groups[0].total == QuantityNamed([sale], sale.productName) == sale.quantity;
  }

  /** A single joined row forms one performance group with its units, revenue and profit. */
  lemma OneRowPerformance(row: Joined)
    ensures PerformanceByName([row])
            == [Performance(row.item.name, row.sale.quantity, row.sale.totalPrice, row.sale.quantity * row.item.profit)]
  {
    var perf := PerformanceByName([row]);
    assert (set g | g in perf :: g.name) == {row.item.name};
    assert perf[0].name in (set g | g in perf :: g.name);
    assert [row][1..] == [];
    assert perf[0] == Tally([row], row.item.name);
  }

  /** The report of a day whose only sale is 3 pens at 15, with the pen's profit stored as 5. */
  lemma PenDayReport(d: Date)
    ensures var sale := Sale("P1", "Pen", 3, 45, d);
      Summarize([sale], map["P1" := Item("Pen", 10, 15, 5, 17)], d)
      == Report(d, 3, 15, [Ranked("Pen", 3)], [Ranked("Pen", 3)], [Performance("Pen", 3, 45, 15)])
  {
    var sale := Sale("P1", "Pen", 3, 45, d);
    var inv := map["P1" := Item("Pen", 10, 15, 5, 17)];
    assert OnDate([sale], d) == [sale];
    var row := Joined(sale, inv["P1"]);
    assert Join([sale], inv) == [row];
    OneSaleGroup(sale);
    OneRowPerformance(row);
    assert [sale][1..] == [] && [row][1..] == [];
    assert SumQuantity([sale]) == 3;
    assert TotalItemsSold([sale], d) == 3;
    assert SumProfit([row]) == 15;
    assert TotalProfit([sale], inv, d) == 15;
    var top := TopSelling([sale], d);
    assert |top| == 1 && top[0] in [Ranked("Pen", 3)];
    var least := LeastSelling([sale], d);
    assert |least| == 1 && least[0] in [Ranked("Pen", 3)];
    var perf := TopPerformance([sale], inv, d);
    assert |perf| == 1 && perf[0] in [Performance("Pen", 3, 45, 15)];
  }

  /**
   * A day with one checkout of 3 pens at 15 (cost 10): the report shows 3
   * units, a profit of 15, the pen at the top and the bottom of the units
   * ranking, and 45 of revenue.
   */
  lemma OneCheckoutReport(d: Date)
    ensures var o := Sell(map["P1" := Item("Pen", 10, 15, 5, 20)], [], [Line("P1", Some(3))], d);
      && o.result == Ok([Receipt("Pen", 3, 45)])
      && Summarize(o.db.ledger, o.db.inventory, d)
         == Report(d, 3, 15, [Ranked("Pen", 3)], [Ranked("Pen", 3)], [Performance("Pen", 3, 45, 15)])
  {
    var inv := map["P1" := Item("Pen", 10, 15, 5, 20)];
    var lines := [Line("P1", Some(3))];
    RunAccepted(Db(inv, [], []), lines, d, []);
    assert lines[1..] == [];
    assert [] + [Receipt("Pen", 3, 45)] == [Receipt("Pen", 3, 45)];
    var o := Sell(inv, [], lines, d);
    assert o.db.ledger == [Sale("P1", "Pen", 3, 45, d)];
    assert o.db.inventory == map["P1" := Item("Pen", 10, 15, 5, 17)];
    PenDayReport(d);
  }

  /**
   * Between two requests the store's ledger holds only rows of at least one
   * unit, so total_items_sold is never negative and is zero exactly on a
   * date without sales.
   */
  lemma StoreItemsSold(store: Store.Store, d: Date)
    requires store.Valid()
    ensures TotalItemsSold(store.ledger, d) >= 0
    ensures TotalItemsSold(store.ledger, d) == 0 <==> forall s :: s in store.ledger ==> s.date != d
  {
    TotalItemsSoldNonNegative(store.ledger, d);
  }

  /**
   * Between two requests every stored profit is its selling price less its
   * cost price, so a successful checkout adds to the report's profit exactly
   * what it is charged less what its units cost.
   */
  lemma StoreCheckoutMargin(store: Store.Store, lines: seq<Line>, today: Date)
    requires store.Valid()
    requires Feasible(store.inventory, lines)
    ensures var o := Sell(store.inventory, store.ledger, lines, today);
      TotalProfit(o.db.ledger, o.db.inventory, today)
      == TotalProfit(store.ledger, o.db.inventory, today) + Charged(store.inventory, lines) - Cost(store.inventory, lines)
  {
    CheckoutProfitInReport(store.inventory, store.ledger, lines, today, today);
    EarnedIsMargin(store.inventory, lines);
  }
}
