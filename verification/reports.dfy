/**
 * The read-only queries of the report and dashboard views, as functions of the
 * committed ledger and inventory. SUM over no rows is NULL in SQL and the views
 * turn it into 0 with `or 0`; here an empty sum is 0.
 */
module Reports {
  import opened Records
  import opened Ranking

  // ---------------------------------------------------------------------------
  // Filtering, summing and joining

  /**
   * WHERE Sales.date == d, keeping ledger order. Sale rows have no identity
   * of their own here, so two equal rows are both kept: every row of date d
   * occurs as often as in the ledger, and no other row occurs.
   */
  function OnDate(ledger: seq<Sale>, d: Date): (r: seq<Sale>)
    ensures |r| <= |ledger|
  {
    if ledger == [] then []
    else (if ledger[0].date == d then [ledger[0]] else []) + OnDate(ledger[1..], d)
  }

  /** SUM(Sales.quantity). */
  function SumQuantity(sales: seq<Sale>): int
  {
    if sales == [] then 0 else sales[0].quantity + SumQuantity(sales[1..])
  }

  /** SUM(Sales.total_price). */
  function SumRevenue(sales: seq<Sale>): int
  {
    if sales == [] then 0 else sales[0].totalPrice + SumRevenue(sales[1..])
  }

  /** One row of Sales JOIN Inventory ON product_id. */
  datatype Joined = Joined(sale: Sale, item: Item)

  /**
   * The inner join of sales with the inventory on product_id. A sale whose
   * product has been deleted has no partner and drops out; since product_id
   * is unique, a sale has at most one.
   */
  function Join(sales: seq<Sale>, inv: Inventory): (r: seq<Joined>)
    ensures forall j :: j in r <==> j.sale in sales && j.sale.productId in inv && j.item == inv[j.sale.productId]
    ensures |r| <= |sales|
  {
    if sales == [] then []
    else
      (if sales[0].productId in inv then [Joined(sales[0], inv[sales[0].productId])] else [])
      + Join(sales[1..], inv)
  }

  /** SUM(Sales.quantity * Inventory.profit) over joined rows. */
  function SumProfit(rows: seq<Joined>): int
  {
    if rows == [] then 0 else rows[0].sale.quantity * rows[0].item.profit + SumProfit(rows[1..])
  }

  lemma {:induction false} OnDateAppend(a: seq<Sale>, b: seq<Sale>, d: Date)
    ensures OnDate(a + b, d) == OnDate(a, d) + OnDate(b, d)
  {
    if a == [] {
      assert a + b == b;
    } else {
      assert (a + b)[1..] == a[1..] + b;
      OnDateAppend(a[1..], b, d);
    }
  }

  /** The rows OnDate keeps are exactly the ledger's rows of date d; it is empty exactly when there are none. */
  lemma {:induction false} OnDateMembers(ledger: seq<Sale>, d: Date)
    ensures forall s :: s in OnDate(ledger, d) <==> s in ledger && s.date == d
    ensures OnDate(ledger, d) == [] <==> forall s :: s in ledger ==> s.date != d
  {
    if ledger != [] {
      assert ledger == [ledger[0]] + ledger[1..];
      OnDateMembers(ledger[1..], d);
    }
  }

  /**
   * The filter keeps duplicates: every row of date d occurs in OnDate as
   * often as in the ledger, and no other row occurs.
   */
  lemma {:induction false} OnDateCounts(ledger: seq<Sale>, d: Date)
    ensures forall s :: multiset(OnDate(ledger, d))[s] == if s.date == d then multiset(ledger)[s] else 0
  {
    if ledger != [] {
      assert ledger == [ledger[0]] + ledger[1..];
      OnDateCounts(ledger[1..], d);
    }
  }

  /**
   * The join keeps duplicates: a sale whose product is in inv gives exactly
   * as many joined rows, with its current inventory row, as it has copies
   * in sales; no other row occurs.
   */
  lemma {:induction false} JoinCounts(sales: seq<Sale>, inv: Inventory)
    ensures forall j :: multiset(Join(sales, inv))[j]
                        == if j.sale.productId in inv && j.item == inv[j.sale.productId] then multiset(sales)[j.sale] else 0
  {
    if sales != [] {
      assert sales == [sales[0]] + sales[1..];
      JoinCounts(sales[1..], inv);
    }
  }

  lemma {:induction false} SumQuantityAppend(a: seq<Sale>, b: seq<Sale>)
    ensures SumQuantity(a + b) == SumQuantity(a) + SumQuantity(b)
  {
    if a == [] {
      assert a + b == b;
    } else {
      assert (a + b)[1..] == a[1..] + b;
      SumQuantityAppend(a[1..], b);
    }
  }

  lemma {:induction false} SumRevenueAppend(a: seq<Sale>, b: seq<Sale>)
    ensures SumRevenue(a + b) == SumRevenue(a) + SumRevenue(b)
  {
    if a == [] {
      assert a + b == b;
    } else {
      assert (a + b)[1..] == a[1..] + b;
      SumRevenueAppend(a[1..], b);
    }
  }

  lemma {:induction false} JoinAppend(a: seq<Sale>, b: seq<Sale>, inv: Inventory)
    ensures Join(a + b, inv) == Join(a, inv) + Join(b, inv)
  {
    if a == [] {
      assert a + b == b;
    } else {
      assert (a + b)[1..] == a[1..] + b;
      JoinAppend(a[1..], b, inv);
    }
  }

  lemma {:induction false} SumProfitAppend(a: seq<Joined>, b: seq<Joined>)
    ensures SumProfit(a + b) == SumProfit(a) + SumProfit(b)
  {
    if a == [] {
      assert a + b == b;
    } else {
      assert (a + b)[1..] == a[1..] + b;
      SumProfitAppend(a[1..], b);
    }
  }

  // ---------------------------------------------------------------------------
  // The report totals

  /** total_items_sold: the units sold on date d. */
  function TotalItemsSold(ledger: seq<Sale>, d: Date): int
  {
    SumQuantity(OnDate(ledger, d))
  }

  /** total_profit: each sale on date d that still has an inventory row, times that row's current profit. */
  function TotalProfit(ledger: seq<Sale>, inv: Inventory, d: Date): int
  {
    SumProfit(Join(OnDate(ledger, d), inv))
  }

  /**
   * Each sale row adds its units to the items sold on its date, and its units
   * times its product's current profit to that date's profit; a sale whose
   * product is gone adds no profit, but its units still count.
   */
  lemma TotalsAppend(ledger: seq<Sale>, inv: Inventory, d: Date, s: Sale)
    ensures TotalItemsSold(ledger + [s], d)
            == TotalItemsSold(ledger, d) + (if s.date == d then s.quantity else 0)
    ensures TotalProfit(ledger + [s], inv, d)
            == TotalProfit(ledger, inv, d)
               + (if s.date == d && s.productId in inv then s.quantity * inv[s.productId].profit else 0)
  {
    OnDateAppend(ledger, [s], d);
    var tail := OnDate([s], d);
    assert tail == if s.date == d then [s] else [];
    SumQuantityAppend(OnDate(ledger, d), tail);
    JoinAppend(OnDate(ledger, d), tail, inv);
    SumProfitAppend(Join(OnDate(ledger, d), inv), Join(tail, inv));
  }

  /** A ledger of real sales, each of at least one unit, never reports negative items sold. */
  lemma {:induction false} TotalItemsSoldNonNegative(ledger: seq<Sale>, d: Date)
    requires forall i :: 0 <= i < |ledger| ==> ledger[i].quantity > 0
    ensures TotalItemsSold(ledger, d) >= 0
    ensures TotalItemsSold(ledger, d) == 0 <==> forall s :: s in ledger ==> s.date != d
  {
    if ledger != [] {
      TotalItemsSoldNonNegative(ledger[1..], d);
      assert ledger == [ledger[0]] + ledger[1..];
      OnDateAppend([ledger[0]], ledger[1..], d);
      SumQuantityAppend(OnDate([ledger[0]], d), OnDate(ledger[1..], d));
    }
  }

  // ---------------------------------------------------------------------------
  // Grouping

  /** One row of a GROUP BY product_name query with one summed column. */
  datatype Ranked = Ranked(name: string, total: int)

  /** One row of the top_performance query; profit is the numerator of its profit margin. */
  datatype Performance = Performance(name: string, unitsSold: int, revenue: int, profit: int)

  predicate DistinctNames(groups: seq<Ranked>)
  {
    forall i, j :: 0 <= i < j < |groups| ==> groups[i].name != groups[j].name
  }

  /** The snapshot product names of the sales, in order. */
  function SaleNames(sales: seq<Sale>): (r: seq<string>)
    ensures |r| == |sales|
    ensures forall i :: 0 <= i < |sales| ==> r[i] == sales[i].productName
  {
    if sales == [] then [] else [sales[0].productName] + SaleNames(sales[1..])
  }

  /** SUM(Sales.quantity) WHERE Sales.product_name == name. */
  function QuantityNamed(sales: seq<Sale>, name: string): int
  {
    if sales == [] then 0
    else (if sales[0].productName == name then sales[0].quantity else 0) + QuantityNamed(sales[1..], name)
  }

  /** GROUP BY Sales.product_name with SUM(Sales.quantity): one row per snapshot name. */
  function SalesByName(sales: seq<Sale>): (r: seq<Ranked>)
    ensures DistinctNames(r)
    ensures (set g | g in r :: g.name) == (set s | s in sales :: s.productName)
    ensures forall g :: g in r ==> g.total == QuantityNamed(sales, g.name)
  {
    var all := SaleNames(sales);
    var names := Distinct(all);
    var r := seq(|names|, i requires 0 <= i < |names| => Ranked(names[i], QuantityNamed(sales, names[i])));
    assert forall i :: 0 <= i < |r| ==> r[i].name == names[i];
    SaleNamesSet(sales);
    forall n ensures n in (set g | g in r :: g.name) <==> n in names {
      if n in names {
        var i :| 0 <= i < |names| && names[i] == n;
        assert r[i] in r;
      }
    }
    r
  }

  /** The inventory names of joined rows, in order. */
  function ItemNames(rows: seq<Joined>): (r: seq<string>)
    ensures |r| == |rows|
    ensures forall i :: 0 <= i < |rows| ==> r[i] == rows[i].item.name
  {
    if rows == [] then [] else [rows[0].item.name] + ItemNames(rows[1..])
  }

  /** The distinct snapshot names are the names of the sales. */
  lemma SaleNamesSet(sales: seq<Sale>)
    ensures (set n | n in Distinct(SaleNames(sales))) == (set s | s in sales :: s.productName)
  {
    var all := SaleNames(sales);
    forall n ensures n in Distinct(all) <==> n in (set s | s in sales :: s.productName) {
      if n in all {
        var i :| 0 <= i < |all| && all[i] == n;
        assert sales[i] in sales;
      }
      if n in (set s | s in sales :: s.productName) {
        var s :| s in sales && s.productName == n;
        var i :| 0 <= i < |sales| && sales[i] == s;
        assert all[i] == n;
      }
    }
  }

  /** The distinct inventory names are the names of the joined rows. */
  lemma ItemNamesSet(rows: seq<Joined>)
    ensures (set n | n in Distinct(ItemNames(rows))) == (set j | j in rows :: j.item.name)
  {
    var all := ItemNames(rows);
    forall n ensures n in Distinct(all) <==> n in (set j | j in rows :: j.item.name) {
      if n in all {
        var i :| 0 <= i < |all| && all[i] == n;
        assert rows[i] in rows;
      }
      if n in (set j | j in rows :: j.item.name) {
        var j :| j in rows && j.item.name == n;
        var i :| 0 <= i < |rows| && rows[i] == j;
        assert all[i] == n;
      }
    }
  }

  /** SUM(Sales.quantity), SUM(Sales.total_price) and SUM(Sales.quantity * Inventory.profit) WHERE Inventory.product_name == name. */
  function Tally(rows: seq<Joined>, name: string): (p: Performance)
    ensures p.name == name
  {
    if rows == [] then Performance(name, 0, 0, 0)
    else
      var rest := Tally(rows[1..], name);
      if rows[0].item.name == name then
        Performance(name, rows[0].sale.quantity + rest.unitsSold, rows[0].sale.totalPrice + rest.revenue,
                    rows[0].sale.quantity * rows[0].item.profit + rest.profit)
      else rest
  }

  /** GROUP BY Inventory.product_name over joined rows, with the three sums of Tally. */
  function PerformanceByName(rows: seq<Joined>): (r: seq<Performance>)
    ensures forall i, j :: 0 <= i < j < |r| ==> r[i].name != r[j].name
    ensures (set g | g in r :: g.name) == (set j | j in rows :: j.item.name)
    ensures forall g :: g in r ==> g == Tally(rows, g.name)
  {
    var all := ItemNames(rows);
    var names := Distinct(all);
    var r := seq(|names|, i requires 0 <= i < |names| => Tally(rows, names[i]));
    assert forall i :: 0 <= i < |r| ==> r[i].name == names[i];
    ItemNamesSet(rows);
    forall n ensures n in (set g | g in r :: g.name) <==> n in names {
      if n in names {
        var i :| 0 <= i < |names| && names[i] == n;
        assert r[i] in r;
      }
    }
    r
  }

  /** SUM(Inventory.profit) over joined rows WHERE Inventory.product_name == name: once per sale row, whatever its quantity. */
  function ProfitNamed(rows: seq<Joined>, name: string): int
  {
    if rows == [] then 0
    else (if rows[0].item.name == name then rows[0].item.profit else 0) + ProfitNamed(rows[1..], name)
  }

  /** GROUP BY Inventory.product_name over joined rows with SUM(Inventory.profit). */
  function ProfitByName(rows: seq<Joined>): (r: seq<Ranked>)
    ensures DistinctNames(r)
    ensures (set g | g in r :: g.name) == (set j | j in rows :: j.item.name)
    ensures forall g :: g in r ==> g.total == ProfitNamed(rows, g.name)
  {
    var all := ItemNames(rows);
    var names := Distinct(all);
    var r := seq(|names|, i requires 0 <= i < |names| => Ranked(names[i], ProfitNamed(rows, names[i])));
    assert forall i :: 0 <= i < |r| ==> r[i].name == names[i];
    ItemNamesSet(rows);
    forall n ensures n in (set g | g in r :: g.name) <==> n in names {
      if n in names {
        var i :| 0 <= i < |names| && names[i] == n;
        assert r[i] in r;
      }
    }
    r
  }

  // ---------------------------------------------------------------------------
  // The rankings: ORDER BY ... LIMIT 5

  /** top_selling: the five snapshot names with the most units sold on date d, most first. */
  function TopSelling(ledger: seq<Sale>, d: Date): (r: seq<Ranked>)
    ensures var groups := SalesByName(OnDate(ledger, d));
      && |r| == Min(5, |groups|)
      && DistinctNames(r)
      && (forall i :: 0 <= i < |r| ==> r[i] in groups)
      && (forall i, j :: 0 <= i < j < |r| ==> r[i].total >= r[j].total)
      && (forall g :: g in groups && g !in r ==> forall i :: 0 <= i < |r| ==> g.total <= r[i].total)
  {
    var groups := SalesByName(OnDate(ledger, d));
    TopBy(groups, (g: Ranked) => g.total, 5)
  }

  /** least_selling: the five snapshot names with the fewest units sold on date d, fewest first. */
  function LeastSelling(ledger: seq<Sale>, d: Date): (r: seq<Ranked>)
    ensures var groups := SalesByName(OnDate(ledger, d));
      && |r| == Min(5, |groups|)
      && DistinctNames(r)
      && (forall i :: 0 <= i < |r| ==> r[i] in groups)
      && (forall i, j :: 0 <= i < j < |r| ==> r[i].total <= r[j].total)
      && (forall g :: g in groups && g !in r ==> forall i :: 0 <= i < |r| ==> g.total >= r[i].total)
  {
    var groups := SalesByName(OnDate(ledger, d));
    TopBy(groups, (g: Ranked) => -g.total, 5)
  }

  /**
   * top_performance: over the sales of date d that still have an inventory
   * row, the five inventory names with the most units sold, most first.
   */
  function TopPerformance(ledger: seq<Sale>, inv: Inventory, d: Date): (r: seq<Performance>)
    ensures var groups := PerformanceByName(Join(OnDate(ledger, d), inv));
      && |r| == Min(5, |groups|)
      && (forall i, j :: 0 <= i < j < |r| ==> r[i].name != r[j].name)
      && (forall i :: 0 <= i < |r| ==> r[i] in groups)
      && (forall i, j :: 0 <= i < j < |r| ==> r[i].unitsSold >= r[j].unitsSold)
      && (forall g :: g in groups && g !in r ==> forall i :: 0 <= i < |r| ==> g.unitsSold <= r[i].unitsSold)
  {
    var groups := PerformanceByName(Join(OnDate(ledger, d), inv));
    TopBy(groups, (g: Performance) => g.unitsSold, 5)
  }

  /** top_profit_products: the five inventory names with the largest summed profit column on date d. */
  function TopProfitProducts(ledger: seq<Sale>, inv: Inventory, d: Date): (r: seq<Ranked>)
    ensures var groups := ProfitByName(Join(OnDate(ledger, d), inv));
      && |r| == Min(5, |groups|)
      && DistinctNames(r)
      && (forall i :: 0 <= i < |r| ==> r[i] in groups)
      && (forall i, j :: 0 <= i < j < |r| ==> r[i].total >= r[j].total)
      && (forall g :: g in groups && g !in r ==> forall i :: 0 <= i < |r| ==> g.total <= r[i].total)
  {
    var groups := ProfitByName(Join(OnDate(ledger, d), inv));
    TopBy(groups, (g: Ranked) => g.total, 5)
  }

  // ---------------------------------------------------------------------------
  // The report view

  /** What the report view computes for one date; profit margins are left out. */
  datatype Report = Report(date: Date, totalItemsSold: int, totalProfit: int,
                           topSelling: seq<Ranked>, leastSelling: seq<Ranked>, topPerformance: seq<Performance>)

  function Summarize(ledger: seq<Sale>, inv: Inventory, d: Date): (r: Report)
    ensures r.date == d
    ensures |r.topSelling| <= 5 && |r.leastSelling| <= 5 && |r.topPerformance| <= 5
  {
    Report(d, TotalItemsSold(ledger, d), TotalProfit(ledger, inv, d),
           TopSelling(ledger, d), LeastSelling(ledger, d), TopPerformance(ledger, inv, d))
  }

  /** A date without sales gives zero totals and empty rankings, not an error. */
  lemma NoSalesEmptyReport(ledger: seq<Sale>, inv: Inventory, d: Date)
    requires forall s :: s in ledger ==> s.date != d
    ensures Summarize(ledger, inv, d) == Report(d, 0, 0, [], [], [])
  {
    OnDateMembers(ledger, d);
    assert Join([], inv) == [];
  }

  // ---------------------------------------------------------------------------
  // The dashboard view

  /** total_sales: the revenue of the sales on date today. */
  function TotalSales(ledger: seq<Sale>, today: Date): int
  {
    SumRevenue(OnDate(ledger, today))
  }

  /** low_stock: the inventory rows with fewer than 5 units in stock, and no others. */
  function LowStock(inv: Inventory): (r: Inventory)
    ensures forall p :: p in inv ==> (p in r <==> inv[p].quantity < 5)
    ensures forall p :: p in r ==> p in inv && r[p] == inv[p]
  {
    map p | p in inv && inv[p].quantity < 5 :: inv[p]
  }

  /** SUM(Inventory.profit) over every inventory row. */
  ghost function InventoryProfit(inv: Inventory): int
    decreases |inv|
  {
    if inv == map[] then 0
    else
      var p :| p in inv;
      inv[p].profit + InventoryProfit(inv - {p})
  }

  /**
   * total_profit as the dashboard query is written: it selects
   * Inventory.profit but filters on Sales.date, so the two tables are
   * cross-joined and every inventory row's profit is counted once for each
   * of the day's sale rows, whatever was sold.
   */
  ghost function DashboardProfitAsWritten(ledger: seq<Sale>, inv: Inventory, today: Date): int
  {
    |OnDate(ledger, today)| * InventoryProfit(inv)
  }

  /**
   * The cross join misses the day's profit: 3 units of P1 at a profit of 5
   * earn 15, but the query reports 5.
   */
  lemma DashboardProfitMisses(today: Date)
    ensures var inv := map["P1" := Item("P1", 10, 15, 5, 17)];
      var ledger := [Sale("P1", "P1", 3, 45, today)];
      && DashboardProfitAsWritten(ledger, inv, today) == 5
      && TotalProfit(ledger, inv, today) == 15
  {
    var inv := map["P1" := Item("P1", 10, 15, 5, 17)];
    var ledger := [Sale("P1", "P1", 3, 45, today)];
    assert inv - {"P1"} == map[];
    assert InventoryProfit(inv) == 5;
    assert ledger[1..] == [];
    assert OnDate(ledger, today) == ledger;
    var rows := [Joined(ledger[0], inv["P1"])];
    assert Join(ledger, inv) == rows;
    assert rows[1..] == [];
    assert SumProfit(rows) == 15;
  }

  /** What the dashboard view computes, with total_profit taken from the join as the report does. */
  datatype Dashboard = Dashboard(totalSales: int, totalProfit: int, topSoldItems: seq<Ranked>,
                                 lowStock: Inventory, topProfitProducts: seq<Ranked>)

  function DashboardOf(ledger: seq<Sale>, inv: Inventory, today: Date): (r: Dashboard)
    ensures |r.topSoldItems| <= 5 && |r.topProfitProducts| <= 5
    ensures r.totalProfit == TotalProfit(ledger, inv, today)
  {
    Dashboard(TotalSales(ledger, today), TotalProfit(ledger, inv, today), TopSelling(ledger, today),
              LowStock(inv), TopProfitProducts(ledger, inv, today))
  }
}
