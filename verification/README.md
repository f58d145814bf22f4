# Smart store: checkout, catalogue, reports and the daily PDF

This project is a Dafny model of the sequential logic of a small shop
application (`app.py`, a Flask application over SQLite). The model covers
four pieces:

- **Checkout.** This is the `/sell` view. It reads a list of
  (product_id, quantity) form lines. For each line it checks the quantity, the
  product and the stock, then decrements the stock, commits, and adds a
  `Sales` row to the session.
- **The catalogue.** These are the Add, Delete and Update actions of the
  `/inventory` view. The Inventory table is keyed by a unique `product_id`.
- **The report and dashboard queries.** These filter the Sales ledger by
  date, sum it, join it with the inventory on `product_id`, group it by
  product name and rank it with `ORDER BY … LIMIT 5`.
- **The daily report PDF.** This is the list of strings `generate_pdf` draws,
  each with its (x, y) position.

Modules:

| file | module | what it holds |
|---|---|---|
| `wrappers.dfy` | `Wrappers` | `Option`, `Result` |
| `records.dfy` | `Records` | `Date`, the `Item` inventory row, the `Sale` ledger row |
| `checkout.dfy` | `Checkout` | the checkout as a function of the database state: committed inventory, committed ledger and pending sale rows; plus a reference description of a successful or failed checkout, proved equal to it |
| `store.dfy` | `Store` | the `Store` class: the database state as fields; the checkout loop, proved equal to `Checkout.Sell`; `Commit` and `Rollback`, proved equal to `Checkout.Commit` and `Checkout.Rollback`; the Add, Delete and Update actions, each specified by the new inventory in terms of the old |
| `ranking.dfy` | `Ranking` | `ORDER BY key DESC LIMIT k` stated relationally (`TopBy`) |
| `reports.dfy` | `Reports` | the report and dashboard queries as functions over the ledger and the inventory |
| `layout.dfy` | `Layout` | `generate_pdf` as a method producing (x, y, text) draw commands |
| `daily.dfy` | `Daily` | what a checkout does to the report and dashboard figures |

### How the model represents the source

- Prices and totals are integers in minor currency units. Quantities are
  integers.
- A quantity field that `int()` cannot parse is `None`.
- The date a sale records and the date the dashboard filters on are
  parameters (`today`, `d`).

### Where the model follows the code rather than its own comments

The checkout's comments state an all-or-nothing intent. The final commit is
labelled as committing all sales data (`app.py:200`), and the handler rolls
back in case of an error (`app.py:202`). The code is not all-or-nothing,
and the model follows the code:

- `app.py:183` commits each line's decrement before the next line is checked.
- That same commit also makes the previous line's `Sales` row durable.
- When a line fails, the request ends. The session is then rolled back
  (`app.py:202`) or discarded at teardown, and only the last accepted line's
  sale row is lost.

`Checkout.SellFailure` states exactly what such a failed checkout leaves
behind.

## Model

| member | source | states |
|---|---|---|
| Checkout.Zip | app.py:169 | the lines are paired position by position, and the shorter of the two form lists decides how many there are |
| Checkout.CheckLine | app.py:170-178 | a line is accepted exactly when its quantity parses, is positive, names a known product and does not exceed its stock; otherwise the first failing check in that order gives the error, and a short stock reports the name and the available amount |
| Checkout.RunAccepted | app.py:181-198 | an accepted line lowers its product's stock by the quantity and commits, which also commits the rows that were pending; the session then holds only this line's sale row, and the receipts gain one entry |
| Checkout.RunRejected | app.py:170-178 | a rejected line ends the checkout with its error, and the session's pending rows are discarded |
| Checkout.RunSucceedsIff | app.py:169-203 | from any state, the loop ends with nothing pending and the same set of products, and it succeeds exactly when the remaining lines are feasible |
| Checkout.RunSuccess | app.py:169-200 | a successful loop leaves the stock with the total demand per product subtracted, and commits the earlier pending rows followed by one sale row per line |
| Checkout.RunReceipts | app.py:194-198 | a successful loop appends one receipt per line, in line order |
| Checkout.RunFailure | app.py:169-203 | a failing loop fails at some line k: lines 0..k-1 were accepted, their decrements are committed, and every sale row but the last accepted line's is committed |
| Checkout.FeasibleStep | app.py:174-182 | a line list is feasible exactly when its first line is accepted and the rest is feasible against the stock that line leaves |
| Checkout.SalesForAt | app.py:186-192 | sale row i carries line i's product_id, the product's name when it was sold, the quantity, selling price times quantity, and the checkout date |
| Checkout.SellSucceedsIff | app.py:169-178 | a checkout succeeds exactly when every line parses, is positive and names a known product, and no product is asked for more units in total than its stock; it always ends with nothing pending and no product added or removed |
| Checkout.SellSuccess | app.py:169-200 | a successful checkout subtracts each product's total demand from its stock and changes nothing else; it appends one sale row per line in line order, and answers one receipt per line in line order |
| Checkout.SellFailure | app.py:181-203 | a failed checkout failed at some line k with that line's error against the stock lines 0..k-1 left; those decrements stay committed, and so do all their sale rows except the last |
| Checkout.DeductFeasible | app.py:177-182 | deducting feasible lines never raises a stock and never takes one below zero |
| Checkout.SellNeverOversells | app.py:174-182 | no checkout, successful or failed, raises a stock or takes one below zero |
| Checkout.SoldSalesFor | app.py:186-193 | the sale rows of the lines record exactly the units the lines request of each product |
| Checkout.SellSuccessConserves | app.py:181-200 | after a successful checkout, stock plus units recorded as sold is unchanged for every product |
| Checkout.PartialFailureLosesSale | app.py:181-203 | as written: with 20 units of P1, selling 3 of P1 and then 1 of an unknown product fails, leaves P1 at 17 and records no sale, so 3 units vanish |
| Checkout.SellAtomicValidateThenApply | app.py:200-203 | the all-or-nothing checkout applies every line's decrement and sale row and answers every receipt when the lines are feasible; otherwise it leaves inventory and ledger as they were and answers an error |
| Checkout.SellAtomicConserves | app.py:200-203 | the all-or-nothing checkout answers as the view does, changes nothing when it fails, and never loses or creates units |
| Checkout.SellOneLine | app.py:181-198 | selling 3 of 20 units at 15 answers one receipt of 45, leaves 17 in stock and appends one sale row |
| Checkout.SellTooMany | app.py:177-178 | asking for 25 of 20 units fails with the product name and 20 available, and changes nothing |
| Checkout.SellSameProductTwice | app.py:174-182 | a second line for the same product is checked against the stock the first line left |
| Store.Store.Commit | app.py:183 | the pending sale rows join the committed ledger and nothing else changes, exactly as `Checkout.Commit` describes |
| Store.Store.Rollback | app.py:201-203 | the pending sale rows are dropped and nothing else changes, exactly as `Checkout.Rollback` describes |
| Store.Store.Add | app.py:86-107 | an existing product_id leaves the table as it was; otherwise exactly one row is inserted, with profit = selling price − cost price; the ledger is untouched |
| Store.Store.Delete | app.py:109-115 | the row with that product_id is removed if there is one, and nothing else changes |
| Store.Store.Update | app.py:117-126 | only that row's quantity changes, to the new value; an unknown id changes nothing |
| Store.Store.Sell | app.py:156-205 | the checkout loop over the zip-paired form lists leaves exactly the inventory and ledger of `Checkout.Sell`, and gives its answer |
| Ranking.Distinct | app.py:265 | the groups of a GROUP BY: each value once, and exactly the values present |
| Ranking.TopBy | app.py:262-265 | ORDER BY key DESC LIMIT k returns min(k, n) distinct rows of the input, non-increasing by key, and no row left out ranks above a row returned; no tie order is promised |
| Reports.OnDateMembers | app.py:257 | the sales of date d, and only those; empty exactly when no sale has that date |
| Reports.OnDateCounts | app.py:257 | every ledger row of date d is kept as often as it occurs in the ledger, and no other row is kept |
| Reports.Join | app.py:258-259 | the inner join on product_id: a sale with its current inventory row, dropped when the product has been deleted |
| Reports.JoinCounts | app.py:258-259 | each joined row occurs as often as its sale occurs in the input when the row pairs the sale with its product's current inventory row, and never otherwise |
| Reports.TotalsAppend | app.py:257-260 | one more sale row raises total_items_sold of its date by its quantity, and raises total_profit by its quantity times its product's current profit, or by nothing if the product was deleted |
| Reports.TotalItemsSoldNonNegative | app.py:257 | with positive quantities, total_items_sold is never negative, and it is 0 exactly when the date has no sales |
| Reports.SalesByName | app.py:262-270 | grouping by the sales' product_name snapshot gives one row per name that occurs, each with its summed quantity |
| Reports.PerformanceByName | app.py:272-280 | grouping the joined rows by the inventory's product_name gives one row per name, with summed units, revenue and quantity × profit |
| Reports.ProfitByName | app.py:232-237 | grouping the joined rows by the inventory's product_name gives one row per name with the summed profit column |
| Reports.TopSelling | app.py:262-265 | top_selling: at most 5 of the day's name groups, non-increasing by units sold, and no group left out sold more than one kept |
| Reports.LeastSelling | app.py:267-270 | least_selling: at most 5 of the day's name groups, non-decreasing by units sold, and no group left out sold fewer than one kept |
| Reports.TopPerformance | app.py:272-280 | top_performance: at most 5 groups of the day's joined sales, non-increasing by units sold, and no group left out sold more |
| Reports.TopProfitProducts | app.py:232-240 | top_profit_products: at most 5 groups of the day's joined sales, non-increasing by the summed profit column, and no group left out ranks higher |
| Reports.Summarize | app.py:252-280 | the report is for the requested date, and each ranking has at most 5 rows |
| Reports.NoSalesEmptyReport | app.py:257-270 | a date without sales gives totals of 0 and empty rankings |
| Reports.LowStock | app.py:229 | low_stock holds exactly the inventory rows with fewer than 5 units, unchanged |
| Reports.DashboardProfitMisses | app.py:216 | as written: the dashboard's total_profit for a day with one sale of 3 units at a profit of 5 is 5, while the day's profit is 15 |
| Reports.DashboardOf | app.py:215-240 | the dashboard's rankings have at most 5 rows, and its total_profit is the day's joined profit |
| Layout.DrawRows | app.py:327-329 | each row is drawn at x = 100, 20 below the previous one, in the order given; y ends one line height per row lower, and the page stays strictly descending |
| Layout.Render | app.py:303-352 | the page drawn is `Page` of the six arguments; y strictly decreases in draw order, and every string lies between the top line at 750 and 540 − 20 × (number of rows) |
| Layout.PageHeader | app.py:309-324 | the page has 8 strings plus one per row, and its first six are the title and date at x = 200, y = 750 and 730, then Summary, the two totals and the top-selling heading at x = 100, y = 700, 680, 660 and 620 |
| Layout.PageTopSelling | app.py:325-329 | top-selling row k is drawn at y = 600 − 20k, in the order given |
| Layout.PageLeastSelling | app.py:331-338 | the least-selling heading sits 20 below the running y after the top-selling rows, and its rows start 40 below it, 20 apart, in the order given |
| Layout.PageTopPerformance | app.py:340-347 | the top-performance heading sits 20 below the running y after the least-selling rows, and its rows start 40 below it, 20 apart, in the order given |
| Layout.RenderSummary | app.py:293-294 | the PDF drawn is the page of the report of date d, with that report's date, totals and three rankings; it has between 8 and 23 strings, strictly descending, all between y = 240 and y = 750 |
| Daily.SalesForDated | app.py:186-192 | a checkout's sale rows all carry its date, and sum to the units requested and the prices charged |
| Daily.CheckoutCountsInReport | app.py:257 | after a successful checkout, total_items_sold for its date grows by the units requested, and for other dates stays the same |
| Daily.CheckoutRevenueOnDashboard | app.py:215 | after a successful checkout, total_sales for its date grows by what the lines were charged, and for other dates stays the same |
| Daily.CheckoutProfitInReport | app.py:258-260 | after a successful checkout, total_profit for its date grows by the units times each product's stored profit, and for other dates stays the same |
| Daily.EarnedIsMargin | app.py:92 | where each stored profit is its selling price less its cost price, the profit column of a checkout's lines is what they are charged less what their units cost |
| Daily.StoreItemsSold | app.py:257 | between two requests, total_items_sold of the store's ledger is never negative, and it is 0 exactly on a date without sales |
| Daily.StoreCheckoutMargin | app.py:258-260 | between two requests, a successful checkout raises the report's total_profit for its date by what it is charged less what its units cost |
| Daily.OneSaleGroup | app.py:262-265 | a single sale row forms one group with its name and units |
| Daily.OneRowPerformance | app.py:272-280 | a single joined row forms one performance group with its units, revenue and profit |
| Daily.PenDayReport | app.py:252-280 | the report of a day whose only sale is 3 pens at 15 is 3 units, profit 15, the pen first in both rankings, and 45 of revenue |
| Daily.OneCheckoutReport | app.py:156-280 | one checkout of 3 pens, followed by the report of that day, gives the same figures |

## Left out

- Flask routing, login, register, the session login check and the HTML templates are not modelled. They are plumbing around the core.
- The GET branches of the views are not modelled. They only read.
- The `/sales` listing view is not part of this model.
- SQLAlchemy is not modelled. Autoflush, session teardown and SQL text are represented only by the committed and pending parts of the state.
- Concurrent requests are not modelled. Each request is run on its own.
- Store.Store.Add, Store.Store.Update: a price or quantity field that `float()` or `int()` cannot parse raises an uncaught error, and the table stays unchanged. The methods take already-parsed values.
- Checkout.Zip, Store.Store.Sell: a quantity field that does not parse is `None`. It is treated like the other rejections: the request ends and the session is rolled back.
- Floating-point prices are not modelled. Prices, totals and profits are exact integers, so rounding is not modelled.
- The `profit_margin` column of top_performance, a division that SQLite makes NULL when revenue is 0, is left out. The model keeps its numerator (`profit`) and its denominator (`revenue`).
- Number-to-text formatting of the drawn strings is left out. A drawn string is described by the values it shows. Fonts and the PDF bytes are also left out.
- Reading and parsing dates is left out: `datetime.now()`, `strptime` and the dashboard's SQLite `current_date`. The dashboard filters on UTC, while a sale records the server's local date; the model passes one date for both.
- Ranking.TopBy, Reports.TopSelling, Reports.LeastSelling, Reports.TopPerformance, Reports.TopProfitProducts: among equal totals SQL fixes no order. The contracts therefore promise no tie order, and the model's own choice is not part of them.
- Reports.DashboardProfitMisses: the cross-joined dashboard total is stated as |sales of the day| × sum of all inventory profits, and is shown on one concrete database.

## Findings

| source | as written | input that shows it | evidently intended | confidence | as-written member | corrected member |
|---|---|---|---|---|---|---|
| app.py:181-203 | each line's decrement is committed before the next line is checked, and its sale row is added afterwards, so a failing later line drops the last accepted line's sale row while its decrement stays | 20 units of P1; lines (P1, 3) then (UNKNOWN, 1): P1 ends at 17 and no sale row is recorded | a checkout that fails changes nothing, so stock plus units sold is conserved | high (not executed) | Checkout.PartialFailureLosesSale | Checkout.SellAtomicConserves |
| app.py:216 | the dashboard's total_profit selects `Inventory.profit` but filters on `Sales.date`, so it cross-joins the two tables: the number of today's sale rows times the sum of all inventory profits | one product P1 with profit 5; one sale of 3 units of P1 today: the query gives 5, the day's profit is 15 | the day's profit, as the report computes it: each sale's quantity times its product's profit, over the join on product_id | high (not executed) | Reports.DashboardProfitMisses | Reports.DashboardOf |
