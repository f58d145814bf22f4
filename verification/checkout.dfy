/**
 * The checkout of the /sell view as a function of the database state.
 *
 * The view walks the zip-paired form lines one by one. A line is rejected, in
 * this order, when its quantity field does not parse as an integer, when the
 * quantity is not positive, when the product_id is unknown and when the stock
 * is short. An accepted line decrements the stock and COMMITS at once, and only
 * then adds its sale row to the session. So each commit also makes the
 * previous line's sale row durable, and a failure (a validation return, which
 * ends the request and discards the session, or the except branch, which rolls
 * it back) drops only the sale row of the last accepted line: the checkout is
 * not all-or-nothing.
 */
module Checkout {
  import opened Wrappers
  import opened Records

  /** One zip-paired form line; quantity is None when int() cannot parse the field. */
  datatype Line = Line(productId: string, quantity: Option<int>)

  datatype SellError =
    | NotANumber                                        // int() raised; the except branch rolls back
    | InvalidQuantity                                   // quantity <= 0
    | ProductNotFound(productId: string)
    | InsufficientStock(productName: string, available: int)

  /** One entry of the result list shown to the cashier. */
  datatype Receipt = Receipt(productName: string, quantity: int, totalPrice: int)

  /** What the database session sees: committed inventory and ledger, and sale rows added but not committed. */
  datatype Db = Db(inventory: Inventory, ledger: seq<Sale>, pending: seq<Sale>)

  /** The state a request leaves behind, and its answer. */
  datatype Outcome = Outcome(db: Db, result: Result<seq<Receipt>, SellError>)

  /** Python's zip: the shorter of the two form lists decides how many lines there are. */
  function Zip(ids: seq<string>, quantities: seq<Option<int>>): (lines: seq<Line>)
    ensures |lines| == if |ids| <= |quantities| then |ids| else |quantities|
    ensures forall i :: 0 <= i < |lines| ==> lines[i] == Line(ids[i], quantities[i])
  {
    if ids == [] || quantities == [] then []
    else [Line(ids[0], quantities[0])] + Zip(ids[1..], quantities[1..])
  }

  /** The line parses, is positive, names a known product and does not exceed its stock. */
  predicate Accepts(inv: Inventory, line: Line)
  {
    && line.quantity.Some?
    && line.quantity.value > 0
    && line.productId in inv
    && inv[line.productId].quantity >= line.quantity.value
  }

  /** The checks of one line, in the order the view makes them; Ok carries the quantity. */
  function CheckLine(inv: Inventory, line: Line): (r: Result<int, SellError>)
    ensures r.Ok? <==> Accepts(inv, line)
    ensures r.Ok? ==> r.value == line.quantity.value
    ensures line.quantity.None? ==> r == Err(NotANumber)
    ensures line.quantity.Some? && line.quantity.value <= 0 ==> r == Err(InvalidQuantity)
    ensures line.quantity.Some? && line.quantity.value > 0 && line.productId !in inv
            ==> r == Err(ProductNotFound(line.productId))
    ensures line.quantity.Some? && line.quantity.value > 0 && line.productId in inv
            && inv[line.productId].quantity < line.quantity.value
            ==> r == Err(InsufficientStock(inv[line.productId].name, inv[line.productId].quantity))
  {
    match line.quantity
    case None => Err(NotANumber)
    case Some(q) =>
      if q <= 0 then Err(InvalidQuantity)
      else if line.productId !in inv then Err(ProductNotFound(line.productId))
      else if inv[line.productId].quantity < q then
        Err(InsufficientStock(inv[line.productId].name, inv[line.productId].quantity))
      else Ok(q)
  }

  /** db.session.commit(): pending sale rows become part of the ledger. */
  function Commit(db: Db): Db
  {
    Db(db.inventory, db.ledger + db.pending, [])
  }

  /** db.session.rollback(), or the end of the request: pending sale rows are dropped. */
  function Rollback(db: Db): Db
  {
    Db(db.inventory, db.ledger, [])
  }

  /** The inventory after an accepted line's decrement. */
  function Take(inv: Inventory, line: Line): Inventory
    requires Accepts(inv, line)
  {
    var item := inv[line.productId];
    inv[line.productId := item.(quantity := item.quantity - line.quantity.value)]
  }

  /** The sale row an accepted line records, priced and named from inv. */
  function SaleOf(inv: Inventory, line: Line, today: Date): Sale
    requires line.productId in inv && line.quantity.Some?
  {
    var item := inv[line.productId];
    Sale(line.productId, item.name, line.quantity.value, item.sellingPrice * line.quantity.value, today)
  }

  function ReceiptOf(sale: Sale): Receipt
  {
    Receipt(sale.productName, sale.quantity, sale.totalPrice)
  }

  /**
   * The loop of the view from line lines[0] on, with the receipts so far in
   * done: check, decrement, commit, add the sale row to the session.
   */
  function Run(db: Db, lines: seq<Line>, today: Date, done: seq<Receipt>): Outcome
    decreases |lines|
  {
    if lines == [] then Outcome(Commit(db), Ok(done))
    else
      match CheckLine(db.inventory, lines[0])
      case Err(e) => Outcome(Rollback(db), Err(e))
      case Ok(q) =>
        var sale := SaleOf(db.inventory, lines[0], today);
        var committed := Commit(db.(inventory := Take(db.inventory, lines[0])));
        Run(committed.(pending := [sale]), lines[1..], today, done + [ReceiptOf(sale)])
  }

  /** A checkout request, starting from a session with nothing pending. */
  function Sell(inv: Inventory, ledger: seq<Sale>, lines: seq<Line>, today: Date): Outcome
  {
    Run(Db(inv, ledger, []), lines, today, [])
  }

  // ---------------------------------------------------------------------------
  // A reference description of a checkout, independent of the loop

  /** Every line parses, is positive and names a known product. */
  predicate WellFormed(inv: Inventory, lines: seq<Line>)
  {
    forall i :: 0 <= i < |lines| ==>
      lines[i].quantity.Some? && lines[i].quantity.value > 0 && lines[i].productId in inv
  }

  /** The units the lines request of product p, over all lines that name it. */
  function Demand(lines: seq<Line>, p: string): int
  {
    if lines == [] then 0
    else
      (if lines[0].productId == p && lines[0].quantity.Some? then lines[0].quantity.value else 0)
      + Demand(lines[1..], p)
  }

  /** Every line is well formed and no product is asked for more units in all than it has in stock. */
  predicate Feasible(inv: Inventory, lines: seq<Line>)
  {
    && WellFormed(inv, lines)
    && forall i :: 0 <= i < |lines| ==> Demand(lines, lines[i].productId) <= inv[lines[i].productId].quantity
  }

  /** The inventory with every product's demand subtracted from its stock. */
  function Deduct(inv: Inventory, lines: seq<Line>): (r: Inventory)
    ensures r.Keys == inv.Keys
  {
    map p | p in inv :: inv[p].(quantity := inv[p].quantity - Demand(lines, p))
  }

  /** The sale rows of the lines, one per line in line order, priced and named from inv. */
  function SalesFor(inv: Inventory, lines: seq<Line>, today: Date): (r: seq<Sale>)
    requires WellFormed(inv, lines)
    ensures |r| == |lines|
  {
    if lines == [] then []
    else [SaleOf(inv, lines[0], today)] + SalesFor(inv, lines[1..], today)
  }

  function Receipts(sales: seq<Sale>): (r: seq<Receipt>)
    ensures |r| == |sales|
    ensures forall i :: 0 <= i < |sales| ==>
      r[i] == Receipt(sales[i].productName, sales[i].quantity, sales[i].totalPrice)
  {
    if sales == [] then [] else [ReceiptOf(sales[0])] + Receipts(sales[1..])
  }

  /** Two inventories that differ at most in stock quantities. */
  predicate SameCatalogue(inv: Inventory, inv': Inventory)
  {
    && inv.Keys == inv'.Keys
    && forall p :: p in inv ==> inv[p].name == inv'[p].name && inv[p].sellingPrice == inv'[p].sellingPrice
  }

  // ---------------------------------------------------------------------------
  // Helper facts about Demand, Deduct and SalesFor

  lemma {:induction false} DemandNonNegative(inv: Inventory, lines: seq<Line>, p: string)
    requires WellFormed(inv, lines)
    ensures Demand(lines, p) >= 0
  {
    if lines != [] {
      DemandNonNegative(inv, lines[1..], p);
    }
  }

  lemma {:induction false} DemandAbsent(lines: seq<Line>, p: string)
    requires forall i :: 0 <= i < |lines| ==> lines[i].productId != p
    ensures Demand(lines, p) == 0
  {
    if lines != [] {
      DemandAbsent(lines[1..], p);
    }
  }

  lemma DeductNothing(inv: Inventory)
    ensures Deduct(inv, []) == inv
  {
    forall p | p in inv ensures Deduct(inv, [])[p] == inv[p] {
    }
  }

  /** Deducting the first line and then the rest is deducting them all. */
  lemma DeductStep(inv: Inventory, lines: seq<Line>)
    requires lines != [] && Accepts(inv, lines[0])
    ensures Deduct(Take(inv, lines[0]), lines[1..]) == Deduct(inv, lines)
  {
    var a := Deduct(Take(inv, lines[0]), lines[1..]);
    var b := Deduct(inv, lines);
    forall p | p in inv ensures a[p] == b[p] {
    }
  }

  /** Sale row i belongs to line i, with the product's name and price in inv. */
  lemma {:induction false} SalesForAt(inv: Inventory, lines: seq<Line>, today: Date, i: nat)
    requires WellFormed(inv, lines) && i < |lines|
    ensures var item := inv[lines[i].productId];
      var q := lines[i].quantity.value;
      SalesFor(inv, lines, today)[i] == Sale(lines[i].productId, item.name, q, item.sellingPrice * q, today)
  {
    if i > 0 {
      SalesForAt(inv, lines[1..], today, i - 1);
    }
  }

  lemma {:induction false} SalesForSameCatalogue(inv: Inventory, inv': Inventory, lines: seq<Line>, today: Date)
    requires SameCatalogue(inv, inv') && WellFormed(inv, lines)
    ensures WellFormed(inv', lines)
    ensures SalesFor(inv, lines, today) == SalesFor(inv', lines, today)
  {
    if lines != [] {
      SalesForSameCatalogue(inv, inv', lines[1..], today);
    }
  }

  /** A line list is feasible exactly when its first line is accepted and the rest is feasible after it. */
  lemma FeasibleStep(inv: Inventory, lines: seq<Line>)
    requires lines != []
    ensures Feasible(inv, lines) <==> Accepts(inv, lines[0]) && Feasible(Take(inv, lines[0]), lines[1..])
  {
    var l0, rest := lines[0], lines[1..];
    var p0 := l0.productId;
    if Feasible(inv, lines) {
      DemandNonNegative(inv, rest, p0);
      assert Demand(lines, p0) <= inv[p0].quantity;
      assert Accepts(inv, l0);
      var inv1 := Take(inv, l0);
      forall j | 0 <= j < |rest| ensures Demand(rest, rest[j].productId) <= inv1[rest[j].productId].quantity {
        assert rest[j] == lines[j + 1];
        assert Demand(lines, lines[j + 1].productId) <= inv[lines[j + 1].productId].quantity;
      }
      assert WellFormed(inv1, rest) by {
        forall j | 0 <= j < |rest| ensures rest[j].quantity.Some? && rest[j].quantity.value > 0 && rest[j].productId in inv1 {
          assert rest[j] == lines[j + 1];
        }
      }
    }
    if Accepts(inv, l0) && Feasible(Take(inv, l0), rest) {
      var inv1 := Take(inv, l0);
      assert WellFormed(inv, lines) by {
        forall i | 0 <= i < |lines| ensures lines[i].quantity.Some? && lines[i].quantity.value > 0 && lines[i].productId in inv {
          if i > 0 {
            assert lines[i] == rest[i - 1];
          }
        }
      }
      forall i | 0 <= i < |lines| ensures Demand(lines, lines[i].productId) <= inv[lines[i].productId].quantity {
        var p := lines[i].productId;
        if p == p0 {
          if j :| 0 <= j < |rest| && rest[j].productId == p0 {
            assert Demand(rest, rest[j].productId) <= inv1[rest[j].productId].quantity;
          } else {
            DemandAbsent(rest, p0);
          }
        } else {
          assert lines[i] == rest[i - 1];
          assert Demand(rest, rest[i - 1].productId) <= inv1[rest[i - 1].productId].quantity;
        }
      }
    }
  }

  // ---------------------------------------------------------------------------
  // What the loop does, for any starting session

  /** One accepted line: the loop goes on from the committed session holding that line's sale row. */
  lemma RunAccepted(db: Db, lines: seq<Line>, today: Date, done: seq<Receipt>)
    requires lines != [] && Accepts(db.inventory, lines[0])
    ensures var sale := SaleOf(db.inventory, lines[0], today);
      Run(db, lines, today, done)
      == Run(Db(Take(db.inventory, lines[0]), db.ledger + db.pending, [sale]), lines[1..], today, done + [ReceiptOf(sale)])
  {
  }

  /** A rejected line ends the loop: the session is discarded and its error is the answer. */
  lemma RunRejected(db: Db, lines: seq<Line>, today: Date, done: seq<Receipt>)
    requires lines != [] && CheckLine(db.inventory, lines[0]).Err?
    ensures Run(db, lines, today, done) == Outcome(Rollback(db), Err(CheckLine(db.inventory, lines[0]).error))
  {
  }

  /** The loop always ends with nothing pending and the same products, and succeeds exactly on feasible lines. */
  lemma {:induction false} RunSucceedsIff(db: Db, lines: seq<Line>, today: Date, done: seq<Receipt>)
    ensures var o := Run(db, lines, today, done);
      && o.db.pending == []
      && o.db.inventory.Keys == db.inventory.Keys
      && (o.result.Ok? <==> Feasible(db.inventory, lines))
    decreases |lines|
  {
    if lines != [] {
      FeasibleStep(db.inventory, lines);
      if Accepts(db.inventory, lines[0]) {
        var sale := SaleOf(db.inventory, lines[0], today);
        RunAccepted(db, lines, today, done);
        RunSucceedsIff(Db(Take(db.inventory, lines[0]), db.ledger + db.pending, [sale]), lines[1..], today, done + [ReceiptOf(sale)]);
      }
    }
  }

  /** A successful run commits the reference description: demand deducted, one sale row per line. */
  lemma {:induction false} RunSuccess(db: Db, lines: seq<Line>, today: Date, done: seq<Receipt>)
    requires Feasible(db.inventory, lines)
    ensures Run(db, lines, today, done).db.inventory == Deduct(db.inventory, lines)
    ensures Run(db, lines, today, done).db.ledger == db.ledger + db.pending + SalesFor(db.inventory, lines, today)
    decreases |lines|
  {
    var inv := db.inventory;
    if lines == [] {
      DeductNothing(inv);
      assert db.ledger + db.pending + [] == db.ledger + db.pending;
    } else {
      FeasibleStep(inv, lines);
      var sale := SaleOf(inv, lines[0], today);
      var inv1 := Take(inv, lines[0]);
      var db1 := Db(inv1, db.ledger + db.pending, [sale]);
      RunAccepted(db, lines, today, done);
      RunSuccess(db1, lines[1..], today, done + [ReceiptOf(sale)]);
      DeductStep(inv, lines);
      assert SameCatalogue(inv1, inv);
      SalesForSameCatalogue(inv1, inv, lines[1..], today);
      var tail := SalesFor(inv, lines[1..], today);
      assert SalesFor(inv, lines, today) == [sale] + tail;
      assert db1.ledger + db1.pending + tail == db.ledger + db.pending + ([sale] + tail);
    }
  }

  /** A successful run answers one receipt per line, in line order. */
  lemma {:induction false} RunReceipts(db: Db, lines: seq<Line>, today: Date, done: seq<Receipt>)
    requires Feasible(db.inventory, lines)
    ensures Run(db, lines, today, done).result == Ok(done + Receipts(SalesFor(db.inventory, lines, today)))
    decreases |lines|
  {
    var inv := db.inventory;
    if lines == [] {
      assert done + [] == done;
    } else {
      FeasibleStep(inv, lines);
      var sale := SaleOf(inv, lines[0], today);
      var inv1 := Take(inv, lines[0]);
      var done1 := done + [ReceiptOf(sale)];
      RunAccepted(db, lines, today, done);
      RunReceipts(Db(inv1, db.ledger + db.pending, [sale]), lines[1..], today, done1);
      assert SameCatalogue(inv1, inv);
      SalesForSameCatalogue(inv1, inv, lines[1..], today);
      var tail := SalesFor(inv, lines[1..], today);
      assert SalesFor(inv, lines, today) == [sale] + tail;
      assert ([sale] + tail)[1..] == tail;
      assert Receipts([sale] + tail) == [ReceiptOf(sale)] + Receipts(tail);
      assert done1 + Receipts(tail) == done + Receipts([sale] + tail);
    }
  }

  /** What a run that fails at line k leaves behind. */
  predicate FailedAt(db: Db, lines: seq<Line>, today: Date, o: Outcome, k: nat)
  {
    && k < |lines|
    && Feasible(db.inventory, lines[..k])
    && o.result.Err?
    && CheckLine(Deduct(db.inventory, lines[..k]), lines[k]) == Err(o.result.error)
    && o.db.inventory == Deduct(db.inventory, lines[..k])
    && o.db.ledger == (if k == 0 then db.ledger
                       else db.ledger + db.pending + SalesFor(db.inventory, lines[..k], today)[..k - 1])
  }

  /**
   * Failing at line k after an accepted first line is failing at line k + 1
   * from the state before it.
   */
  lemma FailedAtStep(db: Db, lines: seq<Line>, today: Date, o: Outcome, k': nat)
    requires lines != [] && Accepts(db.inventory, lines[0])
    requires FailedAt(Db(Take(db.inventory, lines[0]), db.ledger + db.pending, [SaleOf(db.inventory, lines[0], today)]),
                      lines[1..], today, o, k')
    ensures FailedAt(db, lines, today, o, k' + 1)
  {
    var inv, l0, rest := db.inventory, lines[0], lines[1..];
    var sale := SaleOf(inv, l0, today);
    var inv1 := Take(inv, l0);
    var k := k' + 1;
    var pre := lines[..k];
    assert pre[0] == l0 && pre[1..] == rest[..k'];
    FeasibleStep(inv, pre);
    DeductStep(inv, pre);
    assert lines[k] == rest[k'];
    assert SameCatalogue(inv, inv1);
    SalesForSameCatalogue(inv1, inv, rest[..k'], today);
    var tail := SalesFor(inv, rest[..k'], today);
    assert SalesFor(inv, pre, today) == [sale] + tail;
    var base := db.ledger + db.pending;
    if k' == 0 {
      assert o.db.ledger == base;
      assert SalesFor(inv, pre, today)[..k - 1] == [];
      assert o.db.ledger == base + SalesFor(inv, pre, today)[..k - 1];
    } else {
      assert o.db.ledger == base + [sale] + tail[..k' - 1];
      assert SalesFor(inv, pre, today)[..k - 1] == [sale] + tail[..k' - 1];
      assert base + [sale] + tail[..k' - 1] == base + ([sale] + tail[..k' - 1]);
    }
  }

  /**
   * A run that fails does so at some line k: the first k lines were accepted,
   * their decrements are committed, and all their sale rows but the last are
   * committed; the last one is dropped with the session.
   */
  lemma {:induction false} RunFailure(db: Db, lines: seq<Line>, today: Date, done: seq<Receipt>)
    requires Run(db, lines, today, done).result.Err?
    ensures exists k: nat :: FailedAt(db, lines, today, Run(db, lines, today, done), k)
    decreases |lines|
  {
    var inv := db.inventory;
    var o := Run(db, lines, today, done);
    assert lines != [];
    if !Accepts(inv, lines[0]) {
      assert lines[..0] == [];
      DeductNothing(inv);
      assert FailedAt(db, lines, today, o, 0);
    } else {
      var sale := SaleOf(inv, lines[0], today);
      var db1 := Db(Take(inv, lines[0]), db.ledger + db.pending, [sale]);
      RunAccepted(db, lines, today, done);
      RunFailure(db1, lines[1..], today, done + [ReceiptOf(sale)]);
      var k': nat :| FailedAt(db1, lines[1..], today, o, k');
      FailedAtStep(db, lines, today, o, k');
    }
  }

  // ---------------------------------------------------------------------------
  // What a checkout request does

  /** A checkout succeeds exactly when every line is well formed and no product is over-asked in total. */
  lemma SellSucceedsIff(inv: Inventory, ledger: seq<Sale>, lines: seq<Line>, today: Date)
    ensures var o := Sell(inv, ledger, lines, today);
      && o.db.pending == []
      && o.db.inventory.Keys == inv.Keys
      && (o.result.Ok? <==> Feasible(inv, lines))
  {
    RunSucceedsIff(Db(inv, ledger, []), lines, today, []);
  }

  /**
   * A successful checkout subtracts each product's total demand from its stock
   * and nothing else, appends one sale row per line in line order, and answers
   * one receipt per line in line order.
   */
  lemma SellSuccess(inv: Inventory, ledger: seq<Sale>, lines: seq<Line>, today: Date)
    requires Feasible(inv, lines)
    ensures var o := Sell(inv, ledger, lines, today);
      && o.db.inventory == Deduct(inv, lines)
      && o.db.ledger == ledger + SalesFor(inv, lines, today)
      && o.result == Ok(Receipts(SalesFor(inv, lines, today)))
  {
    var db := Db(inv, ledger, []);
    RunSuccess(db, lines, today, []);
    RunReceipts(db, lines, today, []);
    assert ledger + [] == ledger;
    assert [] + Receipts(SalesFor(inv, lines, today)) == Receipts(SalesFor(inv, lines, today));
  }

  /**
   * A checkout that fails at line k has accepted lines 0..k-1: their stock
   * decrements are committed and so are their sale rows, except the last one,
   * which was still pending when line k failed.
   */
  lemma SellFailure(inv: Inventory, ledger: seq<Sale>, lines: seq<Line>, today: Date)
    requires Sell(inv, ledger, lines, today).result.Err?
    ensures var o := Sell(inv, ledger, lines, today);
      exists k: nat :: k < |lines|
        && Feasible(inv, lines[..k])
        && CheckLine(Deduct(inv, lines[..k]), lines[k]) == Err(o.result.error)
        && o.db.inventory == Deduct(inv, lines[..k])
        && o.db.ledger == ledger + SalesFor(inv, lines[..k], today)[..if k == 0 then 0 else k - 1]
  {
    var db := Db(inv, ledger, []);
    var o := Sell(inv, ledger, lines, today);
    RunFailure(db, lines, today, []);
    var k: nat :| FailedAt(db, lines, today, o, k);
    var kept := SalesFor(inv, lines[..k], today)[..if k == 0 then 0 else k - 1];
    if k == 0 {
      assert ledger + kept == ledger;
    } else {
      assert ledger + [] + kept == ledger + kept;
    }
    assert o.db.ledger == ledger + kept;
    assert o.db.inventory == Deduct(inv, lines[..k]);
  }

  /** Deducting feasible lines never lowers a stock below zero and never raises one. */
  lemma DeductFeasible(inv: Inventory, lines: seq<Line>, p: string)
    requires Feasible(inv, lines) && p in inv
    ensures Deduct(inv, lines)[p].quantity <= inv[p].quantity
    ensures Deduct(inv, lines)[p].quantity < inv[p].quantity ==> Deduct(inv, lines)[p].quantity >= 0
  {
    DemandNonNegative(inv, lines, p);
    if i :| 0 <= i < |lines| && lines[i].productId == p {
    } else {
      DemandAbsent(lines, p);
    }
  }

  /**
   * No checkout, successful or not, oversells: a stock it lowers stays at or
   * above zero, and no stock rises.
   */
  lemma SellNeverOversells(inv: Inventory, ledger: seq<Sale>, lines: seq<Line>, today: Date, p: string)
    requires p in inv
    ensures var o := Sell(inv, ledger, lines, today);
      && p in o.db.inventory
      && o.db.inventory[p].quantity <= inv[p].quantity
      && (o.db.inventory[p].quantity < inv[p].quantity ==> o.db.inventory[p].quantity >= 0)
  {
    SellSucceedsIff(inv, ledger, lines, today);
    var o := Sell(inv, ledger, lines, today);
    if o.result.Ok? {
      SellSuccess(inv, ledger, lines, today);
      DeductFeasible(inv, lines, p);
    } else {
      SellFailure(inv, ledger, lines, today);
      var k: nat :| k < |lines| && Feasible(inv, lines[..k]) && o.db.inventory == Deduct(inv, lines[..k]);
      DeductFeasible(inv, lines[..k], p);
    }
  }

  // ---------------------------------------------------------------------------
  // Conservation of units between stock and ledger

  /** The units of product p the ledger records as sold. */
  function Sold(ledger: seq<Sale>, p: string): int
  {
    if ledger == [] then 0
    else (if ledger[0].productId == p then ledger[0].quantity else 0) + Sold(ledger[1..], p)
  }

  lemma {:induction false} SoldAppend(a: seq<Sale>, b: seq<Sale>, p: string)
    ensures Sold(a + b, p) == Sold(a, p) + Sold(b, p)
  {
    if a == [] {
      assert a + b == b;
    } else {
      assert (a + b)[1..] == a[1..] + b;
      SoldAppend(a[1..], b, p);
    }
  }

  /** The sale rows of the lines record exactly the units the lines ask for. */
  lemma {:induction false} SoldSalesFor(inv: Inventory, lines: seq<Line>, today: Date, p: string)
    requires WellFormed(inv, lines)
    ensures Sold(SalesFor(inv, lines, today), p) == Demand(lines, p)
  {
    if lines != [] {
      SoldSalesFor(inv, lines[1..], today, p);
    }
  }

  /** Units in stock plus units recorded as sold, for product p. */
  function Units(db: Db, p: string): int
    requires p in db.inventory
  {
    db.inventory[p].quantity + Sold(db.ledger, p)
  }

  /** A successful checkout moves units from stock to the ledger and loses none. */
  lemma SellSuccessConserves(inv: Inventory, ledger: seq<Sale>, lines: seq<Line>, today: Date, p: string)
    requires p in inv
    requires Sell(inv, ledger, lines, today).result.Ok?
    ensures p in Sell(inv, ledger, lines, today).db.inventory
    ensures Units(Sell(inv, ledger, lines, today).db, p) == Units(Db(inv, ledger, []), p)
  {
    SellSucceedsIff(inv, ledger, lines, today);
    SellSuccess(inv, ledger, lines, today);
    SoldAppend(ledger, SalesFor(inv, lines, today), p);
    SoldSalesFor(inv, lines, today, p);
  }

  /**
   * As written, a checkout that fails after an accepted line loses units: the
   * first line's decrement of P1 is committed, but its sale row was still
   * pending when the unknown product on the second line ended the request.
   */
  lemma PartialFailureLosesSale(ledger: seq<Sale>, today: Date)
    ensures var inv := map["P1" := Item("P1", 10, 15, 5, 20)];
      var o := Sell(inv, ledger, [Line("P1", Some(3)), Line("UNKNOWN", Some(1))], today);
      && o.result == Err(ProductNotFound("UNKNOWN"))
      && o.db.inventory == map["P1" := Item("P1", 10, 15, 5, 17)]
      && o.db.ledger == ledger
      && Units(o.db, "P1") == Units(Db(inv, ledger, []), "P1") - 3
  {
    var inv := map["P1" := Item("P1", 10, 15, 5, 20)];
    var lines := [Line("P1", Some(3)), Line("UNKNOWN", Some(1))];
    var sale := SaleOf(inv, lines[0], today);
    var inv1 := Take(inv, lines[0]);
    assert inv1 == map["P1" := Item("P1", 10, 15, 5, 17)];
    RunAccepted(Db(inv, ledger, []), lines, today, []);
    assert lines[1..] == [Line("UNKNOWN", Some(1))];
    assert ledger + [] == ledger;
  }

  /**
   * The all-or-nothing checkout the view evidently intends: the same checks
   * in the same order, but a failing request leaves the database as it was.
   */
  function SellAtomic(inv: Inventory, ledger: seq<Sale>, lines: seq<Line>, today: Date): Outcome
  {
    var o := Sell(inv, ledger, lines, today);
    if o.result.Ok? then o else Outcome(Db(inv, ledger, []), o.result)
  }

  /**
   * The atomic checkout is validate-then-apply: feasible lines deduct their
   * demand and append their sale rows; any other request leaves the
   * database exactly as it was and answers an error.
   */
  lemma SellAtomicValidateThenApply(inv: Inventory, ledger: seq<Sale>, lines: seq<Line>, today: Date)
    ensures var o := SellAtomic(inv, ledger, lines, today);
      if Feasible(inv, lines) then
        o == Outcome(Db(Deduct(inv, lines), ledger + SalesFor(inv, lines, today), []),
                     Ok(Receipts(SalesFor(inv, lines, today))))
      else
        o.db == Db(inv, ledger, []) && o.result.Err?
  {
    SellSucceedsIff(inv, ledger, lines, today);
    if Feasible(inv, lines) {
      SellSuccess(inv, ledger, lines, today);
    }
  }

  /**
   * The atomic checkout never loses or creates units, answers the same as the
   * written one, and changes nothing when it fails.
   */
  lemma SellAtomicConserves(inv: Inventory, ledger: seq<Sale>, lines: seq<Line>, today: Date, p: string)
    requires p in inv
    ensures var o := SellAtomic(inv, ledger, lines, today);
      && o.result == Sell(inv, ledger, lines, today).result
      && (o.result.Err? ==> o.db == Db(inv, ledger, []))
      && p in o.db.inventory
      && Units(o.db, p) == Units(Db(inv, ledger, []), p)
  {
    if Sell(inv, ledger, lines, today).result.Ok? {
      SellSuccessConserves(inv, ledger, lines, today, p);
    }
  }

  // ---------------------------------------------------------------------------
  // Worked examples

  /** Selling 3 of 20 units of P1 at 15 each: one receipt of 45, stock 17, one sale row. */
  lemma SellOneLine(ledger: seq<Sale>, today: Date)
    ensures var o := Sell(map["P1" := Item("P1", 10, 15, 5, 20)], ledger, [Line("P1", Some(3))], today);
      && o.result == Ok([Receipt("P1", 3, 45)])
      && o.db.inventory == map["P1" := Item("P1", 10, 15, 5, 17)]
      && o.db.ledger == ledger + [Sale("P1", "P1", 3, 45, today)]
  {
    var inv := map["P1" := Item("P1", 10, 15, 5, 20)];
    var lines := [Line("P1", Some(3))];
    RunAccepted(Db(inv, ledger, []), lines, today, []);
    assert lines[1..] == [];
    assert [] + [Receipt("P1", 3, 45)] == [Receipt("P1", 3, 45)];
  }

  /** Asking for 25 of 20 units fails on the stock check, reports 20 available, and changes nothing. */
  lemma SellTooMany(ledger: seq<Sale>, today: Date)
    ensures var inv := map["P1" := Item("P1", 10, 15, 5, 20)];
      var o := Sell(inv, ledger, [Line("P1", Some(25))], today);
      && o.result == Err(InsufficientStock("P1", 20))
      && o.db == Db(inv, ledger, [])
  {
  }

  /**
   * The second line for the same product is checked against the stock the
   * first line left: 15 of 20 pass, 10 of the remaining 5 fail.
   */
  lemma SellSameProductTwice(ledger: seq<Sale>, today: Date)
    ensures var o := Sell(map["P1" := Item("P1", 10, 15, 5, 20)], ledger, [Line("P1", Some(15)), Line("P1", Some(10))], today);
      && o.result == Err(InsufficientStock("P1", 5))
      && o.db.inventory == map["P1" := Item("P1", 10, 15, 5, 5)]
  {
    var inv := map["P1" := Item("P1", 10, 15, 5, 20)];
    var lines := [Line("P1", Some(15)), Line("P1", Some(10))];
    RunAccepted(Db(inv, ledger, []), lines, today, []);
    assert lines[1..] == [Line("P1", Some(10))];
  }
}
