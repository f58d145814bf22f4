/**
 * The database as the views change it: the Inventory table, the committed
 * Sales ledger, and the sale rows added to the session but not yet committed.
 * Every request starts and ends with nothing pending.
 */
module Store {
  import opened Wrappers
  import opened Records
  import Checkout

  class Store {
    var inventory: Inventory
    var ledger: seq<Sale>
    var pending: seq<Sale>

    /** Every stored profit matches its prices and every sale row, committed or pending, sold at least one unit. */
    ghost predicate Consistent()
      reads this
    {
      && (forall p :: p in inventory ==> ProfitConsistent(inventory[p]))
      && (forall i :: 0 <= i < |ledger| ==> ledger[i].quantity > 0)
      && (forall i :: 0 <= i < |pending| ==> pending[i].quantity > 0)
    }

    /** The state between two requests. */
    ghost predicate Valid()
      reads this
    {
      Consistent() && pending == []
    }

    constructor ()
      ensures Valid()
      ensures inventory == map[] && ledger == []
    {
      inventory, ledger, pending := map[], [], [];
    }

    /** db.session.commit(): the pending sale rows join the ledger. */
    method Commit()
      requires Consistent()
      modifies this
      ensures Valid()
      ensures inventory == old(inventory) && ledger == old(ledger) + old(pending)
      ensures Checkout.Db(inventory, ledger, pending) == Checkout.Commit(Checkout.Db(old(inventory), old(ledger), old(pending)))
    {
      ledger := ledger + pending;
      pending := [];
    }

    /** db.session.rollback(), or the session discarded at the end of the request. */
    method Rollback()
      requires Consistent()
      modifies this
      ensures Valid()
      ensures inventory == old(inventory) && ledger == old(ledger)
      ensures Checkout.Db(inventory, ledger, pending) == Checkout.Rollback(Checkout.Db(old(inventory), old(ledger), old(pending)))
    {
      pending := [];
    }

    /**
     * The Add action of the inventory view. An existing product_id leaves the
     * table as it was; otherwise one row is inserted with profit computed
     * from the two prices.
     */
    method Add(productId: string, name: string, costPrice: int, sellingPrice: int, quantity: int) returns (added: bool)
      requires Valid()
      modifies this
      ensures Valid()
      ensures added <==> productId !in old(inventory)
      ensures inventory == if added
                           then old(inventory)[productId := Item(name, costPrice, sellingPrice, sellingPrice - costPrice, quantity)]
                           else old(inventory)
      ensures ledger == old(ledger)
    {
      var profit := sellingPrice - costPrice;
      if productId in inventory {
        added := false;
      } else {
        inventory := inventory[productId := Item(name, costPrice, sellingPrice, profit, quantity)];
        Commit();
        added := true;
      }
    }

    /** The Delete action: removes the row with that product_id, if there is one, and nothing else. */
    method Delete(productId: string) returns (deleted: bool)
      requires Valid()
      modifies this
      ensures Valid()
      ensures deleted <==> productId in old(inventory)
      ensures inventory == old(inventory) - {productId}
      ensures ledger == old(ledger)
    {
      if productId in inventory {
        inventory := inventory - {productId};
        Commit();
        deleted := true;
      } else {
        deleted := false;
      }
    }

    /** The Update action: sets the quantity of the row with that product_id, if there is one, and nothing else. */
    method Update(productId: string, newQuantity: int) returns (updated: bool)
      requires Valid()
      modifies this
      ensures Valid()
      ensures updated <==> productId in old(inventory)
      ensures inventory == if updated
                           then old(inventory)[productId := old(inventory)[productId].(quantity := newQuantity)]
                           else old(inventory)
      ensures ledger == old(ledger)
    {
      if productId in inventory {
        var item := inventory[productId];
        inventory := inventory[productId := item.(quantity := newQuantity)];
        Commit();
        updated := true;
      } else {
        updated := false;
      }
    }

    /**
     * The /sell view's POST: walk the zip-paired lines, check each, decrement
     * and commit, then add its sale row to the session; commit once more at the
     * end. A rejected line ends the request and the session is discarded.
     */
    method Sell(productIds: seq<string>, quantities: seq<Option<int>>, today: Date)
      returns (r: Result<seq<Checkout.Receipt>, Checkout.SellError>)
      requires Valid()
      modifies this
      ensures Valid()
      ensures var o := Checkout.Sell(old(inventory), old(ledger), Checkout.Zip(productIds, quantities), today);
        inventory == o.db.inventory && ledger == o.db.ledger && r == o.result
    {
      var lines := Checkout.Zip(productIds, quantities);
      ghost var goal := Checkout.Sell(inventory, ledger, lines, today);
      var receipts: seq<Checkout.Receipt> := [];
      var i := 0;
      while i < |lines|
        invariant 0 <= i <= |lines|
        invariant Consistent()
        invariant Checkout.Run(Checkout.Db(inventory, ledger, pending), lines[i..], today, receipts) == goal
      {
        var line := lines[i];
        ghost var db := Checkout.Db(inventory, ledger, pending);
        assert lines[i..][0] == line && lines[i..][1..] == lines[i + 1..];
        if line.quantity.None? {
          Checkout.RunRejected(db, lines[i..], today, receipts);
          Rollback();
          return Err(Checkout.NotANumber);
        }
        var quantity := line.quantity.value;
        if quantity <= 0 {
          Checkout.RunRejected(db, lines[i..], today, receipts);
          Rollback();
          return Err(Checkout.InvalidQuantity);
        }
        if line.productId !in inventory {
          Checkout.RunRejected(db, lines[i..], today, receipts);
          Rollback();
          return Err(Checkout.ProductNotFound(line.productId));
        }
        var item := inventory[line.productId];
        if item.quantity < quantity {
          Checkout.RunRejected(db, lines[i..], today, receipts);
          Rollback();
          return Err(Checkout.InsufficientStock(item.name, item.quantity));
        }
        Checkout.RunAccepted(db, lines[i..], today, receipts);
        var totalPrice := item.sellingPrice * quantity;
        inventory := inventory[line.productId := item.(quantity := item.quantity - quantity)];
        Commit();
        var sale := Sale(line.productId, item.name, quantity, totalPrice, today);
        assert sale == Checkout.SaleOf(db.inventory, line, today);
        assert inventory == Checkout.Take(db.inventory, line);
        pending := pending + [sale];
        assert Checkout.Db(inventory, ledger, pending)
               == Checkout.Db(Checkout.Take(db.inventory, line), db.ledger + db.pending, [sale]);
        assert Checkout.Receipt(item.name, quantity, totalPrice) == Checkout.ReceiptOf(sale);
        receipts := receipts + [Checkout.Receipt(item.name, quantity, totalPrice)];
        i := i + 1;
      }
      Commit();
      r := Ok(receipts);
    }
  }

}
