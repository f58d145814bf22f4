/**
 * The two tables the store keeps: Inventory (keyed by the unique product_id)
 * and Sales (an append-only ledger). Prices and totals are integers in the
 * store's minor currency unit.
 */
module Records {
  /** A calendar date; the model only ever compares dates for equality. */
  datatype Date = Date(year: int, month: int, day: int)

  /** An Inventory row without its product_id, which is the key of the map that holds it. */
  datatype Item = Item(name: string, costPrice: int, sellingPrice: int, profit: int, quantity: int)

  /**
   * A Sales row. productName is a snapshot of the product's name when it was
   * sold, so that the row survives a later rename or deletion of the product.
   */
  datatype Sale = Sale(productId: string, productName: string, quantity: int, totalPrice: int, date: Date)

  /** The Inventory table: product_id is unique, so it is the key of a map. */
  type Inventory = map<string, Item>

  /** The stored profit is the difference of the two stored prices. */
  predicate ProfitConsistent(item: Item)
  {
    item.profit == item.sellingPrice - item.costPrice
  }
}
