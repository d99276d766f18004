/**
 * The stock ledger: one row per stock item, and the outcomes that the bulk
 * admin actions report in place of user-facing messages.
 */
module Inventory {

  type StockId = nat

  /** One stock row: on-hand quantity, weighted-average unit cost, minimum selling price. */
  datatype Stock = Stock(qty: nat, cost: real, sell: real)

  /** Why an action or a form reports an error. */
  datatype Error =
    | PermissionDenied
    | StockNotFound(id: StockId)
    | InsufficientStock(id: StockId, available: nat, requested: nat)
    | MissingAttribute(attribute: string)   // a model object read for a field it does not have

  /** The level of the message an action leaves for the operator. */
  datatype Outcome = Success | Warning | Info | Failed(error: Error)

  /** The stock table, updated in place by the bulk admin actions. */
  class Ledger {
    var stocks: map<StockId, Stock>

    constructor (rows: map<StockId, Stock>)
      ensures stocks == rows
    {
      stocks := rows;
    }
  }
}
