/**
 * The two pieces of the dashboard views (dashboard/views.py) that touch the
 * ledger: the stock guard of the sale-creation form and the stock-level
 * filter of the inventory page.
 */
module Dashboard {
  import opened Common
  import opened Inventory
  import opened SalesModels
  import SalesAdmin

  /** Why the sale form refuses a sale, if it does: no such stock row, or too little on hand. */
  function SaleRefusal(stocks: map<StockId, Stock>, stockId: StockId, qty: nat): (r: Option<Error>)
    ensures r.None? <==> stockId in stocks && qty <= stocks[stockId].qty
    ensures r.Some? && stockId in stocks ==> r.value == InsufficientStock(stockId, stocks[stockId].qty, qty)
    ensures r.Some? && stockId !in stocks ==> r.value == StockNotFound(stockId)
  {
    if stockId !in stocks then Some(StockNotFound(stockId))
    else if stocks[stockId].qty < qty then Some(InsufficientStock(stockId, stocks[stockId].qty, qty))
    else None
  }

  /**
   * The sale form: looks the stock up, refuses a sale of more than it holds,
   * and otherwise creates and saves an unverified sale. The success message
   * that follows reads a `sizes` field the stock row does not have; the
   * handler catches the error and reports it, but the sale is already saved
   * (there is no transaction). The stock row is only read (the ledger is not
   * in the frame): a sale deducts nothing until it is verified.
   */
  method CreateSale(ledger: Ledger, stockId: StockId, qty: nat, price: real, now: int)
    returns (outcome: Outcome, sale: Sale?)
    ensures SaleRefusal(ledger.stocks, stockId, qty).Some? ==>
      outcome == Failed(SaleRefusal(ledger.stocks, stockId, qty).value) && sale == null
    ensures SaleRefusal(ledger.stocks, stockId, qty).None? ==>
      && outcome == Failed(MissingAttribute("sizes")) && sale != null && fresh(sale)
      && sale.stockId == stockId && sale.qtySold == qty && sale.price == price && sale.soldOn == now
      && !sale.isVerified
      && sale.Derived(Some(ledger.stocks[stockId].cost))
  {
    if stockId !in ledger.stocks {
      return Failed(StockNotFound(stockId)), null;
    }
    var stockItem := ledger.stocks[stockId];
    if stockItem.qty < qty {
      return Failed(InsufficientStock(stockId, stockItem.qty, qty)), null;
    }
    sale := new Sale(stockId, qty, price, now);
    sale.Save(Some(stockItem.cost));
    outcome := Failed(MissingAttribute("sizes"));
  }

  /**
   * A sale the form lets through would, verified on its own right away, pass
   * the oversell check of the verify action and take exactly its quantity.
   */
  lemma AcceptedSaleVerifies(stocks: map<StockId, Stock>, stockId: StockId, qty: nat)
    requires SaleRefusal(stocks, stockId, qty).None?
    ensures var lines := [SalesAdmin.SaleLine(stockId, qty, false)];
      && !SalesAdmin.MissingStock(stocks, lines)
      && SalesAdmin.PassingIds(stocks, lines) == {stockId}
      && SalesAdmin.VerifyAll(stocks, lines)[stockId].qty == stocks[stockId].qty - qty
  {
    var l := SalesAdmin.SaleLine(stockId, qty, false);
    assert [l][..0] == [];
    assert SalesAdmin.PendingIds([l]) == {stockId};
    assert SalesAdmin.Group([l], stockId) == [l];
    assert SalesAdmin.SumQty([l]) == qty;
  }

  /** Rows with at most `limit` units on hand, each as often as it occurs. */
  function AtMost(rows: seq<Stock>, limit: nat): (r: seq<Stock>)
    ensures forall s :: multiset(r)[s] == if s.qty <= limit then multiset(rows)[s] else 0
  {
    if |rows| == 0 then []
    else
      var rest := AtMost(rows[1..], limit);
      assert rows == [rows[0]] + rows[1..];
      if rows[0].qty <= limit then [rows[0]] + rest else rest
  }

  /**
   * The `stock_level` filter: "low" keeps the rows with at most 10 units,
   * "out_of_stock" the rows with none, and any other value keeps every row.
   */
  function FilterByStockLevel(rows: seq<Stock>, level: string): (r: seq<Stock>)
    ensures level == "low" ==>
      forall s :: multiset(r)[s] == if s.qty <= 10 then multiset(rows)[s] else 0
    ensures level == "out_of_stock" ==>
      forall s :: multiset(r)[s] == if s.qty == 0 then multiset(rows)[s] else 0
    ensures level != "low" && level != "out_of_stock" ==> r == rows
  {
    if level == "low" then AtMost(rows, 10)
    else if level == "out_of_stock" then AtMost(rows, 0)
    else rows
  }

  /** Every out-of-stock row is also a low-stock row. */
  lemma OutOfStockIsLow(rows: seq<Stock>)
    ensures multiset(FilterByStockLevel(rows, "out_of_stock")) <= multiset(FilterByStockLevel(rows, "low"))
  {
    var o, l := FilterByStockLevel(rows, "out_of_stock"), FilterByStockLevel(rows, "low");
    forall s
      ensures multiset(o)[s] <= multiset(l)[s]
    {
    }
  }
}
