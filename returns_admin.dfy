/**
 * The "process return and deduct inventory" bulk action
 * (purchase_returns/admin.py): returns are taken one at a time in selection
 * order, each deducting its quantity from the current (already reduced)
 * stock row; one that would take a row below zero aborts the whole batch.
 */
module ReturnsAdmin {
  import opened Common
  import opened Inventory

  /** A return of goods to the supplier (purchase_returns/models.py). */
  class PurchaseReturn {
    const stockId: StockId
    const qtyReturned: nat
    var isProcessed: bool

    /** A new return starts unprocessed. */
    constructor (stockId: StockId, qtyReturned: nat)
      ensures this.stockId == stockId && this.qtyReturned == qtyReturned && !isProcessed
    {
      this.stockId := stockId;
      this.qtyReturned := qtyReturned;
      isProcessed := false;
    }
  }

  /** What the action reads from one selected return. */
  datatype ReturnLine = ReturnLine(stockId: StockId, qty: nat, processed: bool)

  function LineOf(r: PurchaseReturn): ReturnLine
    reads r
  {
    ReturnLine(r.stockId, r.qtyReturned, r.isProcessed)
  }

  /** The selection as the action reads it; the same reading as in the other two actions. */
  function Lines(queryset: seq<PurchaseReturn>): (ls: seq<ReturnLine>)
    reads queryset
    ensures |ls| == |queryset|
    ensures forall i :: 0 <= i < |ls| ==> ls[i] == LineOf(queryset[i])
  {
    seq(|queryset|, i requires 0 <= i < |queryset| reads queryset => LineOf(queryset[i]))
  }

  /** Where a run over a prefix of the selection stands: the table so far and the count, or the error raised. */
  datatype Run =
    | Done(stocks: map<StockId, Stock>, count: nat)
    | Raised(error: Error)

  /** One return applied to the table so far. */
  function Step(stocks: map<StockId, Stock>, count: nat, r: ReturnLine): (run: Run)
    ensures run.Raised? ==> run.error.StockNotFound? || run.error.InsufficientStock?
  {
    if r.processed then Done(stocks, count)
    else if r.stockId !in stocks then Raised(StockNotFound(r.stockId))
    else if stocks[r.stockId].qty < r.qty then Raised(InsufficientStock(r.stockId, stocks[r.stockId].qty, r.qty))
    else
      var s := stocks[r.stockId];
      Done(stocks[r.stockId := Stock(s.qty - r.qty, s.cost, s.sell)], count + 1)
  }

  /** The selection applied in order, stopping at the first raise. */
  function Apply(stocks: map<StockId, Stock>, lines: seq<ReturnLine>): (run: Run)
    ensures run.Raised? ==> run.error.StockNotFound? || run.error.InsufficientStock?
  {
    if |lines| == 0 then Done(stocks, 0)
    else
      match Apply(stocks, lines[..|lines| - 1])
      case Raised(e) => Raised(e)
      case Done(st, c) => Step(st, c, lines[|lines| - 1])
  }

  /** The stock items referenced by some unprocessed return. */
  function PendingIds(lines: seq<ReturnLine>): set<StockId> {
    if |lines| == 0 then {}
    else
      var last := lines[|lines| - 1];
      PendingIds(lines[..|lines| - 1]) + (if last.processed then {} else {last.stockId})
  }

  /** The quantity the unprocessed returns of stock `id` take back. */
  function Returned(lines: seq<ReturnLine>, id: StockId): nat {
    if |lines| == 0 then 0
    else
      var last := lines[|lines| - 1];
      Returned(lines[..|lines| - 1], id) + (if !last.processed && last.stockId == id then last.qty else 0)
  }

  /** The number of unprocessed returns. */
  function PendingCount(lines: seq<ReturnLine>): nat {
    if |lines| == 0 then 0
    else PendingCount(lines[..|lines| - 1]) + (if lines[|lines| - 1].processed then 0 else 1)
  }

  /** Every referenced row exists and holds at least what the selection returns from it. */
  predicate Feasible(stocks: map<StockId, Stock>, lines: seq<ReturnLine>) {
    forall id :: id in PendingIds(lines) ==> id in stocks && Returned(lines, id) <= stocks[id].qty
  }

  /** The table after all of the selection is deducted, when it is feasible. */
  predicate DeductedAll(initial: map<StockId, Stock>, lines: seq<ReturnLine>, stocks: map<StockId, Stock>) {
    && stocks.Keys == initial.Keys
    && forall id :: id in initial ==>
         && stocks[id].qty + Returned(lines, id) == initial[id].qty
         && stocks[id].cost == initial[id].cost
         && stocks[id].sell == initial[id].sell
  }

  /**
   * The loop inside the transaction, on a copy of the table. Returns already
   * processed are skipped; a missing row or a return larger than what is left
   * raises, and ends the loop with that error and no table.
   */
  method DeductReturns(initial: map<StockId, Stock>, lines: seq<ReturnLine>) returns (run: Run)
    ensures run == Apply(initial, lines)
  {
    var work: map<StockId, Stock> := initial;
    var count: nat := 0;
    var i := 0;
    while i < |lines|
      invariant 0 <= i <= |lines|
      invariant Apply(initial, lines[..i]) == Done(work, count)
    {
      assert lines[..i + 1][..i] == lines[..i];
      var r := lines[i];
      if !r.processed {
        if r.stockId !in work {
          assert lines[..i + 1] == lines[..i] + [r];
          assert Apply(initial, lines[..i + 1]) == Raised(StockNotFound(r.stockId));
          ApplyStops(initial, lines, i + 1);
          return Raised(StockNotFound(r.stockId));
        }
        var stock := work[r.stockId];
        if stock.qty < r.qty {
          assert Apply(initial, lines[..i + 1]) == Raised(InsufficientStock(r.stockId, stock.qty, r.qty));
          ApplyStops(initial, lines, i + 1);
          return Raised(InsufficientStock(r.stockId, stock.qty, r.qty));
        }
        work := work[r.stockId := Stock(stock.qty - r.qty, stock.cost, stock.sell)];
        count := count + 1;
      }
      i := i + 1;
    }
    assert lines[..|lines|] == lines;
    return Done(work, count);
  }

  /** Once a prefix raises, the whole selection raises the same error. */
  lemma {:induction false} ApplyStops(stocks: map<StockId, Stock>, lines: seq<ReturnLine>, n: nat)
    requires n <= |lines| && Apply(stocks, lines[..n]).Raised?
    ensures Apply(stocks, lines) == Apply(stocks, lines[..n])
    decreases |lines| - n
  {
    if n < |lines| {
      assert lines[..n + 1][..n] == lines[..n];
      ApplyStops(stocks, lines, n + 1);
    } else {
      assert lines[..n] == lines;
    }
  }

  /** Flags every unprocessed return of the selection processed and saves it. */
  method FlagProcessed(queryset: seq<PurchaseReturn>)
    requires Distinct(queryset)
    modifies queryset
    ensures forall i :: 0 <= i < |queryset| ==>
      if old(queryset[i].isProcessed) then unchanged(queryset[i]) else queryset[i].isProcessed
  {
    var i := 0;
    while i < |queryset|
      invariant 0 <= i <= |queryset|
      invariant forall j :: 0 <= j < i ==>
        if old(queryset[j].isProcessed) then unchanged(queryset[j]) else queryset[j].isProcessed
      invariant forall j :: i <= j < |queryset| ==> unchanged(queryset[j])
    {
      if !queryset[i].isProcessed {
        queryset[i].isProcessed := true;
      }
      i := i + 1;
    }
  }

  /**
   * The admin action. There is no privilege check. The loop runs in one
   * transaction: a raise rolls back every deduction and flag of the batch;
   * otherwise the count of returns processed decides between a success and
   * an informational message.
   */
  method ProcessReturn(ledger: Ledger, queryset: seq<PurchaseReturn>)
    returns (outcome: Outcome, processedCount: nat)
    requires Distinct(queryset)
    modifies ledger, queryset
    ensures outcome != Failed(PermissionDenied)
    ensures Apply(old(ledger.stocks), old(Lines(queryset))).Raised? ==>
      && outcome == Failed(Apply(old(ledger.stocks), old(Lines(queryset))).error)
      && unchanged(ledger) && unchanged(queryset)
    ensures Apply(old(ledger.stocks), old(Lines(queryset))).Done? ==>
      && ledger.stocks == Apply(old(ledger.stocks), old(Lines(queryset))).stocks
      && processedCount == Apply(old(ledger.stocks), old(Lines(queryset))).count
      && outcome == (if processedCount > 0 then Success else Info)
      && forall i :: 0 <= i < |queryset| ==>
           if old(queryset[i].isProcessed) then unchanged(queryset[i]) else queryset[i].isProcessed
  {
    var lines := Lines(queryset);
    var run := DeductReturns(ledger.stocks, lines);
    if run.Raised? {
      return Failed(run.error), 0;
    }
    ledger.stocks := run.stocks;
    FlagProcessed(queryset);
    processedCount := run.count;
    outcome := if processedCount > 0 then Success else Info;
  }

  // Properties of the run.

  /** Growing the selection by one line, for the back-recursive definitions. */
  lemma GrowByOne(lines: seq<ReturnLine>)
    requires |lines| > 0
    ensures var init, last := lines[..|lines| - 1], lines[|lines| - 1];
      && PendingIds(lines) == PendingIds(init) + (if last.processed then {} else {last.stockId})
      && (forall id :: Returned(lines, id) == Returned(init, id) + (if !last.processed && last.stockId == id then last.qty else 0))
  {
  }

  /**
   * The batch commits exactly when it is feasible: every referenced row
   * exists and holds at least the total returned from it. Then each row has
   * lost exactly that total, and the count is the number of unprocessed
   * returns, the ones the action flags.
   */
  lemma {:induction false} ApplyCommits(stocks: map<StockId, Stock>, lines: seq<ReturnLine>)
    ensures Apply(stocks, lines).Done? <==> Feasible(stocks, lines)
    ensures Apply(stocks, lines).Done? ==>
      && DeductedAll(stocks, lines, Apply(stocks, lines).stocks)
      && Apply(stocks, lines).count == PendingCount(lines)
  {
    if |lines| > 0 {
      var init, last := lines[..|lines| - 1], lines[|lines| - 1];
      ApplyCommits(stocks, init);
      GrowByOne(lines);
      if Apply(stocks, init).Done? {
        var st := Apply(stocks, init).stocks;
        if !last.processed && last.stockId in stocks && last.qty <= st[last.stockId].qty {
          forall id | id in PendingIds(lines)
            ensures id in stocks && Returned(lines, id) <= stocks[id].qty
          {
          }
        } else if !last.processed {
          assert !Feasible(stocks, lines) by {
            assert last.stockId in PendingIds(lines);
          }
        }
      } else {
        assert !Feasible(stocks, lines) by {
          var id :| id in PendingIds(init) && !(id in stocks && Returned(init, id) <= stocks[id].qty);
          assert id in PendingIds(lines);
        }
      }
    }
  }

  /**
   * On a committed batch no row is asked for more than it held: the total
   * returned from each never exceeds its initial quantity.
   */
  lemma ReturnsNeverOversell(stocks: map<StockId, Stock>, lines: seq<ReturnLine>, id: StockId)
    requires Apply(stocks, lines).Done? && id in stocks
    ensures Returned(lines, id) <= stocks[id].qty
    ensures id in Apply(stocks, lines).stocks
    ensures Apply(stocks, lines).stocks[id].qty == stocks[id].qty - Returned(lines, id)
  {
    ApplyCommits(stocks, lines);
  }

  lemma {:induction false} AllProcessedApply(stocks: map<StockId, Stock>, lines: seq<ReturnLine>)
    requires forall i :: 0 <= i < |lines| ==> lines[i].processed
    ensures Apply(stocks, lines) == Done(stocks, 0)
  {
    if |lines| > 0 {
      AllProcessedApply(stocks, lines[..|lines| - 1]);
    }
  }

  /**
   * Re-running the action on returns that are all processed changes nothing
   * and reports that there was nothing to process.
   */
  lemma ReprocessIsNoOp(stocks: map<StockId, Stock>, lines: seq<ReturnLine>)
    requires forall i :: 0 <= i < |lines| ==> lines[i].processed
    ensures Apply(stocks, lines).Done?
    ensures Apply(stocks, lines).stocks == stocks
    ensures Apply(stocks, lines).count == 0
  {
    AllProcessedApply(stocks, lines);
  }

  /**
   * Two returns of 3 from a row of 5: the second sees the 2 left by the
   * first and raises, so the whole batch, the first deduction included, is
   * rolled back.
   */
  lemma SecondReturnAbortsBatch()
    ensures Apply(map[1 := Stock(5, 10.0, 12.0)], [ReturnLine(1, 3, false), ReturnLine(1, 3, false)])
            == Raised(InsufficientStock(1, 2, 3))
  {
    var a := ReturnLine(1, 3, false);
    assert [a, a][..1] == [a];
    assert [a][..0] == [];
    assert Apply(map[1 := Stock(5, 10.0, 12.0)], [a]) == Done(map[1 := Stock(2, 10.0, 12.0)], 1);
  }
}
