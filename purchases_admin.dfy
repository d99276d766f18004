/**
 * The "mark as received" bulk action (purchases/admin.py): pending purchases
 * are grouped by stock item, and each group adds its quantity to the stock
 * row, blends the cost price into a weighted average and may overwrite the
 * selling price; every pending purchase is then flagged received.
 */
module PurchaseAdmin {
  import opened Common
  import opened Inventory
  import opened PurchaseModels

  /** What the action reads from one selected purchase. */
  datatype PurchaseLine = PurchaseLine(
    stockId: StockId, qty: nat, unitCost: real, sellingPrice: Option<real>, received: bool)

  function LineOf(p: Purchase): PurchaseLine
    reads p
  {
    PurchaseLine(p.stockId, p.qtyPurchased, p.unitCost, p.sellingPrice, p.isReceived)
  }

  /** The selection as the action reads it. */
  function Lines(queryset: seq<Purchase>): (ls: seq<PurchaseLine>)
    reads queryset
    ensures |ls| == |queryset|
    ensures forall i :: 0 <= i < |ls| ==> ls[i] == LineOf(queryset[i])
  {
    seq(|queryset|, i requires 0 <= i < |queryset| reads queryset => LineOf(queryset[i]))
  }

  /** The stock items referenced by some pending line. */
  function PendingIds(lines: seq<PurchaseLine>): set<StockId> {
    if |lines| == 0 then {}
    else
      var last := lines[|lines| - 1];
      PendingIds(lines[..|lines| - 1]) + (if last.received then {} else {last.stockId})
  }

  /** The pending lines that reference stock `id`, in selection order. */
  function Group(lines: seq<PurchaseLine>, id: StockId): seq<PurchaseLine> {
    if |lines| == 0 then []
    else
      var last := lines[|lines| - 1];
      Group(lines[..|lines| - 1], id) + (if !last.received && last.stockId == id then [last] else [])
  }

  function SumQty(g: seq<PurchaseLine>): nat {
    if |g| == 0 then 0 else SumQty(g[..|g| - 1]) + g[|g| - 1].qty
  }

  function SumCost(g: seq<PurchaseLine>): real {
    if |g| == 0 then 0.0 else SumCost(g[..|g| - 1]) + g[|g| - 1].qty as real * g[|g| - 1].unitCost
  }

  /** The selling price after the group's lines are applied in order: the last truthy one wins. */
  function LastSellingPrice(g: seq<PurchaseLine>, current: real): real {
    if |g| == 0 then current
    else if Truthy(g[|g| - 1].sellingPrice) then g[|g| - 1].sellingPrice.value
    else LastSellingPrice(g[..|g| - 1], current)
  }

  /**
   * The cost price after adding `inQty` units worth `inValue` to `heldQty`
   * units at `heldCost`: the quantity-weighted average, rounded to paise;
   * unchanged when the new quantity is zero.
   */
  function WeightedCost(heldQty: nat, heldCost: real, inQty: nat, inValue: real): real {
    if heldQty + inQty > 0
    then Round2((heldQty as real * heldCost + inValue) / (heldQty + inQty) as real)
    else heldCost
  }

  /** One stock row after receiving one group of pending purchases. */
  function ReceiveGroup(s: Stock, g: seq<PurchaseLine>): Stock {
    Stock(s.qty + SumQty(g), WeightedCost(s.qty, s.cost, SumQty(g), SumCost(g)), LastSellingPrice(g, s.sell))
  }

  /** The whole table after a committed receive. */
  function ReceiveAll(stocks: map<StockId, Stock>, lines: seq<PurchaseLine>): map<StockId, Stock> {
    map id | id in stocks ::
      if id in PendingIds(lines) then ReceiveGroup(stocks[id], Group(lines, id)) else stocks[id]
  }

  /** Some pending line references a stock row that does not exist (the lookup raises). */
  predicate MissingStock(stocks: map<StockId, Stock>, lines: seq<PurchaseLine>) {
    !(PendingIds(lines) <= stocks.Keys)
  }

  /** A stock id referenced by no pending line has an empty group. */
  lemma {:induction false} GroupEmpty(lines: seq<PurchaseLine>, id: StockId)
    requires id !in PendingIds(lines)
    ensures Group(lines, id) == []
  {
    if |lines| > 0 {
      GroupEmpty(lines[..|lines| - 1], id);
    }
  }

  /** How the pending ids and the groups grow when the selection grows by one line. */
  lemma GrowByOne(lines: seq<PurchaseLine>, i: nat)
    requires i < |lines|
    ensures PendingIds(lines[..i + 1]) ==
      PendingIds(lines[..i]) + (if lines[i].received then {} else {lines[i].stockId})
    ensures forall id ::
              Group(lines[..i + 1], id) ==
              Group(lines[..i], id) + (if !lines[i].received && lines[i].stockId == id then [lines[i]] else [])
  {
    assert lines[..i + 1][..i] == lines[..i];
  }

  /**
   * The grouping loop: builds `purchase_groups` keyed by stock id, in the
   * order in which the ids first appear, skipping received purchases.
   */
  method GroupPending(lines: seq<PurchaseLine>)
    returns (order: seq<StockId>, groups: map<StockId, seq<PurchaseLine>>)
    ensures groups.Keys == PendingIds(lines)
    ensures forall id :: id in groups ==> groups[id] == Group(lines, id)
    ensures forall id :: id in order <==> id in groups
    ensures Distinct(order)
  {
    order, groups := [], map[];
    var i := 0;
    while i < |lines|
      invariant 0 <= i <= |lines|
      invariant groups.Keys == PendingIds(lines[..i])
      invariant forall id :: id in groups ==> groups[id] == Group(lines[..i], id)
      invariant forall id :: id in order <==> id in groups
      invariant Distinct(order)
    {
      GrowByOne(lines, i);
      var p := lines[i];
      if !p.received {
        if p.stockId !in groups {
          GroupEmpty(lines[..i], p.stockId);
          DistinctAppend(order, p.stockId);
          order := order + [p.stockId];
          groups := groups[p.stockId := [p]];
        } else {
          groups := groups[p.stockId := groups[p.stockId] + [p]];
        }
      }
      i := i + 1;
    }
    assert lines[..|lines|] == lines;
  }

  /** The selling-price loop over one group: each truthy price overwrites the current one. */
  method ApplySellingPrices(g: seq<PurchaseLine>, current: real) returns (sell: real)
    ensures sell == LastSellingPrice(g, current)
  {
    sell := current;
    var j := 0;
    while j < |g|
      invariant 0 <= j <= |g|
      invariant sell == LastSellingPrice(g[..j], current)
    {
      assert g[..j + 1][..j] == g[..j];
      if Truthy(g[j].sellingPrice) {
        sell := g[j].sellingPrice.value;
      }
      j := j + 1;
    }
    assert g[..|g|] == g;
  }

  /** One group's update of its stock row: quantity, weighted-average cost, selling price. */
  method ReceiveOne(s: Stock, g: seq<PurchaseLine>) returns (r: Stock)
    ensures r == ReceiveGroup(s, g)
  {
    var cost := BlendCost(s.qty, s.cost, SumQty(g), SumCost(g));
    var qty := s.qty + SumQty(g);
    var sell := ApplySellingPrices(g, s.sell);
    r := Stock(qty, cost, sell);
  }

  /** The cost-price update of one group: the weighted average when the new quantity is positive. */
  method BlendCost(heldQty: nat, heldCost: real, inQty: nat, inValue: real) returns (cost: real)
    ensures cost == WeightedCost(heldQty, heldCost, inQty, inValue)
  {
    var qty := heldQty + inQty;
    cost := heldCost;
    if qty > 0 {
      cost := Round2((heldQty as real * heldCost + inValue) / qty as real);
    }
  }

  /**
   * The loop over the groups, inside the transaction. The new rows are
   * computed on a copy of the table; a stock id with no row is the lookup
   * that raises, and ends the loop with that id and no table.
   */
  method ReceiveGroups(initial: map<StockId, Stock>, lines: seq<PurchaseLine>,
                       order: seq<StockId>, groups: map<StockId, seq<PurchaseLine>>)
    returns (result: Option<map<StockId, Stock>>, missing: StockId)
    requires forall id :: id in order <==> id in PendingIds(lines)
    requires Distinct(order)
    requires forall id :: id in order ==> id in groups && groups[id] == Group(lines, id)
    ensures result.None? <==> MissingStock(initial, lines)
    ensures result.None? ==> missing in PendingIds(lines) && missing !in initial
    ensures result.Some? ==> result.value == ReceiveAll(initial, lines)
  {
    var work := initial;
    var k := 0;
    while k < |order|
      invariant 0 <= k <= |order|
      invariant work.Keys == initial.Keys
      invariant forall id :: id in order[..k] ==> id in initial
      invariant forall id :: id in initial ==>
        work[id] == if id in order[..k] then ReceiveGroup(initial[id], Group(lines, id)) else initial[id]
    {
      var id := order[k];
      PrefixGrow(order, k);
      if id !in work {
        return None, id;
      }
      var r := ReceiveOne(work[id], groups[id]);
      work := work[id := r];
      k := k + 1;
    }
    assert order[..|order|] == order;
    return Some(work), 0;
  }

  /** Flags every pending purchase of the selection received and saves it. */
  method FlagReceived(queryset: seq<Purchase>)
    requires Distinct(queryset)
    modifies queryset
    ensures forall i :: 0 <= i < |queryset| ==>
      if old(queryset[i].isReceived) then unchanged(queryset[i])
      else queryset[i].isReceived && queryset[i].Derived()
  {
    var i := 0;
    while i < |queryset|
      invariant 0 <= i <= |queryset|
      invariant forall j :: 0 <= j < i ==>
        if old(queryset[j].isReceived) then unchanged(queryset[j])
        else queryset[j].isReceived && queryset[j].Derived()
      invariant forall j :: i <= j < |queryset| ==> unchanged(queryset[j])
    {
      if !queryset[i].isReceived {
        queryset[i].isReceived := true;
        queryset[i].Save();
      }
      i := i + 1;
    }
  }

  /**
   * The admin action. Only a superuser may receive; the whole body is one
   * transaction, so it either commits every row and flag or changes nothing.
   */
  method MarkAsReceived(ledger: Ledger, isSuperuser: bool, queryset: seq<Purchase>)
    returns (outcome: Outcome)
    requires Distinct(queryset)
    modifies ledger, queryset
    ensures !isSuperuser ==>
      outcome == Failed(PermissionDenied) && unchanged(ledger) && unchanged(queryset)
    ensures isSuperuser && MissingStock(old(ledger.stocks), old(Lines(queryset))) ==>
      && outcome.Failed? && outcome.error.StockNotFound?
      && outcome.error.id in PendingIds(old(Lines(queryset)))
      && outcome.error.id !in old(ledger.stocks)
      && unchanged(ledger) && unchanged(queryset)
    ensures isSuperuser && !MissingStock(old(ledger.stocks), old(Lines(queryset))) ==>
      && outcome == Success
      && ledger.stocks == ReceiveAll(old(ledger.stocks), old(Lines(queryset)))
      && forall i :: 0 <= i < |queryset| ==>
           if old(queryset[i].isReceived) then unchanged(queryset[i])
           else queryset[i].isReceived && queryset[i].Derived()
  {
    if !isSuperuser {
      return Failed(PermissionDenied);
    }
    var lines := Lines(queryset);
    var order, groups := GroupPending(lines);
    var result, missing := ReceiveGroups(ledger.stocks, lines, order, groups);
    if result.None? {
      return Failed(StockNotFound(missing));
    }
    ledger.stocks := result.value;
    FlagReceived(queryset);
    return Success;
  }

  // Properties of the receive specification.

  /** A group holds exactly pending lines of its stock, and is non-empty just when the stock has some. */
  lemma {:induction false} GroupMembers(lines: seq<PurchaseLine>, id: StockId)
    ensures forall l :: l in Group(lines, id) ==> l.stockId == id && !l.received
    ensures |Group(lines, id)| > 0 <==> id in PendingIds(lines)
  {
    if |lines| > 0 {
      GroupMembers(lines[..|lines| - 1], id);
    }
  }

  /** A selection with no pending purchase references no stock. */
  lemma {:induction false} NoPendingIds(lines: seq<PurchaseLine>)
    requires forall i :: 0 <= i < |lines| ==> lines[i].received
    ensures PendingIds(lines) == {}
  {
    if |lines| > 0 {
      NoPendingIds(lines[..|lines| - 1]);
    }
  }

  /**
   * Receiving a selection whose purchases are all received already raises
   * nothing and leaves every stock row as it was, so a second run of the
   * action after a successful one is a no-op on the stock table.
   */
  lemma ReceiveAllReceivedIsNoOp(stocks: map<StockId, Stock>, lines: seq<PurchaseLine>)
    requires forall i :: 0 <= i < |lines| ==> lines[i].received
    ensures !MissingStock(stocks, lines)
    ensures ReceiveAll(stocks, lines) == stocks
  {
    NoPendingIds(lines);
  }

  /**
   * Rows no pending purchase references are untouched; a referenced row gains
   * exactly its group's quantity (so receiving never lowers a quantity), takes
   * the group's weighted cost and keeps the group's last truthy selling price.
   */
  lemma ReceiveQuantities(stocks: map<StockId, Stock>, lines: seq<PurchaseLine>, id: StockId)
    requires id in stocks
    ensures ReceiveAll(stocks, lines).Keys == stocks.Keys
    ensures id !in PendingIds(lines) ==> ReceiveAll(stocks, lines)[id] == stocks[id]
    ensures ReceiveAll(stocks, lines)[id].qty == stocks[id].qty + SumQty(Group(lines, id))
    ensures ReceiveAll(stocks, lines)[id].qty >= stocks[id].qty
    ensures id in PendingIds(lines) ==>
      var g := Group(lines, id);
      && ReceiveAll(stocks, lines)[id].cost == WeightedCost(stocks[id].qty, stocks[id].cost, SumQty(g), SumCost(g))
      && ReceiveAll(stocks, lines)[id].sell == LastSellingPrice(g, stocks[id].sell)
  {
    if id !in PendingIds(lines) {
      GroupEmpty(lines, id);
    }
  }

  /**
   * The weighted average keeps the stock's value: the new quantity times the
   * new cost is the held value plus the incoming value, up to half a paisa
   * per unit of rounding; with a zero quantity the cost does not change.
   */
  lemma ValueKept(heldQty: nat, heldCost: real, inQty: nat, inValue: real)
    ensures heldQty + inQty == 0 ==> WeightedCost(heldQty, heldCost, inQty, inValue) == heldCost
    ensures heldQty + inQty > 0 ==>
      var q := (heldQty + inQty) as real;
      var value := heldQty as real * heldCost + inValue;
      -0.005 * q <= q * WeightedCost(heldQty, heldCost, inQty, inValue) - value <= 0.005 * q
  {
    if heldQty + inQty > 0 {
      RoundedAverage(heldQty as real * heldCost + inValue, (heldQty + inQty) as real);
    }
  }

  /** A rounded average, scaled back by its divisor, is within half a paisa per unit of the total. */
  lemma RoundedAverage(value: real, q: real)
    requires q > 0.0
    ensures -0.005 * q <= q * Round2(value / q) - value <= 0.005 * q
  {
    var avg := value / q;
    ScaledAverage(value, q, avg, Round2(avg));
  }

  /** Arithmetic step: an approximation of `value / q` scaled by `q`. */
  lemma ScaledAverage(value: real, q: real, avg: real, c: real)
    requires q > 0.0 && avg == value / q && -0.005 <= c - avg <= 0.005
    ensures -0.005 * q <= q * c - value <= 0.005 * q
  {
    var d := c - avg;
    ScaleError(q, d, 0.005);
    DivideCancel(value, q, avg);
    assert q * c - value == q * c - q * avg;
    assert q * c - q * avg == q * d;
    assert q * c - value == q * d;
    assert -0.005 * q <= q * d <= 0.005 * q;
  }

  lemma {:induction false} SumCostBounds(g: seq<PurchaseLine>, lo: real, hi: real)
    requires forall i :: 0 <= i < |g| ==> lo <= g[i].unitCost <= hi
    ensures lo * SumQty(g) as real <= SumCost(g) <= hi * SumQty(g) as real
  {
    if |g| > 0 {
      var init, last := g[..|g| - 1], g[|g| - 1];
      SumCostBounds(init, lo, hi);
      AddLine(lo, hi, SumQty(init) as real, SumCost(init), last.qty as real, last.unitCost, SumQty(g) as real, SumCost(g));
    }
  }

  /** Arithmetic step: adding q units at cost c to totals whose average lies in [lo, hi]. */
  lemma AddLine(lo: real, hi: real, q0: real, c0: real, q: real, c: real, total: real, value: real)
    requires lo * q0 <= c0 <= hi * q0
    requires q >= 0.0 && lo <= c <= hi
    requires total == q0 + q && value == c0 + q * c
    ensures lo * total <= value <= hi * total
  {
    ScaleBounds(q, lo, c, hi);
    assert lo * total == lo * q0 + lo * q;
    assert hi * total == hi * q0 + hi * q;
  }

  /**
   * Receiving never loses cost information: when the old cost (if there is
   * any stock) and every incoming unit cost lie in [lo, hi], the new cost lies
   * there too, up to rounding.
   */
  lemma CostWithinRange(s: Stock, g: seq<PurchaseLine>, lo: real, hi: real)
    requires s.qty > 0 ==> lo <= s.cost <= hi
    requires forall i :: 0 <= i < |g| ==> lo <= g[i].unitCost <= hi
    requires s.qty + SumQty(g) > 0
    ensures lo - 0.005 <= ReceiveGroup(s, g).cost <= hi + 0.005
  {
    SumCostBounds(g, lo, hi);
    GroupCostWithin(s, g, lo, hi);
  }

  lemma GroupCostWithin(s: Stock, g: seq<PurchaseLine>, lo: real, hi: real)
    requires s.qty > 0 ==> lo <= s.cost <= hi
    requires lo * SumQty(g) as real <= SumCost(g) <= hi * SumQty(g) as real
    requires s.qty + SumQty(g) > 0
    ensures lo - 0.005 <= ReceiveGroup(s, g).cost <= hi + 0.005
  {
    WithinRange(s.qty, s.cost, SumQty(g), SumCost(g), lo, hi);
  }

  lemma WithinRange(heldQty: nat, heldCost: real, inQty: nat, inValue: real, lo: real, hi: real)
    requires heldQty > 0 ==> lo <= heldCost <= hi
    requires lo * inQty as real <= inValue <= hi * inQty as real
    requires heldQty + inQty > 0
    ensures lo - 0.005 <= WeightedCost(heldQty, heldCost, inQty, inValue) <= hi + 0.005
  {
    var total := (heldQty + inQty) as real;
    var value := heldQty as real * heldCost + inValue;
    assert total == inQty as real + heldQty as real;
    HeldValueBounds(heldQty as real, heldCost, inQty as real, inValue, total, lo, hi);
    AverageBounds(value, total, lo, hi);
  }

  /** Arithmetic step: the held value plus the incoming value lies between lo and hi times the total. */
  lemma HeldValueBounds(q: real, c: real, q0: real, value0: real, total: real, lo: real, hi: real)
    requires q >= 0.0 && (q > 0.0 ==> lo <= c <= hi)
    requires lo * q0 <= value0 <= hi * q0
    requires total == q0 + q
    ensures lo * total <= q * c + value0 <= hi * total
  {
    if q > 0.0 {
      AddLine(lo, hi, q0, value0, q, c, total, q * c + value0);
    } else {
      ZeroProduct(q, c);
    }
  }

  /** A rounded average of values in [lo, hi] stays within rounding of [lo, hi]. */
  lemma AverageBounds(value: real, q: real, lo: real, hi: real)
    requires q > 0.0 && lo * q <= value <= hi * q
    ensures lo - 0.005 <= Round2(value / q) <= hi + 0.005
  {
    var avg := value / q;
    DivideLower(value, q, lo);
    DivideUpper(value, q, hi);
    var c := Round2(avg);
    assert -0.005 <= c - avg <= 0.005;
  }

  /**
   * Ten units at 100.00 plus lines of five at 120.00 and five at 140.00 give
   * twenty units at 115.00; the later line's selling price is the one kept.
   */
  lemma WeightedAverageExample()
    ensures ReceiveGroup(Stock(10, 100.0, 125.0),
                         [PurchaseLine(1, 5, 120.0, Some(150.0), false),
                          PurchaseLine(1, 5, 140.0, Some(175.0), false)])
            == Stock(20, 115.0, 175.0)
  {
    var a := PurchaseLine(1, 5, 120.0, Some(150.0), false);
    var b := PurchaseLine(1, 5, 140.0, Some(175.0), false);
    assert [a, b][..1] == [a];
    assert [a][..0] == [];
    assert SumQty([a]) == 5 && SumCost([a]) == 600.0;
    assert SumQty([a, b]) == 10;
    assert SumCost([a, b]) == 1300.0;
    Round2Exact(11500);
    assert (10.0 * 100.0 + 1300.0) / 20.0 == 11500 as real / 100.0;
  }

  /** A group with no truthy selling price leaves the selling price as it was. */
  lemma {:induction false} NoPriceKeepsCurrent(g: seq<PurchaseLine>, current: real)
    requires forall i :: 0 <= i < |g| ==> !Truthy(g[i].sellingPrice)
    ensures LastSellingPrice(g, current) == current
  {
    if |g| > 0 {
      var init := g[..|g| - 1];
      assert forall i :: 0 <= i < |init| ==> init[i] == g[i];
      NoPriceKeepsCurrent(init, current);
    }
  }

  /** A truthy selling price followed by no other truthy one is the price kept. */
  lemma {:induction false} LastPriceWins(g: seq<PurchaseLine>, current: real, i: nat)
    requires i < |g| && Truthy(g[i].sellingPrice)
    requires forall j :: i < j < |g| ==> !Truthy(g[j].sellingPrice)
    ensures LastSellingPrice(g, current) == g[i].sellingPrice.value
  {
    if i < |g| - 1 {
      var init := g[..|g| - 1];
      assert forall j :: i < j < |init| ==> init[j] == g[j];
      LastPriceWins(init, current, i);
    }
  }
}
