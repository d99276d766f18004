/**
 * The sales admin (sales/admin.py): the "verify selected sales" bulk action,
 * which deducts each stock item's pending sales as one group or skips the
 * group when it would oversell; the derived fields set by the admin save;
 * and the choice of the date range of the sales report.
 */
module SalesAdmin {
  import opened Common
  import opened Inventory
  import opened SalesModels

  /** What the action reads from one selected sale. */
  datatype SaleLine = SaleLine(stockId: StockId, qty: nat, verified: bool)

  function LineOf(s: Sale): SaleLine
    reads s
  {
    SaleLine(s.stockId, s.qtySold, s.isVerified)
  }

  // The selection and its grouping follow purchases_admin.dfy member for
  // member, over sale lines keyed by `is_verified`. The source writes the
  // two grouping loops separately too, so the definitions are kept per action.

  /** The selection as the action reads it. */
  function Lines(queryset: seq<Sale>): (ls: seq<SaleLine>)
    reads queryset
    ensures |ls| == |queryset|
    ensures forall i :: 0 <= i < |ls| ==> ls[i] == LineOf(queryset[i])
  {
    seq(|queryset|, i requires 0 <= i < |queryset| reads queryset => LineOf(queryset[i]))
  }

  /** The stock items referenced by some unverified line. */
  function PendingIds(lines: seq<SaleLine>): set<StockId> {
    if |lines| == 0 then {}
    else
      var last := lines[|lines| - 1];
      PendingIds(lines[..|lines| - 1]) + (if last.verified then {} else {last.stockId})
  }

  /** The unverified lines that reference stock `id`, in selection order. */
  function Group(lines: seq<SaleLine>, id: StockId): seq<SaleLine> {
    if |lines| == 0 then []
    else
      var last := lines[|lines| - 1];
      Group(lines[..|lines| - 1], id) + (if !last.verified && last.stockId == id then [last] else [])
  }

  /** The quantity a group of sales asks for. */
  function SumQty(g: seq<SaleLine>): nat {
    if |g| == 0 then 0 else SumQty(g[..|g| - 1]) + g[|g| - 1].qty
  }

  /** The stock row has enough on hand for the whole group of stock `id`. */
  predicate Passes(stocks: map<StockId, Stock>, lines: seq<SaleLine>, id: StockId)
    requires id in stocks
  {
    SumQty(Group(lines, id)) <= stocks[id].qty
  }

  /** The stock items whose pending sales are verified: referenced, present, and not oversold. */
  function PassingIds(stocks: map<StockId, Stock>, lines: seq<SaleLine>): set<StockId> {
    set id | id in PendingIds(lines) && id in stocks && Passes(stocks, lines, id)
  }

  /** The ids among `ids` that pass. */
  function PassedAmong(stocks: map<StockId, Stock>, lines: seq<SaleLine>, ids: seq<StockId>): set<StockId> {
    set id | id in ids && id in stocks && Passes(stocks, lines, id)
  }

  /** The row of stock `id` in `Deducted(stocks, lines, ids)`. */
  function DeductedRow(stocks: map<StockId, Stock>, lines: seq<SaleLine>, ids: set<StockId>, id: StockId): Stock
    requires id in stocks
  {
    if id in ids && Passes(stocks, lines, id)
    then Stock(stocks[id].qty - SumQty(Group(lines, id)), stocks[id].cost, stocks[id].sell)
    else stocks[id]
  }

  /** `work` has the rows of `Deducted(stocks, lines, ids)`, row by row. */
  predicate IsDeducted(work: map<StockId, Stock>, stocks: map<StockId, Stock>, lines: seq<SaleLine>, ids: set<StockId>) {
    && work.Keys == stocks.Keys
    && forall id :: id in stocks ==> work[id] == DeductedRow(stocks, lines, ids, id)
  }

  lemma DeductedPointwise(work: map<StockId, Stock>, stocks: map<StockId, Stock>, lines: seq<SaleLine>, ids: set<StockId>)
    requires IsDeducted(work, stocks, lines, ids)
    ensures work == Deducted(stocks, lines, ids)
  {
  }

  /** The table with the groups of the passing stock items of `ids` deducted. */
  function Deducted(stocks: map<StockId, Stock>, lines: seq<SaleLine>, ids: set<StockId>): map<StockId, Stock> {
    map id | id in stocks :: DeductedRow(stocks, lines, ids, id)
  }

  /** The whole table after a committed verification. */
  function VerifyAll(stocks: map<StockId, Stock>, lines: seq<SaleLine>): map<StockId, Stock> {
    Deducted(stocks, lines, PassingIds(stocks, lines))
  }

  /** The number of unverified lines whose stock id is in `ids`: the sales the action verifies. */
  function CountIn(lines: seq<SaleLine>, ids: set<StockId>): nat {
    if |lines| == 0 then 0
    else
      var last := lines[|lines| - 1];
      CountIn(lines[..|lines| - 1], ids) + (if !last.verified && last.stockId in ids then 1 else 0)
  }

  /** Some unverified line references a stock row that does not exist (the lookup raises). */
  predicate MissingStock(stocks: map<StockId, Stock>, lines: seq<SaleLine>) {
    !(PendingIds(lines) <= stocks.Keys)
  }

  lemma {:induction false} GroupEmpty(lines: seq<SaleLine>, id: StockId)
    requires id !in PendingIds(lines)
    ensures Group(lines, id) == []
  {
    if |lines| > 0 {
      GroupEmpty(lines[..|lines| - 1], id);
    }
  }

  lemma GrowByOne(lines: seq<SaleLine>, i: nat)
    requires i < |lines|
    ensures PendingIds(lines[..i + 1]) ==
      PendingIds(lines[..i]) + (if lines[i].verified then {} else {lines[i].stockId})
    ensures forall id ::
              Group(lines[..i + 1], id) ==
              Group(lines[..i], id) + (if !lines[i].verified && lines[i].stockId == id then [lines[i]] else [])
  {
    assert lines[..i + 1][..i] == lines[..i];
  }

  /**
   * Adding one more stock id to the counted set adds exactly the size of its
   * group: the count is the sum of the sizes of the groups counted.
   */
  lemma {:induction false} CountInAdd(lines: seq<SaleLine>, ids: set<StockId>, id: StockId)
    requires id !in ids
    ensures CountIn(lines, ids + {id}) == CountIn(lines, ids) + |Group(lines, id)|
  {
    if |lines| > 0 {
      CountInAdd(lines[..|lines| - 1], ids, id);
    }
  }

  /** The grouping loop: builds `sales_grouped` keyed by stock id, skipping verified sales. */
  method GroupPending(lines: seq<SaleLine>)
    returns (order: seq<StockId>, groups: map<StockId, seq<SaleLine>>)
    ensures groups.Keys == PendingIds(lines)
    ensures forall id :: id in groups ==> groups[id] == Group(lines, id)
    ensures forall id :: id in order <==> id in groups
    ensures Distinct(order)
  {
    order, groups := [], map[];
    var i := 0;
    while i < |lines|
      invariant 0 <= i <= |lines|
      invariant groups.Keys == PendingIds(lines[..i])
      invariant forall id :: id in groups ==> groups[id] == Group(lines[..i], id)
      invariant forall id :: id in order <==> id in groups
      invariant Distinct(order)
    {
      GrowByOne(lines, i);
      var s := lines[i];
      if !s.verified {
        if s.stockId !in groups {
          GroupEmpty(lines[..i], s.stockId);
          DistinctAppend(order, s.stockId);
          order := order + [s.stockId];
          groups := groups[s.stockId := [s]];
        } else {
          groups := groups[s.stockId := groups[s.stockId] + [s]];
        }
      }
      i := i + 1;
    }
    assert lines[..|lines|] == lines;
  }

  /**
   * The loop over the groups, inside the transaction, on a copy of the table.
   * A group asking for more than its row holds is skipped; otherwise the row
   * loses the group's total and the group's size is added to the count. A
   * stock id with no row is the lookup that raises.
   */
  method DeductGroups(initial: map<StockId, Stock>, lines: seq<SaleLine>,
                      order: seq<StockId>, groups: map<StockId, seq<SaleLine>>)
    returns (result: Option<map<StockId, Stock>>, missing: StockId, count: nat)
    requires forall id :: id in order <==> id in PendingIds(lines)
    requires Distinct(order)
    requires forall id :: id in order ==> id in groups && groups[id] == Group(lines, id)
    ensures result.None? <==> MissingStock(initial, lines)
    ensures result.None? ==> missing in PendingIds(lines) && missing !in initial
    ensures result.Some? ==>
      && result.value == VerifyAll(initial, lines)
      && count == CountIn(lines, PassingIds(initial, lines))
  {
    var work := initial;
    count := 0;
    ghost var passed: set<StockId> := {};
    var k := 0;
    assert PassedAmong(initial, lines, order[..0]) == {};
    CountEmpty(lines);
    while k < |order|
      invariant 0 <= k <= |order|
      invariant forall id :: id in order[..k] ==> id in initial
      invariant passed == PassedAmong(initial, lines, order[..k])
      invariant IsDeducted(work, initial, lines, passed)
      invariant count == CountIn(lines, passed)
    {
      var id := order[k];
      PrefixGrow(order, k);
      if id !in work {
        return None, id, 0;
      }
      PassedStep(initial, lines, order, k);
      var passes, added;
      work, passes, added := DeductOne(initial, lines, work, passed, id, groups[id]);
      if passes {
        CountInAdd(lines, passed, id);
        passed := passed + {id};
      }
      count := count + added;
      k := k + 1;
    }
    assert order[..|order|] == order;
    assert passed == PassingIds(initial, lines);
    DeductedPointwise(work, initial, lines, passed);
    return Some(work), 0, count;
  }

  /**
   * One group, on the copy `work` of the table: skipped when it asks for
   * more than its row holds; otherwise its total is deducted from the row,
   * and its size is what the count gains.
   */
  method DeductOne(initial: map<StockId, Stock>, lines: seq<SaleLine>, work: map<StockId, Stock>,
                   ghost passed: set<StockId>, id: StockId, group: seq<SaleLine>)
    returns (next: map<StockId, Stock>, passes: bool, added: nat)
    requires id in initial && id !in passed && group == Group(lines, id)
    requires IsDeducted(work, initial, lines, passed)
    ensures passes == Passes(initial, lines, id)
    ensures IsDeducted(next, initial, lines, if passes then passed + {id} else passed)
    ensures added == if passes then |group| else 0
  {
    var totalRequired := SumQty(group);
    var stock := work[id];
    assert stock == initial[id];
    if stock.qty < totalRequired {
      return work, false, 0;
    }
    next := work[id := Stock(stock.qty - totalRequired, stock.cost, stock.sell)];
    forall x | x in initial
      ensures next[x] == DeductedRow(initial, lines, passed + {id}, x)
    {
      if x != id {
        assert (x in passed + {id}) == (x in passed);
      }
    }
    return next, true, |group|;
  }

  /**
   * Taking one more stock id of the order adds it to the passing ones when
   * it passes; an id of a distinct order is not among those before it.
   */
  lemma PassedStep(stocks: map<StockId, Stock>, lines: seq<SaleLine>, order: seq<StockId>, k: nat)
    requires k < |order| && Distinct(order) && order[k] in stocks
    ensures order[k] !in PassedAmong(stocks, lines, order[..k])
    ensures PassedAmong(stocks, lines, order[..k + 1]) ==
      PassedAmong(stocks, lines, order[..k]) + (if Passes(stocks, lines, order[k]) then {order[k]} else {})
  {
    PrefixGrow(order, k);
    assert order[k] !in order[..k];
  }

  /**
   * Flags every unverified sale of a passing stock verified and saves it,
   * with the cost price of its (committed) stock row.
   */
  method FlagVerified(queryset: seq<Sale>, passing: set<StockId>, stocks: map<StockId, Stock>)
    requires Distinct(queryset)
    requires passing <= stocks.Keys
    modifies queryset
    ensures forall i :: 0 <= i < |queryset| ==>
      if old(queryset[i].isVerified) || queryset[i].stockId !in passing then unchanged(queryset[i])
      else queryset[i].isVerified && queryset[i].Derived(Some(stocks[queryset[i].stockId].cost))
  {
    var i := 0;
    while i < |queryset|
      invariant 0 <= i <= |queryset|
      invariant forall j :: 0 <= j < i ==>
        if old(queryset[j].isVerified) || queryset[j].stockId !in passing then unchanged(queryset[j])
        else queryset[j].isVerified && queryset[j].Derived(Some(stocks[queryset[j].stockId].cost))
      invariant forall j :: i <= j < |queryset| ==> unchanged(queryset[j])
    {
      var sale := queryset[i];
      if !sale.isVerified && sale.stockId in passing {
        sale.isVerified := true;
        sale.Save(Some(stocks[sale.stockId].cost));
      }
      i := i + 1;
    }
  }

  /**
   * The admin action. Only a superuser may verify. In one transaction, each
   * stock item's unverified sales are deducted together or skipped together;
   * a missing stock row rolls back every deduction and flag. The count of
   * newly verified sales decides between a success and a warning.
   */
  method VerifySale(ledger: Ledger, isSuperuser: bool, queryset: seq<Sale>)
    returns (outcome: Outcome, verifiedCount: nat)
    requires Distinct(queryset)
    modifies ledger, queryset
    ensures !isSuperuser ==>
      outcome == Failed(PermissionDenied) && unchanged(ledger) && unchanged(queryset)
    ensures isSuperuser && MissingStock(old(ledger.stocks), old(Lines(queryset))) ==>
      && outcome.Failed? && outcome.error.StockNotFound?
      && outcome.error.id in PendingIds(old(Lines(queryset)))
      && outcome.error.id !in old(ledger.stocks)
      && unchanged(ledger) && unchanged(queryset)
    ensures isSuperuser && !MissingStock(old(ledger.stocks), old(Lines(queryset))) ==>
      && ledger.stocks == VerifyAll(old(ledger.stocks), old(Lines(queryset)))
      && verifiedCount == CountIn(old(Lines(queryset)), PassingIds(old(ledger.stocks), old(Lines(queryset))))
      && outcome == (if verifiedCount > 0 then Success else Warning)
      && forall i :: 0 <= i < |queryset| ==>
           if old(queryset[i].isVerified) || queryset[i].stockId !in PassingIds(old(ledger.stocks), old(Lines(queryset)))
           then unchanged(queryset[i])
           else queryset[i].isVerified && queryset[i].Derived(Some(ledger.stocks[queryset[i].stockId].cost))
  {
    if !isSuperuser {
      return Failed(PermissionDenied), 0;
    }
    var lines := Lines(queryset);
    var order, groups := GroupPending(lines);
    var result, missing, count := DeductGroups(ledger.stocks, lines, order, groups);
    if result.None? {
      return Failed(StockNotFound(missing)), 0;
    }
    var passing := PassingIds(ledger.stocks, lines);
    ledger.stocks := result.value;
    FlagVerified(queryset, passing, ledger.stocks);
    verifiedCount := count;
    outcome := if verifiedCount > 0 then Success else Warning;
  }

  // Properties of the verification specification.

  /** A group holds exactly unverified lines of its stock, and is non-empty just when the stock has some. */
  lemma {:induction false} GroupMembers(lines: seq<SaleLine>, id: StockId)
    ensures forall l :: l in Group(lines, id) ==> l.stockId == id && !l.verified
    ensures |Group(lines, id)| > 0 <==> id in PendingIds(lines)
  {
    if |lines| > 0 {
      GroupMembers(lines[..|lines| - 1], id);
    }
  }

  lemma {:induction false} NoPendingIds(lines: seq<SaleLine>)
    requires forall i :: 0 <= i < |lines| ==> lines[i].verified
    ensures PendingIds(lines) == {}
  {
    if |lines| > 0 {
      NoPendingIds(lines[..|lines| - 1]);
    }
  }

  lemma {:induction false} CountEmpty(lines: seq<SaleLine>)
    ensures CountIn(lines, {}) == 0
  {
    if |lines| > 0 {
      CountEmpty(lines[..|lines| - 1]);
    }
  }

  /**
   * Re-verifying a selection whose sales are all verified raises nothing,
   * changes no stock row and verifies no sale, so the action warns.
   */
  lemma ReverifyIsNoOp(stocks: map<StockId, Stock>, lines: seq<SaleLine>)
    requires forall i :: 0 <= i < |lines| ==> lines[i].verified
    ensures !MissingStock(stocks, lines)
    ensures VerifyAll(stocks, lines) == stocks
    ensures CountIn(lines, PassingIds(stocks, lines)) == 0
  {
    NoPendingIds(lines);
    assert PassingIds(stocks, lines) == {};
    CountEmpty(lines);
  }

  /**
   * Each referenced row either loses exactly its group's total, when it holds
   * at least that much, or is left as it was; so no quantity goes below zero
   * and none grows. Rows no pending sale references are untouched, and no
   * row's cost price or selling price changes.
   */
  lemma VerifyQuantities(stocks: map<StockId, Stock>, lines: seq<SaleLine>, id: StockId)
    requires id in stocks
    ensures VerifyAll(stocks, lines).Keys == stocks.Keys
    ensures id !in PendingIds(lines) ==> VerifyAll(stocks, lines)[id] == stocks[id]
    ensures SumQty(Group(lines, id)) > stocks[id].qty ==> VerifyAll(stocks, lines)[id] == stocks[id]
    ensures SumQty(Group(lines, id)) <= stocks[id].qty ==>
      VerifyAll(stocks, lines)[id].qty == stocks[id].qty - SumQty(Group(lines, id))
    ensures VerifyAll(stocks, lines)[id].qty <= stocks[id].qty
    ensures VerifyAll(stocks, lines)[id].cost == stocks[id].cost
    ensures VerifyAll(stocks, lines)[id].sell == stocks[id].sell
  {
    if id !in PendingIds(lines) {
      GroupEmpty(lines, id);
    }
  }

  /**
   * The count is the number of unverified sales of passing stock items,
   * which are exactly the sales whose flag the action turns on.
   */
  lemma {:induction false} CountIsNewlyVerified(lines: seq<SaleLine>, ids: set<StockId>)
    ensures CountIn(lines, ids) == |set i | 0 <= i < |lines| && !lines[i].verified && lines[i].stockId in ids|
  {
    if |lines| > 0 {
      var init := lines[..|lines| - 1];
      CountIsNewlyVerified(init, ids);
      var before := set i | 0 <= i < |init| && !init[i].verified && init[i].stockId in ids;
      var after := set i | 0 <= i < |lines| && !lines[i].verified && lines[i].stockId in ids;
      var n := |lines| - 1;
      if !lines[n].verified && lines[n].stockId in ids {
        assert after == before + {n};
      } else {
        assert after == before;
      }
    }
  }

  /**
   * An oversold group is skipped while other groups are still processed:
   * with 5 units of stock 1 asked for by sales of 3 and 4, and 10 units of
   * stock 2 asked for by a sale of 6, only the sale of stock 2 is verified.
   */
  lemma OversellSkipsOnlyItsGroup()
    ensures
      var stocks := map[1 := Stock(5, 50.0, 80.0), 2 := Stock(10, 20.0, 30.0)];
      var lines := [SaleLine(1, 3, false), SaleLine(2, 6, false), SaleLine(1, 4, false)];
      && !MissingStock(stocks, lines)
      && VerifyAll(stocks, lines) == map[1 := Stock(5, 50.0, 80.0), 2 := Stock(4, 20.0, 30.0)]
      && CountIn(lines, PassingIds(stocks, lines)) == 1
  {
    var stocks := map[1 := Stock(5, 50.0, 80.0), 2 := Stock(10, 20.0, 30.0)];
    var a, b, c := SaleLine(1, 3, false), SaleLine(2, 6, false), SaleLine(1, 4, false);
    var lines := [a, b, c];
    assert lines[..2] == [a, b] && [a, b][..1] == [a] && [a][..0] == [];
    assert PendingIds([a]) == {1} && PendingIds([a, b]) == {1, 2};
    assert PendingIds(lines) == {1, 2};
    assert Group([a], 1) == [a] && Group([a, b], 1) == [a];
    assert Group(lines, 1) == [a, c];
    assert [a, c][..1] == [a];
    assert SumQty([a]) == 3 && SumQty([a, c]) == 7;
    assert SumQty(Group(lines, 1)) == 7;
    assert Group([a], 2) == [] && Group([a, b], 2) == [b];
    assert Group(lines, 2) == [b];
    assert SumQty(Group(lines, 2)) == 6;
    assert PassingIds(stocks, lines) == {2};
    assert VerifyAll(stocks, lines) == map[1 := Stock(5, 50.0, 80.0), 2 := Stock(4, 20.0, 30.0)];
    assert CountIn([a], {2}) == 0;
    assert CountIn([a, b], {2}) == 1;
    assert CountIn(lines, {2}) == 1;
  }

  // The derived fields set by the admin form's save.

  /**
   * The assignments of `save_model`: the total amount, and the gross profit
   * from the stock's cost price (zero when it has none).
   */
  method AdminFields(obj: Sale, stockCost: Option<real>)
    modifies obj
    ensures obj.Derived(stockCost)
    ensures obj.isVerified == old(obj.isVerified)
  {
    obj.totalAmount := obj.price * obj.qtySold as real;
    if stockCost.Some? {
      obj.grossProfit := (obj.price - stockCost.value) * obj.qtySold as real;
    } else {
      obj.grossProfit := 0.0;
    }
  }

  /** `save_model`: sets the admin's fields, then saves, which derives the same values again. */
  method SaveModel(obj: Sale, stockCost: Option<real>)
    modifies obj
    ensures obj.Derived(stockCost)
    ensures obj.isVerified == old(obj.isVerified)
  {
    AdminFields(obj, stockCost);
    obj.Save(stockCost);
  }

  // The date range of the sales report.

  /** One of the two date filters of the request, as the report reads it. */
  datatype DateParam =
    | Absent             // missing from the query string, or empty
    | Malformed          // present, but not a `YYYY-MM-DD` date
    | Parsed(day: int)   // a date, as a day number

  /** The Asia/Kolkata calendar day (UTC+5:30) of a UTC time in seconds. */
  function LocalDate(t: int): int {
    (t + 19800) / 86400
  }

  lemma LocalDateMonotone(a: int, b: int)
    requires a <= b
    ensures LocalDate(a) <= LocalDate(b)
  {
    var x, y := a + 19800, b + 19800;
    var qx, qy := x / 86400, y / 86400;
    assert x == qx * 86400 + x % 86400;
    assert y == qy * 86400 + y % 86400;
  }

  /** The sale sold first. */
  function Earliest(sales: seq<Sale>): (t: int)
    requires |sales| > 0
    ensures exists i :: 0 <= i < |sales| && sales[i].soldOn == t
    ensures forall i :: 0 <= i < |sales| ==> t <= sales[i].soldOn
  {
    if |sales| == 1 then sales[0].soldOn
    else
      var rest := Earliest(sales[1..]);
      if sales[0].soldOn <= rest then sales[0].soldOn else rest
  }

  /** The sale sold last. */
  function Latest(sales: seq<Sale>): (t: int)
    requires |sales| > 0
    ensures exists i :: 0 <= i < |sales| && sales[i].soldOn == t
    ensures forall i :: 0 <= i < |sales| ==> sales[i].soldOn <= t
  {
    if |sales| == 1 then sales[0].soldOn
    else
      var rest := Latest(sales[1..]);
      if sales[0].soldOn >= rest then sales[0].soldOn else rest
  }

  /**
   * The report's (start, end) days: both filters when both parse; otherwise
   * the local days of the earliest and the latest sale of the admin's whole
   * queryset (the changelist filters are not applied to it), or today (from
   * the clock reading `now`) for both when there is none.
   */
  function ReportRange(start: DateParam, end: DateParam, sales: seq<Sale>, now: int): (r: (int, int))
    ensures start.Parsed? && end.Parsed? ==> r == (start.day, end.day)
    ensures !(start.Parsed? && end.Parsed?) && |sales| == 0 ==> r == (LocalDate(now), LocalDate(now))
  {
    if start.Parsed? && end.Parsed? then (start.day, end.day)
    else if |sales| > 0 then (LocalDate(Earliest(sales)), LocalDate(Latest(sales)))
    else (LocalDate(now), LocalDate(now))
  }

  /**
   * Without both filters, the range of a non-empty selection covers the day
   * of every sale, and each end is the day of some sale.
   */
  lemma ReportRangeCoversSales(start: DateParam, end: DateParam, sales: seq<Sale>, now: int)
    requires !(start.Parsed? && end.Parsed?) && |sales| > 0
    ensures var r := ReportRange(start, end, sales, now);
      && r.0 <= r.1
      && (forall i :: 0 <= i < |sales| ==> r.0 <= LocalDate(sales[i].soldOn) <= r.1)
      && (exists i :: 0 <= i < |sales| && LocalDate(sales[i].soldOn) == r.0)
      && (exists i :: 0 <= i < |sales| && LocalDate(sales[i].soldOn) == r.1)
  {
    var lo, hi := Earliest(sales), Latest(sales);
    LocalDateMonotone(lo, hi);
    forall i | 0 <= i < |sales|
      ensures LocalDate(lo) <= LocalDate(sales[i].soldOn) <= LocalDate(hi)
    {
      LocalDateMonotone(lo, sales[i].soldOn);
      LocalDateMonotone(sales[i].soldOn, hi);
    }
  }
}
