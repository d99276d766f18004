/** A sale and the fields its save derives (sales/models.py). */
module SalesModels {
  import opened Common
  import opened Inventory

  /**
   * The gross profit of selling `qty` units at `price` when the stock's cost
   * price is `cost`: the unit margin times the quantity, or zero when the
   * stock has no cost price.
   */
  function GrossProfit(price: real, cost: Option<real>, qty: nat): real {
    if cost.Some? then (price - cost.value) * qty as real else 0.0
  }

  /** With a cost price, what the sale brings in is its cost plus its profit. */
  lemma ProfitPlusCostIsTotal(price: real, cost: real, qty: nat)
    ensures GrossProfit(price, Some(cost), qty) + cost * qty as real == qty as real * price
  {
    assert (price - cost) * qty as real == price * qty as real - cost * qty as real;
  }

  /** Selling at the cost price makes no profit, selling above it a positive one. */
  lemma ProfitSign(price: real, cost: real, qty: nat)
    ensures price == cost ==> GrossProfit(price, Some(cost), qty) == 0.0
    ensures price > cost && qty > 0 ==> GrossProfit(price, Some(cost), qty) > 0.0
    ensures price < cost && qty > 0 ==> GrossProfit(price, Some(cost), qty) < 0.0
  {
    var m := price - cost;
    if qty > 0 {
      PositiveScale(m, qty as real);
      PositiveScale(-m, qty as real);
      assert -m * qty as real == -(m * qty as real);
    }
  }

  /** Arithmetic step: a positive number times a positive number is positive. */
  lemma PositiveScale(m: real, q: real)
    requires q > 0.0
    ensures m > 0.0 ==> m * q > 0.0
  {
  }

  class Sale {
    const stockId: StockId
    const qtySold: nat
    const price: real
    /** The creation time, in seconds since the epoch (UTC). */
    const soldOn: int
    var totalAmount: real
    var grossProfit: real
    var isVerified: bool

    /** The derived fields agree with the sale and the cost price of its stock. */
    predicate Derived(stockCost: Option<real>)
      reads this
    {
      && totalAmount == qtySold as real * price
      && grossProfit == GrossProfit(price, stockCost, qtySold)
    }

    /**
     * A new, unsaved sale of `qtySold` units; not verified. `auto_now_add`
     * stamps `sold_on` at the first save, and the database leaves the two
     * derived fields unset until then. Every creation path saves at once, so
     * here `soldOn` takes the creation time `now` directly, and the derived
     * fields start at 0.0 as placeholders that the save overwrites.
     */
    constructor (stockId: StockId, qtySold: nat, price: real, now: int)
      ensures this.stockId == stockId && this.qtySold == qtySold && this.price == price
      ensures soldOn == now && totalAmount == 0.0 && grossProfit == 0.0 && !isVerified
    {
      this.stockId := stockId;
      this.qtySold := qtySold;
      this.price := price;
      soldOn := now;
      totalAmount := 0.0;
      grossProfit := 0.0;
      isVerified := false;
    }

    /** A new sale with the default quantity of one unit; the stamp and the placeholders are as above. */
    constructor Single(stockId: StockId, price: real, now: int)
      ensures this.stockId == stockId && qtySold == 1 && this.price == price
      ensures soldOn == now && totalAmount == 0.0 && grossProfit == 0.0 && !isVerified
    {
      this.stockId := stockId;
      qtySold := 1;
      this.price := price;
      soldOn := now;
      totalAmount := 0.0;
      grossProfit := 0.0;
      isVerified := false;
    }

    /**
     * Recomputes the total amount and the gross profit from the cost price
     * `stockCost` the referenced stock row has (None when it has none). The
     * stock row is only read: it is not in the frame.
     */
    method Save(stockCost: Option<real>)
      modifies this
      ensures Derived(stockCost)
      ensures isVerified == old(isVerified)
    {
      totalAmount := qtySold as real * price;
      if stockCost.Some? {
        grossProfit := (price - stockCost.value) * qtySold as real;
      } else {
        grossProfit := 0.0;
      }
    }
  }
}
