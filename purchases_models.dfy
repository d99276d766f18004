/** A purchase line and the fields its save derives (purchases/models.py). */
module PurchaseModels {
  import opened Common
  import opened Inventory

  /** The minimum selling price a save derives from the unit cost: the cost is 80% of it. */
  function SuggestedPrice(unitCost: real): real {
    Round2(unitCost / 0.8)
  }

  /** Up to rounding, the unit cost is exactly 80% of the suggested price. */
  lemma SuggestedPriceMargin(unitCost: real)
    ensures -0.004 <= 0.8 * SuggestedPrice(unitCost) - unitCost <= 0.004
  {
    var r := SuggestedPrice(unitCost);
    assert -0.005 <= r - unitCost / 0.8 <= 0.005;
    assert 0.8 * (unitCost / 0.8) == unitCost;
  }

  /** From two paise up, the suggested price never undercuts the unit cost. */
  lemma SuggestedPriceCoversCost(unitCost: real)
    requires unitCost >= 0.02
    ensures SuggestedPrice(unitCost) >= unitCost
  {
    SuggestedPriceMargin(unitCost);
  }

  class Purchase {
    const stockId: StockId
    const qtyPurchased: nat
    const unitCost: real
    var sellingPrice: Option<real>
    var totalCost: real
    var isReceived: bool

    /** The derived fields agree with the inputs they are computed from. */
    predicate Derived()
      reads this
    {
      && totalCost == qtyPurchased as real * unitCost
      && sellingPrice == Some(SuggestedPrice(unitCost))
    }

    /**
     * A new, unsaved purchase: not received and with no selling price. The
     * database leaves the total unset until the first save. Here it starts
     * at 0.0 as a placeholder, and the save that every creation path runs
     * at once overwrites it.
     */
    constructor (stockId: StockId, qtyPurchased: nat, unitCost: real)
      ensures this.stockId == stockId && this.qtyPurchased == qtyPurchased && this.unitCost == unitCost
      ensures sellingPrice == None && totalCost == 0.0 && !isReceived
    {
      this.stockId := stockId;
      this.qtyPurchased := qtyPurchased;
      this.unitCost := unitCost;
      sellingPrice := None;
      totalCost := 0.0;
      isReceived := false;
    }

    /**
     * Recomputes the total cost and overwrites the selling price, whatever it
     * was; the stock row is not touched (it is not in the frame).
     */
    method Save()
      modifies this
      ensures Derived()
      ensures isReceived == old(isReceived)
    {
      totalCost := qtyPurchased as real * unitCost;
      sellingPrice := Some(SuggestedPrice(unitCost));
    }
  }
}
