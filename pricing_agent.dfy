/** The pricing agent (`agents/pricing_agent/pricing_agent.py`). The file
    defines `calculate_price` twice: the demand-tier price of an item
    (line 51) and the per-rental price base × days (line 81). The second
    definition replaces the first, so the orchestrator gets the per-rental
    one and `run_pricing_agent`'s two-argument call cannot succeed. Both
    definitions are modelled; `RunPricingAsWritten` is the run as the file
    has it, `RunPricing` the run with the demand-tier price it evidently
    means to call. Rounding to two decimals is not modelled. */
module PricingAgent {
  import opened Common
  import opened Tables

  const SecondsPerDay := 86400
  const WindowDays := 90
  const HighDemand := 5
  const LowDemand := 1

  /** A rental counts as recent when it has a start date later than the
      start of the 90-day window (dates are midnights, `now` is in seconds). */
  predicate IsRecent(r: Rental, nowSecs: int)
  {
    r.startDay.Some? && r.startDay.value * SecondsPerDay > nowSecs - WindowDays * SecondsPerDay
  }

  /** `demand_score`: the number of recent rentals. */
  function Demand(rentals: seq<Rental>, nowSecs: int): (d: nat)
    ensures d <= |rentals|
    ensures d == |Filter(rentals, (r: Rental) => IsRecent(r, nowSecs))|
  {
    if rentals == [] then 0
    else (if IsRecent(rentals[0], nowSecs) then 1 else 0) + Demand(rentals[1..], nowSecs)
  }

  /** The first `calculate_price(item, rentals)`: the base price when there
      is no history at all; otherwise +10% for five or more recent rentals,
      −10% for at most one, and unchanged in between. */
  function DemandPrice(base: real, rentals: seq<Rental>, nowSecs: int): (p: real)
    ensures rentals == [] ==> p == base
    ensures p == base || p == base * 1.1 || p == base * 0.9
    ensures Demand(rentals, nowSecs) >= HighDemand ==> p == base * 1.1
    ensures rentals != [] && Demand(rentals, nowSecs) <= LowDemand ==> p == base * 0.9
    ensures LowDemand < Demand(rentals, nowSecs) < HighDemand ==> p == base
  {
    if rentals == [] then base
    else if Demand(rentals, nowSecs) >= HighDemand then base * 1.1
    else if Demand(rentals, nowSecs) <= LowDemand then base * 0.9
    else base
  }

  /** The demand price stays within 10% of a non-negative base price. */
  lemma DemandPriceBounds(base: real, rentals: seq<Rental>, nowSecs: int)
    requires base >= 0.0
    ensures base * 0.9 <= DemandPrice(base, rentals, nowSecs) <= base * 1.1
  {
  }

  /** Monotone in demand: over two non-empty histories, the one with more
      recent rentals is priced at least as high (for a non-negative base). */
  lemma DemandPriceMonotone(base: real, xs: seq<Rental>, ys: seq<Rental>, nowSecs: int)
    requires base >= 0.0 && xs != [] && ys != []
    requires Demand(xs, nowSecs) <= Demand(ys, nowSecs)
    ensures DemandPrice(base, xs, nowSecs) <= DemandPrice(base, ys, nowSecs)
  {
  }

  /** An empty history keeps the base price, while a history of only old
      rentals (demand 0 as well) lowers it by 10%. */
  lemma EmptyHistoryKeepsBase(base: real, old_: Rental, nowSecs: int)
    requires !IsRecent(old_, nowSecs)
    ensures DemandPrice(base, [], nowSecs) == base
    ensures DemandPrice(base, [old_], nowSecs) == base * 0.9
  {
    assert [old_][1..] == [];
  }

  /** A daily price times a number of days. */
  function Charge(rate: real, days: int): real
  {
    rate * days as real
  }

  /** The fallback price of the per-rental `calculate_price`. */
  const FallbackPrice := 150.0

  /** The second `calculate_price(rental_id)`: the item's daily price times
      the rental's length in days (end minus start). Every failure gives
      150: no client, a query that raises, no rental row, no item id, no item
      row, and a null price or date (arithmetic on `None` raises). */
  function RentalPrice(client: bool, queryFails: bool, rentals: seq<Rental>, items: seq<Item>,
                       rentalId: string): (p: real)
    ensures !client || queryFails ==> p == FallbackPrice
    ensures FindRental(rentals, rentalId).None? ==> p == FallbackPrice
    ensures var r := FindRental(rentals, rentalId);
            r.Some? && !Present(r.value.itemId) ==> p == FallbackPrice
    ensures var r := FindRental(rentals, rentalId);
            r.Some? && Present(r.value.itemId) && FindItem(items, r.value.itemId.value).None? ==>
              p == FallbackPrice
    ensures var r := FindRental(rentals, rentalId);
            r.Some? && Present(r.value.itemId) && FindItem(items, r.value.itemId.value).Some? &&
            (FindItem(items, r.value.itemId.value).value.pricePerDay.None? ||
             r.value.startDay.None? || r.value.endDay.None?) ==>
              p == FallbackPrice
    ensures var r := FindRental(rentals, rentalId);
            client && !queryFails && r.Some? && Present(r.value.itemId) &&
            FindItem(items, r.value.itemId.value).Some? &&
            FindItem(items, r.value.itemId.value).value.pricePerDay.Some? &&
            r.value.startDay.Some? && r.value.endDay.Some? ==>
              p == Charge(FindItem(items, r.value.itemId.value).value.pricePerDay.value,
                          r.value.endDay.value - r.value.startDay.value)
    ensures p != FallbackPrice ==>
              client && !queryFails &&
              exists r, it :: r in rentals && r.rentalId == rentalId && Present(r.itemId) &&
                it in items && Some(it.itemId) == r.itemId &&
                it.pricePerDay.Some? && r.startDay.Some? && r.endDay.Some? &&
                p == Charge(it.pricePerDay.value, r.endDay.value - r.startDay.value)
  {
    if !client || queryFails then FallbackPrice
    else match FindRental(rentals, rentalId)
      case None => FallbackPrice
      case Some(r) =>
        if !Present(r.itemId) then FallbackPrice
        else match FindItem(items, r.itemId.value)
          case None => FallbackPrice
          case Some(it) =>
            if it.pricePerDay.None? || r.startDay.None? || r.endDay.None? then FallbackPrice
            else Charge(it.pricePerDay.value, r.endDay.value - r.startDay.value)
  }

  /** A rental whose end date equals its start date is priced 0, which the
      orchestrator reads as "no price" and does not write. */
  lemma SameDayRentalIsFree(rentals: seq<Rental>, items: seq<Item>, r: Rental, it: Item)
    requires FindRental(rentals, r.rentalId) == Some(r)
    requires Present(r.itemId) && FindItem(items, r.itemId.value) == Some(it)
    requires it.pricePerDay.Some? && r.startDay.Some? && r.endDay == r.startDay
    ensures RentalPrice(true, false, rentals, items, r.rentalId) == 0.0
  {
  }

  /** Two rentals of the same item: with a non-negative daily price the
      longer one is never priced lower. */
  lemma LongerRentalCostsMore(rentals: seq<Rental>, items: seq<Item>, a: Rental, b: Rental, it: Item)
    requires FindRental(rentals, a.rentalId) == Some(a) && FindRental(rentals, b.rentalId) == Some(b)
    requires Present(a.itemId) && b.itemId == a.itemId && FindItem(items, a.itemId.value) == Some(it)
    requires it.pricePerDay.Some? && it.pricePerDay.value >= 0.0
    requires a.startDay.Some? && a.endDay.Some? && b.startDay.Some? && b.endDay.Some?
    requires a.endDay.value - a.startDay.value <= b.endDay.value - b.startDay.value
    ensures RentalPrice(true, false, rentals, items, a.rentalId) <=
            RentalPrice(true, false, rentals, items, b.rentalId)
  {
    PriceOfFound(rentals, items, a, it);
    PriceOfFound(rentals, items, b, it);
    ChargeMonotone(it.pricePerDay.value, a.endDay.value - a.startDay.value, b.endDay.value - b.startDay.value);
  }

  /** A rental whose item, daily price and dates are all found costs the
      daily price times its days. */
  lemma PriceOfFound(rentals: seq<Rental>, items: seq<Item>, r: Rental, it: Item)
    requires FindRental(rentals, r.rentalId) == Some(r)
    requires Present(r.itemId) && FindItem(items, r.itemId.value) == Some(it)
    requires it.pricePerDay.Some? && r.startDay.Some? && r.endDay.Some?
    ensures RentalPrice(true, false, rentals, items, r.rentalId) ==
            Charge(it.pricePerDay.value, r.endDay.value - r.startDay.value)
  {
  }

  lemma ChargeMonotone(rate: real, d1: int, d2: int)
    requires rate >= 0.0 && d1 <= d2
    ensures Charge(rate, d1) <= Charge(rate, d2)
  {
    assert Charge(rate, d2) - Charge(rate, d1) == rate * (d2 - d1) as real;
  }


  /** `run_pricing_agent`'s answer. */
  datatype Reply = MissingItemId | ItemNotFound(itemId: string) | AdjustedPrice(price: Option<real>) | Crashed

  /** `fetch_rental_history(item_id)`. */
  function RentalHistory(rentals: seq<Rental>, itemId: string): (r: seq<Rental>)
    ensures forall x :: x in r <==> x in rentals && x.itemId == Some(itemId)
  {
    FilterMember(rentals, (x: Rental) => x.itemId == Some(itemId));
    Filter(rentals, (x: Rental) => x.itemId == Some(itemId))
  }

  /** `run_pricing_agent(task_input)` as written: past the two error
      answers, the one-argument `calculate_price` is called with two
      arguments and raises, so no price is ever adjusted. Without a client
      `fetch_item` raises first. */
  function RunPricingAsWritten(client: bool, itemId: Option<string>, items: seq<Item>): (r: Reply)
    ensures !Present(itemId) ==> r == MissingItemId
    ensures Present(itemId) && client && FindItem(items, itemId.value).None? ==> r == ItemNotFound(itemId.value)
    ensures !r.AdjustedPrice?
  {
    if !Present(itemId) then MissingItemId
    else if !client then Crashed
    else if FindItem(items, itemId.value).None? then ItemNotFound(itemId.value)
    else Crashed
  }

  /** For an existing item the run as written always fails. */
  lemma RunAsWrittenCrashes(itemId: string, items: seq<Item>, it: Item)
    requires itemId != "" && it in items && it.itemId == itemId
    ensures RunPricingAsWritten(true, Some(itemId), items) == Crashed
  {
  }

  /** `update_price(item_id, new_price)`: every row of the item gets the price. */
  function SetPrice(items: seq<Item>, itemId: string, price: Option<real>): seq<Item>
  {
    UpdateWhere(items, (x: Item) => x.itemId == itemId, (x: Item) => x.(pricePerDay := price))
  }

  /** The run's answer and the `items` table afterwards. */
  datatype Priced = Priced(reply: Reply, items: seq<Item>)

  /** The demand-tier price for a possibly null base: null stays null when
      the price is returned unchanged, and multiplying null raises. */
  function TierPrice(base: Option<real>, history: seq<Rental>, nowSecs: int): (r: Option<Option<real>>)
    ensures base.Some? ==> r == Some(Some(DemandPrice(base.value, history, nowSecs)))
  {
    if base.Some? then Some(Some(DemandPrice(base.value, history, nowSecs)))
    else if history == [] || (LowDemand < Demand(history, nowSecs) < HighDemand) then Some(None)
    else None
  }

  /** `run_pricing_agent` calling the demand-tier `calculate_price(item,
      rentals)` as intended, then writing the price. */
  function RunPricing(client: bool, itemId: Option<string>, items: seq<Item>, rentals: seq<Rental>,
                      nowSecs: int): (r: Priced)
    ensures !Present(itemId) ==> r == Priced(MissingItemId, items)
    ensures !r.reply.AdjustedPrice? ==> r.items == items
    ensures r.reply.AdjustedPrice? ==>
              client && Present(itemId) && FindItem(items, itemId.value).Some? &&
              r.items == SetPrice(items, itemId.value, r.reply.price)
    ensures Present(itemId) && client && FindItem(items, itemId.value).Some? &&
            FindItem(items, itemId.value).value.pricePerDay.Some? ==>
              r.reply == AdjustedPrice(Some(DemandPrice(FindItem(items, itemId.value).value.pricePerDay.value,
                                                        RentalHistory(rentals, itemId.value), nowSecs)))
  {
    if !Present(itemId) then Priced(MissingItemId, items)
    else if !client then Priced(Crashed, items)
    else match FindItem(items, itemId.value)
      case None => Priced(ItemNotFound(itemId.value), items)
      case Some(it) =>
        match TierPrice(it.pricePerDay, RentalHistory(rentals, itemId.value), nowSecs)
        case None => Priced(Crashed, items)
        case Some(p) => Priced(AdjustedPrice(p), SetPrice(items, itemId.value, p))
  }

  /** After a successful run every row of the item carries the new price,
      which is within 10% of the old one when that was non-negative. */
  lemma RunPricingUpdatesItem(itemId: string, items: seq<Item>, rentals: seq<Rental>, nowSecs: int, k: int)
    requires itemId != "" && 0 <= k < |items| && items[k].itemId == itemId
    requires FindItem(items, itemId).value.pricePerDay.Some?
    requires FindItem(items, itemId).value.pricePerDay.value >= 0.0
    ensures var r := RunPricing(true, Some(itemId), items, rentals, nowSecs);
            var base := FindItem(items, itemId).value.pricePerDay.value;
            r.reply.AdjustedPrice? && r.items[k].pricePerDay == r.reply.price &&
            base * 0.9 <= r.reply.price.value <= base * 1.1
  {
    var base := FindItem(items, itemId).value.pricePerDay.value;
    DemandPriceBounds(base, RentalHistory(rentals, itemId), nowSecs);
  }

  /** `update_price` on the store. */
  method UpdatePrice(db: Db, itemId: string, price: Option<real>)
    modifies db`items
    ensures db.items == SetPrice(old(db.items), itemId, price)
  {
    db.items := SetPrice(db.items, itemId, price);
  }

  /** The intended run on the store: fetch the item, its history, price it
      by demand and write the price. */
  method RunPricingAgent(db: Db, client: bool, itemId: Option<string>, nowSecs: int) returns (reply: Reply)
    modifies db`items
    ensures Priced(reply, db.items) == RunPricing(client, itemId, old(db.items), db.rentals, nowSecs)
  {
    if !Present(itemId) {
      return MissingItemId;
    }
    if !client {
      return Crashed;
    }
    var item := FindItem(db.items, itemId.value);
    if item.None? {
      return ItemNotFound(itemId.value);
    }
    var history := RentalHistory(db.rentals, itemId.value);
    var price := TierPrice(item.value.pricePerDay, history, nowSecs);
    if price.None? {
      return Crashed;
    }
    UpdatePrice(db, itemId.value, price.value);
    reply := AdjustedPrice(price.value);
  }
}
