/** The matching agent (`agents/matching_agent/matching_agent.py`): for one
    rental, among the available items of its category, picks the item whose
    owner has the highest credibility (the first such item in table order),
    assigns it to the rental and marks it unavailable. */
module MatchingAgent {
  import opened Common
  import opened Tables

  /** What the agent answers without a store client. */
  const MockItem := "mock-item-001"

  /** The category searched: `rental.get("item_type") or "General"`. */
  function Category(r: Rental): (c: string)
    ensures Present(r.itemType) ==> c == r.itemType.value
    ensures !Present(r.itemType) ==> c == "General"
  {
    if Present(r.itemType) then r.itemType.value else "General"
  }

  /** `fetch_available_items(category)`: the available items of that
      category, in table order. */
  function FetchAvailableItems(items: seq<Item>, category: string): (r: seq<Item>)
    ensures forall x :: x in r <==> x in items && x.available && x.category == category
    ensures IsSubsequence(r, items)
  {
    FilterMember(items, (x: Item) => x.available && x.category == category);
    FilterIsSubsequence(items, (x: Item) => x.available && x.category == category);
    Filter(items, (x: Item) => x.available && x.category == category)
  }

  /** `get_owner_credibility(user_id)`: 0 for a missing or empty owner id,
      the stored score otherwise. `.single()` raises when no user row exists;
      that is `None` here. */
  function OwnerCredibility(users: map<string, User>, ownerId: Option<string>): (c: Option<real>)
    ensures !Present(ownerId) ==> c == Some(0.0)
    ensures Present(ownerId) && ownerId.value in users ==> c == Some(users[ownerId.value].credibilityScore)
    ensures Present(ownerId) && ownerId.value !in users ==> c.None?
  {
    if !Present(ownerId) then Some(0.0)
    else if ownerId.value in users then Some(users[ownerId.value].credibilityScore)
    else None
  }

  /** Every candidate's owner score can be read, so the sort does not raise. */
  predicate AllKnown(users: map<string, User>, cands: seq<Item>)
  {
    forall i :: 0 <= i < |cands| ==> OwnerCredibility(users, cands[i].ownerId).Some?
  }

  /** The sort keys, one per candidate. */
  function Keys(users: map<string, User>, cands: seq<Item>): (k: seq<real>)
    requires AllKnown(users, cands)
    ensures |k| == |cands|
    ensures forall i :: 0 <= i < |cands| ==> k[i] == OwnerCredibility(users, cands[i].ownerId).value
  {
    seq(|cands|, i requires 0 <= i < |cands| => OwnerCredibility(users, cands[i].ownerId).value)
  }

  /** Position `i` holds a maximal key and no earlier position does: what a
      stable descending sort puts first. */
  predicate IsFirstMax(keys: seq<real>, i: int)
  {
    0 <= i < |keys| &&
    (forall j :: 0 <= j < |keys| ==> keys[j] <= keys[i]) &&
    (forall j :: 0 <= j < i ==> keys[j] < keys[i])
  }

  /** The position of the first maximal key. */
  function FirstMaxIndex(keys: seq<real>): (i: nat)
    requires keys != []
    ensures IsFirstMax(keys, i)
  {
    if |keys| == 1 then 0
    else
      var j := FirstMaxIndex(keys[..|keys| - 1]);
      if keys[|keys| - 1] > keys[j] then |keys| - 1 else j
  }

  /** Only one position is the first maximal one. */
  lemma FirstMaxUnique(keys: seq<real>, i: int, j: int)
    requires IsFirstMax(keys, i) && IsFirstMax(keys, j)
    ensures i == j
  {
    assert keys[i] <= keys[j] && keys[j] <= keys[i];
  }

  /** `select_best_item`: the key computation and `items.sort(..., reverse=True)`
      followed by `items[0]`, as a scan for the first maximal key (Python's
      sort is stable, also with `reverse`). */
  method SelectBest(keys: seq<real>) returns (best: nat)
    requires keys != []
    ensures IsFirstMax(keys, best)
  {
    best := 0;
    var i := 1;
    while i < |keys|
      invariant 1 <= i <= |keys|
      invariant IsFirstMax(keys[..i], best)
    {
      if keys[i] > keys[best] {
        best := i;
      }
      i := i + 1;
    }
    assert keys[..i] == keys;
  }

  /** The item `select_best_item` returns, or None when there is no
      candidate or a score lookup raises. */
  function Best(users: map<string, User>, cands: seq<Item>): (b: Option<Item>)
    ensures b.Some? <==> cands != [] && AllKnown(users, cands)
    ensures b.Some? ==>
              exists i :: 0 <= i < |cands| && cands[i] == b.value &&
                IsFirstMax(Keys(users, cands), i)
  {
    if cands == [] || !AllKnown(users, cands) then None
    else
      var i := FirstMaxIndex(Keys(users, cands));
      Some(cands[i])
  }

  /** `update({"available": False}).eq("item_id", id)`. */
  function MarkUnavailable(items: seq<Item>, itemId: string): (r: seq<Item>)
    ensures |r| == |items|
    ensures forall i :: 0 <= i < |items| ==>
              r[i] == if items[i].itemId == itemId then items[i].(available := false) else items[i]
  {
    UpdateWhere(items, (x: Item) => x.itemId == itemId, (x: Item) => x.(available := false))
  }

  /** The answer `{"item_id": ...}` and the two tables afterwards. */
  datatype Matched = Matched(result: Option<string>, rentals: seq<Rental>, items: seq<Item>)

  /** `match_rentals(rental)`. */
  function Match(client: bool, users: map<string, User>, items: seq<Item>, rentals: seq<Rental>,
                 rental: Rental): (m: Matched)
    ensures !client ==> m == Matched(Some(MockItem), rentals, items)
    ensures client && m.result.None? ==> m.rentals == rentals && m.items == items
    ensures client && m.result.Some? ==>
              var b := Best(users, FetchAvailableItems(items, Category(rental)));
              b.Some? && m.result == Some(b.value.itemId) &&
              m.rentals == AssignItem(rentals, rental.rentalId, b.value.itemId) &&
              m.items == MarkUnavailable(items, b.value.itemId)
    ensures client ==> (m.result.Some? <==> Best(users, FetchAvailableItems(items, Category(rental))).Some?)
  {
    if !client then Matched(Some(MockItem), rentals, items)
    else
      var best := Best(users, FetchAvailableItems(items, Category(rental)));
      match best
      case None => Matched(None, rentals, items)
      case Some(b) =>
        Matched(Some(b.itemId), AssignItem(rentals, rental.rentalId, b.itemId),
                MarkUnavailable(items, b.itemId))
  }

  /** A matched item was available, of the rental's category, and no
      candidate's owner has a higher score; afterwards every row of that
      item is unavailable and every row of the rental is active with it. */
  lemma MatchedIsBest(users: map<string, User>, items: seq<Item>, rentals: seq<Rental>, rental: Rental)
    requires Match(true, users, items, rentals, rental).result.Some?
    ensures var m := Match(true, users, items, rentals, rental);
            var cands := FetchAvailableItems(items, Category(rental));
            exists b :: b in items && b.available && b.category == Category(rental) &&
              b.itemId == m.result.value &&
              (forall c :: c in cands ==>
                 OwnerCredibility(users, c.ownerId).value <= OwnerCredibility(users, b.ownerId).value) &&
              (forall k :: 0 <= k < |m.items| && items[k].itemId == b.itemId ==> !m.items[k].available) &&
              (forall k :: 0 <= k < |m.rentals| && rentals[k].rentalId == rental.rentalId ==>
                 m.rentals[k].status == "active" && m.rentals[k].itemId == Some(b.itemId))
  {
    var cands := FetchAvailableItems(items, Category(rental));
    var keys := Keys(users, cands);
    MatchOfBest(users, items, rentals, rental);
    var i := FirstMaxIndex(keys);
    var b := cands[i];
    var m := Match(true, users, items, rentals, rental);
    assert m.items == MarkUnavailable(items, b.itemId);
    assert m.rentals == AssignItem(rentals, rental.rentalId, b.itemId);
    assert b in cands;
    forall c | c in cands
      ensures OwnerCredibility(users, c.ownerId).value <= OwnerCredibility(users, b.ownerId).value
    {
      var j :| 0 <= j < |cands| && cands[j] == c;
      assert keys[j] <= keys[i];
    }
  }

  /** A candidate whose owner has no user row leaves the rental unmatched. */
  lemma UnknownOwnerNoMatch(users: map<string, User>, items: seq<Item>, rentals: seq<Rental>,
                            rental: Rental, i: int)
    requires 0 <= i < |FetchAvailableItems(items, Category(rental))|
    requires OwnerCredibility(users, FetchAvailableItems(items, Category(rental))[i].ownerId).None?
    ensures Match(true, users, items, rentals, rental) == Matched(None, rentals, items)
  {
  }

  /** With every owner score known, the match is the first candidate with
      the highest score. */
  lemma MatchOfBest(users: map<string, User>, items: seq<Item>, rentals: seq<Rental>, rental: Rental)
    requires FetchAvailableItems(items, Category(rental)) != []
    requires AllKnown(users, FetchAvailableItems(items, Category(rental)))
    ensures var cands := FetchAvailableItems(items, Category(rental));
            var id := cands[FirstMaxIndex(Keys(users, cands))].itemId;
            Match(true, users, items, rentals, rental) ==
              Matched(Some(id), AssignItem(rentals, rental.rentalId, id), MarkUnavailable(items, id))
  {
  }

  /** The agent as it runs: without a client it answers the mock item; it
      reads the candidates, computes every owner's score (a missing user row
      aborts with no match), picks the first best one and makes the two writes. */
  method MatchRentals(db: Db, client: bool, rental: Rental) returns (result: Option<string>)
    modifies db`rentals, db`items
    ensures Matched(result, db.rentals, db.items) ==
            Match(client, db.users, old(db.items), old(db.rentals), rental)
  {
    if !client {
      return Some(MockItem);
    }
    var cands := FetchAvailableItems(db.items, Category(rental));
    if cands == [] {
      return None;
    }
    var keys: seq<real> := [];
    for i := 0 to |cands|
      invariant |keys| == i
      invariant forall j :: 0 <= j < i ==> OwnerCredibility(db.users, cands[j].ownerId) == Some(keys[j])
    {
      var c := OwnerCredibility(db.users, cands[i].ownerId);
      if c.None? {
        UnknownOwnerNoMatch(db.users, db.items, db.rentals, rental, i);
        return None;
      }
      keys := keys + [c.value];
    }
    assert keys == Keys(db.users, cands);
    var best := SelectBest(keys);
    FirstMaxUnique(keys, best, FirstMaxIndex(keys));
    var itemId := cands[best].itemId;
    MatchOfBest(db.users, db.items, db.rentals, rental);
    db.rentals := AssignItem(db.rentals, rental.rentalId, itemId);
    db.items := MarkUnavailable(db.items, itemId);
    result := Some(itemId);
  }
}
