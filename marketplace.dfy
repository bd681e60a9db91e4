/** The marketplace page (`pages/marketplace.jsx`): a fixed catalogue
    filtered by category and by a case-insensitive search on the title. */
module Marketplace {
  import opened Common
  import Text

  /** A catalogue entry. The price is display text; ratings are reals. */
  datatype Listing = Listing(id: int, title: string, category: string, price: string,
                             location: string, rating: real, reviews: nat, owner: string,
                             available: bool, featured: bool)

  /** The page's own catalogue. */
  const Catalogue: seq<Listing> := [
    Listing(1, "MacBook Pro 13-inch (M2)", "Electronics", "\U{20B9}2,500/week", "Indiranagar, Bengaluru",
            4.8, 24, "Alex K.", true, true),
    Listing(2, "Canon DSLR Camera Kit", "Electronics", "\U{20B9}1,200/week", "Koramangala, Bengaluru",
            4.9, 18, "Sarah M.", true, false),
    Listing(3, "Honda City - Self Drive", "Vehicles", "\U{20B9}1,800/day", "Whitefield, Bengaluru",
            4.6, 32, "Mike R.", false, true),
    Listing(4, "Mountain Bike - Trek", "Sports", "\U{20B9}300/day", "Jayanagar, Bengaluru",
            4.7, 15, "Emma L.", true, false),
    Listing(5, "Party Sound System", "Party & Events", "\U{20B9}3,500/day", "Electronic City, Bengaluru",
            4.5, 28, "David P.", true, true),
    Listing(6, "Power Drill Set", "Tools", "\U{20B9}200/day", "HSR Layout, Bengaluru",
            4.4, 12, "Lisa T.", true, false)]

  const AllCategory := "All"

  /** The filter's predicate: the category matches (or is "All") and the
      lower-cased title contains the lower-cased query. */
  predicate Shown(item: Listing, query: string, category: string)
  {
    (category == AllCategory || item.category == category) &&
    Text.Contains(Text.Lower(item.title), Text.Lower(query))
  }

  /** `filteredItems`. */
  function FilteredItems(items: seq<Listing>, query: string, category: string): (r: seq<Listing>)
    ensures forall x :: x in r <==> x in items && Shown(x, query, category)
    ensures IsSubsequence(r, items)
    ensures |r| <= |items|
  {
    FilterMember(items, (x: Listing) => Shown(x, query, category));
    FilterIsSubsequence(items, (x: Listing) => Shown(x, query, category));
    Filter(items, (x: Listing) => Shown(x, query, category))
  }

  /** With an empty query and "All" every item is shown, in order. */
  lemma EverythingShownByDefault(items: seq<Listing>)
    ensures FilteredItems(items, "", AllCategory) == items
  {
    forall i | 0 <= i < |items|
      ensures Shown(items[i], "", AllCategory)
    {
      Text.EmptyIsContained(Text.Lower(items[i].title));
    }
    FilterKeepsAll(items, (x: Listing) => Shown(x, "", AllCategory));
  }

  /** A category filter never shows an item of another category. */
  lemma CategoryRespected(items: seq<Listing>, query: string, category: string, x: Listing)
    requires category != AllCategory && x in FilteredItems(items, query, category)
    ensures x.category == category
  {
  }

  /** The "Showing N items" count: the number of items the filter keeps,
      never more than the catalogue. */
  function ShownCount(items: seq<Listing>, query: string, category: string): (n: nat)
    ensures n == |FilteredItems(items, query, category)|
    ensures n == Count(items, (x: Listing) => Shown(x, query, category))
  {
    CountIsFilterLength(items, (x: Listing) => Shown(x, query, category));
    |FilteredItems(items, query, category)|
  }

  /** On the page's own catalogue the default view counts all six listings. */
  lemma CatalogueAllShown()
    ensures ShownCount(Catalogue, "", AllCategory) == 6
  {
    EverythingShownByDefault(Catalogue);
  }

  /** Only the third listing of the catalogue is a vehicle. */
  lemma CatalogueCategories()
    ensures forall i :: 0 <= i < |Catalogue| && i != 2 ==> Catalogue[i].category != "Vehicles"
    ensures Catalogue[2].category == "Vehicles"
  {
  }

  /** An empty query keeps every listing of the chosen category. */
  lemma ShownWithEmptyQuery(x: Listing, category: string)
    requires category == AllCategory || x.category == category
    ensures Shown(x, "", category)
  {
    Text.EmptyIsContained(Text.Lower(x.title));
  }

  /** On the page's own catalogue the "Vehicles" button shows the
      self-drive car and nothing else. */
  lemma CatalogueVehicles()
    ensures forall x :: x in FilteredItems(Catalogue, "", "Vehicles") <==> x == Catalogue[2]
  {
    CatalogueCategories();
    ShownWithEmptyQuery(Catalogue[2], "Vehicles");
    forall x | x in Catalogue && x.category == "Vehicles"
      ensures x == Catalogue[2]
    {
      var i :| 0 <= i < |Catalogue| && Catalogue[i] == x;
    }
  }

  /** The rent button is disabled exactly for an unavailable item. */
  predicate RentDisabled(item: Listing)
  {
    !item.available
  }

  /** The button's label follows the same condition. */
  function RentLabel(item: Listing): (caption: string)
    ensures caption == "Unavailable" <==> RentDisabled(item)
    ensures caption == "Request to Rent" <==> !RentDisabled(item)
  {
    if item.available then "Request to Rent" else "Unavailable"
  }

  /** The number of filled stars, `i < Math.floor(rating)` for i in 0..4. */
  function FilledStars(rating: real): (n: nat)
    ensures n <= 5
    ensures 0.0 <= rating ==> n as real <= rating
    ensures 0.0 <= rating < 5.0 ==> rating < n as real + 1.0
  {
    if rating < 0.0 then 0 else if rating.Floor >= 5 then 5 else rating.Floor
  }
}
