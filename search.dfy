/** The search page (`pages/search.jsx`): the category icons, the query
    `performSearch` builds on the `items` table step by step (available
    items, then the text, category and price filters, then the ordering and
    the 50-row limit), and the page's filter state with `clearFilters`. */
module Search {
  import opened Common
  import opened Tables
  import Text
  import Ordering

  const DefaultIcon := "\U{1F4E6}"

  /** The icon table of `getCategoryIcon`. */
  const Icons: map<string, string> := map[
    "Electronics" := "\U{1F4F1}", "Furniture" := "\U{1FA91}", "Tools" := "\U{1F527}",
    "Sports" := "\U{26BD}", "Books" := "\U{1F4DA}", "Clothing" := "\U{1F455}",
    "Vehicles" := "\U{1F697}", "Photography" := "\U{1F4F7}", "Music" := "\U{1F3B5}",
    "Outdoor" := "\U{1F3D5}\U{FE0F}", "Home & Garden" := "\U{1F3E1}", "default" := DefaultIcon]

  /** `getCategoryIcon(category)`: the mapped icon, the default one for any
      other category. */
  function CategoryIcon(category: string): (icon: string)
    ensures category in Icons ==> icon == Icons[category]
    ensures category !in Icons ==> icon == DefaultIcon
    ensures icon != ""
  {
    if category in Icons && Icons[category] != "" then Icons[category] else Icons["default"]
  }

  /** Each of the eleven named categories has an icon of its own, different
      from the default. */
  lemma NamedCategoriesHaveOwnIcon(a: string, b: string)
    requires a in Icons && b in Icons && a != "default" && b != "default" && a != b
    ensures CategoryIcon(a) != CategoryIcon(b)
    ensures CategoryIcon(a) != DefaultIcon
  {
  }

  const AllCategories := "All Categories"
  const PriceFloor := 0.0
  const PriceCeiling := 1000.0
  const ResultLimit := 50

  /** What the filters hold when the query is built. */
  datatype Params = Params(query: string, category: string, minPrice: real, maxPrice: real,
                           availability: string, sortBy: string)

  /** `ilike '%q%'` on a nullable column: a null never matches. Case is
      folded for ASCII letters. */
  predicate ILike(column: Option<string>, q: string)
  {
    column.Some? && Text.Contains(Text.Lower(column.value), Text.Lower(q))
  }

  /** The `.or(title.ilike…, description.ilike…, category.ilike…)` filter. */
  predicate TextMatches(q: string, it: Item)
  {
    ILike(Some(it.title), q) || ILike(it.description, q) || ILike(Some(it.category), q)
  }

  /** The conditions the query puts on one row. A bound is applied only when
      it differs from its default, and then a null price fails it. */
  predicate Matches(p: Params, it: Item)
  {
    it.available &&
    (!Text.Blank(p.query) ==> TextMatches(p.query, it)) &&
    (p.category != "" && p.category != AllCategories ==> it.category == p.category) &&
    (p.minPrice > PriceFloor ==> it.pricePerDay.Some? && it.pricePerDay.value >= p.minPrice) &&
    (p.maxPrice < PriceCeiling ==> it.pricePerDay.Some? && it.pricePerDay.value <= p.maxPrice)
  }

  /** `.eq('available', true)`. */
  function AvailableOnly(rows: seq<Item>): (r: seq<Item>)
    ensures forall x :: x in r <==> x in rows && x.available
  {
    FilterMember(rows, (x: Item) => x.available);
    Filter(rows, (x: Item) => x.available)
  }

  /** The text filter, applied only for a query that is not blank (the
      untrimmed query goes into the pattern). */
  function TextFilter(rows: seq<Item>, q: string): (r: seq<Item>)
    ensures forall x :: x in r <==> x in rows && (!Text.Blank(q) ==> TextMatches(q, x))
  {
    if Text.Blank(q) then rows
    else
      FilterMember(rows, (x: Item) => TextMatches(q, x));
      Filter(rows, (x: Item) => TextMatches(q, x))
  }

  /** The category filter, skipped for "All Categories" or no category. */
  function CategoryFilter(rows: seq<Item>, category: string): (r: seq<Item>)
    ensures forall x :: x in r <==> x in rows && (category != "" && category != AllCategories ==> x.category == category)
  {
    if category == "" || category == AllCategories then rows
    else
      FilterMember(rows, (x: Item) => x.category == category);
      Filter(rows, (x: Item) => x.category == category)
  }

  /** `.gte('price_per_day', min)`, only for a minimum above 0. */
  function MinFilter(rows: seq<Item>, min: real): (r: seq<Item>)
    ensures forall x :: x in r <==>
              x in rows && (min > PriceFloor ==> x.pricePerDay.Some? && x.pricePerDay.value >= min)
  {
    if min <= PriceFloor then rows
    else
      FilterMember(rows, (x: Item) => x.pricePerDay.Some? && x.pricePerDay.value >= min);
      Filter(rows, (x: Item) => x.pricePerDay.Some? && x.pricePerDay.value >= min)
  }

  /** `.lte('price_per_day', max)`, only for a maximum below 1000. */
  function MaxFilter(rows: seq<Item>, max: real): (r: seq<Item>)
    ensures forall x :: x in r <==>
              x in rows && (max < PriceCeiling ==> x.pricePerDay.Some? && x.pricePerDay.value <= max)
  {
    if max >= PriceCeiling then rows
    else
      FilterMember(rows, (x: Item) => x.pricePerDay.Some? && x.pricePerDay.value <= max);
      Filter(rows, (x: Item) => x.pricePerDay.Some? && x.pricePerDay.value <= max)
  }

  /** The rows the filters select, before ordering. */
  function Candidates(p: Params, items: seq<Item>): (r: seq<Item>)
  {
    MaxFilter(MinFilter(CategoryFilter(TextFilter(AvailableOnly(items), p.query), p.category),
                        p.minPrice), p.maxPrice)
  }

  /** A row is a candidate exactly when it is in the table and meets every
      condition of the query. */
  lemma CandidatesMember(p: Params, items: seq<Item>)
    ensures forall x :: x in Candidates(p, items) <==> x in items && Matches(p, x)
  {
  }

  /** The owner's `credibility_score`, null when the owner has no row. */
  function OwnerScore(users: map<string, User>, it: Item): (s: Option<real>)
    ensures s.Some? <==> it.ownerId.Some? && it.ownerId.value in users
  {
    if it.ownerId.Some? && it.ownerId.value in users then Some(users[it.ownerId.value].credibilityScore)
    else None
  }

  /** Ascending puts nulls last, descending puts them first. */
  function Ascending(v: Option<real>): Ordering.Key
  {
    if v.Some? then Ordering.Key(0, v.value) else Ordering.Key(1, 0.0)
  }

  function Descending(v: Option<real>): Ordering.Key
  {
    if v.Some? then Ordering.Key(1, -v.value) else Ordering.Key(0, 0.0)
  }

  /** The sort key of a row for the chosen ordering: price up, price down,
      owner score down, and otherwise newest first. */
  function SortKey(sortBy: string, users: map<string, User>, it: Item): Ordering.Key
  {
    if sortBy == "price_low" then Ascending(it.pricePerDay)
    else if sortBy == "price_high" then Descending(it.pricePerDay)
    else if sortBy == "rating" then Descending(OwnerScore(users, it))
    else Descending(Some(it.createdAt as real))
  }

  /** The rows `performSearch` shows. */
  function SearchResults(p: Params, items: seq<Item>, users: map<string, User>): (r: seq<Item>)
  {
    Ordering.Limit(Ordering.SortBy(Candidates(p, items), (x: Item) => SortKey(p.sortBy, users, x)), ResultLimit)
  }

  /** Every row shown is an available item of the table that meets the
      query, and at most 50 are shown. */
  lemma SearchResultsSound(p: Params, items: seq<Item>, users: map<string, User>)
    ensures |SearchResults(p, items, users)| <= ResultLimit
    ensures forall x :: x in SearchResults(p, items, users) ==> x in items && x.available && Matches(p, x)
  {
    var sorted := Ordering.SortBy(Candidates(p, items), (x: Item) => SortKey(p.sortBy, users, x));
    Ordering.SortByMember(Candidates(p, items), (x: Item) => SortKey(p.sortBy, users, x));
    forall x | x in SearchResults(p, items, users)
      ensures x in items && Matches(p, x)
    {
      var i :| 0 <= i < |SearchResults(p, items, users)| && SearchResults(p, items, users)[i] == x;
      assert x == sorted[i];
    }
  }

  /** When at most 50 rows meet the query, every one of them is shown. */
  lemma SearchResultsComplete(p: Params, items: seq<Item>, users: map<string, User>)
    requires |Candidates(p, items)| <= ResultLimit
    ensures forall x :: x in SearchResults(p, items, users) <==> x in items && Matches(p, x)
  {
    Ordering.SortByMember(Candidates(p, items), (x: Item) => SortKey(p.sortBy, users, x));
  }

  /** The rows shown are in the chosen order. */
  lemma SearchResultsOrdered(p: Params, items: seq<Item>, users: map<string, User>)
    ensures Ordering.SortedBy(SearchResults(p, items, users), (x: Item) => SortKey(p.sortBy, users, x))
  {
  }

  /** Sorting by price, a priced row comes before an unpriced one both
      ways round: nulls last ascending, first descending. */
  lemma NullPricesPlacement(p: Params, items: seq<Item>, users: map<string, User>, i: int, j: int)
    requires 0 <= i < |SearchResults(p, items, users)| && 0 <= j < |SearchResults(p, items, users)|
    requires SearchResults(p, items, users)[i].pricePerDay.Some?
    requires SearchResults(p, items, users)[j].pricePerDay.None?
    ensures p.sortBy == "price_low" ==> i < j
    ensures p.sortBy == "price_high" ==> j < i
  {
    SearchResultsOrdered(p, items, users);
  }

  /** `router.query.q`, or "search_term" when the page is opened without one. */
  function InitialQuery(q: Option<string>): (r: string)
    ensures q.Some? && q.value != "" ==> r == q.value
    ensures q.None? || q.value == "" ==> r == "search_term"
  {
    if q.Some? && q.value != "" then q.value else "search_term"
  }

  /** The filter steps of `performSearch`, each one reassigning the query;
      the repeated availability filter changes nothing. */
  method NarrowQuery(items: seq<Item>, p: Params) returns (query: seq<Item>)
    ensures query == Candidates(p, items)
  {
    query := AvailableOnly(items);
    if !Text.Blank(p.query) {
      query := TextFilter(query, p.query);
    }
    if p.category != "" && p.category != AllCategories {
      query := CategoryFilter(query, p.category);
    }
    if p.minPrice > PriceFloor {
      query := MinFilter(query, p.minPrice);
    }
    if p.maxPrice < PriceCeiling {
      query := MaxFilter(query, p.maxPrice);
    }
    assert query == Candidates(p, items);
    if p.availability == "available" {
      AvailableStaysAvailable(items, p);
      FilterKeepsAll(query, (x: Item) => x.available);
      query := AvailableOnly(query);
    }
  }

  /** The page's filter state and results. `filtersSet` stands for
      `Object.keys(filters).length > 0`; the object's contents are never read. */
  class SearchPage {
    var searchQuery: string
    var category: string
    var minPrice: real
    var maxPrice: real
    var availability: string
    var sortBy: string
    var filtersSet: bool
    var results: seq<Item>
    var totalResults: nat

    /** The initial state after the mount effect has read the URL. */
    constructor(q: Option<string>)
      ensures searchQuery == InitialQuery(q) && filtersSet
      ensures category == AllCategories && minPrice == PriceFloor && maxPrice == PriceCeiling
      ensures availability == "all" && sortBy == "relevance"
      ensures results == [] && totalResults == 0
    {
      searchQuery := InitialQuery(q);
      category := AllCategories;
      minPrice := PriceFloor;
      maxPrice := PriceCeiling;
      availability := "all";
      sortBy := "relevance";
      filtersSet := true;
      results := [];
      totalResults := 0;
    }

    function Current(): Params
      reads this
    {
      Params(searchQuery, category, minPrice, maxPrice, availability, sortBy)
    }

    /** The effect's guard: a search runs when the query is non-empty or a
        filters object with keys is set. */
    predicate SearchTriggered()
      reads this
    {
      searchQuery != "" || filtersSet
    }

    /** `performSearch`: the query is narrowed step by step; a failed query
        (`fails`) empties the results. `count` is not requested, so the total
        is the number of rows returned. */
    method PerformSearch(db: Db, fails: bool)
      modifies this`results, this`totalResults
      ensures results == (if fails then [] else SearchResults(Current(), db.items, db.users))
      ensures totalResults == |results|
    {
      if fails {
        results := [];
        totalResults := 0;
        return;
      }
      var query := NarrowQuery(db.items, Current());
      var users, order := db.users, sortBy;
      var key := (x: Item) => SortKey(order, users, x);
      query := Ordering.Limit(Ordering.SortBy(query, key), ResultLimit);
      results := query;
      totalResults := |query|;
    }

    /** `clearFilters`: the defaults come back. With an empty query and no
        filters the effect's guard is false, so no new search runs and the
        previous results stay on screen. */
    method ClearFilters()
      modifies this
      ensures searchQuery == "" && category == AllCategories
      ensures minPrice == PriceFloor && maxPrice == PriceCeiling
      ensures availability == "all" && sortBy == "relevance" && !filtersSet
      ensures results == old(results) && totalResults == old(totalResults)
      ensures !SearchTriggered()
    {
      searchQuery := "";
      category := AllCategories;
      minPrice := PriceFloor;
      maxPrice := PriceCeiling;
      availability := "all";
      sortBy := "relevance";
      filtersSet := false;
    }

    /** `handleSearch`: sets a filters object with four keys. */
    method HandleSearch()
      modifies this`filtersSet
      ensures filtersSet && SearchTriggered()
    {
      filtersSet := true;
    }
  }

  /** Every candidate row is available. */
  lemma AvailableStaysAvailable(items: seq<Item>, p: Params)
    ensures forall i :: 0 <= i < |Candidates(p, items)| ==> Candidates(p, items)[i].available
  {
    CandidatesMember(p, items);
    forall i | 0 <= i < |Candidates(p, items)|
      ensures Candidates(p, items)[i].available
    {
      assert Candidates(p, items)[i] in Candidates(p, items);
    }
  }
}
