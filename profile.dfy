/** The profile page (`pages/profile.jsx`): the user's bookings and
    listings, the cost each booking shows, the return modal with its
    period and final-cost arithmetic, the return handler that leaves the
    damage note for the dashboard in session storage, and the earnings
    total. "Now" is a millisecond timestamp given as a parameter; dates are
    day numbers read as midnight UTC. */
module Profile {
  import opened Common
  import opened Tables
  import Ordering
  import Dashboard

  /** Newest first by `created_at`. */
  function NewestFirst(createdAt: int): Ordering.Key
  {
    Ordering.Key(0, -(createdAt as real))
  }

  predicate IsBooking(r: Rental, userId: string)
  {
    r.renterId == Some(userId) && r.status in {"pending", "active", "returned"}
  }

  /** A row is in the sorted selection iff it is a row that was selected. */
  lemma SelectedMember<T>(s: seq<T>, keep: T -> bool, key: T -> Ordering.Key)
    ensures forall x :: x in Ordering.SortBy(Filter(s, keep), key) <==> x in s && keep(x)
  {
    FilterMember(s, keep);
    Ordering.SortByMember(Filter(s, keep), key);
  }

  /** `fetchCurrentBookings`: the user's rentals as renter that are pending,
      active or returned, newest first. */
  function Bookings(rentals: seq<Rental>, userId: string): (r: seq<Rental>)
    ensures forall x :: x in r <==> x in rentals && IsBooking(x, userId)
    ensures Ordering.SortedBy(r, (x: Rental) => NewestFirst(x.createdAt))
    ensures multiset(r) == multiset(Filter(rentals, (x: Rental) => IsBooking(x, userId)))
  {
    var keep := (x: Rental) => IsBooking(x, userId);
    var key := (x: Rental) => NewestFirst(x.createdAt);
    SelectedMember(rentals, keep, key);
    Ordering.SortBy(Filter(rentals, keep), key)
  }

  /** `fetchCurrentListings`: the user's available items, newest first. */
  function Listings(items: seq<Item>, userId: string): (r: seq<Item>)
    ensures forall x :: x in r <==> x in items && x.ownerId == Some(userId) && x.available
    ensures Ordering.SortedBy(r, (x: Item) => NewestFirst(x.createdAt))
    ensures multiset(r) == multiset(Filter(items, (x: Item) => x.ownerId == Some(userId) && x.available))
  {
    var keep := (x: Item) => x.ownerId == Some(userId) && x.available;
    var key := (x: Item) => NewestFirst(x.createdAt);
    SelectedMember(items, keep, key);
    Ordering.SortBy(Filter(items, keep), key)
  }

  /** The Return button is shown for active and pending bookings. */
  predicate CanReturn(b: Rental)
  {
    b.status == "active" || b.status == "pending"
  }

  /** Among the bookings, exactly the ones not yet returned offer the
      Return button. */
  lemma ReturnOfferedUntilReturned(rentals: seq<Rental>, userId: string, b: Rental)
    requires b in Bookings(rentals, userId)
    ensures CanReturn(b) <==> b.status != "returned"
  {
  }

  /** The cost a booking card shows: `actual_total_cost || total_cost || 0`
      once returned, `total_cost || 0` before. */
  function DisplayedCost(b: Rental): (c: real)
    ensures b.status != "returned" ==> c == OrElse(b.totalCost, 0.0)
    ensures b.status == "returned" && b.actualTotalCost.Some? && b.actualTotalCost.value != 0.0 ==>
              c == b.actualTotalCost.value
    ensures b.status == "returned" && (b.actualTotalCost.None? || b.actualTotalCost.value == 0.0) ==>
              c == OrElse(b.totalCost, 0.0)
  {
    if b.status == "returned" then OrElse(b.actualTotalCost, OrElse(b.totalCost, 0.0))
    else OrElse(b.totalCost, 0.0)
  }

  /** Before the return the recorded actual cost is not shown; after it,
      a recorded (non-zero) actual cost replaces the total cost. */
  lemma ActualCostShownOnlyOnceReturned(b: Rental, actual: real)
    requires actual != 0.0
    ensures b.status != "returned" ==>
              DisplayedCost(b.(actualTotalCost := Some(actual))) == DisplayedCost(b.(actualTotalCost := None))
    ensures DisplayedCost(b.(status := "returned", actualTotalCost := Some(actual))) == actual
  {
  }

  const MsPerDay := 86400000

  /** `new Date(start_date)` in milliseconds: midnight UTC of the start day,
      and the epoch for a null date. */
  function StartMs(b: Rental): int
  {
    if b.startDay.Some? then b.startDay.value * MsPerDay else 0
  }

  /** `Math.ceil(a / d)` for a positive divisor. */
  function CeilDiv(a: int, d: int): (q: int)
    requires d > 0
    ensures d * (q - 1) < a <= d * q
  {
    -((-a) / d)
  }

  /** The "Actual Period" as written: ceil((now − start) / 1 day) + 1. */
  function PeriodAsWritten(b: Rental, nowMs: int): (days: int)
    ensures MsPerDay * (days - 2) < nowMs - StartMs(b) <= MsPerDay * (days - 1)
  {
    CeilDiv(nowMs - StartMs(b), MsPerDay) + 1
  }

  /** The period the page evidently means: the number of calendar days
      from the start day through today, both included. */
  function Period(b: Rental, nowMs: int): (days: int)
    ensures forall today :: today * MsPerDay <= nowMs < (today + 1) * MsPerDay ==>
              days == today - StartMs(b) / MsPerDay + 1
  {
    (nowMs - StartMs(b)) / MsPerDay + 1
  }

  /** The formula as written counts one day too many at every moment except
      exactly midnight: a rental that started today shows 2 days an hour
      after midnight. */
  lemma PeriodAsWrittenOvercounts(b: Rental, nowMs: int)
    ensures (nowMs - StartMs(b)) % MsPerDay != 0 ==> PeriodAsWritten(b, nowMs) == Period(b, nowMs) + 1
    ensures (nowMs - StartMs(b)) % MsPerDay == 0 ==> PeriodAsWritten(b, nowMs) == Period(b, nowMs)
  {
    var a := nowMs - StartMs(b);
    var q := a / MsPerDay;
    assert a == MsPerDay * q + a % MsPerDay;
    if a % MsPerDay != 0 {
      assert -a == MsPerDay * (-q - 1) + (MsPerDay - a % MsPerDay);
      assert (-a) / MsPerDay == -q - 1;
    } else {
      assert -a == MsPerDay * (-q);
      assert (-a) / MsPerDay == -q;
    }
  }

  /** The input that shows it: a booking starting on day 0, one hour into
      day 0. */
  lemma SameDayReturnShowsTwoDays(b: Rental)
    requires b.startDay == Some(0)
    ensures PeriodAsWritten(b, 3600000) == 2
    ensures Period(b, 3600000) == 1
  {
    PeriodAsWrittenOvercounts(b, 3600000);
  }

  /** The "Final Cost": the period times `price_per_day || 0`, and 0 when no
      booking is selected. */
  function FinalCost(selected: Option<Rental>, price: Option<real>, nowMs: int): (c: real)
    ensures selected.None? || price.None? ==> c == 0.0
    ensures selected.Some? && price.Some? ==> c == Period(selected.value, nowMs) as real * price.value
  {
    if selected.None? then 0.0 else Period(selected.value, nowMs) as real * OrElse(price, 0.0)
  }

  /** The final cost is the daily price for each day of the period: non-
      negative for a non-negative price from the start day on, and 0
      exactly when the price is missing or 0. */
  lemma FinalCostBounds(b: Rental, price: Option<real>, nowMs: int)
    requires nowMs >= StartMs(b)
    requires price.Some? ==> price.value >= 0.0
    ensures Period(b, nowMs) >= 1
    ensures FinalCost(Some(b), price, nowMs) >= 0.0
    ensures FinalCost(Some(b), price, nowMs) == 0.0 <==> price.None? || price.value == 0.0
    ensures FinalCost(Some(b), price, nowMs) >= OrElse(price, 0.0)
  {
    var n := Period(b, nowMs) as real;
    assert n >= 1.0;
    var unit := OrElse(price, 0.0);
    assert n * unit - unit == (n - 1.0) * unit;
    assert (n - 1.0) * unit >= 0.0;
    if unit != 0.0 {
      assert n * unit >= unit > 0.0;
    }
  }

  /** The final cost as written, with the over-counted period. */
  function FinalCostAsWritten(selected: Option<Rental>, price: Option<real>, nowMs: int): (c: real)
    ensures selected.None? || price.None? ==> c == 0.0
    ensures selected.Some? && price.Some? ==> c == PeriodAsWritten(selected.value, nowMs) as real * price.value
  {
    if selected.None? then 0.0 else PeriodAsWritten(selected.value, nowMs) as real * OrElse(price, 0.0)
  }

  /** Off midnight, the cost as written charges one extra day. */
  lemma FinalCostAsWrittenChargesExtraDay(b: Rental, price: Option<real>, nowMs: int)
    requires (nowMs - StartMs(b)) % MsPerDay != 0
    ensures FinalCostAsWritten(Some(b), price, nowMs) == FinalCost(Some(b), price, nowMs) + OrElse(price, 0.0)
  {
    PeriodAsWrittenOvercounts(b, nowMs);
    var n := Period(b, nowMs) as real;
    assert (n + 1.0) * OrElse(price, 0.0) == n * OrElse(price, 0.0) + OrElse(price, 0.0);
  }

  const UploadPictureText := "\U{274C} Please upload a picture of the returned item"
  const ReturnedText := "\U{2705} Item returned successfully! AI damage analysis complete."
  const FailedPrefix := "\U{274C} Failed to process return: "
  const HeatmapUrl := "/damage_results.png"

  /** The status line of the damage note. */
  function DamageStatus(score: real): (s: string)
    ensures s == "Significant damage detected" <==> score > 0.5
    ensures s == "Minor damage detected" <==> score <= 0.5
  {
    if score > 0.5 then "Significant damage detected" else "Minor damage detected"
  }

  /** The note left for the dashboard. */
  datatype DamageNote = DamageNote(rentalId: string, itemTitle: string, damageScore: real,
                                   heatmapUrl: string, timestamp: string, status: string)

  /** The return modal's state. `image` is the chosen file; `preview` its
      data URL once read. */
  class ReturnModal {
    var show: bool
    var selected: Option<Rental>
    var image: Option<Bytes>
    var preview: string
    var returning: bool
    var message: string

    constructor()
      ensures !show && selected.None? && image.None? && preview == "" && !returning && message == ""
    {
      show := false;
      selected := None;
      image := None;
      preview := "";
      returning := false;
      message := "";
    }

    /** `openReturnModal(booking)`. */
    method Open(booking: Rental)
      modifies this
      ensures show && selected == Some(booking)
      ensures image.None? && preview == "" && message == ""
      ensures returning == old(returning)
    {
      selected := Some(booking);
      show := true;
      image := None;
      preview := "";
      message := "";
    }

    /** `closeReturnModal()`. */
    method Close()
      modifies this
      ensures !show && selected.None?
      ensures image.None? && preview == "" && message == ""
      ensures returning == old(returning)
    {
      show := false;
      selected := None;
      image := None;
      preview := "";
      message := "";
    }

    /** `handleReturnImageChange`: a chosen file is kept and its data URL
        becomes the preview; no file changes nothing. */
    method ChooseImage(file: Option<Bytes>, dataUrl: string)
      modifies this`image, this`preview
      ensures file.Some? ==> image == file && preview == dataUrl
      ensures file.None? ==> image == old(image) && preview == old(preview)
    {
      if file.Some? {
        image := file;
        preview := dataUrl;
      }
    }

    /** `removeReturnImage()`. */
    method RemoveImage()
      modifies this`image, this`preview
      ensures image.None? && preview == ""
    {
      image := None;
      preview := "";
    }

    /** `handleReturnItem`. Without a booking or an image only the message
        changes. Otherwise the damage note is written under the dashboard's
        key; a booking without its joined item (`items` null, here `title` None) throws while the
        note is built, after the success message was set, so the failure
        message replaces it and nothing is stored. The score, the
        timestamp, the JSON text of the note and the exception text are
        parameters. */
    method HandleReturnItem(store: Dashboard.SessionStore, title: Option<string>, damageScore: real,
                            timestamp: string, json: DamageNote -> string, errorText: string)
      modifies this`returning, this`message, store
      ensures selected.None? || image.None? ==>
                message == UploadPictureText && returning == old(returning) && store.items == old(store.items)
      ensures selected.Some? && image.Some? && title.None? ==>
                message == FailedPrefix + errorText && !returning && store.items == old(store.items)
      ensures selected.Some? && image.Some? && title.Some? ==>
                message == ReturnedText && !returning &&
                store.items == old(store.items)[Dashboard.LatestReportKey :=
                  json(DamageNote(selected.value.rentalId, title.value, damageScore, HeatmapUrl, timestamp,
                                  DamageStatus(damageScore)))]
    {
      if selected.None? || image.None? {
        message := UploadPictureText;
        return;
      }
      returning := true;
      message := "";
      message := ReturnedText;
      if title.None? {
        message := FailedPrefix + errorText;
      } else {
        var note := DamageNote(selected.value.rentalId, title.value, damageScore, HeatmapUrl, timestamp,
                               DamageStatus(damageScore));
        store.items := store.items[Dashboard.LatestReportKey := json(note)];
      }
      returning := false;
    }
  }

  /** The note left by a return is what the dashboard shows on its next
      mount, provided its JSON text is non-empty and parses. */
  lemma ReturnNoteReachesDashboard(storage: map<string, string>, text: string, parses: string -> bool)
    requires text != "" && parses(text)
    ensures Dashboard.TakeLatestReport(storage[Dashboard.LatestReportKey := text], parses).shown == Some(text)
  {
  }

  /** "Total Earnings": the listings' daily prices added left to right, a
      missing or zero price counting 0. */
  function Earnings(listings: seq<Item>): (e: real)
    ensures (forall i :: 0 <= i < |listings| ==> OrElse(listings[i].pricePerDay, 0.0) >= 0.0) ==> e >= 0.0
  {
    if listings == [] then 0.0
    else Earnings(listings[..|listings| - 1]) + OrElse(listings[|listings| - 1].pricePerDay, 0.0)
  }

  /** Earnings add up over any split of the listings. */
  lemma {:induction false} EarningsAppend(a: seq<Item>, b: seq<Item>)
    ensures Earnings(a + b) == Earnings(a) + Earnings(b)
  {
    if b != [] {
      assert (a + b)[..|a + b| - 1] == a + b[..|b| - 1];
      EarningsAppend(a, b[..|b| - 1]);
    } else {
      assert a + b == a;
    }
  }

  /** With non-negative prices the earnings are non-negative and at least
      the price of any one listing. */
  lemma {:induction false} EarningsBounds(listings: seq<Item>, k: int)
    requires forall i :: 0 <= i < |listings| ==> OrElse(listings[i].pricePerDay, 0.0) >= 0.0
    requires 0 <= k < |listings|
    ensures Earnings(listings) >= OrElse(listings[k].pricePerDay, 0.0) >= 0.0
  {
    assert listings == listings[..k] + [listings[k]] + listings[k + 1..];
    EarningsAppend(listings[..k] + [listings[k]], listings[k + 1..]);
    EarningsAppend(listings[..k], [listings[k]]);
    assert [listings[k]][..0] == [];
  }
}
