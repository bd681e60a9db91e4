/** The orchestrator (`agents/orchestrator/orchestrator.py`): one pass over the
    pending rentals, in fetched order. Each rental is matched to an item (or
    skipped), priced, trust-checked (and flagged on failure) and, when both
    image URLs are set, verified with the result stored as a damage report.
    The four agents are parameters; the table writes are modelled on `Db`. */
module Orchestrator {
  import opened Common
  import opened Tables

  /** The agents the loop calls, as their results:
      the `item_id` the matcher returns (None when the dict or the key is
      missing or null), the price, the trust result's `ok` entry (`Undefined`
      when the key is absent) and the dict the verifier returns. */
  datatype Agents = Agents(matcher: Rental -> Option<string>,
                           pricer: string -> real,
                           trust: (Option<string>, Option<string>) -> Value,
                           verifier: (string, string, string) -> Dict)

  /** The two tables the loop writes. */
  datatype State = State(rentals: seq<Rental>, reports: seq<Dict>)

  /** `fetch_rentals(status)`: the rows with that status, in table order. */
  function FetchRentals(rentals: seq<Rental>, status: string): (r: seq<Rental>)
    ensures forall x :: x in r <==> x in rentals && x.status == status
    ensures IsSubsequence(r, rentals)
  {
    FilterMember(rentals, (x: Rental) => x.status == status);
    FilterIsSubsequence(rentals, (x: Rental) => x.status == status);
    Filter(rentals, (x: Rental) => x.status == status)
  }

  /** `fetch_rentals()` uses status `"pending"` by default. */
  const DefaultStatus := "pending"

  /** `update_rental_price`: every row with the id gets the total cost. */
  function SetTotalCost(rs: seq<Rental>, rentalId: string, price: real): (r: seq<Rental>)
    ensures |r| == |rs|
    ensures forall i :: 0 <= i < |rs| ==>
              r[i] == if rs[i].rentalId == rentalId then rs[i].(totalCost := Some(price)) else rs[i]
  {
    UpdateWhere(rs, (x: Rental) => x.rentalId == rentalId, (x: Rental) => x.(totalCost := Some(price)))
  }

  /** `mark_rental_flagged`: every row with the id becomes flagged. */
  function MarkFlagged(rs: seq<Rental>, rentalId: string): (r: seq<Rental>)
    ensures |r| == |rs|
    ensures forall i :: 0 <= i < |rs| ==>
              r[i] == if rs[i].rentalId == rentalId then rs[i].(status := "flagged") else rs[i]
  {
    UpdateWhere(rs, (x: Rental) => x.rentalId == rentalId, (x: Rental) => x.(status := "flagged"))
  }

  /** `trust_result.get("ok", True)` read for truthiness: an absent key passes. */
  predicate TrustOk(ok: Value)
  {
    ok.Undefined? || Truthy(ok)
  }

  /** The verifier's dict after `.update(...)`: the four fixed entries
      override whatever the verifier put under those keys. */
  function VerificationRow(result: Dict, r: Rental): (row: Dict)
    ensures "rental_id" in row && row["rental_id"] == Str(r.rentalId)
    ensures "reporter_id" in row && row["reporter_id"] == OfString(r.renterId)
    ensures "status" in row && row["status"] == Str("pending")
    ensures "verified_by_agent" in row && row["verified_by_agent"] == Bool(true)
    ensures forall k :: k in result && k !in {"rental_id", "reporter_id", "status", "verified_by_agent"} ==>
              k in row && row[k] == result[k]
  {
    result + map["rental_id" := Str(r.rentalId), "reporter_id" := OfString(r.renterId),
                 "status" := Str("pending"), "verified_by_agent" := Bool(true)]
  }

  /** Whether the loop would store a verification for the rental. */
  predicate Verifies(r: Rental, a: Agents)
  {
    Present(a.matcher(r)) && TrustOk(a.trust(r.renterId, r.lenderId)) &&
    Present(r.imageBeforeUrl) && Present(r.imageAfterUrl)
  }

  /** One iteration of the loop for the fetched row `r`. */
  function Step(s: State, r: Rental, a: Agents): (t: State)
    ensures !Present(a.matcher(r)) ==> t == s
    ensures |t.rentals| == |s.rentals|
    ensures forall k :: 0 <= k < |s.rentals| && s.rentals[k].rentalId != r.rentalId ==>
              t.rentals[k] == s.rentals[k]
    ensures Present(a.matcher(r)) ==>
              forall k :: 0 <= k < |s.rentals| && s.rentals[k].rentalId == r.rentalId ==>
                t.rentals[k] == s.rentals[k].(itemId := a.matcher(r),
                  status := if TrustOk(a.trust(r.renterId, r.lenderId)) then "active" else "flagged",
                  totalCost := if a.pricer(r.rentalId) != 0.0 then Some(a.pricer(r.rentalId))
                               else s.rentals[k].totalCost)
    ensures Verifies(r, a) ==>
              t.reports == s.reports + [VerificationRow(a.verifier(r.rentalId, r.imageBeforeUrl.value,
                                                                   r.imageAfterUrl.value), r)]
    ensures !Verifies(r, a) ==> t.reports == s.reports
  {
    var m := a.matcher(r);
    if !Present(m) then s
    else
      var rs1 := AssignItem(s.rentals, r.rentalId, m.value);
      var price := a.pricer(r.rentalId);
      var rs2 := if price != 0.0 then SetTotalCost(rs1, r.rentalId, price) else rs1;
      if !TrustOk(a.trust(r.renterId, r.lenderId)) then
        State(MarkFlagged(rs2, r.rentalId), s.reports)
      else if Present(r.imageBeforeUrl) && Present(r.imageAfterUrl) then
        var result := a.verifier(r.rentalId, r.imageBeforeUrl.value, r.imageAfterUrl.value);
        State(rs2, s.reports + [VerificationRow(result, r)])
      else
        State(rs2, s.reports)
  }

  /** The loop over the fetched rows, in order. The row count never changes,
      earlier reports stay, and each fetched row adds at most one report,
      stamped pending and agent-verified. */
  function ProcessAll(s: State, fetched: seq<Rental>, a: Agents): (t: State)
    ensures |t.rentals| == |s.rentals|
    ensures |s.reports| <= |t.reports| <= |s.reports| + |fetched|
    ensures t.reports[..|s.reports|] == s.reports
    ensures forall k :: |s.reports| <= k < |t.reports| ==>
              "status" in t.reports[k] && t.reports[k]["status"] == Str("pending") &&
              "verified_by_agent" in t.reports[k] && t.reports[k]["verified_by_agent"] == Bool(true)
  {
    if fetched == [] then s
    else
      var before := ProcessAll(s, fetched[..|fetched| - 1], a);
      var t := Step(before, fetched[|fetched| - 1], a);
      assert t.reports[..|before.reports|] == before.reports;
      t
  }

  /** One more fetched row is one more `Step`. */
  lemma ProcessAllSnoc(s: State, fetched: seq<Rental>, i: int, a: Agents)
    requires 0 <= i < |fetched|
    ensures ProcessAll(s, fetched[..i + 1], a) == Step(ProcessAll(s, fetched[..i], a), fetched[i], a)
  {
    assert fetched[..i + 1][..i] == fetched[..i];
  }

  /** Running the loop over two runs of rows is running it over the first,
      then over the second from where the first left the tables. */
  lemma {:induction false} ProcessAllAppend(s: State, xs: seq<Rental>, ys: seq<Rental>, a: Agents)
    ensures ProcessAll(s, xs + ys, a) == ProcessAll(ProcessAll(s, xs, a), ys, a)
    decreases |ys|
  {
    if ys == [] {
      assert xs + ys == xs;
    } else {
      var ys' := ys[..|ys| - 1];
      assert (xs + ys)[..|xs + ys| - 1] == xs + ys';
      assert (xs + ys)[|xs + ys| - 1] == ys[|ys| - 1];
      ProcessAllAppend(s, xs, ys', a);
    }
  }

  /** A row whose id is not among the fetched rows is left as it was. */
  lemma {:induction false} ProcessAllLeavesOthers(s: State, fetched: seq<Rental>, a: Agents, k: int)
    requires 0 <= k < |s.rentals|
    requires forall i :: 0 <= i < |fetched| ==> fetched[i].rentalId != s.rentals[k].rentalId
    ensures ProcessAll(s, fetched, a).rentals[k] == s.rentals[k]
  {
    if fetched != [] {
      var init := fetched[..|fetched| - 1];
      ProcessAllLeavesOthers(s, init, a, k);
    }
  }

  /** Reports come only from rentals whose match, trust check and image
      URLs all passed: with no such rental among the fetched rows, no report
      is stored. */
  lemma {:induction false} NoVerifiedNoReports(s: State, fetched: seq<Rental>, a: Agents)
    requires forall i :: 0 <= i < |fetched| ==> !Verifies(fetched[i], a)
    ensures ProcessAll(s, fetched, a).reports == s.reports
  {
    if fetched != [] {
      NoVerifiedNoReports(s, fetched[..|fetched| - 1], a);
    }
  }

  /** With nothing matched, the loop changes no table. */
  lemma {:induction false} NoMatchNoChange(s: State, fetched: seq<Rental>, a: Agents)
    requires forall i :: 0 <= i < |fetched| ==> !Present(a.matcher(fetched[i]))
    ensures ProcessAll(s, fetched, a) == s
  {
    if fetched != [] {
      NoMatchNoChange(s, fetched[..|fetched| - 1], a);
    }
  }

  method UpdateRentalItem(db: Db, rentalId: string, itemId: string)
    modifies db`rentals
    ensures db.rentals == AssignItem(old(db.rentals), rentalId, itemId)
  {
    db.rentals := AssignItem(db.rentals, rentalId, itemId);
  }

  method UpdateRentalPrice(db: Db, rentalId: string, price: real)
    modifies db`rentals
    ensures db.rentals == SetTotalCost(old(db.rentals), rentalId, price)
  {
    db.rentals := SetTotalCost(db.rentals, rentalId, price);
  }

  method MarkRentalFlagged(db: Db, rentalId: string)
    modifies db`rentals
    ensures db.rentals == MarkFlagged(old(db.rentals), rentalId)
  {
    db.rentals := MarkFlagged(db.rentals, rentalId);
  }

  method StoreVerification(db: Db, row: Dict)
    modifies db`damageReports
    ensures db.damageReports == old(db.damageReports) + [row]
  {
    db.damageReports := db.damageReports + [row];
  }

  /** The body of the loop for one fetched row: match, price, trust check,
      verification. */
  method ProcessRental(db: Db, rental: Rental, a: Agents)
    modifies db`rentals, db`damageReports
    ensures State(db.rentals, db.damageReports) == Step(State(old(db.rentals), old(db.damageReports)), rental, a)
  {
    var matched := a.matcher(rental);
    if !Present(matched) {
      return;
    }
    UpdateRentalItem(db, rental.rentalId, matched.value);
    var price := a.pricer(rental.rentalId);
    if price != 0.0 {
      UpdateRentalPrice(db, rental.rentalId, price);
    }
    var trustResult := a.trust(rental.renterId, rental.lenderId);
    if !TrustOk(trustResult) {
      MarkRentalFlagged(db, rental.rentalId);
      return;
    }
    if Present(rental.imageBeforeUrl) && Present(rental.imageAfterUrl) {
      var result := a.verifier(rental.rentalId, rental.imageBeforeUrl.value, rental.imageAfterUrl.value);
      StoreVerification(db, VerificationRow(result, rental));
    }
  }

  /** `orchestrate()`: the loop over the pending rentals fetched at the start. */
  method Orchestrate(db: Db, a: Agents)
    modifies db`rentals, db`damageReports
    ensures State(db.rentals, db.damageReports) ==
            ProcessAll(State(old(db.rentals), old(db.damageReports)),
                       FetchRentals(old(db.rentals), DefaultStatus), a)
  {
    var rentals := FetchRentals(db.rentals, DefaultStatus);
    if rentals == [] {
      return;
    }
    ghost var start := State(db.rentals, db.damageReports);
    var i := 0;
    while i < |rentals|
      invariant 0 <= i <= |rentals|
      invariant State(db.rentals, db.damageReports) == ProcessAll(start, rentals[..i], a)
    {
      ProcessAllSnoc(start, rentals, i, a);
      ProcessRental(db, rentals[i], a);
      i := i + 1;
    }
    assert rentals[..i] == rentals;
  }
}
