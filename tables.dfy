/** The hosted database and object store the pages and agents share: one row
    datatype per table, and `Db`, whose fields are the tables and the
    `damage-reports` storage bucket. Queries are functions over the table
    contents; `update(...).eq(key, v)` changes every row whose key equals `v`. */
module Tables {
  import opened Common

  /** A `users` row; the table is keyed by `user_id`. */
  datatype User = User(fullName: Option<string>, email: Option<string>, phone: Option<string>,
                       credibilityScore: real)

  /** An `items` row (`user_id` is the owner). */
  datatype Item = Item(itemId: string, ownerId: Option<string>, title: string,
                       description: Option<string>, category: string,
                       pricePerDay: Option<real>, available: bool, createdAt: int)

  /** A `rentals` row. Dates are day numbers. */
  datatype Rental = Rental(rentalId: string, itemId: Option<string>,
                           renterId: Option<string>, lenderId: Option<string>,
                           startDay: Option<int>, endDay: Option<int>, status: string,
                           totalCost: Option<real>, actualTotalCost: Option<real>,
                           itemType: Option<string>,
                           imageBeforeUrl: Option<string>, imageAfterUrl: Option<string>,
                           createdAt: int)

  /** A `payments` row. */
  datatype Payment = Payment(paymentId: string, rentalId: string, status: string,
                             amount: Option<real>, paymentMethod: Option<string>)

  /** A `ratings` row. */
  datatype Rating = Rating(ratedUserId: string, score: real)

  type Bytes = seq<bv8>

  /** The shared store. `damageReports` holds the rows as inserted (a dict,
      because the orchestrator inserts whatever the verification agent
      returned); `blobs` is the `damage-reports` bucket, path to content. */
  class Db {
    var users: map<string, User>
    var items: seq<Item>
    var rentals: seq<Rental>
    var payments: seq<Payment>
    var ratings: seq<Rating>
    var damageReports: seq<Dict>
    var blobs: map<string, Bytes>
  }

  /** `update(f).eq(key, v)` on any table: the rows selected by `hit` become
      `f(row)`, all others stay. */
  function UpdateWhere<T>(s: seq<T>, hit: T -> bool, f: T -> T): (r: seq<T>)
    ensures |r| == |s|
    ensures forall i :: 0 <= i < |s| && hit(s[i]) ==> r[i] == f(s[i])
    ensures forall i :: 0 <= i < |s| && !hit(s[i]) ==> r[i] == s[i]
  {
    seq(|s|, i requires 0 <= i < |s| => if hit(s[i]) then f(s[i]) else s[i])
  }

  /** `update({"item_id": id, "status": "active"}).eq("rental_id", rid)`, the
      write both the orchestrator and the matching agent make: every row with
      the rental id gets the item and becomes active. */
  function AssignItem(rs: seq<Rental>, rentalId: string, itemId: string): (r: seq<Rental>)
    ensures |r| == |rs|
    ensures forall i :: 0 <= i < |rs| ==>
              r[i] == if rs[i].rentalId == rentalId then rs[i].(itemId := Some(itemId), status := "active") else rs[i]
  {
    UpdateWhere(rs, (x: Rental) => x.rentalId == rentalId,
                (x: Rental) => x.(itemId := Some(itemId), status := "active"))
  }

  /** `.or("renter_id.eq.<id>,lender_id.eq.<id>")`: the rentals where the
      user is renter or lender, in table order. */
  function RentalsOf(rentals: seq<Rental>, userId: string): (r: seq<Rental>)
    ensures forall x :: x in r <==> x in rentals && (x.renterId == Some(userId) || x.lenderId == Some(userId))
  {
    FilterMember(rentals, (x: Rental) => x.renterId == Some(userId) || x.lenderId == Some(userId));
    Filter(rentals, (x: Rental) => x.renterId == Some(userId) || x.lenderId == Some(userId))
  }

  /** The first row with the given rental id (`.eq("rental_id", id)`, then `data[0]`). */
  function FindRental(rs: seq<Rental>, rid: string): (r: Option<Rental>)
    ensures r.Some? ==> r.value in rs && r.value.rentalId == rid
    ensures r.None? ==> forall i :: 0 <= i < |rs| ==> rs[i].rentalId != rid
  {
    if rs == [] then None
    else if rs[0].rentalId == rid then Some(rs[0])
    else FindRental(rs[1..], rid)
  }

  /** The first item with the given id. */
  function FindItem(its: seq<Item>, id: string): (r: Option<Item>)
    ensures r.Some? ==> r.value in its && r.value.itemId == id
    ensures r.None? ==> forall i :: 0 <= i < |its| ==> its[i].itemId != id
  {
    if its == [] then None
    else if its[0].itemId == id then Some(its[0])
    else FindItem(its[1..], id)
  }
}
