/** The engagement agent (`agents/engagement_agent/engagement_agent.py`):
    for every active rental due within `days_ahead` days, a "return_due"
    reminder to the renter and a "pickup_due" reminder to the lender, each
    sent only when that user's row exists; the run reports how many were sent.
    Sending is a placeholder that always succeeds, so a sent reminder is its
    message. "Today" is a day number given as a parameter. */
module EngagementAgent {
  import opened Common
  import opened Tables
  import Text

  const DefaultDaysAhead := 1
  const ReturnDue := "return_due"
  const PickupDue := "pickup_due"

  /** `task_input.get("days_ahead", 1)`. */
  function DaysAhead(taskInput: Option<int>): (d: int)
    ensures taskInput.None? ==> d == DefaultDaysAhead
    ensures taskInput.Some? ==> d == taskInput.value
  {
    if taskInput.Some? then taskInput.value else DefaultDaysAhead
  }

  /** Active, with an end date on or before the target day. */
  predicate IsDue(r: Rental, today: int, daysAhead: int)
  {
    r.status == "active" && r.endDay.Some? && r.endDay.value <= today + daysAhead
  }

  /** `fetch_upcoming_rentals(days_ahead)`, in table order. */
  function FetchUpcomingRentals(rentals: seq<Rental>, today: int, daysAhead: int): (r: seq<Rental>)
    ensures forall x :: x in r <==> x in rentals && IsDue(x, today, daysAhead)
    ensures IsSubsequence(r, rentals)
  {
    FilterMember(rentals, (x: Rental) => IsDue(x, today, daysAhead));
    FilterIsSubsequence(rentals, (x: Rental) => IsDue(x, today, daysAhead));
    Filter(rentals, (x: Rental) => IsDue(x, today, daysAhead))
  }

  /** `fetch_user_contact(user_id)`: the user's row, or `{}` (falsy) when
      there is none. */
  function FetchUserContact(users: map<string, User>, userId: Option<string>): (c: Option<User>)
    ensures c.Some? <==> userId.Some? && userId.value in users
    ensures c.Some? ==> c.value == users[userId.value]
  {
    if userId.Some? && userId.value in users then Some(users[userId.value]) else None
  }

  /** How Python formats an optional string: `None` for null. */
  function Show(o: Option<string>): string
  {
    if o.Some? then o.value else "None"
  }

  /** The start of a reminder: the greeting with the contact's name. */
  function Greeting(contact: User): string
  {
    "Hello " + Show(contact.fullName) + ", your rental ("
  }

  /** The end of a reminder: which kind of reminder it is. */
  function DueText(kind: string): string
  {
    ") is due " + kind + " soon."
  }

  /** The text `send_reminder` builds. The row always has a `full_name` key,
      so the `"User"` default never applies; a null name prints as `None`. */
  function Message(contact: User, rental: Rental, kind: string): (m: string)
    ensures Text.IsPrefix(Greeting(contact), m)
    ensures Text.IsSuffix(DueText(kind), m)
    ensures |m| == |Greeting(contact)| + |rental.rentalId| + |DueText(kind)|
    ensures m[|Greeting(contact)|..|m| - |DueText(kind)|] == rental.rentalId
    ensures Text.Contains(m, rental.rentalId)
  {
    var m := Greeting(contact) + rental.rentalId + DueText(kind);
    Text.ContainsMiddle(Greeting(contact), rental.rentalId, DueText(kind));
    assert m[..|Greeting(contact)|] == Greeting(contact);
    assert m[|m| - |DueText(kind)|..] == DueText(kind);
    assert m[|Greeting(contact)|..|m| - |DueText(kind)|] == rental.rentalId;
    m
  }

  /** A return reminder and a pickup reminder for the same rental and person
      never read the same. */
  lemma MessageTellsKindsApart(contact: User, rental: Rental)
    ensures Message(contact, rental, ReturnDue) != Message(contact, rental, PickupDue)
  {
    var a := Message(contact, rental, ReturnDue);
    var b := Message(contact, rental, PickupDue);
    var t := DueText(ReturnDue);
    assert |DueText(PickupDue)| == |t|;
    assert t[9] == 'r' && DueText(PickupDue)[9] == 'p';
    assert |a| == |b|;
    assert a[|a| - |t| + 9] == 'r' && b[|b| - |t| + 9] == 'p';
  }

  /** One sent reminder: to whom, which kind, and the text. */
  datatype Reminder = Reminder(userId: string, kind: string, message: string)

  /** The reminders sent for one due rental: renter first, then lender. */
  function ForRental(users: map<string, User>, r: Rental): (rs: seq<Reminder>)
    ensures |rs| <= 2
    ensures |rs| == (if FetchUserContact(users, r.renterId).Some? then 1 else 0) +
                    (if FetchUserContact(users, r.lenderId).Some? then 1 else 0)
    ensures forall i :: 0 <= i < |rs| ==>
              (rs[i].kind == ReturnDue && Some(rs[i].userId) == r.renterId) ||
              (rs[i].kind == PickupDue && Some(rs[i].userId) == r.lenderId)
  {
    var renter := FetchUserContact(users, r.renterId);
    var lender := FetchUserContact(users, r.lenderId);
    (if renter.Some? then [Reminder(r.renterId.value, ReturnDue, Message(renter.value, r, ReturnDue))] else []) +
    (if lender.Some? then [Reminder(r.lenderId.value, PickupDue, Message(lender.value, r, PickupDue))] else [])
  }

  /** The reminders of the whole run, rental by rental. At most two per
      rental, each to a user who has a row. */
  function Reminders(users: map<string, User>, due: seq<Rental>): (rs: seq<Reminder>)
    ensures |rs| <= 2 * |due|
    ensures forall i :: 0 <= i < |rs| ==> rs[i].userId in users
  {
    if due == [] then []
    else Reminders(users, due[..|due| - 1]) + ForRental(users, due[|due| - 1])
  }

  /** Nobody without a row is reminded: when no renter or lender of a due
      rental has a row, nothing is sent. */
  lemma {:induction false} NoContactsNoReminders(users: map<string, User>, due: seq<Rental>)
    requires forall i :: 0 <= i < |due| ==>
               FetchUserContact(users, due[i].renterId).None? && FetchUserContact(users, due[i].lenderId).None?
    ensures Reminders(users, due) == []
  {
    if due != [] {
      NoContactsNoReminders(users, due[..|due| - 1]);
    }
  }

  /** When every renter and lender has a row, exactly two reminders per
      rental are sent. */
  lemma {:induction false} AllContactsTwoEach(users: map<string, User>, due: seq<Rental>)
    requires forall i :: 0 <= i < |due| ==>
               FetchUserContact(users, due[i].renterId).Some? && FetchUserContact(users, due[i].lenderId).Some?
    ensures |Reminders(users, due)| == 2 * |due|
  {
    if due != [] {
      AllContactsTwoEach(users, due[..|due| - 1]);
    }
  }

  /** `send_reminder`: always succeeds. */
  method SendReminder(contact: User, rental: Rental, kind: string) returns (ok: bool, message: string)
    ensures ok
    ensures message == Message(contact, rental, kind)
  {
    message := Message(contact, rental, kind);
    ok := true;
  }

  /** The loop body for one due rental: the borrower's reminder, then the
      lender's, each only when the contact was found. */
  method RemindParties(users: map<string, User>, rental: Rental) returns (sent: seq<Reminder>)
    ensures sent == ForRental(users, rental)
  {
    sent := [];
    var borrower := FetchUserContact(users, rental.renterId);
    if borrower.Some? {
      var _, m := SendReminder(borrower.value, rental, ReturnDue);
      sent := sent + [Reminder(rental.renterId.value, ReturnDue, m)];
    }
    var lender := FetchUserContact(users, rental.lenderId);
    if lender.Some? {
      var _, m := SendReminder(lender.value, rental, PickupDue);
      sent := sent + [Reminder(rental.lenderId.value, PickupDue, m)];
    }
  }

  /** `run_engagement_agent(task_input)`: counts the reminders sent. */
  method RunEngagementAgent(db: Db, today: int, daysAheadInput: Option<int>)
    returns (remindersSent: nat, sent: seq<Reminder>)
    ensures sent == Reminders(db.users, FetchUpcomingRentals(db.rentals, today, DaysAhead(daysAheadInput)))
    ensures remindersSent == |sent|
    ensures remindersSent <= 2 * |FetchUpcomingRentals(db.rentals, today, DaysAhead(daysAheadInput))|
  {
    var due := FetchUpcomingRentals(db.rentals, today, DaysAhead(daysAheadInput));
    remindersSent := 0;
    sent := [];
    for i := 0 to |due|
      invariant sent == Reminders(db.users, due[..i])
      invariant remindersSent == |sent|
    {
      assert due[..i + 1][..i] == due[..i];
      var forRental := RemindParties(db.users, due[i]);
      sent := sent + forRental;
      remindersSent := remindersSent + |forRental|;
    }
    assert due[..|due|] == due;
  }
}
