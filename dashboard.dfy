/** The dashboard page (`pages/dashboard.jsx`): the user's rentals split by
    status, the damage-report form that posts to the verification endpoint,
    the payout panel that posts to the payout endpoint with per-rental
    loading/error/success entries, and the one-shot hand-off of the latest
    damage report through session storage. */
module Dashboard {
  import opened Common
  import opened Tables
  import PayoutApi
  import VerifyDamageApi
  import AgentProcess

  /** The rentals whose status is one of `statuses`, in table order: the
      filters behind the page's three lists and the damage form's choices. */
  function WithStatus(rentals: seq<Rental>, statuses: set<string>): (r: seq<Rental>)
    ensures forall x :: x in r <==> x in rentals && x.status in statuses
    ensures IsSubsequence(r, rentals)
  {
    FilterMember(rentals, (x: Rental) => x.status in statuses);
    FilterIsSubsequence(rentals, (x: Rental) => x.status in statuses);
    Filter(rentals, (x: Rental) => x.status in statuses)
  }

  /** The three lists the page shows, and the rentals the damage form offers. */
  const PendingStatuses := {"pending"}
  const ActiveStatuses := {"active"}
  const PastStatuses := {"completed", "cancelled"}
  const ReportableStatuses := {"active", "completed"}

  /** No rental is listed twice, and a returned (or flagged) rental is
      listed nowhere. */
  lemma PartitionsDisjoint(rentals: seq<Rental>, x: Rental)
    ensures !(x in WithStatus(rentals, PendingStatuses) && x in WithStatus(rentals, ActiveStatuses))
    ensures !(x in WithStatus(rentals, PendingStatuses) && x in WithStatus(rentals, PastStatuses))
    ensures !(x in WithStatus(rentals, ActiveStatuses) && x in WithStatus(rentals, PastStatuses))
    ensures x.status !in {"pending", "active", "completed", "cancelled"} ==>
              x !in WithStatus(rentals, PendingStatuses) && x !in WithStatus(rentals, ActiveStatuses) &&
              x !in WithStatus(rentals, PastStatuses)
  {
  }

  /** The rentals the payout panel offers: completed ones the user lent. */
  function RentalsToPay(rentals: seq<Rental>, userId: string): (r: seq<Rental>)
    ensures forall x :: x in r <==> x in rentals && x.lenderId == Some(userId) && x.status == "completed"
    ensures IsSubsequence(r, rentals)
  {
    FilterMember(rentals, (x: Rental) => x.lenderId == Some(userId) && x.status == "completed");
    FilterIsSubsequence(rentals, (x: Rental) => x.lenderId == Some(userId) && x.status == "completed");
    Filter(rentals, (x: Rental) => x.lenderId == Some(userId) && x.status == "completed")
  }

  /** The payout request the panel posts for a rental. */
  function PayoutRequest(rental: Rental, userId: string): (req: PayoutApi.Request)
    ensures req.httpMethod == "POST"
    ensures req.rentalId == Str(rental.rentalId) && req.userId == Str(userId)
    ensures req.amount == OfReal(rental.totalCost)
  {
    PayoutApi.Request("POST", Str(rental.rentalId), Str(userId), OfReal(rental.totalCost))
  }

  /** The endpoint rejects the panel's request as incomplete exactly when
      the rental's total cost is null or 0 (or an id is empty). */
  lemma PayoutRequestComplete(rental: Rental, userId: string)
    ensures PayoutApi.MissingFields(PayoutRequest(rental, userId)) <==>
              rental.rentalId == "" || userId == "" ||
              rental.totalCost.None? || rental.totalCost.value == 0.0
  {
  }

  /** How a payout request ended: the endpoint's response, or the message
      of an exception thrown by `fetch` or `response.json()`. */
  datatype PayoutReply = Fetched(response: PayoutApi.Response) | Threw(message: string)

  /** `data.message` of a response body. */
  function BodyMessage(b: PayoutApi.Body): Value
  {
    match b
    case Error(_) => Undefined
    case Message(m) => Str(m)
    case Paid(_, _, m) => Str(m)
  }

  /** `data.error` of a response body. */
  function BodyError(b: PayoutApi.Body): Value
  {
    if b.Error? then Str(b.error) else Undefined
  }

  /** `JS ||`: the first truthy operand, else the last one. */
  function Or(a: Value, b: Value): (r: Value)
    ensures Truthy(a) ==> r == a
    ensures !Truthy(a) ==> r == b
  {
    if Truthy(a) then a else b
  }

  /** What the panel records for the rental when the request ends: an
      error message, or the success message. */
  datatype Feedback = Failed(error: Value) | Succeeded(message: Value)

  function FeedbackOf(reply: PayoutReply): (f: Feedback)
    ensures reply.Threw? ==> f == Failed(Str(reply.message))
    ensures reply.Fetched? && 200 <= reply.response.code < 300 ==> f == Succeeded(BodyMessage(reply.response.body))
    ensures reply.Fetched? && !(200 <= reply.response.code < 300) ==> f.Failed? && Truthy(f.error)
  {
    match reply
    case Threw(m) => Failed(Str(m))
    case Fetched(resp) =>
      if 200 <= resp.code < 300 then Succeeded(BodyMessage(resp.body))
      else Failed(Or(BodyMessage(resp.body), Or(BodyError(resp.body), Str("Payout failed"))))
  }

  /** Against the payout endpoint: a settled payout shows its success
      message, and a second payout for a paid rental shows the 409 message. */
  lemma FeedbackFromEndpoint(req: PayoutApi.Request, lookup: PayoutApi.Lookup,
                             run: AgentProcess.Run, parse: string -> PayoutApi.Reply)
    ensures var o := PayoutApi.Settle(req, lookup, run, parse);
            o.response.code == 200 ==> FeedbackOf(Fetched(o.response)) == Succeeded(Str(PayoutApi.SuccessText))
    ensures var o := PayoutApi.Settle(req, lookup, run, parse);
            o.response.code == 409 ==> FeedbackOf(Fetched(o.response)) == Failed(Str(PayoutApi.AlreadyProcessedText))
  {
  }

  /** The payout panel's three maps, keyed by rental id. `processPayout`
      updates them before the request (`StartPayout`) and after it
      (`FinishPayout`); every update touches only the rental's own key. */
  class PayoutsPanel {
    var loading: map<string, bool>
    var error: map<string, Value>
    var success: map<string, Value>

    constructor()
      ensures loading == map[] && error == map[] && success == map[]
    {
      loading := map[];
      error := map[];
      success := map[];
    }

    /** The rental's button is disabled while loading or once paid. */
    predicate Disabled(rentalId: string)
      reads this
    {
      (rentalId in loading && loading[rentalId]) || (rentalId in success && Truthy(success[rentalId]))
    }

    method StartPayout(rentalId: string)
      modifies this
      ensures loading == old(loading)[rentalId := true]
      ensures error == old(error)[rentalId := Null]
      ensures success == old(success)[rentalId := Null]
      ensures Disabled(rentalId)
    {
      loading := loading[rentalId := true];
      error := error[rentalId := Null];
      success := success[rentalId := Null];
    }

    method FinishPayout(rentalId: string, reply: PayoutReply)
      modifies this
      ensures loading == old(loading)[rentalId := false]
      ensures FeedbackOf(reply).Failed? ==>
                error == old(error)[rentalId := FeedbackOf(reply).error] && success == old(success)
      ensures FeedbackOf(reply).Succeeded? ==>
                success == old(success)[rentalId := FeedbackOf(reply).message] && error == old(error)
    {
      var f := FeedbackOf(reply);
      match f {
        case Succeeded(m) =>
          success := success[rentalId := m];
        case Failed(e) =>
          error := error[rentalId := e];
      }
      loading := loading[rentalId := false];
    }
  }

  /** The damage form's state when Submit is pressed. */
  datatype UploadForm = UploadForm(beforeImage: Option<VerifyDamageApi.File>,
                                   afterImage: Option<VerifyDamageApi.File>,
                                   selectedRental: string, description: string)

  const MissingInputText := "Please select a rental and provide both images."

  /** `handleUpload`: an error and no request, or the multipart form posted. */
  datatype Upload = Rejected(message: string) | Send(form: VerifyDamageApi.Form)

  function HandleUpload(f: UploadForm, userId: Option<string>): (u: Upload)
    ensures u.Rejected? <==>
              f.beforeImage.None? || f.afterImage.None? || f.selectedRental == "" || !Present(userId)
    ensures u.Rejected? ==> u.message == MissingInputText
    ensures u.Send? ==> u.form.Form? && VerifyDamageApi.FieldsPresent(u.form)
    ensures u.Send? ==> VerifyDamageApi.First(u.form.rentalId) == Some(f.selectedRental) &&
                        VerifyDamageApi.First(u.form.reporterId) == userId
  {
    if f.beforeImage.None? || f.afterImage.None? || f.selectedRental == "" || !Present(userId) then
      Rejected(MissingInputText)
    else
      Send(VerifyDamageApi.Form(VerifyDamageApi.One(f.beforeImage.value), VerifyDamageApi.One(f.afterImage.value),
                                VerifyDamageApi.One(f.selectedRental), VerifyDamageApi.One(userId.value),
                                VerifyDamageApi.One(f.description)))
  }

  /** The Submit button's `disabled` expression; it does not look at the user. */
  predicate SubmitDisabled(loading: bool, f: UploadForm)
  {
    loading || f.beforeImage.None? || f.afterImage.None? || f.selectedRental == ""
  }

  /** An enabled Submit button is rejected only for a missing user id. */
  lemma EnabledSubmitRejectedOnlyWithoutUser(f: UploadForm, userId: Option<string>)
    requires !SubmitDisabled(false, f)
    ensures HandleUpload(f, userId).Rejected? <==> !Present(userId)
  {
  }

  const LatestReportKey := "latestDamageReport"

  /** The mount effect's reading of session storage: a non-empty stored
      report that parses is shown and removed; one that does not parse makes
      `JSON.parse` throw (`threw`) before anything is removed. */
  datatype Taken = Taken(shown: Option<string>, storage: map<string, string>, threw: bool)

  function TakeLatestReport(storage: map<string, string>, parses: string -> bool): (t: Taken)
    ensures t.shown.Some? ==> LatestReportKey in storage && t.shown.value == storage[LatestReportKey] &&
                              t.storage == storage - {LatestReportKey}
    ensures t.shown.None? ==> t.storage == storage
    ensures t.shown.Some? <==> LatestReportKey in storage && storage[LatestReportKey] != "" &&
                               parses(storage[LatestReportKey])
    ensures t.threw <==> LatestReportKey in storage && storage[LatestReportKey] != "" &&
                         !parses(storage[LatestReportKey])
  {
    if LatestReportKey in storage && storage[LatestReportKey] != "" then
      if parses(storage[LatestReportKey]) then
        Taken(Some(storage[LatestReportKey]), storage - {LatestReportKey}, false)
      else
        Taken(None, storage, true)
    else
      Taken(None, storage, false)
  }

  /** A stored value that does not parse is never removed, so every later
      mount throws on it again. */
  lemma {:induction false} UnparsableReportThrowsEveryMount(storage: map<string, string>,
                                                            parses: string -> bool, n: nat)
    requires TakeLatestReport(storage, parses).threw
    ensures Remount(storage, parses, n).threw && Remount(storage, parses, n).storage == storage
  {
    if n > 0 {
      UnparsableReportThrowsEveryMount(storage, parses, n - 1);
    }
  }

  /** The storage and the last mount's outcome after `n + 1` mounts. */
  function Remount(storage: map<string, string>, parses: string -> bool, n: nat): Taken
  {
    if n == 0 then TakeLatestReport(storage, parses)
    else TakeLatestReport(Remount(storage, parses, n - 1).storage, parses)
  }

  /** A stored report is shown at most once: the next mount finds nothing. */
  lemma ReportShownOnce(storage: map<string, string>, parses: string -> bool)
    ensures var first := TakeLatestReport(storage, parses);
            TakeLatestReport(first.storage, parses).shown.Some? ==> first.shown.None?
  {
  }

  /** The browser's session storage. */
  class SessionStore {
    var items: map<string, string>

    constructor(items0: map<string, string>)
      ensures items == items0
    {
      items := items0;
    }

    /** `getItem`, then `JSON.parse` and `removeItem` when the value is set. */
    method ShowLatestReport(parses: string -> bool) returns (shown: Option<string>, threw: bool)
      modifies this
      ensures Taken(shown, items, threw) == TakeLatestReport(old(items), parses)
    {
      shown, threw := None, false;
      if LatestReportKey in items {
        var stored := items[LatestReportKey];
        if stored != "" {
          if parses(stored) {
            shown := Some(stored);
            items := items - {LatestReportKey};
          } else {
            threw := true;
          }
        }
      }
    }
  }
}
