/** The payout agent (`agents/payout_agent/payout_agent.py`): every payment
    fetched as pending is put through the (simulated) gateway and its status
    set to `completed` or `failed`; the run reports how many succeeded. The
    gateway's answer is a parameter; the agent itself always passes `true`. */
module PayoutAgent {
  import opened Common
  import opened Tables

  predicate IsPending(p: Payment)
  {
    p.status == "pending"
  }

  /** `fetch_pending_payments()`: the pending payments, in table order. */
  function FetchPendingPayments(payments: seq<Payment>): (r: seq<Payment>)
    ensures forall x :: x in r <==> x in payments && x.status == "pending"
    ensures IsSubsequence(r, payments)
  {
    FilterMember(payments, IsPending);
    FilterIsSubsequence(payments, IsPending);
    Filter(payments, IsPending)
  }

  /** `update_payment_status(payment_id, status)`: every row with that
      payment id gets the status. */
  function SetStatus(payments: seq<Payment>, paymentId: string, status: string): seq<Payment>
  {
    UpdateWhere(payments, (p: Payment) => p.paymentId == paymentId, (p: Payment) => p.(status := status))
  }

  method UpdatePaymentStatus(db: Db, paymentId: string, status: string)
    modifies db`payments
    ensures db.payments == SetStatus(old(db.payments), paymentId, status)
  {
    db.payments := SetStatus(db.payments, paymentId, status);
  }

  /** `process_payment(payment)`: the gateway's answer decides the status. */
  method ProcessPayment(db: Db, payment: Payment, gatewayOk: bool) returns (success: bool)
    modifies db`payments
    ensures success == gatewayOk
    ensures db.payments == SetStatus(old(db.payments), payment.paymentId,
                                     if gatewayOk then "completed" else "failed")
  {
    success := gatewayOk;
    if success {
      UpdatePaymentStatus(db, payment.paymentId, "completed");
    } else {
      UpdatePaymentStatus(db, payment.paymentId, "failed");
    }
  }

  /** The payment ids among some fetched rows. */
  function Ids(ps: seq<Payment>): (ids: set<string>)
    ensures forall p :: p in ps ==> p.paymentId in ids
    ensures forall id :: id in ids ==> exists p :: p in ps && p.paymentId == id
  {
    set p | p in ps :: p.paymentId
  }

  /** The table after every row whose id is in `ids` has been completed. */
  function CompleteIds(payments: seq<Payment>, ids: set<string>): seq<Payment>
  {
    UpdateWhere(payments, (p: Payment) => p.paymentId in ids, (p: Payment) => p.(status := "completed"))
  }

  lemma IdsSnoc(ps: seq<Payment>, p: Payment)
    ensures Ids(ps + [p]) == Ids(ps) + {p.paymentId}
  {
  }

  /** Completing the next fetched payment extends the completed prefix. */
  lemma LoopStep(payments: seq<Payment>, pending: seq<Payment>, i: nat)
    requires i < |pending|
    ensures SetStatus(CompleteIds(payments, Ids(pending[..i])), pending[i].paymentId, "completed") ==
            CompleteIds(payments, Ids(pending[..i + 1]))
  {
    assert pending[..i + 1] == pending[..i] + [pending[i]];
    IdsSnoc(pending[..i], pending[i]);
    CompleteOneMore(payments, Ids(pending[..i]), pending[i].paymentId);
  }

  /** Completing one more id after a set of ids is completing both at once. */
  lemma CompleteOneMore(payments: seq<Payment>, ids: set<string>, id: string)
    ensures SetStatus(CompleteIds(payments, ids), id, "completed") == CompleteIds(payments, ids + {id})
  {
    var a := SetStatus(CompleteIds(payments, ids), id, "completed");
    var b := CompleteIds(payments, ids + {id});
    assert |a| == |b|;
    forall i | 0 <= i < |a|
      ensures a[i] == b[i]
    {
    }
  }

  /** The table after a run: the rows whose id was pending are completed. */
  function AfterRun(payments: seq<Payment>): (r: seq<Payment>)
    ensures |r| == |payments|
  {
    CompleteIds(payments, Ids(FetchPendingPayments(payments)))
  }

  /** After a run every payment that was pending is completed, and a payment
      is changed only when it shares its id with a pending one. */
  lemma RunCompletesPending(payments: seq<Payment>, k: int)
    requires 0 <= k < |payments|
    ensures payments[k].status == "pending" ==> AfterRun(payments)[k].status == "completed"
    ensures AfterRun(payments)[k] != payments[k] ==>
              exists p :: p in payments && p.status == "pending" && p.paymentId == payments[k].paymentId
  {
    var pending := FetchPendingPayments(payments);
    if payments[k].status == "pending" {
      assert payments[k] in pending;
    }
  }

  /** A second run finds nothing pending: settling is idempotent. */
  lemma SecondRunFindsNothing(payments: seq<Payment>)
    ensures FetchPendingPayments(AfterRun(payments)) == []
  {
    var r := AfterRun(payments);
    forall x | x in r
      ensures x.status != "pending"
    {
      var k :| 0 <= k < |r| && r[k] == x;
      RunCompletesPending(payments, k);
    }
  }

  /** `run_payout_agent(task_input)`: processes each pending payment in
      fetched order and counts the successes. `task_input` is not read. */
  method RunPayoutAgent(db: Db, taskInput: Dict) returns (processed: nat)
    modifies db`payments
    ensures processed == |FetchPendingPayments(old(db.payments))|
    ensures db.payments == AfterRun(old(db.payments))
  {
    var pending := FetchPendingPayments(db.payments);
    ghost var start := db.payments;
    processed := 0;
    var i := 0;
    while i < |pending|
      invariant 0 <= i <= |pending|
      invariant processed == i
      invariant db.payments == CompleteIds(start, Ids(pending[..i]))
    {
      LoopStep(start, pending, i);
      var ok := ProcessPayment(db, pending[i], true);
      if ok {
        processed := processed + 1;
      }
      i := i + 1;
    }
    assert pending[..i] == pending;
  }
}
