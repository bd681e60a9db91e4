/** The payout endpoint (`pages/api/payout.js`): settles one rental by
    checking that no completed payment exists for it, invoking the payout
    agent once with `{rental_id, user_id, amount}`, and confirming that the
    agent reported `completed`. The endpoint never writes to `payments`
    itself; the agent is trusted to record the payment. */
module PayoutApi {
  import opened Common
  import opened Tables
  import AgentProcess

  /** The request: its HTTP method and the three JSON body fields as sent. */
  datatype Request = Request(httpMethod: string, rentalId: Value, userId: Value, amount: Value)

  /** The JSON document written to the agent's stdin. */
  datatype Payload = Payload(rentalId: Value, userId: Value, amount: Value)

  /** An error object from the store. */
  datatype DbError = DbError(code: string, message: string)

  /** The `{ data, error }` pair that `.single()` resolves to. */
  datatype Lookup = Lookup(data: Option<Payment>, error: Option<DbError>)

  /** A string-valued JSON field after destructuring: absent, null or text. */
  datatype Field = Missing | NullField | Text(s: string)

  /** `JSON.parse(agentResult)` destructured into `{ payment_id, status }`,
      or the message of the exception it threw. */
  datatype Reply = Reply(paymentId: Value, status: Field) | NotJson(message: string)

  /** What the handler does outside itself, in order. */
  datatype Effect = QueryCompletedPayment(rentalId: Value) | SpawnAgent(payload: Payload)

  datatype Body =
    | Error(error: string)
    | Message(message: string)
    | Paid(paymentId: Value, status: string, message: string)

  datatype Response = Response(code: int, body: Body)

  datatype Outcome = Outcome(response: Response, effects: seq<Effect>)

  /** The store's code for "no single row": zero or several rows matched. */
  const SingleRowNotFound := "PGRST116"
  const NotFoundMessage := "JSON object requested, multiple (or no) rows returned"
  const MissingFieldsText := "Missing required fields: rental_id, user_id, and amount are required."
  const AlreadyProcessedText := "Payment for this rental has already been processed."
  const SuccessText := "Payout processed successfully."

  /** How a destructured field reads inside a template literal. */
  function FieldText(f: Field): string
  {
    match f
    case Missing => "undefined"
    case NullField => "null"
    case Text(s) => s
  }

  /** `!rental_id || !user_id || !amount`: an amount of 0 counts as missing. */
  predicate MissingFields(req: Request)
  {
    !Truthy(req.rentalId) || !Truthy(req.userId) || !Truthy(req.amount)
  }

  /** The condition of the completed-payment query. */
  predicate IsCompletedFor(rentalId: Value, p: Payment)
  {
    rentalId == Str(p.rentalId) && p.status == "completed"
  }

  /** The completed payments recorded for a rental, in table order. */
  function CompletedFor(payments: seq<Payment>, rentalId: Value): seq<Payment>
  {
    Filter(payments, p => IsCompletedFor(rentalId, p))
  }

  /** `.from('payments').select('*').eq('rental_id', id).eq('status', 'completed').single()`
      over the table: one matching row is returned as data; zero or several
      rows give error PGRST116; a transport failure gives its own error. */
  function SingleCompleted(payments: seq<Payment>, rentalId: Value, transport: Option<DbError>): (l: Lookup)
    ensures transport.Some? ==> l == Lookup(None, transport)
    ensures transport.None? && |CompletedFor(payments, rentalId)| == 1 ==>
              l.data == Some(CompletedFor(payments, rentalId)[0])
    ensures transport.None? && |CompletedFor(payments, rentalId)| != 1 ==>
              l.data.None? && l.error.Some? && l.error.value.code == SingleRowNotFound
  {
    if transport.Some? then Lookup(None, transport)
    else
      var rows := CompletedFor(payments, rentalId);
      if |rows| == 1 then Lookup(Some(rows[0]), None)
      else Lookup(None, Some(DbError(SingleRowNotFound, NotFoundMessage)))
  }

  /** The lookup lets the handler go on to the agent: no row, and either no
      error or only the "no single row" one. */
  predicate LookupClear(l: Lookup)
  {
    l.data.None? && (l.error.None? || l.error.value.code == SingleRowNotFound)
  }

  /** Whether the outcome spawned the payout agent. */
  predicate AgentCalled(o: Outcome)
  {
    exists i :: 0 <= i < |o.effects| && o.effects[i].SpawnAgent?
  }

  /** The handler's decision chain, given what the lookup, the agent process
      and `JSON.parse` would yield. */
  function Settle(req: Request, lookup: Lookup, run: AgentProcess.Run, parse: string -> Reply): (o: Outcome)
    ensures o.response.code in {200, 400, 405, 409, 500}
    ensures o.response.code == 405 <==> req.httpMethod != "POST"
    ensures o.response.code == 400 <==> req.httpMethod == "POST" && MissingFields(req)
    ensures (req.httpMethod != "POST" || MissingFields(req)) ==> o.effects == []
    ensures o.response.code == 409 <==>
              req.httpMethod == "POST" && !MissingFields(req) && lookup.data.Some?
    ensures AgentCalled(o) <==> req.httpMethod == "POST" && !MissingFields(req) && LookupClear(lookup)
    ensures AgentCalled(o) ==>
              o.effects == [QueryCompletedPayment(req.rentalId),
                            SpawnAgent(Payload(req.rentalId, req.userId, req.amount))]
    ensures AgentCalled(o) && run.exitCode != 0 ==>
              o.response == Response(500, Error("Payout agent failed: " + AgentProcess.Concat(run.stderr)))
    ensures o.response.code == 200 ==>
              AgentCalled(o) && run.exitCode == 0 &&
              parse(AgentProcess.Concat(run.stdout)).Reply? &&
              parse(AgentProcess.Concat(run.stdout)).status == Text("completed") &&
              o.response.body == Paid(parse(AgentProcess.Concat(run.stdout)).paymentId, "completed", SuccessText)
    ensures AgentCalled(o) && run.exitCode == 0 && parse(AgentProcess.Concat(run.stdout)).Reply? &&
            parse(AgentProcess.Concat(run.stdout)).status == Text("completed") ==>
              o.response == Response(200, Paid(parse(AgentProcess.Concat(run.stdout)).paymentId, "completed",
                                               SuccessText))
    ensures AgentCalled(o) && run.exitCode == 0 && parse(AgentProcess.Concat(run.stdout)).Reply? &&
            parse(AgentProcess.Concat(run.stdout)).status != Text("completed") ==>
              o.response == Response(500, Error("Payout agent returned a non-completed status: " +
                                                FieldText(parse(AgentProcess.Concat(run.stdout)).status)))
    ensures AgentCalled(o) && run.exitCode == 0 && parse(AgentProcess.Concat(run.stdout)).NotJson? ==>
              o.response == Response(500, Error(parse(AgentProcess.Concat(run.stdout)).message))
    ensures req.httpMethod == "POST" && !MissingFields(req) && lookup.data.None? &&
            lookup.error.Some? && lookup.error.value.code != SingleRowNotFound ==>
              o.effects == [QueryCompletedPayment(req.rentalId)] &&
              o.response == Response(500, Error("Database query failed: " + lookup.error.value.message))
  {
    if req.httpMethod != "POST" then
      Outcome(Response(405, Error("Method Not Allowed")), [])
    else if MissingFields(req) then
      Outcome(Response(400, Error(MissingFieldsText)), [])
    else
      var queried := [QueryCompletedPayment(req.rentalId)];
      if lookup.data.Some? then
        Outcome(Response(409, Message(AlreadyProcessedText)), queried)
      else if lookup.error.Some? && lookup.error.value.code != SingleRowNotFound then
        Outcome(Response(500, Error("Database query failed: " + lookup.error.value.message)), queried)
      else
        var spawned := queried + [SpawnAgent(Payload(req.rentalId, req.userId, req.amount))];
        assert spawned[1].SpawnAgent?;
        if run.exitCode != 0 then
          Outcome(Response(500, Error("Payout agent failed: " + AgentProcess.Concat(run.stderr))), spawned)
        else
          match parse(AgentProcess.Concat(run.stdout))
          case NotJson(m) => Outcome(Response(500, Error(m)), spawned)
          case Reply(paymentId, status) =>
            if status != Text("completed") then
              Outcome(Response(500, Error("Payout agent returned a non-completed status: " + FieldText(status))), spawned)
            else
              Outcome(Response(200, Paid(paymentId, "completed", SuccessText)), spawned)
  }

  /** The handler: runs the decision chain against the `payments` table,
      accumulating the agent's output chunk by chunk. It only reads the store. */
  method HandlePayout(db: Db, req: Request, transport: Option<DbError>, run: AgentProcess.Run,
                      parse: string -> Reply)
    returns (out: Outcome)
    ensures out == Settle(req, SingleCompleted(db.payments, req.rentalId, transport), run, parse)
  {
    if req.httpMethod != "POST" {
      return Outcome(Response(405, Error("Method Not Allowed")), []);
    }
    if MissingFields(req) {
      return Outcome(Response(400, Error(MissingFieldsText)), []);
    }
    var effects := [QueryCompletedPayment(req.rentalId)];
    var lookup := SingleCompleted(db.payments, req.rentalId, transport);
    if lookup.data.Some? {
      return Outcome(Response(409, Message(AlreadyProcessedText)), effects);
    }
    if lookup.error.Some? && lookup.error.value.code != SingleRowNotFound {
      return Outcome(Response(500, Error("Database query failed: " + lookup.error.value.message)), effects);
    }
    effects := effects + [SpawnAgent(Payload(req.rentalId, req.userId, req.amount))];
    var agentResult := AgentProcess.Accumulate(run.stdout);
    var agentError := AgentProcess.Accumulate(run.stderr);
    if run.exitCode != 0 {
      return Outcome(Response(500, Error("Payout agent failed: " + agentError)), effects);
    }
    var reply := parse(agentResult);
    match reply
    case NotJson(m) =>
      out := Outcome(Response(500, Error(m)), effects);
    case Reply(paymentId, status) =>
      if status != Text("completed") {
        out := Outcome(Response(500, Error("Payout agent returned a non-completed status: " + FieldText(status))), effects);
      } else {
        out := Outcome(Response(200, Paid(paymentId, "completed", SuccessText)), effects);
      }
  }

  /** A valid request for a rental that already has its one completed payment
      is answered 409 without invoking the agent. */
  lemma AlreadyPaidSkipsAgent(payments: seq<Payment>, req: Request, run: AgentProcess.Run,
                              parse: string -> Reply)
    requires req.httpMethod == "POST" && !MissingFields(req)
    requires |CompletedFor(payments, req.rentalId)| == 1
    ensures var o := Settle(req, SingleCompleted(payments, req.rentalId, None), run, parse);
            o.response == Response(409, Message(AlreadyProcessedText)) && !AgentCalled(o)
  {
  }

  /** Idempotent settlement: after a successful payout, once the agent has
      recorded its completed payment, the same request is answered 409 and
      the agent is not invoked a second time. */
  lemma SecondPayoutConflicts(payments: seq<Payment>, req: Request, run: AgentProcess.Run,
                              parse: string -> Reply, recorded: Payment,
                              run2: AgentProcess.Run, parse2: string -> Reply)
    requires CompletedFor(payments, req.rentalId) == []
    requires Settle(req, SingleCompleted(payments, req.rentalId, None), run, parse).response.code == 200
    requires recorded.status == "completed" && req.rentalId == Str(recorded.rentalId)
    ensures var o2 := Settle(req, SingleCompleted(payments + [recorded], req.rentalId, None), run2, parse2);
            o2.response.code == 409 && !AgentCalled(o2)
  {
    var p := (x: Payment) => IsCompletedFor(req.rentalId, x);
    FilterAppend(payments, [recorded], p);
    assert Filter([recorded], p) == [recorded];
    assert CompletedFor(payments + [recorded], req.rentalId) == [recorded];
  }

  /** The check relies on `.single()`, so once two completed payments exist
      for a rental (the check-then-act race allows it) the lookup reports
      "no single row" and the agent is invoked again. */
  lemma DuplicateCompletedPaymentsReachAgent(payments: seq<Payment>, req: Request,
                                             run: AgentProcess.Run, parse: string -> Reply)
    requires req.httpMethod == "POST" && !MissingFields(req)
    requires |CompletedFor(payments, req.rentalId)| >= 2
    ensures AgentCalled(Settle(req, SingleCompleted(payments, req.rentalId, None), run, parse))
  {
  }

  /** A store error other than "no single row" is reported as 500 and the
      agent is not invoked. */
  lemma LookupFailureStops(payments: seq<Payment>, req: Request, e: DbError,
                           run: AgentProcess.Run, parse: string -> Reply)
    requires req.httpMethod == "POST" && !MissingFields(req)
    requires e.code != SingleRowNotFound
    ensures var o := Settle(req, SingleCompleted(payments, req.rentalId, Some(e)), run, parse);
            o.response == Response(500, Error("Database query failed: " + e.message)) && !AgentCalled(o)
  {
  }
}
