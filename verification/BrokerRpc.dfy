/** The dispatch call from the agent to the broker: the broker's answers and the agent's reading
    of them. Signatures are symbolic (HMAC, section 2 of RFC 2104, taken to be injective): a seal
    names the direction and content it was computed over, and only the broker makes a
    response seal. A response is delivered whole or not at all. */
module BrokerRpc {
  import opened Types
  import opened RouterOutcomes

  type RequestId = nat

  // ---- the broker ----

  datatype Refusal = InvalidAddress | ExcludedAddress | NoRouters | ExcludedAtDispatch

  /** One accepted request: turned away, or dispatched to one task per router. */
  datatype Stage = Refused(reason: Refusal) | Dispatching(tasks: seq<Option<TaskResult>>)

  datatype Handling = Handling(requestId: RequestId, stage: Stage)

  predicate Complete(h: Handling) {
    h.stage.Dispatching? ==> forall i | 0 <= i < |h.stage.tasks| :: h.stage.tasks[i].Some?
  }

  /** Some router task of this handling took effect. */
  predicate Applied(h: Handling) {
    && h.stage.Dispatching?
    && exists i | 0 <= i < |h.stage.tasks| :: h.stage.tasks[i].Some? && h.stage.tasks[i].value.applied
  }

  predicate SoundTasks(h: Handling) {
    h.stage.Dispatching? ==>
      forall i | 0 <= i < |h.stage.tasks| :: h.stage.tasks[i].Some? ==> Sound(h.stage.tasks[i].value)
  }

  function Outcomes(h: Handling): (r: seq<Outcome>)
    requires Complete(h)
  {
    if h.stage.Refused? then []
    else seq(|h.stage.tasks|, i requires 0 <= i < |h.stage.tasks| => h.stage.tasks[i].value.outcome)
  }

  /** A JSON value as int() sees it. */
  datatype Json = Number(n: int) | NotANumber

  datatype Body =
    | Report(requestId: Option<RequestId>, executed: bool, successCount: Json, unknownCount: Json)
    | Detail                    // the framework's error object
    | NotAnObject

  /** What a seal was computed over, and by whom. */
  datatype Seal = OfResponse(over: Body) | OfRequest(request: RequestId) | Forged

  datatype Response = Response(status: int, headerId: Option<RequestId>, body: Body, seal: Seal)

  function Sign(status: int, headerId: Option<RequestId>, body: Body): Response {
    Response(status, headerId, body, OfResponse(body))
  }

  /** The signed answer to a handled request. */
  function ReplyTo(h: Handling): Response
    requires Complete(h)
  {
    var id := Some(h.requestId);
    match h.stage
    case Refused(InvalidAddress) => Sign(400, id, Detail)
    case Refused(ExcludedAddress) => Sign(200, None, Report(id, false, Number(0), Number(0)))
    case Refused(NoRouters) => Sign(200, None, Report(id, false, Number(0), Number(0)))
    case Refused(ExcludedAtDispatch) => Sign(200, None, Report(id, true, Number(0), Number(0)))
    case Dispatching(_) =>
      Sign(200, None, Report(id, true, Number(Count(Outcomes(h), Succeeded)), Number(Count(Outcomes(h), Unknown))))
  }

  /** The signed answer to a request that never got past authentication, or to a handler that
      failed partway: it names no request. */
  function Denial(status: int): Response { Sign(status, None, Detail) }

  // ---- the agent ----

  datatype Verdict = Isolated | NotDispatched | OutcomeUnknown

  predicate SealVerifies(r: Response) { r.seal == OfResponse(r.body) }

  function EchoedId(r: Response): Option<RequestId> {
    if r.body.Report? && r.body.requestId.Some? then r.body.requestId else r.headerId
  }

  /** dispatch_block_via_broker after the request was sent; None is a request that raised. */
  function Classify(reply: Option<Response>, id: RequestId): Verdict {
    if reply.None? then OutcomeUnknown else
    var r := reply.value;
    if r.status == 500 || r.status == 504 then OutcomeUnknown
    else if !SealVerifies(r) then OutcomeUnknown
    else if r.status == 200 && r.body.NotAnObject? then OutcomeUnknown
    else if EchoedId(r) != Some(id) then OutcomeUnknown
    else if r.status != 200 then NotDispatched
    else
      var success := if r.body.Report? then r.body.successCount else Number(0);
      var unknown := if r.body.Report? then r.body.unknownCount else Number(0);
      if success.NotANumber? || unknown.NotANumber? then OutcomeUnknown
      else
        var executed := r.body.Report? && r.body.executed;
        if executed && success.n == 0 && unknown.n > 0 then OutcomeUnknown
        else if executed && success.n >= 1 then Isolated
        else NotDispatched
  }

  // ---- agreement ----

  /** Everything the broker has signed so far: answers to handled requests, and denials. */
  ghost predicate BrokerSigned(handlings: seq<Handling>, sent: set<Response>) {
    forall r | r in sent ::
      || (exists s :: r == Denial(s))
      || (exists i | 0 <= i < |handlings| :: Complete(handlings[i]) && r == ReplyTo(handlings[i]))
  }

  /** What the network may hand the agent: nothing, any response the broker ever sent, or anything
      whose seal the broker did not make, such as the agent's own request reflected. A response the
      agent finds stale or already seen reads like one whose seal does not verify. */
  predicate Deliverable(reply: Option<Response>, sent: set<Response>) {
    reply.None? || reply.value in sent || !reply.value.seal.OfResponse?
  }

  predicate SomeSucceeded(h: Handling) {
    h.stage.Dispatching? && exists i | 0 <= i < |h.stage.tasks| ::
      h.stage.tasks[i].Some? && h.stage.tasks[i].value.outcome == Succeeded
  }

  predicate NoneMayHold(h: Handling) {
    h.stage.Dispatching? ==> forall i | 0 <= i < |h.stage.tasks| ::
      h.stage.tasks[i].Some? && h.stage.tasks[i].value.outcome == Failed
  }

  /** How the agent reads a genuine answer. */
  lemma ReplyReading(h: Handling, id: RequestId)
    requires Complete(h)
    ensures h.requestId != id ==> Classify(Some(ReplyTo(h)), id) == OutcomeUnknown
    ensures h.requestId == id ==>
      && (Classify(Some(ReplyTo(h)), id) == Isolated <==> SomeSucceeded(h))
      && (Classify(Some(ReplyTo(h)), id) == NotDispatched <==> NoneMayHold(h))
  {
    if h.stage.Dispatching? {
      var rs := Outcomes(h);
      CountIsZeroIffAbsent(rs, Succeeded);
      CountIsZeroIffAbsent(rs, Unknown);
      forall i | 0 <= i < |rs| ensures rs[i] == h.stage.tasks[i].value.outcome && rs[i] in rs {}
      if Succeeded in rs {
        var i :| 0 <= i < |rs| && rs[i] == Succeeded;
        assert h.stage.tasks[i].value.outcome == Succeeded;
      }
      if Unknown in rs {
        var i :| 0 <= i < |rs| && rs[i] == Unknown;
        assert h.stage.tasks[i].value.outcome == Unknown;
      }
    }
  }

  /** Whatever is handed over: a definite verdict needs a sealed answer that is no server or gateway error and
      names this request, in its body if that names any and else in its header; and at status 200 an object whose
      counts are numbers. */
  lemma DoubtIsUnknown(reply: Option<Response>, id: RequestId)
    requires Classify(reply, id) != OutcomeUnknown
    ensures reply.Some? && reply.value.seal == OfResponse(reply.value.body) && reply.value.status !in {500, 504}
    ensures var r := reply.value;
      && (r.headerId == Some(id) || (r.body.Report? && r.body.requestId == Some(id)))
      && (r.body.Report? && r.body.requestId.Some? ==> r.body.requestId == Some(id))
    ensures var r := reply.value;
      && (r.status == 200 ==> !r.body.NotAnObject?)
      && (r.status == 200 && r.body.Report? ==> r.body.successCount.Number? && r.body.unknownCount.Number?)
  {
    assert EchoedId(reply.value) == Some(id);
  }

  /** RPC agreement, whatever the network lost, delayed, replayed or reflected: a True answer means
      the broker handled this very request and a router confirmed it; a False answer means it
      handled this very request and no router may hold the block. */
  lemma RpcAgreement(handlings: seq<Handling>, sent: set<Response>, reply: Option<Response>, id: RequestId)
    requires BrokerSigned(handlings, sent) && Deliverable(reply, sent)
    ensures Classify(reply, id) == Isolated ==>
      exists i | 0 <= i < |handlings| ::
        handlings[i].requestId == id && Complete(handlings[i]) && SomeSucceeded(handlings[i])
    ensures Classify(reply, id) == NotDispatched ==>
      exists i | 0 <= i < |handlings| ::
        handlings[i].requestId == id && Complete(handlings[i]) && NoneMayHold(handlings[i])
  {
    if Classify(reply, id) != OutcomeUnknown {
      var r := reply.value;
      assert r in sent;
      assert !exists s :: r == Denial(s);
      var i :| 0 <= i < |handlings| && Complete(handlings[i]) && r == ReplyTo(handlings[i]);
      ReplyReading(handlings[i], id);
    }
  }

  /** No router holds a block of a soundly reported handling in which every task failed. */
  lemma NoneMayHoldMeansNotApplied(h: Handling)
    requires SoundTasks(h) && NoneMayHold(h)
    ensures !Applied(h)
  {}

  lemma SomeSucceededMeansApplied(h: Handling)
    requires SoundTasks(h) && SomeSucceeded(h)
    ensures Applied(h)
  {}
}
