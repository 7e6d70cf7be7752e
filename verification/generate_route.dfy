/**
 * The POST handler of the generate endpoint: read the body, validate it, then
 * plan either through the language model or through the fallback planner, and
 * map every failure to a status code. The model call and the environment are
 * parameters: whether a credential is configured, and what the call came back with.
 */
module GenerateRoute {
  import opened PlanTypes
  import opened Request
  import opened Fallback

  /** What `request.json()` yields: unreadable text, a JSON value that is not an object, or an object. */
  datatype Body = BadJson | NonObject | Object(payload: RawPayload)

  /** How the model call ended: a plan parsed from its text, text that does not parse, or an exception. */
  datatype ModelOutcome = ParsedPlan(plan: AIPlan) | Malformed | Threw

  /** The JSON the endpoint answers with. */
  datatype ResponseBody =
    | PlanBody(usingAI: bool, plan: AIPlan)
    | InvalidBody(error: string, details: set<Field>)
    | FailureBody(error: string)

  datatype Response = Response(status: int, body: ResponseBody)

  const InvalidRequestMessage := "Invalid request"
  const GenerationFailedMessage := "Failed to generate automation plan"

  /**
   * `POST`. A body the schema rejects is answered 400 with the failing fields,
   * before any planning; a body that cannot be read, and a model call that
   * throws or returns malformed text, are answered 500. A plan is answered 200
   * and flagged as the model's exactly when a credential is configured, and a
   * failed model call never falls back to the deterministic planner.
   */
  function Post(body: Body, hasKey: bool, model: ModelOutcome): (r: Response)
    ensures r.status == 200 <==> r.body.PlanBody?
    ensures r.status == 400 <==> r.body.InvalidBody?
    ensures r.status == 500 <==> r.body.FailureBody?
    ensures r.body.InvalidBody? ==> r.body.error == InvalidRequestMessage
    ensures r.body.FailureBody? ==> r.body.error == GenerationFailedMessage
    ensures r.body.PlanBody? ==> r.body.usingAI == hasKey
    ensures r.body.PlanBody? <==>
      body.Object? && Validate(body.payload).Success? && (!hasKey || model.ParsedPlan?)
    ensures r.body.InvalidBody? <==>
      body.NonObject? || (body.Object? && Validate(body.payload).Failure?)
    ensures body.Object? && Validate(body.payload).Failure? ==> r.body.details == Validate(body.payload).error
    ensures body.NonObject? ==> r.body.details == {}
    ensures r.body.PlanBody? && !hasKey ==> r.body.plan == FallbackPlan(Validate(body.payload).value)
    ensures r.body.PlanBody? && hasKey ==> r.body.plan == model.plan
  {
    match body
    case BadJson => Response(500, FailureBody(GenerationFailedMessage))
    case NonObject => Response(400, InvalidBody(InvalidRequestMessage, {}))
    case Object(p) =>
      match Validate(p)
      case Failure(fields) => Response(400, InvalidBody(InvalidRequestMessage, fields))
      case Success(input) =>
        if !hasKey then
          Response(200, PlanBody(false, FallbackPlan(input)))
        else
          match model
          case ParsedPlan(plan) => Response(200, PlanBody(true, plan))
          case Malformed => Response(500, FailureBody(GenerationFailedMessage))
          case Threw => Response(500, FailureBody(GenerationFailedMessage))
  }

  /** A rejected body is answered the same whatever the credential and the model would have done. */
  lemma InvalidNeverGenerates(body: Body, k1: bool, m1: ModelOutcome, k2: bool, m2: ModelOutcome)
    requires body.NonObject? || (body.Object? && Validate(body.payload).Failure?)
    ensures Post(body, k1, m1) == Post(body, k2, m2)
    ensures Post(body, k1, m1).status == 400
  {
  }

  /** Without a credential the answer is the fallback plan, whatever the model would have done. */
  lemma KeylessServesFallback(p: RawPayload, model: ModelOutcome)
    requires Validate(p).Success?
    ensures Post(Object(p), false, model) == Response(200, PlanBody(false, FallbackPlan(Validate(p).value)))
  {
  }

  /**
   * With a credential a failed model call never yields a plan of any provenance:
   * an accepted body gets a 500, and any other body keeps its 400 or 500.
   */
  lemma ModelFailureNoFallback(body: Body, model: ModelOutcome)
    requires !model.ParsedPlan?
    ensures !Post(body, true, model).body.PlanBody?
    ensures Post(body, true, model).status in {400, 500}
    ensures body.Object? && Validate(body.payload).Success? ==> Post(body, true, model).status == 500
  {
  }

  /** The provenance flag is true only for a plan the model produced. */
  lemma ProvenanceTruthful(body: Body, hasKey: bool, model: ModelOutcome)
    ensures Post(body, hasKey, model).body.PlanBody? && Post(body, hasKey, model).body.usingAI
      <==> body.Object? && Validate(body.payload).Success? && hasKey && model.ParsedPlan?
  {
  }
}
