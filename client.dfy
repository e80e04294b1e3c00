/** The GraphQL client: the request envelope it sends and the way it
    classifies what comes back. The HTTP exchange itself is abstract: a
    `Client` carries a `remote` function that, given every request received
    so far, yields the exchange answering the last one. */
module GraphQL {
  import opened Values
  import opened Responses

  /** The query and mutation documents, as opaque tags. */
  datatype Operation =
    | ListActions | DeleteAction
    | CreateEmailAction | CreateHumioRepoAction | CreateOpsGenieAction | CreatePagerDutyAction
    | CreateSlackAction | CreateSlackPostMessageAction | CreateVictorOpsAction | CreateWebhookAction
    | UpdateEmailAction | UpdateHumioRepoAction | UpdateOpsGenieAction | UpdatePagerDutyAction
    | UpdateSlackAction | UpdateSlackPostMessageAction | UpdateVictorOpsAction | UpdateWebhookAction
    | ListAlerts | CreateAlert | DeleteAlert
    | ListParsers | GetParser | CreateParser | UpdateParser | DeleteParser
    | ListIngestTokens | AddIngestToken | AssignParser | UnassignParser | RemoveIngestToken
    | ListRepositories | GetRepository | CreateRepository | UpdateDescription
    | UpdateTimeBasedRetention | DeleteRepository

  /** The JSON request body `{query, variables}`; `variables` is None when the
      member is left out of the JSON. */
  datatype RequestBody = RequestBody(query: Operation, variables: Option<Vars>)

  /** What a server reads as the variables of a request: none when omitted. */
  function VariablesOf(body: RequestBody): Vars
  {
    match body.variables
    case None => map[]
    case Some(v) => v
  }

  /** Builds the request body; `variables` is omitted when the map is empty
      (Go's `omitempty` also drops a nil map, which has no counterpart here). */
  function EncodeRequest(query: Operation, variables: Vars): (body: RequestBody)
    ensures body.query == query
    ensures body.variables.None? <==> variables == map[]
    ensures VariablesOf(body) == variables
  {
    RequestBody(query, if variables == map[] then None else Some(variables))
  }

  datatype GqlError = GqlError(message: string, path: seq<Value>)

  /** The decoded `{data, errors}` envelope; `data` is None when it is absent
      or decodes into no known response type. */
  datatype Envelope = Envelope(data: Option<Data>, errors: seq<GqlError>)

  /** The outcome of one HTTP exchange. */
  datatype Exchange =
    | Failed(reason: string)      // the request could not be built or sent, or the body not read
    | Received(status: int, body: string, envelope: Option<Envelope>) // envelope None: body is not an envelope

  /** Whether `data` decodes into a target of the given shape. */
  predicate Fits(data: Option<Data>, target: Shape)
  {
    data.Some? && ShapeOf(data.value) == target
  }

  /** The outcome of `Query` for a given exchange: an error, or success
      carrying the decoded target (None when the caller passed no target). */
  function Classify(ex: Exchange, target: Option<Shape>): (r: Result<Option<Data>>)
    // a transport failure or a non-200 status is an error, before any decoding
    ensures ex.Failed? ==> r == Err(Transport(ex.reason))
    ensures ex.Received? && ex.status != 200 ==> r == Err(UnexpectedStatus(ex.status, ex.body))
    ensures ex.Received? && ex.status == 200 && ex.envelope.None? ==> r == Err(UnmarshalResponse)
    // reported errors: only the first message survives
    ensures ex.Received? && ex.status == 200 && ex.envelope.Some? && |ex.envelope.value.errors| > 0
            ==> r == Err(GraphQLError(ex.envelope.value.errors[0].message))
    // success: exactly when every check passes; the target is filled only then
    ensures r.Ok? <==> ex.Received? && ex.status == 200 && ex.envelope.Some?
                       && ex.envelope.value.errors == []
                       && (target.Some? ==> Fits(ex.envelope.value.data, target.value))
    ensures r.Ok? ==> (r.value.Some? <==> target.Some?)
    ensures r.Ok? && r.value.Some? ==> Some(r.value.value) == ex.envelope.value.data
                                       && ShapeOf(r.value.value) == target.value
  {
    match ex
    case Failed(reason) => Err(Transport(reason))
    case Received(status, body, envelope) =>
      if status != 200 then Err(UnexpectedStatus(status, body))
      else if envelope.None? then Err(UnmarshalResponse)
      else if |envelope.value.errors| > 0 then Err(GraphQLError(envelope.value.errors[0].message))
      else if target.None? then Ok(None)
      else if !Fits(envelope.value.data, target.value) then Err(UnmarshalData)
      else Ok(Some(envelope.value.data.value))
  }

  /** Errors after the first one, and their paths, never reach the caller. */
  lemma ClassifyReportsFirstMessageOnly(status: int, body: string, data: Option<Data>,
                                        e1: seq<GqlError>, e2: seq<GqlError>, target: Option<Shape>)
    requires |e1| > 0 && |e2| > 0 && e1[0].message == e2[0].message
    ensures Classify(Received(status, body, Some(Envelope(data, e1))), target)
         == Classify(Received(status, body, Some(Envelope(data, e2))), target)
  {
  }

  /** With no target, `data` is never looked at. */
  lemma ClassifyNilTargetIgnoresData(status: int, body: string, d1: Option<Data>, d2: Option<Data>,
                                     errors: seq<GqlError>)
    ensures Classify(Received(status, body, Some(Envelope(d1, errors))), None)
         == Classify(Received(status, body, Some(Envelope(d2, errors))), None)
  {
  }

  /** The remote endpoint: given all requests received so far, the exchange
      that answers the last one. */
  type Remote = seq<RequestBody> -> Exchange

  /** What `Query` returns when `history` has already been sent. */
  function Answer(remote: Remote, history: seq<RequestBody>, query: Operation,
                  variables: Vars, target: Option<Shape>): Result<Option<Data>>
  {
    Classify(remote(history + [EncodeRequest(query, variables)]), target)
  }

  class Client {
    const remote: Remote
    /** Every request sent so far, oldest first. */
    var trace: seq<RequestBody>

    constructor (remote: Remote)
      ensures this.remote == remote && trace == []
    {
      this.remote := remote;
      trace := [];
    }

    /** Sends one request and classifies the exchange that answers it. */
    method Query(query: Operation, variables: Vars, target: Option<Shape>)
      returns (r: Result<Option<Data>>)
      modifies this
      ensures trace == old(trace) + [EncodeRequest(query, variables)]
      ensures r == Answer(remote, old(trace), query, variables, target)
    {
      var body := EncodeRequest(query, variables);
      trace := trace + [body];
      var ex := remote(trace);
      if ex.Failed? {
        return Err(Transport(ex.reason));
      }
      if ex.status != 200 {
        return Err(UnexpectedStatus(ex.status, ex.body));
      }
      if ex.envelope.None? {
        return Err(UnmarshalResponse);
      }
      var envelope := ex.envelope.value;
      if |envelope.errors| > 0 {
        return Err(GraphQLError(envelope.errors[0].message));
      }
      if target.Some? {
        if !Fits(envelope.data, target.value) {
          return Err(UnmarshalData);
        }
        return Ok(Some(envelope.data.value));
      }
      return Ok(None);
    }
  }
}
