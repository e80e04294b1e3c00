/** The decoded GraphQL response structs of every query and mutation, as
    values. JSON decoding itself is not modelled: a response's `data` is
    handed to the client already decoded, as one of the `Data` variants, and
    it decodes into a caller's target exactly when its `Shape` is the
    target's. Field names follow the JSON keys (aliases included). */
module Responses {
  import opened Values

  /** `{ id name }`, the selection of most create and update mutations. */
  datatype IdName = IdName(id: string, name: string)

  // ---- actions ----

  datatype RawSlackField = RawSlackField(fieldName: string, value: string)
  datatype RawHeader = RawHeader(header: string, value: string)

  /** One entry of `searchDomain.actions`: the union of the fields selected
      by every `... on <Type>Action` fragment, under their aliases. */
  datatype RawAction = RawAction(
    typename: string, id: string, name: string,
    recipients: Option<seq<string>>, subjectTemplate: string,
    emailBodyTemplate: string, emailUseProxy: bool,
    ingestToken: string,
    apiUrl: string, genieKey: string, opsGenieUseProxy: bool,
    routingKey: string, severity: string, pagerDutyUseProxy: bool,
    url: string, slackUseProxy: bool, fields: seq<RawSlackField>,
    apiToken: string, channels: Option<seq<string>>, useProxy: bool,
    messageType: string, notifyUrl: string, victorOpsUseProxy: bool,
    httpMethod: string, webhookUrl: string, headers: seq<RawHeader>,
    webhookBodyTemplate: string, ignoreSSL: bool, webhookUseProxy: bool)

  /** createActionResponse: one optional field per create mutation. */
  datatype CreatedAction = CreatedAction(
    createEmailAction: Option<IdName>, createHumioRepoAction: Option<IdName>,
    createOpsGenieAction: Option<IdName>, createPagerDutyAction: Option<IdName>,
    createSlackAction: Option<IdName>, createSlackPostMessageAction: Option<IdName>,
    createVictorOpsAction: Option<IdName>, createWebhookAction: Option<IdName>)

  /** updateActionResponse: one optional field per update mutation. */
  datatype UpdatedAction = UpdatedAction(
    updateEmailAction: Option<IdName>, updateHumioRepoAction: Option<IdName>,
    updateOpsGenieAction: Option<IdName>, updatePagerDutyAction: Option<IdName>,
    updateSlackAction: Option<IdName>, updateSlackPostMessageAction: Option<IdName>,
    updateVictorOpsAction: Option<IdName>, updateWebhookAction: Option<IdName>)

  // ---- alerts ----

  datatype RawUser = RawUser(id: string)
  datatype RawOwnership = RawOwnership(id: string, user: Option<RawUser>)

  datatype RawAlert = RawAlert(
    id: string, name: string, description: string, queryString: string,
    queryStart: string, throttleField: string, throttleTimeMillis: int,
    enabled: bool, actions: Option<seq<string>>, labels: Option<seq<string>>,
    queryOwnership: RawOwnership)

  // ---- parsers ----

  datatype RawParserEntry = RawParserEntry(id: string, name: string, isBuiltIn: bool)
  datatype RawEvent = RawEvent(rawString: string)
  datatype RawTestCase = RawTestCase(event: RawEvent)
  datatype RawParser = RawParser(
    id: string, name: string, script: string,
    testCases: seq<RawTestCase>, fieldsToTag: Option<seq<string>>)

  // ---- ingest tokens ----

  datatype RawParserName = RawParserName(name: string)
  datatype RawToken = RawToken(name: string, token: string, parser: Option<RawParserName>)

  // ---- repositories ----

  datatype RawRepositoryEntry = RawRepositoryEntry(id: string, name: string)
  datatype RawRepository = RawRepository(
    id: string, name: string, description: string, timeBasedRetention: Option<real>)

  /** A decoded `data` member, one variant per Go response type. */
  datatype Data =
    | ActionList(actions: seq<RawAction>)
    | ActionCreated(created: CreatedAction)
    | ActionUpdated(updated: UpdatedAction)
    | AlertList(alerts: seq<RawAlert>)
    | AlertCreated(createAlert: IdName)
    | ParserList(parsers: seq<RawParserEntry>)
    | ParserFetched(parser: Option<RawParser>)
    | ParserCreated(createParserV2: IdName)
    | ParserUpdated(updateParserV2: IdName)
    | TokenList(ingestTokens: seq<RawToken>)
    | TokenAdded(addIngestTokenV3: RawToken)
    | TokenAssignment(assign: Option<RawToken>, unassign: Option<RawToken>)
    | RepositoryList(repositories: seq<RawRepositoryEntry>)
    | RepositoryFetched(repository: RawRepository)

  /** The Go type of a caller's decode target. */
  datatype Shape =
    | ActionResponse | CreateActionResponse | UpdateActionResponse
    | AlertResponse | CreateAlertResponse
    | ListParsersResponse | GetParserResponse | CreateParserResponse | UpdateParserResponse
    | IngestTokenResponse | AddIngestTokenResponse | AssignParserResponse
    | ListRepositoriesResponse | GetRepositoryResponse

  /** Each response type has exactly one shape, and each shape exactly one
      response type. */
  function ShapeOf(d: Data): (s: Shape)
    ensures s == ActionResponse <==> d.ActionList?
    ensures s == CreateActionResponse <==> d.ActionCreated?
    ensures s == UpdateActionResponse <==> d.ActionUpdated?
    ensures s == AlertResponse <==> d.AlertList?
    ensures s == CreateAlertResponse <==> d.AlertCreated?
    ensures s == ListParsersResponse <==> d.ParserList?
    ensures s == GetParserResponse <==> d.ParserFetched?
    ensures s == CreateParserResponse <==> d.ParserCreated?
    ensures s == UpdateParserResponse <==> d.ParserUpdated?
    ensures s == IngestTokenResponse <==> d.TokenList?
    ensures s == AddIngestTokenResponse <==> d.TokenAdded?
    ensures s == AssignParserResponse <==> d.TokenAssignment?
    ensures s == ListRepositoriesResponse <==> d.RepositoryList?
    ensures s == GetRepositoryResponse <==> d.RepositoryFetched?
  {
    match d
    case ActionList(_) => ActionResponse
    case ActionCreated(_) => CreateActionResponse
    case ActionUpdated(_) => UpdateActionResponse
    case AlertList(_) => AlertResponse
    case AlertCreated(_) => CreateAlertResponse
    case ParserList(_) => ListParsersResponse
    case ParserFetched(_) => GetParserResponse
    case ParserCreated(_) => CreateParserResponse
    case ParserUpdated(_) => UpdateParserResponse
    case TokenList(_) => IngestTokenResponse
    case TokenAdded(_) => AddIngestTokenResponse
    case TokenAssignment(_, _) => AssignParserResponse
    case RepositoryList(_) => ListRepositoriesResponse
    case RepositoryFetched(_) => GetRepositoryResponse
  }
}
