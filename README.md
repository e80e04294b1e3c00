# Humio provider API layer, modelled in Dafny

This project models the data-mapping layer of the Terraform provider for Humio
(LogScale), the Go package `internal/api`. That layer sits between the
provider's resources and the service's GraphQL endpoint. For each of five
resource kinds it does three things:

- builds the GraphQL variables map of each query and mutation from a local record;
- decodes the GraphQL response into local records;
- composes calls into operations: lookup by name, and the alert update that
  deletes and then re-creates.

The resource kinds are notification actions, alerts, parsers, ingest tokens and
repositories. Under all of them, the GraphQL client classifies each exchange as
a failure or a success and decides whether the caller's target is filled.

Structure:

- `values.dfy` (module `Values`): options, results, the error taxonomy, JSON
  variable values, nil-able string lists, and `Ref<T>`. `Ref<T>` is a Go
  pointer to a struct that a callee updates in place. The module also has
  the UTF-8 byte length that Go's `len` returns.
- `responses.dfy` (module `Responses`): the decoded response structs of every
  query and mutation, as datatypes. Each response type is one variant of
  `Data`, and the Go type of a decode target is a `Shape`.
- `client.dfy` (module `GraphQL`):
  - the request envelope;
  - `Classify`, the post-response chain of checks;
  - class `Client`, whose `Query` appends to a `trace` of sent requests.

  The remote service is a function from the requests received so far to the
  exchange that answers the last one. Nothing about its behaviour is assumed.
- `lookup.dfy` (module `Lookup`): the "first element with this name, else not
  found" scan shared by three `Get` operations.
- `actions.dfy`, `alerts.dfy`, `parsers.dfy`, `ingest_tokens.dfy` and
  `repositories.dfy`: one module per resource kind. Each has:
  - the decoding loops and variable builders;
  - one specification function per operation, giving its outcome and the
    trace after it as a function of the remote and the earlier trace;
  - lemmas about those functions;
  - an API class whose methods perform the operation against a `Client` and
    are proved equal to their specification function.

Three behaviours of the code that a reader might expect to be otherwise:

- **Alert `Delete` test.** The test `len(alertID) < 20` counts UTF-8 bytes,
  not characters (`Values.Utf8Length`). For ASCII the two agree
  (`Alerts.DeleteShortAsciiName`).
- **Action and parser updates.** Only alerts are updated by delete-then-create.
  Actions and parsers are updated in place by their update mutations.
- **Parser and repository `Get`.** These query a single record by name. Only
  actions, alerts and ingest tokens list everything and scan the list.

## Model

| member | source | states |
|---|---|---|
| Values.StringsValue | internal/api/alerts.go:214-215 | a nil string slice is sent as JSON null; any other slice is sent as a list of the same length |
| Values.StringsRoundTrip | internal/api/alerts.go:214-215 | a string list sent as a variable reads back as the same list, and nil reads back as nil |
| Values.Utf8Length | internal/api/alerts.go:255 | Go's `len` of a string is its UTF-8 byte count: at least the number of characters and at most four times it |
| Values.Utf8LengthAscii | internal/api/alerts.go:255 | for ASCII text the byte count equals the character count |
| GraphQL.EncodeRequest | internal/api/client.go:63-66 | the envelope carries the query; `variables` is omitted exactly when the map is empty; a server reads back exactly the map sent |
| GraphQL.Classify | internal/api/client.go:112-131 | checks run in order: transport failure, then non-200 status (checked before any decoding), then undecodable envelope, then the first reported error's message only; success exactly when all pass and, if there is a target, `data` decodes into it; the target is filled only on success and only when one was given |
| GraphQL.ClassifyReportsFirstMessageOnly | internal/api/client.go:121-123 | two responses whose first errors have the same message yield the same outcome, whatever the later errors and paths |
| GraphQL.ClassifyNilTargetIgnoresData | internal/api/client.go:125-131 | with a nil target the outcome does not depend on `data` |
| GraphQL.Client.Query | internal/api/client.go:81-132 | sends exactly one request (the encoded envelope) and returns the classification of the exchange that answers it |
| Lookup.FirstIndex | internal/api/actions.go:710-716 | the index found holds the name and no earlier element does; none is found exactly when no element holds the name |
| Lookup.FirstNamed | internal/api/alerts.go:194-200 | the result is an element with the name that is preceded by no other such element; the error is "<kind> not found: <name>" exactly when no element matches |
| Lookup.FindByName | internal/api/ingest_tokens.go:164-170 | the early-return scan loop returns exactly `FirstNamed` |
| Actions.DecodeAction | internal/api/actions.go:631-695 | type, ID and name are copied from `__typename`, `id` and `name`; only the sub-record of the entry's type is filled; for an unknown type every sub-record stays zero; Email's body template and proxy flag come from the `emailBodyTemplate`/`emailUseProxy` aliases, Webhook's URL and body from `webhookUrl`/`webhookBodyTemplate`, SlackPostMessage's proxy flag from the unaliased `useProxy` |
| Actions.DecodeSlackFields | internal/api/actions.go:656-659 | Slack fields are copied element-wise: same length, same order |
| Actions.DecodeHeaders | internal/api/actions.go:683-686 | webhook headers are copied element-wise: same length, same order |
| Actions.DecodeEntry | internal/api/actions.go:625-697 | the loop body as written: a record with type, ID and name, then the one sub-record the switch assigns; the result is exactly `DecodeAction` of the entry |
| Actions.DecodeActions | internal/api/actions.go:623-699 | one action per raw entry, in the same order, each being `DecodeAction` of its entry |
| Actions.EncodeSlackFields | internal/api/actions.go:759-763 | each Slack field becomes a `{fieldName, value}` object, same length and order |
| Actions.EncodeHeaders | internal/api/actions.go:787-791 | each header becomes a `{header, value}` object, same length and order |
| Actions.EmailVariables | internal/api/actions.go:729-738 | `Recipients` and `UseProxy` are always sent, with the action's values; `SubjectTemplate` and `BodyTemplate` only when non-empty, and then with their values |
| Actions.HumioRepoVariables | internal/api/actions.go:740-742 | exactly `IngestToken`, holding the action's token |
| Actions.OpsGenieVariables | internal/api/actions.go:744-748 | exactly `ApiUrl`, `GenieKey`, `UseProxy`, each holding the action's field of that name |
| Actions.PagerDutyVariables | internal/api/actions.go:750-754 | exactly `RoutingKey`, `Severity`, `UseProxy`, each holding the action's field of that name |
| Actions.SlackVariables | internal/api/actions.go:756-764 | exactly `Url`, `Fields`, `UseProxy`, each holding the action's field of that name; `Fields` is the list of name/value pairs in order |
| Actions.SlackPostMessageVariables | internal/api/actions.go:766-775 | exactly `ApiToken`, `Channels`, `Fields`, `UseProxy`, each holding the action's field of that name; `Fields` is the list of name/value pairs in order |
| Actions.VictorOpsVariables | internal/api/actions.go:777-781 | exactly `MessageType`, `NotifyUrl`, `UseProxy`, each holding the action's field of that name |
| Actions.WebhookVariables | internal/api/actions.go:783-794 | exactly `Url`, `Method`, `Headers`, `BodyTemplate`, `IgnoreSSL`, `UseProxy`, each holding the action's field of that name; `Headers` is the list of header/value pairs in order |
| Actions.TypeVariables | internal/api/actions.go:728-795 | the type-specific variables never include `SearchDomainName`, `Name` or `ID`, so they cannot overwrite the shared ones |
| Actions.TypeVariablesReadOwnSubRecord | internal/api/actions.go:728-795 | the type-specific variables depend only on the action's type and the sub-record of that type: two actions that agree on both get the same variables, whatever their other sub-records hold |
| Actions.CreateVariables | internal/api/actions.go:723-795 | `SearchDomainName` and `Name` are always present and `ID` never; the Email templates are present exactly when non-empty |
| Actions.UpdateVariables | internal/api/actions.go:848-921 | the create variables plus `ID`, which is always present |
| Actions.UpdateVariablesAsBuilt | internal/api/actions.go:848-852 | the update map built from `SearchDomainName`, `ID` and `Name` plus the type's variables equals the create variables with `ID` added |
| Actions.InsertTypeVariables | internal/api/actions.go:728-798 | the successive insertions of the switch add exactly the type's variables; an unsupported type yields no variables |
| Actions.WithCreatedId | internal/api/actions.go:806-841 | only the ID changes; it is taken from the create field of the action's own type, and stays unchanged when that field is nil |
| Actions.UnsupportedSendsNothing | internal/api/actions.go:796-797 | an action of an unsupported type makes both `Add` and `Update` fail with "unsupported action type" naming the type, and neither sends a request (the same refusal is at actions.go:922-923) |
| Actions.UpdateReturnsInput | internal/api/actions.go:925-931 | a supported action is updated with exactly one request, its type's update mutation; `Update` succeeds exactly when that query does, then returns the action it was given, and otherwise returns the query's error |
| Actions.ActionsApi.constructor | internal/api/client.go:140-142 | the API is bound to the given client |
| Actions.ActionsApi.List | internal/api/actions.go:614-701 | one query; on success the decoded entries in order, otherwise the query's error |
| Actions.ActionsApi.Get | internal/api/actions.go:704-717 | the list's error, or the first listed action with the name, or "action not found" |
| Actions.ActionsApi.Add | internal/api/actions.go:720-842 | an unsupported type fails with "unsupported action type" before any request; otherwise one create mutation of the type; on success the caller's action is returned with the created ID set as by `WithCreatedId`; on failure it is left unchanged |
| Actions.ActionsApi.Update | internal/api/actions.go:845-932 | an unsupported type fails before any request; otherwise one update mutation; the caller's action is returned unchanged on success |
| Actions.ActionsApi.Delete | internal/api/actions.go:935-940 | one delete mutation with exactly `SearchDomainName` and `ActionID`; its error, if any |
| Actions.SlackFieldsRoundTrip | internal/api/actions.go:759-763 | encoding Slack fields and reading them back as the listing reports them gives the same fields |
| Actions.HeadersRoundTrip | internal/api/actions.go:787-791 | encoding headers and reading them back gives the same headers |
| Actions.CreateThenListRoundTrip | internal/api/actions.go:723-795 | a supported action whose other sub-records are zero, sent by `Add` and reported back by the listing, decodes to the same action with the remote's ID |
| Actions.EmailRoundTrip | internal/api/actions.go:729-738 | the same round trip for Email: an empty template left out reads back as empty |
| Actions.HumioRepoRoundTrip | internal/api/actions.go:740-742 | the same round trip for HumioRepo |
| Actions.OpsGenieRoundTrip | internal/api/actions.go:744-748 | the same round trip for OpsGenie |
| Actions.PagerDutyRoundTrip | internal/api/actions.go:750-754 | the same round trip for PagerDuty |
| Actions.SlackRoundTrip | internal/api/actions.go:756-764 | the same round trip for Slack |
| Actions.SlackPostMessageRoundTrip | internal/api/actions.go:766-775 | the same round trip for SlackPostMessage |
| Actions.VictorOpsRoundTrip | internal/api/actions.go:777-781 | the same round trip for VictorOps |
| Actions.WebhookRoundTrip | internal/api/actions.go:783-794 | the same round trip for Webhook |
| Actions.UpdateThenListRoundTrip | internal/api/actions.go:848-921 | an action sent by `Update` and reported back decodes to the action itself, ID included |
| Actions.ListedAsIgnoresId | internal/api/actions.go:111-173 | the listing reports no `ID` argument: what it reports does not depend on one |
| Alerts.DecodeAlert | internal/api/alerts.go:160-182 | every field is copied; the ownership type is "User", with the user's ID to run as, exactly when an ownership user is present; otherwise it is "Organization" with an empty ID |
| Alerts.DecodeAlerts | internal/api/alerts.go:159-184 | one alert per raw entry, in the same order, each being `DecodeAlert` of its entry |
| Alerts.DecodeListingOf | internal/api/alerts.go:161-166 | an alert reported by a listing decodes back to itself exactly when its ownership is canonical ("User", or "Organization" with no user) |
| Alerts.DecodedIsCanonical | internal/api/alerts.go:161-166 | every decoded alert has canonical ownership, and reporting it again decodes to the same alert |
| Alerts.AddVariables | internal/api/alerts.go:205-223 | the ten base variables are always sent; `RunAsUserID` and `QueryOwnershipType` exactly when non-empty; nil action and label lists are sent as null |
| Alerts.AddVariablesRoundTrip | internal/api/alerts.go:205-223 | a server reading the create variables recovers every field of the alert |
| Alerts.AddSetsOnlyId | internal/api/alerts.go:225-232 | `Add` sends one create request; it succeeds exactly when that query does, and then changes only the ID, which becomes the ID the create response reports |
| Alerts.DeleteLongArgumentIsId | internal/api/alerts.go:255-266 | an argument of 20 bytes or more is sent as the ID in a single delete request |
| Alerts.DeleteShortArgumentIsName | internal/api/alerts.go:254-261 | a shorter argument is first looked up as a name; if the lookup fails, its error is returned and no delete is sent; otherwise the delete carries the found ID |
| Alerts.DeleteShortAsciiName | internal/api/alerts.go:255 | an ASCII argument of fewer than 20 characters is resolved by a listing first |
| Alerts.GetTrace | internal/api/alerts.go:188-192 | `Get` sends exactly one listing request |
| Alerts.DeleteTrace | internal/api/alerts.go:253-267 | `Delete` appends one or two requests, none of them a create, and when it succeeds the last one is the delete |
| Alerts.DeleteByNameTrace | internal/api/alerts.go:254-261 | the short-argument path appends the listing, then the delete exactly when the name was found |
| Alerts.SendDeleteTrace | internal/api/alerts.go:263-266 | the long-argument path appends the delete alone |
| Alerts.UpdateStopsAfterFailedGet | internal/api/alerts.go:238-241 | if the lookup fails, `Update` returns it wrapped as "failed to get existing alert" and issues no delete and no create |
| Alerts.UpdateStopsAfterFailedDelete | internal/api/alerts.go:244-246 | if the delete fails, `Update` returns it wrapped as "failed to delete existing alert" and issues no create |
| Alerts.UpdateIsDeleteThenCreate | internal/api/alerts.go:236-250 | after a successful lookup and delete, `Update` starts with the lookup, then sends whatever the delete sends (ending with the delete mutation), then exactly the create that `Add` sends, and it returns `Add`'s outcome |
| Alerts.UpdateRequestCount | internal/api/alerts.go:236-267 | the delete receives the existing alert's ID, so a successful `Update` sends lookup, delete by that ID and create (three requests) when the ID is 20 bytes or more, and lookup, a second lookup, delete and create (four requests) when it is shorter |
| Alerts.AlertsApi.constructor | internal/api/client.go:135-137 | the API is bound to the given client |
| Alerts.AlertsApi.List | internal/api/alerts.go:150-185 | one query; on success the decoded alerts in order |
| Alerts.AlertsApi.Get | internal/api/alerts.go:188-201 | the list's error, or the first alert with the name, or "alert not found" |
| Alerts.AlertsApi.Add | internal/api/alerts.go:204-233 | builds the variables by conditional insertion; on success returns the caller's alert with the created ID set; on failure leaves it unchanged |
| Alerts.AlertsApi.Delete | internal/api/alerts.go:253-267 | computes `DeleteSpec`: resolve a short argument by name, then delete |
| Alerts.AlertsApi.Update | internal/api/alerts.go:236-250 | computes `UpdateSpec`: get, delete, add, stopping at the first failure |
| Parsers.Listed | internal/api/parsers.go:178-181 | a listed parser carries only ID and name |
| Parsers.KeptIndices | internal/api/parsers.go:176-177 | the positions of the non-built-in entries, strictly increasing, containing every such position |
| Parsers.UserDefinedKeepsNonBuiltIn | internal/api/parsers.go:175-185 | the filtered listing is exactly the non-built-in entries, in their original order, each reduced to ID and name |
| Parsers.FilterBuiltIn | internal/api/parsers.go:175-185 | the append loop computes the filtered listing |
| Parsers.DecodeParser | internal/api/parsers.go:203-219 | ID, name, script and field list are copied; test cases are mapped element-wise |
| Parsers.DecodeTestCases | internal/api/parsers.go:204-211 | the test-case loop maps element-wise, same length and order |
| Parsers.EncodeTestCases | internal/api/parsers.go:224-231 | each test case becomes `{event: {rawString}}`, same length and order |
| Parsers.FieldsToTagValue | internal/api/parsers.go:233-236 | a nil field list is sent as an empty list, never as null |
| Parsers.AddVariables | internal/api/parsers.go:233-245 | exactly six variables; `FieldsToTag` is always a list; `FieldsToBeRemovedBeforeParsing` is always the empty list |
| Parsers.UpdateVariables | internal/api/parsers.go:268-283 | the create variables plus `ID`, with the script wrapped as `{script: ...}` |
| Parsers.Normalized | internal/api/parsers.go:233-236 | the parser as sent: a nil field list becomes the empty list and every other field is kept; a non-nil list leaves the parser unchanged |
| Parsers.TestCasesRoundTrip | internal/api/parsers.go:224-231 | test cases encoded and read back are the same |
| Parsers.AddVariablesRoundTrip | internal/api/parsers.go:224-245 | a server reading the create variables recovers the whole parser, with a nil field list as empty |
| Parsers.UpdateVariablesRoundTrip | internal/api/parsers.go:259-283 | the same for the update variables, with the ID and the unwrapped script |
| Parsers.GetFindsOrNotFound | internal/api/parsers.go:195-201 | `Get` succeeds exactly when the query does and a parser is reported; a missing parser is "parser not found" |
| Parsers.AddUpdateSetOnlyId | internal/api/parsers.go:247-292 | on success `Add` and `Update` change only the parser's ID, which becomes the ID their mutation's response reports |
| Parsers.DeleteResolvesNameFirst | internal/api/parsers.go:296-306 | the parser is fetched first; a failed fetch is returned and no delete is sent; otherwise one delete carries the fetched ID |
| Parsers.ParsersApi.constructor | internal/api/client.go:145-147 | the API is bound to the given client |
| Parsers.ParsersApi.List | internal/api/parsers.go:166-186 | one query; on success the filtered listing |
| Parsers.ParsersApi.Get | internal/api/parsers.go:189-220 | one query; its error, "parser not found", or the decoded parser |
| Parsers.ParsersApi.Add | internal/api/parsers.go:223-255 | `force` has no effect; one create mutation; on success the caller's parser gets the created ID; on failure it is unchanged |
| Parsers.ParsersApi.Update | internal/api/parsers.go:258-293 | one update mutation; on success the caller's parser gets the ID from the response; on failure it is unchanged |
| Parsers.ParsersApi.Delete | internal/api/parsers.go:296-307 | computes `DeleteSpec`: fetch, then delete by ID |
| IngestTokens.DecodeToken | internal/api/ingest_tokens.go:143-151 | name and token are copied; the assigned parser is the parser's name, or "" when there is none |
| IngestTokens.DecodeTokenRoundTrip | internal/api/ingest_tokens.go:143-151 | decoding loses nothing of a token; an entry is reported back unchanged exactly when it does not name a parser with an empty name |
| IngestTokens.DecodeTokens | internal/api/ingest_tokens.go:141-154 | one token per entry, in the same order |
| IngestTokens.AddVariables | internal/api/ingest_tokens.go:175-181 | `RepositoryName` and `Name` are always sent; `Parser` exactly when non-empty, and an absent `Parser` reads as no parser |
| IngestTokens.AssignmentVariables | internal/api/ingest_tokens.go:206-230 | `RepositoryName` and `TokenName` are always sent; `ParserName` exactly when the parser is non-empty |
| IngestTokens.UpdateBranches | internal/api/ingest_tokens.go:206-233 | an empty parser sends the unassign mutation without `ParserName`; otherwise the assign mutation with it; a failed mutation's own error is returned unchanged, with no further request |
| IngestTokens.UpdateFallsBackToGet | internal/api/ingest_tokens.go:247-248 | when the mutation's own response field is absent, `Update` returns what a `Get` issued right after it returns |
| IngestTokens.UpdateReadsOwnFieldOnly | internal/api/ingest_tokens.go:214-244 | when the mutation's own field is present, `Update` returns it decoded and sends nothing more |
| IngestTokens.IngestTokensApi.constructor | internal/api/client.go:155-157 | the API is bound to the given client |
| IngestTokens.IngestTokensApi.List | internal/api/ingest_tokens.go:132-155 | one query; on success the decoded tokens in order |
| IngestTokens.IngestTokensApi.Get | internal/api/ingest_tokens.go:158-171 | the list's error, or the first token with the name, or "ingest token not found" |
| IngestTokens.IngestTokensApi.Add | internal/api/ingest_tokens.go:174-199 | one add mutation with the conditional `Parser`; on success the token is decoded from the response, with "" when no parser is reported |
| IngestTokens.IngestTokensApi.Update | internal/api/ingest_tokens.go:202-249 | computes `UpdateSpec`: the assign or unassign branch, then the fallback lookup |
| IngestTokens.IngestTokensApi.Remove | internal/api/ingest_tokens.go:252-257 | one remove mutation with exactly `RepositoryName` and `Name`; its error, if any |
| Repositories.DecodeEntry | internal/api/repositories.go:109-112 | a listed repository carries only ID and name |
| Repositories.DecodeEntries | internal/api/repositories.go:107-114 | one repository per entry, in the same order |
| Repositories.DecodeRepository | internal/api/repositories.go:127-137 | ID, name and description are copied; the retention is 0 when absent, otherwise the reported value |
| Repositories.CreateVariables | internal/api/repositories.go:142-144 | exactly `Name` |
| Repositories.DescriptionVariables | internal/api/repositories.go:149-152 | exactly `RepositoryName` and `Description` |
| Repositories.DeleteVariables | internal/api/repositories.go:171-174 | exactly `RepositoryName` and `Reason` |
| Repositories.RetentionVariables | internal/api/repositories.go:157-164 | `RepositoryName` is always sent; `RetentionDays` exactly when it is strictly greater than 0 |
| Repositories.RetentionRoundTrip | internal/api/repositories.go:127-164 | a positive retention is recorded and read back by `Get` unchanged; any other setting is recorded as unlimited and read back as 0 |
| Repositories.ListSendsNoVariables | internal/api/repositories.go:102 | the listing request has no `variables` member |
| Repositories.GetZeroOnError | internal/api/repositories.go:123-125 | `Get` fails exactly when its query does, and then returns the zero repository with the error |
| Repositories.RepositoriesApi.constructor | internal/api/client.go:150-152 | the API is bound to the given client |
| Repositories.RepositoriesApi.List | internal/api/repositories.go:100-115 | one query without variables; on success the decoded entries in order |
| Repositories.RepositoriesApi.Get | internal/api/repositories.go:118-138 | one query; the decoded repository, or the zero repository and the error |
| Repositories.RepositoriesApi.Create | internal/api/repositories.go:141-145 | one mutation with exactly `Name` |
| Repositories.RepositoriesApi.UpdateDescription | internal/api/repositories.go:148-153 | one mutation with exactly `RepositoryName` and `Description` |
| Repositories.RepositoriesApi.UpdateTimeBasedRetention | internal/api/repositories.go:156-167 | builds the variables by conditional insertion; one mutation with `RetentionVariables` |
| Repositories.RepositoriesApi.Delete | internal/api/repositories.go:170-175 | one mutation with exactly `RepositoryName` and `Reason` |

## Left out

- HTTP transport, TLS and CA setup, URL joining, headers and body reading (internal/api/client.go:43-60, 87-110) are network I/O. A failure in any of them becomes `Transport`, whose reason is kept as an opaque string.
- Building the request body cannot fail here: every variable value is JSON-encodable, so the marshal error has no counterpart.
- JSON encoding and decoding are not modelled. Responses arrive already decoded as `Data`, and a query or mutation text is an opaque `Operation` tag.
- The remote service's behaviour (uniqueness, ID assignment, validation) is not specified. The `remote` function is arbitrary.
- Error message text: errors are a datatype, and `fmt.Errorf("...: %w")` wrapping is `Wrapped(context, cause)`.
- The `context.Context` argument of every call is not modelled.
- `GraphQL.Classify`: `data` that is not of the target's response type is a decode error. Go's decoder is lenient and zero-fills such a target; that case, and null `data`, are not modelled.
- `GraphQL.EncodeRequest`: a nil map and an empty map are both the empty map. Both are omitted from the envelope, as in the code.
- `GraphQL.Client.Query` returns the decoded data instead of writing through a target pointer; the target is given by its `Shape`.
- Results of the `Get` operations are values, not pointers to fresh copies; no aliasing is lost.
- `*Action`, `*Alert` and `*Parser` arguments are `Ref` cells. The model does not capture two callers sharing one struct during a call.
- `Alert.ThrottleTimeMillis` is an unbounded integer; Go's 64-bit `int` overflow is not modelled.
- `Repository.RetentionDays` is a real number. NaN and infinities of Go's `float64` do not exist here; only the `> 0` test and copying are used.
- The provider accessors `Alerts()`, `Actions()`, `Parsers()`, `Repositories()` and `IngestTokens()` are the API classes' constructors.
- internal/api/users.go and the Terraform resources under humio/ are not part of this model. The humio/ resources are glue over the Terraform SDK.
