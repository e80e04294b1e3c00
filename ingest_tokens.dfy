/** Ingest tokens: the optional parser of a token read as a possibly empty
    name, the conditional `Parser` argument of the add mutation, and the
    assign/unassign branch of `Update` with its fallback lookup. */
module IngestTokens {
  import opened Values
  import opened Responses
  import opened GraphQL
  import Lookup

  /** An ingest token; `assignedParser` is "" when no parser is assigned. */
  datatype IngestToken = IngestToken(name: string, token: string, assignedParser: string)

  function TokenName(t: IngestToken): string { t.name }

  // ---------------------------------------------------------------------
  // Decoding
  // ---------------------------------------------------------------------

  /** The token a response entry decodes to. */
  function DecodeToken(raw: RawToken): (t: IngestToken)
    ensures t.name == raw.name && t.token == raw.token
    ensures raw.parser.None? ==> t.assignedParser == ""
    ensures raw.parser.Some? ==> t.assignedParser == raw.parser.value.name
  {
    IngestToken(raw.name, raw.token, if raw.parser.Some? then raw.parser.value.name else "")
  }

  /** A response entry reporting `t`: no parser when its name is empty. */
  function ReportOf(t: IngestToken): RawToken
  {
    RawToken(t.name, t.token, if t.assignedParser == "" then None else Some(RawParserName(t.assignedParser)))
  }

  /** Decoding loses nothing of a token, and an entry is reported back
      unchanged exactly when it does not name a parser with an empty name. */
  lemma DecodeTokenRoundTrip(t: IngestToken, raw: RawToken)
    ensures DecodeToken(ReportOf(t)) == t
    ensures ReportOf(DecodeToken(raw)) == raw <==> raw.parser != Some(RawParserName(""))
  {
    if raw.parser.Some? && raw.parser.value.name != "" {
      assert ReportOf(DecodeToken(raw)).parser == Some(RawParserName(raw.parser.value.name));
    }
  }

  /** The listing loop: one token per entry, in the same order. */
  method DecodeTokens(raws: seq<RawToken>) returns (tokens: seq<IngestToken>)
    ensures |tokens| == |raws|
    ensures forall i :: 0 <= i < |raws| ==> tokens[i] == DecodeToken(raws[i])
  {
    var buf := new IngestToken[|raws|];
    for i := 0 to |raws|
      invariant forall k :: 0 <= k < i ==> buf[k] == DecodeToken(raws[k])
    {
      var assignedParser := "";
      if raws[i].parser.Some? {
        assignedParser := raws[i].parser.value.name;
      }
      buf[i] := IngestToken(raws[i].name, raws[i].token, assignedParser);
    }
    tokens := buf[..];
  }

  // ---------------------------------------------------------------------
  // Mutation variables
  // ---------------------------------------------------------------------

  function ListVariables(repository: string): Vars
  {
    map["RepositoryName" := Str(repository)]
  }

  /** The add mutation's variables: `Parser` only when one is named. */
  function AddVariables(repository: string, name: string, parser: string): (vars: Vars)
    ensures vars.Keys == {"RepositoryName", "Name"} + (if parser != "" then {"Parser"} else {})
    ensures StrAt(vars, "RepositoryName") == repository && StrAt(vars, "Name") == name
    // an omitted argument reads as no parser
    ensures StrAt(vars, "Parser") == parser
  {
    var base := map["RepositoryName" := Str(repository), "Name" := Str(name)];
    if parser != "" then base["Parser" := Str(parser)] else base
  }

  /** The variables of the mutation `Update` sends. */
  function AssignmentVariables(repository: string, name: string, parser: string): (vars: Vars)
    ensures vars.Keys == {"RepositoryName", "TokenName"} + (if parser != "" then {"ParserName"} else {})
    ensures StrAt(vars, "TokenName") == name && StrAt(vars, "ParserName") == parser
  {
    var base := map["RepositoryName" := Str(repository), "TokenName" := Str(name)];
    if parser != "" then base["ParserName" := Str(parser)] else base
  }

  /** Unassigning when the parser is empty, assigning otherwise. */
  function AssignmentMutation(parser: string): Operation
  {
    if parser == "" then UnassignParser else AssignParser
  }

  function RemoveVariables(repository: string, name: string): Vars
  {
    map["RepositoryName" := Str(repository), "Name" := Str(name)]
  }

  // ---------------------------------------------------------------------
  // The operations as functions of the remote and the requests sent so far
  // ---------------------------------------------------------------------

  function ListSpec(remote: Remote, history: seq<RequestBody>, repository: string)
    : (Result<seq<IngestToken>>, seq<RequestBody>)
  {
    var reply := Answer(remote, history, ListIngestTokens, ListVariables(repository), Some(IngestTokenResponse));
    (if reply.Err? then Err(reply.error) else Ok(MapSeq(DecodeToken, reply.value.value.ingestTokens)),
     history + [EncodeRequest(ListIngestTokens, ListVariables(repository))])
  }

  /** `Get`: the first listed token with the name, else "ingest token not found". */
  function GetSpec(remote: Remote, history: seq<RequestBody>, repository: string, name: string)
    : (Result<IngestToken>, seq<RequestBody>)
  {
    var (listed, trace) := ListSpec(remote, history, repository);
    (if listed.Err? then Err(listed.error) else Lookup.FirstNamed(listed.value, TokenName, "ingest token", name),
     trace)
  }

  function AddSpec(remote: Remote, history: seq<RequestBody>, repository: string, name: string, parser: string)
    : (Result<IngestToken>, seq<RequestBody>)
  {
    var vars := AddVariables(repository, name, parser);
    var reply := Answer(remote, history, AddIngestToken, vars, Some(AddIngestTokenResponse));
    (if reply.Err? then Err(reply.error) else Ok(DecodeToken(reply.value.value.addIngestTokenV3)),
     history + [EncodeRequest(AddIngestToken, vars)])
  }

  /** The response field the mutation of `Update` fills. */
  function AssignmentResult(d: Data, parser: string): Option<RawToken>
    requires d.TokenAssignment?
  {
    if parser == "" then d.unassign else d.assign
  }

  /** `Update`: the token the mutation reports, else the token looked up anew. */
  function UpdateSpec(remote: Remote, history: seq<RequestBody>, repository: string, name: string, parser: string)
    : (Result<IngestToken>, seq<RequestBody>)
  {
    var mutation := AssignmentMutation(parser);
    var vars := AssignmentVariables(repository, name, parser);
    var reply := Answer(remote, history, mutation, vars, Some(AssignParserResponse));
    var t1 := history + [EncodeRequest(mutation, vars)];
    if reply.Err? then (Err(reply.error), t1)
    else
      match AssignmentResult(reply.value.value, parser)
      case Some(raw) => (Ok(DecodeToken(raw)), t1)
      case None => GetSpec(remote, t1, repository, name)
  }

  // ---------------------------------------------------------------------
  // Properties of the operations
  // ---------------------------------------------------------------------

  /** `Update` sends the unassign mutation without `ParserName` for an empty
      parser and the assign mutation carrying it otherwise; a failed
      mutation is returned as is, with no further request. */
  lemma UpdateBranches(remote: Remote, history: seq<RequestBody>, repository: string, name: string, parser: string)
    ensures var trace := UpdateSpec(remote, history, repository, name, parser).1;
            var sent := trace[|history|];
            var reply := Answer(remote, history, sent.query, VariablesOf(sent), Some(AssignParserResponse));
            && |trace| > |history| && trace[..|history|] == history
            && (parser == "" <==> sent.query == UnassignParser)
            && (parser != "" <==> sent.query == AssignParser)
            && ("ParserName" in VariablesOf(sent) <==> parser != "")
            && (reply.Err? ==>
                  UpdateSpec(remote, history, repository, name, parser).0 == Err(reply.error)
                  && |trace| == |history| + 1)
  {
    var mutation := AssignmentMutation(parser);
    var vars := AssignmentVariables(repository, name, parser);
    var t1 := history + [EncodeRequest(mutation, vars)];
    var reply := Answer(remote, history, mutation, vars, Some(AssignParserResponse));
    if reply.Ok? && AssignmentResult(reply.value.value, parser).None? {
      var (r, trace) := UpdateSpec(remote, history, repository, name, parser);
      assert trace == t1 + [EncodeRequest(ListIngestTokens, ListVariables(repository))];
    }
  }

  /** When the mutation succeeds but its own response field is absent,
      `Update` answers with `Get` issued right after it. */
  lemma UpdateFallsBackToGet(remote: Remote, history: seq<RequestBody>, repository: string, name: string, parser: string)
    requires var reply := Answer(remote, history, AssignmentMutation(parser),
                                 AssignmentVariables(repository, name, parser), Some(AssignParserResponse));
             reply.Ok? && AssignmentResult(reply.value.value, parser).None?
    ensures var (r, trace) := UpdateSpec(remote, history, repository, name, parser);
            var t1 := history + [EncodeRequest(AssignmentMutation(parser), AssignmentVariables(repository, name, parser))];
            && r == GetSpec(remote, t1, repository, name).0
            && trace == t1 + [EncodeRequest(ListIngestTokens, ListVariables(repository))]
            && (r.Ok? ==> r.value.name == name)
  {
  }

  /** The other branch's response field is never read. */
  lemma UpdateReadsOwnFieldOnly(remote: Remote, history: seq<RequestBody>, repository: string, name: string,
                                parser: string, raw: RawToken)
    requires var reply := Answer(remote, history, AssignmentMutation(parser),
                                 AssignmentVariables(repository, name, parser), Some(AssignParserResponse));
             reply.Ok? && AssignmentResult(reply.value.value, parser) == Some(raw)
    ensures UpdateSpec(remote, history, repository, name, parser).0 == Ok(DecodeToken(raw))
    ensures |UpdateSpec(remote, history, repository, name, parser).1| == |history| + 1
  {
  }

  /** The Ingest Tokens API: every call goes through one client. */
  class IngestTokensApi {
    const client: Client

    constructor (client: Client)
      ensures this.client == client
    {
      this.client := client;
    }

    method List(repository: string) returns (r: Result<seq<IngestToken>>)
      modifies client
      ensures (r, client.trace) == ListSpec(client.remote, old(client.trace), repository)
    {
      var reply := client.Query(ListIngestTokens, map["RepositoryName" := Str(repository)], Some(IngestTokenResponse));
      if reply.Err? {
        return Err(reply.error);
      }
      var tokens := DecodeTokens(reply.value.value.ingestTokens);
      assert tokens == MapSeq(DecodeToken, reply.value.value.ingestTokens);
      return Ok(tokens);
    }

    method Get(repository: string, name: string) returns (r: Result<IngestToken>)
      modifies client
      ensures (r, client.trace) == GetSpec(client.remote, old(client.trace), repository, name)
    {
      var tokens := List(repository);
      if tokens.Err? {
        return Err(tokens.error);
      }
      r := Lookup.FindByName(tokens.value, TokenName, "ingest token", name);
    }

    method Add(repository: string, name: string, parser: string) returns (r: Result<IngestToken>)
      modifies client
      ensures (r, client.trace) == AddSpec(client.remote, old(client.trace), repository, name, parser)
    {
      var variables := map["RepositoryName" := Str(repository), "Name" := Str(name)];
      if parser != "" {
        variables := variables["Parser" := Str(parser)];
      }
      var reply := client.Query(AddIngestToken, variables, Some(AddIngestTokenResponse));
      if reply.Err? {
        return Err(reply.error);
      }
      var added := reply.value.value.addIngestTokenV3;
      var assignedParser := "";
      if added.parser.Some? {
        assignedParser := added.parser.value.name;
      }
      return Ok(IngestToken(added.name, added.token, assignedParser));
    }

    method Update(repository: string, name: string, parser: string) returns (r: Result<IngestToken>)
      modifies client
      ensures (r, client.trace) == UpdateSpec(client.remote, old(client.trace), repository, name, parser)
    {
      if parser == "" {
        var reply := client.Query(UnassignParser, map["RepositoryName" := Str(repository), "TokenName" := Str(name)],
                                  Some(AssignParserResponse));
        if reply.Err? {
          return Err(reply.error);
        }
        if reply.value.value.unassign.Some? {
          return Ok(DecodeToken(reply.value.value.unassign.value));
        }
      } else {
        var reply := client.Query(AssignParser, map["RepositoryName" := Str(repository), "TokenName" := Str(name),
                                                    "ParserName" := Str(parser)], Some(AssignParserResponse));
        if reply.Err? {
          return Err(reply.error);
        }
        if reply.value.value.assign.Some? {
          return Ok(DecodeToken(reply.value.value.assign.value));
        }
      }
      r := Get(repository, name);
    }

    method Remove(repository: string, name: string) returns (err: Option<Error>)
      modifies client
      ensures client.trace == old(client.trace) + [EncodeRequest(RemoveIngestToken, RemoveVariables(repository, name))]
      ensures err == ErrorOf(Answer(client.remote, old(client.trace), RemoveIngestToken,
                                    RemoveVariables(repository, name), None))
    {
      var reply := client.Query(RemoveIngestToken, map["RepositoryName" := Str(repository), "Name" := Str(name)], None);
      return ErrorOf(reply);
    }
  }
}
