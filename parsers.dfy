/** Parsers: the built-in filter of the listing, fetching one parser with its
    test cases, the variables of the create and update mutations (nil field
    lists sent as empty lists) and delete-by-name. */
module Parsers {
  import opened Values
  import opened Responses
  import opened GraphQL

  datatype TestEvent = TestEvent(rawString: string)
  datatype TestCase = TestCase(event: TestEvent)

  /** A parser; `fieldsToTag` None is a nil slice. */
  datatype Parser = Parser(
    id: string, name: string, script: string,
    fieldsToTag: Option<seq<string>>, testCases: seq<TestCase>)

  // ---------------------------------------------------------------------
  // The listing: user-defined parsers only
  // ---------------------------------------------------------------------

  /** A listed parser carries only its ID and name. */
  function Listed(e: RawParserEntry): (p: Parser)
    ensures p.id == e.id && p.name == e.name
    ensures p.script == "" && p.fieldsToTag == None && p.testCases == []
  {
    Parser(e.id, e.name, "", None, [])
  }

  /** The listing after the filter, built as the loop appends. */
  function UserDefined(entries: seq<RawParserEntry>): seq<Parser>
  {
    if entries == [] then []
    else
      var last := entries[|entries| - 1];
      UserDefined(entries[..|entries| - 1]) + (if last.isBuiltIn then [] else [Listed(last)])
  }

  /** The positions of the entries that are not built in, in increasing order. */
  function KeptIndices(entries: seq<RawParserEntry>): (r: seq<nat>)
    ensures forall k :: 0 <= k < |r| ==> r[k] < |entries| && !entries[r[k]].isBuiltIn
    ensures forall k, l :: 0 <= k < l < |r| ==> r[k] < r[l]
    ensures forall i :: 0 <= i < |entries| && !entries[i].isBuiltIn ==> i in r
  {
    if entries == [] then []
    else
      var n := |entries| - 1;
      KeptIndices(entries[..n]) + (if entries[n].isBuiltIn then [] else [n])
  }

  /** The filter keeps exactly the entries that are not built in, in their
      original order, each reduced to its ID and name. */
  lemma {:induction false} UserDefinedKeepsNonBuiltIn(entries: seq<RawParserEntry>)
    ensures |UserDefined(entries)| == |KeptIndices(entries)|
    ensures forall k :: 0 <= k < |UserDefined(entries)| ==>
              UserDefined(entries)[k] == Listed(entries[KeptIndices(entries)[k]])
  {
    if entries != [] {
      var n := |entries| - 1;
      var prefix := entries[..n];
      UserDefinedKeepsNonBuiltIn(prefix);
      var kept, users := KeptIndices(prefix), UserDefined(prefix);
      forall k | 0 <= k < |kept|
        ensures users[k] == Listed(entries[kept[k]])
      {
        assert entries[kept[k]] == prefix[kept[k]];
      }
      if entries[n].isBuiltIn {
        assert UserDefined(entries) == users && KeptIndices(entries) == kept;
      } else {
        assert UserDefined(entries) == users + [Listed(entries[n])];
        assert KeptIndices(entries) == kept + [n];
      }
    }
  }

  /** The append loop of `List`. */
  method FilterBuiltIn(entries: seq<RawParserEntry>) returns (parsers: seq<Parser>)
    ensures parsers == UserDefined(entries)
  {
    parsers := [];
    for i := 0 to |entries|
      invariant parsers == UserDefined(entries[..i])
    {
      assert entries[..i + 1][..i] == entries[..i];
      if !entries[i].isBuiltIn {
        parsers := parsers + [Listed(entries[i])];
      }
    }
    assert entries[..|entries|] == entries;
  }

  // ---------------------------------------------------------------------
  // Fetching one parser
  // ---------------------------------------------------------------------

  function DecodeTestCase(raw: RawTestCase): TestCase
  {
    TestCase(TestEvent(raw.event.rawString))
  }

  /** The parser the fetch response decodes to. */
  function DecodeParser(raw: RawParser): (p: Parser)
    ensures p.id == raw.id && p.name == raw.name && p.script == raw.script
    ensures p.fieldsToTag == raw.fieldsToTag
    ensures |p.testCases| == |raw.testCases|
    ensures forall i :: 0 <= i < |raw.testCases| ==>
              p.testCases[i].event.rawString == raw.testCases[i].event.rawString
  {
    Parser(raw.id, raw.name, raw.script, raw.fieldsToTag, MapSeq(DecodeTestCase, raw.testCases))
  }

  /** The test-case copy loop of `Get`. */
  method DecodeTestCases(raw: seq<RawTestCase>) returns (testCases: seq<TestCase>)
    ensures testCases == MapSeq(DecodeTestCase, raw)
  {
    var buf := new TestCase[|raw|];
    for i := 0 to |raw|
      invariant forall k :: 0 <= k < i ==> buf[k] == DecodeTestCase(raw[k])
    {
      buf[i] := TestCase(TestEvent(raw[i].event.rawString));
    }
    testCases := buf[..];
  }

  // ---------------------------------------------------------------------
  // Mutation variables
  // ---------------------------------------------------------------------

  /** `{"event": {"rawString": ...}}` */
  function TestCaseValue(tc: TestCase): Value
  {
    Object(map["event" := Object(map["rawString" := Str(tc.event.rawString)])])
  }

  /** The test-case encoding loop of `Add` and `Update`. */
  method EncodeTestCases(testCases: seq<TestCase>) returns (v: seq<Value>)
    ensures v == MapSeq(TestCaseValue, testCases)
  {
    var buf := new Value[|testCases|];
    for i := 0 to |testCases|
      invariant forall k :: 0 <= k < i ==> buf[k] == TestCaseValue(testCases[k])
    {
      buf[i] := Object(map["event" := Object(map["rawString" := Str(testCases[i].event.rawString)])]);
    }
    v := buf[..];
  }

  /** A nil field list is sent as an empty list, never as null. */
  function FieldsToTagValue(fields: Option<seq<string>>): (v: Value)
    ensures v.List?
    ensures fields.None? ==> v == List([])
    ensures StringsOf(v) == Some(if fields.None? then [] else fields.value)
  {
    var sent := if fields.None? then [] else fields.value;
    StringsRoundTrip(Some(sent));
    StringsValue(Some(sent))
  }

  const CreateKeys: set<string> :=
    {"RepositoryName", "Name", "Script", "TestCases", "FieldsToTag", "FieldsToBeRemovedBeforeParsing"}

  /** The variables of the create mutation. */
  function AddVariables(repository: string, p: Parser): (vars: Vars)
    ensures vars.Keys == CreateKeys
    ensures vars["RepositoryName"] == Str(repository) && vars["Script"] == Str(p.script)
    ensures vars["FieldsToTag"].List? && vars["FieldsToBeRemovedBeforeParsing"] == List([])
    ensures vars["TestCases"].List? && |vars["TestCases"].items| == |p.testCases|
  {
    map["RepositoryName" := Str(repository), "Name" := Str(p.name), "Script" := Str(p.script),
        "TestCases" := List(MapSeq(TestCaseValue, p.testCases)),
        "FieldsToTag" := FieldsToTagValue(p.fieldsToTag),
        "FieldsToBeRemovedBeforeParsing" := List([])]
  }

  /** The variables of the update mutation: the parser's ID as well, and the
      script wrapped in an object. */
  function UpdateVariables(repository: string, p: Parser): (vars: Vars)
    ensures vars.Keys == CreateKeys + {"ID"}
    ensures vars["ID"] == Str(p.id)
    ensures vars["Script"] == Object(map["script" := Str(p.script)])
    ensures vars["FieldsToTag"].List? && vars["FieldsToBeRemovedBeforeParsing"] == List([])
    ensures vars["TestCases"].List? && |vars["TestCases"].items| == |p.testCases|
  {
    map["RepositoryName" := Str(repository), "ID" := Str(p.id), "Name" := Str(p.name),
        "Script" := Object(map["script" := Str(p.script)]),
        "TestCases" := List(MapSeq(TestCaseValue, p.testCases)),
        "FieldsToTag" := FieldsToTagValue(p.fieldsToTag),
        "FieldsToBeRemovedBeforeParsing" := List([])]
  }

  /** A test case as a server reads it back. */
  function TestCaseOf(v: Value): TestCase
  {
    var event := if "event" in MembersOf(v) then MembersOf(v)["event"] else Null;
    TestCase(TestEvent(StrAt(MembersOf(event), "rawString")))
  }

  /** The parser a server reads from mutation arguments, with `script` the
      script as it reads it and `id` the parser's ID. */
  function ParserFromVariables(id: string, script: string, vars: Vars): Parser
  {
    Parser(id, StrAt(vars, "Name"), script,
           if "FieldsToTag" in vars then StringsOf(vars["FieldsToTag"]) else None,
           MapSeq(TestCaseOf, ListAt(vars, "TestCases")))
  }

  /** `p` with a nil field list replaced by the empty list it is sent as. */
  function Normalized(p: Parser): (q: Parser)
    ensures q.fieldsToTag.Some?
    ensures p.fieldsToTag.Some? ==> q == p
    ensures p.fieldsToTag.None? ==> q == p.(fieldsToTag := Some([]))
  {
    if p.fieldsToTag.None? then p.(fieldsToTag := Some([])) else p
  }

  lemma TestCasesRoundTrip(testCases: seq<TestCase>)
    ensures MapSeq(TestCaseOf, MapSeq(TestCaseValue, testCases)) == testCases
  {
    var back := MapSeq(TestCaseOf, MapSeq(TestCaseValue, testCases));
    forall i | 0 <= i < |testCases| ensures back[i] == testCases[i] {
      var v := TestCaseValue(testCases[i]);
      assert MembersOf(v)["event"] == Object(map["rawString" := Str(testCases[i].event.rawString)]);
    }
  }

  /** The create variables carry the whole parser, up to the nil list. */
  lemma AddVariablesRoundTrip(repository: string, p: Parser, id: string)
    ensures var vars := AddVariables(repository, p);
            ParserFromVariables(id, StrAt(vars, "Script"), vars) == Normalized(p).(id := id)
  {
    TestCasesRoundTrip(p.testCases);
  }

  /** So do the update variables, with the ID and the script unwrapped. */
  lemma UpdateVariablesRoundTrip(repository: string, p: Parser)
    ensures var vars := UpdateVariables(repository, p);
            ParserFromVariables(StrAt(vars, "ID"), StrAt(MembersOf(vars["Script"]), "script"), vars)
            == Normalized(p)
  {
    TestCasesRoundTrip(p.testCases);
  }

  // ---------------------------------------------------------------------
  // The operations as functions of the remote and the requests sent so far
  // ---------------------------------------------------------------------

  function ListVariables(repository: string): Vars
  {
    map["RepositoryName" := Str(repository)]
  }

  function GetVariables(repository: string, name: string): Vars
  {
    map["RepositoryName" := Str(repository), "ParserName" := Str(name)]
  }

  function DeleteVariables(repository: string, parserID: string): Vars
  {
    map["RepositoryName" := Str(repository), "ParserID" := Str(parserID)]
  }

  function ListSpec(remote: Remote, history: seq<RequestBody>, repository: string)
    : (Result<seq<Parser>>, seq<RequestBody>)
  {
    var reply := Answer(remote, history, ListParsers, ListVariables(repository), Some(ListParsersResponse));
    (if reply.Err? then Err(reply.error) else Ok(UserDefined(reply.value.value.parsers)),
     history + [EncodeRequest(ListParsers, ListVariables(repository))])
  }

  /** `Get`: the parser the remote reports, or "parser not found" when none. */
  function GetSpec(remote: Remote, history: seq<RequestBody>, repository: string, name: string)
    : (Result<Parser>, seq<RequestBody>)
  {
    var reply := Answer(remote, history, GetParser, GetVariables(repository, name), Some(GetParserResponse));
    (if reply.Err? then Err(reply.error)
     else if reply.value.value.parser.None? then Err(NotFound("parser", name))
     else Ok(DecodeParser(reply.value.value.parser.value)),
     history + [EncodeRequest(GetParser, GetVariables(repository, name))])
  }

  /** `Add`: the parser with the ID the remote assigned. */
  function AddSpec(remote: Remote, history: seq<RequestBody>, repository: string, p: Parser)
    : (Result<Parser>, seq<RequestBody>)
  {
    var vars := AddVariables(repository, p);
    var reply := Answer(remote, history, CreateParser, vars, Some(CreateParserResponse));
    (if reply.Err? then Err(reply.error) else Ok(p.(id := reply.value.value.createParserV2.id)),
     history + [EncodeRequest(CreateParser, vars)])
  }

  /** `Update`: the parser with the ID the remote reports back. */
  function UpdateSpec(remote: Remote, history: seq<RequestBody>, repository: string, p: Parser)
    : (Result<Parser>, seq<RequestBody>)
  {
    var vars := UpdateVariables(repository, p);
    var reply := Answer(remote, history, UpdateParser, vars, Some(UpdateParserResponse));
    (if reply.Err? then Err(reply.error) else Ok(p.(id := reply.value.value.updateParserV2.id)),
     history + [EncodeRequest(UpdateParser, vars)])
  }

  /** `Delete`: fetch by name, then delete by the fetched ID. */
  function DeleteSpec(remote: Remote, history: seq<RequestBody>, repository: string, name: string)
    : (Option<Error>, seq<RequestBody>)
  {
    var (found, t1) := GetSpec(remote, history, repository, name);
    if found.Err? then (Some(found.error), t1)
    else
      var vars := DeleteVariables(repository, found.value.id);
      (ErrorOf(Answer(remote, t1, DeleteParser, vars, None)), t1 + [EncodeRequest(DeleteParser, vars)])
  }

  // ---------------------------------------------------------------------
  // Properties of the operations
  // ---------------------------------------------------------------------

  /** `Get` succeeds exactly when the query does and the remote reports a
      parser; a missing parser is "parser not found". */
  lemma GetFindsOrNotFound(remote: Remote, history: seq<RequestBody>, repository: string, name: string)
    ensures var r := GetSpec(remote, history, repository, name).0;
            var reply := Answer(remote, history, GetParser, GetVariables(repository, name), Some(GetParserResponse));
            && (r.Ok? <==> reply.Ok? && reply.value.value.parser.Some?)
            && (reply.Ok? && reply.value.value.parser.None? ==> r == Err(NotFound("parser", name)))
            && (r.Ok? ==> r.value.name == reply.value.value.parser.value.name
                          && |r.value.testCases| == |reply.value.value.parser.value.testCases|)
  {
  }

  /** `Add` and `Update` change only the ID, and only on success; the new
      ID is the one the mutation's response reports. */
  lemma AddUpdateSetOnlyId(remote: Remote, history: seq<RequestBody>, repository: string, p: Parser)
    ensures var r := AddSpec(remote, history, repository, p).0;
            var reply := Answer(remote, history, CreateParser, AddVariables(repository, p), Some(CreateParserResponse));
            && (r.Ok? ==> r.value.(id := p.id) == p)
            && (r.Ok? ==> reply.Ok? && r.value.id == reply.value.value.createParserV2.id)
    ensures var r := UpdateSpec(remote, history, repository, p).0;
            var reply := Answer(remote, history, UpdateParser, UpdateVariables(repository, p), Some(UpdateParserResponse));
            && (r.Ok? ==> r.value.(id := p.id) == p)
            && (r.Ok? ==> reply.Ok? && r.value.id == reply.value.value.updateParserV2.id)
  {
  }

  /** `Delete` fetches first; a failed fetch is returned and no delete
      mutation is issued. */
  lemma DeleteResolvesNameFirst(remote: Remote, history: seq<RequestBody>, repository: string, name: string)
    ensures var (err, trace) := DeleteSpec(remote, history, repository, name);
            var (found, t1) := GetSpec(remote, history, repository, name);
            && t1 == history + [EncodeRequest(GetParser, GetVariables(repository, name))]
            && (found.Err? ==> err == Some(found.error) && trace == t1)
            && (found.Ok? ==> trace == t1 + [EncodeRequest(DeleteParser, DeleteVariables(repository, found.value.id))])
  {
  }

  /** The Parsers API: every call goes through one client. */
  class ParsersApi {
    const client: Client

    constructor (client: Client)
      ensures this.client == client
    {
      this.client := client;
    }

    method List(repository: string) returns (r: Result<seq<Parser>>)
      modifies client
      ensures (r, client.trace) == ListSpec(client.remote, old(client.trace), repository)
    {
      var reply := client.Query(ListParsers, map["RepositoryName" := Str(repository)], Some(ListParsersResponse));
      if reply.Err? {
        return Err(reply.error);
      }
      var parsers := FilterBuiltIn(reply.value.value.parsers);
      return Ok(parsers);
    }

    method Get(repository: string, name: string) returns (r: Result<Parser>)
      modifies client
      ensures (r, client.trace) == GetSpec(client.remote, old(client.trace), repository, name)
    {
      var reply := client.Query(GetParser, map["RepositoryName" := Str(repository), "ParserName" := Str(name)],
                                Some(GetParserResponse));
      if reply.Err? {
        return Err(reply.error);
      }
      if reply.value.value.parser.None? {
        return Err(NotFound("parser", name));
      }
      var raw := reply.value.value.parser.value;
      var testCases := DecodeTestCases(raw.testCases);
      return Ok(Parser(raw.id, raw.name, raw.script, raw.fieldsToTag, testCases));
    }

    /** `force` is accepted and ignored. */
    method Add(repository: string, parser: Ref<Parser>, force: bool) returns (r: Result<Ref<Parser>>)
      modifies client, parser
      ensures var (outcome, trace) := AddSpec(client.remote, old(client.trace), repository, old(parser.value));
              client.trace == trace && Returns(r, outcome, parser)
      ensures r.Err? ==> parser.value == old(parser.value)
    {
      var p := parser.value;
      var testCases := EncodeTestCases(p.testCases);
      var fieldsToTag := p.fieldsToTag;
      if fieldsToTag.None? {
        fieldsToTag := Some([]);
      }
      var variables := map[
        "RepositoryName" := Str(repository), "Name" := Str(p.name), "Script" := Str(p.script),
        "TestCases" := Value.List(testCases), "FieldsToTag" := StringsValue(fieldsToTag),
        "FieldsToBeRemovedBeforeParsing" := Value.List([])];
      var reply := client.Query(CreateParser, variables, Some(CreateParserResponse));
      if reply.Err? {
        return Err(reply.error);
      }
      parser.value := parser.value.(id := reply.value.value.createParserV2.id);
      return Ok(parser);
    }

    method Update(repository: string, parser: Ref<Parser>) returns (r: Result<Ref<Parser>>)
      modifies client, parser
      ensures var (outcome, trace) := UpdateSpec(client.remote, old(client.trace), repository, old(parser.value));
              client.trace == trace && Returns(r, outcome, parser)
      ensures r.Err? ==> parser.value == old(parser.value)
    {
      var p := parser.value;
      var testCases := EncodeTestCases(p.testCases);
      var fieldsToTag := p.fieldsToTag;
      if fieldsToTag.None? {
        fieldsToTag := Some([]);
      }
      var variables := map[
        "RepositoryName" := Str(repository), "ID" := Str(p.id), "Name" := Str(p.name),
        "Script" := Object(map["script" := Str(p.script)]),
        "TestCases" := Value.List(testCases), "FieldsToTag" := StringsValue(fieldsToTag),
        "FieldsToBeRemovedBeforeParsing" := Value.List([])];
      var reply := client.Query(UpdateParser, variables, Some(UpdateParserResponse));
      if reply.Err? {
        return Err(reply.error);
      }
      parser.value := parser.value.(id := reply.value.value.updateParserV2.id);
      return Ok(parser);
    }

    method Delete(repository: string, name: string) returns (err: Option<Error>)
      modifies client
      ensures (err, client.trace) == DeleteSpec(client.remote, old(client.trace), repository, name)
    {
      var found := Get(repository, name);
      if found.Err? {
        return Some(found.error);
      }
      var reply := client.Query(DeleteParser, map["RepositoryName" := Str(repository), "ParserID" := Str(found.value.id)],
                                None);
      return ErrorOf(reply);
    }
  }
}
