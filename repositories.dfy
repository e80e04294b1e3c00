/** Repositories: the listing, fetching one repository (an absent retention
    read as 0), and the variables of the create, describe, retention and
    delete mutations. */
module Repositories {
  import opened Values
  import opened Responses
  import opened GraphQL

  /** A repository; `retentionDays` is a Go float64, compared and copied only. */
  datatype Repository = Repository(id: string, name: string, description: string, retentionDays: real)

  /** The zero Repository that `Get` returns beside an error. */
  const NoRepository := Repository("", "", "", 0.0)

  // ---------------------------------------------------------------------
  // Decoding
  // ---------------------------------------------------------------------

  /** A listed repository carries only its ID and name. */
  function DecodeEntry(e: RawRepositoryEntry): (r: Repository)
    ensures r.id == e.id && r.name == e.name
    ensures r.description == "" && r.retentionDays == 0.0
  {
    Repository(e.id, e.name, "", 0.0)
  }

  /** The listing loop: one repository per entry, in the same order. */
  method DecodeEntries(entries: seq<RawRepositoryEntry>) returns (repositories: seq<Repository>)
    ensures |repositories| == |entries|
    ensures forall i :: 0 <= i < |entries| ==> repositories[i] == DecodeEntry(entries[i])
  {
    var buf := new Repository[|entries|];
    for i := 0 to |entries|
      invariant forall k :: 0 <= k < i ==> buf[k] == DecodeEntry(entries[k])
    {
      buf[i] := Repository(entries[i].id, entries[i].name, "", 0.0);
    }
    repositories := buf[..];
  }

  /** The fetched repository: an absent retention reads as 0. */
  function DecodeRepository(raw: RawRepository): (r: Repository)
    ensures r.id == raw.id && r.name == raw.name && r.description == raw.description
    ensures raw.timeBasedRetention.None? ==> r.retentionDays == 0.0
    ensures raw.timeBasedRetention.Some? ==> r.retentionDays == raw.timeBasedRetention.value
  {
    var retentionDays := if raw.timeBasedRetention.Some? then raw.timeBasedRetention.value else 0.0;
    Repository(raw.id, raw.name, raw.description, retentionDays)
  }

  // ---------------------------------------------------------------------
  // Mutation variables
  // ---------------------------------------------------------------------

  /** `ListRepositories` takes no arguments. */
  const ListVariables: Vars := map[]

  function GetVariables(name: string): Vars
  {
    map["RepositoryName" := Str(name)]
  }

  function CreateVariables(name: string): (vars: Vars)
    ensures vars.Keys == {"Name"} && StrAt(vars, "Name") == name
  {
    map["Name" := Str(name)]
  }

  function DescriptionVariables(name: string, description: string): (vars: Vars)
    ensures vars.Keys == {"RepositoryName", "Description"}
    ensures StrAt(vars, "RepositoryName") == name && StrAt(vars, "Description") == description
  {
    map["RepositoryName" := Str(name), "Description" := Str(description)]
  }

  function DeleteVariables(name: string, reason: string): (vars: Vars)
    ensures vars.Keys == {"RepositoryName", "Reason"}
    ensures StrAt(vars, "RepositoryName") == name && StrAt(vars, "Reason") == reason
  {
    map["RepositoryName" := Str(name), "Reason" := Str(reason)]
  }

  /** The retention mutation's variables: `RetentionDays` only when positive;
      its absence asks for unlimited retention. */
  function RetentionVariables(name: string, retentionDays: real): (vars: Vars)
    ensures vars.Keys == {"RepositoryName"} + (if retentionDays > 0.0 then {"RetentionDays"} else {})
    ensures StrAt(vars, "RepositoryName") == name
    ensures retentionDays > 0.0 ==> vars["RetentionDays"] == Num(retentionDays)
  {
    var base := map["RepositoryName" := Str(name)];
    if retentionDays > 0.0 then base["RetentionDays" := Num(retentionDays)] else base
  }

  /** The retention a server records from the mutation's arguments: None,
      unlimited, when the argument is absent. */
  function RecordedRetention(vars: Vars): Option<real>
  {
    if "RetentionDays" in vars && vars["RetentionDays"].Num? then Some(vars["RetentionDays"].r) else None
  }

  /** A positive retention set by the mutation is read back by `Get`
      unchanged; any other setting means unlimited and is read back as 0. */
  lemma RetentionRoundTrip(name: string, retentionDays: real, id: string, description: string)
    ensures var recorded := RecordedRetention(RetentionVariables(name, retentionDays));
            var back := DecodeRepository(RawRepository(id, name, description, recorded));
            && (recorded.None? <==> retentionDays <= 0.0)
            && back.retentionDays == (if retentionDays > 0.0 then retentionDays else 0.0)
  {
    var vars := RetentionVariables(name, retentionDays);
    if retentionDays <= 0.0 {
      assert "RetentionDays" !in vars;
    }
  }

  // ---------------------------------------------------------------------
  // The operations as functions of the remote and the requests sent so far
  // ---------------------------------------------------------------------

  function ListSpec(remote: Remote, history: seq<RequestBody>)
    : (Result<seq<Repository>>, seq<RequestBody>)
  {
    var reply := Answer(remote, history, ListRepositories, ListVariables, Some(ListRepositoriesResponse));
    (if reply.Err? then Err(reply.error) else Ok(MapSeq(DecodeEntry, reply.value.value.repositories)),
     history + [EncodeRequest(ListRepositories, ListVariables)])
  }

  /** `Get`: the repository and no error, or the zero repository and the error. */
  function GetSpec(remote: Remote, history: seq<RequestBody>, name: string)
    : (Repository, Option<Error>, seq<RequestBody>)
  {
    var reply := Answer(remote, history, GetRepository, GetVariables(name), Some(GetRepositoryResponse));
    var trace := history + [EncodeRequest(GetRepository, GetVariables(name))];
    if reply.Err? then (NoRepository, Some(reply.error), trace)
    else (DecodeRepository(reply.value.value.repository), None, trace)
  }

  /** The request `ListRepositories` sends has no `variables` member. */
  lemma ListSendsNoVariables(remote: Remote, history: seq<RequestBody>)
    ensures var trace := ListSpec(remote, history).1;
            |trace| == |history| + 1 && trace[|history|].variables.None?
  {
  }

  /** `Get` fails exactly when the query does, and then yields the zero value. */
  lemma GetZeroOnError(remote: Remote, history: seq<RequestBody>, name: string)
    ensures var (repo, err, trace) := GetSpec(remote, history, name);
            var reply := Answer(remote, history, GetRepository, GetVariables(name), Some(GetRepositoryResponse));
            && (err.Some? <==> reply.Err?)
            && (err.Some? ==> repo == NoRepository && err.value == reply.error)
            && (err.None? ==> repo.name == reply.value.value.repository.name)
  {
  }

  /** The Repositories API: every call goes through one client. */
  class RepositoriesApi {
    const client: Client

    constructor (client: Client)
      ensures this.client == client
    {
      this.client := client;
    }

    method List() returns (r: Result<seq<Repository>>)
      modifies client
      ensures (r, client.trace) == ListSpec(client.remote, old(client.trace))
    {
      var reply := client.Query(ListRepositories, map[], Some(ListRepositoriesResponse));
      if reply.Err? {
        return Err(reply.error);
      }
      var repositories := DecodeEntries(reply.value.value.repositories);
      assert repositories == MapSeq(DecodeEntry, reply.value.value.repositories);
      return Ok(repositories);
    }

    method Get(name: string) returns (repo: Repository, err: Option<Error>)
      modifies client
      ensures (repo, err, client.trace) == GetSpec(client.remote, old(client.trace), name)
    {
      var reply := client.Query(GetRepository, map["RepositoryName" := Str(name)], Some(GetRepositoryResponse));
      if reply.Err? {
        return NoRepository, Some(reply.error);
      }
      var raw := reply.value.value.repository;
      var retentionDays := 0.0;
      if raw.timeBasedRetention.Some? {
        retentionDays := raw.timeBasedRetention.value;
      }
      return Repository(raw.id, raw.name, raw.description, retentionDays), None;
    }

    method Create(name: string) returns (err: Option<Error>)
      modifies client
      ensures client.trace == old(client.trace) + [EncodeRequest(CreateRepository, CreateVariables(name))]
      ensures err == ErrorOf(Answer(client.remote, old(client.trace), CreateRepository, CreateVariables(name), None))
    {
      var reply := client.Query(CreateRepository, map["Name" := Str(name)], None);
      return ErrorOf(reply);
    }

    method UpdateDescription(name: string, description: string) returns (err: Option<Error>)
      modifies client
      ensures client.trace == old(client.trace) + [EncodeRequest(Operation.UpdateDescription, DescriptionVariables(name, description))]
      ensures err == ErrorOf(Answer(client.remote, old(client.trace), Operation.UpdateDescription,
                                    DescriptionVariables(name, description), None))
    {
      var reply := client.Query(Operation.UpdateDescription, map["RepositoryName" := Str(name), "Description" := Str(description)],
                                None);
      return ErrorOf(reply);
    }

    method UpdateTimeBasedRetention(name: string, retentionDays: real) returns (err: Option<Error>)
      modifies client
      ensures client.trace == old(client.trace)
                              + [EncodeRequest(Operation.UpdateTimeBasedRetention, RetentionVariables(name, retentionDays))]
      ensures err == ErrorOf(Answer(client.remote, old(client.trace), Operation.UpdateTimeBasedRetention,
                                    RetentionVariables(name, retentionDays), None))
    {
      var variables := map["RepositoryName" := Str(name)];
      if retentionDays > 0.0 {
        variables := variables["RetentionDays" := Num(retentionDays)];
      }
      var reply := client.Query(Operation.UpdateTimeBasedRetention, variables, None);
      return ErrorOf(reply);
    }

    method Delete(name: string, reason: string) returns (err: Option<Error>)
      modifies client
      ensures client.trace == old(client.trace) + [EncodeRequest(DeleteRepository, DeleteVariables(name, reason))]
      ensures err == ErrorOf(Answer(client.remote, old(client.trace), DeleteRepository,
                                    DeleteVariables(name, reason), None))
    {
      var reply := client.Query(DeleteRepository, map["RepositoryName" := Str(name), "Reason" := Str(reason)], None);
      return ErrorOf(reply);
    }
  }
}
