/** Alerts: decoding the listing (ownership derived from the optional
    ownership user), the conditional variables of the create mutation, the
    length heuristic of `Delete` and the delete-then-create `Update`. */
module Alerts {
  import opened Values
  import opened Responses
  import opened GraphQL
  import Lookup

  const UserOwnership := "User"
  const OrganizationOwnership := "Organization"

  /** An IDs this short is taken for a name by `Delete` (bytes, as Go's `len`). */
  const ShortIdBytes := 20

  datatype Alert = Alert(
    id: string, name: string, description: string, queryString: string,
    queryStart: string, throttleField: string, throttleTimeMillis: int,
    enabled: bool, actions: Option<seq<string>>, labels: Option<seq<string>>,
    runAsUserID: string, queryOwnershipType: string)

  function AlertName(a: Alert): string { a.name }

  // ---------------------------------------------------------------------
  // Decoding the listing
  // ---------------------------------------------------------------------

  /** The alert one listing entry decodes to. */
  function DecodeAlert(raw: RawAlert): (a: Alert)
    ensures a.id == raw.id && a.name == raw.name && a.description == raw.description
    ensures a.queryString == raw.queryString && a.queryStart == raw.queryStart
    ensures a.throttleField == raw.throttleField && a.throttleTimeMillis == raw.throttleTimeMillis
    ensures a.enabled == raw.enabled && a.actions == raw.actions && a.labels == raw.labels
    // an ownership user makes the alert run as that user; otherwise as the organization
    ensures a.queryOwnershipType == UserOwnership <==> raw.queryOwnership.user.Some?
    ensures a.queryOwnershipType != UserOwnership ==> a.queryOwnershipType == OrganizationOwnership
    ensures a.runAsUserID == (if raw.queryOwnership.user.Some? then raw.queryOwnership.user.value.id else "")
  {
    var (ownershipType, runAsUserID) :=
      match raw.queryOwnership.user
      case Some(user) => (UserOwnership, user.id)
      case None => (OrganizationOwnership, "");
    Alert(raw.id, raw.name, raw.description, raw.queryString, raw.queryStart, raw.throttleField,
          raw.throttleTimeMillis, raw.enabled, raw.actions, raw.labels, runAsUserID, ownershipType)
  }

  /** The listing loop: one alert per raw entry, in the same order. */
  method DecodeAlerts(raws: seq<RawAlert>) returns (alerts: seq<Alert>)
    ensures |alerts| == |raws|
    ensures forall i :: 0 <= i < |raws| ==> alerts[i] == DecodeAlert(raws[i])
  {
    var buf := new Alert[|raws|];
    for i := 0 to |raws|
      invariant forall k :: 0 <= k < i ==> buf[k] == DecodeAlert(raws[k])
    {
      var raw := raws[i];
      var ownershipType := OrganizationOwnership;
      var runAsUserID := "";
      if raw.queryOwnership.user.Some? {
        ownershipType := UserOwnership;
        runAsUserID := raw.queryOwnership.user.value.id;
      }
      buf[i] := Alert(raw.id, raw.name, raw.description, raw.queryString, raw.queryStart,
                      raw.throttleField, raw.throttleTimeMillis, raw.enabled, raw.actions,
                      raw.labels, runAsUserID, ownershipType);
    }
    alerts := buf[..];
  }

  /** Whether the ownership of `a` is one a listing can report: run as a
      user, or as the organization with no user. */
  predicate CanonicalOwnership(a: Alert)
  {
    a.queryOwnershipType == UserOwnership
    || (a.queryOwnershipType == OrganizationOwnership && a.runAsUserID == "")
  }

  /** A listing entry reporting `a`; `ownershipId` is the id of the ownership
      record itself, which the decoding drops. */
  function ListingOf(a: Alert, ownershipId: string): RawAlert
  {
    RawAlert(a.id, a.name, a.description, a.queryString, a.queryStart, a.throttleField,
             a.throttleTimeMillis, a.enabled, a.actions, a.labels,
             RawOwnership(ownershipId,
                          if a.queryOwnershipType == UserOwnership then Some(RawUser(a.runAsUserID)) else None))
  }

  /** Decoding gives back exactly the alerts whose ownership is canonical. */
  lemma DecodeListingOf(a: Alert, ownershipId: string)
    ensures DecodeAlert(ListingOf(a, ownershipId)) == a <==> CanonicalOwnership(a)
  {
    var back := DecodeAlert(ListingOf(a, ownershipId));
    if CanonicalOwnership(a) {
      assert back.runAsUserID == a.runAsUserID;
    }
  }

  /** Every decoded alert has canonical ownership, and a listing that reports
      it again decodes to the same alert. */
  lemma DecodedIsCanonical(raw: RawAlert)
    ensures CanonicalOwnership(DecodeAlert(raw))
    ensures DecodeAlert(ListingOf(DecodeAlert(raw), raw.queryOwnership.id)) == DecodeAlert(raw)
  {
    DecodeListingOf(DecodeAlert(raw), raw.queryOwnership.id);
  }

  // ---------------------------------------------------------------------
  // Mutation variables
  // ---------------------------------------------------------------------

  /** The ten variables `Add` always sends. */
  const BaseKeys: set<string> :=
    {"SearchDomainName", "Name", "Description", "QueryString", "QueryStart",
     "ThrottleTimeMillis", "ThrottleField", "Enabled", "Actions", "Labels"}

  /** The variables of the create mutation. */
  function AddVariables(repository: string, a: Alert): (vars: Vars)
    ensures vars.Keys == BaseKeys + (if a.runAsUserID != "" then {"RunAsUserID"} else {})
                                  + (if a.queryOwnershipType != "" then {"QueryOwnershipType"} else {})
    ensures vars["SearchDomainName"] == Str(repository)
    // nil slices are sent as null
    ensures vars["Actions"] == StringsValue(a.actions) && vars["Labels"] == StringsValue(a.labels)
  {
    var base := map[
      "SearchDomainName" := Str(repository), "Name" := Str(a.name),
      "Description" := Str(a.description), "QueryString" := Str(a.queryString),
      "QueryStart" := Str(a.queryStart), "ThrottleTimeMillis" := Int(a.throttleTimeMillis),
      "ThrottleField" := Str(a.throttleField), "Enabled" := Bool(a.enabled),
      "Actions" := StringsValue(a.actions), "Labels" := StringsValue(a.labels)];
    var withUser := if a.runAsUserID != "" then base["RunAsUserID" := Str(a.runAsUserID)] else base;
    if a.queryOwnershipType != "" then withUser["QueryOwnershipType" := Str(a.queryOwnershipType)]
    else withUser
  }

  /** The integer stored under `key`, or 0. */
  function IntAt(vars: Vars, key: string): int
  {
    if key in vars && vars[key].Int? then vars[key].i else 0
  }

  /** The alert a server reads from the create mutation's arguments, given
      the ID it assigns. */
  function AlertFromVariables(id: string, vars: Vars): Alert
  {
    Alert(id, StrAt(vars, "Name"), StrAt(vars, "Description"), StrAt(vars, "QueryString"),
          StrAt(vars, "QueryStart"), StrAt(vars, "ThrottleField"), IntAt(vars, "ThrottleTimeMillis"),
          BoolAt(vars, "Enabled"), StringsAt(vars, "Actions"), StringsAt(vars, "Labels"),
          StrAt(vars, "RunAsUserID"), StrAt(vars, "QueryOwnershipType"))
  }

  /** No field of an alert is lost by the create mutation's variables: an
      absent optional variable stands for the empty string it replaced. */
  lemma AddVariablesRoundTrip(repository: string, a: Alert, id: string)
    ensures AlertFromVariables(id, AddVariables(repository, a)) == a.(id := id)
  {
    var vars := AddVariables(repository, a);
    AddVariablesRead(repository, a);
    OptionalVariablesRead(repository, a);
    StringsRoundTrip(a.actions);
    StringsRoundTrip(a.labels);
    assert StringsAt(vars, "Actions") == a.actions;
    assert StringsAt(vars, "Labels") == a.labels;
  }

  /** Each scalar field is read back from its own key. */
  lemma AddVariablesRead(repository: string, a: Alert)
    ensures var vars := AddVariables(repository, a);
            && StrAt(vars, "Name") == a.name && StrAt(vars, "Description") == a.description
            && StrAt(vars, "QueryString") == a.queryString && StrAt(vars, "QueryStart") == a.queryStart
            && StrAt(vars, "ThrottleField") == a.throttleField
            && IntAt(vars, "ThrottleTimeMillis") == a.throttleTimeMillis && BoolAt(vars, "Enabled") == a.enabled
  {
  }

  /** An optional key that was left out reads back as the empty string it
      stood for. */
  lemma OptionalVariablesRead(repository: string, a: Alert)
    ensures var vars := AddVariables(repository, a);
            && StrAt(vars, "RunAsUserID") == a.runAsUserID
            && StrAt(vars, "QueryOwnershipType") == a.queryOwnershipType
  {
  }

  function ListVariables(repository: string): Vars
  {
    map["SearchDomainName" := Str(repository)]
  }

  function DeleteVariables(repository: string, alertID: string): Vars
  {
    map["SearchDomainName" := Str(repository), "AlertID" := Str(alertID)]
  }

  // ---------------------------------------------------------------------
  // The operations as functions of the remote and the requests sent so far
  // ---------------------------------------------------------------------

  function ListSpec(remote: Remote, history: seq<RequestBody>, repository: string)
    : (Result<seq<Alert>>, seq<RequestBody>)
  {
    var reply := Answer(remote, history, ListAlerts, ListVariables(repository), Some(AlertResponse));
    (if reply.Err? then Err(reply.error) else Ok(MapSeq(DecodeAlert, reply.value.value.alerts)),
     history + [EncodeRequest(ListAlerts, ListVariables(repository))])
  }

  /** `Get`: the first listed alert with the name, else "alert not found". */
  function GetSpec(remote: Remote, history: seq<RequestBody>, repository: string, name: string)
    : (r: (Result<Alert>, seq<RequestBody>))
    ensures r.1 == history + [EncodeRequest(ListAlerts, ListVariables(repository))]
  {
    var (listed, trace) := ListSpec(remote, history, repository);
    (if listed.Err? then Err(listed.error) else Lookup.FirstNamed(listed.value, AlertName, "alert", name),
     trace)
  }

  /** `Add`: the alert as stored back into the caller's struct. */
  function AddSpec(remote: Remote, history: seq<RequestBody>, repository: string, a: Alert)
    : (Result<Alert>, seq<RequestBody>)
  {
    var vars := AddVariables(repository, a);
    var reply := Answer(remote, history, CreateAlert, vars, Some(CreateAlertResponse));
    (if reply.Err? then Err(reply.error) else Ok(a.(id := reply.value.value.createAlert.id)),
     history + [EncodeRequest(CreateAlert, vars)])
  }

  /** `Delete`: a short argument is first resolved as a name. */
  function DeleteSpec(remote: Remote, history: seq<RequestBody>, repository: string, alertID: string)
    : (Option<Error>, seq<RequestBody>)
  {
    if Utf8Length(alertID) < ShortIdBytes then DeleteByName(remote, history, repository, alertID)
    else SendDelete(remote, history, repository, alertID)
  }

  /** The short-argument path of `Delete`: list, then delete the alert found
      under that name, or return the lookup's error without deleting. */
  function DeleteByName(remote: Remote, history: seq<RequestBody>, repository: string, name: string)
    : (r: (Option<Error>, seq<RequestBody>))
    ensures var (found, t1) := GetSpec(remote, history, repository, name);
            && (found.Err? ==> r == (Some(found.error), t1))
            && (found.Ok? ==> r.1 == t1 + [EncodeRequest(DeleteAlert, DeleteVariables(repository, found.value.id))])
  {
    var (found, trace) := GetSpec(remote, history, repository, name);
    if found.Err? then (Some(found.error), trace)
    else SendDelete(remote, trace, repository, found.value.id)
  }

  /** The delete mutation itself. */
  function SendDelete(remote: Remote, history: seq<RequestBody>, repository: string, alertID: string)
    : (r: (Option<Error>, seq<RequestBody>))
    ensures r.1 == history + [EncodeRequest(DeleteAlert, DeleteVariables(repository, alertID))]
  {
    var vars := DeleteVariables(repository, alertID);
    (ErrorOf(Answer(remote, history, DeleteAlert, vars, None)), history + [EncodeRequest(DeleteAlert, vars)])
  }

  const GetContext := "failed to get existing alert"
  const DeleteContext := "failed to delete existing alert"

  /** `Update`: look the alert up by name, delete it, create it afresh. */
  function UpdateSpec(remote: Remote, history: seq<RequestBody>, repository: string, a: Alert)
    : (Result<Alert>, seq<RequestBody>)
  {
    var (existing, t1) := GetSpec(remote, history, repository, a.name);
    if existing.Err? then (Err(Wrapped(GetContext, existing.error)), t1)
    else
      var (deleted, t2) := DeleteSpec(remote, t1, repository, existing.value.id);
      if deleted.Some? then (Err(Wrapped(DeleteContext, deleted.value)), t2)
      else AddSpec(remote, t2, repository, a)
  }

  // ---------------------------------------------------------------------
  // Properties of the operations
  // ---------------------------------------------------------------------

  /** `Add` fills in the ID only on success, and only the ID. */
  lemma AddSetsOnlyId(remote: Remote, history: seq<RequestBody>, repository: string, a: Alert)
    ensures var (r, trace) := AddSpec(remote, history, repository, a);
            && trace == history + [EncodeRequest(CreateAlert, AddVariables(repository, a))]
            && (r.Ok? ==> r.value.(id := a.id) == a)
            && (r.Ok? ==> r.value.id == Answer(remote, history, CreateAlert, AddVariables(repository, a),
                                               Some(CreateAlertResponse)).value.value.createAlert.id)
            && (r.Ok? <==> Answer(remote, history, CreateAlert, AddVariables(repository, a),
                                  Some(CreateAlertResponse)).Ok?)
  {
  }

  /** An argument of twenty bytes or more is sent as the ID, with one request. */
  lemma DeleteLongArgumentIsId(remote: Remote, history: seq<RequestBody>, repository: string, alertID: string)
    requires Utf8Length(alertID) >= ShortIdBytes
    ensures DeleteSpec(remote, history, repository, alertID).1
         == history + [EncodeRequest(DeleteAlert, DeleteVariables(repository, alertID))]
  {
  }

  /** A shorter argument is a name: it is listed first, and a failed lookup
      is returned without any delete mutation. */
  lemma DeleteShortArgumentIsName(remote: Remote, history: seq<RequestBody>, repository: string, alertID: string)
    requires Utf8Length(alertID) < ShortIdBytes
    ensures var (err, trace) := DeleteSpec(remote, history, repository, alertID);
            var (found, t1) := GetSpec(remote, history, repository, alertID);
            && t1 == history + [EncodeRequest(ListAlerts, ListVariables(repository))]
            && (found.Err? ==> err == Some(found.error) && trace == t1)
            && (found.Ok? ==> trace == t1 + [EncodeRequest(DeleteAlert, DeleteVariables(repository, found.value.id))])
  {
  }

  /** An ASCII name of fewer than twenty characters is resolved by name. */
  lemma DeleteShortAsciiName(remote: Remote, history: seq<RequestBody>, repository: string, name: string)
    requires |name| < ShortIdBytes
    requires forall i :: 0 <= i < |name| ==> name[i] as int < 0x80
    ensures var trace := DeleteSpec(remote, history, repository, name).1;
            |trace| > |history| && trace[|history|] == EncodeRequest(ListAlerts, ListVariables(repository))
  {
    Utf8LengthAscii(name);
    var t1 := GetSpec(remote, history, repository, name).1;
    var trace := DeleteSpec(remote, history, repository, name).1;
    assert trace == t1 || exists del :: trace == t1 + [del];
    assert |trace| > |history| && trace[|history|] == t1[|history|];
  }

  /** Whether any request in `trace` is the operation `op`. */
  predicate Issues(trace: seq<RequestBody>, op: Operation)
  {
    exists i :: 0 <= i < |trace| && trace[i].query == op
  }

  /** `Get` sends exactly one listing request. */
  lemma GetTrace(remote: Remote, history: seq<RequestBody>, repository: string, name: string)
    ensures GetSpec(remote, history, repository, name).1
         == history + [EncodeRequest(ListAlerts, ListVariables(repository))]
  {
  }

  /** The shape of what a delete appends to `history`: one or two requests,
      none of them a create, and a delete last when it succeeded. */
  predicate DeleteShaped(history: seq<RequestBody>, trace: seq<RequestBody>, succeeded: bool)
  {
    && |history| < |trace| <= |history| + 2 && trace[..|history|] == history
    && (forall i :: |history| <= i < |trace| ==> trace[i].query != CreateAlert)
    && (succeeded ==> trace[|trace| - 1].query == DeleteAlert)
  }

  /** `Delete` appends one or two requests, none of them a create, and the
      last one is the delete when it succeeds. */
  lemma DeleteTrace(remote: Remote, history: seq<RequestBody>, repository: string, alertID: string)
    ensures DeleteShaped(history, DeleteSpec(remote, history, repository, alertID).1,
                         DeleteSpec(remote, history, repository, alertID).0.None?)
  {
    if Utf8Length(alertID) < ShortIdBytes {
      DeleteByNameTrace(remote, history, repository, alertID);
    } else {
      SendDeleteTrace(remote, history, repository, alertID);
    }
  }

  /** The short-argument path sends the listing, then the delete when the
      name is found. */
  lemma DeleteByNameTrace(remote: Remote, history: seq<RequestBody>, repository: string, name: string)
    ensures DeleteShaped(history, DeleteByName(remote, history, repository, name).1,
                         DeleteByName(remote, history, repository, name).0.None?)
  {
    var list := EncodeRequest(ListAlerts, ListVariables(repository));
    var found := GetSpec(remote, history, repository, name);
    if found.0.Ok? {
      var del := EncodeRequest(DeleteAlert, DeleteVariables(repository, found.0.value.id));
      TwoMore(history, found.1 + [del], list, del);
    } else {
      OneMore(history, found.1, list);
    }
  }

  /** The long-argument path sends the delete alone. */
  lemma SendDeleteTrace(remote: Remote, history: seq<RequestBody>, repository: string, alertID: string)
    ensures DeleteShaped(history, SendDelete(remote, history, repository, alertID).1, true)
  {
    OneMore(history, SendDelete(remote, history, repository, alertID).1,
            EncodeRequest(DeleteAlert, DeleteVariables(repository, alertID)));
  }

  /** A failed lookup stops `Update`: no delete and no create is issued. */
  lemma UpdateStopsAfterFailedGet(remote: Remote, history: seq<RequestBody>, repository: string, a: Alert)
    requires GetSpec(remote, history, repository, a.name).0.Err?
    ensures var trace := UpdateSpec(remote, history, repository, a).1;
            && UpdateSpec(remote, history, repository, a).0
               == Err(Wrapped(GetContext, GetSpec(remote, history, repository, a.name).0.error))
            && trace == history + [EncodeRequest(ListAlerts, ListVariables(repository))]
            && !Issues(trace[|history|..], DeleteAlert) && !Issues(trace[|history|..], CreateAlert)
  {
    var list := EncodeRequest(ListAlerts, ListVariables(repository));
    var trace := GetSpec(remote, history, repository, a.name).1;
    assert UpdateSpec(remote, history, repository, a).1 == trace;
    OneMore(history, trace, list);
    NotIssuedAfter(history, trace, DeleteAlert);
    NotIssuedAfter(history, trace, CreateAlert);
  }

  /** A failed delete stops `Update`: no create is issued. */
  lemma UpdateStopsAfterFailedDelete(remote: Remote, history: seq<RequestBody>, repository: string, a: Alert)
    requires GetSpec(remote, history, repository, a.name).0.Ok?
    requires DeleteSpec(remote, GetSpec(remote, history, repository, a.name).1, repository,
                        GetSpec(remote, history, repository, a.name).0.value.id).0.Some?
    ensures var deleted := DeleteSpec(remote, GetSpec(remote, history, repository, a.name).1, repository,
                                      GetSpec(remote, history, repository, a.name).0.value.id);
            && UpdateSpec(remote, history, repository, a).0 == Err(Wrapped(DeleteContext, deleted.0.value))
            && !Issues(UpdateSpec(remote, history, repository, a).1[|history|..], CreateAlert)
  {
    var t1 := GetSpec(remote, history, repository, a.name).1;
    var id := GetSpec(remote, history, repository, a.name).0.value.id;
    var deleted := DeleteSpec(remote, t1, repository, id);
    DeleteTrace(remote, t1, repository, id);
    assert UpdateSpec(remote, history, repository, a) == (Err(Wrapped(DeleteContext, deleted.0.value)), deleted.1);
    OneMore(history, t1, EncodeRequest(ListAlerts, ListVariables(repository)));
    NoCreateIn(history, t1, deleted.1);
  }

  /** Requests appended after a listing by a delete hold no create. */
  lemma NoCreateIn(history: seq<RequestBody>, t1: seq<RequestBody>, t2: seq<RequestBody>)
    requires |t1| == |history| + 1 && t1[|history|].query == ListAlerts
    requires |t1| <= |t2| && t2[..|t1|] == t1
    requires forall i :: |t1| <= i < |t2| ==> t2[i].query != CreateAlert
    ensures !Issues(t2[|history|..], CreateAlert)
  {
    assert t2[|history|] == t2[..|t1|][|history|];
    NotIssuedAfter(history, t2, CreateAlert);
  }

  /** `t` is `h` with one request appended. */
  lemma OneMore(h: seq<RequestBody>, t: seq<RequestBody>, a: RequestBody)
    requires t == h + [a]
    ensures |t| == |h| + 1 && t[..|h|] == h && t[|h|] == a
  {
    assert t[..|h|] == h;
  }

  /** `t` is `h` with two requests appended. */
  lemma TwoMore(h: seq<RequestBody>, t: seq<RequestBody>, a: RequestBody, b: RequestBody)
    requires t == h + [a] + [b]
    ensures |t| == |h| + 2 && t[..|h|] == h && t[|h|] == a && t[|h| + 1] == b
  {
    assert t[..|h|] == h;
  }

  /** No request after position `|h|` of `t` is `op`. */
  lemma NotIssuedAfter(h: seq<RequestBody>, t: seq<RequestBody>, op: Operation)
    requires |h| <= |t|
    requires forall i :: |h| <= i < |t| ==> t[i].query != op
    ensures !Issues(t[|h|..], op)
  {
    var suffix := t[|h|..];
    forall i | 0 <= i < |suffix| ensures suffix[i].query != op {
      assert suffix[i] == t[|h| + i];
    }
  }

  /** When lookup and delete succeed, `Update` looks up, deletes, and ends
      with exactly the create that `Add` sends, whose outcome it returns. */
  lemma UpdateIsDeleteThenCreate(remote: Remote, history: seq<RequestBody>, repository: string, a: Alert)
    requires GetSpec(remote, history, repository, a.name).0.Ok?
    requires DeleteSpec(remote, GetSpec(remote, history, repository, a.name).1, repository,
                        GetSpec(remote, history, repository, a.name).0.value.id).0.None?
    ensures var t2 := DeleteSpec(remote, GetSpec(remote, history, repository, a.name).1, repository,
                                 GetSpec(remote, history, repository, a.name).0.value.id).1;
            var trace := UpdateSpec(remote, history, repository, a).1;
            && trace == t2 + [EncodeRequest(CreateAlert, AddVariables(repository, a))]
            && UpdateSpec(remote, history, repository, a).0 == AddSpec(remote, t2, repository, a).0
            && |t2| > |history| + 1 && trace[|history|] == EncodeRequest(ListAlerts, ListVariables(repository))
            && t2[|t2| - 1].query == DeleteAlert
  {
    var t1 := GetSpec(remote, history, repository, a.name).1;
    var id := GetSpec(remote, history, repository, a.name).0.value.id;
    var t2 := DeleteSpec(remote, t1, repository, id).1;
    var list := EncodeRequest(ListAlerts, ListVariables(repository));
    var create := EncodeRequest(CreateAlert, AddVariables(repository, a));
    DeleteTrace(remote, t1, repository, id);
    OneMore(history, t1, list);
    assert UpdateSpec(remote, history, repository, a) == AddSpec(remote, t2, repository, a);
    AddSetsOnlyId(remote, t2, repository, a);
    LookupFirst(history, t1, t2, t2 + [create], list, create);
  }

  /** A trace that extends `history + [list]` by at least one more request and
      a final `create` starts, past `history`, with `list`. */
  lemma LookupFirst(history: seq<RequestBody>, t1: seq<RequestBody>, t2: seq<RequestBody>,
                    trace: seq<RequestBody>, list: RequestBody, create: RequestBody)
    requires t1 == history + [list] && trace == t2 + [create]
    requires |t1| < |t2| && t2[..|t1|] == t1
    ensures |t2| > |history| + 1 && trace[|history|] == list
  {
    assert t2[|history|] == t2[..|t1|][|history|];
  }

  /** The request sequence of a lookup, a one- or two-request delete and a
      create, laid out position by position. */
  lemma LookupDeleteCreate(history: seq<RequestBody>, t1: seq<RequestBody>, t2: seq<RequestBody>,
                           trace: seq<RequestBody>, list: RequestBody, del: RequestBody, create: RequestBody,
                           long: bool)
    requires t1 == history + [list] && trace == t2 + [create]
    requires long ==> t2 == t1 + [del]
    requires !long ==> |t2| == |t1| + 2 && t2[..|t1|] == t1 && t2[|t1| + 1].query == DeleteAlert
    requires !long ==> t2[|t1|] == list
    ensures long ==> trace == history + [list, del, create]
    ensures !long ==> |trace| == |history| + 4 && trace[|history|] == list && trace[|history| + 1] == list
                      && trace[|history| + 2].query == DeleteAlert && trace[|history| + 3] == create
  {
    if !long {
      assert t2[|history|] == t2[..|t1|][|history|];
    }
  }

  /** The delete inside `Update` receives the existing alert's ID, and looks
      it up by name once more when that ID is shorter than twenty bytes: a
      successful `Update` sends three requests for a long ID, four for a
      short one. */
  lemma UpdateRequestCount(remote: Remote, history: seq<RequestBody>, repository: string, a: Alert)
    requires GetSpec(remote, history, repository, a.name).0.Ok?
    requires DeleteSpec(remote, GetSpec(remote, history, repository, a.name).1, repository,
                        GetSpec(remote, history, repository, a.name).0.value.id).0.None?
    ensures var trace := UpdateSpec(remote, history, repository, a).1;
            var id := GetSpec(remote, history, repository, a.name).0.value.id;
            var list := EncodeRequest(ListAlerts, ListVariables(repository));
            var create := EncodeRequest(CreateAlert, AddVariables(repository, a));
            && (Utf8Length(id) >= ShortIdBytes ==>
                  trace == history + [list, EncodeRequest(DeleteAlert, DeleteVariables(repository, id)), create])
            && (Utf8Length(id) < ShortIdBytes ==>
                  |trace| == |history| + 4 && trace[|history|] == list && trace[|history| + 1] == list
                  && trace[|history| + 2].query == DeleteAlert && trace[|history| + 3] == create)
  {
    var t1 := GetSpec(remote, history, repository, a.name).1;
    var id := GetSpec(remote, history, repository, a.name).0.value.id;
    var t2 := DeleteSpec(remote, t1, repository, id).1;
    var list := EncodeRequest(ListAlerts, ListVariables(repository));
    var create := EncodeRequest(CreateAlert, AddVariables(repository, a));
    var del := EncodeRequest(DeleteAlert, DeleteVariables(repository, id));
    UpdateIsDeleteThenCreate(remote, history, repository, a);
    var long := Utf8Length(id) >= ShortIdBytes;
    if !long {
      var found := GetSpec(remote, t1, repository, id);
      assert found.0.Ok?;
      var del' := EncodeRequest(DeleteAlert, DeleteVariables(repository, found.0.value.id));
      assert t2 == found.1 + [del'];
      TwoMore(t1, t2, list, del');
    }
    LookupDeleteCreate(history, t1, t2, UpdateSpec(remote, history, repository, a).1, list, del, create, long);
  }

  /** The Alerts API: every call goes through one client. */
  class AlertsApi {
    const client: Client

    constructor (client: Client)
      ensures this.client == client
    {
      this.client := client;
    }

    method List(repository: string) returns (r: Result<seq<Alert>>)
      modifies client
      ensures (r, client.trace) == ListSpec(client.remote, old(client.trace), repository)
    {
      var reply := client.Query(ListAlerts, map["SearchDomainName" := Str(repository)], Some(AlertResponse));
      if reply.Err? {
        return Err(reply.error);
      }
      var alerts := DecodeAlerts(reply.value.value.alerts);
      assert alerts == MapSeq(DecodeAlert, reply.value.value.alerts);
      return Ok(alerts);
    }

    method Get(repository: string, name: string) returns (r: Result<Alert>)
      modifies client
      ensures (r, client.trace) == GetSpec(client.remote, old(client.trace), repository, name)
    {
      var alerts := List(repository);
      if alerts.Err? {
        return Err(alerts.error);
      }
      r := Lookup.FindByName(alerts.value, AlertName, "alert", name);
    }

    method Add(repository: string, alert: Ref<Alert>) returns (r: Result<Ref<Alert>>)
      modifies client, alert
      ensures var (outcome, trace) := AddSpec(client.remote, old(client.trace), repository, old(alert.value));
              client.trace == trace && Returns(r, outcome, alert)
      ensures r.Err? ==> alert.value == old(alert.value)
    {
      var a := alert.value;
      var variables := map[
        "SearchDomainName" := Str(repository), "Name" := Str(a.name),
        "Description" := Str(a.description), "QueryString" := Str(a.queryString),
        "QueryStart" := Str(a.queryStart), "ThrottleTimeMillis" := Int(a.throttleTimeMillis),
        "ThrottleField" := Str(a.throttleField), "Enabled" := Bool(a.enabled),
        "Actions" := StringsValue(a.actions), "Labels" := StringsValue(a.labels)];
      if a.runAsUserID != "" {
        variables := variables["RunAsUserID" := Str(a.runAsUserID)];
      }
      if a.queryOwnershipType != "" {
        variables := variables["QueryOwnershipType" := Str(a.queryOwnershipType)];
      }
      var reply := client.Query(CreateAlert, variables, Some(CreateAlertResponse));
      if reply.Err? {
        return Err(reply.error);
      }
      alert.value := alert.value.(id := reply.value.value.createAlert.id);
      return Ok(alert);
    }

    method Delete(repository: string, alertID: string) returns (err: Option<Error>)
      modifies client
      ensures (err, client.trace) == DeleteSpec(client.remote, old(client.trace), repository, alertID)
    {
      var id := alertID;
      if Utf8Length(id) < ShortIdBytes {
        var found := Get(repository, id);
        if found.Err? {
          return Some(found.error);
        }
        id := found.value.id;
      }
      var reply := client.Query(DeleteAlert, map["SearchDomainName" := Str(repository), "AlertID" := Str(id)], None);
      return ErrorOf(reply);
    }

    method Update(repository: string, alert: Ref<Alert>) returns (r: Result<Ref<Alert>>)
      modifies client, alert
      ensures var (outcome, trace) := UpdateSpec(client.remote, old(client.trace), repository, old(alert.value));
              client.trace == trace && Returns(r, outcome, alert)
      ensures r.Err? ==> alert.value == old(alert.value)
    {
      var existing := Get(repository, alert.value.name);
      if existing.Err? {
        return Err(Wrapped(GetContext, existing.error));
      }
      var deleted := Delete(repository, existing.value.id);
      if deleted.Some? {
        return Err(Wrapped(DeleteContext, deleted.value));
      }
      r := Add(repository, alert);
    }
  }
}
