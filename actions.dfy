/** Notification actions: the eight action types, the decoding of the
    polymorphic `actions` listing by `__typename`, the per-type variables of
    the create and update mutations, and the Actions API operations. */
module Actions {
  import opened Values
  import opened Responses
  import opened GraphQL
  import Lookup

  const EmailType := "EmailAction"
  const HumioRepoType := "HumioRepoAction"
  const OpsGenieType := "OpsGenieAction"
  const PagerDutyType := "PagerDutyAction"
  const SlackType := "SlackAction"
  const SlackPostMessageType := "SlackPostMessageAction"
  const VictorOpsType := "VictorOpsAction"
  const WebhookType := "WebhookAction"

  const ActionTypes: set<string> :=
    {EmailType, HumioRepoType, OpsGenieType, PagerDutyType,
     SlackType, SlackPostMessageType, VictorOpsType, WebhookType}

  predicate IsSupported(actionType: string)
  {
    actionType in ActionTypes
  }

  datatype SlackField = SlackField(fieldName: string, value: string)
  datatype HttpHeader = HttpHeader(header: string, value: string)

  datatype EmailAction = EmailAction(
    recipients: Option<seq<string>>, subjectTemplate: string, bodyTemplate: string, useProxy: bool)
  datatype HumioRepoAction = HumioRepoAction(ingestToken: string)
  datatype OpsGenieAction = OpsGenieAction(apiUrl: string, genieKey: string, useProxy: bool)
  datatype PagerDutyAction = PagerDutyAction(routingKey: string, severity: string, useProxy: bool)
  datatype SlackAction = SlackAction(url: string, fields: seq<SlackField>, useProxy: bool)
  datatype SlackPostMessageAction = SlackPostMessageAction(
    apiToken: string, channels: Option<seq<string>>, fields: seq<SlackField>, useProxy: bool)
  datatype VictorOpsAction = VictorOpsAction(messageType: string, notifyUrl: string, useProxy: bool)
  datatype WebhookAction = WebhookAction(
    httpMethod: string, url: string, headers: seq<HttpHeader>, bodyTemplate: string,
    ignoreSSL: bool, useProxy: bool)

  /** An action: its type tag, identity, and one sub-record per type, of
      which only the one named by `actionType` is meaningful. */
  datatype Action = Action(
    actionType: string, id: string, name: string,
    email: EmailAction, humioRepo: HumioRepoAction, opsGenie: OpsGenieAction,
    pagerDuty: PagerDutyAction, slack: SlackAction, slackPostMessage: SlackPostMessageAction,
    victorOps: VictorOpsAction, webhook: WebhookAction)

  // Go zero values of the sub-records.
  const NoEmail := EmailAction(None, "", "", false)
  const NoHumioRepo := HumioRepoAction("")
  const NoOpsGenie := OpsGenieAction("", "", false)
  const NoPagerDuty := PagerDutyAction("", "", false)
  const NoSlack := SlackAction("", [], false)
  const NoSlackPostMessage := SlackPostMessageAction("", None, [], false)
  const NoVictorOps := VictorOpsAction("", "", false)
  const NoWebhook := WebhookAction("", "", [], "", false, false)

  function ActionName(a: Action): string { a.name }

  /** Every sub-record other than the one `actionType` names is zero. */
  predicate OnlyOwnSubRecord(a: Action)
  {
    && (a.actionType != EmailType ==> a.email == NoEmail)
    && (a.actionType != HumioRepoType ==> a.humioRepo == NoHumioRepo)
    && (a.actionType != OpsGenieType ==> a.opsGenie == NoOpsGenie)
    && (a.actionType != PagerDutyType ==> a.pagerDuty == NoPagerDuty)
    && (a.actionType != SlackType ==> a.slack == NoSlack)
    && (a.actionType != SlackPostMessageType ==> a.slackPostMessage == NoSlackPostMessage)
    && (a.actionType != VictorOpsType ==> a.victorOps == NoVictorOps)
    && (a.actionType != WebhookType ==> a.webhook == NoWebhook)
  }

  predicate AllSubRecordsZero(a: Action)
  {
    && a.email == NoEmail && a.humioRepo == NoHumioRepo && a.opsGenie == NoOpsGenie
    && a.pagerDuty == NoPagerDuty && a.slack == NoSlack && a.slackPostMessage == NoSlackPostMessage
    && a.victorOps == NoVictorOps && a.webhook == NoWebhook
  }

  // ---------------------------------------------------------------------
  // Decoding the listing
  // ---------------------------------------------------------------------

  function DecodeSlackField(f: RawSlackField): SlackField { SlackField(f.fieldName, f.value) }
  function DecodeHeader(h: RawHeader): HttpHeader { HttpHeader(h.header, h.value) }

  /** The action one listing entry decodes to. */
  function DecodeAction(raw: RawAction): (a: Action)
    ensures a.actionType == raw.typename && a.id == raw.id && a.name == raw.name
    ensures OnlyOwnSubRecord(a)
    ensures !IsSupported(raw.typename) ==> AllSubRecordsZero(a)
    // aliased fields come from their aliases
    ensures raw.typename == EmailType ==>
              a.email.bodyTemplate == raw.emailBodyTemplate && a.email.useProxy == raw.emailUseProxy
    ensures raw.typename == WebhookType ==>
              a.webhook.url == raw.webhookUrl && a.webhook.bodyTemplate == raw.webhookBodyTemplate
    ensures raw.typename == SlackPostMessageType ==> a.slackPostMessage.useProxy == raw.useProxy
  {
    var base := Action(raw.typename, raw.id, raw.name, NoEmail, NoHumioRepo, NoOpsGenie,
                       NoPagerDuty, NoSlack, NoSlackPostMessage, NoVictorOps, NoWebhook);
    var t := raw.typename;
    if t == EmailType then
      base.(email := EmailAction(raw.recipients, raw.subjectTemplate, raw.emailBodyTemplate, raw.emailUseProxy))
    else if t == HumioRepoType then
      base.(humioRepo := HumioRepoAction(raw.ingestToken))
    else if t == OpsGenieType then
      base.(opsGenie := OpsGenieAction(raw.apiUrl, raw.genieKey, raw.opsGenieUseProxy))
    else if t == PagerDutyType then
      base.(pagerDuty := PagerDutyAction(raw.routingKey, raw.severity, raw.pagerDutyUseProxy))
    else if t == SlackType then
      base.(slack := SlackAction(raw.url, MapSeq(DecodeSlackField, raw.fields), raw.slackUseProxy))
    else if t == SlackPostMessageType then
      base.(slackPostMessage := SlackPostMessageAction(
              raw.apiToken, raw.channels, MapSeq(DecodeSlackField, raw.fields), raw.useProxy))
    else if t == VictorOpsType then
      base.(victorOps := VictorOpsAction(raw.messageType, raw.notifyUrl, raw.victorOpsUseProxy))
    else if t == WebhookType then
      base.(webhook := WebhookAction(raw.httpMethod, raw.webhookUrl, MapSeq(DecodeHeader, raw.headers),
                                     raw.webhookBodyTemplate, raw.ignoreSSL, raw.webhookUseProxy))
    else
      base
  }

  /** The `fields` copy loop: element-wise, same length and order. */
  method DecodeSlackFields(raw: seq<RawSlackField>) returns (fields: seq<SlackField>)
    ensures |fields| == |raw|
    ensures forall j :: 0 <= j < |raw| ==>
              fields[j].fieldName == raw[j].fieldName && fields[j].value == raw[j].value
  {
    var buf := new SlackField[|raw|];
    for j := 0 to |raw|
      invariant forall k :: 0 <= k < j ==> buf[k] == SlackField(raw[k].fieldName, raw[k].value)
    {
      buf[j] := SlackField(raw[j].fieldName, raw[j].value);
    }
    fields := buf[..];
  }

  /** The `headers` copy loop: element-wise, same length and order. */
  method DecodeHeaders(raw: seq<RawHeader>) returns (headers: seq<HttpHeader>)
    ensures |headers| == |raw|
    ensures forall j :: 0 <= j < |raw| ==>
              headers[j].header == raw[j].header && headers[j].value == raw[j].value
  {
    var buf := new HttpHeader[|raw|];
    for j := 0 to |raw|
      invariant forall k :: 0 <= k < j ==> buf[k] == HttpHeader(raw[k].header, raw[k].value)
    {
      buf[j] := HttpHeader(raw[j].header, raw[j].value);
    }
    headers := buf[..];
  }

  /** One iteration of the listing loop: the switch on `__typename`. */
  method DecodeEntry(raw: RawAction) returns (action: Action)
    ensures action == DecodeAction(raw)
  {
    action := Action(raw.typename, raw.id, raw.name, NoEmail, NoHumioRepo, NoOpsGenie,
                     NoPagerDuty, NoSlack, NoSlackPostMessage, NoVictorOps, NoWebhook);
    var t := raw.typename;
    if t == EmailType {
      action := action.(email := EmailAction(raw.recipients, raw.subjectTemplate,
                                             raw.emailBodyTemplate, raw.emailUseProxy));
    } else if t == HumioRepoType {
      action := action.(humioRepo := HumioRepoAction(raw.ingestToken));
    } else if t == OpsGenieType {
      action := action.(opsGenie := OpsGenieAction(raw.apiUrl, raw.genieKey, raw.opsGenieUseProxy));
    } else if t == PagerDutyType {
      action := action.(pagerDuty := PagerDutyAction(raw.routingKey, raw.severity, raw.pagerDutyUseProxy));
    } else if t == SlackType {
      var fields := DecodeSlackFields(raw.fields);
      assert fields == MapSeq(DecodeSlackField, raw.fields);
      action := action.(slack := SlackAction(raw.url, fields, raw.slackUseProxy));
    } else if t == SlackPostMessageType {
      var fields := DecodeSlackFields(raw.fields);
      assert fields == MapSeq(DecodeSlackField, raw.fields);
      action := action.(slackPostMessage := SlackPostMessageAction(raw.apiToken, raw.channels, fields, raw.useProxy));
    } else if t == VictorOpsType {
      action := action.(victorOps := VictorOpsAction(raw.messageType, raw.notifyUrl, raw.victorOpsUseProxy));
    } else if t == WebhookType {
      var headers := DecodeHeaders(raw.headers);
      assert headers == MapSeq(DecodeHeader, raw.headers);
      action := action.(webhook := WebhookAction(raw.httpMethod, raw.webhookUrl, headers,
                                                 raw.webhookBodyTemplate, raw.ignoreSSL, raw.webhookUseProxy));
    }
  }

  /** The listing loop: one action per raw entry, in the same order. */
  method DecodeActions(raws: seq<RawAction>) returns (actions: seq<Action>)
    ensures |actions| == |raws|
    ensures forall i :: 0 <= i < |raws| ==> actions[i] == DecodeAction(raws[i])
  {
    var buf := new Action[|raws|];
    for i := 0 to |raws|
      invariant forall k :: 0 <= k < i ==> buf[k] == DecodeAction(raws[k])
    {
      buf[i] := DecodeEntry(raws[i]);
    }
    actions := buf[..];
  }

  // ---------------------------------------------------------------------
  // Mutation variables
  // ---------------------------------------------------------------------

  function SlackFieldValue(f: SlackField): Value
  {
    Object(map["fieldName" := Str(f.fieldName), "value" := Str(f.value)])
  }

  function HeaderValue(h: HttpHeader): Value
  {
    Object(map["header" := Str(h.header), "value" := Str(h.value)])
  }

  /** The `fields` building loop of the Slack mutations. */
  method EncodeSlackFields(fields: seq<SlackField>) returns (v: seq<Value>)
    ensures v == MapSeq(SlackFieldValue, fields)
  {
    var buf := new Value[|fields|];
    for i := 0 to |fields|
      invariant forall k :: 0 <= k < i ==> buf[k] == SlackFieldValue(fields[k])
    {
      buf[i] := Object(map["fieldName" := Str(fields[i].fieldName), "value" := Str(fields[i].value)]);
    }
    v := buf[..];
  }

  /** The `headers` building loop of the webhook mutations. */
  method EncodeHeaders(headers: seq<HttpHeader>) returns (v: seq<Value>)
    ensures v == MapSeq(HeaderValue, headers)
  {
    var buf := new Value[|headers|];
    for i := 0 to |headers|
      invariant forall k :: 0 <= k < i ==> buf[k] == HeaderValue(headers[k])
    {
      buf[i] := Object(map["header" := Str(headers[i].header), "value" := Str(headers[i].value)]);
    }
    v := buf[..];
  }

  function EmailVariables(e: EmailAction): (v: Vars)
    ensures v.Keys == {"Recipients", "UseProxy"}
                      + (if e.subjectTemplate != "" then {"SubjectTemplate"} else {})
                      + (if e.bodyTemplate != "" then {"BodyTemplate"} else {})
    ensures v["Recipients"] == StringsValue(e.recipients) && v["UseProxy"] == Bool(e.useProxy)
    ensures e.subjectTemplate != "" ==> v["SubjectTemplate"] == Str(e.subjectTemplate)
    ensures e.bodyTemplate != "" ==> v["BodyTemplate"] == Str(e.bodyTemplate)
  {
    map["Recipients" := StringsValue(e.recipients), "UseProxy" := Bool(e.useProxy)]
    + (if e.subjectTemplate != "" then map["SubjectTemplate" := Str(e.subjectTemplate)] else map[])
    + (if e.bodyTemplate != "" then map["BodyTemplate" := Str(e.bodyTemplate)] else map[])
  }

  function HumioRepoVariables(h: HumioRepoAction): (v: Vars)
    ensures v.Keys == {"IngestToken"} && v["IngestToken"] == Str(h.ingestToken)
  {
    map["IngestToken" := Str(h.ingestToken)]
  }

  function OpsGenieVariables(o: OpsGenieAction): (v: Vars)
    ensures v.Keys == {"ApiUrl", "GenieKey", "UseProxy"}
    ensures v["ApiUrl"] == Str(o.apiUrl) && v["GenieKey"] == Str(o.genieKey) && v["UseProxy"] == Bool(o.useProxy)
  {
    map["ApiUrl" := Str(o.apiUrl), "GenieKey" := Str(o.genieKey), "UseProxy" := Bool(o.useProxy)]
  }

  function PagerDutyVariables(p: PagerDutyAction): (v: Vars)
    ensures v.Keys == {"RoutingKey", "Severity", "UseProxy"}
    ensures v["RoutingKey"] == Str(p.routingKey) && v["Severity"] == Str(p.severity)
            && v["UseProxy"] == Bool(p.useProxy)
  {
    map["RoutingKey" := Str(p.routingKey), "Severity" := Str(p.severity), "UseProxy" := Bool(p.useProxy)]
  }

  function SlackVariables(s: SlackAction): (v: Vars)
    ensures v.Keys == {"Url", "Fields", "UseProxy"}
    ensures v["Url"] == Str(s.url) && v["UseProxy"] == Bool(s.useProxy)
    ensures v["Fields"] == List(MapSeq(SlackFieldValue, s.fields))
  {
    map["Url" := Str(s.url), "Fields" := List(MapSeq(SlackFieldValue, s.fields)),
        "UseProxy" := Bool(s.useProxy)]
  }

  function SlackPostMessageVariables(s: SlackPostMessageAction): (v: Vars)
    ensures v.Keys == {"ApiToken", "Channels", "Fields", "UseProxy"}
    ensures v["ApiToken"] == Str(s.apiToken) && v["Channels"] == StringsValue(s.channels)
            && v["UseProxy"] == Bool(s.useProxy)
    ensures v["Fields"] == List(MapSeq(SlackFieldValue, s.fields))
  {
    map["ApiToken" := Str(s.apiToken), "Channels" := StringsValue(s.channels),
        "Fields" := List(MapSeq(SlackFieldValue, s.fields)), "UseProxy" := Bool(s.useProxy)]
  }

  function VictorOpsVariables(o: VictorOpsAction): (v: Vars)
    ensures v.Keys == {"MessageType", "NotifyUrl", "UseProxy"}
    ensures v["MessageType"] == Str(o.messageType) && v["NotifyUrl"] == Str(o.notifyUrl)
            && v["UseProxy"] == Bool(o.useProxy)
  {
    map["MessageType" := Str(o.messageType), "NotifyUrl" := Str(o.notifyUrl), "UseProxy" := Bool(o.useProxy)]
  }

  function WebhookVariables(w: WebhookAction): (v: Vars)
    ensures v.Keys == {"Url", "Method", "Headers", "BodyTemplate", "IgnoreSSL", "UseProxy"}
    ensures v["Url"] == Str(w.url) && v["Method"] == Str(w.httpMethod)
            && v["BodyTemplate"] == Str(w.bodyTemplate)
    ensures v["IgnoreSSL"] == Bool(w.ignoreSSL) && v["UseProxy"] == Bool(w.useProxy)
    ensures v["Headers"] == List(MapSeq(HeaderValue, w.headers))
  {
    map["Url" := Str(w.url), "Method" := Str(w.httpMethod), "Headers" := List(MapSeq(HeaderValue, w.headers)),
        "BodyTemplate" := Str(w.bodyTemplate), "IgnoreSSL" := Bool(w.ignoreSSL), "UseProxy" := Bool(w.useProxy)]
  }

  /** The type-specific variables shared by the create and update mutations:
      those of the sub-record `actionType` names. */
  function TypeVariables(a: Action): (v: Vars)
    requires IsSupported(a.actionType)
    ensures "SearchDomainName" !in v && "Name" !in v && "ID" !in v
  {
    var t := a.actionType;
    if t == EmailType then EmailVariables(a.email)
    else if t == HumioRepoType then HumioRepoVariables(a.humioRepo)
    else if t == OpsGenieType then OpsGenieVariables(a.opsGenie)
    else if t == PagerDutyType then PagerDutyVariables(a.pagerDuty)
    else if t == SlackType then SlackVariables(a.slack)
    else if t == SlackPostMessageType then SlackPostMessageVariables(a.slackPostMessage)
    else if t == VictorOpsType then VictorOpsVariables(a.victorOps)
    else WebhookVariables(a.webhook)
  }

  /** Two actions of the same type whose sub-records of that type agree;
      their other sub-records may differ. */
  predicate SameOwnSubRecord(a: Action, b: Action)
  {
    && a.actionType == b.actionType
    && (a.actionType == EmailType ==> a.email == b.email)
    && (a.actionType == HumioRepoType ==> a.humioRepo == b.humioRepo)
    && (a.actionType == OpsGenieType ==> a.opsGenie == b.opsGenie)
    && (a.actionType == PagerDutyType ==> a.pagerDuty == b.pagerDuty)
    && (a.actionType == SlackType ==> a.slack == b.slack)
    && (a.actionType == SlackPostMessageType ==> a.slackPostMessage == b.slackPostMessage)
    && (a.actionType == VictorOpsType ==> a.victorOps == b.victorOps)
    && (a.actionType == WebhookType ==> a.webhook == b.webhook)
  }

  /** The type variables are read from the sub-record the type names and
      from no other. */
  lemma TypeVariablesReadOwnSubRecord(a: Action, b: Action)
    requires IsSupported(a.actionType) && SameOwnSubRecord(a, b)
    ensures TypeVariables(a) == TypeVariables(b)
  {
  }

  /** Variables of the create mutation. */
  function CreateVariables(repository: string, a: Action): (vars: Vars)
    requires IsSupported(a.actionType)
    ensures "SearchDomainName" in vars && vars["SearchDomainName"] == Str(repository)
    ensures "Name" in vars && vars["Name"] == Str(a.name)
    ensures "ID" !in vars
    ensures a.actionType == EmailType ==>
              ("SubjectTemplate" in vars <==> a.email.subjectTemplate != "")
              && ("BodyTemplate" in vars <==> a.email.bodyTemplate != "")
  {
    map["SearchDomainName" := Str(repository), "Name" := Str(a.name)] + TypeVariables(a)
  }

  /** Variables of the update mutation: the create variables plus `ID`. */
  function UpdateVariables(repository: string, a: Action): (vars: Vars)
    requires IsSupported(a.actionType)
    ensures "ID" in vars && vars["ID"] == Str(a.id)
    ensures vars.Keys == CreateVariables(repository, a).Keys + {"ID"}
    ensures forall k :: k in vars && k != "ID" ==> vars[k] == CreateVariables(repository, a)[k]
  {
    CreateVariables(repository, a)["ID" := Str(a.id)]
  }

  /** The update variables in the order `Update` inserts them. */
  lemma UpdateVariablesAsBuilt(repository: string, a: Action)
    requires IsSupported(a.actionType)
    ensures map["SearchDomainName" := Str(repository), "ID" := Str(a.id), "Name" := Str(a.name)]
            + TypeVariables(a) == UpdateVariables(repository, a)
  {
    var built := map["SearchDomainName" := Str(repository), "ID" := Str(a.id), "Name" := Str(a.name)]
                 + TypeVariables(a);
    assert built.Keys == UpdateVariables(repository, a).Keys;
  }

  function CreateMutation(t: string): Operation
    requires IsSupported(t)
  {
    if t == EmailType then CreateEmailAction
    else if t == HumioRepoType then CreateHumioRepoAction
    else if t == OpsGenieType then CreateOpsGenieAction
    else if t == PagerDutyType then CreatePagerDutyAction
    else if t == SlackType then CreateSlackAction
    else if t == SlackPostMessageType then CreateSlackPostMessageAction
    else if t == VictorOpsType then CreateVictorOpsAction
    else CreateWebhookAction
  }

  function UpdateMutation(t: string): Operation
    requires IsSupported(t)
  {
    if t == EmailType then UpdateEmailAction
    else if t == HumioRepoType then UpdateHumioRepoAction
    else if t == OpsGenieType then UpdateOpsGenieAction
    else if t == PagerDutyType then UpdatePagerDutyAction
    else if t == SlackType then UpdateSlackAction
    else if t == SlackPostMessageType then UpdateSlackPostMessageAction
    else if t == VictorOpsType then UpdateVictorOpsAction
    else UpdateWebhookAction
  }

  /** The switch of `Add` and `Update`: inserts the type-specific variables
      one by one, or reports an unsupported type. */
  method InsertTypeVariables(action: Action, variables: Vars) returns (r: Option<Vars>)
    ensures r.None? <==> !IsSupported(action.actionType)
    ensures r.Some? ==> r.value == variables + TypeVariables(action)
  {
    var t := action.actionType;
    var vars;
    if t == EmailType {
      vars := InsertEmail(variables, action.email);
    } else if t == HumioRepoType {
      vars := variables["IngestToken" := Str(action.humioRepo.ingestToken)];
      assert vars == variables + HumioRepoVariables(action.humioRepo);
    } else if t == OpsGenieType {
      vars := InsertOpsGenie(variables, action.opsGenie);
    } else if t == PagerDutyType {
      vars := InsertPagerDuty(variables, action.pagerDuty);
    } else if t == SlackType {
      vars := InsertSlack(variables, action.slack);
    } else if t == SlackPostMessageType {
      vars := InsertSlackPostMessage(variables, action.slackPostMessage);
    } else if t == VictorOpsType {
      vars := InsertVictorOps(variables, action.victorOps);
    } else if t == WebhookType {
      vars := InsertWebhook(variables, action.webhook);
    } else {
      return None;
    }
    return Some(vars);
  }

  method InsertEmail(variables: Vars, e: EmailAction) returns (vars: Vars)
    ensures vars == variables + EmailVariables(e)
  {
    vars := variables["Recipients" := StringsValue(e.recipients)];
    if e.subjectTemplate != "" {
      vars := vars["SubjectTemplate" := Str(e.subjectTemplate)];
    }
    if e.bodyTemplate != "" {
      vars := vars["BodyTemplate" := Str(e.bodyTemplate)];
    }
    vars := vars["UseProxy" := Bool(e.useProxy)];
  }

  method InsertOpsGenie(variables: Vars, o: OpsGenieAction) returns (vars: Vars)
    ensures vars == variables + OpsGenieVariables(o)
  {
    vars := variables["ApiUrl" := Str(o.apiUrl)];
    vars := vars["GenieKey" := Str(o.genieKey)];
    vars := vars["UseProxy" := Bool(o.useProxy)];
  }

  method InsertPagerDuty(variables: Vars, p: PagerDutyAction) returns (vars: Vars)
    ensures vars == variables + PagerDutyVariables(p)
  {
    vars := variables["RoutingKey" := Str(p.routingKey)];
    vars := vars["Severity" := Str(p.severity)];
    vars := vars["UseProxy" := Bool(p.useProxy)];
  }

  method InsertSlack(variables: Vars, s: SlackAction) returns (vars: Vars)
    ensures vars == variables + SlackVariables(s)
  {
    vars := variables["Url" := Str(s.url)];
    var fields := EncodeSlackFields(s.fields);
    vars := vars["Fields" := List(fields)];
    vars := vars["UseProxy" := Bool(s.useProxy)];
  }

  method InsertSlackPostMessage(variables: Vars, s: SlackPostMessageAction) returns (vars: Vars)
    ensures vars == variables + SlackPostMessageVariables(s)
  {
    vars := variables["ApiToken" := Str(s.apiToken)];
    vars := vars["Channels" := StringsValue(s.channels)];
    var fields := EncodeSlackFields(s.fields);
    vars := vars["Fields" := List(fields)];
    vars := vars["UseProxy" := Bool(s.useProxy)];
  }

  method InsertVictorOps(variables: Vars, o: VictorOpsAction) returns (vars: Vars)
    ensures vars == variables + VictorOpsVariables(o)
  {
    vars := variables["MessageType" := Str(o.messageType)];
    vars := vars["NotifyUrl" := Str(o.notifyUrl)];
    vars := vars["UseProxy" := Bool(o.useProxy)];
  }

  method InsertWebhook(variables: Vars, w: WebhookAction) returns (vars: Vars)
    ensures vars == variables + WebhookVariables(w)
  {
    vars := variables["Url" := Str(w.url)];
    vars := vars["Method" := Str(w.httpMethod)];
    var headers := EncodeHeaders(w.headers);
    vars := vars["Headers" := List(headers)];
    vars := vars["BodyTemplate" := Str(w.bodyTemplate)];
    vars := vars["IgnoreSSL" := Bool(w.ignoreSSL)];
    vars := vars["UseProxy" := Bool(w.useProxy)];
  }

  // ---------------------------------------------------------------------
  // Reading the create response
  // ---------------------------------------------------------------------

  /** The create-response field that belongs to `actionType`. */
  function CreatedFor(resp: CreatedAction, actionType: string): Option<IdName>
  {
    if actionType == EmailType then resp.createEmailAction
    else if actionType == HumioRepoType then resp.createHumioRepoAction
    else if actionType == OpsGenieType then resp.createOpsGenieAction
    else if actionType == PagerDutyType then resp.createPagerDutyAction
    else if actionType == SlackType then resp.createSlackAction
    else if actionType == SlackPostMessageType then resp.createSlackPostMessageAction
    else if actionType == VictorOpsType then resp.createVictorOpsAction
    else if actionType == WebhookType then resp.createWebhookAction
    else None
  }

  /** `a` with the ID the create response reports for its own type, if any. */
  function WithCreatedId(a: Action, resp: CreatedAction): (b: Action)
    ensures b.(id := a.id) == a
    ensures CreatedFor(resp, a.actionType).None? ==> b == a
    ensures CreatedFor(resp, a.actionType).Some? ==> b.id == CreatedFor(resp, a.actionType).value.id
  {
    match CreatedFor(resp, a.actionType)
    case None => a
    case Some(created) => a.(id := created.id)
  }

  // ---------------------------------------------------------------------
  // The operations as functions of the remote and the requests sent so far
  // ---------------------------------------------------------------------

  function ListVariables(repository: string): Vars
  {
    map["SearchDomainName" := Str(repository)]
  }

  function DeleteVariables(repository: string, actionID: string): Vars
  {
    map["SearchDomainName" := Str(repository), "ActionID" := Str(actionID)]
  }

  /** `List`: its outcome and the trace after it. */
  function ListSpec(remote: Remote, history: seq<RequestBody>, repository: string)
    : (Result<seq<Action>>, seq<RequestBody>)
  {
    var reply := Answer(remote, history, ListActions, ListVariables(repository), Some(ActionResponse));
    (if reply.Err? then Err(reply.error) else Ok(MapSeq(DecodeAction, reply.value.value.actions)),
     history + [EncodeRequest(ListActions, ListVariables(repository))])
  }

  /** `Get`: the first listed action with the name, else "action not found". */
  function GetSpec(remote: Remote, history: seq<RequestBody>, repository: string, name: string)
    : (Result<Action>, seq<RequestBody>)
  {
    var (listed, trace) := ListSpec(remote, history, repository);
    (if listed.Err? then Err(listed.error) else Lookup.FirstNamed(listed.value, ActionName, "action", name),
     trace)
  }

  /** `Add`: the action as stored back into the caller's struct. */
  function AddSpec(remote: Remote, history: seq<RequestBody>, repository: string, a: Action)
    : (Result<Action>, seq<RequestBody>)
  {
    if !IsSupported(a.actionType) then (Err(UnsupportedActionType(a.actionType)), history)
    else
      var mutation := CreateMutation(a.actionType);
      var vars := CreateVariables(repository, a);
      var reply := Answer(remote, history, mutation, vars, Some(CreateActionResponse));
      (if reply.Err? then Err(reply.error) else Ok(WithCreatedId(a, reply.value.value.created)),
       history + [EncodeRequest(mutation, vars)])
  }

  /** `Update`: the action itself on success. */
  function UpdateSpec(remote: Remote, history: seq<RequestBody>, repository: string, a: Action)
    : (Result<Action>, seq<RequestBody>)
  {
    if !IsSupported(a.actionType) then (Err(UnsupportedActionType(a.actionType)), history)
    else
      var mutation := UpdateMutation(a.actionType);
      var vars := UpdateVariables(repository, a);
      var reply := Answer(remote, history, mutation, vars, Some(UpdateActionResponse));
      (if reply.Err? then Err(reply.error) else Ok(a), history + [EncodeRequest(mutation, vars)])
  }

  /** An action of an unsupported type is refused by `Add` and `Update`
      before any request is sent. */
  lemma UnsupportedSendsNothing(remote: Remote, history: seq<RequestBody>, repository: string, a: Action)
    requires !IsSupported(a.actionType)
    ensures AddSpec(remote, history, repository, a) == (Err(UnsupportedActionType(a.actionType)), history)
    ensures UpdateSpec(remote, history, repository, a) == (Err(UnsupportedActionType(a.actionType)), history)
  {
  }

  /** A supported action is updated with exactly one request, of its own
      type's update mutation; on success `Update` returns the action it was
      given, and otherwise the query's error. */
  lemma UpdateReturnsInput(remote: Remote, history: seq<RequestBody>, repository: string, a: Action)
    requires IsSupported(a.actionType)
    ensures var (r, trace) := UpdateSpec(remote, history, repository, a);
            var reply := Answer(remote, history, UpdateMutation(a.actionType), UpdateVariables(repository, a),
                                Some(UpdateActionResponse));
            && trace == history + [EncodeRequest(UpdateMutation(a.actionType), UpdateVariables(repository, a))]
            && (r.Ok? <==> reply.Ok?)
            && (r.Ok? ==> r.value == a)
            && (r.Err? ==> r.error == reply.error)
  {
  }

  /** The Actions API: every call goes through one client. */
  class ActionsApi {
    const client: Client

    constructor (client: Client)
      ensures this.client == client
    {
      this.client := client;
    }

    method List(repository: string) returns (r: Result<seq<Action>>)
      modifies client
      ensures (r, client.trace) == ListSpec(client.remote, old(client.trace), repository)
    {
      var reply := client.Query(ListActions, map["SearchDomainName" := Str(repository)], Some(ActionResponse));
      if reply.Err? {
        return Err(reply.error);
      }
      var actions := DecodeActions(reply.value.value.actions);
      assert actions == MapSeq(DecodeAction, reply.value.value.actions);
      return Ok(actions);
    }

    method Get(repository: string, name: string) returns (r: Result<Action>)
      modifies client
      ensures (r, client.trace) == GetSpec(client.remote, old(client.trace), repository, name)
    {
      var actions := List(repository);
      if actions.Err? {
        return Err(actions.error);
      }
      r := Lookup.FindByName(actions.value, ActionName, "action", name);
    }

    method Add(repository: string, action: Ref<Action>) returns (r: Result<Ref<Action>>)
      modifies client, action
      ensures var (outcome, trace) := AddSpec(client.remote, old(client.trace), repository, old(action.value));
              client.trace == trace && Returns(r, outcome, action)
      ensures r.Err? ==> action.value == old(action.value)
    {
      var variables := map["SearchDomainName" := Str(repository), "Name" := Str(action.value.name)];
      var typed := InsertTypeVariables(action.value, variables);
      if typed.None? {
        return Err(UnsupportedActionType(action.value.actionType));
      }
      var t := action.value.actionType;
      var reply := client.Query(CreateMutation(t), typed.value, Some(CreateActionResponse));
      if reply.Err? {
        return Err(reply.error);
      }
      var resp := reply.value.value.created;
      if t == EmailType {
        if resp.createEmailAction.Some? { action.value := action.value.(id := resp.createEmailAction.value.id); }
      } else if t == HumioRepoType {
        if resp.createHumioRepoAction.Some? { action.value := action.value.(id := resp.createHumioRepoAction.value.id); }
      } else if t == OpsGenieType {
        if resp.createOpsGenieAction.Some? { action.value := action.value.(id := resp.createOpsGenieAction.value.id); }
      } else if t == PagerDutyType {
        if resp.createPagerDutyAction.Some? { action.value := action.value.(id := resp.createPagerDutyAction.value.id); }
      } else if t == SlackType {
        if resp.createSlackAction.Some? { action.value := action.value.(id := resp.createSlackAction.value.id); }
      } else if t == SlackPostMessageType {
        if resp.createSlackPostMessageAction.Some? {
          action.value := action.value.(id := resp.createSlackPostMessageAction.value.id);
        }
      } else if t == VictorOpsType {
        if resp.createVictorOpsAction.Some? { action.value := action.value.(id := resp.createVictorOpsAction.value.id); }
      } else if t == WebhookType {
        if resp.createWebhookAction.Some? { action.value := action.value.(id := resp.createWebhookAction.value.id); }
      }
      return Ok(action);
    }

    method Update(repository: string, action: Ref<Action>) returns (r: Result<Ref<Action>>)
      modifies client
      ensures var (outcome, trace) := UpdateSpec(client.remote, old(client.trace), repository, action.value);
              client.trace == trace && Returns(r, outcome, action)
    {
      var variables := map["SearchDomainName" := Str(repository), "ID" := Str(action.value.id),
                           "Name" := Str(action.value.name)];
      var typed := InsertTypeVariables(action.value, variables);
      if typed.None? {
        return Err(UnsupportedActionType(action.value.actionType));
      }
      UpdateVariablesAsBuilt(repository, action.value);
      var reply := client.Query(UpdateMutation(action.value.actionType), typed.value, Some(UpdateActionResponse));
      if reply.Err? {
        return Err(reply.error);
      }
      return Ok(action);
    }

    method Delete(repository: string, actionID: string) returns (err: Option<Error>)
      modifies client
      ensures client.trace == old(client.trace) + [EncodeRequest(DeleteAction, DeleteVariables(repository, actionID))]
      ensures err == ErrorOf(Answer(client.remote, old(client.trace), DeleteAction,
                                    DeleteVariables(repository, actionID), None))
    {
      var reply := client.Query(DeleteAction, map["SearchDomainName" := Str(repository), "ActionID" := Str(actionID)], None);
      return ErrorOf(reply);
    }
  }

  // ---------------------------------------------------------------------
  // Create, then list: the mapping round trip
  // ---------------------------------------------------------------------

  /** The listing entry that reports an action created from `vars`: each
      field the listing query selects reads the mutation argument of the same
      GraphQL input field, under the query's alias (`emailBodyTemplate:
      bodyTemplate`, `webhookUrl: url`, `opsGenieUseProxy: useProxy`, ...). */
  function ListedAs(actionType: string, id: string, vars: Vars): RawAction
  {
    var none := RawAction(actionType, id, StrAt(vars, "Name"), None, "", "", false, "", "", "", false,
                          "", "", false, "", false, [], "", None, false, "", "", false, "", "", [],
                          "", false, false);
    if actionType == EmailType then
      none.(recipients := StringsAt(vars, "Recipients"), subjectTemplate := StrAt(vars, "SubjectTemplate"),
            emailBodyTemplate := StrAt(vars, "BodyTemplate"), emailUseProxy := BoolAt(vars, "UseProxy"))
    else if actionType == HumioRepoType then
      none.(ingestToken := StrAt(vars, "IngestToken"))
    else if actionType == OpsGenieType then
      none.(apiUrl := StrAt(vars, "ApiUrl"), genieKey := StrAt(vars, "GenieKey"),
            opsGenieUseProxy := BoolAt(vars, "UseProxy"))
    else if actionType == PagerDutyType then
      none.(routingKey := StrAt(vars, "RoutingKey"), severity := StrAt(vars, "Severity"),
            pagerDutyUseProxy := BoolAt(vars, "UseProxy"))
    else if actionType == SlackType then
      none.(url := StrAt(vars, "Url"), fields := MapSeq(ListedField, ListAt(vars, "Fields")),
            slackUseProxy := BoolAt(vars, "UseProxy"))
    else if actionType == SlackPostMessageType then
      none.(apiToken := StrAt(vars, "ApiToken"), channels := StringsAt(vars, "Channels"),
            fields := MapSeq(ListedField, ListAt(vars, "Fields")), useProxy := BoolAt(vars, "UseProxy"))
    else if actionType == VictorOpsType then
      none.(messageType := StrAt(vars, "MessageType"), notifyUrl := StrAt(vars, "NotifyUrl"),
            victorOpsUseProxy := BoolAt(vars, "UseProxy"))
    else if actionType == WebhookType then
      none.(httpMethod := StrAt(vars, "Method"), webhookUrl := StrAt(vars, "Url"),
            headers := MapSeq(ListedHeader, ListAt(vars, "Headers")),
            webhookBodyTemplate := StrAt(vars, "BodyTemplate"), ignoreSSL := BoolAt(vars, "IgnoreSSL"),
            webhookUseProxy := BoolAt(vars, "UseProxy"))
    else none
  }

  function ListedField(v: Value): RawSlackField
  {
    RawSlackField(StrAt(MembersOf(v), "fieldName"), StrAt(MembersOf(v), "value"))
  }

  function ListedHeader(v: Value): RawHeader
  {
    RawHeader(StrAt(MembersOf(v), "header"), StrAt(MembersOf(v), "value"))
  }

  lemma SlackFieldsRoundTrip(fields: seq<SlackField>)
    ensures MapSeq(DecodeSlackField, MapSeq(ListedField, MapSeq(SlackFieldValue, fields))) == fields
  {
    var back := MapSeq(DecodeSlackField, MapSeq(ListedField, MapSeq(SlackFieldValue, fields)));
    forall i | 0 <= i < |fields| ensures back[i] == fields[i] {
      assert MembersOf(SlackFieldValue(fields[i])) == map["fieldName" := Str(fields[i].fieldName), "value" := Str(fields[i].value)];
    }
  }

  lemma HeadersRoundTrip(headers: seq<HttpHeader>)
    ensures MapSeq(DecodeHeader, MapSeq(ListedHeader, MapSeq(HeaderValue, headers))) == headers
  {
    var back := MapSeq(DecodeHeader, MapSeq(ListedHeader, MapSeq(HeaderValue, headers)));
    forall i | 0 <= i < |headers| ensures back[i] == headers[i] {
      assert MembersOf(HeaderValue(headers[i])) == map["header" := Str(headers[i].header), "value" := Str(headers[i].value)];
    }
  }

  /** An action sent by `Add` and then reported by `List` decodes to the
      action sent, with the ID the remote assigned. */
  lemma CreateThenListRoundTrip(repository: string, a: Action, id: string)
    requires IsSupported(a.actionType) && OnlyOwnSubRecord(a)
    ensures DecodeAction(ListedAs(a.actionType, id, CreateVariables(repository, a))) == a.(id := id)
  {
    var base := map["SearchDomainName" := Str(repository), "Name" := Str(a.name)];
    assert CreateVariables(repository, a) == base + TypeVariables(a);
    var t := a.actionType;
    if t == EmailType {
      EmailRoundTrip(base, a, id);
    } else if t == HumioRepoType {
      HumioRepoRoundTrip(base, a, id);
    } else if t == OpsGenieType {
      OpsGenieRoundTrip(base, a, id);
    } else if t == PagerDutyType {
      PagerDutyRoundTrip(base, a, id);
    } else if t == SlackType {
      SlackRoundTrip(base, a, id);
    } else if t == SlackPostMessageType {
      SlackPostMessageRoundTrip(base, a, id);
    } else if t == VictorOpsType {
      VictorOpsRoundTrip(base, a, id);
    } else {
      WebhookRoundTrip(base, a, id);
    }
  }

  lemma HumioRepoRoundTrip(base: Vars, a: Action, id: string)
    requires a.actionType == HumioRepoType && OnlyOwnSubRecord(a)
    requires base.Keys == {"SearchDomainName", "Name"} && base["Name"] == Str(a.name)
    ensures DecodeAction(ListedAs(HumioRepoType, id, base + HumioRepoVariables(a.humioRepo))) == a.(id := id)
  {
  }

  lemma OpsGenieRoundTrip(base: Vars, a: Action, id: string)
    requires a.actionType == OpsGenieType && OnlyOwnSubRecord(a)
    requires base.Keys == {"SearchDomainName", "Name"} && base["Name"] == Str(a.name)
    ensures DecodeAction(ListedAs(OpsGenieType, id, base + OpsGenieVariables(a.opsGenie))) == a.(id := id)
  {
  }

  lemma PagerDutyRoundTrip(base: Vars, a: Action, id: string)
    requires a.actionType == PagerDutyType && OnlyOwnSubRecord(a)
    requires base.Keys == {"SearchDomainName", "Name"} && base["Name"] == Str(a.name)
    ensures DecodeAction(ListedAs(PagerDutyType, id, base + PagerDutyVariables(a.pagerDuty))) == a.(id := id)
  {
  }

  lemma VictorOpsRoundTrip(base: Vars, a: Action, id: string)
    requires a.actionType == VictorOpsType && OnlyOwnSubRecord(a)
    requires base.Keys == {"SearchDomainName", "Name"} && base["Name"] == Str(a.name)
    ensures DecodeAction(ListedAs(VictorOpsType, id, base + VictorOpsVariables(a.victorOps))) == a.(id := id)
  {
  }

  lemma EmailRoundTrip(base: Vars, a: Action, id: string)
    requires a.actionType == EmailType && OnlyOwnSubRecord(a)
    requires base.Keys == {"SearchDomainName", "Name"} && base["Name"] == Str(a.name)
    ensures DecodeAction(ListedAs(EmailType, id, base + EmailVariables(a.email))) == a.(id := id)
  {
    var e := a.email;
    var vars := base + EmailVariables(e);
    assert StrAt(vars, "SubjectTemplate") == e.subjectTemplate;
    assert StrAt(vars, "BodyTemplate") == e.bodyTemplate;
    assert StringsAt(vars, "Recipients") == e.recipients by { StringsRoundTrip(e.recipients); }
    assert BoolAt(vars, "UseProxy") == e.useProxy;
    var back := DecodeAction(ListedAs(EmailType, id, vars));
    assert back.email == e;
  }

  lemma SlackRoundTrip(base: Vars, a: Action, id: string)
    requires a.actionType == SlackType && OnlyOwnSubRecord(a)
    requires base.Keys == {"SearchDomainName", "Name"} && base["Name"] == Str(a.name)
    ensures DecodeAction(ListedAs(SlackType, id, base + SlackVariables(a.slack))) == a.(id := id)
  {
    var vars := base + SlackVariables(a.slack);
    assert ListAt(vars, "Fields") == MapSeq(SlackFieldValue, a.slack.fields);
    SlackFieldsRoundTrip(a.slack.fields);
    var back := DecodeAction(ListedAs(SlackType, id, vars));
    assert back.slack == a.slack;
  }

  lemma SlackPostMessageRoundTrip(base: Vars, a: Action, id: string)
    requires a.actionType == SlackPostMessageType && OnlyOwnSubRecord(a)
    requires base.Keys == {"SearchDomainName", "Name"} && base["Name"] == Str(a.name)
    ensures DecodeAction(ListedAs(SlackPostMessageType, id, base + SlackPostMessageVariables(a.slackPostMessage)))
            == a.(id := id)
  {
    var m := a.slackPostMessage;
    var vars := base + SlackPostMessageVariables(m);
    assert ListAt(vars, "Fields") == MapSeq(SlackFieldValue, m.fields);
    SlackFieldsRoundTrip(m.fields);
    assert StringsAt(vars, "Channels") == m.channels by { StringsRoundTrip(m.channels); }
    var back := DecodeAction(ListedAs(SlackPostMessageType, id, vars));
    assert back.slackPostMessage == m;
  }

  lemma WebhookRoundTrip(base: Vars, a: Action, id: string)
    requires a.actionType == WebhookType && OnlyOwnSubRecord(a)
    requires base.Keys == {"SearchDomainName", "Name"} && base["Name"] == Str(a.name)
    ensures DecodeAction(ListedAs(WebhookType, id, base + WebhookVariables(a.webhook))) == a.(id := id)
  {
    var vars := base + WebhookVariables(a.webhook);
    WebhookVariablesRead(base, a.webhook);
    HeadersRoundTrip(a.webhook.headers);
    var back := DecodeAction(ListedAs(WebhookType, id, vars));
    assert back.webhook == a.webhook;
  }

  /** Each webhook field is read back from its own key. */
  lemma WebhookVariablesRead(base: Vars, w: WebhookAction)
    requires base.Keys == {"SearchDomainName", "Name"}
    ensures var vars := base + WebhookVariables(w);
            && StrAt(vars, "Method") == w.httpMethod && StrAt(vars, "Url") == w.url
            && ListAt(vars, "Headers") == MapSeq(HeaderValue, w.headers)
            && StrAt(vars, "BodyTemplate") == w.bodyTemplate
            && BoolAt(vars, "IgnoreSSL") == w.ignoreSSL && BoolAt(vars, "UseProxy") == w.useProxy
  {
  }

  /** The same holds for an action sent by `Update`, which keeps its ID. */
  lemma UpdateThenListRoundTrip(repository: string, a: Action)
    requires IsSupported(a.actionType) && OnlyOwnSubRecord(a)
    ensures DecodeAction(ListedAs(a.actionType, a.id, UpdateVariables(repository, a))) == a
  {
    var create := CreateVariables(repository, a);
    ListedAsIgnoresId(a.actionType, a.id, create, Str(a.id));
    CreateThenListRoundTrip(repository, a, a.id);
  }

  /** The listing reports no `ID` argument: the ID is the remote's. */
  lemma ListedAsIgnoresId(actionType: string, id: string, vars: Vars, v: Value)
    ensures ListedAs(actionType, id, vars["ID" := v]) == ListedAs(actionType, id, vars)
  {
    var w := vars["ID" := v];
    ReadIgnoresId(vars, v, "Name");
    ReadIgnoresId(vars, v, "UseProxy");
    if actionType == EmailType {
      ReadIgnoresId(vars, v, "Recipients");
      ReadIgnoresId(vars, v, "SubjectTemplate");
      ReadIgnoresId(vars, v, "BodyTemplate");
    } else if actionType == HumioRepoType {
      ReadIgnoresId(vars, v, "IngestToken");
    } else if actionType == OpsGenieType {
      ReadIgnoresId(vars, v, "ApiUrl");
      ReadIgnoresId(vars, v, "GenieKey");
    } else if actionType == PagerDutyType {
      ReadIgnoresId(vars, v, "RoutingKey");
      ReadIgnoresId(vars, v, "Severity");
    } else if actionType == SlackType {
      ReadIgnoresId(vars, v, "Url");
      ReadIgnoresId(vars, v, "Fields");
    } else if actionType == SlackPostMessageType {
      ReadIgnoresId(vars, v, "ApiToken");
      ReadIgnoresId(vars, v, "Channels");
      ReadIgnoresId(vars, v, "Fields");
    } else if actionType == VictorOpsType {
      ReadIgnoresId(vars, v, "MessageType");
      ReadIgnoresId(vars, v, "NotifyUrl");
    } else if actionType == WebhookType {
      ReadIgnoresId(vars, v, "Method");
      ReadIgnoresId(vars, v, "Url");
      ReadIgnoresId(vars, v, "Headers");
      ReadIgnoresId(vars, v, "BodyTemplate");
      ReadIgnoresId(vars, v, "IgnoreSSL");
    }
  }

  /** Reading any other argument is unaffected by an `ID` entry. */
  lemma ReadIgnoresId(vars: Vars, v: Value, key: string)
    requires key != "ID"
    ensures StrAt(vars["ID" := v], key) == StrAt(vars, key)
    ensures BoolAt(vars["ID" := v], key) == BoolAt(vars, key)
    ensures ListAt(vars["ID" := v], key) == ListAt(vars, key)
    ensures StringsAt(vars["ID" := v], key) == StringsAt(vars, key)
  {
  }
}
