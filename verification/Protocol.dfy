/** The single-invocation adapter protocol: requests, responses and their JSON form. */
module Protocol {
  import opened Wrappers

  const PROTOCOL_VERSION: U32 := 1

  type U32 = n: int | 0 <= n < 0x1_0000_0000

  datatype Json =
    | Null
    | Bool(b: bool)
    | Number(n: int)
    | String(s: string)
    | Array(items: seq<Json>)
    | Object(fields: map<string, Json>)
  {
    /** A member, or nothing when this is no object or lacks the key. */
    function Get(key: string): Option<Json> {
      if Object? && key in fields then Some(fields[key]) else None
    }

    /** Indexing: an absent member reads as null. */
    function At(key: string): Json {
      if Object? && key in fields then fields[key] else Null
    }

    function AsStr(): Option<string> {
      if String? then Some(s) else None
    }

    function AsInt(): Option<int> {
      if Number? then Some(n) else None
    }
  }

  datatype Status = Ready | Changed | Pending | Failed | Unsupported

  datatype AdapterResponse = AdapterResponse(
    protocolVersion: U32, requestId: string, status: Status, data: Json,
    error: Option<string>, executionId: Option<string>)
  {
    predicate Complete() {
      status.Ready? || status.Changed?
    }
  }

  datatype Target = Target(
    environment: string, host: string, address: Option<string>, directory: string,
    system: string, source: string, profiles: seq<string>)

  datatype AdapterRequest = AdapterRequest(
    protocolVersion: U32, requestId: string, extension: string, operation: string,
    target: Target, config: Json, input: Json, previous: Option<Json>)

  function NewResponse(request: AdapterRequest, status: Status, data: Json): AdapterResponse {
    AdapterResponse(PROTOCOL_VERSION, request.requestId, status, data, None, None)
  }

  function StatusName(status: Status): string {
    match status
    case Ready => "ready"
    case Changed => "changed"
    case Pending => "pending"
    case Failed => "failed"
    case Unsupported => "unsupported"
  }

  function StatusNamed(name: string): Option<Status> {
    if name == "ready" then Some(Ready)
    else if name == "changed" then Some(Changed)
    else if name == "pending" then Some(Pending)
    else if name == "failed" then Some(Failed)
    else if name == "unsupported" then Some(Unsupported)
    else None
  }

  function EncodeText(text: Option<string>): Json {
    if text.Some? then String(text.value) else Null
  }

  /** An optional text field: null and absence both read as nothing. */
  function DecodeText(value: Option<Json>): Option<Option<string>> {
    match value
    case None => Some(None)
    case Some(Null) => Some(None)
    case Some(String(text)) => Some(Some(text))
    case Some(_) => None
  }

  function EncodeTexts(texts: seq<string>): seq<Json> {
    seq(|texts|, i requires 0 <= i < |texts| => String(texts[i]))
  }

  function DecodeTexts(items: seq<Json>): Option<seq<string>> {
    if items == [] then Some([])
    else
      var rest := DecodeTexts(items[1..]);
      if items[0].String? && rest.Some? then Some([items[0].s] + rest.value) else None
  }

  function DecodeVersion(value: Json): Option<U32> {
    if value.Number? && 0 <= value.n < 0x1_0000_0000 then Some(value.n) else None
  }

  function EncodeResponse(response: AdapterResponse): Json {
    Object(map[
      "protocol_version" := Number(response.protocolVersion),
      "request_id" := String(response.requestId),
      "status" := String(StatusName(response.status)),
      "data" := response.data,
      "error" := EncodeText(response.error),
      "execution_id" := EncodeText(response.executionId)])
  }

  const RESPONSE_FIELDS: set<string> :=
    {"protocol_version", "request_id", "status", "data", "error", "execution_id"}

  /** Unknown fields are refused, as `deny_unknown_fields` says. */
  function DecodeResponse(value: Json): Option<AdapterResponse> {
    if !value.Object? || !(value.fields.Keys <= RESPONSE_FIELDS) || "data" !in value.fields then None
    else
      var version := DecodeVersion(value.At("protocol_version"));
      var requestId := value.At("request_id").AsStr();
      var statusName := value.At("status").AsStr();
      var error := DecodeText(value.Get("error"));
      var executionId := DecodeText(value.Get("execution_id"));
      if version.None? || requestId.None? || statusName.None? || error.None? || executionId.None? then None
      else
        var status := StatusNamed(statusName.value);
        if status.None? then None
        else Some(AdapterResponse(version.value, requestId.value, status.value,
                                  value.fields["data"], error.value, executionId.value))
  }

  function EncodeTarget(target: Target): Json {
    Object(map[
      "environment" := String(target.environment),
      "host" := String(target.host),
      "address" := EncodeText(target.address),
      "directory" := String(target.directory),
      "system" := String(target.system),
      "source" := String(target.source),
      "profiles" := Array(EncodeTexts(target.profiles))])
  }

  const TARGET_FIELDS: set<string> :=
    {"environment", "host", "address", "directory", "system", "source", "profiles"}

  function DecodeTarget(value: Json): Option<Target> {
    if !value.Object? || !(value.fields.Keys <= TARGET_FIELDS) then None
    else
      var environment := value.At("environment").AsStr();
      var host := value.At("host").AsStr();
      var address := DecodeText(value.Get("address"));
      var directory := value.At("directory").AsStr();
      var system := value.At("system").AsStr();
      var source := value.At("source").AsStr();
      var profiles :=
        if "profiles" !in value.fields then Some([])
        else if value.fields["profiles"].Array? then DecodeTexts(value.fields["profiles"].items)
        else None;
      if environment.None? || host.None? || address.None? || directory.None? || system.None?
         || source.None? || profiles.None? then None
      else Some(Target(environment.value, host.value, address.value, directory.value,
                       system.value, source.value, profiles.value))
  }

  function EncodeRequest(request: AdapterRequest): Json {
    Object(map[
      "protocol_version" := Number(request.protocolVersion),
      "request_id" := String(request.requestId),
      "extension" := String(request.extension),
      "operation" := String(request.operation),
      "target" := EncodeTarget(request.target),
      "config" := request.config,
      "input" := request.input,
      "previous" := if request.previous.Some? then request.previous.value else Null])
  }

  const REQUEST_FIELDS: set<string> :=
    {"protocol_version", "request_id", "extension", "operation", "target", "config", "input", "previous"}

  /** A null `previous` reads as no previous; `config` and `input` default to null. */
  function DecodeRequest(value: Json): Option<AdapterRequest> {
    if !value.Object? || !(value.fields.Keys <= REQUEST_FIELDS) then None
    else
      var version := DecodeVersion(value.At("protocol_version"));
      var requestId := value.At("request_id").AsStr();
      var extension := value.At("extension").AsStr();
      var operation := value.At("operation").AsStr();
      var target := DecodeTarget(value.At("target"));
      var previous := value.At("previous");
      if version.None? || requestId.None? || extension.None? || operation.None? || target.None? then None
      else Some(AdapterRequest(version.value, requestId.value, extension.value, operation.value,
                               target.value, value.At("config"), value.At("input"),
                               if previous.Null? then None else Some(previous)))
  }

  lemma {:induction false} TextsRoundTrip(texts: seq<string>)
    ensures DecodeTexts(EncodeTexts(texts)) == Some(texts)
  {
    if texts != [] {
      assert EncodeTexts(texts)[1..] == EncodeTexts(texts[1..]);
      TextsRoundTrip(texts[1..]);
      assert [texts[0]] + texts[1..] == texts;
    }
  }

  lemma TargetRoundTrip(target: Target)
    ensures DecodeTarget(EncodeTarget(target)) == Some(target)
  {
    TextsRoundTrip(target.profiles);
    var value := EncodeTarget(target);
    assert value.At("profiles") == Array(EncodeTexts(target.profiles));
  }

  /** Every response survives its JSON form. */
  lemma ResponseRoundTrip(response: AdapterResponse)
    ensures DecodeResponse(EncodeResponse(response)) == Some(response)
  {
    var value := EncodeResponse(response);
    assert value.At("status") == String(StatusName(response.status));
    assert StatusNamed(StatusName(response.status)) == Some(response.status);
  }

  lemma RequestDecodes(request: AdapterRequest)
    ensures DecodeRequest(EncodeRequest(request))
         == Some(if request.previous == Some(Null) then request.(previous := None) else request)
  {
    TargetRoundTrip(request.target);
    var value := EncodeRequest(request);
    assert value.fields.Keys == REQUEST_FIELDS;
    assert value.At("target") == EncodeTarget(request.target);
  }

  /** A request survives its JSON form exactly when its `previous` is not an explicit null. */
  lemma RequestRoundTrip(request: AdapterRequest)
    ensures DecodeRequest(EncodeRequest(request)) == Some(request) <==> request.previous != Some(Null)
  {
    RequestDecodes(request);
  }
}
