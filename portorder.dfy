/**
 * The PortOrder external client: connecting (the credential-to-middleware
 * decision), and the Observe / Create / Update / Delete operations the managed
 * reconciler drives.
 *
 * The HTTP client's `Do` is an input (`DoOutcome`: a transport error or a
 * response), `json.Unmarshal` of the credentials and of the response body is an
 * input decode function, and the clock reading is an input instant.
 */
module PortOrderController {
  import opened Wrappers
  import opened PortOrderTypes

  newtype byte = b: int | 0 <= b < 256

  // ---------------------------------------------------------------------------
  // Wire types
  // ---------------------------------------------------------------------------

  /** A port in the API's format. */
  datatype PortEntry = PortEntry(Protocol: string, Port: int)

  datatype OrderPayload = OrderPayload(Source: string, Destination: string, Ports: seq<PortEntry>)

  /** The request body, before JSON encoding. */
  datatype OrderRequest = OrderRequest(Order: OrderPayload)

  /** The response body after decoding. */
  datatype OrderResponse = OrderResponse(OrderID: string, Status: string)

  datatype RetryPolicy = RetryPolicy(MaxAttempts: int, BackoffSeconds: int)

  datatype Request = Request(
    URL: string,
    Method: string,
    Headers: map<string, string>,
    Body: OrderRequest,
    RetryPolicy: RetryPolicy)

  datatype Response = Response(StatusCode: int, Body: seq<byte>)

  /** What the HTTP client's Do returned: an error, or a response of any status. */
  datatype DoOutcome = Failed(cause: string) | Received(resp: Response)

  /** The errors the connector and the external client return. */
  datatype ControllerError =
    | TrackUsageFailed(cause: string)
    | GetProviderConfigFailed(cause: string)
    | GetCredentialsFailed(cause: string)
    | ParseCredentialsFailed
    | CreateOrderFailed(cause: string)
    | UnexpectedStatus(code: int, body: seq<byte>)
    | UnmarshalFailed

  /** What Observe reports to the reconciler. */
  datatype ExternalObservation = ExternalObservation(ResourceExists: bool, ResourceUpToDate: bool)

  const RequestIDHeader := "X-Request-ID"
  const RequestIDPrefix := "crossplane-"
  /** The annotation crossplane-runtime keeps the external name under. */
  const ExternalNameAnnotation := "crossplane.io/external-name"
  const CreateRetryPolicy := RetryPolicy(3, 2)

  // ---------------------------------------------------------------------------
  // Port conversion
  // ---------------------------------------------------------------------------

  /** Upper-case of one character; only ASCII letters change. */
  function UpperChar(c: char): char {
    if 'a' <= c <= 'z' then (c as int - 'a' as int + 'A' as int) as char else c
  }

  /** `strings.ToUpper`, character by character. */
  function ToUpper(s: string): (r: string)
    ensures |r| == |s|
    ensures forall i :: 0 <= i < |s| ==> r[i] == UpperChar(s[i])
  {
    if s == [] then [] else [UpperChar(s[0])] + ToUpper(s[1..])
  }

  /** The two protocol types the spec allows map to the API's names. */
  lemma ProtocolNames()
    ensures ToUpper("tcp") == "TCP"
    ensures ToUpper("udp") == "UDP"
  {
    assert ToUpper("tcp") == [UpperChar('t'), UpperChar('c'), UpperChar('p')];
    assert ToUpper("udp") == [UpperChar('u'), UpperChar('d'), UpperChar('p')];
  }

  /** entries is ports converted element by element, in the same order. */
  predicate IsConversionOf(entries: seq<PortEntry>, ports: seq<PortParameters>) {
    && |entries| == |ports|
    && forall i :: 0 <= i < |ports| ==>
         entries[i].Protocol == ToUpper(ports[i].Type) && entries[i].Port == ports[i].Number
  }

  /** A conversion of valid ports carries only TCP and UDP entries with ports in 1..65535,
      and tcp becomes TCP, udp becomes UDP. */
  lemma ConvertedValidPorts(entries: seq<PortEntry>, ports: seq<PortParameters>, i: int)
    requires IsConversionOf(entries, ports)
    requires forall j :: 0 <= j < |ports| ==> ValidPort(ports[j])
    requires 0 <= i < |entries|
    ensures ports[i].Type == "tcp" ==> entries[i].Protocol == "TCP"
    ensures ports[i].Type == "udp" ==> entries[i].Protocol == "UDP"
    ensures entries[i].Protocol in {"TCP", "UDP"}
    ensures 1 <= entries[i].Port <= 65535
  {
    ProtocolNames();
    assert ValidPort(ports[i]);
  }

  /** For a spec that passed validation the request carries at least one port,
      every one TCP or UDP with a number in 1..65535. */
  lemma {:induction false} ValidSpecConverts(params: PortOrderParameters, entries: seq<PortEntry>)
    requires ValidParameters(params)
    requires IsConversionOf(entries, Elements(params.Ports))
    ensures |entries| >= 1
    ensures forall i :: 0 <= i < |entries| ==>
      entries[i].Protocol in {"TCP", "UDP"} && 1 <= entries[i].Port <= 65535
  {
    var ports := Elements(params.Ports);
    forall i | 0 <= i < |entries|
      ensures entries[i].Protocol in {"TCP", "UDP"} && 1 <= entries[i].Port <= 65535
    {
      ConvertedValidPorts(entries, ports, i);
    }
  }

  /** The configuration the connector hands to the external client. */
  datatype Middleware = Logging | Json | Auth(authType: string, credentials: string)

  /** The credential payload after decoding (absent keys decode as empty). */
  datatype CredentialConfig = CredentialConfig(AuthType: string, Credentials: string, Headers: map<string, string>)

  datatype ClientConfig = ClientConfig(Middleware: seq<Middleware>, DefaultHeaders: map<string, string>)

  const EmptyCredentials := CredentialConfig("", "", map[])

  /** The middleware chain: logging and JSON always, authentication only when
      both an auth type and a credential are configured. */
  function MiddlewareFor(config: CredentialConfig): (r: seq<Middleware>)
    ensures |r| >= 2 && r[0] == Logging && r[1] == Json
    ensures |r| == 3 <==> config.AuthType != "" && config.Credentials != ""
    ensures |r| != 3 ==> |r| == 2
    ensures |r| == 3 ==> r[2] == Auth(config.AuthType, config.Credentials)
  {
    [Logging, Json] + if config.AuthType != "" && config.Credentials != "" then [Auth(config.AuthType, config.Credentials)] else []
  }

  /** The part of `connector.Connect` after the Kubernetes calls. Their
      outcomes are inputs: a usage-tracking error, a ProviderConfig lookup
      error, and the extracted credential bytes or the extraction error. An
      empty payload means an unauthenticated client; a non-empty one must decode. */
  function Connect(
    trackErr: Option<string>,
    getConfigErr: Option<string>,
    credentials: Result<seq<byte>, string>,
    decode: seq<byte> -> Option<CredentialConfig>): (r: Result<ClientConfig, ControllerError>)
    ensures trackErr.Some? ==> r == Failure(TrackUsageFailed(trackErr.value))
    ensures trackErr.None? && getConfigErr.Some? ==> r == Failure(GetProviderConfigFailed(getConfigErr.value))
    ensures trackErr.None? && getConfigErr.None? && credentials.Failure? ==>
      r == Failure(GetCredentialsFailed(credentials.error))
    ensures r.Failure? && r.error == ParseCredentialsFailed <==>
      trackErr.None? && getConfigErr.None? && credentials.Success?
      && |credentials.value| > 0 && decode(credentials.value).None?
    ensures r.Success? <==>
      trackErr.None? && getConfigErr.None? && credentials.Success?
      && (|credentials.value| == 0 || decode(credentials.value).Some?)
    ensures r.Success? && |credentials.value| == 0 ==> r.value == ClientConfig([Logging, Json], map[])
    ensures r.Success? && |credentials.value| > 0 ==>
      var c := decode(credentials.value).value;
      r.value == ClientConfig(MiddlewareFor(c), c.Headers)
  {
    if trackErr.Some? then Failure(TrackUsageFailed(trackErr.value))
    else if getConfigErr.Some? then Failure(GetProviderConfigFailed(getConfigErr.value))
    else if credentials.Failure? then Failure(GetCredentialsFailed(credentials.error))
    else
      var data := credentials.value;
      var parsed := if |data| > 0 then decode(data) else Some(EmptyCredentials);
      if parsed.None? then Failure(ParseCredentialsFailed)
      else Success(ClientConfig(MiddlewareFor(parsed.value), parsed.value.Headers))
  }

  // ---------------------------------------------------------------------------
  // Create as a transition on the persisted status
  // ---------------------------------------------------------------------------

  /** The part of a PortOrder that Create may write: the observation (the time
      as its instant) and the annotations that hold the external name. */
  datatype CreateState = CreateState(
    OrderID: string,
    Status: string,
    LastRequestTime: Option<int>,
    LastResponseStatus: int,
    Annotations: map<string, string>)

  datatype CreateStep = CreateStep(state: CreateState, err: Option<ControllerError>)

  function StateOf(cr: PortOrder): CreateState {
    var obs := cr.Status.AtProvider;
    CreateState(
      obs.OrderID, obs.Status,
      if obs.LastRequestTime == null then None else Some(obs.LastRequestTime.Instant),
      obs.LastResponseStatus, cr.Meta.Annotations)
  }

  predicate IsSuccessStatus(code: int) {
    code == 200 || code == 201
  }

  /** The effect of one Create on the status: the attempt is recorded once any
      response arrives, whatever its status; the order identifier, its status
      and the external name are committed only for a 200 or 201 whose body decodes. */
  function CreateTransition(
    s: CreateState,
    outcome: DoOutcome,
    decode: seq<byte> -> Option<OrderResponse>,
    now: int): (r: CreateStep)
    ensures outcome.Failed? ==> r == CreateStep(s, Some(CreateOrderFailed(outcome.cause)))
    ensures outcome.Received? ==>
      r.state.LastRequestTime == Some(now) && r.state.LastResponseStatus == outcome.resp.StatusCode
    ensures outcome.Received? && !IsSuccessStatus(outcome.resp.StatusCode) ==>
      r.err == Some(UnexpectedStatus(outcome.resp.StatusCode, outcome.resp.Body))
    ensures outcome.Received? && IsSuccessStatus(outcome.resp.StatusCode) && decode(outcome.resp.Body).None? ==>
      r.err == Some(UnmarshalFailed)
    ensures r.err.None? <==>
      outcome.Received? && IsSuccessStatus(outcome.resp.StatusCode) && decode(outcome.resp.Body).Some?
    ensures r.err.Some? ==>
      r.state.OrderID == s.OrderID && r.state.Status == s.Status && r.state.Annotations == s.Annotations
    ensures r.err.None? ==>
      var o := decode(outcome.resp.Body).value;
      && r.state.OrderID == o.OrderID
      && r.state.Status == o.Status
      && r.state.Annotations == s.Annotations[ExternalNameAnnotation := o.OrderID]
  {
    match outcome
    case Failed(cause) => CreateStep(s, Some(CreateOrderFailed(cause)))
    case Received(resp) =>
      var recorded := s.(LastRequestTime := Some(now), LastResponseStatus := resp.StatusCode);
      if !IsSuccessStatus(resp.StatusCode) then
        CreateStep(recorded, Some(UnexpectedStatus(resp.StatusCode, resp.Body)))
      else
        match decode(resp.Body)
        case None => CreateStep(recorded, Some(UnmarshalFailed))
        case Some(o) =>
          var committed := recorded.(
            OrderID := o.OrderID,
            Status := o.Status,
            Annotations := recorded.Annotations[ExternalNameAnnotation := o.OrderID]);
          CreateStep(committed, None)
  }

  /** A 201 with `{"orderId":"ord-123","status":"active"}` records the order. */
  lemma CreateRecordsOrder(s: CreateState, body: seq<byte>, now: int)
    ensures
      var r := CreateTransition(s, Received(Response(201, body)), _ => Some(OrderResponse("ord-123", "active")), now);
      && r.err.None?
      && r.state.OrderID == "ord-123" && r.state.Status == "active"
      && r.state.LastResponseStatus == 201
      && r.state.Annotations[ExternalNameAnnotation] == "ord-123"
  {
  }

  /** A 400 fails with the status and body and leaves a missing order missing. */
  lemma CreateRejected(s: CreateState, body: seq<byte>, decode: seq<byte> -> Option<OrderResponse>, now: int)
    requires s.OrderID == ""
    ensures
      var r := CreateTransition(s, Received(Response(400, body)), decode, now);
      r.err == Some(UnexpectedStatus(400, body)) && r.state.OrderID == ""
  {
  }

  /** A successful Create does not by itself make the order exist: a 200 whose
      body decodes without an orderId commits the empty identifier. */
  lemma SuccessWithoutOrderID(s: CreateState, body: seq<byte>, now: int)
    ensures
      var r := CreateTransition(s, Received(Response(200, body)), _ => Some(OrderResponse("", "")), now);
      r.err.None? && r.state.OrderID == ""
  {
  }

  // ---------------------------------------------------------------------------
  // The managed resource and the external client
  // ---------------------------------------------------------------------------

  /** The PortOrder object the reconciler passes by pointer; Create writes
      its status and annotations in place. */
  class Managed {
    var Obj: PortOrder

    constructor (obj: PortOrder)
      ensures Obj == obj
    {
      Obj := obj;
    }
  }

  /** The external client of one reconcile pass. */
  class External {
    const Middleware: seq<Middleware>
    const DefaultHeaders: map<string, string>

    constructor (config: ClientConfig)
      ensures Middleware == config.Middleware && DefaultHeaders == config.DefaultHeaders
    {
      Middleware := config.Middleware;
      DefaultHeaders := config.DefaultHeaders;
    }

    /** Existence is inferred from the persisted identifier alone: no order
        identifier means the order does not exist; any identifier means it
        exists and is up to date, whatever the rest of the object says. */
    function Observe(cr: Managed): (r: ExternalObservation)
      reads cr
      ensures r.ResourceExists <==> cr.Obj.Status.AtProvider.OrderID != ""
      ensures r.ResourceUpToDate <==> r.ResourceExists
    {
      if cr.Obj.Status.AtProvider.OrderID == "" then
        ExternalObservation(ResourceExists := false, ResourceUpToDate := false)
      else
        ExternalObservation(ResourceExists := true, ResourceUpToDate := true)
    }

    /** `convertPorts`: fills a new slice with one API entry per port, in order. */
    method ConvertPorts(ports: array?<PortParameters>) returns (result: seq<PortEntry>)
      ensures IsConversionOf(result, Elements(ports))
    {
      var n := if ports == null then 0 else ports.Length;
      var entries := new PortEntry[n];
      var i := 0;
      while i < n
        invariant 0 <= i <= n
        invariant forall j :: 0 <= j < i ==>
          entries[j] == PortEntry(ToUpper(ports[j].Type), ports[j].Number)
      {
        var p := ports[i];
        entries[i] := PortEntry(ToUpper(p.Type), p.Number);
        i := i + 1;
      }
      result := entries[..];
    }

    /** The request headers: a fresh map holding every default header, then the
        request id, which wins over a default of the same name. */
    method RequestHeaders(uid: string) returns (headers: map<string, string>)
      ensures headers.Keys == DefaultHeaders.Keys + {RequestIDHeader}
      ensures headers[RequestIDHeader] == RequestIDPrefix + uid
      ensures forall k :: k in DefaultHeaders && k != RequestIDHeader ==> headers[k] == DefaultHeaders[k]
    {
      headers := map[];
      var pending := DefaultHeaders.Keys;
      while pending != {}
        invariant pending <= DefaultHeaders.Keys
        invariant headers.Keys == DefaultHeaders.Keys - pending
        invariant forall k :: k in headers ==> headers[k] == DefaultHeaders[k]
        decreases pending
      {
        var k :| k in pending;
        headers := headers[k := DefaultHeaders[k]];
        pending := pending - {k};
      }
      headers := headers[RequestIDHeader := RequestIDPrefix + uid];
    }

    /** Sends the order and records the outcome in cr. Returns the request it
        sent and the error, if any. */
    method Create(
      cr: Managed,
      outcome: DoOutcome,
      decode: seq<byte> -> Option<OrderResponse>,
      now: int) returns (req: Request, err: Option<ControllerError>)
      modifies cr
      ensures var step := CreateTransition(old(StateOf(cr.Obj)), outcome, decode, now);
        StateOf(cr.Obj) == step.state && err == step.err
      ensures cr.Obj.Spec == old(cr.Obj.Spec)
      ensures cr.Obj.Meta.(Annotations := map[]) == old(cr.Obj.Meta.(Annotations := map[]))
      ensures outcome.Failed? ==> cr.Obj == old(cr.Obj)
      ensures outcome.Received? ==>
        cr.Obj.Status.AtProvider.LastRequestTime != null && fresh(cr.Obj.Status.AtProvider.LastRequestTime)
      ensures err.Some? ==> Observe(cr) == old(Observe(cr))
      ensures err.None? ==> (Observe(cr).ResourceExists <==> decode(outcome.resp.Body).value.OrderID != "")
      // the request sent
      ensures req.Method == "POST" && req.URL == cr.Obj.Spec.ForProvider.APIEndpoint
      ensures req.RetryPolicy == CreateRetryPolicy
      ensures req.Body.Order.Source == cr.Obj.Spec.ForProvider.Source
      ensures req.Body.Order.Destination == cr.Obj.Spec.ForProvider.Destination
      ensures IsConversionOf(req.Body.Order.Ports, Elements(cr.Obj.Spec.ForProvider.Ports))
      ensures req.Headers.Keys == DefaultHeaders.Keys + {RequestIDHeader}
      ensures req.Headers[RequestIDHeader] == RequestIDPrefix + cr.Obj.Meta.UID
      ensures forall k :: k in DefaultHeaders && k != RequestIDHeader ==> req.Headers[k] == DefaultHeaders[k]
    {
      var params := cr.Obj.Spec.ForProvider;
      var ports := ConvertPorts(params.Ports);
      var body := OrderRequest(OrderPayload(params.Source, params.Destination, ports));
      var headers := RequestHeaders(cr.Obj.Meta.UID);
      req := Request(params.APIEndpoint, "POST", headers, body, CreateRetryPolicy);

      if outcome.Failed? {
        return req, Some(CreateOrderFailed(outcome.cause));
      }
      var resp := outcome.resp;

      var stamp := new Time(now);
      var obs := cr.Obj.Status.AtProvider;
      cr.Obj := cr.Obj.WithAtProvider(obs.(LastRequestTime := stamp, LastResponseStatus := resp.StatusCode));

      if resp.StatusCode != 201 && resp.StatusCode != 200 {
        return req, Some(UnexpectedStatus(resp.StatusCode, resp.Body));
      }

      var decoded := decode(resp.Body);
      if decoded.None? {
        return req, Some(UnmarshalFailed);
      }
      var order := decoded.value;

      obs := cr.Obj.Status.AtProvider;
      cr.Obj := cr.Obj.WithAtProvider(obs.(OrderID := order.OrderID, Status := order.Status));

      var meta := cr.Obj.Meta;
      cr.Obj := cr.Obj.(Meta := meta.(Annotations := meta.Annotations[ExternalNameAnnotation := order.OrderID]));
      err := None;
    }

    /** Port orders are immutable once created: Update sends nothing and changes nothing. */
    method Update(cr: Managed) returns (err: Option<ControllerError>)
      ensures err == None
    {
      err := None;
    }

    /** Deletion is local only: no cancellation is sent and nothing changes. */
    method Delete(cr: Managed) returns (err: Option<ControllerError>)
      ensures err == None
    {
      err := None;
    }
  }
}
