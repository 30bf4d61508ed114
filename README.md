# PortOrder provider: a Dafny model

This project models the PortOrder managed resource of a Crossplane HTTP provider.
A PortOrder asks a remote orders API to open ports between two networks. Its
external client implements the managed reconciler's Observe / Create / Update /
Delete operations, and its API types carry the kubebuilder validation markers
and the hand-written deep copies.

The Dafny has three modules:

- `Wrappers` (`wrappers.dfy`): `Option` and `Result`. They stand for Go's nil-able values and `(value, error)` returns.
- `PortOrderTypes` (`portorder_types.dfy`): the API types.
  - Go structs are datatypes, so they behave as values.
  - A Go slice is an `array?`, where `null` is the nil slice.
  - The `*metav1.Time` of the observation is a `Time?`.
  - Keeping these references lets the deep-copy contracts say that the copy shares no storage with the original.
  - The validation markers are predicates:
    - `ValidPortType` is the `tcp|udp` enum.
    - `ValidPort` adds the 1..65535 range on the port number.
    - `ValidParameters` requires a non-nil, non-empty port list, and source and destination that match the address pattern.
    - `WithDefaults` applies the API endpoint default.
  - `MatchesAddressPattern` states the address pattern `^([0-9]{1,3}\.){3}[0-9]{1,3}(/[0-9]{1,2})?$` as a shape. `ParseAddress` decides it, and `ParseAddressDecides` proves the two agree.
- `PortOrderController` (`portorder.dfy`): the controller.
  - The `External` class holds the connector's default headers. Observe, Create, Update and Delete are its members.
  - `Managed` is the PortOrder object that Create updates in place.
  - Create records the attempt as soon as a response arrives. It commits the order identifier, the order status and the external-name annotation only when the status is 200 or 201 and the body decodes.
  - `CreateTransition` states this rule as a function over the fields Create may write. `External.Create` is proved to make exactly that change.

Inputs stand in for I/O:
- The HTTP client's `Do` is a `DoOutcome`: either a transport error or a `(status, body)` response.
- `json.Unmarshal` is a decode function passed in as a parameter.
- `meta.Now()` is an integer instant passed in.
- In `Connect`, the Kubernetes calls become inputs: the usage-tracking result, the ProviderConfig lookup result and the credential extraction result.

Three behaviours of the code that are easy to misread:
- **A 200 or 201 without an `orderId` counts as success.** Such a body still decodes, so Create commits `OrderID == ""`. Observe then keeps reporting the order as absent. `SuccessWithoutOrderID` shows this. So the model does not claim that a successful Create leaves a non-empty identifier.
- **Credentials have no timeout.** The decoded credential payload holds only an auth type, a credential and headers, and `Connect` passes no timeout to the HTTP client.
- **Octets are not range-checked.** The address pattern does not bound an octet to 0..255 or the prefix length to 0..32 (`OctetsNotRangeChecked`).

## Model

| member | source | states |
|---|---|---|
| `PortOrderController.ToUpper` | internal/controller/network/portorder.go:286 | the result has the input's length, and each character is the upper-case of the input character at the same position |
| `PortOrderController.ProtocolNames` | internal/controller/network/portorder.go:285-288 | `tcp` becomes `TCP` and `udp` becomes `UDP` |
| `PortOrderController.External.ConvertPorts` | internal/controller/network/portorder.go:282-291 | the result has one entry per input port, in the same order; entry i has `Protocol == ToUpper(Type)` and `Port == Number` of port i; a nil slice gives no entries |
| `PortOrderController.ConvertedValidPorts` | internal/controller/network/portorder.go:284-289 | converting a valid port gives protocol `TCP` (from `tcp`) or `UDP` (from `udp`) and a port number in 1..65535 |
| `PortOrderController.ValidSpecConverts` | apis/network/v1alpha1/portorder_types.go:29-56 | for a spec that passes validation, the converted ports are non-empty and each is TCP or UDP with a number in 1..65535 |
| `PortOrderController.MiddlewareFor` | internal/controller/network/portorder.go:137-147 | the chain always starts with logging then JSON; it has a third auth middleware, carrying the auth type and credential, exactly when both are non-empty |
| `PortOrderController.Connect` | internal/controller/network/portorder.go:103-156 | the steps fail in order: usage tracking, then ProviderConfig lookup, then credential extraction, then decoding of a non-empty payload; a client is returned exactly when none of these fails; an empty payload gives an unauthenticated client with no default headers; otherwise the client's middleware and default headers come from the decoded credentials |
| `PortOrderController.External.constructor` | internal/controller/network/portorder.go:151-155 | the client keeps the connector's middleware and its default headers |
| `PortOrderController.External.Observe` | internal/controller/network/portorder.go:165-185 | reports the order as existing exactly when OrderID is non-empty, and as up to date exactly when it exists; no other field is consulted and nothing changes |
| `PortOrderController.External.RequestHeaders` | internal/controller/network/portorder.go:210-215 | the keys are the default keys plus `X-Request-ID`; `X-Request-ID` is `crossplane-` followed by the UID, even when a default has the same key; every other default is copied unchanged; the defaults themselves are immutable |
| `PortOrderController.CreateTransition` | internal/controller/network/portorder.go:229-259 | a transport error changes nothing and reports the error; any response sets LastRequestTime to now and LastResponseStatus to the status code; a non-200/201 status gives UnexpectedStatus with the status and body; an undecodable body gives UnmarshalFailed; on any error OrderID, Status and the annotations are unchanged; success happens exactly on 200/201 with a decodable body, and then OrderID, Status and the external-name annotation take the decoded values |
| `PortOrderController.External.Create` | internal/controller/network/portorder.go:187-260 | the resource's new status and annotations, and the returned error, are what CreateTransition gives for the old ones; spec, name and UID are unchanged; a transport error leaves the whole object unchanged; a received response stores a newly allocated time; the request sent is a POST to the API endpoint with retry policy (3 attempts, 2 s backoff), source, destination, the converted ports and the request-id headers; after a failure Observe reports what it did before |
| `PortOrderController.CreateRecordsOrder` | internal/controller/network/portorder.go:246-257 | a 201 whose body decodes to `ord-123`/`active` succeeds, storing that OrderID and Status, status code 201 and external name `ord-123` |
| `PortOrderController.CreateRejected` | internal/controller/network/portorder.go:240-244 | a 400 fails with UnexpectedStatus(400, body), and an empty OrderID stays empty |
| `PortOrderController.SuccessWithoutOrderID` | internal/controller/network/portorder.go:246-257 | a 200 whose body decodes without an orderId succeeds but leaves OrderID empty |
| `PortOrderController.External.Update` | internal/controller/network/portorder.go:262-266 | always returns no error; with no modifies clause, it cannot change the resource |
| `PortOrderController.External.Delete` | internal/controller/network/portorder.go:268-279 | always returns no error, sends nothing and changes nothing |
| `PortOrderTypes.ValidPortType` | apis/network/v1alpha1/portorder_types.go:31-33 | a port type is admitted exactly when it is `tcp` or `udp` |
| `PortOrderTypes.ValidPort` | apis/network/v1alpha1/portorder_types.go:29-39 | a port is admitted exactly when its type is admitted and its number is between 1 and 65535 inclusive |
| `PortOrderTypes.MatchesAddressPattern` | apis/network/v1alpha1/portorder_types.go:45 | a string matches exactly when it is three groups of 1 to 3 ASCII digits each followed by `.`, then 1 to 3 digits, then optionally `/` and 1 or 2 digits, and nothing else; the numeric values are not checked |
| `PortOrderTypes.ValidParameters` | apis/network/v1alpha1/portorder_types.go:42-56 | the parameters are admitted exactly when source and destination both match the address pattern, the port list is present (non-nil) with at least one item, and every item is an admitted port |
| `PortOrderTypes.ValidParametersExample` | apis/network/v1alpha1/portorder_types.go:42-56 | a spec with source and destination `10.0.0.1` and the single port tcp/80 is admitted |
| `PortOrderTypes.WithDefaults` | apis/network/v1alpha1/portorder_types.go:58-61 | an omitted API endpoint (empty once decoded) is replaced by the default `https://api.example.com/orders`; a non-empty one and every other field are kept |
| `PortOrderTypes.DigitPrefixLength` | apis/network/v1alpha1/portorder_types.go:45 | the result is the length of the longest run of ASCII digits at the start of the string |
| `PortOrderTypes.TakeDigits` | apis/network/v1alpha1/portorder_types.go:45 | splits `[0-9]{1,n}` off the front exactly when the leading digit run has 1..n digits, and the rest does not start with a digit |
| `PortOrderTypes.ParseAddress` | apis/network/v1alpha1/portorder_types.go:45 | every accepted string is four dot-separated groups of 1 to 3 digits, optionally followed by `/` and 1 or 2 digits, and it formats back to the input |
| `PortOrderTypes.ParseAddressDecides` | apis/network/v1alpha1/portorder_types.go:45 | the matcher accepts a string exactly when it matches the address pattern |
| `PortOrderTypes.ParseAddressComplete` | apis/network/v1alpha1/portorder_types.go:50 | every string of that shape is accepted, and its groups are recovered |
| `PortOrderTypes.OctetsNotRangeChecked` | apis/network/v1alpha1/portorder_types.go:45 | `999.999.999.999/99` matches the pattern |
| `PortOrderTypes.DeepCopySpec` | apis/network/v1alpha1/portorder_types.go:163-170 | every field is copied; the port slice is a newly allocated slice with equal elements in the same order; a nil slice stays nil |
| `PortOrderTypes.DeepCopyObservation` | apis/network/v1alpha1/portorder_types.go:186-191 | every scalar field is copied; a set LastRequestTime is copied into a newly allocated time holding the same instant; a nil one stays nil |
| `PortOrderTypes.DeepCopyStatus` | apis/network/v1alpha1/portorder_types.go:176-180 | the observation is deep-copied as above |
| `PortOrderTypes.DeepCopyPortOrder` | apis/network/v1alpha1/portorder_types.go:136-142 | metadata is copied; spec and status are deep-copied, with new storage for the port slice and the time |
| `PortOrderTypes.DeepCopy` | apis/network/v1alpha1/portorder_types.go:145-152 | nil gives nil; anything else gives a deep copy |
| `PortOrderTypes.DeepCopyList` | apis/network/v1alpha1/portorder_types.go:197-207 | a nil Items stays nil; otherwise Items is a newly allocated slice of the same length, and element i is a deep copy of input element i |
| `PortOrderTypes.DeepCopyListPtr` | apis/network/v1alpha1/portorder_types.go:209-216 | nil gives nil; anything else gives a list deep-copied as above |

## Left out

- `Setup` (controller-runtime wiring, event filters, rate limiting, connection publishers): framework plumbing.
- The Kubernetes calls in `connector.Connect` (usage tracking, the ProviderConfig get, credential extraction): API-server I/O. `Connect` takes their outcomes as inputs. The returned client's `client` and `logger` fields are not modelled; its middleware list stands for the client.
- The HTTP client (`internal/clients/http`): middleware behaviour, authentication injection and the retry/backoff loop. It is network I/O with blocking delays and is not part of this model. Create attaches the retry policy to the request; the client's result is an arbitrary `DoOutcome`.
- `json.Marshal`: the request body is kept as the `OrderRequest` datatype. The marshal-error branch of Create is left out, because this struct of strings and ints always encodes.
- `json.Unmarshal`: a decode function passed in. Its answer for a given body is arbitrary.
- `meta.Now()`, logging and events: the clock is an input instant, and logging has no effect on the model.
- The runtime type assertions on `resource.Managed` and their `errNotPortOrder` errors: the typed model cannot pass any other kind of resource.
- Error message texts and `errors.Wrap` chains: errors are datatype constructors that carry their cause, status code or body.
- Scheme registration, type-metadata variables and `DeepCopyObject`: runtime registration.
- The embedded `ResourceSpec`, `ResourceStatus`, `ObjectMeta` and `ListMeta` deep copies: they delegate to other packages. Object metadata is a value here (name, UID, annotations), so copying it is an assignment.
- `PortOrderTypes.DeepCopy` and `PortOrderTypes.DeepCopyListPtr` return values, so the identity of the new pointer Go allocates is not captured. Only the freshness of the storage inside the copy is stated.
- `PortOrderTypes.WithDefaults` treats an empty endpoint as omitted. The API server defaults only an absent field, so an explicit `apiEndpoint: ""` would stay empty there. After decoding, Go cannot tell the two apart.
- `PortOrderController.ToUpper` only maps ASCII letters, while `strings.ToUpper` also maps other Unicode letters. Validated port types are ASCII (`tcp` or `udp`), so this never matters for admitted objects.
- The other fields of `ExternalObservation`, `ExternalCreation` and `ExternalUpdate` (connection details, late initialisation): the code leaves them empty.
- Concurrency: the reconciler runs at most one pass per resource at a time, and the model is sequential.
