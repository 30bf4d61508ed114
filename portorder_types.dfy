/**
 * The PortOrder API types: the desired spec with its validation markers, the
 * observation the controller writes, and the hand-written deep copies.
 *
 * Go structs are values here (datatypes); the parts of them that are references
 * in Go stay references: a slice is an `array?` (null is the nil slice) and the
 * `*metav1.Time` of the observation is a `Time?`. That keeps "the copy does not
 * share storage with the original" expressible.
 */
module PortOrderTypes {
  import opened Wrappers

  /** A `metav1.Time`; the wall-clock value is opaque and never mutated. */
  class Time {
    const Instant: int

    constructor (instant: int)
      ensures Instant == instant
    {
      Instant := instant;
    }
  }

  // ---------------------------------------------------------------------------
  // Data model
  // ---------------------------------------------------------------------------

  /** One port to open: protocol type and number. */
  datatype PortParameters = PortParameters(Type: string, Number: int)

  /** The configurable fields of a PortOrder. */
  datatype PortOrderParameters = PortOrderParameters(
    Source: string,
    Destination: string,
    Ports: array?<PortParameters>,
    APIEndpoint: string)

  /** The observable fields of a PortOrder; "" in OrderID means "not created". */
  datatype PortOrderObservation = PortOrderObservation(
    OrderID: string,
    Status: string,
    LastRequestTime: Time?,
    LastResponseStatus: int)

  /** The desired state; the embedded crossplane ResourceSpec is not part of this model. */
  datatype PortOrderSpec = PortOrderSpec(ForProvider: PortOrderParameters)

  /** The observed state; the embedded crossplane ResourceStatus is not part of this model. */
  datatype PortOrderStatus = PortOrderStatus(AtProvider: PortOrderObservation)

  /** The parts of the Kubernetes object metadata the controller uses. */
  datatype ObjectMeta = ObjectMeta(Name: string, UID: string, Annotations: map<string, string>)

  datatype PortOrder = PortOrder(Meta: ObjectMeta, Spec: PortOrderSpec, Status: PortOrderStatus) {
    /** This PortOrder with its `Status.AtProvider` replaced. */
    function WithAtProvider(obs: PortOrderObservation): (r: PortOrder)
      ensures r.Meta == Meta && r.Spec == Spec && r.Status.AtProvider == obs
    {
      this.(Status := Status.(AtProvider := obs))
    }
  }

  datatype PortOrderList = PortOrderList(Items: array?<PortOrder>)

  /** The contents of a slice; the nil slice has none. */
  function Elements<T>(a: array?<T>): seq<T>
    reads a
  {
    if a == null then [] else a[..]
  }

  // ---------------------------------------------------------------------------
  // Validation markers
  // ---------------------------------------------------------------------------

  const MinPortNumber := 1
  const MaxPortNumber := 65535
  const DefaultAPIEndpoint := "https://api.example.com/orders"

  /** `+kubebuilder:validation:Enum=tcp;udp` */
  predicate ValidPortType(t: string) {
    t == "tcp" || t == "udp"
  }

  /** The enum on Type and `Minimum=1`/`Maximum=65535` on Number. */
  predicate ValidPort(p: PortParameters) {
    ValidPortType(p.Type) && MinPortNumber <= p.Number <= MaxPortNumber
  }

  /** Required source and destination matching the address pattern, and a
      required port list with `MinItems=1` whose items are each valid. */
  ghost predicate ValidParameters(p: PortOrderParameters)
    reads p.Ports
  {
    && MatchesAddressPattern(p.Source)
    && MatchesAddressPattern(p.Destination)
    && p.Ports != null
    && p.Ports.Length >= 1
    && forall i :: 0 <= i < p.Ports.Length ==> ValidPort(p.Ports[i])
  }

  /** The `+kubebuilder:default` on APIEndpoint: an omitted endpoint, which Go
      sees as empty, is filled in when the object is admitted. */
  function WithDefaults(p: PortOrderParameters): (r: PortOrderParameters)
    ensures r.APIEndpoint != ""
    ensures p.APIEndpoint == "" ==> r.APIEndpoint == DefaultAPIEndpoint
    ensures p.APIEndpoint != "" ==> r == p
    ensures r.(APIEndpoint := p.APIEndpoint) == p
  {
    if p.APIEndpoint == "" then p.(APIEndpoint := DefaultAPIEndpoint) else p
  }

  // ---------------------------------------------------------------------------
  // The address pattern ^([0-9]{1,3}\.){3}[0-9]{1,3}(/[0-9]{1,2})?$
  // ---------------------------------------------------------------------------

  predicate IsDigit(c: char) { '0' <= c <= '9' }

  /** A run of between 1 and maxLen ASCII digits: `[0-9]{1,maxLen}`. */
  predicate IsDigits(s: string, maxLen: nat) {
    1 <= |s| <= maxLen && forall i :: 0 <= i < |s| ==> IsDigit(s[i])
  }

  /** The four digit groups and the optional prefix length the pattern consists of. */
  datatype Address = Address(a: string, b: string, c: string, d: string, prefix: Option<string>)

  /** The optional `(/[0-9]{1,2})?` part. */
  predicate WellFormedPrefix(prefix: Option<string>) {
    prefix.Some? ==> IsDigits(prefix.value, 2)
  }

  function PrefixText(prefix: Option<string>): string {
    if prefix.Some? then "/" + prefix.value else ""
  }

  predicate WellFormedAddress(x: Address) {
    && IsDigits(x.a, 3) && IsDigits(x.b, 3) && IsDigits(x.c, 3) && IsDigits(x.d, 3)
    && WellFormedPrefix(x.prefix)
  }

  /** The text the pattern accepts for the given groups. */
  function FormatAddress(x: Address): string {
    x.a + "." + x.b + "." + x.c + "." + x.d + PrefixText(x.prefix)
  }

  /** The length of the longest all-digit prefix of s. */
  function DigitPrefixLength(s: string): (n: nat)
    ensures n <= |s|
    ensures forall i :: 0 <= i < n ==> IsDigit(s[i])
    ensures n < |s| ==> !IsDigit(s[n])
  {
    if s != [] && IsDigit(s[0]) then 1 + DigitPrefixLength(s[1..]) else 0
  }

  /** Splits `[0-9]{1,maxLen}` off the front of s. Every symbol the pattern
      expects after a digit group ('.', '/' or the end) is a non-digit, so the
      group is the whole leading digit run or nothing matches. */
  function TakeDigits(s: string, maxLen: nat): (r: Option<(string, string)>)
    ensures r.Some? <==> 1 <= DigitPrefixLength(s) <= maxLen
    ensures r.Some? ==> IsDigits(r.value.0, maxLen) && r.value.0 + r.value.1 == s
    ensures r.Some? ==> r.value.1 == [] || !IsDigit(r.value.1[0])
  {
    var n := DigitPrefixLength(s);
    if 1 <= n <= maxLen then Some((s[..n], s[n..])) else None
  }

  /** Splits `[0-9]{1,3}\.` off the front of s. */
  function TakeOctetDot(s: string): (r: Option<(string, string)>)
    ensures r.Some? ==> IsDigits(r.value.0, 3) && r.value.0 + "." + r.value.1 == s
  {
    var p :- TakeDigits(s, 3);
    if p.1 != [] && p.1[0] == '.' then
      assert p.0 + "." + p.1[1..] == p.0 + p.1;
      Some((p.0, p.1[1..]))
    else None
  }

  /** Matches the end of the pattern, `[0-9]{1,3}(/[0-9]{1,2})?$`, against all of s. */
  function ParseLastGroup(s: string): (r: Option<(string, Option<string>)>)
    ensures r.Some? ==> IsDigits(r.value.0, 3) && WellFormedPrefix(r.value.1)
    ensures r.Some? ==> s == r.value.0 + PrefixText(r.value.1)
  {
    var g :- TakeDigits(s, 3);
    var rest := g.1;
    if rest == [] then
      Some((g.0, None))
    else if rest[0] == '/' then
      var m :- TakeDigits(rest[1..], 2);
      if m.1 == [] then
        assert rest == "/" + m.0;
        Some((g.0, Some(m.0)))
      else None
    else
      None
  }

  /** Matches `[0-9]{1,3}\.[0-9]{1,3}(/[0-9]{1,2})?$`, the last two groups. */
  function ParseLastTwo(s: string): (r: Option<(string, string, Option<string>)>)
    ensures r.Some? ==> IsDigits(r.value.0, 3) && IsDigits(r.value.1, 3) && WellFormedPrefix(r.value.2)
    ensures r.Some? ==> s == r.value.0 + "." + (r.value.1 + PrefixText(r.value.2))
  {
    var g :- TakeOctetDot(s);
    var last :- ParseLastGroup(g.1);
    Some((g.0, last.0, last.1))
  }

  /** Matches the last three groups and the optional prefix length. */
  function ParseLastThree(s: string): (r: Option<(string, string, string, Option<string>)>)
    ensures r.Some? ==> IsDigits(r.value.0, 3) && IsDigits(r.value.1, 3) && IsDigits(r.value.2, 3)
    ensures r.Some? ==> WellFormedPrefix(r.value.3)
    ensures r.Some? ==> s == r.value.0 + "." + (r.value.1 + "." + (r.value.2 + PrefixText(r.value.3)))
  {
    var g :- TakeOctetDot(s);
    var tail :- ParseLastTwo(g.1);
    Some((g.0, tail.0, tail.1, tail.2))
  }

  /** Matches the whole of s against the address pattern, giving its groups. */
  function ParseAddress(s: string): (r: Option<Address>)
    ensures r.Some? ==> WellFormedAddress(r.value) && FormatAddress(r.value) == s
  {
    var g :- TakeOctetDot(s);
    var tail :- ParseLastThree(g.1);
    var x := Address(g.0, tail.0, tail.1, tail.2, tail.3);
    FormatAddressNested(x);
    Some(x)
  }

  /** FormatAddress with its concatenations grouped from the right, the order the matcher consumes them. */
  lemma FormatAddressNested(x: Address)
    ensures FormatAddress(x) == x.a + "." + (x.b + "." + (x.c + "." + (x.d + PrefixText(x.prefix))))
  {
  }

  /** `Pattern=^([0-9]{1,3}\.){3}[0-9]{1,3}(/[0-9]{1,2})?$` on Source and Destination. */
  ghost predicate MatchesAddressPattern(s: string) {
    exists x :: WellFormedAddress(x) && FormatAddress(x) == s
  }

  /** A leading run of digits followed by a non-digit is split off exactly. */
  lemma {:induction false} DigitPrefixOf(x: string, rest: string)
    requires forall i :: 0 <= i < |x| ==> IsDigit(x[i])
    requires rest == [] || !IsDigit(rest[0])
    ensures DigitPrefixLength(x + rest) == |x|
  {
    if x != [] {
      assert (x + rest)[1..] == x[1..] + rest;
      DigitPrefixOf(x[1..], rest);
    }
  }

  lemma TakeDigitsOf(x: string, rest: string, maxLen: nat)
    requires IsDigits(x, maxLen)
    requires rest == [] || !IsDigit(rest[0])
    ensures TakeDigits(x + rest, maxLen) == Some((x, rest))
  {
    DigitPrefixOf(x, rest);
    assert (x + rest)[..|x|] == x && (x + rest)[|x|..] == rest;
  }

  lemma TakeOctetDotOf(x: string, rest: string)
    requires IsDigits(x, 3)
    ensures TakeOctetDot(x + "." + rest) == Some((x, rest))
  {
    assert x + "." + rest == x + ("." + rest);
    TakeDigitsOf(x, "." + rest, 3);
    assert ("." + rest)[1..] == rest;
  }

  lemma ParseLastGroupOf(d: string, prefix: Option<string>)
    requires IsDigits(d, 3) && WellFormedPrefix(prefix)
    ensures ParseLastGroup(d + PrefixText(prefix)) == Some((d, prefix))
  {
    var suffix := PrefixText(prefix);
    TakeDigitsOf(d, suffix, 3);
    if prefix.Some? {
      assert suffix[1..] == prefix.value + "";
      TakeDigitsOf(prefix.value, "", 2);
    }
  }

  /** Every string of the pattern's shape is accepted, and its groups are
      recovered: the matcher and FormatAddress are inverse. */
  lemma {:induction false} ParseAddressComplete(x: Address)
    requires WellFormedAddress(x)
    ensures ParseAddress(FormatAddress(x)) == Some(x)
  {
    var t4 := x.d + PrefixText(x.prefix);
    var t3 := x.c + "." + t4;
    var t2 := x.b + "." + t3;
    FormatAddressNested(x);
    TakeOctetDotOf(x.a, t2);
    TakeOctetDotOf(x.b, t3);
    TakeOctetDotOf(x.c, t4);
    ParseLastGroupOf(x.d, x.prefix);
  }

  /** The matcher decides the pattern: it accepts exactly the strings of the pattern's shape. */
  lemma ParseAddressDecides(s: string)
    ensures ParseAddress(s).Some? <==> MatchesAddressPattern(s)
  {
    if MatchesAddressPattern(s) {
      var x :| WellFormedAddress(x) && FormatAddress(x) == s;
      ParseAddressComplete(x);
    }
  }

  /** The pattern does not bound the groups to 0..255 or the prefix to 0..32. */
  lemma OctetsNotRangeChecked()
    ensures MatchesAddressPattern("999.999.999.999/99")
  {
    var x := Address("999", "999", "999", "999", Some("99"));
    assert WellFormedAddress(x);
    assert FormatAddress(x) == "999.999.999.999/99";
  }

  /** A spec with source and destination 10.0.0.1 and the single port tcp/80 is admitted. */
  lemma ValidParametersExample(ports: array<PortParameters>)
    requires ports.Length == 1 && ports[0] == PortParameters("tcp", 80)
    ensures ValidParameters(PortOrderParameters("10.0.0.1", "10.0.0.1", ports, ""))
  {
    var x := Address("10", "0", "0", "1", None);
    assert WellFormedAddress(x);
    assert FormatAddress(x) == "10.0.0.1";
  }

  // ---------------------------------------------------------------------------
  // Deep copies
  // ---------------------------------------------------------------------------

  /** b is a copy of port slice a that shares no storage with it; nil stays nil. */
  predicate PortsCopied(a: array?<PortParameters>, b: array?<PortParameters>)
    reads a, b
  {
    && (a == null <==> b == null)
    && (a != null ==> b != a && b[..] == a[..])
  }

  /** out is a deep copy of the spec: equal fields and a distinct, equal port slice. */
  predicate SpecCopied(src: PortOrderSpec, out: PortOrderSpec)
    reads src.ForProvider.Ports, out.ForProvider.Ports
  {
    && out.ForProvider.(Ports := null) == src.ForProvider.(Ports := null)
    && PortsCopied(src.ForProvider.Ports, out.ForProvider.Ports)
  }

  /** out is a deep copy of the observation: equal scalars and a distinct time
      value holding the same instant; a nil time stays nil. */
  predicate ObservationCopied(src: PortOrderObservation, out: PortOrderObservation) {
    && out.(LastRequestTime := null) == src.(LastRequestTime := null)
    && (src.LastRequestTime == null <==> out.LastRequestTime == null)
    && (src.LastRequestTime != null ==>
          out.LastRequestTime != src.LastRequestTime
          && out.LastRequestTime.Instant == src.LastRequestTime.Instant)
  }

  predicate PortOrderCopied(src: PortOrder, out: PortOrder)
    reads src.Spec.ForProvider.Ports, out.Spec.ForProvider.Ports
  {
    && out.Meta == src.Meta
    && SpecCopied(src.Spec, out.Spec)
    && ObservationCopied(src.Status.AtProvider, out.Status.AtProvider)
  }

  /** The storage a copy allocated is new. */
  twostate predicate FreshParts(new out: PortOrder) {
    && (out.Spec.ForProvider.Ports != null ==> fresh(out.Spec.ForProvider.Ports))
    && (out.Status.AtProvider.LastRequestTime != null ==> fresh(out.Status.AtProvider.LastRequestTime))
  }

  /** `PortOrderSpec.DeepCopyInto`: copy everything, then give the copy its own port slice. */
  method DeepCopySpec(src: PortOrderSpec) returns (out: PortOrderSpec)
    ensures SpecCopied(src, out)
    ensures out.ForProvider.Ports != null ==> fresh(out.ForProvider.Ports)
  {
    out := src;
    var ports := src.ForProvider.Ports;
    if ports != null {
      var copied := new PortParameters[ports.Length];
      var i := 0;
      while i < ports.Length
        invariant 0 <= i <= ports.Length
        invariant forall j :: 0 <= j < i ==> copied[j] == ports[j]
      {
        copied[i] := ports[i];
        i := i + 1;
      }
      out := out.(ForProvider := out.ForProvider.(Ports := copied));
    }
  }

  /** `PortOrderObservation.DeepCopyInto`: copy the scalars; a set time is copied into a new Time. */
  method DeepCopyObservation(src: PortOrderObservation) returns (out: PortOrderObservation)
    ensures ObservationCopied(src, out)
    ensures out.LastRequestTime != null ==> fresh(out.LastRequestTime)
  {
    out := src;
    if src.LastRequestTime != null {
      var t := new Time(src.LastRequestTime.Instant);
      out := out.(LastRequestTime := t);
    }
  }

  /** `PortOrderStatus.DeepCopyInto`: delegates to the observation. */
  method DeepCopyStatus(src: PortOrderStatus) returns (out: PortOrderStatus)
    ensures ObservationCopied(src.AtProvider, out.AtProvider)
    ensures out.AtProvider.LastRequestTime != null ==> fresh(out.AtProvider.LastRequestTime)
  {
    var obs := DeepCopyObservation(src.AtProvider);
    out := src.(AtProvider := obs);
  }

  /** `PortOrder.DeepCopyInto`: metadata by value, spec and status deep-copied. */
  method DeepCopyPortOrder(src: PortOrder) returns (out: PortOrder)
    ensures PortOrderCopied(src, out)
    ensures FreshParts(out)
  {
    var spec := DeepCopySpec(src.Spec);
    var status := DeepCopyStatus(src.Status);
    out := PortOrder(src.Meta, spec, status);
  }

  /** `PortOrder.DeepCopy`: nil gives nil, anything else a deep copy. */
  method DeepCopy(src: Option<PortOrder>) returns (out: Option<PortOrder>)
    ensures src.None? <==> out.None?
    ensures src.Some? ==> PortOrderCopied(src.value, out.value) && FreshParts(out.value)
  {
    if src.None? {
      return None;
    }
    var copied := DeepCopyPortOrder(src.value);
    out := Some(copied);
  }

  /** `PortOrderList.DeepCopyInto`: a new Items slice whose elements are deep
      copies of the originals, in order; a nil Items stays nil. */
  method DeepCopyList(src: PortOrderList) returns (out: PortOrderList)
    ensures (src.Items == null) == (out.Items == null)
    ensures src.Items != null ==>
      && fresh(out.Items)
      && out.Items.Length == src.Items.Length
      && forall i :: 0 <= i < src.Items.Length ==>
           PortOrderCopied(src.Items[i], out.Items[i]) && FreshParts(out.Items[i])
  {
    out := src;
    var items := src.Items;
    if items != null {
      var copied := new PortOrder[items.Length];
      var i := 0;
      while i < items.Length
        invariant 0 <= i <= items.Length
        invariant forall j :: 0 <= j < i ==>
          PortOrderCopied(items[j], copied[j]) && FreshParts(copied[j])
      {
        var item := DeepCopyPortOrder(items[i]);
        copied[i] := item;
        i := i + 1;
      }
      out := out.(Items := copied);
    }
  }

  /** `PortOrderList.DeepCopy`: nil gives nil. */
  method DeepCopyListPtr(src: Option<PortOrderList>) returns (out: Option<PortOrderList>)
    ensures src.None? <==> out.None?
    ensures src.Some? ==> (src.value.Items == null <==> out.value.Items == null)
    ensures src.Some? && src.value.Items != null ==>
      && fresh(out.value.Items)
      && out.value.Items.Length == src.value.Items.Length
      && forall i :: 0 <= i < src.value.Items.Length ==>
           PortOrderCopied(src.value.Items[i], out.value.Items[i]) && FreshParts(out.value.Items[i])
  {
    if src.None? {
      return None;
    }
    var copied := DeepCopyList(src.value);
    out := Some(copied);
  }
}
