/**
 * The helpers of `sdxlib/sdx_topology_utils.py`: the VLANs each port already carries
 * in the topology's L2VPN services, the VLANs a port allows by its `vlan_range`
 * text, the `"name (port_id)"` label of a port, and the loop of
 * `get_available_ports` that lists, port by port, the first ten free VLANs.
 */
module SdxTopologyUtils {
  import opened Outcomes
  import opened Text
  import opened Py
  import opened VlanRuns

  const NoSplitAttributeMsg := "' object has no attribute 'split'"
  const TooManyValuesMsg := "too many values to unpack (expected 2)"
  const IntLiteralMsg := "invalid literal for int() with base 10: "

  // ---------------------------------------------------------------- VLANs in use

  /** The `in_use` dict: each port id with its VLANs in the order met, duplicates kept. */
  type InUse = seq<(Json, seq<int>)>

  /** `in_use.get(key, [])`. */
  function InUseGet(u: InUse, key: Json): seq<int> {
    if |u| == 0 then [] else if u[0].0 == key then u[0].1 else InUseGet(u[1..], key)
  }

  /** `in_use.setdefault(key, []).append(v)`. */
  function Append(u: InUse, key: Json, v: int): InUse {
    if |u| == 0 then [(key, [v])]
    else if u[0].0 == key then [(key, u[0].1 + [v])] + u[1..]
    else [u[0]] + Append(u[1..], key, v)
  }

  /** Appending under `k` extends the list of `k` by `v` and leaves every other list alone. */
  lemma {:induction false} AppendGet(u: InUse, k: Json, v: int, key: Json)
    ensures InUseGet(Append(u, k, v), key) == InUseGet(u, key) + (if key == k then [v] else [])
  {
    if |u| > 0 {
      if u[0].0 == k {
        assert ([(k, u[0].1 + [v])] + u[1..])[1..] == u[1..];
      } else {
        AppendGet(u[1..], k, v, key);
        assert ([u[0]] + Append(u[1..], k, v))[1..] == Append(u[1..], k, v);
      }
    }
  }

  /** An endpoint is recorded when its `port_id` is truthy and its `vlan` an `int`. */
  predicate Recorded(ep: seq<(string, Json)>) {
    Truthy(Get(ep, "port_id")) && IsPyInt(Get(ep, "vlan"))
  }

  /** One pass of the inner loop of `_get_vlans_in_use`, over one endpoint. */
  function EndpointStep(u: InUse, ep: Json): Result<InUse> {
    if !ep.JObj? then Failure(NoGetError(ep))
    else if !Recorded(ep.fields) then Success(u)
    else
      var portId := Get(ep.fields, "port_id");
      if Unhashable(portId) then Failure(UnhashableError(portId))
      else Success(Append(u, portId, PyIntValue(Get(ep.fields, "vlan"))))
  }

  /** One pass of the outer loop, over one service: only L2VPN services are read. */
  function ServiceStep(u: InUse, service: Json): Result<InUse> {
    if !service.JObj? then Failure(NoGetError(service))
    else if Get(service.fields, "type") != JStr("l2vpn") then Success(u)
    else
      var eps :- Elements(GetOr(service.fields, "endpoints", JList([])));
      FoldResults(EndpointStep, u, eps)
  }

  /** `_get_vlans_in_use(topology)`. */
  function VlansInUseOf(topology: seq<(string, Json)>): Result<InUse> {
    var services :- Elements(GetOr(topology, "services", JList([])));
    FoldResults(ServiceStep, [], services)
  }

  /** The VLAN an endpoint contributes to the list of `key`: none, or its `vlan`. */
  function EndpointVlan(key: Json, ep: Json): seq<int> {
    if ep.JObj? && Recorded(ep.fields) && Get(ep.fields, "port_id") == key
    then [PyIntValue(Get(ep.fields, "vlan"))]
    else []
  }

  function EndpointVlanOf(key: Json): Json -> seq<int> {
    ep => EndpointVlan(key, ep)
  }

  /** The VLANs a service contributes to the list of `key`, in endpoint order. */
  function ServiceVlans(key: Json, service: Json): seq<int> {
    if service.JObj? && Get(service.fields, "type") == JStr("l2vpn") then
      var eps := Elements(GetOr(service.fields, "endpoints", JList([])));
      if eps.Success? then FlatMap(EndpointVlanOf(key), eps.value) else []
    else []
  }

  function ServiceVlansOf(key: Json): Json -> seq<int> {
    s => ServiceVlans(key, s)
  }

  /** After the endpoint loop, each port's list is its old list followed by its endpoints' VLANs. */
  lemma EndpointsRecorded(u: InUse, eps: seq<Json>, key: Json)
    requires FoldResults(EndpointStep, u, eps).Success?
    ensures InUseGet(FoldResults(EndpointStep, u, eps).value, key)
            == InUseGet(u, key) + FlatMap(EndpointVlanOf(key), eps)
  {
    forall v: InUse, ep | EndpointStep(v, ep).Success?
      ensures InUseGet(EndpointStep(v, ep).value, key) == InUseGet(v, key) + EndpointVlanOf(key)(ep)
    {
      EndpointRecords(v, ep, key);
    }
    FoldTracks(EndpointStep, v => InUseGet(v, key), EndpointVlanOf(key), u, eps);
  }

  /** One endpoint extends each port's list by that endpoint's VLAN for the port. */
  lemma EndpointRecords(u: InUse, ep: Json, key: Json)
    requires EndpointStep(u, ep).Success?
    ensures InUseGet(EndpointStep(u, ep).value, key) == InUseGet(u, key) + EndpointVlan(key, ep)
  {
    if Recorded(ep.fields) {
      AppendGet(u, Get(ep.fields, "port_id"), PyIntValue(Get(ep.fields, "vlan")), key);
    }
  }

  /** After the service loop, each port's list is its old list followed by its services' VLANs. */
  lemma ServicesRecorded(u: InUse, services: seq<Json>, key: Json)
    requires FoldResults(ServiceStep, u, services).Success?
    ensures InUseGet(FoldResults(ServiceStep, u, services).value, key)
            == InUseGet(u, key) + FlatMap(ServiceVlansOf(key), services)
  {
    forall v: InUse, service | ServiceStep(v, service).Success?
      ensures InUseGet(ServiceStep(v, service).value, key) == InUseGet(v, key) + ServiceVlansOf(key)(service)
    {
      ServiceRecords(v, service, key);
    }
    FoldTracks(ServiceStep, v => InUseGet(v, key), ServiceVlansOf(key), u, services);
  }

  /** One service extends each port's list by that service's VLANs for the port. */
  lemma ServiceRecords(u: InUse, service: Json, key: Json)
    requires ServiceStep(u, service).Success?
    ensures InUseGet(ServiceStep(u, service).value, key) == InUseGet(u, key) + ServiceVlans(key, service)
  {
    if Get(service.fields, "type") == JStr("l2vpn") {
      EndpointsRecorded(u, Elements(GetOr(service.fields, "endpoints", JList([]))).value, key);
    }
  }

  /**
   * The VLANs in use on a port are exactly the `int` VLANs of the endpoints naming it,
   * across the L2VPN services, in the order they appear and with repeats kept.
   */
  lemma VlansInUseContents(topology: seq<(string, Json)>, key: Json)
    requires VlansInUseOf(topology).Success?
    ensures InUseGet(VlansInUseOf(topology).value, key)
            == FlatMap(ServiceVlansOf(key), Elements(GetOr(topology, "services", JList([]))).value)
  {
    ServicesRecorded([], Elements(GetOr(topology, "services", JList([]))).value, key);
  }

  /** The inner loop of `_get_vlans_in_use`: records the VLAN of each qualifying endpoint. */
  method RecordEndpoints(inUse: InUse, eps: seq<Json>) returns (r: Result<InUse>)
    ensures r == FoldResults(EndpointStep, inUse, eps)
  {
    var u := inUse;
    for i := 0 to |eps|
      invariant FoldResults(EndpointStep, inUse, eps[..i]) == Success(u)
    {
      var ep := eps[i];
      FoldStep(EndpointStep, inUse, eps, i);
      if !ep.JObj? {
        FoldFailureSticks(EndpointStep, inUse, eps, i + 1);
        return Failure(NoGetError(ep));
      }
      var portId := Get(ep.fields, "port_id");
      var vlan := Get(ep.fields, "vlan");
      if Truthy(portId) && IsPyInt(vlan) {
        if Unhashable(portId) {
          FoldFailureSticks(EndpointStep, inUse, eps, i + 1);
          return Failure(UnhashableError(portId));
        }
        u := Append(u, portId, PyIntValue(vlan));
      }
    }
    assert eps[..|eps|] == eps;
    return Success(u);
  }

  /** `_get_vlans_in_use`: walks the services, skipping all but the L2VPN ones. */
  method VlansInUse(topology: seq<(string, Json)>) returns (r: Result<InUse>)
    ensures r == VlansInUseOf(topology)
  {
    var services := Elements(GetOr(topology, "services", JList([])));
    if services.Failure? {
      return Failure(services.error);
    }
    var inUse: InUse := [];
    for i := 0 to |services.value|
      invariant FoldResults(ServiceStep, [], services.value[..i]) == Success(inUse)
    {
      var service := services.value[i];
      FoldStep(ServiceStep, [], services.value, i);
      if !service.JObj? {
        FoldFailureSticks(ServiceStep, [], services.value, i + 1);
        return Failure(NoGetError(service));
      }
      if Get(service.fields, "type") != JStr("l2vpn") {
        continue;
      }
      var eps := Elements(GetOr(service.fields, "endpoints", JList([])));
      if eps.Failure? {
        FoldFailureSticks(ServiceStep, [], services.value, i + 1);
        return Failure(eps.error);
      }
      var next := RecordEndpoints(inUse, eps.value);
      if next.Failure? {
        FoldFailureSticks(ServiceStep, [], services.value, i + 1);
        return next;
      }
      inUse := next.value;
    }
    assert services.value[..|services.value|] == services.value;
    return Success(inUse);
  }

  // ---------------------------------------------------------------- allowed VLANs

  /** `int(text)`, raising ValueError with the literal's repr. */
  function IntOfText(text: string): Result<int> {
    match ParseInt(text)
    case Some(n) => Success(n)
    case None => Failure(ValueError(IntLiteralMsg + StrRepr(text)))
  }

  /** What one comma-separated part allows: `A-B` the range `A..B`, any other part one VLAN. */
  function PartValues(part: string): Result<seq<int>> {
    if '-' in part then
      var pieces := Split(part, '-');
      if |pieces| != 2 then Failure(ValueError(TooManyValuesMsg))
      else
        var lo :- IntOfText(pieces[0]);
        var hi :- IntOfText(pieces[1]);
        Success(Interval(lo, hi))
    else
      var n :- IntOfText(part);
      Success([n])
  }

  /** A part `A-B` of two digit strings allows the inclusive range from `A` to `B`. */
  lemma DashPart(a: string, b: string)
    requires IsDigits(a) && IsDigits(b)
    ensures PartValues(a + "-" + b) == Success(Interval(DigitsValue(a), DigitsValue(b)))
  {
    assert '-' !in a && '-' !in b;
    SplitAfterFirst(a, '-', b);
    SplitNoSep(b, '-');
    assert (a + "-" + b)[|a|] == '-';
  }

  /** A part of digits alone allows that one VLAN. */
  lemma NumberPart(p: string)
    requires IsDigits(p)
    ensures PartValues(p) == Success([DigitsValue(p)])
  {
    assert '-' !in p;
  }

  /** A part with two dashes is rejected before any number is read. */
  lemma TwoDashPart(a: string, b: string, c: string)
    requires '-' !in a && '-' !in b && '-' !in c
    ensures PartValues(a + "-" + b + "-" + c) == Failure(ValueError(TooManyValuesMsg))
  {
    SplitAfterFirst(a, '-', b + "-" + c);
    SplitAfterFirst(b, '-', c);
    SplitNoSep(c, '-');
    assert a + "-" + b + "-" + c == a + "-" + (b + "-" + c);
    assert (a + "-" + b + "-" + c)[|a|] == '-';
  }

  /** One pass of the loop of `_get_vlan_range`: adds the part's VLANs to the set. */
  function AllowedStep(allowed: seq<int>, part: string): Result<seq<int>> {
    var vs :- PartValues(part);
    Success(InsertAll(allowed, vs))
  }

  /** `_get_vlan_range(port)`: all of 1..4094 when `vlan_range` is missing or falsy. */
  function AllowedVlans(port: seq<(string, Json)>): Result<seq<int>> {
    var vlanRange := GetOr(port, "vlan_range", JStr(""));
    if !Truthy(vlanRange) then Success(Interval(1, 4094))
    else if !vlanRange.JStr? then Failure(AttributeError("'" + TypeName(vlanRange) + NoSplitAttributeMsg))
    else RangeVlans(vlanRange.s)
  }

  /** The loop of `_get_vlan_range` over the comma-separated parts of a `vlan_range` text. */
  function RangeVlans(text: string): Result<seq<int>> {
    FoldResults(AllowedStep, [], Split(text, ','))
  }

  /** Part `part` lets `v` through. */
  predicate PartAllows(part: string, v: int) {
    PartValues(part).Success? && v in PartValues(part).value
  }

  /** Some part of `parts` lets `v` through. */
  predicate PartsAllow(parts: seq<string>, v: int) {
    exists j | 0 <= j < |parts| :: PartAllows(parts[j], v)
  }

  /** A part allowing `v` is either the last one or one of those before it. */
  lemma PartsAllowSnoc(parts: seq<string>, v: int)
    requires |parts| > 0
    ensures PartsAllow(parts, v)
            <==> PartsAllow(parts[..|parts| - 1], v) || PartAllows(parts[|parts| - 1], v)
  {
    PartsAllowInit(parts, v);
    PartsAllowLast(parts, v);
  }

  lemma PartsAllowInit(parts: seq<string>, v: int)
    requires |parts| > 0
    ensures PartsAllow(parts[..|parts| - 1], v) ==> PartsAllow(parts, v)
  {
    var init := parts[..|parts| - 1];
    if PartsAllow(init, v) {
      var j :| 0 <= j < |init| && PartAllows(init[j], v);
      assert parts[j] == init[j];
    }
  }

  lemma PartsAllowLast(parts: seq<string>, v: int)
    requires |parts| > 0
    ensures PartsAllow(parts, v) ==> PartsAllow(parts[..|parts| - 1], v) || PartAllows(parts[|parts| - 1], v)
  {
    var init := parts[..|parts| - 1];
    if !PartsAllow(init, v) && !PartAllows(parts[|parts| - 1], v) {
      forall j | 0 <= j < |parts| ensures !PartAllows(parts[j], v) {
        if j < |init| {
          assert parts[j] == init[j];
        }
      }
    }
  }

  /** The loop keeps the set ascending. */
  lemma {:induction false} AllowedFoldSorted(s: seq<int>, parts: seq<string>)
    requires Increasing(s) && FoldResults(AllowedStep, s, parts).Success?
    ensures Increasing(FoldResults(AllowedStep, s, parts).value)
    decreases |parts|
  {
    if |parts| > 0 {
      AllowedFoldSorted(s, parts[..|parts| - 1]);
    }
  }

  /** The loop adds exactly the VLANs its parts allow. */
  lemma {:induction false} AllowedFoldMembers(s: seq<int>, parts: seq<string>, v: int)
    requires FoldResults(AllowedStep, s, parts).Success?
    ensures v in FoldResults(AllowedStep, s, parts).value <==> v in s || PartsAllow(parts, v)
    decreases |parts|
  {
    if |parts| > 0 {
      AllowedFoldMembers(s, parts[..|parts| - 1], v);
      PartsAllowSnoc(parts, v);
    }
  }

  /** A loop that gets through every part found every part well formed. */
  lemma {:induction false} AllowedFoldParts(s: seq<int>, parts: seq<string>, j: int)
    requires 0 <= j < |parts| && FoldResults(AllowedStep, s, parts).Success?
    ensures PartValues(parts[j]).Success?
  {
    if PartValues(parts[j]).Failure? {
      AllowedFoldFails(s, parts, j);
    }
  }

  /** A part that fails to parse makes the whole range fail. */
  lemma {:induction false} AllowedFoldFails(s: seq<int>, parts: seq<string>, j: int)
    requires 0 <= j < |parts| && PartValues(parts[j]).Failure?
    ensures FoldResults(AllowedStep, s, parts).Failure?
  {
    FoldStep(AllowedStep, s, parts, j);
    FoldFailureSticks(AllowedStep, s, parts, j + 1);
  }

  /** Without a `vlan_range`, a port allows the 4094 VLANs 1..4094; 4095 is reserved. */
  lemma DefaultAllowed(port: seq<(string, Json)>)
    requires !Truthy(GetOr(port, "vlan_range", JStr("")))
    ensures AllowedVlans(port) == Success(Interval(1, 4094))
    ensures |AllowedVlans(port).value| == 4094 && 4095 !in AllowedVlans(port).value
    ensures Increasing(AllowedVlans(port).value)
  {
  }

  /** A `vlan_range` text is accepted exactly when every comma-separated part is. */
  lemma RangeAccepted(text: string)
    ensures RangeVlans(text).Success?
            <==> forall j | 0 <= j < |Split(text, ',')| :: PartValues(Split(text, ',')[j]).Success?
  {
    var parts := Split(text, ',');
    if RangeVlans(text).Success? {
      forall j | 0 <= j < |parts| ensures PartValues(parts[j]).Success? {
        AllowedFoldParts([], parts, j);
      }
    } else {
      AllowedFoldAllParts([], parts);
      var j :| 0 <= j < |parts| && PartValues(parts[j]).Failure?;
      assert !PartValues(Split(text, ',')[j]).Success?;
    }
  }

  /**
   * An accepted `vlan_range` text allows a list sorted without repeats, holding
   * exactly the VLANs its comma-separated parts allow.
   */
  lemma RangeAllowed(text: string, v: int)
    requires RangeVlans(text).Success?
    ensures Increasing(RangeVlans(text).value)
    ensures v in RangeVlans(text).value <==> PartsAllow(Split(text, ','), v)
  {
    AllowedFoldSorted([], Split(text, ','));
    AllowedFoldMembers([], Split(text, ','), v);
  }

  /** A loop whose parts are all well formed gets through. */
  lemma {:induction false} AllowedFoldAllParts(s: seq<int>, parts: seq<string>)
    requires FoldResults(AllowedStep, s, parts).Failure?
    ensures exists j | 0 <= j < |parts| :: PartValues(parts[j]).Failure?
    decreases |parts|
  {
    var n := |parts| - 1;
    if FoldResults(AllowedStep, s, parts[..n]).Failure? {
      AllowedFoldAllParts(s, parts[..n]);
      var j :| 0 <= j < n && PartValues(parts[..n][j]).Failure?;
      assert parts[j] == parts[..n][j];
    } else {
      assert PartValues(parts[n]).Failure?;
    }
  }

  /** Every allowed VLAN, with or without a `vlan_range`, comes out sorted without repeats. */
  lemma AllowedSorted(port: seq<(string, Json)>)
    requires AllowedVlans(port).Success?
    ensures Increasing(AllowedVlans(port).value)
  {
    if Truthy(GetOr(port, "vlan_range", JStr(""))) {
      RangeAllowed(GetOr(port, "vlan_range", JStr("")).s, 0);
    } else {
      DefaultAllowed(port);
    }
  }

  /** `_get_vlan_range`, as written: a loop over the comma-separated parts. */
  method GetVlanRange(port: seq<(string, Json)>) returns (r: Result<seq<int>>)
    ensures r == AllowedVlans(port)
  {
    var vlanRange := GetOr(port, "vlan_range", JStr(""));
    if !Truthy(vlanRange) {
      return Success(Interval(1, 4094));
    }
    if !vlanRange.JStr? {
      return Failure(AttributeError("'" + TypeName(vlanRange) + NoSplitAttributeMsg));
    }
    var parts := Split(vlanRange.s, ',');
    var allowed: seq<int> := [];
    for i := 0 to |parts|
      invariant FoldResults(AllowedStep, [], parts[..i]) == Success(allowed)
    {
      var part := parts[i];
      FoldStep(AllowedStep, [], parts, i);
      var values := PartValues(part);
      if values.Failure? {
        FoldFailureSticks(AllowedStep, [], parts, i + 1);
        return Failure(values.error);
      }
      allowed := InsertAll(allowed, values.value);
    }
    assert parts[..|parts|] == parts;
    return Success(allowed);
  }

  // ---------------------------------------------------------------- free VLANs and labels

  /** `sorted(set(allowed) - set(in_use))` for an ascending `allowed`. */
  function Without(allowed: seq<int>, inUse: seq<int>): seq<int> {
    if |allowed| == 0 then []
    else (if allowed[0] in inUse then [] else [allowed[0]]) + Without(allowed[1..], inUse)
  }

  /** The free VLANs are the allowed ones not in use. */
  lemma {:induction false} WithoutMembers(allowed: seq<int>, inUse: seq<int>, v: int)
    ensures v in Without(allowed, inUse) <==> v in allowed && v !in inUse
  {
    if |allowed| > 0 {
      WithoutMembers(allowed[1..], inUse, v);
      assert allowed == [allowed[0]] + allowed[1..];
    }
  }

  /** The free VLANs stay ascending. */
  lemma {:induction false} WithoutSorted(allowed: seq<int>, inUse: seq<int>)
    requires Increasing(allowed)
    ensures Increasing(Without(allowed, inUse))
  {
    if |allowed| > 0 {
      var tail := allowed[1..];
      WithoutSorted(tail, inUse);
      var rest := Without(tail, inUse);
      var head: seq<int> := if allowed[0] in inUse then [] else [allowed[0]];
      forall w | w in rest ensures allowed[0] < w {
        WithoutMembers(tail, inUse, w);
        var k :| 0 <= k < |tail| && tail[k] == w;
        assert allowed[k + 1] == w;
      }
      IncreasingCons(head, rest);
    }
  }

  lemma IncreasingCons(head: seq<int>, rest: seq<int>)
    requires |head| <= 1 && Increasing(rest)
    requires forall v | v in head :: forall w | w in rest :: v < w
    ensures Increasing(head + rest)
  {
    var r := head + rest;
    forall i, j | 0 <= i < j < |r| ensures r[i] < r[j] {
      if i < |head| {
        assert r[i] in head && r[j] in rest;
      } else {
        assert r[i] == rest[i - |head|] && r[j] == rest[j - |head|];
      }
    }
  }

  /** `free_vlans[:10]`. */
  function FirstTen(xs: seq<int>): seq<int> {
    if |xs| <= 10 then xs else xs[..10]
  }

  /**
   * `listed` is what a port shows of its free VLANs: at most ten, ascending, all allowed
   * and unused; and an allowed, unused VLAN left off the list means ten smaller ones were
   * listed.
   */
  predicate FirstFree(listed: seq<int>, allowed: seq<int>, inUse: seq<int>) {
    |listed| <= 10 && Increasing(listed)
    && (forall v | v in listed :: v in allowed && v !in inUse)
    && (forall v | v in allowed && v !in inUse && v !in listed
          :: |listed| == 10 && forall k | 0 <= k < 10 :: listed[k] < v)
  }

  /** The first ten free VLANs of a port are what it shows of its free VLANs. */
  lemma FreeListed(allowed: seq<int>, inUse: seq<int>)
    requires Increasing(allowed)
    ensures FirstFree(FirstTen(Without(allowed, inUse)), allowed, inUse)
  {
    var free := Without(allowed, inUse);
    WithoutSorted(allowed, inUse);
    var listed := FirstTen(free);
    forall v | v in listed ensures v in allowed && v !in inUse {
      var k :| 0 <= k < |listed| && listed[k] == v;
      assert free[k] == v;
      WithoutMembers(allowed, inUse, v);
    }
    forall m | 0 <= m < |free| && m < 10 ensures free[m] in listed {
      assert listed[m] == free[m];
    }
    forall v | v in allowed && v !in inUse && v !in listed
      ensures |listed| == 10 && forall k | 0 <= k < 10 :: listed[k] < v
    {
      WithoutMembers(allowed, inUse, v);
      var m :| 0 <= m < |free| && free[m] == v;
    }
  }

  /** `_format_port(port)`: `"<name> (<port_id>)"`, each printed with `str()`. */
  function PortLabel(port: seq<(string, Json)>): string {
    PyStr(Get(port, "name")) + " (" + PyStr(Get(port, "port_id")) + ")"
  }

  /** The search test of `get_available_ports`: no or empty search, or a case-insensitive hit. */
  predicate SearchKeeps(search: Option<string>, shown: string) {
    search.None? || search.value == "" || IsSubstring(Lower(search.value), Lower(shown))
  }

  /** A search term found in a port's name, ignoring case, keeps the port. */
  lemma SearchFindsName(port: seq<(string, Json)>, term: string)
    requires IsSubstring(Lower(term), Lower(PyStr(Get(port, "name"))))
    ensures SearchKeeps(Some(term), PortLabel(port))
  {
    var name := PyStr(Get(port, "name"));
    var shown := PortLabel(port);
    assert shown[0..|name|] == name;
    LowerSlice(shown, 0, |name|);
    SubstringOfSlice(Lower(term), Lower(shown), 0, |name|);
  }

  /** A search term found in a port's id, ignoring case, keeps the port. */
  lemma SearchFindsPortId(port: seq<(string, Json)>, term: string)
    requires IsSubstring(Lower(term), Lower(PyStr(Get(port, "port_id"))))
    ensures SearchKeeps(Some(term), PortLabel(port))
  {
    var name := PyStr(Get(port, "name"));
    var id := PyStr(Get(port, "port_id"));
    var shown := PortLabel(port);
    var a := |name| + 2;
    assert shown == (name + " (") + id + ")";
    assert shown[a..a + |id|] == id;
    LowerSlice(shown, a, a + |id|);
    SubstringOfSlice(Lower(term), Lower(shown), a, a + |id|);
  }

  // ---------------------------------------------------------------- available ports

  /** One row of the listing: the columns "Port ID", "Name", "Domain", "Node", "Free VLANs". */
  datatype FreeRow = FreeRow(portId: Json, name: Json, domain: Json, node: Json, freeVlans: seq<int>)

  /** One pass of the port loop of `get_available_ports`: the port's row, or none when the search skips it. */
  function PortEntry(used: InUse, search: Option<string>, port: Json): Result<Option<FreeRow>> {
    if !port.JObj? then Failure(NoGetError(port))
    else
      var portId := Get(port.fields, "port_id");
      var allowed :- AllowedVlans(port.fields);
      if Unhashable(portId) then Failure(UnhashableError(portId))
      else if !SearchKeeps(search, PortLabel(port.fields)) then Success(None)
      else
        var free := Without(allowed, InUseGet(used, portId));
        Success(Some(FreeRow(portId, Get(port.fields, "name"), Get(port.fields, "domain"),
                             Get(port.fields, "node"), FirstTen(free))))
  }

  function AddRow(used: InUse, search: Option<string>, rows: seq<FreeRow>, port: Json): Result<seq<FreeRow>> {
    var entry :- PortEntry(used, search, port);
    Success(if entry.Some? then rows + [entry.value] else rows)
  }

  function AddRowOf(used: InUse, search: Option<string>): (seq<FreeRow>, Json) -> Result<seq<FreeRow>> {
    (rows, port) => AddRow(used, search, rows, port)
  }

  /** The rows a port contributes: its row, if it has one. */
  function EntryRows(used: InUse, search: Option<string>, port: Json): seq<FreeRow> {
    var entry := PortEntry(used, search, port);
    if entry.Success? && entry.value.Some? then [entry.value.value] else []
  }

  function EntryRowsOf(used: InUse, search: Option<string>): Json -> seq<FreeRow> {
    port => EntryRows(used, search, port)
  }

  /** `get_available_ports` on a fetched topology, as a list of rows. */
  function AvailablePortsOf(topology: seq<(string, Json)>, search: Option<string>): Result<seq<FreeRow>> {
    var used :- VlansInUseOf(topology);
    var ports :- Elements(GetOr(topology, "ports", JList([])));
    FoldResults(AddRowOf(used, search), [], ports)
  }

  /**
   * A port's row carries the port's id, name, domain and node, and the port passed the
   * search.
   */
  lemma PortEntryRow(used: InUse, search: Option<string>, port: Json, row: FreeRow)
    requires PortEntry(used, search, port) == Success(Some(row))
    ensures port.JObj? && AllowedVlans(port.fields).Success?
    ensures row.portId == Get(port.fields, "port_id") && row.name == Get(port.fields, "name")
    ensures row.domain == Get(port.fields, "domain") && row.node == Get(port.fields, "node")
    ensures SearchKeeps(search, PortLabel(port.fields))
  {
  }

  /**
   * The free VLANs of a port's row: at most ten, ascending, each allowed by the port and
   * not in use on it, and no free VLAN left out unless ten smaller ones were listed.
   */
  lemma PortEntryFree(used: InUse, search: Option<string>, port: Json, row: FreeRow)
    requires PortEntry(used, search, port) == Success(Some(row))
    ensures port.JObj? && AllowedVlans(port.fields).Success?
    ensures FirstFree(row.freeVlans, AllowedVlans(port.fields).value, InUseGet(used, row.portId))
  {
    PortEntryRow(used, search, port, row);
    var allowed := AllowedVlans(port.fields).value;
    var inUse := InUseGet(used, row.portId);
    assert !Unhashable(row.portId);
    assert row.freeVlans == FirstTen(Without(allowed, inUse));
    AllowedSorted(port.fields);
    FreeListed(allowed, inUse);
  }

  /** The loop lists, in port order, exactly the rows of the ports that have one. */
  lemma {:induction false} RowsListed(used: InUse, search: Option<string>, rows: seq<FreeRow>, ports: seq<Json>)
    requires FoldResults(AddRowOf(used, search), rows, ports).Success?
    ensures FoldResults(AddRowOf(used, search), rows, ports).value
            == rows + FlatMap(EntryRowsOf(used, search), ports)
    decreases |ports|
  {
    if |ports| > 0 {
      var n := |ports| - 1;
      RowsListed(used, search, rows, ports[..n]);
      FlatMapSnoc(EntryRowsOf(used, search), ports, n);
      assert ports[..n + 1] == ports;
    }
  }

  /** A port that fails makes the loop fail. */
  lemma {:induction false} RowsFailAt(used: InUse, search: Option<string>, rows: seq<FreeRow>, ports: seq<Json>, j: int)
    requires 0 <= j < |ports| && PortEntry(used, search, ports[j]).Failure?
    ensures FoldResults(AddRowOf(used, search), rows, ports).Failure?
  {
    FoldStep(AddRowOf(used, search), rows, ports, j);
    FoldFailureSticks(AddRowOf(used, search), rows, ports, j + 1);
  }

  /** A loop that fails failed at one of the ports. */
  lemma {:induction false} RowsFailWhere(used: InUse, search: Option<string>, rows: seq<FreeRow>, ports: seq<Json>)
    requires FoldResults(AddRowOf(used, search), rows, ports).Failure?
    ensures exists j | 0 <= j < |ports| :: PortEntry(used, search, ports[j]).Failure?
    decreases |ports|
  {
    var n := |ports| - 1;
    if FoldResults(AddRowOf(used, search), rows, ports[..n]).Failure? {
      RowsFailWhere(used, search, rows, ports[..n]);
      var j :| 0 <= j < n && PortEntry(used, search, ports[..n][j]).Failure?;
      assert ports[j] == ports[..n][j];
    } else {
      assert PortEntry(used, search, ports[n]).Failure?;
    }
  }

  /**
   * `get_available_ports` lists a row for each port, in order, exactly when the port
   * has a row; it fails when the in-use scan or one of the ports fails.
   */
  lemma AvailablePortsSpec(topology: seq<(string, Json)>, search: Option<string>)
    requires VlansInUseOf(topology).Success? && Elements(GetOr(topology, "ports", JList([]))).Success?
    ensures var used := VlansInUseOf(topology).value;
            var ports := Elements(GetOr(topology, "ports", JList([]))).value;
            AvailablePortsOf(topology, search).Failure?
            <==> exists j | 0 <= j < |ports| :: PortEntry(used, search, ports[j]).Failure?
    ensures var used := VlansInUseOf(topology).value;
            var ports := Elements(GetOr(topology, "ports", JList([]))).value;
            AvailablePortsOf(topology, search).Success?
            ==> AvailablePortsOf(topology, search).value == FlatMap(EntryRowsOf(used, search), ports)
  {
    var used := VlansInUseOf(topology).value;
    var ports := Elements(GetOr(topology, "ports", JList([]))).value;
    if AvailablePortsOf(topology, search).Success? {
      RowsListed(used, search, [], ports);
      forall j | 0 <= j < |ports| ensures PortEntry(used, search, ports[j]).Success? {
        if PortEntry(used, search, ports[j]).Failure? {
          RowsFailAt(used, search, [], ports, j);
        }
      }
    } else {
      RowsFailWhere(used, search, [], ports);
    }
  }

  /** `get_available_ports` with the fetched topology given: the loop over its ports. */
  method AvailablePorts(topology: seq<(string, Json)>, search: Option<string>) returns (r: Result<seq<FreeRow>>)
    ensures r == AvailablePortsOf(topology, search)
  {
    var ports := GetOr(topology, "ports", JList([]));
    var used := VlansInUse(topology);
    if used.Failure? {
      return Failure(used.error);
    }
    var items := Elements(ports);
    if items.Failure? {
      return Failure(items.error);
    }
    var available: seq<FreeRow> := [];
    var step := AddRowOf(used.value, search);
    for i := 0 to |items.value|
      invariant FoldResults(step, [], items.value[..i]) == Success(available)
    {
      var port := items.value[i];
      FoldStep(step, [], items.value, i);
      if !port.JObj? {
        FoldFailureSticks(step, [], items.value, i + 1);
        return Failure(NoGetError(port));
      }
      var portId := Get(port.fields, "port_id");
      var vlanRange := GetVlanRange(port.fields);
      if vlanRange.Failure? {
        FoldFailureSticks(step, [], items.value, i + 1);
        return Failure(vlanRange.error);
      }
      if Unhashable(portId) {
        FoldFailureSticks(step, [], items.value, i + 1);
        return Failure(UnhashableError(portId));
      }
      var inUse := InUseGet(used.value, portId);
      var free := Without(vlanRange.value, inUse);
      var shown := PortLabel(port.fields);
      if search.Some? && search.value != "" && !IsSubstring(Lower(search.value), Lower(shown)) {
        continue;
      }
      available := available + [FreeRow(portId, Get(port.fields, "name"), Get(port.fields, "domain"),
                                        Get(port.fields, "node"), FirstTen(free))];
    }
    assert items.value[..|items.value|] == items.value;
    return Success(available);
  }
}
