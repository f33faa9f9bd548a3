/**
 * The topology records of `sdxlib/sdx_topology.py`: the field checks each record makes
 * when it is built, the port lookup a topology fills in, and its three port queries.
 */
module SdxTopology {
  import opened Outcomes
  import opened Text
  import opened Py
  import opened Patterns

  // Messages of the exceptions raised here.
  const AddressAtMost255Msg := "Address must be at most 255 characters."
  const LatitudeBetween9090Msg := "Latitude must be between -90 and 90."
  const LongitudeBetween180180Msg := "Longitude must be between -180 and 180."
  const Iso3166CodeLengthMsg := "ISO 3166-2 level 4 code must be between 2 and 6 characters."
  const InvalidPortNameMsg := "Invalid port name: "
  const InvalidPortIdFormatMsg := "Invalid port ID format: "
  const InvalidPortNodeIdMsg := "Invalid node ID format in port: "
  const MtuBetween150010000Msg := "MTU must be between 1500 and 10000."
  const InvalidNniFormatMsg := "Invalid NNI format: "
  const InvalidNodeNameMsg := "Invalid node name: "
  const InvalidNodeIdMsg := "Invalid node ID format: "
  const NodeWithoutPortsMsg := "A node must have at least one port."
  const InvalidValuesPrivateMsg := "Invalid values in 'private'. Must be one of "
  // The braces in the next two messages print a Python set of str; its order varies
  // between processes with string hashing, and these are one such order.
  const PrivateChoicesMsg := "{'residual_bandwidth', 'latency', 'packet_loss'}, or an empty list."
  const LinkPortCountMsg := "A link must have exactly two ports."
  const InvalidLinkNameMsg := "Invalid link name: "
  const InvalidLinkIdFormatMsg := "Invalid link ID format: "
  const LinkPortIdsMsg := "All elements in 'ports' must be Port object IDs (strings)."
  const BandwidthGreaterThan0Msg := "Bandwidth must be greater than 0."
  const ResidualBandwidthBetween0Msg := "Residual bandwidth must be between 0 and 100."
  const LatencyNonNegativeMsg := "Latency must be non-negative."
  const PacketLossBetween0Msg := "Packet loss must be between 0 and 100."
  const AvailabilityBetween0100Msg := "Availability must be between 0 and 100."
  const InvalidLinkTypeNoneMsg := "Invalid link type: None. Must be one of [<LinkType.INTRA: 'intra'>]."
  const PrivateAttributeListStringsMsg := "The 'private' attribute must be a list of strings."
  const InvalidTopologyNameMsg := "Invalid topology name: "
  const InvalidTopologyIdFormatMsg := "Invalid topology ID format: "
  const VersionAtLeast1Msg := "Version must be at least 1."
  const InvalidTimestampFormatExpectedMsg := "Invalid timestamp format. Expected YYYY-MM-DDTHH:mm:SSZ."
  const TopologyWithoutNodesMsg := "Topology must have at least one node."
  const InvalidServiceTypeL2vpnMsg := "Invalid service type. Must be one of {'l2vpn-ptp', 'l2vpn-ptmp'}."

  datatype Status = Up | Down | Error
  datatype State = Enabled | Disabled | Maintenance
  datatype PortType = FE100 | GE1 | GE10 | GE25 | GE40 | GE50 | GE100 | GE400 | Other
  datatype LinkType = Intra

  /** `NAME_PATTERN.match(name)` and at most 30 characters. */
  predicate NameOk(name: string) {
    NameMatch(name) && |name| <= 30
  }

  // ---------------------------------------------------------------- Location

  datatype Location = Location(latitude: real, longitude: real, iso3166: Option<string>, address: Option<string>)

  predicate LocationValid(l: Location) {
    && (l.address.Some? ==> |l.address.value| <= 255)
    && -90.0 <= l.latitude <= 90.0
    && -180.0 <= l.longitude <= 180.0
    && (l.iso3166.Some? ==> 2 <= |l.iso3166.value| <= 6)
  }

  /** `Location.__post_init__`: address, latitude, longitude, then the length of the code. */
  function MakeLocation(latitude: real, longitude: real, iso3166: Option<string>, address: Option<string>)
    : (r: Result<Location>)
    ensures r.Success? <==> LocationValid(Location(latitude, longitude, iso3166, address))
    ensures r.Success? ==> r.value == Location(latitude, longitude, iso3166, address)
    ensures r.Failure? ==> r.error.ValueError?
  {
    if address.Some? && |address.value| > 255 then Failure(ValueError(AddressAtMost255Msg))
    else if !(-90.0 <= latitude <= 90.0) then Failure(ValueError(LatitudeBetween9090Msg))
    else if !(-180.0 <= longitude <= 180.0) then Failure(ValueError(LongitudeBetween180180Msg))
    else if iso3166.Some? && !(2 <= |iso3166.value| <= 6) then
      Failure(ValueError(Iso3166CodeLengthMsg))
    else Success(Location(latitude, longitude, iso3166, address))
  }

  /** Only the length of the subdivision code is checked, not its content. */
  lemma LocationCodeLengthOnly()
    ensures MakeLocation(0.0, 0.0, Some("??"), None).Success?
  {
  }

  // ---------------------------------------------------------------- Port

  datatype Port = Port(
    name: string, id: string, node: string, ptype: PortType, status: Status, state: State,
    services: Json, mtu: Option<int>, nni: Option<string>, entities: Option<seq<string>>)

  /** `if self.mtu and not (1500 <= self.mtu <= 10000)`: `None` and 0 skip the check. */
  predicate MtuOk(mtu: Option<int>) {
    mtu.None? || mtu.value == 0 || 1500 <= mtu.value <= 10000
  }

  /** An empty or absent NNI is allowed; otherwise it names a port or a link. */
  predicate NniOk(nni: Option<string>) {
    nni.None? || nni.value == "" || PortUrnMatch(nni.value) || LinkUrnMatch(nni.value)
  }

  predicate PortValid(p: Port) {
    NameOk(p.name) && PortUrnMatch(p.id) && NodeUrnMatch(p.node) && MtuOk(p.mtu) && NniOk(p.nni)
  }

  /** `Port.__post_init__`. */
  function MakePort(
    name: string, id: string, node: string, ptype: PortType, status: Status, state: State,
    services: Json, mtu: Option<int>, nni: Option<string>, entities: Option<seq<string>>)
    : (r: Result<Port>)
    ensures r.Success? <==> PortValid(Port(name, id, node, ptype, status, state, services, mtu, nni, entities))
    ensures r.Success? ==> r.value == Port(name, id, node, ptype, status, state, services, mtu, nni, entities)
    ensures r.Failure? ==> r.error.ValueError?
  {
    if !NameOk(name) then Failure(ValueError(InvalidPortNameMsg + name))
    else if !PortUrnMatch(id) then Failure(ValueError(InvalidPortIdFormatMsg + id))
    else if !NodeUrnMatch(node) then Failure(ValueError(InvalidPortNodeIdMsg + node))
    else if !MtuOk(mtu) then Failure(ValueError(MtuBetween150010000Msg))
    else if !NniOk(nni) then Failure(ValueError(InvalidNniFormatMsg + nni.value))
    else Success(Port(name, id, node, ptype, status, state, services, mtu, nni, entities))
  }

  /** Every valid port's id passes the endpoint validators' port-id pattern. */
  lemma ValidPortIdIsEndpointId(p: Port)
    requires PortValid(p)
    ensures PortIdMatch(p.id)
  {
    PortUrnPassesPortIdPattern(p.id);
  }

  /** A URN starts with `u`, so it is never blank. */
  lemma UrnNotBlank(s: string)
    requires PortUrnMatch(s) || LinkUrnMatch(s)
    ensures !IsBlank(s)
  {
    var t := if PortUrnBody(s) || LinkUrnBody(s) then s else Chop(s);
    assert HasPrefix(t, PortPrefix) || HasPrefix(t, LinkPrefix);
    PrefixedNotBlank(s, t);
  }

  /** A text, or the text less its final newline, that starts with `u` is not blank. */
  lemma PrefixedNotBlank(s: string, t: string)
    requires t == s || (EndsWithNewline(s) && t == Chop(s))
    requires HasPrefix(t, PortPrefix) || HasPrefix(t, LinkPrefix)
    ensures !IsBlank(s)
  {
    assert t[0] == 'u';
    assert s[0] == t[0];
  }

  // ---------------------------------------------------------------- Node

  datatype Node = Node(
    name: string, id: string, location: Location, ports: seq<Port>,
    status: Option<Status>, state: Option<State>)

  predicate NodeValid(n: Node) {
    NameOk(n.name) && NodeUrnMatch(n.id) && |n.ports| > 0
  }

  /** `Node.__post_init__`. */
  function MakeNode(
    name: string, id: string, location: Location, ports: seq<Port>,
    status: Option<Status>, state: Option<State>)
    : (r: Result<Node>)
    ensures r.Success? <==> NodeValid(Node(name, id, location, ports, status, state))
    ensures r.Success? ==> r.value == Node(name, id, location, ports, status, state)
    ensures r.Failure? ==> r.error.ValueError?
  {
    if !NameOk(name) then Failure(ValueError(InvalidNodeNameMsg + name))
    else if !NodeUrnMatch(id) then Failure(ValueError(InvalidNodeIdMsg + id))
    else if |ports| == 0 then Failure(ValueError(NodeWithoutPortsMsg))
    else Success(Node(name, id, location, ports, status, state))
  }

  // ---------------------------------------------------------------- Link

  datatype Link = Link(
    name: string, id: string, ports: seq<Json>, bandwidth: real, ltype: Option<LinkType>,
    residualBandwidth: real, latency: real, packetLoss: real, availability: real,
    status: Status, state: State, private: Json)

  const PrivateAttributes: set<string> := {"residual_bandwidth", "latency", "packet_loss"}

  /** `value in valid_private_values` for one element of `private`. */
  predicate PrivateOk(v: Json) {
    v.JStr? && v.s in PrivateAttributes
  }

  predicate LinkValid(l: Link) {
    && NameOk(l.name) && LinkUrnMatch(l.id)
    && |l.ports| == 2 && (forall i | 0 <= i < |l.ports| :: l.ports[i].JStr?)
    && l.bandwidth > 0.0
    && 0.0 <= l.residualBandwidth <= 100.0
    && l.latency >= 0.0
    && 0.0 <= l.packetLoss <= 100.0
    && 0.0 <= l.availability <= 100.0
    && l.ltype.Some?
    && l.private.JList? && (forall i | 0 <= i < |l.private.items| :: PrivateOk(l.private.items[i]))
  }

  /** Checks `all(value in valid_private_values ...)` in order; a list or dict element is unhashable. */
  function CheckPrivate(items: seq<Json>): (r: Outcome)
    ensures r.Pass? <==> forall i | 0 <= i < |items| :: PrivateOk(items[i])
  {
    if |items| == 0 then Pass
    else if items[0].JList? || items[0].JObj? then
      Fail(TypeError(UnhashableTypeMsg + (if items[0].JList? then "list" else "dict") + "'"))
    else if !PrivateOk(items[0]) then
      Fail(ValueError(InvalidValuesPrivateMsg
                      + PrivateChoicesMsg))
    else
      var rest := CheckPrivate(items[1..]);
      assert forall i | 1 <= i < |items| :: items[i] == items[1..][i - 1];
      rest
  }

  /** `Link.__post_init__`. */
  function MakeLink(l: Link): (r: Result<Link>)
    ensures r.Success? <==> LinkValid(l)
    ensures r.Success? ==> r.value == l
    ensures |l.ports| != 2 && NameOk(l.name) && LinkUrnMatch(l.id) ==>
              r == Failure(ValueError(LinkPortCountMsg))
  {
    if !NameOk(l.name) then Failure(ValueError(InvalidLinkNameMsg + l.name))
    else if !LinkUrnMatch(l.id) then Failure(ValueError(InvalidLinkIdFormatMsg + l.id))
    else if |l.ports| != 2 then Failure(ValueError(LinkPortCountMsg))
    else if !(l.ports[0].JStr? && l.ports[1].JStr?) then
      Failure(TypeError(LinkPortIdsMsg))
    else if l.bandwidth <= 0.0 then Failure(ValueError(BandwidthGreaterThan0Msg))
    else if !(0.0 <= l.residualBandwidth <= 100.0) then
      Failure(ValueError(ResidualBandwidthBetween0Msg))
    else if l.latency < 0.0 then Failure(ValueError(LatencyNonNegativeMsg))
    else if !(0.0 <= l.packetLoss <= 100.0) then Failure(ValueError(PacketLossBetween0Msg))
    else if !(0.0 <= l.availability <= 100.0) then Failure(ValueError(AvailabilityBetween0100Msg))
    else if l.ltype.None? then
      Failure(ValueError(InvalidLinkTypeNoneMsg))
    else if !l.private.JList? then Failure(TypeError(PrivateAttributeListStringsMsg))
    else
      var check := CheckPrivate(l.private.items);
      if check.Fail? then Failure(check.error) else Success(l)
  }

  // ---------------------------------------------------------------- the port lookup

  /** `port_lookup`: a dict from port id to port, in insertion order. */
  type Lookup = seq<(string, Port)>

  predicate DistinctKeys(d: Lookup) {
    forall i, j | 0 <= i < j < |d| :: d[i].0 != d[j].0
  }

  function KeySet(d: Lookup): set<string> {
    set i | 0 <= i < |d| :: d[i].0
  }

  lemma KeySetCons(d: Lookup)
    requires |d| > 0
    ensures KeySet(d) == {d[0].0} + KeySet(d[1..])
  {
    forall x | x in KeySet(d) ensures x in {d[0].0} + KeySet(d[1..]) {
      var i :| 0 <= i < |d| && d[i].0 == x;
      if i > 0 { assert d[1..][i - 1].0 == x; }
    }
    forall x | x in KeySet(d[1..]) ensures x in KeySet(d) {
      var i :| 0 <= i < |d| - 1 && d[1..][i].0 == x;
      assert d[i + 1].0 == x;
    }
  }

  /** `d.get(k)`. */
  function Find(d: Lookup, k: string): (r: Option<Port>)
    ensures r.None? <==> k !in KeySet(d)
  {
    if |d| == 0 then None
    else if d[0].0 == k then Some(d[0].1)
    else
      KeySetCons(d);
      Find(d[1..], k)
  }

  /** `d[k] = v`: an existing key keeps its place, a new key goes last. */
  function Assign(d: Lookup, k: string, v: Port): Lookup {
    if |d| == 0 then [(k, v)]
    else if d[0].0 == k then [(k, v)] + d[1..]
    else [d[0]] + Assign(d[1..], k, v)
  }

  /**
   * After `d[k] = v` the key maps to `v`, every other key to what it did, the keys
   * gain `k`, and distinct keys stay distinct.
   */
  lemma {:induction false} AssignSpec(d: Lookup, k: string, v: Port)
    ensures Find(Assign(d, k, v), k) == Some(v)
    ensures forall k' | k' != k :: Find(Assign(d, k, v), k') == Find(d, k')
    ensures KeySet(Assign(d, k, v)) == KeySet(d) + {k}
    ensures DistinctKeys(d) ==> DistinctKeys(Assign(d, k, v))
  {
    var r := Assign(d, k, v);
    if |d| == 0 {
      assert KeySet(r) == {k} by {
        KeySetCons(r);
        assert r[1..] == [];
      }
    } else if d[0].0 == k {
      assert r[1..] == d[1..];
      KeySetCons(r);
      KeySetCons(d);
    } else {
      var rest := Assign(d[1..], k, v);
      AssignSpec(d[1..], k, v);
      assert r[1..] == rest;
      KeySetCons(r);
      KeySetCons(d);
      assert DistinctKeys(d) ==> DistinctKeys(r) by {
        if DistinctKeys(d) {
          assert d[0].0 !in KeySet(d[1..]);
          forall j | 0 < j < |r| ensures r[0].0 != r[j].0 {
            assert r[j].0 in KeySet(rest);
          }
        }
      }
    }
  }

  /** Assigning every port of `ps` in order. */
  function AssignAll(d: Lookup, ps: seq<Port>): Lookup
    decreases |ps|
  {
    if |ps| == 0 then d else AssignAll(Assign(d, ps[0].id, ps[0]), ps[1..])
  }

  lemma {:induction false} AssignAllDistinct(d: Lookup, ps: seq<Port>)
    requires DistinctKeys(d)
    ensures DistinctKeys(AssignAll(d, ps))
    decreases |ps|
  {
    if |ps| > 0 {
      AssignSpec(d, ps[0].id, ps[0]);
      AssignAllDistinct(Assign(d, ps[0].id, ps[0]), ps[1..]);
    }
  }

  lemma AssignAllSnoc(d: Lookup, ps: seq<Port>, j: int)
    requires 0 <= j < |ps|
    ensures AssignAll(d, ps[..j + 1]) == Assign(AssignAll(d, ps[..j]), ps[j].id, ps[j])
  {
    assert ps[..j + 1] == ps[..j] + [ps[j]];
    AssignAllAppend(d, ps[..j], [ps[j]]);
    assert [ps[j]][1..] == [];
  }

  /** The ports of all nodes, node by node. */
  function AllPorts(nodes: seq<Node>): (ps: seq<Port>)
    ensures forall n, p | n in nodes && p in n.ports :: p in ps
  {
    if |nodes| == 0 then [] else nodes[0].ports + AllPorts(nodes[1..])
  }

  function PortIds(ps: seq<Port>): set<string> {
    set i | 0 <= i < |ps| :: ps[i].id
  }

  lemma {:induction false} AssignAllAppend(d: Lookup, a: seq<Port>, b: seq<Port>)
    ensures AssignAll(d, a + b) == AssignAll(AssignAll(d, a), b)
    decreases |a|
  {
    if |a| > 0 {
      assert (a + b)[1..] == a[1..] + b;
      AssignAllAppend(Assign(d, a[0].id, a[0]), a[1..], b);
    } else {
      assert a + b == b;
    }
  }

  lemma AllPortsSnoc(nodes: seq<Node>, i: int)
    requires 0 <= i < |nodes|
    ensures AllPorts(nodes[..i + 1]) == AllPorts(nodes[..i]) + nodes[i].ports
  {
    if i == 0 {
      assert nodes[..1][1..] == [];
    } else {
      assert nodes[..i + 1][1..] == nodes[1..][..i];
      assert nodes[..i][1..] == nodes[1..][..i - 1];
      AllPortsSnoc(nodes[1..], i - 1);
    }
  }

  /** The lookup gains exactly the ids of the assigned ports. */
  lemma {:induction false} AssignAllKeys(d: Lookup, ps: seq<Port>)
    ensures KeySet(AssignAll(d, ps)) == KeySet(d) + PortIds(ps)
    decreases |ps|
  {
    if |ps| > 0 {
      AssignSpec(d, ps[0].id, ps[0]);
      AssignAllKeys(Assign(d, ps[0].id, ps[0]), ps[1..]);
      assert PortIds(ps) == {ps[0].id} + PortIds(ps[1..]) by {
        forall x | x in PortIds(ps) ensures x in {ps[0].id} + PortIds(ps[1..]) {
          var i :| 0 <= i < |ps| && ps[i].id == x;
          if i > 0 { assert ps[1..][i - 1].id == x; }
        }
        forall x | x in PortIds(ps[1..]) ensures x in PortIds(ps) {
          var i :| 0 <= i < |ps| - 1 && ps[1..][i].id == x;
          assert ps[i + 1].id == x;
        }
      }
    } else {
      assert PortIds(ps) == {};
    }
  }

  /** A key the ports never mention keeps its old entry. */
  lemma {:induction false} AssignAllKeepsOthers(d: Lookup, ps: seq<Port>, k: string)
    requires forall j | 0 <= j < |ps| :: ps[j].id != k
    ensures Find(AssignAll(d, ps), k) == Find(d, k)
    decreases |ps|
  {
    if |ps| > 0 {
      AssignSpec(d, ps[0].id, ps[0]);
      AssignAllKeepsOthers(Assign(d, ps[0].id, ps[0]), ps[1..], k);
    }
  }

  /** Later ports overwrite earlier ones: a key maps to the last port carrying it. */
  lemma {:induction false} AssignAllLastWins(d: Lookup, ps: seq<Port>, i: int)
    requires 0 <= i < |ps|
    requires forall j | i < j < |ps| :: ps[j].id != ps[i].id
    ensures Find(AssignAll(d, ps), ps[i].id) == Some(ps[i])
    decreases |ps|
  {
    if i == 0 {
      AssignSpec(d, ps[0].id, ps[0]);
      AssignAllKeepsOthers(Assign(d, ps[0].id, ps[0]), ps[1..], ps[0].id);
    } else {
      AssignAllLastWins(Assign(d, ps[0].id, ps[0]), ps[1..], i - 1);
    }
  }

  /** The dict values in insertion order. */
  function Values(d: Lookup): (vs: seq<Port>)
    ensures |vs| == |d|
    ensures forall i | 0 <= i < |d| :: vs[i] == d[i].1
    ensures forall p :: p in vs <==> exists k :: (k, p) in d
  {
    var vs := seq(|d|, i requires 0 <= i < |d| => d[i].1);
    assert forall p | p in vs :: exists k :: (k, p) in d by {
      forall p | p in vs ensures exists k :: (k, p) in d {
        var i :| 0 <= i < |d| && vs[i] == p;
        assert (d[i].0, p) == d[i];
      }
    }
    vs
  }

  /** Every entry is filed under its own port's id, as `port_lookup[port.id] = port` files it. */
  predicate KeyedById(d: Lookup) {
    forall i | 0 <= i < |d| :: d[i].1.id == d[i].0
  }

  /** Each key once, each entry under its own port's id: what filling the lookup from `{}` gives. */
  predicate WellKeyed(d: Lookup) {
    DistinctKeys(d) && KeyedById(d)
  }

  /** No item occurs twice. */
  predicate NoRepeats(ps: seq<Port>) {
    forall i, j | 0 <= i < j < |ps| :: ps[i] != ps[j]
  }

  /**
   * The ports of `ps` that `keep` selects: each kept port as often as in `ps`, every
   * other one not at all.
   */
  function Filter(ps: seq<Port>, keep: Port -> bool): (r: seq<Port>)
    ensures forall p :: p in r <==> p in ps && keep(p)
    ensures forall p :: multiset(r)[p] == if keep(p) then multiset(ps)[p] else 0
    ensures |r| <= |ps|
  {
    if |ps| == 0 then []
    else
      assert ps == [ps[0]] + ps[1..];
      if keep(ps[0]) then [ps[0]] + Filter(ps[1..], keep)
      else Filter(ps[1..], keep)
  }

  /** Filtering keeps the order: the kept ports of a prefix come before those of the rest. */
  lemma {:induction false} FilterAppend(a: seq<Port>, b: seq<Port>, keep: Port -> bool)
    ensures Filter(a + b, keep) == Filter(a, keep) + Filter(b, keep)
    decreases |a|
  {
    if |a| == 0 {
      assert a + b == b;
    } else {
      assert (a + b)[0] == a[0];
      assert (a + b)[1..] == a[1..] + b;
      FilterAppend(a[1..], b, keep);
    }
  }

  /** A list without repeats filters to a list without repeats. */
  lemma {:induction false} FilterNoRepeats(ps: seq<Port>, keep: Port -> bool)
    requires NoRepeats(ps)
    ensures NoRepeats(Filter(ps, keep))
    decreases |ps|
  {
    if |ps| > 0 {
      var rest := ps[1..];
      NoRepeatsUncons(ps);
      FilterNoRepeats(rest, keep);
      if keep(ps[0]) {
        NoRepeatsCons(ps[0], Filter(rest, keep));
      }
    }
  }

  lemma NoRepeatsUncons(ps: seq<Port>)
    requires |ps| > 0 && NoRepeats(ps)
    ensures NoRepeats(ps[1..]) && ps[0] !in ps[1..]
  {
    var rest := ps[1..];
    forall i, j | 0 <= i < j < |rest| ensures rest[i] != rest[j] {
      assert rest[i] == ps[i + 1] && rest[j] == ps[j + 1];
    }
  }

  lemma NoRepeatsCons(p: Port, ps: seq<Port>)
    requires NoRepeats(ps) && p !in ps
    ensures NoRepeats([p] + ps)
  {
    var r := [p] + ps;
    forall i, j | 0 <= i < j < |r| ensures r[i] != r[j] {
      assert r[j] == ps[j - 1];
      if i > 0 {
        assert r[i] == ps[i - 1];
      }
    }
  }

  /** In a dict keyed by port id, no two entries hold the same port. */
  lemma ValuesNoRepeats(d: Lookup)
    requires DistinctKeys(d) && KeyedById(d)
    ensures NoRepeats(Values(d))
  {
  }

  /** Filtering the values of a dict keyed by port id repeats no port. */
  lemma LookupFilterNoRepeats(d: Lookup, keep: Port -> bool)
    ensures WellKeyed(d) ==> NoRepeats(Filter(Values(d), keep))
  {
    if WellKeyed(d) {
      ValuesNoRepeats(d);
      FilterNoRepeats(Values(d), keep);
    }
  }

  /** `d[port.id] = port` keeps every entry filed under its own port's id. */
  lemma {:induction false} AssignKeyedById(d: Lookup, p: Port)
    requires KeyedById(d)
    ensures KeyedById(Assign(d, p.id, p))
    decreases |d|
  {
    if |d| > 0 && d[0].0 != p.id {
      AssignKeyedById(d[1..], p);
    }
  }

  lemma {:induction false} AssignAllKeyedById(d: Lookup, ps: seq<Port>)
    requires KeyedById(d)
    ensures KeyedById(AssignAll(d, ps))
    decreases |ps|
  {
    if |ps| > 0 {
      AssignKeyedById(d, ps[0]);
      AssignAllKeyedById(Assign(d, ps[0].id, ps[0]), ps[1..]);
    }
  }

  /** `port.status == Status.UP and (not port.nni or port.nni.strip() == "")`. */
  predicate IsAvailable(p: Port) {
    p.status == Up && (p.nni.None? || IsBlank(p.nni.value))
  }

  /** For a valid port, available means up with no NNI at all. */
  lemma AvailableValidPort(p: Port)
    requires PortValid(p)
    ensures IsAvailable(p) <==> p.status == Up && (p.nni.None? || p.nni.value == "")
  {
    if p.nni.Some? && p.nni.value != "" {
      UrnNotBlank(p.nni.value);
    }
  }

  /** `search_term.lower() in port.name.lower()`. */
  predicate NameMatches(term: string, p: Port) {
    IsSubstring(Lower(term), Lower(p.name))
  }

  /** Some entity of the port contains the term, ignoring case (`None` entities have none). */
  predicate EntityMatches(term: string, p: Port) {
    p.entities.Some? &&
    exists i | 0 <= i < |p.entities.value| :: IsSubstring(Lower(term), Lower(p.entities.value[i]))
  }

  /** The TypeError of `for entity in None`. */
  const NoneNotIterable := TypeError("'NoneType" + ObjectNotIterableMsg)

  const AllowedServices: set<string> := {"l2vpn-ptp", "l2vpn-ptmp"}

  /** The field checks of `Topology.__post_init__`, in order. */
  function CheckTopology(
    name: string, id: string, version: int, timestamp: string,
    nodes: seq<Node>, services: Option<seq<string>>)
    : (r: Outcome)
    ensures r.Pass? <==>
              && NameOk(name) && TopologyUrnMatch(id) && version >= 1 && IsoZMatch(timestamp)
              && |nodes| > 0
              && (services.Some? ==> forall s | s in services.value :: s in AllowedServices)
    ensures r.Fail? ==> r.error.ValueError?
  {
    if !NameOk(name) then Fail(ValueError(InvalidTopologyNameMsg + name))
    else if !TopologyUrnMatch(id) then Fail(ValueError(InvalidTopologyIdFormatMsg + id))
    else if version < 1 then Fail(ValueError(VersionAtLeast1Msg))
    else if !IsoZMatch(timestamp) then Fail(ValueError(InvalidTimestampFormatExpectedMsg))
    else if |nodes| == 0 then Fail(ValueError(TopologyWithoutNodesMsg))
    else if services.Some? && !(forall s | s in services.value :: s in AllowedServices) then
      Fail(ValueError(InvalidServiceTypeL2vpnMsg))
    else Pass
  }

  /** A processed topology with its port lookup. */
  class Topology {
    const name: string
    const id: string
    const version: int
    const timestamp: string
    const modelVersion: Option<string>
    const nodes: seq<Node>
    var links: seq<Link>
    var services: seq<string>
    var portLookup: Lookup

    constructor Init(
      name: string, id: string, version: int, timestamp: string, modelVersion: Option<string>,
      nodes: seq<Node>, links: seq<Link>, services: seq<string>, portLookup: Lookup)
      ensures this.name == name && this.id == id && this.version == version
      ensures this.timestamp == timestamp && this.modelVersion == modelVersion
      ensures this.nodes == nodes && this.links == links && this.services == services
      ensures this.portLookup == portLookup
    {
      this.name := name;
      this.id := id;
      this.version := version;
      this.timestamp := timestamp;
      this.modelVersion := modelVersion;
      this.nodes := nodes;
      this.links := links;
      this.services := services;
      this.portLookup := portLookup;
    }

    /**
     * `Topology(...)`: checks the fields, defaults `links` to `[]` and `services` to
     * `["l2vpn-ptp"]`, then fills the port lookup.
     */
    static method Create(
      name: string, id: string, version: int, timestamp: string, modelVersion: Option<string>,
      nodes: seq<Node>, links: Option<seq<Link>>, services: Option<seq<string>>, portLookup: Lookup)
      returns (r: Result<Topology>)
      ensures r.Success? <==> CheckTopology(name, id, version, timestamp, nodes, services).Pass?
      ensures r.Failure? ==> r.error == CheckTopology(name, id, version, timestamp, nodes, services).error
      ensures r.Success? ==>
                && fresh(r.value)
                && r.value.name == name && r.value.id == id && r.value.version == version
                && r.value.timestamp == timestamp && r.value.nodes == nodes
                && r.value.links == (if links.None? then [] else links.value)
                && r.value.services == (if services.None? then ["l2vpn-ptp"] else services.value)
                && r.value.portLookup == AssignAll(portLookup, AllPorts(nodes))
    {
      var check := CheckTopology(name, id, version, timestamp, nodes, services);
      if check.Fail? {
        return Failure(check.error);
      }
      var t := new Topology.Init(
        name, id, version, timestamp, modelVersion, nodes,
        if links.None? then [] else links.value,
        if services.None? then ["l2vpn-ptp"] else services.value,
        portLookup);
      t.FillPortLookup();
      return Success(t);
    }

    /** The nested loop over nodes and their ports that fills `port_lookup`. */
    method FillPortLookup()
      modifies this
      ensures portLookup == AssignAll(old(portLookup), AllPorts(nodes))
      ensures links == old(links) && services == old(services)
    {
      for i := 0 to |nodes|
        invariant portLookup == AssignAll(old(portLookup), AllPorts(nodes[..i]))
        invariant links == old(links) && services == old(services)
      {
        AssignPorts(nodes[i].ports);
        AllPortsSnoc(nodes, i);
        AssignAllAppend(old(portLookup), AllPorts(nodes[..i]), nodes[i].ports);
      }
      assert nodes[..|nodes|] == nodes;
    }

    /** The inner loop: `self.port_lookup[port.id] = port` for each port of one node. */
    method AssignPorts(ports: seq<Port>)
      modifies this
      ensures portLookup == AssignAll(old(portLookup), ports)
      ensures links == old(links) && services == old(services)
    {
      for j := 0 to |ports|
        invariant portLookup == AssignAll(old(portLookup), ports[..j])
        invariant links == old(links) && services == old(services)
      {
        AssignAllSnoc(old(portLookup), ports, j);
        portLookup := Assign(portLookup, ports[j].id, ports[j]);
      }
      assert ports[..|ports|] == ports;
    }

    /** `port_lookup.values()`. */
    function LookupPorts(): seq<Port>
      reads this
    {
      Values(portLookup)
    }

    /** `get_available_ports`: the looked-up ports that are up and have a blank NNI. */
    function AvailablePorts(): (r: seq<Port>)
      reads this
      ensures forall p :: p in r <==> p in LookupPorts() && IsAvailable(p)
      ensures forall p :: multiset(r)[p] == if IsAvailable(p) then multiset(LookupPorts())[p] else 0
      ensures WellKeyed(portLookup) ==> NoRepeats(r)
    {
      LookupFilterNoRepeats(portLookup, IsAvailable);
      Filter(LookupPorts(), IsAvailable)
    }

    /** `search_ports`: the looked-up ports whose name contains the term, ignoring case. */
    function SearchPorts(term: string): (r: seq<Port>)
      reads this
      ensures forall p :: p in r <==> p in LookupPorts() && NameMatches(term, p)
      ensures forall p :: multiset(r)[p] == if NameMatches(term, p) then multiset(LookupPorts())[p] else 0
      ensures WellKeyed(portLookup) ==> NoRepeats(r)
    {
      LookupFilterNoRepeats(portLookup, p => NameMatches(term, p));
      Filter(LookupPorts(), p => NameMatches(term, p))
    }

    /**
     * `search_entities`: the looked-up ports with an entity containing the term; a
     * looked-up port whose `entities` is `None` cannot be iterated and raises TypeError.
     */
    function SearchEntities(term: string): (r: Result<seq<Port>>)
      reads this
      ensures r.Failure? <==> exists p | p in LookupPorts() :: p.entities.None?
      ensures r.Failure? ==> r.error == NoneNotIterable
      ensures r.Success? ==> forall p :: p in r.value <==> p in LookupPorts() && EntityMatches(term, p)
      ensures r.Success? ==>
                forall p :: multiset(r.value)[p] == if EntityMatches(term, p) then multiset(LookupPorts())[p] else 0
      ensures r.Success? && WellKeyed(portLookup) ==> NoRepeats(r.value)
    {
      if exists p | p in LookupPorts() :: p.entities.None? then Failure(NoneNotIterable)
      else
        LookupFilterNoRepeats(portLookup, p => EntityMatches(term, p));
        Success(Filter(LookupPorts(), p => EntityMatches(term, p)))
    }
  }

  /** Starting from the default empty dict, the lookup's keys are exactly the port ids. */
  lemma DefaultLookupKeys(nodes: seq<Node>)
    ensures KeySet(AssignAll([], AllPorts(nodes))) == PortIds(AllPorts(nodes))
    ensures WellKeyed(AssignAll([], AllPorts(nodes)))
  {
    AssignAllKeys([], AllPorts(nodes));
    AssignAllDistinct([], AllPorts(nodes));
    AssignAllKeyedById([], AllPorts(nodes));
    assert KeySet([]) == {};
  }

  /** Every port of every node is found under its id, or under a later port with that id. */
  lemma LookupHasEveryPort(d: Lookup, nodes: seq<Node>, n: Node, p: Port)
    requires n in nodes && p in n.ports
    ensures Find(AssignAll(d, AllPorts(nodes)), p.id).Some?
    ensures Find(AssignAll(d, AllPorts(nodes)), p.id).value.id == p.id
  {
    var ps := AllPorts(nodes);
    AssignAllKeys(d, ps);
    assert p in ps;
    var i :| 0 <= i < |ps| && ps[i] == p;
    assert p.id in PortIds(ps);
    var last := LastWithId(ps, p.id, i);
    AssignAllLastWins(d, ps, last);
  }

  /** The position of the last port in `ps` whose id is `k`, at or after `i`. */
  function LastWithId(ps: seq<Port>, k: string, i: int): (j: int)
    requires 0 <= i < |ps| && ps[i].id == k
    ensures i <= j < |ps| && ps[j].id == k
    ensures forall m | j < m < |ps| :: ps[m].id != k
    decreases |ps| - i
  {
    if exists m | i < m < |ps| :: ps[m].id == k then
      var m :| i < m < |ps| && ps[m].id == k;
      LastWithId(ps, k, m)
    else i
  }
}
