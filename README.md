# sdx-lib core in Dafny

A model of the computational core of `sdxlib`, the Python client library of the
AtlanticWave-SDX controller. The core has four parts:

- **Two L2VPN request validators.**
  - `validator.py` is the strict variant. Every endpoint is normalised to
    `{port_id, vlan}`, and all endpoints must carry the same VLAN text.
  - `SDXValidator` in `sdx_validator.py` is the loose variant. Only ranges and
    the special keywords must be uniform. It also has name, description,
    notification, scheduling and QoS validators.
- **The topology records of `sdx_topology.py`.** These are Location, Port, Node,
  Link and Topology, each with its `__post_init__` checks, plus the
  `port_lookup` index and its three queries.
- **Two VLAN availability engines.**
  - In `topology_utils.py`: VLAN values are expanded, the advertised
    `[start, end]` pairs are united, the in-use VLANs are subtracted, and the
    rest is collapsed into maximal runs printed as `"a-b, c"`.
  - In `sdx_topology_utils.py`, an older variant: the default range is
    1..4094, only `int` VLANs count, and at most ten free VLANs are shown.
- **Small records.**
  - `SDXResponse` field capture and equality.
  - `normalize_l2vpn_response`.
  - The message of `SDXException`.
  - The request payload and header builders.
  - `TokenAuth`.

## How Python is modelled

- An untyped Python value is the datatype `Py.Json`. It covers `None`, bool,
  int, float (as `real`), str, list and dict.
- A dict is the list of its entries in insertion order. `.get` takes the
  first entry with the key, which is the only entry, since Python dicts never
  repeat a key.
- A raised exception is the `Failure` of a `Result`, or the `Fail` of an
  `Outcome` for a function that returns `None`. It carries the exception class
  (ValueError, TypeError, AttributeError, KeyError) and the fixed part of its
  message. Where a message prints a Python set, the model fixes one order of its
  names (see "## Left out").
- `isinstance(v, int)` holds for `bool` as well, as in Python.
- String methods (`strip`, `lower`, `split`, `isdigit`, `int()`, `in`) are
  in module `Text`.
- Regular expressions are character predicates in module `Patterns`. There,
  `$` also matches before a final newline, as Python's `re` does.
- Each module follows one source file:
  - `Validator`: validator.py.
  - `SdxValidator`: sdx_validator.py.
  - `SdxTopology`: sdx_topology.py.
  - `TopologyUtils` and `VlanRuns`: topology_utils.py.
  - `SdxTopologyUtils`: sdx_topology_utils.py.
  - `SdxResponse`, `Response`, `SdxException`, `SdxRequest`, `TokenAuth`: one
    module each.
- Code that updates variables in a loop is a method. Its `ensures` ties the
  result to a specification function, and lemmas state what that function
  means. Code that updates an object's fields is a class:
  - `SdxTopology.Topology` fills `port_lookup`;
  - `SdxResponse.SdxResponse`;
  - `SdxException.SdxException`;
  - `TokenAuth.TokenAuth`.

Some checks one might expect are absent from the code, and the model leaves them out too:

- `SDXResponse` checks no required field and no status or state value.
  Equality compares ten fields, not every field.
- `Port` does not check that its id names its node. `vlan_range` pairs are
  not checked, because that check is commented out.
- Each validator's VLAN rules are its own. Only the strict variant
  lower-cases keywords. Only it requires equal numeric tags.
- In `sdx_topology_utils.py`, a port without a `vlan_range` offers 1..4094.

## Model

| member | source | states |
|---|---|---|
| Validator.ValidateRequiredUrl | sdxlib/validator.py:22-26 | accepts exactly a string with a non-whitespace character and returns it unchanged; otherwise the fixed ValueError |
| Validator.ValidateName | sdxlib/validator.py:34-40 | accepts exactly a non-blank string of at most 50 characters and returns it unchanged; anything else raises ValueError |
| Validator.IsValidEmail | sdxlib/validator.py:44-45 | an accepted address is a string that holds `@` and has no whitespace before its last character |
| Validator.EmailAccepted | sdxlib/validator.py:44-45 | any two non-empty whitespace-free texts joined by `@` are accepted |
| Validator.ValidateNotifications | sdxlib/validator.py:47-62 | `None` gives `None`; a non-list or more than ten entries raises; otherwise accepted iff every entry is a dict with a valid `email`, and the result has the same length and order with each entry reduced to `{"email": e}` |
| Validator.ValidateVlanRange | sdxlib/validator.py:66-76 | accepts exactly `A:B` with one colon, both sides read by `int()` and `1 <= A < B <= 4095`, returning the text unchanged |
| Validator.RangeSplitsInTwo | sdxlib/validator.py:69 | an accepted range splits into exactly two pieces at `:`, and for a two-piece split acceptance is exactly the bounds test on the pieces |
| Validator.NormalizeVlan | sdxlib/validator.py:88 | `.strip().lower()`: the result is a lower-cased slice of the text with only whitespace cut from either end; it neither starts nor ends with whitespace and holds no upper-case letter |
| Validator.NormalizeVlanIdempotent | sdxlib/validator.py:88 | normalising a normalised text changes nothing |
| Validator.ValidateVlanText | sdxlib/validator.py:88-103 | a normalised VLAN is accepted iff it is a special keyword, a digit run in 1..4095 or an accepted range; the text is kept and has one of those three shapes |
| Validator.ValidateEndpointDictSpec | sdxlib/validator.py:78-103 | a non-dict raises TypeError; otherwise accepted iff `port_id` is a string matching the port-id pattern and the stripped, lower-cased `vlan` is accepted; the result is exactly `{port_id, vlan}` with the normalised VLAN, every other key dropped |
| Validator.SingleDistinctIff | sdxlib/validator.py:121 | a non-empty list of texts has one distinct value exactly when all its entries are equal |
| Validator.ValidatedShapes | sdxlib/validator.py:116 | every validated endpoint carries a keyword, a digit run or a range, one per input endpoint |
| Validator.VlanUniformity | sdxlib/validator.py:119-136 | the three uniformity branches pass exactly when all VLAN texts are identical; a failure gives the keyword message if a keyword is present, else the range message if a range is present, else the numeric one |
| Validator.ValidateEndpoints | sdxlib/validator.py:105-136 | raises ValueError unless given a list of at least two entries; otherwise raises the first failing endpoint's error, or the uniformity ValueError of the texts when they differ; succeeds iff every endpoint validates and all normalised VLAN texts are identical, returning the validated endpoints in order |
| Validator.DifferentVlansRejected | sdxlib/validator.py:131-135 | two valid endpoints with different normalised VLANs (`"100"` and `"200"`, or `"0100"` and `"100"`) are rejected together |
| Validator.VlanIdBoundaries | sdxlib/validator.py:92-96 | VLAN ids 1 and 4095 are accepted; 0 and 4096 are rejected |
| Validator.VlanRangeAccepted | sdxlib/validator.py:74 | the range `1:4095` is accepted |
| Validator.VlanEmptyRangeRejected | sdxlib/validator.py:74 | the range `4095:4095` is rejected |
| Validator.SameSidesNotAccepted | sdxlib/validator.py:88-103 | `A:A` is accepted under no branch |
| Validator.ColonRulesOutIdAndKeyword | sdxlib/validator.py:89-98 | a text holding a colon is neither a digit run nor a keyword, so only the range branch can take it |
| Validator.DigitRange | sdxlib/validator.py:66-76 | two digit runs around a colon form an accepted range exactly when `1 <= A < B <= 4095` |
| Validator.IsValidIso8601 | sdxlib/validator.py:140-143 | an accepted timestamp is a string of 20 characters, or 21 with a final newline, with `Z` at position 19 |
| Validator.Iso8601ShapeOnly | sdxlib/validator.py:140 | the shape alone is checked: `2024-13-45T99:99:99Z` passes |
| Validator.ValidateScheduling | sdxlib/validator.py:145-162 | `None` gives `None`; a non-dict raises TypeError; a dict is accepted iff each given time is in ISO shape and, when both are truthy, the end is after the start; the result keeps only the given times under their own keys, and is `None` when neither is given |
| Validator.CollectTimes | sdxlib/validator.py:159-162 | the output dict holds exactly the given times, each under its key, and is empty only when neither is given |
| Validator.QosBounds | sdxlib/validator.py:174 | `min_bw` is bounded by 0 and 100, `max_delay` by 0 and 1000, `max_number_oxps` by 1 and 100 |
| Validator.QosEntry | sdxlib/validator.py:177-188 | an entry is accepted iff its key is a known metric, its spec a dict, `value` an int within the metric's bounds, and `strict` a bool when given; the stored entry holds `value`, and `strict` only when it was given |
| Validator.QosBoolValueAccepted | sdxlib/validator.py:181 | `value=True` is an int to Python and passes |
| Validator.ValidateQosMetrics | sdxlib/validator.py:164-189 | `None` gives `None`; a non-dict raises TypeError; a dict is accepted iff every entry is, the output mirrors the keys in order, and a failure is the error of the first failing entry |
| Validator.ValidateRequiredAttributes | sdxlib/validator.py:28-32 | passes iff URL, name and endpoints all validate; raises the URL error first, then the name error, then the endpoints error |
| SdxValidator.ValidateRequiredUrl | sdxlib/sdx_validator.py:19-36 | accepts iff the environment is a non-blank string whose stripped, lower-cased form contains `test` or `prod`; the URL is the base followed by the environment exactly as given |
| SdxValidator.ValidateRequiredAttributes | sdxlib/sdx_validator.py:39-41 | passes iff URL, name and endpoints are all truthy; otherwise the fixed ValueError |
| SdxValidator.ValidateNonEmptyString | sdxlib/sdx_validator.py:44-47 | accepts exactly a non-blank string and returns it unchanged; the error names the field |
| SdxValidator.ValidateName | sdxlib/sdx_validator.py:50-53 | `None` and `""` pass; a truthy value must be a string of at most 50 characters; the value comes back unchanged |
| SdxValidator.Len | sdxlib/sdx_validator.py:73 | `len` is defined exactly for strings, lists and dicts |
| SdxValidator.ValidateDescription | sdxlib/sdx_validator.py:72-75 | only a truthy value longer than 255 is refused with ValueError; a truthy value without a length raises TypeError; the value comes back unchanged |
| SdxValidator.ValidateNotifications | sdxlib/sdx_validator.py:84-101 | `None` stands for one entry with the token's e-mail; a non-list or more than ten entries raises; accepted iff every entry is a dict with a valid `email`; accepted entries come back unchanged |
| SdxValidator.ValidateVlanRange | sdxlib/sdx_validator.py:104-114 | accepts exactly the ranges the strict validator accepts, returning `{"vlan": range}` |
| SdxValidator.CheckVlanValue | sdxlib/sdx_validator.py:132-146 | on the raw text, accepted iff it is a keyword, a digit run in 1..4095 or a range; the result tells whether it was a range |
| SdxValidator.ValidateEndpointDictSpec | sdxlib/sdx_validator.py:117-146 | a non-dict raises TypeError; otherwise accepted iff `port_id` is a matching string and `vlan` an accepted string as given; a range endpoint becomes `{"vlan": range}`, losing `port_id`, and any other endpoint comes back unchanged |
| SdxValidator.AcceptedVlan | sdxlib/sdx_validator.py:132-141 | an accepted endpoint keeps its `vlan` string, which has one of the three forms |
| SdxValidator.LooseUniformity | sdxlib/sdx_validator.py:158-169 | passes iff, when some endpoint uses a range or a keyword, all VLAN texts are identical; differing numbers pass |
| SdxValidator.AcceptedVlans | sdxlib/sdx_validator.py:159 | every accepted endpoint keeps a `vlan` text of one of the three forms |
| SdxValidator.ValidateEndpoints | sdxlib/sdx_validator.py:149-171 | a falsy argument gives `[]`; a truthy non-list raises TypeError; one entry raises ValueError; a failing endpoint raises its error, the first in order; otherwise accepted iff the loose uniformity holds, else a ValueError, returning the validated endpoints |
| SdxValidator.NumericEndpointsAccepted | sdxlib/sdx_validator.py:163-171 | two valid endpoints with numeric VLANs pass, equal or not |
| SdxValidator.NumbersUseNoRangeOrKeyword | sdxlib/sdx_validator.py:162-163 | digit strings are neither ranges nor keywords |
| SdxValidator.DistinctNumbersSplitTheValidators | sdxlib/sdx_validator.py:149-171 | two endpoints with different numeric VLANs pass the loose validator and fail the strict one |
| SdxValidator.SchedulingEntry | sdxlib/sdx_validator.py:185-192 | an entry passes iff its key is `start_time` or `end_time` and its value an ISO string; TypeError exactly for a known key with a non-string value |
| SdxValidator.ValidateScheduling | sdxlib/sdx_validator.py:178-198 | `None` gives `None`; a non-dict raises TypeError; a dict is accepted iff every entry passes and, with both times present, the end is after the start; the dict comes back unchanged; a failure is the first failing entry's error or the ordering error |
| SdxValidator.AllEntriesValid | sdxlib/sdx_validator.py:188-191 | when every entry passes, each present time is a string |
| SdxValidator.ValidateQosMetricValue | sdxlib/sdx_validator.py:201-210 | passes iff `value` is an int, `strict` a bool when given, and the value within the metric's bounds; a missing or non-int value gives its ValueError; TypeError exactly for a bad `strict` after a good value; KeyError only for an unknown metric |
| SdxValidator.QosItem | sdxlib/sdx_validator.py:220-223 | an entry passes iff its name is known, its spec a dict and the value checks pass |
| SdxValidator.ValidateQosMetrics | sdxlib/sdx_validator.py:213-223 | `None` passes; a non-dict raises TypeError; a dict passes iff every entry does, and a failure is the first failing entry's |
| SdxValidator.StrictCheckedBeforeBounds | sdxlib/sdx_validator.py:202-210 | a bad `strict` is reported before an out-of-range value |
| Patterns.PortUrnPassesPortIdPattern | sdxlib/validator.py:17 | every port URN the topology model accepts passes the validators' port-id pattern |
| Patterns.PortSegmentsInPortIdClass | sdxlib/sdx_topology.py:23-25 | the domain, node and port segments and their colons lie in the validators' character class |
| Patterns.PortIdAllowsColonsInSegments | sdxlib/validator.py:17 | the class range `,-_` holds `:`, so a four-segment id passes |
| Patterns.PortIdAllowsBareDomain | sdxlib/validator.py:17 | the validators do not require a dotted domain |
| SdxTopology.MakeLocation | sdxlib/sdx_topology.py:73-83 | succeeds iff address ≤ 255, latitude in [-90, 90], longitude in [-180, 180] and a given code has length 2..6; returns the record unchanged; failures are ValueError |
| SdxTopology.LocationCodeLengthOnly | sdxlib/sdx_topology.py:80-83 | only the length of the subdivision code is checked |
| SdxTopology.MakePort | sdxlib/sdx_topology.py:125-138 | succeeds iff the name matches, the id is a port URN, the node a node URN, a truthy MTU lies in [1500, 10000], and a non-empty NNI is a port or link URN; failures are ValueError |
| SdxTopology.ValidPortIdIsEndpointId | sdxlib/sdx_topology.py:128 | the id of every valid port is a valid endpoint `port_id` |
| SdxTopology.UrnNotBlank | sdxlib/sdx_topology.py:136 | a port or link URN is never blank |
| SdxTopology.MakeNode | sdxlib/sdx_topology.py:171-181 | succeeds iff the name matches, the id is a node URN and the port list is non-empty |
| SdxTopology.CheckPrivate | sdxlib/sdx_topology.py:228-234 | passes iff every `private` element is one of the three metric names |
| SdxTopology.MakeLink | sdxlib/sdx_topology.py:199-234 | succeeds iff name, URN, exactly two string ports, bandwidth > 0, percentages in [0, 100], latency ≥ 0, type INTRA and valid `private`; with a good name and id, a port count other than two gives the port-count error |
| SdxTopology.CheckTopology | sdxlib/sdx_topology.py:258-289 | passes iff the name matches, the id is a topology URN, version ≥ 1, the timestamp has ISO shape, there is a node, and given services are all allowed |
| SdxTopology.Find | sdxlib/sdx_topology.py:253 | a lookup misses exactly the keys not in the dict |
| SdxTopology.AssignSpec | sdxlib/sdx_topology.py:294 | after `d[k] = v`, `k` maps to `v`, other keys are unchanged, the key set gains `k`, and keys stay distinct |
| SdxTopology.AssignAllKeys | sdxlib/sdx_topology.py:292-294 | the lookup gains exactly the ids of the assigned ports |
| SdxTopology.AssignAllKeepsOthers | sdxlib/sdx_topology.py:292-294 | a key no port carries keeps its old entry |
| SdxTopology.AssignAllLastWins | sdxlib/sdx_topology.py:292-294 | a key maps to the last port that carries it |
| SdxTopology.AllPorts | sdxlib/sdx_topology.py:292-293 | the ports of all nodes, node by node |
| SdxTopology.Values | sdxlib/sdx_topology.py:302 | `values()` lists one value per entry, in insertion order, and a port is listed exactly when some key maps to it |
| SdxTopology.Filter | sdxlib/sdx_topology.py:300-304 | a selected port occurs as often as in the input, any other not at all |
| SdxTopology.FilterAppend | sdxlib/sdx_topology.py:300-304 | the comprehension keeps input order: filtering `a + b` gives the kept ports of `a`, then those of `b` |
| SdxTopology.FilterNoRepeats | sdxlib/sdx_topology.py:300-304 | a list without repeats filters to a list without repeats |
| SdxTopology.ValuesNoRepeats | sdxlib/sdx_topology.py:292-294 | a dict whose keys are distinct port ids, each filed under its own port, holds no port twice |
| SdxTopology.LookupFilterNoRepeats | sdxlib/sdx_topology.py:300-304 | filtering the values of such a dict repeats no port |
| SdxTopology.AssignKeyedById | sdxlib/sdx_topology.py:294 | `d[port.id] = port` keeps every entry filed under its own port's id |
| SdxTopology.AssignAllKeyedById | sdxlib/sdx_topology.py:292-294 | so does the whole loop |
| SdxTopology.AvailableValidPort | sdxlib/sdx_topology.py:303 | for a valid port, available means up with an absent or empty NNI |
| SdxTopology.Topology.Init | sdxlib/sdx_topology.py:243-253 | stores every field as given |
| SdxTopology.Topology.Create | sdxlib/sdx_topology.py:255-294 | succeeds iff the field checks pass and fails with their error; `links` defaults to `[]`, `services` to `["l2vpn-ptp"]`, and `port_lookup` is filled from every port of every node in order |
| SdxTopology.Topology.FillPortLookup | sdxlib/sdx_topology.py:291-294 | the nested loop assigns every port of every node, in order, leaving the other fields alone |
| SdxTopology.Topology.AssignPorts | sdxlib/sdx_topology.py:293-294 | the inner loop assigns each port of one node under its id |
| SdxTopology.Topology.AvailablePorts | sdxlib/sdx_topology.py:296-304 | exactly the looked-up ports that are up and whose NNI is absent or whitespace, each as often as among the values (so in lookup order, by FilterAppend); no port twice when the lookup is keyed by port id |
| SdxTopology.Topology.SearchPorts | sdxlib/sdx_topology.py:306-312 | exactly the looked-up ports whose name contains the term, ignoring case, each as often as among the values (so in lookup order, by FilterAppend); no port twice when the lookup is keyed by port id |
| SdxTopology.Topology.SearchEntities | sdxlib/sdx_topology.py:314-320 | raises TypeError exactly when a looked-up port has `None` entities; otherwise exactly the looked-up ports with an entity containing the term, ignoring case, each as often as among the values (so in lookup order, by FilterAppend); no port twice when the lookup is keyed by port id |
| SdxTopology.DefaultLookupKeys | sdxlib/sdx_topology.py:253 | from the default empty dict, the lookup's keys are exactly the port ids, each once, each holding a port with that id |
| SdxTopology.LookupHasEveryPort | sdxlib/sdx_topology.py:291-294 | every port of every node is found under its id |
| VlanRuns.Interval | sdxlib/topology_utils.py:160 | `range(a, b + 1)` holds exactly `a..b` in order, empty when `a > b` |
| VlanRuns.Insert | sdxlib/topology_utils.py:247 | adding to a set kept as an ascending list adds exactly that value and keeps the list ascending |
| VlanRuns.InsertAll | sdxlib/topology_utils.py:246-247 | adding several values adds exactly those values and keeps the list ascending |
| VlanRuns.Runs | sdxlib/topology_utils.py:188-198 | a non-empty list has runs, and the first starts at its first value |
| VlanRuns.RunsExpand | sdxlib/topology_utils.py:188-198 | expanding the runs gives back the list |
| VlanRuns.RunsSeparated | sdxlib/topology_utils.py:188-198 | the runs of an ascending list are ascending and maximal |
| VlanRuns.CollapseRuns | sdxlib/topology_utils.py:189-198 | the collapse loop prints exactly the runs of the list, joined by `", "` |
| VlanRuns.CollapseGrow | sdxlib/topology_utils.py:192-193 | a value that extends the open run grows it |
| VlanRuns.CollapseSplit | sdxlib/topology_utils.py:194-196 | any other value closes the open run and opens a new one |
| VlanRuns.CollapseEnd | sdxlib/topology_utils.py:197 | closing the last run gives all the runs |
| TopologyUtils.ParseVlanValue | sdxlib/topology_utils.py:138-168 | returns exactly the parsed list: an int gives itself, another non-string nothing, a string the VLANs of its stripped comma parts in order, duplicates kept |
| TopologyUtils.ReadParts | sdxlib/topology_utils.py:154-167 | the loop over the parts extends the list by each part's VLANs, in order |
| TopologyUtils.ReadPart | sdxlib/topology_utils.py:155-167 | one part adds its range, its number, or nothing |
| TopologyUtils.ReadRange | sdxlib/topology_utils.py:157-162 | the `try` block adds `A..B`, or nothing when `int()` raises or there are not two pieces |
| TopologyUtils.PartsVlansMembers | sdxlib/topology_utils.py:152-168 | a VLAN is in the result exactly when one of the comma parts contributes it |
| TopologyUtils.PartRange | sdxlib/topology_utils.py:155-160 | `"A-B"` and `"A:B"` expand to `A..B`, empty when `A > B` |
| TopologyUtils.PartNumber | sdxlib/topology_utils.py:164-165 | a digit part gives its one VLAN |
| TopologyUtils.DashBeforeColon | sdxlib/topology_utils.py:156 | `-` wins as separator: `"1:2"` gives `[1, 2]` but `"1:2-3"` gives nothing |
| TopologyUtils.RunTextParses | sdxlib/topology_utils.py:195-197 | each printed run of non-negative VLANs reads back as the run's values |
| TopologyUtils.RenderedRunsParseBack | sdxlib/topology_utils.py:188-198 | printing the runs of non-negative VLANs and reading the text back with `_parse_vlan_value` gives the list again |
| TopologyUtils.UsageGet | sdxlib/topology_utils.py:249 | with sorted usage lists, a port's list is ascending |
| TopologyUtils.PairsOf | sdxlib/topology_utils.py:179-183 | the pairs exist iff every entry reads as two ints, one pair per entry |
| TopologyUtils.RangePairs | sdxlib/topology_utils.py:173-183 | the pairs exist iff every lookup lands on a dict, the data is a non-empty list and every entry is a two-element list of ints |
| TopologyUtils.Candidates | sdxlib/topology_utils.py:182-184 | exactly the values in the window that some pair covers and that are not in use, ascending |
| TopologyUtils.Available | sdxlib/topology_utils.py:182-184 | exactly the union of the pairs' intervals minus the in-use VLANs, sorted without repeats |
| TopologyUtils.AvailableVlans | sdxlib/topology_utils.py:173-186 | no set where the pairs are unusable or the port id is unhashable; otherwise exactly the covered, unused VLANs, ascending |
| TopologyUtils.VlanRangeText | sdxlib/topology_utils.py:171-202 | `"None"` exactly when nothing is free or the data is unusable; otherwise the maximal runs of the free VLANs, ascending, printed `"a-b, c"`; for non-negative VLANs the text reads back as exactly the free set |
| TopologyUtils.GetVlanRange | sdxlib/topology_utils.py:171-202 | the method returns exactly that text |
| TopologyUtils.AddVlanGet | sdxlib/topology_utils.py:247 | adding a VLAN to a port adds exactly it there, touches no other port and keeps lists sorted |
| TopologyUtils.AddVlansGet | sdxlib/topology_utils.py:246-247 | adding several VLANs adds exactly those and touches no other port |
| TopologyUtils.UsageOfMembers | sdxlib/topology_utils.py:239-249 | a VLAN is in use on a port exactly when some recorded endpoint contributes it |
| TopologyUtils.UsageOfSorted | sdxlib/topology_utils.py:249 | every port's list is sorted without repeats |
| TopologyUtils.UsageSorted | sdxlib/topology_utils.py:249 | the VLANs in use on a port come out ascending and without repeats |
| TopologyUtils.VlansInUse | sdxlib/topology_utils.py:239-249 | fails exactly when a recorded endpoint has an unhashable port id; with the `unhashable type` TypeError of the first such endpoint; otherwise the usage of all endpoints in order |
| TopologyUtils.RecordEndpoints | sdxlib/topology_utils.py:240-247 | the loop over one L2VPN's endpoints fails iff some endpoint cannot be recorded, with the TypeError of the first such endpoint; otherwise it ends at the usage after all of them |
| TopologyUtils.RecordEndpoint | sdxlib/topology_utils.py:241-247 | one endpoint fails iff it cannot be recorded, with the TypeError of its unhashable port id; else it takes one step |
| TopologyUtils.AddEach | sdxlib/topology_utils.py:246-247 | fails iff the port id is unhashable and there is a VLAN to add, with `unhashable type` TypeError naming the id's type |
| TopologyUtils.FriendlyEndpoints | sdxlib/topology_utils.py:113-119 | fails iff `endpoints` is truthy and not iterable; each friendly endpoint has exactly the keys `port_id` and `vlan` |
| TopologyUtils.FriendlyOf | sdxlib/topology_utils.py:114-119 | keeps at most the dict endpoints, each reduced to `port_id` and `vlan` |
| TopologyUtils.MissingPortIdCountsAsUnknown | sdxlib/topology_utils.py:117 | an endpoint without `port_id` counts as in use on port `"Unknown"` |
| TopologyUtils.SplitPortBodyJoins | sdxlib/topology_utils.py:211 | the lazy groups rejoin to the text, the first two without colons |
| TopologyUtils.SplitPortBodyOf | sdxlib/topology_utils.py:211 | a domain and device without colons come back out, whatever the port holds |
| TopologyUtils.SplitPortBodyNone | sdxlib/topology_utils.py:211-212 | a text with fewer than two colons does not match |
| TopologyUtils.PortIdPartsMatch | sdxlib/topology_utils.py:211-213 | a match gives colon-free domain and device and no newline, and the id is their URN, possibly with a final newline |
| TopologyUtils.PortIdPartsOf | sdxlib/topology_utils.py:211-213 | a port URN reads back as its domain, device and port |
| TopologyUtils.InUseText | sdxlib/topology_utils.py:226 | `"None"` exactly for an empty list |
| TopologyUtils.FormatPortSpec | sdxlib/topology_utils.py:205-227 | raises exactly for a truthy non-string id, non-iterable entities or an unhashable id; otherwise the row carries the id, the status, the URN groups (`"Unknown"` without a match) and both VLAN texts |
| TopologyUtils.ListedRowsMembers | sdxlib/topology_utils.py:279-285 | a row is listed exactly when some port gives it |
| TopologyUtils.GatherPorts | sdxlib/topology_utils.py:279-285 | the loop raises when the nodes cannot be iterated; otherwise it ends as GatheredRows: the first node whose ports cannot be read raises, and else the rows of ports that are up, have no NNI and format without raising, in order |
| TopologyUtils.TopologyNodes | sdxlib/topology_utils.py:279 | a missing or falsy `nodes` gives no nodes; a list gives its items |
| TopologyUtils.NodePorts | sdxlib/topology_utils.py:280 | a node that is not a dict raises AttributeError; missing or falsy `ports` give none; a list gives its items; only AttributeError or TypeError is raised |
| TopologyUtils.GatheredRowsSpec | sdxlib/topology_utils.py:279-285 | gathering succeeds iff every node's ports can be read, raises the first failing node's error, and otherwise lists the rows of all ports node by node |
| TopologyUtils.NonDictNodeRaises | sdxlib/topology_utils.py:280 | a node that is not a dict makes the whole listing raise |
| TopologyUtils.GatherNode | sdxlib/topology_utils.py:280-285 | the inner loop over one node's ports |
| TopologyUtils.SearchRows | sdxlib/topology_utils.py:288-295 | no or empty search keeps every row; otherwise exactly the rows whose entities, device or port id contain the term, ignoring case, each as often as before |
| TopologyUtils.KeepMatching | sdxlib/topology_utils.py:290-295 | a matching row occurs as often as in the input, any other not at all |
| TopologyUtils.KeepMatchingAppend | sdxlib/topology_utils.py:290-295 | the comprehension keeps input order: the matches of `a + b` are those of `a`, then those of `b` |
| TopologyUtils.SearchL2vpns | sdxlib/topology_utils.py:92-98 | no or empty search keeps all; otherwise fails exactly when an unmatched id meets a truthy non-string name, with that name's AttributeError, and keeps each service whose id or name contains the term as often as it occurs, and no other |
| TopologyUtils.KeepL2vpns | sdxlib/topology_utils.py:95-98 | the comprehension raises exactly when some entry raises |
| TopologyUtils.KeepL2vpnsContents | sdxlib/topology_utils.py:95-98 | when the comprehension does not raise, each matching service is kept as often as it occurs, and no other |
| TopologyUtils.KeepL2vpnsError | sdxlib/topology_utils.py:95-98 | a failure is the AttributeError of the first entry that raises |
| TopologyUtils.KeepL2vpnsAppend | sdxlib/topology_utils.py:95-98 | the comprehension keeps input order: on `a + b` it keeps those of `a`, then those of `b` |
| SdxTopologyUtils.AppendGet | sdxlib/sdx_topology_utils.py:38 | appending under one port extends its list by the VLAN and leaves the others alone |
| SdxTopologyUtils.EndpointsRecorded | sdxlib/sdx_topology_utils.py:34-38 | after the endpoint loop, each port's list is its old list followed by its endpoints' VLANs |
| SdxTopologyUtils.EndpointRecords | sdxlib/sdx_topology_utils.py:35-38 | one endpoint extends each port's list by its VLAN for that port |
| SdxTopologyUtils.ServicesRecorded | sdxlib/sdx_topology_utils.py:31-38 | after the service loop, each port's list is its old list followed by its services' VLANs |
| SdxTopologyUtils.ServiceRecords | sdxlib/sdx_topology_utils.py:32-38 | one service extends each port's list by its VLANs for that port |
| SdxTopologyUtils.VlansInUseContents | sdxlib/sdx_topology_utils.py:26-39 | the VLANs in use on a port are exactly the `int` VLANs of the L2VPN endpoints naming it, in order, repeats kept |
| SdxTopologyUtils.RecordEndpoints | sdxlib/sdx_topology_utils.py:34-38 | the inner loop is the endpoint fold |
| SdxTopologyUtils.VlansInUse | sdxlib/sdx_topology_utils.py:26-39 | the service loop is the in-use map of the topology |
| SdxTopologyUtils.DashPart | sdxlib/sdx_topology_utils.py:52-54 | `A-B` allows the inclusive range |
| SdxTopologyUtils.NumberPart | sdxlib/sdx_topology_utils.py:55-56 | a bare number allows that one VLAN |
| SdxTopologyUtils.TwoDashPart | sdxlib/sdx_topology_utils.py:53 | a part with two dashes raises before any number is read |
| SdxTopologyUtils.PartsAllowSnoc | sdxlib/sdx_topology_utils.py:51-56 | a part allowing a VLAN is the last or an earlier one |
| SdxTopologyUtils.AllowedFoldSorted | sdxlib/sdx_topology_utils.py:50-57 | the set stays ascending through the loop |
| SdxTopologyUtils.AllowedFoldMembers | sdxlib/sdx_topology_utils.py:50-56 | the loop adds exactly the VLANs its parts allow |
| SdxTopologyUtils.AllowedFoldParts | sdxlib/sdx_topology_utils.py:51-56 | a loop that gets through found every part well formed |
| SdxTopologyUtils.AllowedFoldFails | sdxlib/sdx_topology_utils.py:51-56 | a malformed part makes the whole range raise |
| SdxTopologyUtils.AllowedFoldAllParts | sdxlib/sdx_topology_utils.py:51-56 | a failing loop met a malformed part |
| SdxTopologyUtils.DefaultAllowed | sdxlib/sdx_topology_utils.py:46-48 | without a `vlan_range`, the 4094 VLANs 1..4094 are allowed; 4095 is not |
| SdxTopologyUtils.RangeAccepted | sdxlib/sdx_topology_utils.py:50-57 | a `vlan_range` text is accepted exactly when every comma part is |
| SdxTopologyUtils.RangeAllowed | sdxlib/sdx_topology_utils.py:50-57 | an accepted text allows, ascending without repeats, exactly the VLANs its parts allow |
| SdxTopologyUtils.AllowedSorted | sdxlib/sdx_topology_utils.py:42-57 | the allowed VLANs come out ascending without repeats |
| SdxTopologyUtils.GetVlanRange | sdxlib/sdx_topology_utils.py:42-57 | the loop computes exactly the allowed VLANs |
| SdxTopologyUtils.WithoutMembers | sdxlib/sdx_topology_utils.py:81 | the free VLANs are the allowed ones not in use |
| SdxTopologyUtils.WithoutSorted | sdxlib/sdx_topology_utils.py:81 | the free VLANs stay ascending |
| SdxTopologyUtils.FreeListed | sdxlib/sdx_topology_utils.py:81-92 | the listed free VLANs are at most ten, ascending, allowed and unused, and a free VLAN is left off only behind ten smaller ones |
| SdxTopologyUtils.SearchFindsName | sdxlib/sdx_topology_utils.py:60-64 | a term found in the name, ignoring case, keeps the port |
| SdxTopologyUtils.SearchFindsPortId | sdxlib/sdx_topology_utils.py:60-64 | a term found in the port id, ignoring case, keeps the port |
| SdxTopologyUtils.PortEntryRow | sdxlib/sdx_topology_utils.py:77-93 | a port's row carries its id, name, domain and node, and the port passed the search |
| SdxTopologyUtils.PortEntryFree | sdxlib/sdx_topology_utils.py:78-92 | a row's free VLANs are the port's first ten free VLANs |
| SdxTopologyUtils.RowsListed | sdxlib/sdx_topology_utils.py:77-93 | the loop lists, in port order, exactly the rows of the ports that have one |
| SdxTopologyUtils.RowsFailAt | sdxlib/sdx_topology_utils.py:77-81 | a failing port makes the loop fail |
| SdxTopologyUtils.RowsFailWhere | sdxlib/sdx_topology_utils.py:77-81 | a failing loop failed at one of the ports |
| SdxTopologyUtils.AvailablePortsSpec | sdxlib/sdx_topology_utils.py:67-93 | fails exactly when a port fails; otherwise one row per port that has one, in order |
| SdxTopologyUtils.AvailablePorts | sdxlib/sdx_topology_utils.py:72-93 | the port loop computes exactly that listing |
| SdxResponse.SdxResponse.constructor | sdxlib/sdx_response.py:31-52 | every attribute is the dict's value under its key, `None` when absent |
| SdxResponse.Create | sdxlib/sdx_response.py:21-52 | fails with TypeError exactly for a non-dict; otherwise a fresh response capturing the dict |
| SdxResponse.EqualsFromDicts | sdxlib/sdx_response.py:54-68 | responses are equal exactly when their dicts hold `==`-equal values under the ten compared keys; the other six make no difference |
| SdxResponse.SameDictEqual | sdxlib/sdx_response.py:54-68 | two responses captured from one dict are equal |
| SdxResponse.AgreeOnServiceIds | sdxlib/sdx_response.py:66-67 | dicts that hold only `oxp_service_ids` agree on the ten compared keys whenever those two values are `==` |
| SdxResponse.EqualityIgnoresDictOrder | sdxlib/sdx_response.py:66-67 | `oxp_service_ids` dicts that differ only in insertion order compare equal |
| Py.PyEqReflexive | sdxlib/sdx_response.py:57-68 | Python's `==` holds between a value and itself |
| Py.PyEqExamples | sdxlib/sdx_response.py:66-67 | dicts are equal whatever their insertion order, and `1 == 1.0 == True`, while `"1" != 1` |
| SdxResponse.CurrentPathTextSpec | sdxlib/sdx_response.py:71-75 | a one-string path shows bare; any other list shows bracketed |
| Response.EntryKeys | sdxlib/response.py:10-27 | the literal lists the sixteen keys once each |
| Response.EntryDefaults | sdxlib/response.py:11-26 | each key's default is the one for its kind |
| Response.NormalizeSpec | sdxlib/response.py:9-27 | the output has exactly the sixteen keys; a present key keeps its value, an explicit `None` included; a missing key takes its default |
| SdxException.SdxException.constructor | sdxlib/sdx_exception.py:24-35 | the code is kept, messages default to `{}` and details to `""`, and the message is composed from them |
| SdxException.LookupMissing | sdxlib/sdx_exception.py:29 | with no message and no entry for the code, the fixed fallback is used |
| SdxException.LookupFirst | sdxlib/sdx_exception.py:29 | with no message, the code's entry in the table is used |
| SdxException.MessageSpec | sdxlib/sdx_exception.py:29-33 | a given message starts the final message; non-empty details follow after `" Additional details: "`; empty details add nothing |
| SdxException.ToStringSpec | sdxlib/sdx_exception.py:37-38 | `str(e)` starts with `"SDXException: "`, followed by the message, and ends with `)` |
| SdxRequest.DropNoneGet | sdxlib/sdx_request.py:44-56 | dropping the `None` entries keeps every other entry as it was |
| SdxRequest.BuildPayloadSpec | sdxlib/sdx_request.py:42-56 | a key is present exactly when its attribute is not `None`, falsy values included; it carries that attribute; no other key appears |
| SdxRequest.HeadersSpec | sdxlib/sdx_request.py:34-39 | exactly `Content-Type: application/json` and `Authorization: Bearer <token>` |
| TokenAuth.TokenAuth.constructor | sdxlib/token_auth.py:12 | the token is stored unchanged |
| TokenAuth.Create | sdxlib/token_auth.py:9-12 | a falsy token raises ValueError; any other is stored unchanged |
| TokenAuth.BearerHeadersSpec | sdxlib/token_auth.py:14-18 | exactly two headers: `Content-Type: application/json` and `Authorization: Bearer <token>`, the same headers a request builds for that token |
| Outcomes.MapResultsSuccess | sdxlib/validator.py:116 | the comprehension succeeds exactly when every call does, and collects their values in order |
| Outcomes.MapResultsFailure | sdxlib/validator.py:116 | a failing comprehension raises the error of the first failing call |
| Outcomes.MapResultsAppend | sdxlib/topology_utils.py:279-280 | a comprehension over `a + b` runs over `a`, then `b`, and raises the first error |
| Text.ParseInt | sdxlib/validator.py:69 | `int()` reads a digit string as its value |
| Text.StripEmptyIffBlank | sdxlib/validator.py:24 | `not s.strip()` holds exactly for all-whitespace strings |
| Text.SplitJoin | sdxlib/topology_utils.py:152 | joining a split with its separator gives the string back |
| Text.Lower | sdxlib/sdx_topology.py:311 | `lower()` keeps the length, leaves no upper-case letter and changes no other character |
| Text.LowerIdempotent | sdxlib/sdx_topology.py:311 | lower-casing twice is lower-casing once |

## Left out

- **Network and HTTP.** `get_topology`, `_make_request`, the fetch half of `get_all_l2vpns` and every HTTP call are left out. The fetched topology and the L2VPN records are parameters.
- **Token file.** The token file read by the `None` branch of `SDXValidator.validate_notifications` is not modelled. The token's e-mail is the `tokenEppn` parameter.
- **Presentation.** pandas DataFrames, the `format` argument, the printed table of `get_available_ports` and the `print` calls in `_parse_vlan_value` and `_get_vlan_range` are out of scope. The "Notifications", "Scheduling" and "QoS Metrics" columns of `get_all_l2vpns` are not modelled either.
- **Hashing and remote checks.** `validate_ownership` and `verify_ownership` hash with SHA-256 and base64. `has_permission` calls a remote function.
- **Error mapping.** `map_http_error` and `handle_http_error` only shape logging and exception objects.
- **Other modules.** `sdx_token_auth.py`, `sdx_util.py`, `sdx_fablib_handler.py`, `l2vpn.py`, `session.py`, `client.py` and `sdx_client.py` are not part of this model. Nor is the dacite-based `Topology.from_dict`: records are built from typed fields.
- **Dead code.** The commented-out country, subdivision and VLAN-range checks in `sdx_topology.py` are not enforced, because they are comments.
- **Static typing.** The `isinstance` checks on `Node.ports`, `Topology.nodes` and `Topology.links` hold by typing. The model's records can only hold values of the right type. The optional fields `mtu`, `nni` and `entities` of `Port` are `Option` values.
- TopologyUtils.GatherPorts: the fetched topology is taken to be a dict. A topology fetched as a bare list would raise AttributeError at `topology.get`; fetching is not part of this model.
- **Broken import.** `sdx_topology_utils.py` cannot be imported as written: `Union` is undefined and `config` is imported bare. Its functions are modelled from their text.
- **Floats.** Coordinates and link metrics are `real`; NaN and infinities are not modelled.
- **Integer and digit quirks.** `int()` is modelled with surrounding whitespace, a sign and single underscores between ASCII digits. Unicode digits, which `str.isdigit` and `int()` also accept, are not modelled. `lower()` and the `\w` class cover ASCII letters only. `isspace` and the `\s`/`\S` classes follow Python's full whitespace set.
- **Dict keys.** Two keys that Python treats as equal but are different values (`1`, `True`, `1.0`) are distinct keys in the model. Only string keys and list/dict unhashability are modelled faithfully.
- SdxResponse.EqualsFromDicts: comparing with a non-`SDXResponse` returns `NotImplemented` in Python; the model only compares two responses. Python's `==` is modelled on JSON values only; NaN is not modelled, so every value equals itself.
- Py.PyStr: `str()` of a float is the placeholder `<float>`, not Python's shortest round-trip text (`str(1.5)` is `"1.5"`). Texts built from a float therefore differ from Python's: the port-id and e-mail error messages, the Bearer header of a float token, the `SDXException` text of a float status code, the port labels and the joined entities.
- TopologyUtils.InUseText: VLANs are `int` values, so a `True` VLAN recorded through `_parse_vlan_value` prints as `1`, where Python's `str` prints `True`.
- SdxTopology.MakeLink: a `None` link type gives the invalid-type ValueError, as `None not in LinkType` behaves in Python 3.12 and later; Python 3.8 to 3.11 raise TypeError at that test instead.
- SdxTopology.CheckPrivate: the ValueError text prints the set `{'residual_bandwidth', 'latency', 'packet_loss'}` in one fixed order. Python prints a set of str in an order that changes from process to process with string hashing (`PYTHONHASHSEED`), so the names may appear in any order. The same holds for `SdxTopology.MakeLink`, which reports this error.
- SdxTopology.Topology.Create: the invalid-service ValueError prints the set `{'l2vpn-ptp', 'l2vpn-ptmp'}` in one fixed order, where Python may print the two names in either order from process to process. The same holds for `SdxTopology.CheckTopology`.
- SdxTopology.CheckTopology: `version` is an `int`. The source annotates it `str` but compares `self.version < 1`, which raises TypeError for a string; the model follows the comparison, so that TypeError is not modelled. The same holds for `SdxTopology.Topology.Create`.
- SdxResponse.CurrentPathTextSpec: only the `current_path` line of `__str__` is modelled, not the rest of the text.
- SdxException.SdxException.constructor: `message` and `error_details` are modelled as strings only, and the arguments passed to `Exception.__init__` are not modelled.
- SdxException.LookupMissing: a status code of a type that cannot be a dict key would raise TypeError in the lookup; the model treats every code as a key.
- TokenAuth.TokenAuth.constructor: stores the token without checking it; `TokenAuth.Create` performs the check that precedes it in Python.
- Validator.IsValidIso8601: it states the shape that every accepted timestamp has, not the converse. `Iso8601ShapeOnly` gives a witness.
- Validator.IsValidEmail: it states what an accepted address contains, and `EmailAccepted` gives the converse for addresses of the form `user@host`.
