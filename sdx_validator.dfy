/**
 * The static methods of `SDXValidator` in `sdxlib/sdx_validator.py`: the older, looser
 * request validator. It shares the VLAN forms and the regexes of the strict validator
 * but applies them to the raw text and enforces uniformity only for ranges and keywords.
 */
module SdxValidator {
  import opened Outcomes
  import opened Text
  import opened Py
  import opened Patterns
  import Validator

  // Messages of the exceptions raised here.
  const EnvironmentNonEmptyStringMsg := "Environment must be a non-empty string."
  const EnvironmentKindMsg := "Environment must include either 'test' or 'prod'."
  const BaseUrlNameEndpointsMsg := "Base URL, name, and endpoints are required."
  const NonEmptyMsg := " must be a non-empty string."
  const NameNonEmptyStringMsg := "Name must be a non-empty string with max 50 characters."
  const DescriptionLessThan256Msg := "Description must be less than 256 characters."
  const ObjectTypeMsg := "object of type '"
  const HasNoLenMsg := "' has no len()"
  const NotificationsListMsg := "Notifications must be provided as a list."
  const NotificationsCountMsg := "Notifications can contain at most 10 email addresses."
  const EachNotificationDictEmailMsg := "Each notification must be a dict with an 'email' key."
  const InvalidEmailFormatMsg := "Invalid email format: "
  const InvalidVlanRangeFormatMsg := "Invalid VLAN range format: '"
  const RangeFormatMsg := "'. Must be 'VLAN ID1:VLAN ID2' "
  const RangeBoundsMsg := "with values between 1 and 4095, where ID1 < ID2."
  const InvalidVlanValueMsg := "Invalid VLAN value: '"
  const VlanBoundsMsg := "'. Must be between 1 and 4095."
  const VlanChoicesMsg := "'. Must be 'any', 'all', 'untagged', "
  const VlanChoicesTailMsg := "a number between 1 and 4095, or a range in 'VLAN ID1:VLAN ID2' format."
  const EndpointDictionaryMsg := "Endpoint must be a dictionary."
  const EndpointPortIdKeyMsg := "Each endpoint must contain a valid 'port_id' key."
  const InvalidPortIdFormatMsg := "Invalid port_id format: "
  const EndpointVlanKeyMsg := "Each endpoint must contain a valid 'vlan' key."
  const RangeVlanUniformMsg := "All endpoints must have the same VLAN value if one uses a range."
  const SpecialVlanUniformMsg := "All endpoints must have the same VLAN value if one uses 'any', 'all', or 'untagged'."
  const EndpointsListMsg := "Endpoints must be a list."
  const EndpointsContainAtLeastMsg := "Endpoints must contain at least 2 entries."
  const InvalidSchedulingKeyMsg := "Invalid scheduling key: "
  const MustBeStringMsg := " must be a string."
  const IsoFormatMsg := "' format. Use ISO8601 format (YYYY-MM-DDTHH:mm:SSZ)."
  const SchedulingDictionaryMsg := "Scheduling must be a dictionary."
  const EndTimeAfterStartMsg := "End time must be after start time."
  const QosValueMsg := "QoS value for '"
  const MustBeIntegerMsg := "' must be an integer."
  const StrictQosMetricMsg := "'strict' in QoS metric of '"
  const MustBeBooleanMsg := "' must be a boolean."
  const MustBeBetweenMsg := " must be between "
  const InvalidQosMetricMsg := "Invalid QoS metric: "
  const QosMetricsDictionaryMsg := "QoS metrics must be a dictionary."

  // ---------------------------------------------------------------- URL, strings, name

  /**
   * `validate_required_url`: the environment must be a non-blank string whose stripped,
   * lower-cased form mentions `test` or `prod`; the URL is the base followed by the
   * environment exactly as given.
   */
  function ValidateRequiredUrl(baseUrl: string, urlEnv: Json): (r: Result<string>)
    ensures r.Success? <==>
              && urlEnv.JStr? && !IsBlank(urlEnv.s)
              && (IsSubstring("test", Lower(Strip(urlEnv.s))) || IsSubstring("prod", Lower(Strip(urlEnv.s))))
    ensures r.Success? ==> r.value == baseUrl + urlEnv.s
    ensures r.Failure? ==> r.error.ValueError?
  {
    if !urlEnv.JStr? then Failure(ValueError(EnvironmentNonEmptyStringMsg))
    else
      StripEmptyIffBlank(urlEnv.s);
      if Strip(urlEnv.s) == "" then Failure(ValueError(EnvironmentNonEmptyStringMsg))
      else
        var env := Lower(Strip(urlEnv.s));
        if IsSubstring("test", env) || IsSubstring("prod", env) then Success(baseUrl + urlEnv.s)
        else Failure(ValueError(EnvironmentKindMsg))
  }

  /** `validate_required_attributes`: only truthiness is checked. */
  function ValidateRequiredAttributes(baseUrl: Json, name: Json, endpoints: Json): (r: Outcome)
    ensures r.Pass? <==> Truthy(baseUrl) && Truthy(name) && Truthy(endpoints)
    ensures r.Fail? ==> r.error == ValueError(BaseUrlNameEndpointsMsg)
  {
    if !Truthy(baseUrl) || !Truthy(name) || !Truthy(endpoints) then
      Fail(ValueError(BaseUrlNameEndpointsMsg))
    else Pass
  }

  /** `validate_non_empty_string`: a string with a non-space character, returned as is. */
  function ValidateNonEmptyString(value: Json, fieldName: string): (r: Result<string>)
    ensures r.Success? <==> value.JStr? && !IsBlank(value.s)
    ensures r.Success? ==> r.value == value.s
    ensures r.Failure? ==> r.error == ValueError(fieldName + NonEmptyMsg)
  {
    if !value.JStr? then Failure(ValueError(fieldName + NonEmptyMsg))
    else
      StripEmptyIffBlank(value.s);
      if Strip(value.s) == "" then Failure(ValueError(fieldName + NonEmptyMsg))
      else Success(value.s)
  }

  /** `validate_name`: `None` and `""` pass; a truthy value must be a string of at most 50. */
  function ValidateName(name: Json): (r: Result<Json>)
    ensures r.Success? <==> !Truthy(name) || (name.JStr? && |name.s| <= 50)
    ensures r.Success? ==> r.value == name
    ensures r.Failure? ==> r.error.ValueError?
  {
    if Truthy(name) && (!name.JStr? || |name.s| > 50) then
      Failure(ValueError(NameNonEmptyStringMsg))
    else Success(name)
  }

  /** `len(v)` where Python defines it: strings, lists and dicts. */
  function Len(v: Json): (n: Option<nat>)
    ensures n.Some? <==> v.JStr? || v.JList? || v.JObj?
  {
    match v
    case JStr(s) => Some(|s|)
    case JList(items) => Some(|items|)
    case JObj(fields) => Some(|fields|)
    case _ => None
  }

  /**
   * `validate_description`: only a truthy value longer than 255 is refused; a truthy
   * value without a length (a number, `True`) makes `len` raise TypeError.
   */
  function ValidateDescription(description: Json): (r: Result<Json>)
    ensures r.Success? <==> !Truthy(description) || (Len(description).Some? && Len(description).value <= 255)
    ensures r.Success? ==> r.value == description
    ensures Truthy(description) && Len(description).None? ==> r.Failure? && r.error.TypeError?
    ensures description.JStr? && |description.s| > 255 ==>
              r == Failure(ValueError(DescriptionLessThan256Msg))
  {
    if !Truthy(description) then Success(description)
    else
      match Len(description)
      case None => Failure(TypeError(ObjectTypeMsg + TypeName(description) + HasNoLenMsg))
      case Some(n) =>
        if n > 255 then Failure(ValueError(DescriptionLessThan256Msg))
        else Success(description)
  }

  // ---------------------------------------------------------------- notifications

  /**
   * `validate_notifications`. The `None` branch reads the e-mail from the stored token;
   * that value is the parameter `tokenEppn` here. Accepted entries are kept unchanged.
   */
  method ValidateNotifications(notifications: Json, tokenEppn: Json) returns (r: Result<seq<Json>>)
    ensures var given := if notifications.JNull? then JList([JObj([("email", tokenEppn)])]) else notifications;
            && (!given.JList? ==> r == Failure(ValueError(NotificationsListMsg)))
            && (given.JList? && |given.items| > 10 ==>
                  r == Failure(ValueError(NotificationsCountMsg)))
            && (given.JList? && |given.items| <= 10 ==>
                  (r.Success? <==> forall i | 0 <= i < |given.items| :: Validator.NotificationOk(given.items[i])))
            && (r.Success? ==> given.JList? && r.value == given.items)
    ensures r.Failure? ==> r.error.ValueError?
  {
    var given := if notifications.JNull? then JList([JObj([("email", tokenEppn)])]) else notifications;
    if !given.JList? {
      return Failure(ValueError(NotificationsListMsg));
    }
    var items := given.items;
    if |items| > 10 {
      return Failure(ValueError(NotificationsCountMsg));
    }
    var validated: seq<Json> := [];
    var i := 0;
    while i < |items|
      invariant 0 <= i <= |items|
      invariant validated == items[..i]
      invariant forall k | 0 <= k < i :: Validator.NotificationOk(items[k])
    {
      var n := items[i];
      if !n.JObj? || !HasKey(n.fields, "email") {
        return Failure(ValueError(EachNotificationDictEmailMsg));
      }
      var email := Get(n.fields, "email");
      if !Validator.IsValidEmail(email) {
        return Failure(ValueError(InvalidEmailFormatMsg + PyStr(email)));
      }
      validated := validated + [n];
      i := i + 1;
    }
    assert items[..i] == items;
    return Success(validated);
  }

  // ---------------------------------------------------------------- VLANs and endpoints

  /** `_validate_vlan_range`: a valid range comes back as the dict `{"vlan": range}`. */
  function ValidateVlanRange(vlanRange: string): (r: Result<Json>)
    ensures r.Success? <==> Validator.RangeAccepted(vlanRange)
    ensures r.Success? ==> r.value == JObj([("vlan", JStr(vlanRange))])
    ensures r.Failure? ==> r.error.ValueError?
  {
    if Validator.ValidateVlanRange(vlanRange).Success? then Success(JObj([("vlan", JStr(vlanRange))]))
    else
      Failure(ValueError(InvalidVlanRangeFormatMsg + vlanRange + RangeFormatMsg
                         + RangeBoundsMsg))
  }

  /**
   * The VLAN branches of `validate_endpoint_dict`, on the raw text (no strip, no
   * lower-casing): the same three accepted forms as the strict validator. The result
   * tells whether the range branch was taken.
   */
  function CheckVlanValue(vlan: string): (r: Result<bool>)
    ensures r.Success? <==> Validator.VlanAccepted(vlan)
    ensures r.Success? ==> (r.value <==> ':' in vlan) && Validator.VlanShape(vlan)
    ensures r.Failure? ==> r.error.ValueError?
  {
    if vlan in Validator.SpecialVlans then
      assert ':' !in vlan;
      Success(false)
    else if IsDigits(vlan) then
      assert ':' !in vlan;
      if 1 <= DigitsValue(vlan) <= Validator.MaxVlan then Success(false)
      else Failure(ValueError(InvalidVlanValueMsg + vlan + VlanBoundsMsg))
    else if ':' in vlan then
      var _ :- ValidateVlanRange(vlan);
      Success(true)
    else
      Validator.NoColonNoRange(vlan);
      Failure(ValueError(InvalidVlanValueMsg + vlan + VlanChoicesMsg
                         + VlanChoicesTailMsg))
  }

  /**
   * `validate_endpoint_dict`: a keyword or a single id returns the endpoint dict
   * unchanged (every other key kept); a range returns `{"vlan": range}`, dropping
   * `port_id`.
   */
  function ValidateEndpointDict(endpoint: Json): Result<Json> {
    if !endpoint.JObj? then Failure(TypeError(EndpointDictionaryMsg))
    else
      var portId := Get(endpoint.fields, "port_id");
      var vlan := Get(endpoint.fields, "vlan");
      if !Truthy(portId) || !portId.JStr? then
        Failure(ValueError(EndpointPortIdKeyMsg))
      else if !PortIdMatch(portId.s) then
        Failure(ValueError(InvalidPortIdFormatMsg + portId.s))
      else if !Truthy(vlan) || !vlan.JStr? then
        Failure(ValueError(EndpointVlanKeyMsg))
      else
        var isRange :- CheckVlanValue(vlan.s);
        if isRange then Success(JObj([("vlan", vlan)])) else Success(endpoint)
  }

  /**
   * `validate_endpoint_dict` accepts exactly a dict with a well-formed `port_id` string
   * and an accepted `vlan` string, checked as given; a range endpoint is cut down to its
   * `vlan` key, any other is returned whole.
   */
  lemma ValidateEndpointDictSpec(endpoint: Json)
    ensures ValidateEndpointDict(endpoint).Success? <==>
              && endpoint.JObj?
              && Get(endpoint.fields, "port_id").JStr?
              && PortIdMatch(Get(endpoint.fields, "port_id").s)
              && Get(endpoint.fields, "vlan").JStr?
              && Validator.VlanAccepted(Get(endpoint.fields, "vlan").s)
    ensures ValidateEndpointDict(endpoint).Success? ==>
              ValidateEndpointDict(endpoint).value
                == (if ':' in Get(endpoint.fields, "vlan").s
                    then JObj([("vlan", Get(endpoint.fields, "vlan"))])
                    else endpoint)
    ensures !endpoint.JObj? ==> ValidateEndpointDict(endpoint) == Failure(TypeError(EndpointDictionaryMsg))
    ensures endpoint.JObj? && ValidateEndpointDict(endpoint).Failure? ==>
              ValidateEndpointDict(endpoint).error.ValueError?
  {
    if endpoint.JObj? {
      var portId := Get(endpoint.fields, "port_id");
      var vlan := Get(endpoint.fields, "vlan");
      if !Truthy(portId) || !portId.JStr? {
        assert portId.JStr? ==> !PortIdMatch(portId.s);
      } else if PortIdMatch(portId.s) && (!Truthy(vlan) || !vlan.JStr?) {
        assert vlan.JStr? ==> vlan.s == "" && !Validator.VlanAccepted(vlan.s);
      }
    }
  }

  /** An accepted endpoint keeps its `vlan` string, which has one of the three validated forms. */
  lemma AcceptedVlan(ep: Json)
    requires ValidateEndpointDict(ep).Success?
    ensures && ValidateEndpointDict(ep).value.JObj?
            && Get(ValidateEndpointDict(ep).value.fields, "vlan") == Get(ep.fields, "vlan")
            && Get(ep.fields, "vlan").JStr?
            && Validator.VlanShape(Get(ep.fields, "vlan").s)
  {
    ValidateEndpointDictSpec(ep);
    var vlan := Get(ep.fields, "vlan");
    var _ := CheckVlanValue(vlan.s);
  }

  /** The `vlan` texts of the validated endpoints. */
  function VlanValues(validated: seq<Json>): (vs: seq<string>)
    requires forall i | 0 <= i < |validated| :: validated[i].JObj? && Get(validated[i].fields, "vlan").JStr?
    ensures |vs| == |validated|
    ensures forall i | 0 <= i < |validated| :: vs[i] == Get(validated[i].fields, "vlan").s
  {
    seq(|validated|, i requires 0 <= i < |validated| => Get(validated[i].fields, "vlan").s)
  }

  /** Some endpoint uses a range or a special keyword. */
  predicate UsesRangeOrKeyword(vs: seq<string>) {
    exists i | 0 <= i < |vs| :: vs[i] in Validator.SpecialVlans || ':' in vs[i]
  }

  /**
   * The uniformity rules of `validate_endpoints`: a range or a keyword must be the only
   * distinct value; several different numbers are allowed.
   */
  function LooseUniformity(vs: seq<string>): (r: Outcome)
    requires |vs| > 0
    requires forall i | 0 <= i < |vs| :: Validator.VlanShape(vs[i])
    ensures r.Pass? <==> (UsesRangeOrKeyword(vs) ==> Validator.AllSame(vs))
    ensures r.Fail? ==> r.error.ValueError?
  {
    var values := set v | v in vs;
    Validator.SingleDistinctIff(vs);
    var hasSpecial := exists v | v in values :: v in Validator.SpecialVlans;
    var hasRange := exists v | v in values :: ':' in v;
    var hasSingle := exists v | v in values :: IsDigits(v);
    assert hasSpecial || hasRange <==> UsesRangeOrKeyword(vs) by {
      if UsesRangeOrKeyword(vs) {
        var i :| 0 <= i < |vs| && (vs[i] in Validator.SpecialVlans || ':' in vs[i]);
        assert vs[i] in values;
      }
    }
    assert Validator.AllSame(vs) ==> !(hasRange && (hasSpecial || hasSingle)) by {
      if Validator.AllSame(vs) && hasRange {
        assert values == {vs[0]};
        Validator.ColonRulesOutIdAndKeyword(vs[0], ColonIndex(vs[0]));
      }
    }
    if hasRange && (|values| > 1 || hasSpecial || hasSingle) then
      Fail(ValueError(RangeVlanUniformMsg))
    else if hasSpecial && (|values| > 1 || hasRange || hasSingle) then
      assert !Validator.AllSame(vs) by {
        if Validator.AllSame(vs) {
          assert values == {vs[0]};
          SpecialNotDigits(vs[0]);
        }
      }
      Fail(ValueError(SpecialVlanUniformMsg))
    else Pass
  }

  /** The position of some colon in a text that holds one. */
  function ColonIndex(v: string): (i: nat)
    requires ':' in v
    ensures i < |v| && v[i] == ':'
  {
    if v[0] == ':' then 0 else ColonIndex(v[1..]) + 1
  }

  lemma SpecialNotDigits(v: string)
    requires v in Validator.SpecialVlans
    ensures !IsDigits(v) && ':' !in v
  {
    assert !IsDigit(v[0]);
  }

  /** Every endpoint accepted by `validate_endpoint_dict` keeps a `vlan` text of one of the three forms. */
  lemma AcceptedVlans(items: seq<Json>, validated: seq<Json>)
    requires MapResults(ValidateEndpointDict, items) == Success(validated)
    ensures |validated| == |items|
    ensures forall i | 0 <= i < |validated| ::
              && validated[i].JObj?
              && Get(validated[i].fields, "vlan").JStr?
              && Validator.VlanShape(Get(validated[i].fields, "vlan").s)
  {
    MapResultsSuccess(ValidateEndpointDict, items);
    forall i | 0 <= i < |validated|
      ensures && validated[i].JObj?
              && Get(validated[i].fields, "vlan").JStr?
              && Validator.VlanShape(Get(validated[i].fields, "vlan").s)
    {
      AcceptedVlan(items[i]);
    }
  }


  /**
   * `validate_endpoints` of `SDXValidator`: a falsy argument yields `[]`; otherwise a
   * list of at least two valid endpoints whose VLANs obey the loose uniformity rules.
   */
  function ValidateEndpoints(endpoints: Json): (r: Result<seq<Json>>)
    ensures !Truthy(endpoints) ==> r == Success([])
    ensures Truthy(endpoints) && !endpoints.JList? ==> r == Failure(TypeError(EndpointsListMsg))
    ensures endpoints.JList? && |endpoints.items| == 1 ==>
              r == Failure(ValueError(EndpointsContainAtLeastMsg))
    ensures endpoints.JList? && |endpoints.items| >= 2 ==>
              (r.Success? <==>
                 && MapResults(ValidateEndpointDict, endpoints.items).Success?
                 && (AcceptedVlans(endpoints.items, MapResults(ValidateEndpointDict, endpoints.items).value);
                     UsesRangeOrKeyword(VlanValues(MapResults(ValidateEndpointDict, endpoints.items).value)) ==>
                       Validator.AllSame(VlanValues(MapResults(ValidateEndpointDict, endpoints.items).value))))
    ensures endpoints.JList? && |endpoints.items| >= 2 && r.Success? ==>
              r.value == MapResults(ValidateEndpointDict, endpoints.items).value
    ensures endpoints.JList? && |endpoints.items| >= 2 && MapResults(ValidateEndpointDict, endpoints.items).Failure? ==>
              r == Failure(MapResults(ValidateEndpointDict, endpoints.items).error)
    ensures (endpoints.JList? && |endpoints.items| >= 2 && MapResults(ValidateEndpointDict, endpoints.items).Success?
             && r.Failure?) ==> r.error.ValueError?
  {
    if !Truthy(endpoints) then Success([])
    else if !endpoints.JList? then Failure(TypeError(EndpointsListMsg))
    else if |endpoints.items| < 2 then Failure(ValueError(EndpointsContainAtLeastMsg))
    else
      var validated :- MapResults(ValidateEndpointDict, endpoints.items);
      AcceptedVlans(endpoints.items, validated);
      var uniform := LooseUniformity(VlanValues(validated));
      if uniform.Fail? then Failure(uniform.error) else Success(validated)
  }

  /** Two valid endpoints with numeric VLANs pass the loose rules, equal or not. */
  lemma NumericEndpointsAccepted(a: Json, b: Json)
    requires ValidateEndpointDict(a).Success? && ValidateEndpointDict(b).Success?
    requires IsDigits(Get(a.fields, "vlan").s) && IsDigits(Get(b.fields, "vlan").s)
    ensures ValidateEndpoints(JList([a, b])).Success?
  {
    var items := [a, b];
    MapResultsSuccess(ValidateEndpointDict, items);
    var validated := MapResults(ValidateEndpointDict, items).value;
    AcceptedVlans(items, validated);
    var vs := VlanValues(validated);
    assert vs == [Get(a.fields, "vlan").s, Get(b.fields, "vlan").s] by {
      AcceptedVlan(a);
      AcceptedVlan(b);
    }
    NumbersUseNoRangeOrKeyword(vs);
  }

  /** Digit strings are neither keywords nor ranges. */
  lemma NumbersUseNoRangeOrKeyword(vs: seq<string>)
    requires forall i | 0 <= i < |vs| :: IsDigits(vs[i])
    ensures !UsesRangeOrKeyword(vs)
  {
    forall i | 0 <= i < |vs| ensures !(vs[i] in Validator.SpecialVlans || ':' in vs[i]) {
      if vs[i] in Validator.SpecialVlans { SpecialNotDigits(vs[i]); }
    }
  }

  /**
   * Where the two validators disagree: two endpoints with different numeric VLANs pass
   * the loose validator and fail the strict one.
   */
  lemma DistinctNumbersSplitTheValidators(a: Json, b: Json)
    requires Validator.ValidateEndpointDict(a).Success? && Validator.ValidateEndpointDict(b).Success?
    requires ValidateEndpointDict(a).Success? && ValidateEndpointDict(b).Success?
    requires IsDigits(Get(a.fields, "vlan").s) && IsDigits(Get(b.fields, "vlan").s)
    requires Validator.ValidateEndpointDict(a).value.vlan != Validator.ValidateEndpointDict(b).value.vlan
    ensures ValidateEndpoints(JList([a, b])).Success?
    ensures Validator.ValidateEndpoints(JList([a, b])).Failure?
  {
    Validator.DifferentVlansRejected(a, b);
    NumericEndpointsAccepted(a, b);
  }

  // ---------------------------------------------------------------- scheduling

  const SchedulingKeys: set<string> := {"start_time", "end_time"}

  /** The checks the scheduling loop makes on one entry, in order. */
  function SchedulingEntry(key: string, time: Json): (r: Outcome)
    ensures r.Pass? <==> key in SchedulingKeys && Validator.IsValidIso8601(time)
    ensures r.Fail? && r.error.TypeError? <==> key in SchedulingKeys && !time.JStr?
  {
    if key !in SchedulingKeys then Fail(ValueError(InvalidSchedulingKeyMsg + key))
    else if !time.JStr? then Fail(TypeError(key + MustBeStringMsg))
    else if !Validator.IsValidIso8601(time) then
      Fail(ValueError("Invalid '" + key + IsoFormatMsg))
    else Pass
  }

  /** Both times given and the end is not after the start (string order). */
  predicate EndNotAfterStart(fields: seq<(string, Json)>) {
    && HasKey(fields, "start_time") && HasKey(fields, "end_time")
    && Get(fields, "start_time").JStr? && Get(fields, "end_time").JStr?
    && LexLessEq(Get(fields, "end_time").s, Get(fields, "start_time").s)
  }

  /** `validate_scheduling`: every entry checked in order; the dict comes back unchanged. */
  method ValidateScheduling(scheduling: Json) returns (r: Result<Option<Json>>)
    ensures scheduling.JNull? ==> r == Success(None)
    ensures !scheduling.JNull? && !scheduling.JObj? ==> r == Failure(TypeError(SchedulingDictionaryMsg))
    ensures scheduling.JObj? ==>
              (r.Success? <==>
                 && (forall i | 0 <= i < |scheduling.fields| ::
                       SchedulingEntry(scheduling.fields[i].0, scheduling.fields[i].1).Pass?)
                 && !EndNotAfterStart(scheduling.fields))
    ensures scheduling.JObj? && r.Success? ==> r.value == Some(scheduling)
    ensures scheduling.JObj? && r.Failure? ==>
              || (exists i | 0 <= i < |scheduling.fields| ::
                    && SchedulingEntry(scheduling.fields[i].0, scheduling.fields[i].1).Fail?
                    && r.error == SchedulingEntry(scheduling.fields[i].0, scheduling.fields[i].1).error
                    && forall j | 0 <= j < i :: SchedulingEntry(scheduling.fields[j].0, scheduling.fields[j].1).Pass?)
              || r.error == ValueError(EndTimeAfterStartMsg)
  {
    if scheduling.JNull? {
      return Success(None);
    }
    if !scheduling.JObj? {
      return Failure(TypeError(SchedulingDictionaryMsg));
    }
    var fields := scheduling.fields;
    var i := 0;
    while i < |fields|
      invariant 0 <= i <= |fields|
      invariant forall k | 0 <= k < i :: SchedulingEntry(fields[k].0, fields[k].1).Pass?
    {
      var check := SchedulingEntry(fields[i].0, fields[i].1);
      if check.Fail? {
        return Failure(check.error);
      }
      i := i + 1;
    }
    if HasKey(fields, "start_time") && HasKey(fields, "end_time") {
      AllEntriesValid(fields, "start_time");
      AllEntriesValid(fields, "end_time");
      if LexLessEq(Get(fields, "end_time").s, Get(fields, "start_time").s) {
        return Failure(ValueError(EndTimeAfterStartMsg));
      }
    }
    return Success(Some(scheduling));
  }

  /** When every entry passes, a present time is a string. */
  lemma AllEntriesValid(fields: seq<(string, Json)>, key: string)
    requires forall k | 0 <= k < |fields| :: SchedulingEntry(fields[k].0, fields[k].1).Pass?
    requires HasKey(fields, key)
    ensures Get(fields, key).JStr?
  {
    var k :| 0 <= k < |fields| && fields[k] == (key, Get(fields, key));
    assert SchedulingEntry(fields[k].0, fields[k].1).Pass?;
  }

  // ---------------------------------------------------------------- QoS

  /**
   * `validate_qos_metric_value`: the value must be an int, `strict` a bool when given,
   * and the value within the bounds of the metric; an unknown metric name raises
   * KeyError at the bounds lookup.
   */
  function ValidateQosMetricValue(key: string, valueDict: seq<(string, Json)>): (r: Outcome)
    ensures r.Pass? <==>
              && HasKey(valueDict, "value") && IsPyInt(Get(valueDict, "value"))
              && (HasKey(valueDict, "strict") ==> Get(valueDict, "strict").JBool?)
              && key in Validator.QosMetrics
              && Validator.QosBounds(key).0 <= PyIntValue(Get(valueDict, "value")) <= Validator.QosBounds(key).1
    ensures !(HasKey(valueDict, "value") && IsPyInt(Get(valueDict, "value"))) ==>
              r == Fail(ValueError(QosValueMsg + key + MustBeIntegerMsg))
    ensures r.Fail? && r.error.TypeError? <==>
              && HasKey(valueDict, "value") && IsPyInt(Get(valueDict, "value"))
              && HasKey(valueDict, "strict") && !Get(valueDict, "strict").JBool?
    ensures r.Fail? && r.error.KeyError? ==> key !in Validator.QosMetrics
  {
    var value := Get(valueDict, "value");
    if !HasKey(valueDict, "value") || !IsPyInt(value) then
      Fail(ValueError(QosValueMsg + key + MustBeIntegerMsg))
    else if HasKey(valueDict, "strict") && !Get(valueDict, "strict").JBool? then
      Fail(TypeError(StrictQosMetricMsg + key + MustBeBooleanMsg))
    else if key !in Validator.QosMetrics then
      Fail(KeyError(StrRepr(key)))
    else
      var (lo, hi) := Validator.QosBounds(key);
      if !(lo <= PyIntValue(value) <= hi) then
        Fail(ValueError(key + MustBeBetweenMsg + IntToString(lo) + " and " + IntToString(hi) + "."))
      else Pass
  }

  /** The checks of the metrics loop on one entry: a known name with a dict spec first. */
  function QosItem(key: string, spec: Json): (r: Outcome)
    ensures r.Pass? <==> key in Validator.QosMetrics && spec.JObj? && ValidateQosMetricValue(key, spec.fields).Pass?
    ensures r.Fail? ==> r.error.ValueError? || r.error.TypeError?
  {
    if key !in Validator.QosMetrics || !spec.JObj? then Fail(ValueError(InvalidQosMetricMsg + key))
    else ValidateQosMetricValue(key, spec.fields)
  }

  /** `validate_qos_metrics`: returns nothing; raises at the first entry that fails. */
  method ValidateQosMetrics(qos: Json) returns (r: Outcome)
    ensures qos.JNull? ==> r == Pass
    ensures !qos.JNull? && !qos.JObj? ==> r == Fail(TypeError(QosMetricsDictionaryMsg))
    ensures qos.JObj? ==> (r.Pass? <==> forall i | 0 <= i < |qos.fields| :: QosItem(qos.fields[i].0, qos.fields[i].1).Pass?)
    ensures qos.JObj? && r.Fail? ==>
              exists i | 0 <= i < |qos.fields| ::
                && r == QosItem(qos.fields[i].0, qos.fields[i].1)
                && forall j | 0 <= j < i :: QosItem(qos.fields[j].0, qos.fields[j].1).Pass?
  {
    if qos.JNull? {
      return Pass;
    }
    if !qos.JObj? {
      return Fail(TypeError(QosMetricsDictionaryMsg));
    }
    var fields := qos.fields;
    var i := 0;
    while i < |fields|
      invariant 0 <= i <= |fields|
      invariant forall k | 0 <= k < i :: QosItem(fields[k].0, fields[k].1).Pass?
    {
      var (key, valueDict) := fields[i];
      var check := QosItem(key, valueDict);
      if check.Fail? {
        return check;
      }
      i := i + 1;
    }
    return Pass;
  }

  /** The loose validator's checks happen in order: a bad `strict` wins over a bad value. */
  lemma StrictCheckedBeforeBounds()
    ensures ValidateQosMetricValue("min_bw", [("value", JInt(500)), ("strict", JStr("yes"))]).error.TypeError?
  {
    var d := [("value", JInt(500)), ("strict", JStr("yes"))];
    assert d[1].0 == "strict";
    assert Get(d, "strict") == JStr("yes") by { assert Get(d[1..], "strict") == JStr("yes"); }
  }
}
