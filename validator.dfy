/**
 * The strict request validators of `sdxlib/validator.py`: base URL, name, e-mail
 * notifications, endpoints with their VLAN rules, scheduling window and QoS bounds.
 */
module Validator {
  import opened Outcomes
  import opened Text
  import opened Py
  import opened Patterns

  // Messages of the exceptions raised here.
  const BaseUrlNonEmptyMsg := "BASE_URL must be a non-empty string."
  const NameNonEmptyStringMsg := "name must be a non-empty string."
  const NameAtMost50Msg := "name must be at most 50 characters."
  const NotificationsListMsg := "notifications must be a list of objects with 'email'."
  const NotificationsCountMsg := "notifications can contain at most 10 entries."
  const EachNotificationDictEmailMsg := "each notification must be a dict with an 'email' key."
  const InvalidEmailFormatMsg := "invalid email format: "
  const InvalidVlanRangeMsg := "invalid VLAN range '"
  const RangeExpectedMsg := "'; expected 'A:B' with integers."
  const VlanRangeValuesSatisfyMsg := "VLAN range values must satisfy 1 <= A < B <= 4095."
  const VlanBetween14095Msg := "VLAN must be between 1 and 4095."
  const VlanChoicesMsg := "vlan must be 'any'|'all'|'untagged', a number (1..4095), or a range 'A:B'."
  const EndpointDictMsg := "endpoint must be a dict."
  const InvalidPortIdFormatMsg := "invalid port_id format: "
  const EndpointVlanMsg := "endpoint requires 'vlan' as non-empty string."
  const SpecialVlanUniformMsg := "when using 'any'|'all'|'untagged', all endpoints must use the same value."
  const RangeVlanUniformMsg := "when using VLAN ranges, all endpoints must share the same range."
  const MixedVlanMsg := "mixed VLAN specification; use all numeric, all range, or the same special keyword."
  const NumericVlanUniformMsg := "all endpoints must use the same numeric VLAN."
  const EndpointsListAtLeastMsg := "endpoints must be a list with at least 2 entries."
  const SchedulingDictMsg := "scheduling must be a dict."
  const StartTimeIso8601YyyyMsg := "start_time must be ISO8601 (YYYY-MM-DDTHH:MM:SSZ)."
  const EndTimeIso8601YyyyMsg := "end_time must be ISO8601 (YYYY-MM-DDTHH:MM:SSZ)."
  const EndTimeAfterStartMsg := "end_time must be after start_time."
  const InvalidQosMetricMsg := "invalid QoS metric: "
  const ValueIntMsg := ".value' must be an int."
  const ValueBetweenMsg := ".value' must be between "
  const StrictBoolMsg := ".strict' must be a bool."
  const QosMetricsDictMsg := "qos_metrics must be a dict."

  /** `ALLOWED_SPECIAL_VLANS`. */
  const SpecialVlans: set<string> := {"any", "all", "untagged"}

  /** The highest VLAN id the validators accept. */
  const MaxVlan: int := 4095

  // ---------------------------------------------------------------- URL and name

  /** `validate_required_url`: a string with at least one non-space character. */
  function ValidateRequiredUrl(baseUrl: Json): (r: Result<string>)
    ensures r.Success? <==> baseUrl.JStr? && !IsBlank(baseUrl.s)
    ensures r.Success? ==> r.value == baseUrl.s
    ensures r.Failure? ==> r.error == ValueError(BaseUrlNonEmptyMsg)
  {
    if !baseUrl.JStr? then Failure(ValueError(BaseUrlNonEmptyMsg))
    else
      StripEmptyIffBlank(baseUrl.s);
      if Strip(baseUrl.s) == "" then Failure(ValueError(BaseUrlNonEmptyMsg))
      else Success(baseUrl.s)
  }

  /** `validate_name`: a non-blank string of at most 50 characters, returned unchanged. */
  function ValidateName(name: Json): (r: Result<string>)
    ensures r.Success? <==> name.JStr? && !IsBlank(name.s) && |name.s| <= 50
    ensures r.Success? ==> r.value == name.s
    ensures r.Failure? ==> r.error.ValueError?
  {
    if !name.JStr? then Failure(ValueError(NameNonEmptyStringMsg))
    else
      StripEmptyIffBlank(name.s);
      if Strip(name.s) == "" then Failure(ValueError(NameNonEmptyStringMsg))
      else if |name.s| > 50 then Failure(ValueError(NameAtMost50Msg))
      else Success(name.s)
  }

  // ---------------------------------------------------------------- notifications

  /** `is_valid_email`: a string of the shape `\S+@\S+`. */
  function IsValidEmail(email: Json): (ok: bool)
    ensures ok ==> email.JStr? && '@' in email.s
    ensures ok ==> forall i | 0 <= i < |email.s| - 1 :: !IsSpace(email.s[i])
  {
    email.JStr? && EmailMatch(email.s)
  }

  /** Any two non-empty whitespace-free texts joined by `@` form a valid address. */
  lemma EmailAccepted(user: string, host: string)
    requires |user| > 0 && |host| > 0
    requires forall i | 0 <= i < |user| :: !IsSpace(user[i])
    requires forall i | 0 <= i < |host| :: !IsSpace(host[i])
    ensures IsValidEmail(JStr(user + "@" + host))
  {
    var s := user + "@" + host;
    assert s[|user|] == '@';
    forall k | 0 <= k < |s| ensures !IsSpace(s[k]) {
      if k < |user| { assert s[k] == user[k]; }
      else if k > |user| { assert s[k] == host[k - |user| - 1]; }
    }
    assert EmailBody(s);
  }

  /** One accepted notification entry: a dict with a valid `email`. */
  predicate NotificationOk(item: Json) {
    item.JObj? && HasKey(item.fields, "email") && IsValidEmail(Get(item.fields, "email"))
  }

  /** The entry reduced to its `email` key. */
  function EmailOnly(item: Json): Json
    requires item.JObj?
  {
    JObj([("email", Get(item.fields, "email"))])
  }

  /** `validate_notifications`: at most ten entries, each reduced to `{"email": e}`. */
  method ValidateNotifications(notifications: Json) returns (r: Result<Option<seq<Json>>>)
    ensures notifications.JNull? ==> r == Success(None)
    ensures !notifications.JNull? && !notifications.JList? ==>
              r == Failure(ValueError(NotificationsListMsg))
    ensures notifications.JList? && |notifications.items| > 10 ==>
              r == Failure(ValueError(NotificationsCountMsg))
    ensures notifications.JList? && |notifications.items| <= 10 ==>
              (r.Success? <==> forall i | 0 <= i < |notifications.items| ::
                                 NotificationOk(notifications.items[i]))
    ensures r.Success? && !notifications.JNull? ==>
              && notifications.JList? && r.value.Some?
              && |r.value.value| == |notifications.items|
              && forall i | 0 <= i < |notifications.items| ::
                   notifications.items[i].JObj? && r.value.value[i] == EmailOnly(notifications.items[i])
    ensures r.Failure? ==> r.error.ValueError?
  {
    if notifications.JNull? {
      return Success(None);
    }
    if !notifications.JList? {
      return Failure(ValueError(NotificationsListMsg));
    }
    var items := notifications.items;
    if |items| > 10 {
      return Failure(ValueError(NotificationsCountMsg));
    }
    var validated: seq<Json> := [];
    var i := 0;
    while i < |items|
      invariant 0 <= i <= |items|
      invariant |validated| == i
      invariant forall k | 0 <= k < i ::
                  NotificationOk(items[k]) && validated[k] == EmailOnly(items[k])
    {
      var item := items[i];
      if !item.JObj? || !HasKey(item.fields, "email") {
        return Failure(ValueError(EachNotificationDictEmailMsg));
      }
      var email := Get(item.fields, "email");
      if !IsValidEmail(email) {
        return Failure(ValueError(InvalidEmailFormatMsg + PyStr(email)));
      }
      validated := validated + [JObj([("email", email)])];
      i := i + 1;
    }
    return Success(Some(validated));
  }

  // ---------------------------------------------------------------- VLANs and endpoints

  /** `1 <= A < B <= 4095` on two parsed sides. */
  predicate RangeBoundsOk(a: Option<int>, b: Option<int>) {
    a.Some? && b.Some? && 1 <= a.value < b.value <= MaxVlan
  }

  /** `A:B` with exactly one colon, both sides read by `int()` and `1 <= A < B <= 4095`. */
  predicate RangeAccepted(v: string) {
    exists c | 0 <= c < |v| ::
      && v[c] == ':' && ':' !in v[..c] && ':' !in v[c + 1..]
      && RangeBoundsOk(ParseInt(v[..c]), ParseInt(v[c + 1..]))
  }

  /** `_validate_vlan_range`: the text is returned as given when it is a valid range. */
  function ValidateVlanRange(text: string): (r: Result<string>)
    ensures r.Success? <==> RangeAccepted(text)
    ensures r.Success? ==> r.value == text
    ensures r.Failure? ==> r.error.ValueError?
  {
    var parts := Split(text, ':');
    if |parts| != 2 || ParseInt(parts[0]).None? || ParseInt(parts[1]).None? then
      assert !RangeAccepted(text) by { RangeSplitsInTwo(text); }
      Failure(ValueError(InvalidVlanRangeMsg + text + RangeExpectedMsg))
    else
      SplitInTwo(text, ':');
      var c := |parts[0]|;
      assert text[..c] == parts[0] && text[c + 1..] == parts[1];
      RangeSplitsInTwo(text);
      if !(1 <= ParseInt(parts[0]).value < ParseInt(parts[1]).value <= MaxVlan) then
        Failure(ValueError(VlanRangeValuesSatisfyMsg))
      else
        Success(text)
  }

  /** A text with a single colon at `c` splits into the two sides of that colon. */
  lemma RangeSplitsInTwo(v: string)
    ensures RangeAccepted(v) ==> |Split(v, ':')| == 2 && RangeBoundsOk(ParseInt(Split(v, ':')[0]), ParseInt(Split(v, ':')[1]))
    ensures |Split(v, ':')| == 2 ==>
              (RangeAccepted(v) <==> RangeBoundsOk(ParseInt(Split(v, ':')[0]), ParseInt(Split(v, ':')[1])))
  {
    if RangeAccepted(v) {
      var c :| 0 <= c < |v| && v[c] == ':' && ':' !in v[..c] && ':' !in v[c + 1..]
        && RangeBoundsOk(ParseInt(v[..c]), ParseInt(v[c + 1..]));
      SplitAt(v, c);
    }
    if |Split(v, ':')| == 2 {
      SplitInTwo(v, ':');
      var parts := Split(v, ':');
      var c := |parts[0]|;
      assert v[..c] == parts[0] && v[c + 1..] == parts[1];
      assert v[c] == ':';
    }
  }

  lemma SplitAt(v: string, c: int)
    requires 0 <= c < |v| && v[c] == ':' && ':' !in v[..c] && ':' !in v[c + 1..]
    ensures Split(v, ':') == [v[..c], v[c + 1..]]
  {
    assert v == v[..c] + [':'] + v[c + 1..];
    SplitAfterFirst(v[..c], ':', v[c + 1..]);
    SplitNoSep(v[c + 1..], ':');
  }

  /** A VLAN the strict validator accepts, after stripping and lower-casing. */
  predicate VlanAccepted(v: string) {
    || v in SpecialVlans
    || (IsDigits(v) && 1 <= DigitsValue(v) <= MaxVlan)
    || RangeAccepted(v)
  }

  /** The endpoint as the strict validator returns it: exactly `port_id` and `vlan`. */
  datatype Endpoint = Endpoint(portId: string, vlan: string)

  /** The `vlan` text an endpoint is normalised to. */
  function NormalizeVlan(vlan: string): (v: string)
    ensures exists a, b | 0 <= a <= b <= |vlan| ::
              && IsBlank(vlan[..a]) && IsBlank(vlan[b..]) && v == Lower(vlan[a..b])
    ensures |v| > 0 ==> !IsSpace(v[0]) && !IsSpace(v[|v| - 1])
    ensures forall i | 0 <= i < |v| :: !IsUpper(v[i])
  {
    TrimStartSpec(vlan);
    var t := TrimStart(vlan);
    TrimEndSpec(t);
    var a := |vlan| - |t|;
    var b := a + |TrimEnd(t)|;
    assert vlan[a..b] == Strip(vlan);
    assert IsBlank(vlan[..a]);
    assert IsBlank(vlan[b..]) by {
      forall i | 0 <= i < |vlan| - b ensures IsSpace(vlan[b..][i]) {
        assert vlan[b..][i] == t[|TrimEnd(t)| + i];
      }
    }
    Lower(Strip(vlan))
  }

  /** Normalising an already normalised text changes nothing. */
  lemma NormalizeVlanIdempotent(vlan: string)
    ensures NormalizeVlan(NormalizeVlan(vlan)) == NormalizeVlan(vlan)
  {
    var v := NormalizeVlan(vlan);
    StripUnchanged(v);
    assert Lower(v) == v;
  }

  /** The three shapes a validated VLAN text can take. */
  predicate VlanShape(v: string) {
    v in SpecialVlans || IsDigits(v) || ':' in v
  }

  /**
   * The VLAN branches of `_validate_endpoint_dict` on the normalised text: a special
   * keyword, a single id in 1..4095, or a range; the accepted text is kept as it is.
   */
  function ValidateVlanText(v: string): (r: Result<string>)
    ensures r.Success? <==> VlanAccepted(v)
    ensures r.Success? ==> r.value == v && VlanShape(v)
    ensures r.Failure? ==> r.error.ValueError?
  {
    if v in SpecialVlans then Success(v)
    else if IsDigits(v) then
      assert ':' !in v;
      if 1 <= DigitsValue(v) <= MaxVlan then Success(v)
      else Failure(ValueError(VlanBetween14095Msg))
    else if ':' in v then ValidateVlanRange(v)
    else
      NoColonNoRange(v);
      Failure(ValueError(VlanChoicesMsg))
  }

  /**
   * `_validate_endpoint_dict`: accepted exactly when the endpoint is a dict with a
   * well-formed `port_id` and a VLAN that normalises to an accepted form; the result
   * keeps only those two keys.
   */
  function ValidateEndpointDict(endpoint: Json): Result<Endpoint> {
    if !endpoint.JObj? then Failure(TypeError(EndpointDictMsg))
    else
      var portId := Get(endpoint.fields, "port_id");
      var vlan := Get(endpoint.fields, "vlan");
      if !portId.JStr? || !PortIdMatch(portId.s) then
        Failure(ValueError(InvalidPortIdFormatMsg + PyStr(portId)))
      else if !vlan.JStr? || Strip(vlan.s) == "" then
        Failure(ValueError(EndpointVlanMsg))
      else
        var v :- ValidateVlanText(NormalizeVlan(vlan.s));
        Success(Endpoint(portId.s, v))
  }

  /**
   * `_validate_endpoint_dict` accepts exactly a dict with a well-formed `port_id` and a
   * VLAN that normalises to an accepted form, and keeps only those two keys.
   */
  lemma ValidateEndpointDictSpec(endpoint: Json)
    ensures ValidateEndpointDict(endpoint).Success? <==>
              && endpoint.JObj?
              && Get(endpoint.fields, "port_id").JStr?
              && PortIdMatch(Get(endpoint.fields, "port_id").s)
              && Get(endpoint.fields, "vlan").JStr?
              && VlanAccepted(NormalizeVlan(Get(endpoint.fields, "vlan").s))
    ensures ValidateEndpointDict(endpoint).Success? ==>
              && ValidateEndpointDict(endpoint).value
                 == Endpoint(Get(endpoint.fields, "port_id").s, NormalizeVlan(Get(endpoint.fields, "vlan").s))
              && VlanShape(ValidateEndpointDict(endpoint).value.vlan)
    ensures !endpoint.JObj? ==> ValidateEndpointDict(endpoint) == Failure(TypeError(EndpointDictMsg))
    ensures endpoint.JObj? && ValidateEndpointDict(endpoint).Failure? ==>
              ValidateEndpointDict(endpoint).error.ValueError?
  {
    if endpoint.JObj? {
      var vlan := Get(endpoint.fields, "vlan");
      if vlan.JStr? && Strip(vlan.s) == "" {
        assert NormalizeVlan(vlan.s) == "";
      }
    }
  }

  /** The normalised VLAN texts of the validated endpoints. */
  function VlanTexts(validated: seq<Endpoint>): (vs: seq<string>)
    ensures |vs| == |validated|
    ensures forall i | 0 <= i < |validated| :: vs[i] == validated[i].vlan
  {
    seq(|validated|, i requires 0 <= i < |validated| => validated[i].vlan)
  }

  /** Every entry of the sequence is the same text. */
  predicate AllSame(vs: seq<string>) {
    forall i, j | 0 <= i < |vs| && 0 <= j < |vs| :: vs[i] == vs[j]
  }

  /** A non-empty sequence has one distinct value exactly when all its entries agree. */
  lemma SingleDistinctIff(vs: seq<string>)
    requires |vs| > 0
    ensures |set v | v in vs| == 1 <==> AllSame(vs)
  {
    var distinct := set v | v in vs;
    if AllSame(vs) {
      assert distinct == {vs[0]};
    } else {
      var i, j :| 0 <= i < |vs| && 0 <= j < |vs| && vs[i] != vs[j];
      assert {vs[i], vs[j]} <= distinct;
      assert |{vs[i], vs[j]}| == 2;
      SubsetCardinality({vs[i], vs[j]}, distinct);
    }
  }

  lemma SubsetCardinality<T>(a: set<T>, b: set<T>)
    requires a <= b
    ensures |a| <= |b|
  {
    assert b == a + (b - a);
  }

  /** Every validated endpoint carries a special keyword, a digit run or a colon. */
  lemma ValidatedShapes(items: seq<Json>, validated: seq<Endpoint>)
    requires MapResults(ValidateEndpointDict, items) == Success(validated)
    ensures |validated| == |items|
    ensures forall i | 0 <= i < |validated| :: VlanShape(validated[i].vlan)
  {
    MapResultsSuccess(ValidateEndpointDict, items);
    forall i | 0 <= i < |validated| ensures VlanShape(validated[i].vlan) {
      ValidateEndpointDictSpec(items[i]);
    }
  }

  /**
   * The message of a failed uniformity rule: the keyword rule is tested first, then
   * the range rule, then the numeric one.
   */
  function UniformityError(vs: seq<string>): Exc {
    if exists i | 0 <= i < |vs| :: vs[i] in SpecialVlans then ValueError(SpecialVlanUniformMsg)
    else if exists i | 0 <= i < |vs| :: ':' in vs[i] then ValueError(RangeVlanUniformMsg)
    else ValueError(NumericVlanUniformMsg)
  }

  /**
   * The three uniformity rules of `validate_endpoints` over the validated VLAN texts:
   * a special keyword, a range or a number must each be the only distinct value.
   */
  function VlanUniformity(vs: seq<string>): (r: Outcome)
    requires |vs| > 0
    requires forall i | 0 <= i < |vs| :: VlanShape(vs[i])
    ensures r.Pass? <==> AllSame(vs)
    ensures r.Fail? ==> r.error == UniformityError(vs)
  {
    var vlans := set v | v in vs;
    SingleDistinctIff(vs);
    assert forall v | v in vlans :: VlanShape(v);
    if exists v | v in vlans :: v in SpecialVlans then
      if |vlans| != 1 then
        Fail(ValueError(SpecialVlanUniformMsg))
      else Pass
    else if exists v | v in vlans :: ':' in v then
      if |vlans| != 1 then
        Fail(ValueError(RangeVlanUniformMsg))
      else Pass
    else if !(forall v | v in vlans :: IsDigits(v)) then
      assert false;
      Fail(ValueError(MixedVlanMsg))
    else if |vlans| != 1 then
      Fail(ValueError(NumericVlanUniformMsg))
    else Pass
  }

  /**
   * `validate_endpoints` of the strict validator: at least two endpoints, each valid,
   * all normalised to the very same VLAN text.
   */
  function ValidateEndpoints(endpoints: Json): (r: Result<seq<Endpoint>>)
    ensures r.Success? <==>
              && endpoints.JList? && |endpoints.items| >= 2
              && MapResults(ValidateEndpointDict, endpoints.items).Success?
              && AllSame(VlanTexts(MapResults(ValidateEndpointDict, endpoints.items).value))
    ensures r.Success? ==> r.value == MapResults(ValidateEndpointDict, endpoints.items).value
    ensures !(endpoints.JList? && |endpoints.items| >= 2) ==>
              r == Failure(ValueError(EndpointsListAtLeastMsg))
    ensures endpoints.JList? && |endpoints.items| >= 2 && MapResults(ValidateEndpointDict, endpoints.items).Failure? ==>
              r == Failure(MapResults(ValidateEndpointDict, endpoints.items).error)
    ensures endpoints.JList? && |endpoints.items| >= 2 && MapResults(ValidateEndpointDict, endpoints.items).Success?
            && !AllSame(VlanTexts(MapResults(ValidateEndpointDict, endpoints.items).value)) ==>
              r == Failure(UniformityError(VlanTexts(MapResults(ValidateEndpointDict, endpoints.items).value)))
  {
    if !endpoints.JList? || |endpoints.items| < 2 then
      Failure(ValueError(EndpointsListAtLeastMsg))
    else
      var validated :- MapResults(ValidateEndpointDict, endpoints.items);
      ValidatedShapes(endpoints.items, validated);
      var uniform := VlanUniformity(VlanTexts(validated));
      if uniform.Fail? then Failure(uniform.error) else Success(validated)
  }

  /** Two valid endpoints whose normalised VLAN texts differ are rejected together. */
  lemma DifferentVlansRejected(a: Json, b: Json)
    requires ValidateEndpointDict(a).Success? && ValidateEndpointDict(b).Success?
    requires ValidateEndpointDict(a).value.vlan != ValidateEndpointDict(b).value.vlan
    ensures ValidateEndpoints(JList([a, b])).Failure?
  {
    var all := MapResults(ValidateEndpointDict, [a, b]);
    MapResultsSuccess(ValidateEndpointDict, [a, b]);
    assert VlanTexts(all.value)[0] != VlanTexts(all.value)[1];
  }

  /** The single-id bounds: 1 and 4095 pass, 0 and 4096 do not. */
  lemma VlanIdBoundaries()
    ensures VlanAccepted("1") && VlanAccepted("4095")
    ensures !VlanAccepted("0") && !VlanAccepted("4096")
  {
    FourDigits("4095");
    FourDigits("4096");
    NoColonNoRange("0");
    NoColonNoRange("4096");
  }

  /** A range needs `A < B`: `1:4095` passes. */
  lemma VlanRangeAccepted()
    ensures VlanAccepted("1:4095")
  {
    FourDigits("4095");
    DigitRange("1", "4095");
    assert "1" + ":" + "4095" == "1:4095";
  }

  /** The empty range `4095:4095` is rejected. */
  lemma VlanEmptyRangeRejected()
    ensures !VlanAccepted("4095:4095")
  {
    SameSidesNotAccepted("4095");
    assert "4095" + ":" + "4095" == "4095:4095";
  }

  /** `A:A` is accepted in no form: not a range, not a number, not a keyword. */
  lemma SameSidesNotAccepted(a: string)
    requires IsDigits(a)
    ensures !VlanAccepted(a + ":" + a)
  {
    DigitRange(a, a);
    ColonRulesOutIdAndKeyword(a + ":" + a, |a|);
  }

  /** A text holding a colon is neither a digit run nor a special keyword. */
  lemma ColonRulesOutIdAndKeyword(v: string, i: int)
    requires 0 <= i < |v| && v[i] == ':'
    ensures !IsDigits(v) && v !in SpecialVlans
  {
    assert !IsDigit(v[i]);
    assert forall w | w in SpecialVlans :: ':' !in w;
  }

  /** Two digit runs around a colon form a range exactly when their values are in order. */
  lemma DigitRange(a: string, b: string)
    requires IsDigits(a) && IsDigits(b)
    ensures RangeAccepted(a + ":" + b) <==> 1 <= DigitsValue(a) < DigitsValue(b) <= MaxVlan
  {
    var v := a + ":" + b;
    assert v[..|a|] == a && v[|a| + 1..] == b;
    assert ':' !in a && ':' !in b;
    SplitAt(v, |a|);
    RangeSplitsInTwo(v);
  }

  /** The value of a four-digit text, digit by digit. */
  lemma FourDigits(s: string)
    requires |s| == 4 && IsDigits(s)
    ensures DigitsValue(s) == DigitValue(s[0]) * 1000 + DigitValue(s[1]) * 100 + DigitValue(s[2]) * 10 + DigitValue(s[3])
  {
    var one, two, three := s[..1], s[..2], s[..3];
    assert one[..0] == [];
    assert DigitsValue(one) == DigitValue(s[0]);
    assert two[..1] == one;
    assert DigitsValue(two) == DigitsValue(one) * 10 + DigitValue(s[1]);
    assert three[..2] == two;
    assert DigitsValue(three) == DigitsValue(two) * 10 + DigitValue(s[2]);
    assert s[..3] == three;
  }

  lemma ParsesTo(s: string, n: nat)
    requires IsDigits(s) && DigitsValue(s) == n
    ensures ParseInt(s) == Some(n)
  {
  }

  lemma NoColonNoRange(v: string)
    requires ':' !in v
    ensures !RangeAccepted(v)
  {
  }

  // ---------------------------------------------------------------- scheduling and QoS

  /** `is_valid_iso8601`: the shape `YYYY-MM-DDTHH:MM:SSZ`. */
  function IsValidIso8601(ts: Json): (ok: bool)
    ensures ok ==> ts.JStr? && 20 <= |ts.s| <= 21 && ts.s[19] == 'Z'
  {
    ts.JStr? && IsoZMatch(ts.s)
  }

  /** The check is on shape only: a month 13 and a 99th second still pass. */
  lemma Iso8601ShapeOnly()
    ensures IsValidIso8601(JStr("2024-13-45T99:99:99Z"))
  {
    assert IsoZBody("2024-13-45T99:99:99Z");
  }

  /** An absent time, or one in ISO form. */
  predicate TimeOk(t: Json) {
    t.JNull? || IsValidIso8601(t)
  }

  /** Both times valid, and when both are given the end comes after the start. */
  predicate WindowOk(start: Json, end: Json) {
    && TimeOk(start) && TimeOk(end)
    && !(start.JStr? && end.JStr? && LexLessEq(end.s, start.s))
  }

  /** `validate_scheduling`: keeps the given times, or `None` when neither is given. */
  method ValidateScheduling(scheduling: Json) returns (r: Result<Option<seq<(string, Json)>>>)
    ensures scheduling.JNull? ==> r == Success(None)
    ensures !scheduling.JNull? && !scheduling.JObj? ==> r == Failure(TypeError(SchedulingDictMsg))
    ensures scheduling.JObj? ==>
              (r.Success? <==> WindowOk(Get(scheduling.fields, "start_time"), Get(scheduling.fields, "end_time")))
    ensures scheduling.JObj? && r.Success? ==>
              (r.value.None? <==> Get(scheduling.fields, "start_time").JNull? && Get(scheduling.fields, "end_time").JNull?)
    ensures scheduling.JObj? && r.Success? && r.value.Some? ==>
              && Get(r.value.value, "start_time") == Get(scheduling.fields, "start_time")
              && Get(r.value.value, "end_time") == Get(scheduling.fields, "end_time")
              && forall k | 0 <= k < |r.value.value| :: r.value.value[k].0 in {"start_time", "end_time"}
    ensures scheduling.JObj? && r.Failure? ==> r.error.ValueError?
  {
    if scheduling.JNull? {
      return Success(None);
    }
    if !scheduling.JObj? {
      return Failure(TypeError(SchedulingDictMsg));
    }
    var start := Get(scheduling.fields, "start_time");
    var end := Get(scheduling.fields, "end_time");
    if !start.JNull? && !IsValidIso8601(start) {
      return Failure(ValueError(StartTimeIso8601YyyyMsg));
    }
    if !end.JNull? && !IsValidIso8601(end) {
      return Failure(ValueError(EndTimeIso8601YyyyMsg));
    }
    if Truthy(start) && Truthy(end) && LexLessEq(end.s, start.s) {
      return Failure(ValueError(EndTimeAfterStartMsg));
    }
    var out := CollectTimes(start, end);
    if out == [] {
      return Success(None);
    }
    return Success(Some(out));
  }

  /** The `out` dict of `validate_scheduling`: each time that is given, under its own key. */
  method CollectTimes(start: Json, end: Json) returns (out: seq<(string, Json)>)
    requires TimeOk(start) && TimeOk(end)
    ensures out == [] <==> start.JNull? && end.JNull?
    ensures Get(out, "start_time") == start && Get(out, "end_time") == end
    ensures forall k | 0 <= k < |out| :: out[k].0 in {"start_time", "end_time"}
  {
    assert "start_time" != "end_time" by { assert "start_time"[0] != "end_time"[0]; }
    out := [];
    if Truthy(start) {
      out := out + [("start_time", start)];
    }
    if Truthy(end) {
      out := out + [("end_time", end)];
    }
    if Truthy(start) && Truthy(end) {
      assert out == [("start_time", start), ("end_time", end)];
      assert Get(out[1..], "end_time") == end;
    } else if Truthy(start) {
      assert out == [("start_time", start)] && end.JNull?;
      assert Get(out[1..], "end_time") == JNull;
    } else if Truthy(end) {
      assert out == [("end_time", end)] && start.JNull?;
      assert Get(out[1..], "start_time") == JNull;
    }
  }

  /** The metric names and their inclusive bounds (`ranges`). */
  const QosMetrics: set<string> := {"min_bw", "max_delay", "max_number_oxps"}

  function QosBounds(key: string): (b: (int, int))
    requires key in QosMetrics
    ensures key == "min_bw" ==> b == (0, 100)
    ensures key == "max_delay" ==> b == (0, 1000)
    ensures key == "max_number_oxps" ==> b == (1, 100)
  {
    if key == "min_bw" then (0, 100)
    else if key == "max_delay" then (0, 1000)
    else (1, 100)
  }

  /** One QoS entry: the checks of the loop body and the entry it stores. */
  function QosEntry(key: string, spec: Json): (r: Result<Json>)
    ensures r.Success? <==>
              && key in QosMetrics && spec.JObj?
              && IsPyInt(Get(spec.fields, "value"))
              && QosBounds(key).0 <= PyIntValue(Get(spec.fields, "value")) <= QosBounds(key).1
              && (HasKey(spec.fields, "strict") ==> Get(spec.fields, "strict").JBool?)
    ensures r.Success? ==>
              && r.value.JObj?
              && Get(r.value.fields, "value") == Get(spec.fields, "value")
              && Get(r.value.fields, "strict") == Get(spec.fields, "strict")
              && (HasKey(r.value.fields, "strict") <==> HasKey(spec.fields, "strict"))
              && forall k | 0 <= k < |r.value.fields| :: r.value.fields[k].0 in {"value", "strict"}
    ensures r.Failure? ==> r.error.ValueError?
  {
    if key !in QosMetrics || !spec.JObj? then Failure(ValueError(InvalidQosMetricMsg + key))
    else
      var val := Get(spec.fields, "value");
      var strict := Get(spec.fields, "strict");
      if !IsPyInt(val) then Failure(ValueError("QoS '" + key + ValueIntMsg))
      else
        var (lo, hi) := QosBounds(key);
        if !(lo <= PyIntValue(val) <= hi) then
          Failure(ValueError("QoS '" + key + ValueBetweenMsg + IntToString(lo)
                             + " and " + IntToString(hi) + "."))
        else if HasKey(spec.fields, "strict") && !strict.JBool? then
          Failure(ValueError("QoS '" + key + StrictBoolMsg))
        else if !HasKey(spec.fields, "strict") then
          var e := [("value", val)];
          assert !HasKey(e, "strict");
          Success(JObj(e))
        else
          var e := [("value", val), ("strict", strict)];
          assert e[1].0 == "strict";
          Success(JObj(e))
  }

  /** `value=True` is an `int` to Python, so it passes as 1. */
  lemma QosBoolValueAccepted()
    ensures QosEntry("min_bw", JObj([("value", JBool(true))])).Success?
  {
    assert !HasKey([("value", JBool(true))], "strict");
  }

  /** `validate_qos_metrics`: every entry checked in order, the output mirrors the keys. */
  method ValidateQosMetrics(qos: Json) returns (r: Result<Option<seq<(string, Json)>>>)
    ensures qos.JNull? ==> r == Success(None)
    ensures !qos.JNull? && !qos.JObj? ==> r == Failure(TypeError(QosMetricsDictMsg))
    ensures qos.JObj? ==>
              (r.Success? <==> forall i | 0 <= i < |qos.fields| :: QosEntry(qos.fields[i].0, qos.fields[i].1).Success?)
    ensures qos.JObj? && r.Success? ==>
              && r.value.Some? && |r.value.value| == |qos.fields|
              && forall i | 0 <= i < |qos.fields| ::
                   r.value.value[i] == (qos.fields[i].0, QosEntry(qos.fields[i].0, qos.fields[i].1).value)
    ensures qos.JObj? && r.Failure? ==>
              exists i | 0 <= i < |qos.fields| ::
                && QosEntry(qos.fields[i].0, qos.fields[i].1).Failure?
                && r.error == QosEntry(qos.fields[i].0, qos.fields[i].1).error
                && forall j | 0 <= j < i :: QosEntry(qos.fields[j].0, qos.fields[j].1).Success?
  {
    if qos.JNull? {
      return Success(None);
    }
    if !qos.JObj? {
      return Failure(TypeError(QosMetricsDictMsg));
    }
    var fields := qos.fields;
    var out: seq<(string, Json)> := [];
    var i := 0;
    while i < |fields|
      invariant 0 <= i <= |fields|
      invariant |out| == i
      invariant forall k | 0 <= k < i ::
                  && QosEntry(fields[k].0, fields[k].1).Success?
                  && out[k] == (fields[k].0, QosEntry(fields[k].0, fields[k].1).value)
    {
      var (key, spec) := fields[i];
      var entry := QosEntry(key, spec);
      if entry.Failure? {
        return Failure(entry.error);
      }
      out := out + [(key, entry.value)];
      i := i + 1;
    }
    return Success(Some(out));
  }

  /** `validate_required_attributes`: URL, then name, then endpoints. */
  function ValidateRequiredAttributes(baseUrl: Json, name: Json, endpoints: Json): (r: Outcome)
    ensures r.Pass? <==>
              && ValidateRequiredUrl(baseUrl).Success?
              && ValidateName(name).Success?
              && ValidateEndpoints(endpoints).Success?
    ensures ValidateRequiredUrl(baseUrl).Failure? ==> r == Fail(ValidateRequiredUrl(baseUrl).error)
    ensures ValidateRequiredUrl(baseUrl).Success? && ValidateName(name).Failure? ==>
              r == Fail(ValidateName(name).error)
    ensures ValidateRequiredUrl(baseUrl).Success? && ValidateName(name).Success? ==>
              r == (if ValidateEndpoints(endpoints).Failure? then Fail(ValidateEndpoints(endpoints).error) else Pass)
  {
    var url := ValidateRequiredUrl(baseUrl);
    var nm := ValidateName(name);
    var eps := ValidateEndpoints(endpoints);
    if url.Failure? then Fail(url.error)
    else if nm.Failure? then Fail(nm.error)
    else if eps.Failure? then Fail(eps.error)
    else Pass
  }
}
