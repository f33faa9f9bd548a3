/**
 * `SDXResponse` of `sdxlib/sdx_response.py`: the attributes captured from an L2VPN
 * API response, the equality that compares ten of them, and the rendering of the
 * current path.
 */
module SdxResponse {
  import opened Outcomes
  import opened Text
  import opened Py

  const ExpectedDictMsg := "Expected a dictionary response_json."

  class SdxResponse {
    var serviceId: Json
    var name: Json
    var endpoints: Json
    var description: Json
    var notifications: Json
    var scheduling: Json
    var qosMetrics: Json
    var ownership: Json
    var creationDate: Json
    var archivedDate: Json
    var status: Json
    var state: Json
    var countersLocation: Json
    var lastModified: Json
    var currentPath: Json
    var oxpServiceIds: Json

    /** The body of `__init__` after its type check: every attribute is `.get` of its key. */
    constructor (responseJson: seq<(string, Json)>)
      ensures Captures(this, responseJson)
    {
      serviceId := Get(responseJson, "service_id");
      name := Get(responseJson, "name");
      endpoints := Get(responseJson, "endpoints");
      description := Get(responseJson, "description");
      notifications := Get(responseJson, "notifications");
      scheduling := Get(responseJson, "scheduling");
      qosMetrics := Get(responseJson, "qos_metrics");
      ownership := Get(responseJson, "ownership");
      creationDate := Get(responseJson, "creation_date");
      archivedDate := Get(responseJson, "archived_date");
      status := Get(responseJson, "status");
      state := Get(responseJson, "state");
      countersLocation := Get(responseJson, "counters_location");
      lastModified := Get(responseJson, "last_modified");
      currentPath := Get(responseJson, "current_path");
      oxpServiceIds := Get(responseJson, "oxp_service_ids");
    }

    /** `self == other` for two responses: ten attributes compared with Python's `==`. */
    predicate Equals(other: SdxResponse)
      reads this, other
    {
      && PyEq(serviceId, other.serviceId)
      && PyEq(ownership, other.ownership)
      && PyEq(creationDate, other.creationDate)
      && PyEq(archivedDate, other.archivedDate)
      && PyEq(status, other.status)
      && PyEq(state, other.state)
      && PyEq(countersLocation, other.countersLocation)
      && PyEq(lastModified, other.lastModified)
      && PyEq(currentPath, other.currentPath)
      && PyEq(oxpServiceIds, other.oxpServiceIds)
    }

    /** The `current_path` line of `__str__`: a one-element list shows its element bare. */
    function CurrentPathText(): string
      reads this
    {
      if currentPath.JList? && |currentPath.items| == 1 then PyStr(currentPath.items[0])
      else PyStr(currentPath)
    }
  }

  /**
   * Every attribute of `r` is the dict's value under the attribute's key, `None`
   * when the key is absent.
   */
  predicate Captures(r: SdxResponse, d: seq<(string, Json)>)
    reads r
  {
    r.serviceId == Get(d, "service_id") && r.name == Get(d, "name")
    && r.endpoints == Get(d, "endpoints") && r.description == Get(d, "description")
    && r.notifications == Get(d, "notifications") && r.scheduling == Get(d, "scheduling")
    && r.qosMetrics == Get(d, "qos_metrics") && r.ownership == Get(d, "ownership")
    && r.creationDate == Get(d, "creation_date") && r.archivedDate == Get(d, "archived_date")
    && r.status == Get(d, "status") && r.state == Get(d, "state")
    && r.countersLocation == Get(d, "counters_location") && r.lastModified == Get(d, "last_modified")
    && r.currentPath == Get(d, "current_path") && r.oxpServiceIds == Get(d, "oxp_service_ids")
  }

  /** `SDXResponse(response_json)`: anything but a dict raises TypeError. */
  method Create(responseJson: Json) returns (r: Result<SdxResponse>)
    ensures r.Failure? <==> !responseJson.JObj?
    ensures r.Failure? ==> r.error == TypeError(ExpectedDictMsg)
    ensures r.Success? ==> fresh(r.value)
    ensures r.Success? ==> Captures(r.value, responseJson.fields)
  {
    if !responseJson.JObj? {
      return Failure(TypeError(ExpectedDictMsg));
    }
    var response := new SdxResponse(responseJson.fields);
    return Success(response);
  }

  /** The two dicts hold equal values, by Python's `==`, under the ten keys `__eq__` looks at. */
  predicate AgreeOnCompared(d1: seq<(string, Json)>, d2: seq<(string, Json)>) {
    && PyEq(Get(d1, "service_id"), Get(d2, "service_id"))
    && PyEq(Get(d1, "ownership"), Get(d2, "ownership"))
    && PyEq(Get(d1, "creation_date"), Get(d2, "creation_date"))
    && PyEq(Get(d1, "archived_date"), Get(d2, "archived_date"))
    && PyEq(Get(d1, "status"), Get(d2, "status"))
    && PyEq(Get(d1, "state"), Get(d2, "state"))
    && PyEq(Get(d1, "counters_location"), Get(d2, "counters_location"))
    && PyEq(Get(d1, "last_modified"), Get(d2, "last_modified"))
    && PyEq(Get(d1, "current_path"), Get(d2, "current_path"))
    && PyEq(Get(d1, "oxp_service_ids"), Get(d2, "oxp_service_ids"))
  }

  /**
   * Responses captured from two dicts are equal exactly when the dicts agree on the
   * ten compared keys: `name`, `endpoints`, `description`, `notifications`,
   * `scheduling` and `qos_metrics` make no difference.
   */
  lemma EqualsFromDicts(a: SdxResponse, b: SdxResponse, d1: seq<(string, Json)>, d2: seq<(string, Json)>)
    requires Captures(a, d1) && Captures(b, d2)
    ensures a.Equals(b) <==> AgreeOnCompared(d1, d2)
  {
  }

  /** Two responses captured from the same dict are equal. */
  lemma SameDictEqual(a: SdxResponse, b: SdxResponse, d: seq<(string, Json)>)
    requires Captures(a, d) && Captures(b, d)
    ensures a.Equals(b)
  {
    PyEqReflexive(a.serviceId);
    PyEqReflexive(a.ownership);
    PyEqReflexive(a.creationDate);
    PyEqReflexive(a.archivedDate);
    PyEqReflexive(a.status);
    PyEqReflexive(a.state);
    PyEqReflexive(a.countersLocation);
    PyEqReflexive(a.lastModified);
    PyEqReflexive(a.currentPath);
    PyEqReflexive(a.oxpServiceIds);
  }

  /** `.get` on a one-entry dict. */
  lemma GetSingle(k: string, v: Json, key: string)
    ensures Get([(k, v)], key) == if key == k then v else JNull
  {
    assert [(k, v)][1..] == [];
  }

  /** Dicts holding only `oxp_service_ids` agree on the compared keys when those values are `==`. */
  lemma AgreeOnServiceIds(x: Json, y: Json)
    requires PyEq(x, y)
    ensures AgreeOnCompared([("oxp_service_ids", x)], [("oxp_service_ids", y)])
  {
    assert PyEq(JNull, JNull);
    GetSingle("oxp_service_ids", x, "service_id");
    GetSingle("oxp_service_ids", y, "service_id");
    GetSingle("oxp_service_ids", x, "ownership");
    GetSingle("oxp_service_ids", y, "ownership");
    GetSingle("oxp_service_ids", x, "creation_date");
    GetSingle("oxp_service_ids", y, "creation_date");
    GetSingle("oxp_service_ids", x, "archived_date");
    GetSingle("oxp_service_ids", y, "archived_date");
    GetSingle("oxp_service_ids", x, "status");
    GetSingle("oxp_service_ids", y, "status");
    GetSingle("oxp_service_ids", x, "state");
    GetSingle("oxp_service_ids", y, "state");
    GetSingle("oxp_service_ids", x, "counters_location");
    GetSingle("oxp_service_ids", y, "counters_location");
    GetSingle("oxp_service_ids", x, "last_modified");
    GetSingle("oxp_service_ids", y, "last_modified");
    GetSingle("oxp_service_ids", x, "current_path");
    GetSingle("oxp_service_ids", y, "current_path");
    GetSingle("oxp_service_ids", x, "oxp_service_ids");
    GetSingle("oxp_service_ids", y, "oxp_service_ids");
  }

  /**
   * Dicts whose `oxp_service_ids` differ only in insertion order agree on the compared
   * keys, though the two values are different lists of entries.
   */
  lemma EqualityIgnoresDictOrder()
    ensures AgreeOnCompared(
              [("oxp_service_ids", JObj([("a", JInt(1)), ("b", JInt(2))]))],
              [("oxp_service_ids", JObj([("b", JInt(2)), ("a", JInt(1))]))])
  {
    PyEqExamples();
    AgreeOnServiceIds(JObj([("a", JInt(1)), ("b", JInt(2))]), JObj([("b", JInt(2)), ("a", JInt(1))]));
  }

  /** A path of one string shows as that string; any other list shows bracketed. */
  lemma CurrentPathTextSpec(r: SdxResponse)
    ensures r.currentPath.JList? && |r.currentPath.items| == 1 && r.currentPath.items[0].JStr?
            ==> r.CurrentPathText() == r.currentPath.items[0].s
    ensures r.currentPath.JList? && |r.currentPath.items| != 1
            ==> |r.CurrentPathText()| >= 2 && r.CurrentPathText()[0] == '['
                && r.CurrentPathText()[|r.CurrentPathText()| - 1] == ']'
  {
  }
}
