/**
 * `normalize_l2vpn_response` of `sdxlib/response.py`: turns an API response into a
 * dict with a fixed set of sixteen keys, filling in defaults for the missing ones.
 */
module Response {
  import opened Py

  /** The entries of the dict literal: each key with the default its `.get` passes. */
  const Entries: seq<(string, Json)> := [
    ("service_id", JStr("unknown")),
    ("name", JStr("")),
    ("endpoints", JList([])),
    ("ownership", JStr("")),
    ("creation_date", JStr("")),
    ("archived_date", JStr("")),
    ("status", JStr("")),
    ("state", JStr("")),
    ("counters_location", JStr("")),
    ("last_modified", JStr("")),
    ("current_path", JList([])),
    ("oxp_service_ids", JList([])),
    ("description", JNull),
    ("notifications", JNull),
    ("scheduling", JNull),
    ("qos_metrics", JNull)]

  /** `normalize_l2vpn_response(data)`: `{key: data.get(key, default), ...}`. */
  function NormalizeL2vpnResponse(data: seq<(string, Json)>): seq<(string, Json)> {
    seq(|Entries|, i requires 0 <= i < |Entries| => (Entries[i].0, GetOr(data, Entries[i].0, Entries[i].1)))
  }

  /** The sixteen keys of a normalised response. */
  const NormalizedKeys: seq<string> := [
    "service_id", "name", "endpoints", "ownership", "creation_date", "archived_date",
    "status", "state", "counters_location", "last_modified", "current_path",
    "oxp_service_ids", "description", "notifications", "scheduling", "qos_metrics"]

  /** What a key missing from the input becomes: "unknown", an empty list, `None` or "". */
  function DefaultFor(key: string): Json {
    if key == "service_id" then JStr("unknown")
    else if key in {"endpoints", "current_path", "oxp_service_ids"} then JList([])
    else if key in {"description", "notifications", "scheduling", "qos_metrics"} then JNull
    else JStr("")
  }

  /** The literal lists the sixteen keys once each. */
  lemma EntryKeys()
    ensures Keys(Entries) == NormalizedKeys
    ensures DistinctKeys(Entries)
  {
    assert forall i, j | 0 <= i < j < |NormalizedKeys| :: NormalizedKeys[i] != NormalizedKeys[j];
  }

  /** The literal's defaults are the ones listed by kind. */
  lemma EntryDefaults()
    ensures forall i | 0 <= i < |Entries| :: Entries[i].1 == DefaultFor(Entries[i].0)
  {
  }

  /**
   * Whatever the input, the output has exactly the sixteen keys, each once; a key
   * the input has keeps its value unchanged (an explicit `None` included), and a
   * missing key takes its default.
   */
  lemma NormalizeSpec(data: seq<(string, Json)>, key: string)
    ensures Keys(NormalizeL2vpnResponse(data)) == NormalizedKeys
    ensures DistinctKeys(NormalizeL2vpnResponse(data))
    ensures HasKey(NormalizeL2vpnResponse(data), key) <==> key in NormalizedKeys
    ensures key in NormalizedKeys && HasKey(data, key)
            ==> Get(NormalizeL2vpnResponse(data), key) == Get(data, key)
    ensures key in NormalizedKeys && !HasKey(data, key)
            ==> Get(NormalizeL2vpnResponse(data), key) == DefaultFor(key)
  {
    var r := NormalizeL2vpnResponse(data);
    EntryKeys();
    EntryDefaults();
    assert Keys(r) == NormalizedKeys;
    if key in NormalizedKeys {
      var i :| 0 <= i < |NormalizedKeys| && NormalizedKeys[i] == key;
      GetOrEntry(r, i, JNull);
      if HasKey(data, key) {
        GetOrPresent(data, key, Entries[i].1, JNull);
      }
    } else {
      assert !HasKey(r, key);
    }
  }
}
