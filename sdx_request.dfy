/**
 * The payload and header builders of `sdxlib/sdx_request.py`, over the client
 * attributes they read. The HTTP call itself is not part of this model.
 */
module SdxRequest {
  import opened Py

  /** The attributes of a client that a request reads; `None` is `JNull`. */
  datatype Client = Client(
    name: Json, endpoints: Json, ownership: Json, description: Json,
    notifications: Json, scheduling: Json, qosMetrics: Json,
    fabricToken: Json)

  /** The keys a payload may carry, in the order they are listed. */
  const PayloadKeys: seq<string> :=
    ["name", "endpoints", "ownership", "description", "notifications", "scheduling", "qos_metrics"]

  /** The client attribute behind a payload key; `None` for any other key. */
  function Attribute(client: Client, key: string): Json {
    if key == "name" then client.name
    else if key == "endpoints" then client.endpoints
    else if key == "ownership" then client.ownership
    else if key == "description" then client.description
    else if key == "notifications" then client.notifications
    else if key == "scheduling" then client.scheduling
    else if key == "qos_metrics" then client.qosMetrics
    else JNull
  }

  /** The dict literal `_build_payload` filters. */
  function Candidates(client: Client): seq<(string, Json)> {
    [("name", client.name),
     ("endpoints", client.endpoints),
     ("ownership", client.ownership),
     ("description", client.description),
     ("notifications", client.notifications),
     ("scheduling", client.scheduling),
     ("qos_metrics", client.qosMetrics)]
  }

  /** `{key: value for key, value in entries.items() if value is not None}`. */
  function DropNone(entries: seq<(string, Json)>): seq<(string, Json)> {
    if |entries| == 0 then []
    else (if entries[0].1 == JNull then [] else [entries[0]]) + DropNone(entries[1..])
  }

  /** `_build_payload(client)`. */
  function BuildPayload(client: Client): seq<(string, Json)> {
    DropNone(Candidates(client))
  }

  /** Dropping the `None` entries of a dict keeps every other entry as it was. */
  lemma {:induction false} DropNoneGet(entries: seq<(string, Json)>, key: string)
    requires DistinctKeys(entries)
    ensures HasKey(DropNone(entries), key) <==> HasKey(entries, key) && Get(entries, key) != JNull
    ensures Get(DropNone(entries), key) == Get(entries, key)
  {
    if |entries| > 0 {
      var tail := entries[1..];
      assert DistinctKeys(tail) by {
        forall i, j | 0 <= i < j < |tail| ensures tail[i].0 != tail[j].0 {
          assert tail[i] == entries[i + 1] && tail[j] == entries[j + 1];
        }
      }
      DropNoneGet(tail, key);
      assert entries == [entries[0]] + tail;
      HasKeyCons(entries[0], tail, key);
      if entries[0].0 == key {
        assert !HasKey(tail, key);
      } else {
        assert Get(entries, key) == Get(tail, key);
      }
      if entries[0].1 != JNull {
        assert DropNone(entries) == [entries[0]] + DropNone(tail);
        HasKeyCons(entries[0], DropNone(tail), key);
      } else {
        assert DropNone(entries) == DropNone(tail);
      }
    }
  }

  lemma HasKeyCons(first: (string, Json), rest: seq<(string, Json)>, key: string)
    ensures HasKey([first] + rest, key) <==> first.0 == key || HasKey(rest, key)
  {
    var r := [first] + rest;
    if HasKey(r, key) && first.0 != key {
      var i :| 0 <= i < |r| && r[i].0 == key;
      assert rest[i - 1] == r[i];
    }
    if HasKey(rest, key) {
      var i :| 0 <= i < |rest| && rest[i].0 == key;
      assert r[i + 1] == rest[i];
    }
    if first.0 == key {
      assert r[0].0 == key;
    }
  }

  /**
   * A payload key is present exactly when the client attribute it names is not
   * `None` (falsy values such as `""` and `[]` stay), it then carries that
   * attribute, and no other key ever appears.
   */
  lemma BuildPayloadSpec(client: Client, key: string)
    ensures HasKey(BuildPayload(client), key) <==> key in PayloadKeys && Attribute(client, key) != JNull
    ensures Get(BuildPayload(client), key) == Attribute(client, key)
  {
    var entries := Candidates(client);
    assert DistinctKeys(entries);
    DropNoneGet(entries, key);
    var i := IndexOfKey(key);
    if 0 <= i {
      GetOrEntry(entries, i, JNull);
      assert entries[i].0 == key;
    } else {
      assert !HasKey(entries, key);
    }
  }

  /** The position of a payload key, or -1. */
  function IndexOfKey(key: string): (i: int)
    ensures -1 <= i < |PayloadKeys|
    ensures 0 <= i ==> PayloadKeys[i] == key
    ensures i < 0 ==> key !in PayloadKeys
  {
    if key == "name" then 0
    else if key == "endpoints" then 1
    else if key == "ownership" then 2
    else if key == "description" then 3
    else if key == "notifications" then 4
    else if key == "scheduling" then 5
    else if key == "qos_metrics" then 6
    else -1
  }

  /** Request headers: a dict from header names to values. */
  type Headers = seq<(string, string)>

  /** `_get_headers(client)`. */
  function GetHeaders(client: Client): Headers {
    [("Content-Type", "application/json"),
     ("Authorization", "Bearer " + PyStr(client.fabricToken))]
  }

  /**
   * The headers are exactly `Content-Type` and `Authorization`, and the token can be
   * read back from the `Authorization` value after the `Bearer ` scheme.
   */
  lemma HeadersSpec(client: Client)
    ensures var h := GetHeaders(client);
            |h| == 2 && h[0] == ("Content-Type", "application/json") && h[1].0 == "Authorization"
            && h[1].1[..7] == "Bearer " && h[1].1[7..] == PyStr(client.fabricToken)
  {
  }
}
