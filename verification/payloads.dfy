/**
 * The JSON bodies of `create`, `update_status` and `update`: a fixed list of
 * keys, each filled from the caller's payload when the payload sets it and
 * with "" otherwise.
 */
module Payloads {
  import opened Php

  const CreateKeys: seq<string> :=
    ["institutionCode", "brivaNo", "custCode", "nama", "amount", "keterangan", "expiredDate"]
  const StatusKeys: seq<string> := ["institutionCode", "brivaNo", "custCode", "statusBayar"]

  /** The keys `update` reads from its payload, and the ones it reads from an undefined variable. */
  const IdentityKeys: seq<string> := ["institutionCode", "brivaNo", "custCode"]
  const DetailKeys: seq<string> := ["nama", "amount", "keterangan", "expiredDate"]

  /**
   * `isset($payload[$key]) ? $payload[$key] : ""`: never null; the payload's
   * value exactly when the payload sets the key to something other than null.
   */
  function Submitted(payload: map<string, Value>, key: string): (v: Value)
    ensures IsSet(v)
    ensures v == Lookup(payload, key) <==> IsSet(Lookup(payload, key))
    ensures !IsSet(Lookup(payload, key)) ==> v == Str("")
  {
    if key in payload && IsSet(payload[key]) then payload[key] else Str("")
  }

  /**
   * The fields carry exactly `keys`, in order; a key the payload sets (to
   * anything but null) carries the payload's value, every other key carries "".
   */
  predicate Filled(fields: seq<(string, Value)>, keys: seq<string>, payload: map<string, Value>) {
    && |fields| == |keys|
    && forall i :: 0 <= i < |keys| ==>
         && fields[i].0 == keys[i]
         && (keys[i] in payload && payload[keys[i]] != Null ==> fields[i].1 == payload[keys[i]])
         && (keys[i] !in payload || payload[keys[i]] == Null ==> fields[i].1 == Str(""))
  }

  /** The associative array built key by key from the payload. */
  function Pick(payload: map<string, Value>, keys: seq<string>): (fields: seq<(string, Value)>)
    ensures Filled(fields, keys, payload)
    decreases |keys|
  {
    if |keys| == 0 then [] else [(keys[0], Submitted(payload, keys[0]))] + Pick(payload, keys[1..])
  }

  /** The fields depend on the payload only through the listed keys. */
  lemma {:induction false} PickReadsOnlyKeys(p: map<string, Value>, q: map<string, Value>, keys: seq<string>)
    requires forall k :: k in keys ==> Lookup(p, k) == Lookup(q, k)
    ensures Pick(p, keys) == Pick(q, keys)
    decreases |keys|
  {
    if |keys| > 0 {
      assert Lookup(p, keys[0]) == Lookup(q, keys[0]);
      PickReadsOnlyKeys(p, q, keys[1..]);
    }
  }
}
