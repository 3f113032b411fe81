/**
 * The hops header on its way in. Ingress writes a zero over the caller's own "hops"; dispatch later decodes whatever
 * keys mean hops to the decoder, which folds case. The two differ, and this is exactly where.
 */
module Stamping {
  import opened Tables
  import Text

  /** A header's value, as far as a hop count can be read from it; fractions are dropped. */
  datatype Value = Number(n: int) | Null | Other

  /** The one key that means hops and sorts after it: it ends in the long s. */
  const LONG := "hop\U{017F}"

  /** The decoder's field names are matched with case folded, and the long s folds to s. */
  predicate MeansHops(key: string) {
    && |key| == 4 && (key[0] == 'h' || key[0] == 'H') && (key[1] == 'o' || key[1] == 'O')
    && (key[2] == 'p' || key[2] == 'P') && (key[3] == 's' || key[3] == 'S' || key[3] == '\U{017F}')
  }

  /** The caller's headers ride along, and "hops" is the system's. */
  function Stamp(user: map<string, Value>): map<string, Value> {
    user["hops" := Number(0)]
  }

  function Meaning(v: Value): Headers {
    match v
    case Number(n) => Hops(n)
    case Null => NoHops
    case Other => Undecodable
  }

  /** Key by key: a later hop count replaces an earlier one, and one that cannot be decoded spoils them all. */
  function DecodeKeys(headers: map<string, Value>, keys: seq<string>): Headers
    requires forall k | k in keys :: k in headers
  {
    if keys == [] then NoHops
    else
      var n := |keys| - 1;
      var before := DecodeKeys(headers, keys[..n]);
      if before.Undecodable? || !MeansHops(keys[n]) then before else Meaning(headers[keys[n]])
  }

  /** The encoder has put the keys in order. */
  function Decode(headers: map<string, Value>): Headers {
    DecodeKeys(headers, Text.Sorted(headers.Keys))
  }

  /** The last key that means hops decides, unless one of them cannot be decoded. */
  lemma {:induction false} DecodeIs(headers: map<string, Value>, keys: seq<string>, last: nat)
    requires (forall k | k in keys :: k in headers) && last < |keys| && MeansHops(keys[last])
    requires forall j | last < j < |keys| :: !MeansHops(keys[j])
    ensures DecodeKeys(headers, keys) ==
      if exists k | k in keys :: MeansHops(k) && headers[k].Other? then Undecodable else Meaning(headers[keys[last]])
    decreases |keys|
  {
    var n := |keys| - 1;
    Spoiled(headers, keys[..n]);
    assert keys == keys[..n] + [keys[n]];
    if last < n {
      DecodeIs(headers, keys[..n], last);
    }
  }

  lemma {:induction false} Spoiled(headers: map<string, Value>, keys: seq<string>)
    requires forall k | k in keys :: k in headers
    ensures DecodeKeys(headers, keys).Undecodable? <==> exists k | k in keys :: MeansHops(k) && headers[k].Other?
  {
    if keys != [] {
      var n := |keys| - 1;
      Spoiled(headers, keys[..n]);
      assert keys == keys[..n] + [keys[n]];
    }
  }

  /** Capitals sort before small letters, and the long s after everything. */
  lemma OnlyLongSortsLater(key: string)
    requires MeansHops(key) && Text.Less("hops", key)
    ensures key == LONG
  {
    var k :| 0 <= k < 4 && key[k] != "hops"[k] && key[..k] == "hops"[..k];
    Text.LeqAt("hops", key, k);
  }

  lemma NothingSortsLater(key: string)
    requires MeansHops(key)
    ensures !Text.Less(LONG, key)
  {
    if key != LONG {
      var k :| 0 <= k < 4 && key[k] != LONG[k] && key[..k] == LONG[..k];
      Text.LeqAt(LONG, key, k);
    }
  }

  /** Where the deciding key stands among the sorted keys. */
  lemma LastKey(keys: set<string>, key: string) returns (last: nat)
    requires key in keys && (key == LONG || (key == "hops" && LONG !in keys))
    ensures var sorted := Text.Sorted(keys);
      && last < |sorted| && sorted[last] == key && forall j | last < j < |sorted| :: !MeansHops(sorted[j])
  {
    var sorted := Text.Sorted(keys);
    assert key in sorted;
    last :| 0 <= last < |sorted| && sorted[last] == key;
    forall j | last < j < |sorted| ensures !MeansHops(sorted[j]) {
      assert Text.Less(key, sorted[j]) && sorted[j] in sorted;
      if MeansHops(sorted[j]) {
        NothingSortsLater(sorted[j]);
        OnlyLongSortsLater(sorted[j]);
      }
    }
  }

  /** Does another key that means hops hold something that cannot be decoded? */
  predicate Spoils(user: map<string, Value>) {
    exists k | k in user :: k != "hops" && MeansHops(k) && user[k].Other?
  }

  lemma StampSpoils(user: map<string, Value>)
    ensures (exists k | k in Stamp(user) :: MeansHops(k) && Stamp(user)[k].Other?) <==> Spoils(user)
  {
    hide MeansHops;
    forall k | k in Stamp(user) ensures k == "hops" || (k in user && Stamp(user)[k] == user[k]) {
    }
  }

  /** What dispatch will read from a stamped message, in all cases. */
  lemma StampedHops(user: map<string, Value>)
    ensures Decode(Stamp(user)) ==
      if Spoils(user) then Undecodable else if LONG in user then Meaning(user[LONG]) else Hops(0)
  {
    var headers := Stamp(user);
    LongIsLong();
    var key := if LONG in user then LONG else "hops";
    var last := LastKey(headers.Keys, key);
    StampSpoils(user);
    hide MeansHops;
    DecodeIs(headers, Text.Sorted(headers.Keys), last);
  }

  lemma LongIsLong()
    ensures LONG != "hops" && MeansHops(LONG)
  {
    assert LONG[3] != "hops"[3];
  }

  /**
   * So the stamp wins exactly when no other key that means hops has an undecodable value, and the one that
   * sorts after "hops" is absent or zero itself.
   */
  lemma StampWins(user: map<string, Value>)
    ensures Decode(Stamp(user)) == Hops(0) <==> !Spoils(user) && (LONG in user ==> user[LONG] == Number(0))
  {
    StampedHops(user);
  }

  /** An input that leaves the hops undecodable, */
  lemma CapitalSpoils()
    ensures Decode(Stamp(map["Hops" := Other])).Undecodable?
  {
    var user := map["Hops" := Other];
    StampedHops(user);
    assert "Hops"[0] != "hops"[0];
    assert "Hops" in user && "Hops" != "hops" && MeansHops("Hops") && user["Hops"].Other?;
  }

  /** and one that replaces the stamp. */
  lemma LongReplaces(n: int)
    ensures Decode(Stamp(map[LONG := Number(n)])) == Hops(n)
  {
    var user := map[LONG := Number(n)];
    StampedHops(user);
    hide MeansHops;
    assert forall k | k in user :: k == LONG;
    assert !Spoils(user);
  }
}
