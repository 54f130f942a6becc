/** The broker properties a properties file contributes: which names they
    get, which value wins when two keys give the same name, and that
    nothing else is touched. */
module KafkaFacts {
  import opened Basics
  import opened JavaText
  import opened Resolution

  /** The `i`-th visited key is a `kafka.` key naming broker property `k`. */
  predicate Names(keys: seq<string>, i: int, k: string)
    requires 0 <= i < |keys|
  {
    IsKafkaKey(keys[i]) && BrokerKey(keys[i]) == k
  }

  /** The broker properties afterwards are the old ones plus one per
      `kafka.` key visited. */
  lemma {:induction false} KafkaOverlayDomain(props: map<string, string>, entries: map<string, string>, keys: seq<string>, k: string)
    requires forall i :: 0 <= i < |keys| ==> keys[i] in entries
    ensures k in KafkaOverlay(props, entries, keys)
        <==> k in props || exists i :: 0 <= i < |keys| && Names(keys, i, k)
    decreases |keys|
  {
    if keys != [] {
      var n := |keys| - 1;
      var front := keys[..n];
      KafkaOverlayDomain(props, entries, front, k);
      var before := KafkaOverlay(props, entries, front);
      if Names(keys, n, k) {
        assert KafkaOverlay(props, entries, keys) == before[k := entries[keys[n]]];
      } else {
        assert k in KafkaOverlay(props, entries, keys) <==> k in before;
        if exists i :: 0 <= i < |keys| && Names(keys, i, k) {
          var i :| 0 <= i < |keys| && Names(keys, i, k);
          assert Names(front, i, k);
        }
        if exists i :: 0 <= i < |front| && Names(front, i, k) {
          var i :| 0 <= i < |front| && Names(front, i, k);
          assert Names(keys, i, k);
        }
      }
    }
  }

  /** The value of a broker property is that of the last visited key that
      names it. */
  lemma {:induction false} KafkaOverlayLastWins(props: map<string, string>, entries: map<string, string>, keys: seq<string>, j: int)
    requires forall i :: 0 <= i < |keys| ==> keys[i] in entries
    requires 0 <= j < |keys| && IsKafkaKey(keys[j])
    requires forall i :: j < i < |keys| ==> !Names(keys, i, BrokerKey(keys[j]))
    ensures BrokerKey(keys[j]) in KafkaOverlay(props, entries, keys)
    ensures KafkaOverlay(props, entries, keys)[BrokerKey(keys[j])] == entries[keys[j]]
    decreases |keys|
  {
    var n := |keys| - 1;
    if j < n {
      var front := keys[..n];
      assert !Names(keys, n, BrokerKey(keys[j]));
      forall i | j < i < |front| ensures !Names(front, i, BrokerKey(front[j])) {
        assert !Names(keys, i, BrokerKey(keys[j]));
      }
      KafkaOverlayLastWins(props, entries, front, j);
    }
  }

  /** A broker property no visited key names keeps its old value. */
  lemma {:induction false} KafkaOverlayKeepsOthers(props: map<string, string>, entries: map<string, string>, keys: seq<string>, k: string)
    requires forall i :: 0 <= i < |keys| ==> keys[i] in entries
    requires k in props
    requires forall i :: 0 <= i < |keys| ==> !Names(keys, i, k)
    ensures k in KafkaOverlay(props, entries, keys) && KafkaOverlay(props, entries, keys)[k] == props[k]
    decreases |keys|
  {
    if keys != [] {
      var n := |keys| - 1;
      assert !Names(keys, n, k);
      forall i | 0 <= i < n ensures !Names(keys[..n], i, k) {
        assert !Names(keys, i, k);
      }
      KafkaOverlayKeepsOthers(props, entries, keys[..n], k);
    }
  }

  /** A `kafka.` key whose remainder does not contain `kafka.` again names
      that remainder. */
  lemma BrokerKeyStripsPrefix(rest: string)
    requires !Occurs(KAFKA_PREFIX, rest)
    ensures IsKafkaKey(KAFKA_PREFIX + rest) && BrokerKey(KAFKA_PREFIX + rest) == rest
  {
    assert (KAFKA_PREFIX + rest)[..|KAFKA_PREFIX|] == KAFKA_PREFIX;
    RemovePrefix(KAFKA_PREFIX, rest);
  }

  /** In a loaded file, a `kafka.NAME` key that is the only one naming NAME
      sets broker property NAME, whatever the order of the keys. */
  lemma FileBrokerProperty(s: ConfigState, p: Properties, rest: string)
    requires WellFormed(p)
    requires !Occurs(KAFKA_PREFIX, rest) && KAFKA_PREFIX + rest in p.entries
    requires forall key :: key in p.entries && IsKafkaKey(key) && BrokerKey(key) == rest ==> key == KAFKA_PREFIX + rest
    ensures var props := FileKafkaProperties(s, p).kafkaProperties;
      rest in props && props[rest] == p.entries[KAFKA_PREFIX + rest]
  {
    var key := KAFKA_PREFIX + rest;
    BrokerKeyStripsPrefix(rest);
    var j :| 0 <= j < |p.keyOrder| && p.keyOrder[j] == key;
    forall i | j < i < |p.keyOrder| ensures !Names(p.keyOrder, i, rest) {
      assert p.keyOrder[i] != p.keyOrder[j];
    }
    KafkaOverlayLastWins(s.kafkaProperties, p.entries, p.keyOrder, j);
  }

  /** Every occurrence of `kafka.` is removed, so `kafka.kafka.acks` and
      `kafka.acks` both name `acks`. */
  lemma BrokerKeyCollision()
    ensures BrokerKey("kafka.acks") == "acks"
    ensures BrokerKey("kafka.kafka.acks") == "acks"
  {
    assert Replace("acks", KAFKA_PREFIX, []) == "acks";
    assert "kafka.acks"[..6] == KAFKA_PREFIX && "kafka.acks"[6..] == "acks";
    assert "kafka.kafka.acks"[..6] == KAFKA_PREFIX && "kafka.kafka.acks"[6..] == "kafka.acks";
  }

  /** When two keys name the same broker property, the key order of the
      file's table decides which value is kept: the later key wins, so
      swapping the two swaps the result. */
  lemma CollisionFollowsKeyOrder(props: map<string, string>, entries: map<string, string>, k1: string, k2: string)
    requires k1 in entries && k2 in entries && k1 != k2
    requires IsKafkaKey(k1) && IsKafkaKey(k2) && BrokerKey(k1) == BrokerKey(k2)
    ensures BrokerKey(k1) in KafkaOverlay(props, entries, [k1, k2])
    ensures KafkaOverlay(props, entries, [k1, k2])[BrokerKey(k1)] == entries[k2]
    ensures BrokerKey(k1) in KafkaOverlay(props, entries, [k2, k1])
    ensures KafkaOverlay(props, entries, [k2, k1])[BrokerKey(k1)] == entries[k1]
  {
    assert [k1, k2][..1] == [k1];
    assert [k2, k1][..1] == [k2];
  }

  /** The collision of `kafka.acks` and `kafka.kafka.acks`, in both orders. */
  lemma AcksCollisionFollowsKeyOrder()
    ensures var entries := map["kafka.acks" := "1", "kafka.kafka.acks" := "all"];
      && KafkaOverlay(map[], entries, ["kafka.acks", "kafka.kafka.acks"]) == map["acks" := "all"]
      && KafkaOverlay(map[], entries, ["kafka.kafka.acks", "kafka.acks"]) == map["acks" := "1"]
  {
    BrokerKeyCollision();
    assert IsKafkaKey("kafka.acks") && IsKafkaKey("kafka.kafka.acks");
    assert ["kafka.acks", "kafka.kafka.acks"][..1] == ["kafka.acks"];
    assert ["kafka.kafka.acks", "kafka.acks"][..1] == ["kafka.kafka.acks"];
  }
}
