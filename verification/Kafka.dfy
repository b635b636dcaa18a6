/** A Kafka topic: partitions that only grow at their end. */
module Kafka {
  import opened Domain

  datatype Topic<V> = Topic(name: string, records: map<Coord, V>, ends: map<int, nat>)

  function End<V>(t: Topic<V>, partition: int): nat { if partition in t.ends then t.ends[partition] else 0 }

  function Next<V>(t: Topic<V>, partition: int): Coord { Coord(t.name, partition, End(t, partition)) }

  function Append<V>(t: Topic<V>, partition: int, v: V): Topic<V> {
    t.(records := t.records[Next(t, partition) := v], ends := t.ends[partition := End(t, partition) + 1])
  }

  /** Every record lies below the end of its partition. */
  ghost predicate TopicOk<V>(t: Topic<V>) {
    forall c | c in t.records :: c.topic == t.name && c.partition >= 0 && 0 <= c.offset < End(t, c.partition)
  }

  /** A group's committed offset of a partition; a group without one starts at the earliest record. */
  function Committed(offsets: map<int, nat>, partition: int): nat {
    if partition in offsets then offsets[partition] else 0
  }

  /** Records stay where they are; new ones lie at or above the old end of their partition. */
  ghost predicate Grows<V>(t: Topic<V>, n: Topic<V>) {
    && t.name == n.name
    && (forall c | c in t.records :: c in n.records && n.records[c] == t.records[c])
    && (forall c | c in n.records && c !in t.records :: c.offset >= End(t, c.partition))
    && (forall p :: End(t, p) <= End(n, p))
  }

  lemma AppendGrows<V>(t: Topic<V>, partition: int, v: V)
    requires TopicOk(t) && partition >= 0
    ensures var n := Append(t, partition, v);
            && TopicOk(n) && Grows(t, n)
            && Next(t, partition) !in t.records && n.records == t.records[Next(t, partition) := v]
  {
  }

  lemma StandingGrows<V>(t: Topic<V>)
    ensures Grows(t, t)
  {
  }
}
