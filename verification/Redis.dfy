/**
 One Redis keyspace is a map from keys to entries; a slot is what the map holds for one key.
 Commands are functions on slots, under a clock the caller passes in. An entry whose deadline
 has been reached is absent for every command, whether or not it still takes up room.
 */
module Redis {
  import opened Prelude

  datatype Entry<+V> = Entry(value: V, deadline: Option<int>)
  type Slot<+V> = Option<Entry<V>>

  function SlotOf<K, V>(ks: map<K, Entry<V>>, k: K): Slot<V> {
    if k in ks then Some(ks[k]) else None
  }

  function Store<K, V>(ks: map<K, Entry<V>>, k: K, s: Slot<V>): map<K, Entry<V>> {
    if s.Some? then ks[k := s.value] else ks - {k}
  }

  lemma StoreThenRead<K, V>(ks: map<K, Entry<V>>, k: K, s: Slot<V>, other: K)
    ensures SlotOf(Store(ks, k, s), other) == if other == k then s else SlotOf(ks, other)
  {
  }

  predicate Live<V>(s: Slot<V>, now: int) {
    s.Some? && (s.value.deadline.None? || now < s.value.deadline.value)
  }

  function Get<V>(s: Slot<V>, now: int): Option<V> {
    if Live(s, now) then Some(s.value.value) else None
  }

  /** HSET, INCR, ZADD, SADD: a live key keeps its deadline, an absent one is created without. */
  function Write<V>(s: Slot<V>, now: int, v: V): Slot<V> {
    Some(Entry(v, if Live(s, now) then s.value.deadline else None))
  }

  /** EXPIRE: nothing for an absent key, deletion when the deadline is not in the future. */
  function Expire<V>(s: Slot<V>, now: int, deadline: int): Slot<V> {
    if !Live(s, now) then s
    else if deadline <= now then None
    else Some(Entry(s.value.value, Some(deadline)))
  }
}
