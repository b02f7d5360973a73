/**
 MemoryCache of middleware/memory_cache.py: an ordered dictionary used as a timed map with a bounded size.
 The sequence holds the dictionary's items, the next one to be evicted first.
 */
module MemoryCache {
  import opened Prelude

  /** A cached response. */
  type Value = Name

  datatype Item = Item(key: Name, value: Value, expires: int)

  type Items = seq<Item>

  ghost predicate Distinct(s: Items) {
    forall i, j | 0 <= i < j < |s| :: s[i].key != s[j].key
  }

  function Find(s: Items, key: Name): (at: Option<nat>)
    ensures at.Some? ==> at.value < |s| && s[at.value].key == key
    ensures at.None? ==> forall i | 0 <= i < |s| :: s[i].key != key
  {
    if s == [] then None
    else if s[|s| - 1].key == key then Some(|s| - 1)
    else Find(s[..|s| - 1], key)
  }

  predicate Has(s: Items, key: Name) {
    Find(s, key).Some?
  }

  function Remove(s: Items, key: Name): Items {
    match Find(s, key)
    case None => s
    case Some(n) => s[..n] + s[n + 1..]
  }

  function Answer(s: Items, key: Name, now: int): Option<Value> {
    match Find(s, key)
    case None => None
    case Some(n) => if now > s[n].expires then None else Some(s[n].value)
  }

  /** A read moves a hit to the end and drops an expired item. */
  function AfterRead(s: Items, key: Name, now: int): Items {
    match Find(s, key)
    case None => s
    case Some(n) => if now > s[n].expires then Remove(s, key) else Remove(s, key) + [s[n]]
  }

  /** At the size limit the first item goes, whether or not the key is new. */
  function MakeRoom(s: Items, max: int): Items {
    if |s| >= max && s != [] then s[1..] else s
  }

  /** An overwritten item keeps its place, a new one comes last. */
  function Write(s: Items, max: int, item: Item): Items {
    var room := MakeRoom(s, max);
    match Find(room, item.key)
    case None => room + [item]
    case Some(n) => room[n := item]
  }

  class MemoryCache {
    var store: Items
    const maxSize: int

    constructor (maxSize: int)
      requires maxSize >= 1
      ensures this.maxSize == maxSize && store == []
    {
      this.maxSize := maxSize;
      store := [];
    }

    method Get(key: Name, now: int) returns (value: Option<Value>)
      modifies this
      ensures value == Answer(old(store), key, now) && store == AfterRead(old(store), key, now)
    {
      var at := Find(store, key);
      if at.None? {
        return None;
      }
      var item := store[at.value];
      store := store[..at.value] + store[at.value + 1..];
      if now > item.expires {
        return None;
      }
      store := store + [item];
      value := Some(item.value);
    }

    method Set(key: Name, value: Value, ttl: int, now: int)
      requires maxSize >= 1
      modifies this
      ensures store == Write(old(store), maxSize, Item(key, value, now + ttl))
    {
      if |store| >= maxSize {
        store := store[1..];
      }
      var at := Find(store, key);
      if at.Some? {
        store := store[at.value := Item(key, value, now + ttl)];
      } else {
        store := store + [Item(key, value, now + ttl)];
      }
    }

    method Delete(key: Name) returns (present: bool)
      modifies this
      ensures present == Has(old(store), key) && store == Remove(old(store), key)
    {
      var at := Find(store, key);
      present := at.Some?;
      if present {
        store := store[..at.value] + store[at.value + 1..];
      }
    }

    method Flush() returns (count: nat)
      modifies this
      ensures count == |old(store)| && store == []
    {
      count := |store|;
      store := [];
    }
  }

  // ---------- histories ----------

  datatype Op =
    | Get(key: Name, now: int)
    | Set(key: Name, value: Value, ttl: int, now: int)
    | Delete(key: Name, now: int)
    | Flush(now: int)

  type History = Run<Op>

  function ItemOf(op: Op): Item
    requires op.Set?
  {
    Item(op.key, op.value, op.now + op.ttl)
  }

  function Step(s: Items, max: int, op: Op): Items {
    match op
    case Get(k, t) => AfterRead(s, k, t)
    case Set(_, _, _, _) => Write(s, max, ItemOf(op))
    case Delete(key, _) => Remove(s, key)
    case Flush(_) => []
  }

  ghost function ItemsAfter(max: int, run: History): Items {
    if run.Start? then [] else Step(ItemsAfter(max, run.before), max, run.last)
  }

  ghost predicate Ordered(run: History) {
    run.Then? ==> Ordered(run.before) && (run.before.Then? ==> run.before.last.now <= run.last.now)
  }

  /** The plain timed map: what was last set for the key and not deleted or flushed since. */
  ghost function LastSet(run: History, key: Name): Option<Item> {
    if run.Start? then None
    else match run.last
      case Get(_, _) => LastSet(run.before, key)
      case Set(k, value, ttl, now) =>
        if k == key then Some(Item(key, value, now + ttl)) else LastSet(run.before, key)
      case Delete(k, _) => if k == key then None else LastSet(run.before, key)
      case Flush(_) => None
  }

  /** The step takes the key, the first of a full store, away. */
  ghost predicate Evicts(s: Items, max: int, op: Op, key: Name) {
    op.Set? && op.key != key && |s| >= max && s != [] && s[0].key == key
  }

  /** The key was evicted after it was last set. */
  ghost predicate EvictedSince(max: int, run: History, key: Name) {
    && run.Then?
    && !(run.last.Set? && run.last.key == key)
    && (Evicts(ItemsAfter(max, run.before), max, run.last, key) || EvictedSince(max, run.before, key))
  }

  /** The key a step inserts or hits; overwriting is neither. */
  ghost function Touches(s: Items, max: int, op: Op): Option<Name> {
    match op
    case Get(key, now) => if Answer(s, key, now).Some? then Some(key) else None
    case Set(key, _, _, _) => if Has(MakeRoom(s, max), key) then None else Some(key)
    case _ => None
  }

  /** The other keys inserted or hit since this one was. */
  ghost function OthersSince(max: int, run: History, key: Name): set<Name> {
    if run.Start? then {} else
      var t := Touches(ItemsAfter(max, run.before), max, run.last);
      if t == Some(key) then {} else OthersSince(max, run.before, key) + if t.Some? then {t.value} else {}
  }

  // ---------- single steps ----------

  lemma RemoveAt(s: Items, n: nat, x: Item)
    requires n < |s| && Distinct(s)
    ensures x in s[..n] + s[n + 1..] <==> x in s && x.key != s[n].key
  {
    var r := s[..n] + s[n + 1..];
    if x in s && x.key != s[n].key {
      var i :| 0 <= i < |s| && s[i] == x;
      assert r[if i < n then i else i - 1] == x;
    }
    if x in r {
      var i :| 0 <= i < |r| && r[i] == x;
      assert s[if i < n then i else i + 1] == x;
    }
  }

  lemma RemoveAtStaysDistinct(s: Items, n: nat)
    requires n < |s| && Distinct(s)
    ensures Distinct(s[..n] + s[n + 1..]) && !Has(s[..n] + s[n + 1..], s[n].key)
  {
    var r := s[..n] + s[n + 1..];
    forall i, j | 0 <= i < j < |r|
      ensures r[i].key != r[j].key
    {
      assert r[i] == s[if i < n then i else i + 1] && r[j] == s[if j < n then j else j + 1];
    }
  }

  lemma RemoveFacts(s: Items, key: Name)
    requires Distinct(s)
    ensures Distinct(Remove(s, key)) && |Remove(s, key)| <= |s| && !Has(Remove(s, key), key)
    ensures forall x: Item :: x in Remove(s, key) <==> x in s && x.key != key
  {
    hide Distinct;
    if Find(s, key).Some? {
      var n := Find(s, key).value;
      RemoveAtStaysDistinct(s, n);
      forall x: Item
        ensures x in Remove(s, key) <==> x in s && x.key != key
      {
        RemoveAt(s, n, x);
      }
    }
  }

  lemma WriteFacts(s: Items, max: int, item: Item)
    requires Distinct(s) && |s| <= max && max >= 1
    ensures Distinct(Write(s, max, item)) && |Write(s, max, item)| <= max
    ensures
      forall x: Item ::
        x in Write(s, max, item) <==> x == item || (x in MakeRoom(s, max) && x.key != item.key)
  {
    var room := MakeRoom(s, max);
    if Find(room, item.key).Some? {
      var n := Find(room, item.key).value;
      assert Write(s, max, item)[n] == item;
      forall x: Item | x in room && x.key != item.key
        ensures x in Write(s, max, item)
      {
        var i :| 0 <= i < |room| && room[i] == x;
        assert Write(s, max, item)[i] == x;
      }
    }
  }

  lemma ReadFacts(s: Items, key: Name, now: int)
    requires Distinct(s)
    ensures Distinct(AfterRead(s, key, now)) && |AfterRead(s, key, now)| <= |s|
    ensures
      forall x: Item ::
        x in AfterRead(s, key, now) <==> x in s && !(x.key == key && now > x.expires)
    ensures
      forall x: Item | x in s && x.key == key ::
        Answer(s, key, now) == if now > x.expires then None else Some(x.value)
    ensures (forall x: Item | x in s :: x.key != key) ==> Answer(s, key, now).None?
  {
    hide Remove, Find;
    RemoveFacts(s, key);
    if Find(s, key).Some? {
      OnlyOne(s, key);
      RemoveShrinks(s, key);
      var found := s[Find(s, key).value];
      if now <= found.expires {
        AppendFacts(Remove(s, key), found);
      }
    }
  }

  lemma OnlyOne(s: Items, key: Name)
    requires Distinct(s) && Find(s, key).Some?
    ensures forall x: Item | x in s :: x.key == key <==> x == s[Find(s, key).value]
  {
  }

  lemma RemoveShrinks(s: Items, key: Name)
    requires Find(s, key).Some?
    ensures |Remove(s, key)| == |s| - 1
  {
  }

  lemma AppendFacts(s: Items, item: Item)
    requires Distinct(s) && forall x: Item | x in s :: x.key != item.key
    ensures Distinct(s + [item]) && forall x: Item :: x in s + [item] <==> x in s || x == item
  {
  }

  /** The size limit holds, and no key appears twice. */
  lemma {:induction false} SizeStaysBounded(max: int, run: History)
    requires max >= 1
    ensures Distinct(ItemsAfter(max, run)) && |ItemsAfter(max, run)| <= max
  {
    hide Distinct, AfterRead, Answer, Remove, Write, MakeRoom;
    if run.Start? {
      NothingTwice();
    } else {
      SizeStaysBounded(max, run.before);
      var s := ItemsAfter(max, run.before);
      match run.last {
        case Get(key, t) => ReadFacts(s, key, t);
        case Set(_, _, _, _) => WriteFacts(s, max, ItemOf(run.last));
        case Delete(key, _) => RemoveFacts(s, key);
        case Flush(_) => NothingTwice();
      }
    }
  }

  lemma NothingTwice()
    ensures Distinct([])
  {
  }

  // ---------- a timed map that may lose evicted keys ----------

  lemma RoomFacts(s: Items, max: int)
    requires Distinct(s)
    ensures forall x: Item :: x in MakeRoom(s, max) <==> x in s && !(|s| >= max && s[0].key == x.key)
  {
  }

  ghost predicate Agrees(max: int, run: History, key: Name, now: int) {
    && (forall x: Item | x in ItemsAfter(max, run) && x.key == key :: LastSet(run, key) == Some(x))
    && (EvictedSince(max, run, key) ==> forall x: Item | x in ItemsAfter(max, run) :: x.key != key)
    && (LastSet(run, key).Some? && now <= LastSet(run, key).value.expires && !EvictedSince(max, run, key) ==>
          LastSet(run, key).value in ItemsAfter(max, run))
  }

  lemma {:induction false} LastSetNames(run: History, key: Name)
    ensures LastSet(run, key).Some? ==> LastSet(run, key).value.key == key
  {
    if run.Then? {
      LastSetNames(run.before, key);
    }
  }

  lemma {:induction false} StoreAgrees(max: int, run: History, key: Name, now: int)
    requires max >= 1 && Ordered(run) && (run.Then? ==> run.last.now <= now)
    ensures Agrees(max, run, key, now)
  {
    hide Answer, AfterRead, Remove, Write, MakeRoom;
    if run.Then? {
      StoreAgrees(max, run.before, key, now);
      SizeStaysBounded(max, run.before);
      LastSetNames(run.before, key);
      var s := ItemsAfter(max, run.before);
      match run.last {
        case Get(k, t) => ReadFacts(s, k, t);
        case Set(_, _, _, _) =>
          WriteFacts(s, max, ItemOf(run.last));
          RoomFacts(s, max);
        case Delete(k, _) => RemoveFacts(s, k);
        case Flush(_) =>
      }
    }
  }

  /** A read answers what was last set for the key, as long as that has not expired and was not evicted since. */
  lemma ReadAnswersTheLastSet(max: int, run: History, key: Name, now: int)
    requires max >= 1 && Ordered(run) && (run.Then? ==> run.last.now <= now)
    ensures
      Answer(ItemsAfter(max, run), key, now) ==
      match LastSet(run, key)
      case None => None
      case Some(x) => if now <= x.expires && !EvictedSince(max, run, key) then Some(x.value) else None
  {
    hide Answer, AfterRead, EvictedSince, ItemsAfter;
    StoreAgrees(max, run, key, now);
    SizeStaysBounded(max, run);
    LastSetNames(run, key);
    ReadFacts(ItemsAfter(max, run), key, now);
  }

  // ---------- who may be evicted ----------

  /** Everything behind an item was inserted or hit after it. */
  ghost predicate Recency(max: int, run: History) {
    var s := ItemsAfter(max, run);
    forall i, j | 0 <= i < j < |s| :: s[j].key in OthersSince(max, run, s[i].key)
  }

  ghost predicate Behind(s: Items, before: Name, after: Name) {
    exists i, j :: 0 <= i < j < |s| && s[i].key == before && s[j].key == after
  }

  lemma RemoveKeepsOrder(s: Items, key: Name, i: nat, j: nat)
    requires Distinct(s) && i < j < |Remove(s, key)|
    ensures Behind(s, Remove(s, key)[i].key, Remove(s, key)[j].key)
  {
    if Find(s, key).Some? {
      var n := Find(s, key).value;
      var i0, j0 := if i < n then i else i + 1, if j < n then j else j + 1;
      assert s[i0] == Remove(s, key)[i] && s[j0] == Remove(s, key)[j];
    }
  }

  lemma ReadKeepsOrder(s: Items, key: Name, now: int, i: nat, j: nat)
    requires Distinct(s) && i < j < |AfterRead(s, key, now)|
    ensures
      var r, hit := AfterRead(s, key, now), Answer(s, key, now).Some?;
      && (hit ==> r[i].key != key)
      && ((hit && r[j].key == key) || Behind(s, r[i].key, r[j].key))
  {
    RemoveFacts(s, key);
    if j < |Remove(s, key)| {
      RemoveKeepsOrder(s, key, i, j);
    }
    if Answer(s, key, now).Some? {
      assert Remove(s, key)[i] in Remove(s, key);
    }
    if Find(s, key).None? {
      assert Behind(s, s[i].key, s[j].key);
    }
  }

  lemma RoomKeepsOrder(s: Items, max: int, i: nat, j: nat)
    requires i < j < |MakeRoom(s, max)|
    ensures Behind(s, MakeRoom(s, max)[i].key, MakeRoom(s, max)[j].key)
  {
    if |s| >= max {
      assert s[i + 1].key == MakeRoom(s, max)[i].key && s[j + 1].key == MakeRoom(s, max)[j].key;
    } else {
      assert s[i].key == MakeRoom(s, max)[i].key && s[j].key == MakeRoom(s, max)[j].key;
    }
  }

  lemma WriteKeepsOrder(s: Items, max: int, item: Item, i: nat, j: nat)
    requires i < j < |Write(s, max, item)|
    ensures
      var r, inserted := Write(s, max, item), !Has(MakeRoom(s, max), item.key);
      && (inserted ==> r[i].key != item.key)
      && ((inserted && r[j].key == item.key) || Behind(s, r[i].key, r[j].key))
  {
    hide MakeRoom, Behind;
    var room, r := MakeRoom(s, max), Write(s, max, item);
    if j < |room| {
      RoomKeepsOrder(s, max, i, j);
    }
    match Find(room, item.key)
    case Some(n) =>
      assert r[i].key == room[i].key && r[j].key == room[j].key;
    case None =>
      assert r == room + [item];
  }

  lemma {:induction false} ItemsAreInOrderOfUse(max: int, run: History)
    requires max >= 1
    ensures Recency(max, run)
  {
    hide AfterRead, Answer, Remove, Write, MakeRoom;
    if run.Then? {
      ItemsAreInOrderOfUse(max, run.before);
      SizeStaysBounded(max, run.before);
      var s, r := ItemsAfter(max, run.before), ItemsAfter(max, run);
      forall i, j | 0 <= i < j < |r|
        ensures r[j].key in OthersSince(max, run, r[i].key)
      {
        match run.last {
          case Get(k, t) => ReadKeepsOrder(s, k, t, i, j);
          case Set(_, _, _, _) => WriteKeepsOrder(s, max, ItemOf(run.last), i, j);
          case Delete(k, _) => RemoveKeepsOrder(s, k, i, j);
          case Flush(_) =>
        }
      }
    }
  }

  /** A key is evicted only when at least max - 1 distinct other keys were inserted or hit since it was. */
  lemma EvictedIsLeastRecent(max: int, run: History, op: Op, key: Name)
    requires max >= 1 && Evicts(ItemsAfter(max, run), max, op, key)
    ensures |OthersSince(max, run, key)| >= max - 1
  {
    ItemsAreInOrderOfUse(max, run);
    SizeStaysBounded(max, run);
    var s := ItemsAfter(max, run);
    var others := seq(|s| - 1, n requires 0 <= n < |s| - 1 => s[n + 1].key);
    DistinctElementsSize(others);
    forall k | k in Elements(others)
      ensures k in OthersSince(max, run, key)
    {
      var n :| 0 <= n < |others| && others[n] == k;
      assert s[n + 1].key == k;
    }
    SubsetSize(Elements(others), OthersSince(max, run, key));
  }

  /** At some insertion after the key was last set, max - 1 distinct other keys had been used since the key was. */
  ghost predicate CrowdedOut(max: int, run: History, key: Name) {
    && run.Then?
    && !(run.last.Set? && run.last.key == key)
    && ((run.last.Set? && |OthersSince(max, run.before, key)| >= max - 1) || CrowdedOut(max, run.before, key))
  }

  lemma {:induction false} EvictedMeansCrowdedOut(max: int, run: History, key: Name)
    requires max >= 1 && EvictedSince(max, run, key)
    ensures CrowdedOut(max, run, key)
  {
    if Evicts(ItemsAfter(max, run.before), max, run.last, key) {
      EvictedIsLeastRecent(max, run.before, run.last, key);
    } else {
      EvictedMeansCrowdedOut(max, run.before, key);
    }
  }

  /** A value that was set, not deleted and has not expired is missed only if the key was crowded out. */
  lemma LiveMissMeansCrowdedOut(max: int, run: History, key: Name, now: int)
    requires max >= 1 && Ordered(run) && (run.Then? ==> run.last.now <= now)
    requires LastSet(run, key).Some? && now <= LastSet(run, key).value.expires
    requires Answer(ItemsAfter(max, run), key, now).None?
    ensures CrowdedOut(max, run, key)
  {
    ReadAnswersTheLastSet(max, run, key, now);
    EvictedMeansCrowdedOut(max, run, key);
  }
}
