/**
 The Redis branch of middleware/cache.py: cached responses with deadlines, and for each model an index
 of the keys it wrote, which lets delete_cache find them. Times are seconds.
 */
module ResponseCache {
  import opened Prelude
  import Redis

  /** The index outlives the entry written with it by this much. */
  const MARGIN := 60

  datatype Stored = Stored(body: Name, model: Name)

  datatype Cache = Cache(entries: map<Name, Redis.Entry<Stored>>, index: map<Name, Redis.Entry<set<Name>>>) {
    function EntryOf(key: Name): Redis.Slot<Stored> {
      Redis.SlotOf(entries, key)
    }

    function IndexOf(model: Name): Redis.Slot<set<Name>> {
      Redis.SlotOf(index, model)
    }

    predicate Holds(key: Name, model: Name, t: int) {
      Redis.Live(EntryOf(key), t) && EntryOf(key).value.value.model == model
    }
  }

  /** A missing or zero override means the model's own time to live. */
  function EffectiveTtl(override: Option<int>, configured: int): int {
    if override.Some? && override.value != 0 then override.value else configured
  }

  /** SETEX, SADD and EXPIRE with nothing in between; SETEX refuses a time that is not positive. */
  function Put(c: Cache, key: Name, s: Stored, ttl: int, now: int): Cache {
    if ttl <= 0 then c else
      var members := Redis.Get(c.IndexOf(s.model), now).GetOr({}) + {key};
      var slot := Redis.Expire(Redis.Write(c.IndexOf(s.model), now, members), now, now + ttl + MARGIN);
      Cache(
        Redis.Store(c.entries, key, Some(Redis.Entry(s, Some(now + ttl)))),
        Redis.Store(c.index, s.model, slot))
  }

  /** SMEMBERS of a model's index. */
  function Listed(c: Cache, model: Name, now: int): set<Name> {
    Redis.Get(c.IndexOf(model), now).GetOr({})
  }

  /** The keys for which DEL removes a live entry; it answers how many these are. */
  function LiveAmong(c: Cache, keys: set<Name>, now: int): set<Name> {
    set key | key in keys && Redis.Live(c.EntryOf(key), now)
  }

  /**
   A write: the entry lasts for the override, or the model's own time without one, and the index of its model lists it
   for 60 seconds longer; a time that is not positive writes nothing.
   */
  lemma WriteIsTold(c: Cache, key: Name, s: Stored, override: Option<int>, configured: int, now: int)
    ensures
      var after := Put(c, key, s, EffectiveTtl(override, configured), now);
      var ttl := if override == None || override == Some(0) then configured else override.value;
      if ttl <= 0 then after == c
      else
        && after.entries == c.entries[key := Redis.Entry(s, Some(now + ttl))]
        && after.index.Keys == c.index.Keys + {s.model}
        && (forall m | m in c.index && m != s.model :: after.index[m] == c.index[m])
        && after.index[s.model].deadline == Some(now + ttl + 60)
        && after.index[s.model].value ==
           {key} + if s.model in c.index && Redis.Live(c.IndexOf(s.model), now) then c.index[s.model].value else {}
  {
  }

  /** A deletion counts the keys whose entries have not expired. */
  lemma DeletionCounts(c: Cache, keys: set<Name>, now: int, key: Name)
    ensures
      key in LiveAmong(c, keys, now) <==>
      key in keys && key in c.entries && (c.entries[key].deadline == None || now < c.entries[key].deadline.value)
  {
  }

  /** The keys of a model are those of its index, unless the index is missing or has expired. */
  lemma ListIsTold(c: Cache, model: Name, now: int)
    ensures
      Listed(c, model, now) ==
      if model in c.index && (c.index[model].deadline == None || now < c.index[model].deadline.value)
      then c.index[model].value else {}
  {
  }

  class ResponseCache {
    var entries: map<Name, Redis.Entry<Stored>>
    var index: map<Name, Redis.Entry<set<Name>>>

    ghost function State(): Cache
      reads this
    {
      Cache(entries, index)
    }

    method SetCachedResponse(key: Name, body: Name, model: Name, override: Option<int>, configured: int, now: int)
      modifies this
      ensures State() == Put(old(State()), key, Stored(body, model), EffectiveTtl(override, configured), now)
    {
      var ttl := if override.Some? && override.value != 0 then override.value else configured;
      if ttl <= 0 {
        return;
      }
      entries := entries[key := Redis.Entry(Stored(body, model), Some(now + ttl))];
      var slot := Redis.SlotOf(index, model);
      slot := Redis.Write(slot, now, Redis.Get(slot, now).GetOr({}) + {key});
      slot := Redis.Expire(slot, now, now + ttl + MARGIN);
      index := Redis.Store(index, model, slot);
    }

    method GetCachedResponse(key: Name, now: int) returns (s: Option<Stored>)
      ensures s == Redis.Get(State().EntryOf(key), now)
    {
      s := Redis.Get(Redis.SlotOf(entries, key), now);
    }

    method ListIndex(model: Name, now: int) returns (keys: set<Name>)
      ensures keys == Listed(State(), model, now)
    {
      keys := Redis.Get(Redis.SlotOf(index, model), now).GetOr({});
    }

    /** DEL of some keys, which answers how many of them were live. */
    method DeleteEntries(keys: set<Name>, now: int) returns (deleted: nat)
      modifies this`entries
      ensures entries == old(entries) - keys
      ensures deleted == |LiveAmong(old(State()), keys, now)|
    {
      deleted := |LiveAmong(Cache(entries, index), keys, now)|;
      entries := entries - keys;
    }

    method DropIndex(model: Name)
      modifies this`index
      ensures index == old(index) - {model}
    {
      index := index - {model};
    }

    /** The three commands with nothing in between. */
    method DeleteModel(model: Name, now: int) returns (deleted: nat)
      modifies this
      ensures
        var keys := Listed(old(State()), model, now);
        && entries == old(entries) - keys
        && index == (if keys == {} then old(index) else old(index) - {model})
        && deleted == |LiveAmong(old(State()), keys, now)|
    {
      var keys := ListIndex(model, now);
      deleted := 0;
      if keys != {} {
        deleted := DeleteEntries(keys, now);
        DropIndex(model);
      }
    }
  }

  // ---------- the index covers the live entries ----------

  ghost predicate CoveredAt(c: Cache, model: Name, key: Name, t: int) {
    c.Holds(key, model, t) ==> Redis.Live(c.IndexOf(model), t) && key in c.IndexOf(model).value.value
  }

  /** From now on, without further writes, the model's index is live and lists each of its live entries. */
  ghost predicate Covered(c: Cache, model: Name, now: int) {
    forall key: Name, t: int | t >= now :: CoveredAt(c, model, key, t)
  }

  /** The entry will have expired by the limit. */
  ghost predicate EndsBy(c: Cache, key: Name, limit: int) {
    c.EntryOf(key).Some? && c.EntryOf(key).value.deadline.Some? && c.EntryOf(key).value.deadline.value <= limit
  }

  ghost predicate AllEndBy(c: Cache, model: Name, now: int, limit: int) {
    forall key: Name | c.Holds(key, model, now) :: EndsBy(c, key, limit)
  }

  ghost predicate OthersEndBy(c: Cache, model: Name, key: Name, now: int, limit: int) {
    forall other: Name | other != key && c.Holds(other, model, now) :: EndsBy(c, other, limit)
  }

  lemma PutSlots(c: Cache, key: Name, s: Stored, ttl: int, now: int)
    requires ttl > 0
    ensures
      var after := Put(c, key, s, ttl, now);
      && after.EntryOf(key) == Some(Redis.Entry(s, Some(now + ttl)))
      && after.IndexOf(s.model) ==
           Some(Redis.Entry(Redis.Get(c.IndexOf(s.model), now).GetOr({}) + {key}, Some(now + ttl + MARGIN)))
      && (forall other: Name | other != key :: after.EntryOf(other) == c.EntryOf(other))
      && (forall other: Name | other != s.model :: after.IndexOf(other) == c.IndexOf(other))
  {
  }

  /** A write keeps its model covered exactly when it does not move the index deadline before another live entry's. */
  lemma PutKeepsCoverageIff(c: Cache, key: Name, s: Stored, ttl: int, now: int)
    requires ttl > 0 && Covered(c, s.model, now)
    ensures
      Covered(Put(c, key, s, ttl, now), s.model, now) <==>
      OthersEndBy(c, s.model, key, now, now + ttl + MARGIN)
  {
    hide Put;
    PutSlots(c, key, s, ttl, now);
    var after, limit := Put(c, key, s, ttl, now), now + ttl + MARGIN;
    if OthersEndBy(c, s.model, key, now, limit) {
      forall other: Name, t: int | t >= now
        ensures CoveredAt(after, s.model, other, t)
      {
        assert CoveredAt(c, s.model, other, now);
        if other != key && after.Holds(other, s.model, t) {
          assert c.Holds(other, s.model, now);
        }
      }
    } else {
      var other: Name :| other != key && c.Holds(other, s.model, now) && !EndsBy(c, other, limit);
      assert !CoveredAt(after, s.model, other, limit);
    }
  }

  lemma PutKeepsOtherModels(c: Cache, key: Name, s: Stored, ttl: int, now: int, model: Name)
    requires ttl > 0 && model != s.model && Covered(c, model, now)
    ensures Covered(Put(c, key, s, ttl, now), model, now)
  {
    hide Put;
    PutSlots(c, key, s, ttl, now);
    forall other: Name, t: int | t >= now
      ensures CoveredAt(Put(c, key, s, ttl, now), model, other, t)
    {
      assert CoveredAt(c, model, other, t);
    }
  }

  /** Fewer entries and the same index are covered as well. */
  lemma FewerEntries(c: Cache, after: Cache, model: Name, now: int)
    requires Covered(c, model, now) && after.IndexOf(model) == c.IndexOf(model)
    requires forall key: Name :: after.EntryOf(key) == c.EntryOf(key) || after.EntryOf(key).None?
    ensures Covered(after, model, now)
  {
    forall key: Name, t: int | t >= now
      ensures CoveredAt(after, model, key, t)
    {
      assert CoveredAt(c, model, key, t);
    }
  }

  lemma FewerEndBy(c: Cache, after: Cache, model: Name, now: int, limit: int)
    requires AllEndBy(c, model, now, limit)
    requires forall key: Name :: after.EntryOf(key) == c.EntryOf(key) || after.EntryOf(key).None?
    ensures AllEndBy(after, model, now, limit)
  {
    forall key: Name | after.Holds(key, model, now)
      ensures EndsBy(after, key, limit)
    {
      assert c.Holds(key, model, now);
    }
  }

  // ---------- runs ----------

  /** A deletion of a model lists its index, deletes the listed entries and drops the index, in three steps. */
  datatype Op =
    | Write(key: Name, stored: Stored, ttl: int, now: int)
    | List(model: Name, now: int)
    | Delete(keys: set<Name>, now: int)
    | DropIndex(model: Name, now: int)

  type Ops = Run<Op>

  function Step(c: Cache, op: Op): Cache {
    match op
    case Write(key, s, ttl, now) => Put(c, key, s, ttl, now)
    case List(_, _) => c
    case Delete(keys, _) => c.(entries := c.entries - keys)
    case DropIndex(model, _) => c.(index := c.index - {model})
  }

  ghost function StateAfter(run: Ops): Cache {
    if run.Start? then Cache(map[], map[]) else Step(StateAfter(run.before), run.last)
  }

  ghost predicate Ordered(run: Ops, now: int) {
    run.Then? ==> run.last.now <= now && Ordered(run.before, run.last.now)
  }

  ghost predicate TtlsWithin(run: Ops, model: Name, least: int) {
    run.Then? ==>
      && TtlsWithin(run.before, model, least)
      && (run.last.Write? && run.last.stored.model == model && run.last.ttl > 0 ==> least <= run.last.ttl <= least + MARGIN)
  }

  /** After every step, and from then on if nothing more is written, the index covers the model's live entries. */
  ghost predicate AlwaysCovered(run: Ops, model: Name) {
    run.Then? ==> AlwaysCovered(run.before, model) && Covered(StateAfter(run), model, run.last.now)
  }

  /** No write moved its model's index deadline before the end of another live entry of the model. */
  ghost predicate WritesLeaveMargin(run: Ops, model: Name) {
    run.Then? ==>
      && WritesLeaveMargin(run.before, model)
      && (run.last.Write? && run.last.stored.model == model && run.last.ttl > 0 ==>
            OthersEndBy(StateAfter(run.before), model, run.last.key, run.last.now, run.last.now + run.last.ttl + MARGIN))
  }

  ghost predicate NoneLive(c: Cache, model: Name, now: int) {
    forall key: Name :: !c.Holds(key, model, now)
  }

  /** No index was dropped while its model had a live entry. */
  ghost predicate DropsFindNothing(run: Ops, model: Name) {
    run.Then? ==>
      && DropsFindNothing(run.before, model)
      && (run.last.DropIndex? && run.last.model == model ==> NoneLive(StateAfter(run.before), model, run.last.now))
  }

  lemma DropCoversIff(c: Cache, model: Name, now: int)
    ensures Covered(c.(index := c.index - {model}), model, now) <==> NoneLive(c, model, now)
  {
    var after := c.(index := c.index - {model});
    if NoneLive(c, model, now) {
      forall key: Name, t: int | t >= now
        ensures CoveredAt(after, model, key, t)
      {
        assert !c.Holds(key, model, now);
      }
    } else {
      var key: Name :| c.Holds(key, model, now);
      assert !CoveredAt(after, model, key, now);
    }
  }

  lemma DeletionCoversIff(c: Cache, op: Op, model: Name)
    requires Covered(c, model, op.now) && !op.Write?
    ensures
      Covered(Step(c, op), model, op.now) <==>
      (op.DropIndex? && op.model == model ==> NoneLive(c, model, op.now))
  {
    if op.DropIndex? && op.model == model {
      DropCoversIff(c, model, op.now);
    } else {
      FewerEntries(c, Step(c, op), model, op.now);
    }
  }

  lemma WriteCoversIff(c: Cache, op: Op, model: Name)
    requires Covered(c, model, op.now) && op.Write?
    ensures
      Covered(Step(c, op), model, op.now) <==>
      (op.stored.model == model && op.ttl > 0 ==> OthersEndBy(c, model, op.key, op.now, op.now + op.ttl + MARGIN))
  {
    hide Covered, OthersEndBy;
    if op.ttl > 0 {
      if op.stored.model == model {
        PutKeepsCoverageIff(c, op.key, op.stored, op.ttl, op.now);
      } else {
        PutKeepsOtherModels(c, op.key, op.stored, op.ttl, op.now, model);
      }
    }
  }

  lemma CoveredBefore(run: Ops, model: Name, now: int)
    requires Ordered(run, now) && AlwaysCovered(run, model)
    ensures Covered(StateAfter(run), model, now)
  {
  }

  /**
   The index covers the model's live entries throughout a run exactly when every write leaves the margin and no index is
   dropped while its model has a live entry.
   */
  lemma {:induction false} AlwaysCoveredIff(run: Ops, model: Name, now: int)
    requires Ordered(run, now)
    ensures AlwaysCovered(run, model) <==> WritesLeaveMargin(run, model) && DropsFindNothing(run, model)
  {
    hide Covered, Step, OthersEndBy, NoneLive;
    if run.Then? {
      AlwaysCoveredIff(run.before, model, run.last.now);
      if AlwaysCovered(run.before, model) {
        CoveredBefore(run.before, model, run.last.now);
        if run.last.Write? {
          WriteCoversIff(StateAfter(run.before), run.last, model);
        } else {
          DeletionCoversIff(StateAfter(run.before), run.last, model);
        }
      }
    }
  }

  // ---------- deletions with no write in between ----------

  ghost predicate WritesTo(op: Op, model: Name) {
    op.Write? && op.stored.model == model && op.ttl > 0
  }

  /** A deletion of the model has listed these keys, and deleted them if so said, and nothing of the model was written since. */
  ghost predicate Deleting(run: Ops, model: Name, keys: set<Name>, deleted: bool) {
    run.Then? && !WritesTo(run.last, model) && (
      || (!deleted && run.last.List? && run.last.model == model && keys == Listed(StateAfter(run.before), model, run.last.now))
      || Deleting(run.before, model, keys, deleted)
      || (deleted && run.last.Delete? && keys <= run.last.keys && Deleting(run.before, model, keys, false)))
  }

  ghost predicate FinishesDeletion(run: Ops, model: Name) {
    exists keys: set<Name> :: Deleting(run, model, keys, true)
  }

  /** Each index is dropped at the end of a deletion during which nothing of its model was written. */
  ghost predicate QuietDeletions(run: Ops, model: Name) {
    run.Then? ==>
      && QuietDeletions(run.before, model)
      && (run.last.DropIndex? && run.last.model == model ==> FinishesDeletion(run.before, model))
  }

  ghost predicate OnlyListed(c: Cache, model: Name, keys: set<Name>, deleted: bool, now: int) {
    forall key: Name, t: int | t >= now && c.Holds(key, model, t) :: !deleted && key in keys
  }

  lemma ListedAll(c: Cache, model: Name, now: int)
    requires Covered(c, model, now)
    ensures OnlyListed(c, model, Listed(c, model, now), false, now)
  {
    forall key: Name, t: int | t >= now && c.Holds(key, model, t)
      ensures key in Listed(c, model, now)
    {
      assert CoveredAt(c, model, key, now);
    }
  }

  lemma StillOnlyListed(c: Cache, op: Op, model: Name, keys: set<Name>, deleted: bool, before: int)
    requires OnlyListed(c, model, keys, deleted, before) && before <= op.now && !WritesTo(op, model)
    ensures OnlyListed(Step(c, op), model, keys, deleted, op.now)
    ensures op.Delete? && keys <= op.keys ==> OnlyListed(Step(c, op), model, keys, true, op.now)
  {
    var after := Step(c, op);
    if op.Write? && op.ttl > 0 {
      PutSlots(c, op.key, op.stored, op.ttl, op.now);
    }
    forall key: Name, t: int | t >= op.now && after.Holds(key, model, t)
      ensures c.Holds(key, model, t) && (op.Delete? ==> key !in op.keys)
    {
    }
  }

  /** During such a deletion only listed entries are live, and none once they have been deleted. */
  lemma {:induction false} OnlyListedAreLive(run: Ops, model: Name, keys: set<Name>, deleted: bool)
    requires run.Then? && Ordered(run, run.last.now) && AlwaysCovered(run.before, model) && Deleting(run, model, keys, deleted)
    ensures OnlyListed(StateAfter(run), model, keys, deleted, run.last.now)
  {
    hide OnlyListed, Covered, Listed, WritesTo, Step;
    var c, op := StateAfter(run.before), run.last;
    if !deleted && op.List? && op.model == model && keys == Listed(c, model, op.now) {
      CoveredBefore(run.before, model, op.now);
      ListedAll(c, model, op.now);
      ListingChangesNothing(c, op);
    } else if Deleting(run.before, model, keys, deleted) {
      OnlyListedAreLive(run.before, model, keys, deleted);
      StillOnlyListed(c, op, model, keys, deleted, run.before.last.now);
    } else {
      OnlyListedAreLive(run.before, model, keys, false);
      StillOnlyListed(c, op, model, keys, false, run.before.last.now);
    }
  }

  lemma ListingChangesNothing(c: Cache, op: Op)
    requires op.List?
    ensures Step(c, op) == c
  {
  }

  lemma QuietDropFindsNothing(run: Ops, model: Name, now: int)
    requires Ordered(run, now) && AlwaysCovered(run, model) && FinishesDeletion(run, model)
    ensures NoneLive(StateAfter(run), model, now)
  {
    var keys: set<Name> :| Deleting(run, model, keys, true);
    OnlyListedAreLive(run, model, keys, true);
  }

  lemma CoverageLasts(c: Cache, model: Name, now: int, later: int, least: int)
    requires Covered(c, model, now) && AllEndBy(c, model, now, now + least + MARGIN) && now <= later
    ensures Covered(c, model, later) && AllEndBy(c, model, later, later + least + MARGIN)
  {
    forall key: Name | c.Holds(key, model, later)
      ensures EndsBy(c, key, later + least + MARGIN)
    {
      assert c.Holds(key, model, now);
    }
  }

  lemma PutKeepsBoth(c: Cache, key: Name, s: Stored, ttl: int, now: int, model: Name, least: int)
    requires Covered(c, model, now) && AllEndBy(c, model, now, now + least + MARGIN)
    requires s.model == model && ttl > 0 ==> least <= ttl <= least + MARGIN
    ensures
      var after := Put(c, key, s, ttl, now);
      Covered(after, model, now) && AllEndBy(after, model, now, now + least + MARGIN)
  {
    if ttl > 0 {
      PutSlots(c, key, s, ttl, now);
      var after := Put(c, key, s, ttl, now);
      if s.model == model {
        PutKeepsCoverageIff(c, key, s, ttl, now);
      } else {
        PutKeepsOtherModels(c, key, s, ttl, now, model);
      }
      forall other: Name | after.Holds(other, model, now)
        ensures EndsBy(after, other, now + least + MARGIN)
      {
        assert other != key ==> c.Holds(other, model, now);
      }
    }
  }

  lemma DropKeepsBoth(c: Cache, dropped: Name, now: int, model: Name, least: int)
    requires Covered(c, model, now) && AllEndBy(c, model, now, now + least + MARGIN)
    requires dropped == model ==> NoneLive(c, model, now)
    ensures
      var after := c.(index := c.index - {dropped});
      Covered(after, model, now) && AllEndBy(after, model, now, now + least + MARGIN)
  {
    var after := c.(index := c.index - {dropped});
    if dropped == model {
      DropCoversIff(c, model, now);
    } else {
      FewerEntries(c, after, model, now);
    }
    FewerEndBy(c, after, model, now, now + least + MARGIN);
  }

  /**
   As long as one model's times to live differ by at most the margin and its deletions meet no write of it, its live
   entries stay in its live index.
   */
  lemma {:induction false} IndexCoversLiveEntries(run: Ops, model: Name, least: int, now: int)
    requires Ordered(run, now) && TtlsWithin(run, model, least) && QuietDeletions(run, model)
    ensures AlwaysCovered(run, model)
    ensures Covered(StateAfter(run), model, now) && AllEndBy(StateAfter(run), model, now, now + least + MARGIN)
  {
    hide Covered, AllEndBy, Put, NoneLive, FinishesDeletion;
    if run.Start? {
      EmptyIsCovered(model, now, least);
    } else {
      IndexCoversLiveEntries(run.before, model, least, run.last.now);
      var c, t := StateAfter(run.before), run.last.now;
      match run.last {
        case Write(key, s, ttl, _) => PutKeepsBoth(c, key, s, ttl, t, model, least);
        case List(_, _) =>
        case Delete(keys, _) => KeyDeletionKeepsBoth(c, keys, t, model, least);
        case DropIndex(dropped, _) =>
          if dropped == model {
            QuietDropFindsNothing(run.before, model, t);
          }
          DropKeepsBoth(c, dropped, t, model, least);
      }
      CoverageLasts(StateAfter(run), model, t, now, least);
    }
  }

  lemma EmptyIsCovered(model: Name, now: int, least: int)
    ensures Covered(Cache(map[], map[]), model, now) && AllEndBy(Cache(map[], map[]), model, now, now + least + MARGIN)
  {
  }

  lemma KeyDeletionKeepsBoth(c: Cache, keys: set<Name>, now: int, model: Name, least: int)
    requires Covered(c, model, now) && AllEndBy(c, model, now, now + least + MARGIN)
    ensures
      var after := c.(entries := c.entries - keys);
      Covered(after, model, now) && AllEndBy(after, model, now, now + least + MARGIN)
  {
    FewerEntries(c, c.(entries := c.entries - keys), model, now);
    FewerEndBy(c, c.(entries := c.entries - keys), model, now, now + least + MARGIN);
  }

  /** Then a finished deletion of the model leaves no live entry of it, and one that lists nothing has none to delete. */
  lemma InvalidationIsComplete(run: Ops, model: Name, least: int, now: int)
    requires Ordered(run, now) && TtlsWithin(run, model, least) && QuietDeletions(run, model)
    ensures FinishesDeletion(run, model) ==> NoneLive(StateAfter(run), model, now)
    ensures Listed(StateAfter(run), model, now) == {} ==> NoneLive(StateAfter(run), model, now)
  {
    IndexCoversLiveEntries(run, model, least, now);
    if FinishesDeletion(run, model) {
      QuietDropFindsNothing(run, model, now);
    }
    ListedAll(StateAfter(run), model, now);
  }

  /** Times to live further apart than the margin are enough to lose an entry from the index: a deletion lists nothing. */
  lemma WideTtlsLeaveAnEntry(model: Name, body: Name, first: Name, second: Name, long: int, short: int, now: int)
    requires first != second && 0 < short && short + MARGIN < long
    ensures
      var run := Then(Then(Start, Write(first, Stored(body, model), long, now)), Write(second, Stored(body, model), short, now));
      var later := now + short + MARGIN;
      StateAfter(run).Holds(first, model, later) && Listed(StateAfter(run), model, later) == {}
  {
    var empty := Cache(map[], map[]);
    var s := Stored(body, model);
    PutSlots(empty, first, s, long, now);
    PutSlots(Put(empty, first, s, long, now), second, s, short, now);
  }

  /** So is a write between the commands of a deletion, whatever the times to live. */
  lemma WriteDuringDeletionEscapes(model: Name, body: Name, first: Name, second: Name, ttl: int, now: int)
    requires first != second && 0 < ttl
    ensures
      var s := Stored(body, model);
      var written: Ops := Then(Start, Write(first, s, ttl, now));
      var overlapped := Then(Then(written, List(model, now)), Write(second, s, ttl, now));
      var c := StateAfter(Then(Then(overlapped, Delete({first}, now)), DropIndex(model, now)));
      && Listed(StateAfter(written), model, now) == {first}
      && c.Holds(second, model, now) && Listed(c, model, now) == {}
  {
    var s := Stored(body, model);
    var empty := Cache(map[], map[]);
    PutSlots(empty, first, s, ttl, now);
    PutSlots(Put(empty, first, s, ttl, now), second, s, ttl, now);
    var written: Ops := Then(Start, Write(first, s, ttl, now));
    assert StateAfter(written) == Put(empty, first, s, ttl, now);
    hide Put;
    var overlapped := Then(Then(written, List(model, now)), Write(second, s, ttl, now));
    assert StateAfter(overlapped) == Put(Put(empty, first, s, ttl, now), second, s, ttl, now);
    var deleted := Then(overlapped, Delete({first}, now));
    assert StateAfter(deleted).EntryOf(second) == StateAfter(overlapped).EntryOf(second);
  }

  // ---------- other models ----------

  /** Every write puts a key that belongs to its model. */
  ghost predicate WritesOwnKeys(run: Ops, modelOf: Name -> Name) {
    run.Then? ==>
      && WritesOwnKeys(run.before, modelOf)
      && (run.last.Write? ==> modelOf(run.last.key) == run.last.stored.model)
  }

  ghost predicate OwnKeysOnly(c: Cache, modelOf: Name -> Name) {
    && (forall model: Name, key: Name | c.IndexOf(model).Some? && key in c.IndexOf(model).value.value :: modelOf(key) == model)
    && (forall key: Name | c.EntryOf(key).Some? :: modelOf(key) == c.EntryOf(key).value.value.model)
  }

  lemma PutKeepsOwnKeys(c: Cache, key: Name, s: Stored, ttl: int, now: int, modelOf: Name -> Name)
    requires OwnKeysOnly(c, modelOf) && modelOf(key) == s.model
    ensures OwnKeysOnly(Put(c, key, s, ttl, now), modelOf)
  {
    if ttl > 0 {
      PutSlots(c, key, s, ttl, now);
      hide Put;
    }
  }

  lemma DeletingKeepsOwnKeys(c: Cache, op: Op, modelOf: Name -> Name)
    requires OwnKeysOnly(c, modelOf) && !op.Write?
    ensures OwnKeysOnly(Step(c, op), modelOf)
  {
    var after := Step(c, op);
    assert forall key: Name :: after.EntryOf(key) == c.EntryOf(key) || after.EntryOf(key).None?;
    assert forall model: Name :: after.IndexOf(model) == c.IndexOf(model) || after.IndexOf(model).None?;
  }

  lemma {:induction false} IndexNamesOwnKeys(run: Ops, modelOf: Name -> Name)
    requires WritesOwnKeys(run, modelOf)
    ensures OwnKeysOnly(StateAfter(run), modelOf)
  {
    if run.Then? {
      hide Put, OwnKeysOnly;
      IndexNamesOwnKeys(run.before, modelOf);
      if run.last.Write? {
        PutKeepsOwnKeys(StateAfter(run.before), run.last.key, run.last.stored, run.last.ttl, run.last.now, modelOf);
      } else {
        DeletingKeepsOwnKeys(StateAfter(run.before), run.last, modelOf);
      }
    }
  }

  /** What a deletion of one model lists, and so deletes then or later, holds no key of another model. */
  lemma InvalidationIsPrecise(run: Ops, modelOf: Name -> Name, model: Name, now: int, later: Cache, key: Name)
    requires WritesOwnKeys(run, modelOf) && modelOf(key) != model
    ensures Step(later, Delete(Listed(StateAfter(run), model, now), now)).EntryOf(key) == later.EntryOf(key)
  {
    IndexNamesOwnKeys(run, modelOf);
  }
}
