/**
 The life of virtual keys in auth/virtual_keys.py: a record for each id, and an index from raw keys to ids.
 Hashing is taken as injective, so the index is keyed by the raw key itself. Times are seconds.
 */
module VirtualKeys {
  import opened Prelude
  import Redis

  type Id = Name
  type Raw = Name

  /** The fields that decide validity. A record that a lone field write creates has no current key and no expiry. */
  datatype Record = Record(current: Option<Raw>, blocked: bool, expiresAt: Option<int>)

  datatype Keys = Keys(records: map<Id, Redis.Entry<Record>>, holders: map<Raw, Redis.Entry<Id>>) {
    function RecordOf(id: Id): Redis.Slot<Record> {
      Redis.SlotOf(records, id)
    }

    function HolderOf(raw: Raw): Redis.Slot<Id> {
      Redis.SlotOf(holders, raw)
    }
  }

  /** expires_in: zero and absent both mean that nothing expires. */
  function Expiring<V>(s: Redis.Slot<V>, expiresIn: int, now: int): Redis.Slot<V> {
    if expiresIn != 0 then Redis.Expire(s, now, now + expiresIn) else s
  }

  function ExpiresAt(expiresIn: int, now: int): Option<int> {
    if expiresIn != 0 then Some(now + expiresIn) else None
  }

  /** HSET of one field: an absent record is created. */
  function SetBlocked(s: Redis.Slot<Record>, now: int, blocked: bool): Redis.Slot<Record> {
    Redis.Write(s, now, Redis.Get(s, now).GetOr(BLANK).(blocked := blocked))
  }

  function Validate(k: Keys, raw: Raw, now: int): Option<Id> {
    match Redis.Get(k.HolderOf(raw), now)
    case None => None
    case Some(id) =>
      match Redis.Get(k.RecordOf(id), now)
      case None => None
      case Some(r) =>
        if r.blocked then None
        else if r.expiresAt.Some? && r.expiresAt.value < now then None
        else Some(id)
  }

  /**
   Commands and pipelines that Redis serves at once. Deleting and rotating look first and write later: `current` is the
   key they read. `Update` sets other fields than these, as update_key and the budget reset do.
   */
  datatype Op =
    | Generate(id: Id, raw: Raw, expiresIn: int, now: int)
    | Block(id: Id, now: int)
    | Unblock(id: Id, now: int)
    | Update(id: Id, now: int)
    | Look(id: Id, now: int)
    | Erase(id: Id, current: Option<Raw>, now: int)
    | Rotate(id: Id, raw: Raw, current: Option<Raw>, grace: int, now: int)

  const BLANK := Record(None, false, None)

  /** What an operation leaves in the record of its id. HSET creates a record that is absent. */
  function NextRecord(s: Redis.Slot<Record>, op: Op): Redis.Slot<Record> {
    match op
    case Generate(_, raw, expiresIn, now) =>
      Expiring(Redis.Write(s, now, Record(Some(raw), false, ExpiresAt(expiresIn, now))), expiresIn, now)
    case Block(_, now) => SetBlocked(s, now, true)
    case Unblock(_, now) => SetBlocked(s, now, false)
    case Update(_, now) => Redis.Write(s, now, Redis.Get(s, now).GetOr(BLANK))
    case Look(_, _) => s
    case Erase(_, _, _) => None
    case Rotate(_, raw, _, _, now) => Redis.Write(s, now, Redis.Get(s, now).GetOr(BLANK).(current := Some(raw)))
  }

  /** What it leaves in the index entry of a raw key. */
  function NextHolder(s: Redis.Slot<Id>, op: Op, raw: Raw): Redis.Slot<Id> {
    match op
    case Generate(id, issued, expiresIn, now) =>
      if raw == issued then Expiring(Some(Redis.Entry(id, None)), expiresIn, now) else s
    case Erase(_, current, _) => if current == Some(raw) then None else s
    case Rotate(id, issued, current, grace, now) =>
      var written := if raw == issued then Some(Redis.Entry(id, None)) else s;
      if current == Some(raw) then Redis.Expire(written, now, now + grace) else written
    case _ => s
  }

  ghost predicate Performed(before: Keys, after: Keys, op: Op) {
    && (forall id: Id :: after.RecordOf(id) == if id == op.id then NextRecord(before.RecordOf(id), op) else before.RecordOf(id))
    && (forall raw: Raw :: after.HolderOf(raw) == NextHolder(before.HolderOf(raw), op, raw))
  }

  /** In any state: the index entry names the id, its record is there and unblocked, and neither says that the key has expired. */
  lemma AcceptedIff(k: Keys, raw: Raw, id: Id, now: int)
    ensures
      Validate(k, raw, now) == Some(id) <==>
      && raw in k.holders && k.holders[raw].value == id && Lasts(k.holders[raw].deadline, now)
      && id in k.records && Lasts(k.records[id].deadline, now)
      && !k.records[id].value.blocked
      && (k.records[id].value.expiresAt == None || now <= k.records[id].value.expiresAt.value)
  {
  }

  ghost predicate Lasts(deadline: Option<int>, now: int) {
    deadline == None || now < deadline.value
  }

  /** A generated key is current, unblocked, and lasts as long as asked for, as does its index entry. */
  lemma GenerationIsTold(before: Keys, after: Keys, id: Id, raw: Raw, expiresIn: int, now: int)
    requires Performed(before, after, Generate(id, raw, expiresIn, now)) && 0 <= expiresIn
    requires !Redis.Live(before.RecordOf(id), now)
    ensures
      var end := if expiresIn == 0 then None else Some(now + expiresIn);
      && after.RecordOf(id) == Some(Redis.Entry(Record(Some(raw), false, end), end))
      && after.HolderOf(raw) == Some(Redis.Entry(id, end))
      && forall other | other != raw :: after.HolderOf(other) == before.HolderOf(other)
  {
  }

  /** A deletion takes the record and the index entry of the key it read, and nothing else. */
  lemma ErasureIsTold(before: Keys, after: Keys, id: Id, current: Option<Raw>, now: int)
    requires Performed(before, after, Erase(id, current, now))
    ensures after.RecordOf(id) == None
    ensures forall raw :: after.HolderOf(raw) == if current == Some(raw) then None else before.HolderOf(raw)
  {
  }

  /** A rotation points its new key at the id for good, and gives the key it read no more than the grace period. */
  lemma RotationIsTold(before: Keys, after: Keys, id: Id, raw: Raw, current: Option<Raw>, grace: int, now: int)
    requires Performed(before, after, Rotate(id, raw, current, grace, now)) && current != Some(raw)
    ensures after.HolderOf(raw) == Some(Redis.Entry(id, None))
    ensures Redis.Live(after.RecordOf(id), now) && after.RecordOf(id).value.value.current == Some(raw)
    ensures
      current.Some? && Redis.Live(before.HolderOf(current.value), now) && 0 < grace ==>
        after.HolderOf(current.value) == Some(Redis.Entry(before.HolderOf(current.value).value.value, Some(now + grace)))
    ensures forall other | other != raw && current != Some(other) :: after.HolderOf(other) == before.HolderOf(other)
  {
    assert after.HolderOf(raw) == NextHolder(before.HolderOf(raw), Rotate(id, raw, current, grace, now), raw);
  }

  class KeyStore {
    var records: map<Id, Redis.Entry<Record>>
    var holders: map<Raw, Redis.Entry<Id>>

    ghost function State(): Keys
      reads this
    {
      Keys(records, holders)
    }

    method GenerateKey(id: Id, raw: Raw, expiresIn: int, now: int)
      modifies this
      ensures Performed(old(State()), State(), Generate(id, raw, expiresIn, now))
    {
      var record := Redis.Write(Redis.SlotOf(records, id), now, Record(Some(raw), false, ExpiresAt(expiresIn, now)));
      var holder := Some(Redis.Entry(id, None));
      if expiresIn != 0 {
        record := Redis.Expire(record, now, now + expiresIn);
        holder := Redis.Expire(holder, now, now + expiresIn);
      }
      records := Redis.Store(records, id, record);
      holders := Redis.Store(holders, raw, holder);
    }

    method ValidateKey(raw: Raw, now: int) returns (id: Option<Id>)
      ensures id == Validate(State(), raw, now)
    {
      id := Redis.Get(Redis.SlotOf(holders, raw), now);
      if id.None? {
        return None;
      }
      var data := Redis.Get(Redis.SlotOf(records, id.value), now);
      if data.None? || data.value.blocked || (data.value.expiresAt.Some? && data.value.expiresAt.value < now) {
        return None;
      }
    }

    method BlockKey(id: Id, now: int)
      modifies this
      ensures Performed(old(State()), State(), Block(id, now))
    {
      records := Redis.Store(records, id, SetBlocked(Redis.SlotOf(records, id), now, true));
    }

    method UnblockKey(id: Id, now: int)
      modifies this
      ensures Performed(old(State()), State(), Unblock(id, now))
    {
      records := Redis.Store(records, id, SetBlocked(Redis.SlotOf(records, id), now, false));
    }

    /** HGETALL, the first half of deleting and rotating. */
    method ReadRecord(id: Id, now: int) returns (data: Option<Record>)
      ensures data == Redis.Get(State().RecordOf(id), now)
    {
      data := Redis.Get(Redis.SlotOf(records, id), now);
    }

    method EraseKey(id: Id, current: Option<Raw>, now: int)
      modifies this
      ensures Performed(old(State()), State(), Erase(id, current, now))
    {
      records := records - {id};
      if current.Some? {
        holders := holders - {current.value};
      }
    }

    method WriteRotation(id: Id, raw: Raw, current: Option<Raw>, grace: int, now: int)
      modifies this
      ensures Performed(old(State()), State(), Rotate(id, raw, current, grace, now))
    {
      var slot := Redis.SlotOf(records, id);
      records := Redis.Store(records, id, Redis.Write(slot, now, Redis.Get(slot, now).GetOr(BLANK).(current := Some(raw))));
      holders := holders[raw := Redis.Entry(id, None)];
      if current.Some? {
        var rotatedOut := current.value;
        holders := Redis.Store(holders, rotatedOut, Redis.Expire(Redis.SlotOf(holders, rotatedOut), now, now + grace));
      }
    }

    /** Both halves with nothing in between. */
    method DeleteKey(id: Id, now: int) returns (found: bool)
      modifies this
      ensures found == Redis.Live(old(State()).RecordOf(id), now)
      ensures
        if found then Performed(old(State()), State(), Erase(id, old(State()).RecordOf(id).value.value.current, now))
        else State() == old(State())
    {
      var data := ReadRecord(id, now);
      found := data.Some?;
      if found {
        EraseKey(id, data.value.current, now);
      }
    }

    method RotateKey(id: Id, raw: Raw, grace: int, now: int) returns (found: bool)
      modifies this
      ensures found == Redis.Live(old(State()).RecordOf(id), now)
      ensures
        if found
        then Performed(old(State()), State(), Rotate(id, raw, old(State()).RecordOf(id).value.value.current, grace, now))
        else State() == old(State())
    {
      var data := ReadRecord(id, now);
      found := data.Some?;
      if found {
        WriteRotation(id, raw, data.value.current, grace, now);
      }
    }
  }

  // ---------- histories ----------

  type History = Run<Op>

  ghost function RecordAfter(run: History, id: Id): Redis.Slot<Record> {
    if run.Start? then None
    else if run.last.id == id then NextRecord(RecordAfter(run.before, id), run.last)
    else RecordAfter(run.before, id)
  }

  ghost function HolderAfter(run: History, raw: Raw): Redis.Slot<Id> {
    if run.Start? then None else NextHolder(HolderAfter(run.before, raw), run.last, raw)
  }

  ghost predicate Reached(k: Keys, run: History) {
    && (forall id: Id :: k.RecordOf(id) == RecordAfter(run, id))
    && (forall raw: Raw :: k.HolderOf(raw) == HolderAfter(run, raw))
  }

  lemma OperationsExtendRuns(before: Keys, after: Keys, run: History, op: Op)
    requires Reached(before, run) && Performed(before, after, op)
    ensures Reached(after, Then(run, op))
  {
    hide NextRecord, NextHolder;
    forall raw: Raw
      ensures after.HolderOf(raw) == HolderAfter(Then(run, op), raw)
    {
      assert before.HolderOf(raw) == HolderAfter(run, raw);
    }
    forall id: Id
      ensures after.RecordOf(id) == RecordAfter(Then(run, op), id)
    {
      assert before.RecordOf(id) == RecordAfter(run, id);
    }
  }

  // What the operations mean, told without the store.

  datatype Life = Unborn | Alive(until: Option<int>) | Deleted

  ghost function LifeOf(run: History, id: Id): Life {
    if run.Start? then Unborn
    else if run.last.Generate? && run.last.id == id then Alive(ExpiresAt(run.last.expiresIn, run.last.now))
    else if run.last.Erase? && run.last.id == id && LifeOf(run.before, id).Alive? then Deleted
    else LifeOf(run.before, id)
  }

  /** The id was generated and neither deleted nor has it expired. */
  ghost predicate Exists(run: History, id: Id, t: int) {
    var life := LifeOf(run, id);
    life.Alive? && (life.until.None? || t < life.until.value)
  }

  /** The last word on the id was a block. */
  ghost predicate Blocked(run: History, id: Id) {
    run.Then? &&
    if run.last.id == id && run.last.Block? then true
    else if run.last.id == id && (run.last.Unblock? || run.last.Generate?) then false
    else Blocked(run.before, id)
  }

  ghost predicate Issues(run: History, op: Op) {
    op.Generate? || (op.Rotate? && Exists(run, op.id, op.now))
  }

  /** The raw key last issued for the id. */
  ghost function CurrentOf(run: History, id: Id): Option<Raw> {
    if run.Start? then None
    else if run.last.id == id && Issues(run.before, run.last) then Some(run.last.raw)
    else CurrentOf(run.before, id)
  }

  /** The id a raw key was issued for. */
  ghost function OwnerOf(run: History, raw: Raw): Option<Id> {
    if run.Start? then None
    else if Issues(run.before, run.last) && run.last.raw == raw then Some(run.last.id)
    else OwnerOf(run.before, raw)
  }

  /** When the grace period of a rotated-out raw key ends. */
  ghost function GraceEnd(run: History, raw: Raw): Option<int> {
    if run.Start? then None
    else if run.last.Rotate? && Issues(run.before, run.last) && CurrentOf(run.before, run.last.id) == Some(raw)
    then Some(run.last.now + run.last.grace)
    else GraceEnd(run.before, raw)
  }

  /** A write of the id's record comes while the id exists; a rotation's also while the key it read is still current. */
  ghost predicate InTime(run: History, op: Op) {
    && (op.Block? || op.Unblock? || op.Update? || op.Rotate? ==> Exists(run, op.id, op.now))
    && (op.Rotate? ==> CurrentOf(run, op.id) == op.current)
  }

  /** New ids and raw keys are fresh, and a deletion or rotation read a key of its own id. */
  ghost predicate Sound(run: History, op: Op) {
    && (op.Generate? ==> LifeOf(run, op.id).Unborn?)
    && (op.Generate? || op.Rotate? ==> OwnerOf(run, op.raw).None?)
    && ((op.Erase? || op.Rotate?) && op.current.Some? ==> OwnerOf(run, op.current.value) == Some(op.id))
  }

  /** Clocks do not go back, and every operation is sound and in time. */
  ghost predicate WellUsed(run: History, now: int) {
    run.Then? ==>
      && run.last.now <= now && WellUsed(run.before, run.last.now)
      && Sound(run.before, run.last) && InTime(run.before, run.last)
  }

  /** A record is live exactly while its id exists, and says what the history says. */
  ghost predicate RecordAgrees(run: History, id: Id, t: int) {
    var s := RecordAfter(run, id);
    && (Redis.Live(s, t) <==> Exists(run, id, t))
    && (Exists(run, id, t) ==>
          && s.value.deadline == LifeOf(run, id).until
          && s.value.value == Record(CurrentOf(run, id), Blocked(run, id), LifeOf(run, id).until))
    && (LifeOf(run, id).Unborn? ==> s.None?)
  }

  lemma {:induction false} RecordsAgree(run: History, id: Id, t: int)
    requires WellUsed(run, t)
    ensures RecordAgrees(run, id, t)
  {
    if run.Then? {
      RecordsAgree(run.before, id, run.last.now);
      RecordsAgree(run.before, id, t);
    }
  }

  /** The index entry of a raw key of an existing id is live exactly while the key is current or in grace. */
  ghost predicate HolderAgrees(run: History, raw: Raw, t: int) {
    var s := HolderAfter(run, raw);
    match OwnerOf(run, raw)
    case None => s.None?
    case Some(id) =>
      && (s.Some? ==> s.value.value == id)
      && (Exists(run, id, t) ==>
            (Redis.Live(s, t) <==> CurrentOf(run, id) == Some(raw) || (GraceEnd(run, raw).Some? && t < GraceEnd(run, raw).value)))
  }

  lemma {:induction false} IssuedOnce(run: History, now: int, id: Id, raw: Raw)
    requires WellUsed(run, now)
    ensures CurrentOf(run, id) == Some(raw) ==> OwnerOf(run, raw) == Some(id)
    ensures OwnerOf(run, raw) == Some(id) ==> !LifeOf(run, id).Unborn?
    ensures GraceEnd(run, raw).Some? ==> OwnerOf(run, raw).Some?
    ensures GraceEnd(run, raw).Some? ==> CurrentOf(run, id) != Some(raw)
    ensures OwnerOf(run, raw) == Some(id) && CurrentOf(run, id) != Some(raw) ==> GraceEnd(run, raw).Some?
  {
    if run.Then? {
      IssuedOnce(run.before, run.last.now, id, raw);
      IssuedOnce(run.before, run.last.now, run.last.id, raw);
    }
  }

  lemma {:induction false} HoldersAgree(run: History, raw: Raw, t: int)
    requires WellUsed(run, t)
    ensures HolderAgrees(run, raw, t)
  {
    hide NextRecord, Blocked, RecordAfter;
    if run.Then? {
      var op := run.last;
      HoldersAgree(run.before, raw, op.now);
      HoldersAgree(run.before, raw, t);
      IssuedOnce(run.before, op.now, op.id, raw);
      if OwnerOf(run.before, raw).Some? {
        IssuedOnce(run.before, op.now, OwnerOf(run.before, raw).value, raw);
      }
    }
  }

  // ---------- main results ----------

  /** A raw key is accepted for an id exactly when the id exists unblocked and the key is its current one or still in grace. */
  lemma ValidIff(k: Keys, run: History, raw: Raw, id: Id, t: int)
    requires Reached(k, run) && WellUsed(run, t)
    ensures
      Validate(k, raw, t) == Some(id) <==>
      && Exists(run, id, t) && !Blocked(run, id)
      && OwnerOf(run, raw) == Some(id)
      && (CurrentOf(run, id) == Some(raw) || (GraceEnd(run, raw).Some? && t < GraceEnd(run, raw).value))
  {
    HoldersAgree(run, raw, t);
    RecordsAgree(run, id, t);
    assert k.HolderOf(raw) == HolderAfter(run, raw) && k.RecordOf(id) == RecordAfter(run, id);
  }

  /** From now on the store says what the history means. */
  ghost predicate Agrees(run: History, now: int) {
    && (forall id: Id, t: int | t >= now :: RecordAgrees(run, id, t))
    && (forall raw: Raw, t: int | t >= now :: HolderAgrees(run, raw, t))
  }

  /** The difference a late rotation makes does not outlive the id: the keys it treats wrongly would last that long anyway. */
  ghost predicate Immaterial(run: History, op: Op)
    requires op.Rotate? && op.current.Some?
  {
    var life, grace := LifeOf(run, op.id), GraceEnd(run, op.current.value);
    && life.Alive? && life.until.Some? && life.until.value <= op.now + op.grace
    && grace.Some? && (grace.value <= op.now || life.until.value <= grace.value)
  }

  lemma WellUsedAgrees(run: History, now: int)
    requires WellUsed(run, now)
    ensures Agrees(run, now)
  {
    forall id: Id, t: int | t >= now
      ensures RecordAgrees(run, id, t)
    {
      RecordsAgree(run, id, t);
    }
    forall raw: Raw, t: int | t >= now
      ensures HolderAgrees(run, raw, t)
    {
      HoldersAgree(run, raw, t);
    }
  }

  lemma LateRotationSlots(run: History, op: Op, raw: Raw, t: int)
    requires WellUsed(run, op.now) && op.Rotate? && op.current.Some? && Sound(run, op) && t >= op.now
    requires Exists(run, op.id, op.now) && CurrentOf(run, op.id) != op.current
    requires Exists(run, op.id, t)
    ensures
      var grace := GraceEnd(run, op.current.value);
      && grace.Some? && op.raw != op.current.value
      && CurrentOf(Then(run, op), op.id) == Some(op.raw)
      && (Redis.Live(HolderAfter(Then(run, op), op.current.value), t) <==>
            op.now < grace.value && t < op.now + op.grace)
  {
    hide NextRecord, RecordAfter, Blocked;
    IssuedOnce(run, op.now, op.id, op.current.value);
    HoldersAgree(run, op.current.value, op.now);
    assert Then(run, op).before == run && Then(run, op).last == op;
  }

  /** The key that was current stays, without a grace period. */
  lemma PassedOverKeyStays(run: History, op: Op, passed: Raw, t: int)
    requires WellUsed(run, op.now) && op.Rotate? && op.current.Some? && Sound(run, op) && t >= op.now
    requires Exists(run, op.id, op.now) && CurrentOf(run, op.id) == Some(passed) && op.current != Some(passed)
    requires Exists(run, op.id, t)
    ensures Redis.Live(HolderAfter(Then(run, op), passed), t)
    ensures
      OwnerOf(Then(run, op), passed) == Some(op.id) && passed != op.raw
      && GraceEnd(Then(run, op), passed) == Some(op.now + op.grace)
  {
    hide NextRecord, RecordAfter, Blocked;
    IssuedOnce(run, op.now, op.id, passed);
    HoldersAgree(run, passed, t);
    assert Then(run, op).before == run && Then(run, op).last == op;
  }

  lemma MaterialRotationDisagrees(run: History, op: Op)
    requires WellUsed(run, op.now) && op.Rotate? && op.current.Some? && Sound(run, op)
    requires Exists(run, op.id, op.now) && CurrentOf(run, op.id) != op.current && !Immaterial(run, op)
    ensures !Agrees(Then(run, op), op.now)
  {
    hide NextHolder, NextRecord, RecordAfter, Blocked, WellUsed, HolderAfter, CurrentOf;
    var after, until := Then(run, op), LifeOf(run, op.id).until;
    CurrentIsSome(run, op.now, op.id);
    LifeAfterRotation(run, op);
    var passed := CurrentOf(run, op.id).value;
    LateRotationSlots(run, op, op.current.value, op.now);
    if until.None? || until.value > op.now + op.grace {
      var t := if op.grace >= 0 then op.now + op.grace else op.now;
      PassedOverKeyStays(run, op, passed, t);
      LateRotationSlots(run, op, op.current.value, t);
      assert !HolderAgrees(after, passed, t);
    } else {
      var t := GraceEnd(run, op.current.value).value;
      LateRotationSlots(run, op, op.current.value, t);
      GraceAfterRotation(run, op);
      assert !HolderAgrees(after, op.current.value, t);
    }
  }

  lemma LifeAfterRotation(run: History, op: Op)
    requires op.Rotate?
    ensures forall id: Id :: LifeOf(Then(run, op), id) == LifeOf(run, id)
  {
  }

  lemma GraceAfterRotation(run: History, op: Op)
    requires WellUsed(run, op.now) && op.Rotate? && op.current.Some? && Sound(run, op)
    requires CurrentOf(run, op.id) != op.current
    ensures GraceEnd(Then(run, op), op.current.value) == GraceEnd(run, op.current.value)
    ensures OwnerOf(Then(run, op), op.current.value) == Some(op.id)
  {
  }

  lemma {:induction false} CurrentIsSome(run: History, now: int, id: Id)
    requires WellUsed(run, now) && !LifeOf(run, id).Unborn?
    ensures CurrentOf(run, id).Some?
  {
    if LifeOf(run.before, id).Unborn? {
      assert run.last.Generate? && run.last.id == id;
    } else {
      CurrentIsSome(run.before, run.last.now, id);
    }
  }

  lemma DeadRotationDisagrees(run: History, op: Op)
    requires op.Rotate? && !Exists(run, op.id, op.now)
    ensures !Agrees(Then(run, op), op.now)
  {
    LifeAfterRotation(run, op);
    assert Then(run, op).before == run && Then(run, op).last == op;
    assert !RecordAgrees(Then(run, op), op.id, op.now);
  }

  lemma ImmaterialRotationAgrees(run: History, op: Op, raw: Raw, t: int)
    requires WellUsed(run, op.now) && op.Rotate? && op.current.Some? && Sound(run, op) && t >= op.now
    requires Exists(run, op.id, op.now) && CurrentOf(run, op.id) != op.current && Immaterial(run, op)
    ensures HolderAgrees(Then(run, op), raw, t)
  {
    hide NextRecord, RecordAfter, Blocked;
    HoldersAgree(run, raw, op.now);
    HoldersAgree(run, raw, t);
    IssuedOnce(run, op.now, op.id, raw);
    IssuedOnce(run, op.now, op.id, op.current.value);
    if OwnerOf(run, raw).Some? {
      IssuedOnce(run, op.now, OwnerOf(run, raw).value, raw);
    }
    assert Then(run, op).before == run && Then(run, op).last == op;
  }

  lemma RotationKeepsRecords(run: History, op: Op, id: Id, t: int)
    requires WellUsed(run, op.now) && op.Rotate? && Exists(run, op.id, op.now) && t >= op.now
    ensures RecordAgrees(Then(run, op), id, t)
  {
    RecordsAgree(run, id, op.now);
    RecordsAgree(run, id, t);
    assert Then(run, op).before == run && Then(run, op).last == op;
  }

  /**
   After a well-used history, a rotation's write keeps acceptance as the history says exactly when the id then exists and
   the key the rotation read is still its current one, or the difference does not outlive the id.
   */
  lemma RotationKeepsAgreementIff(run: History, op: Op)
    requires WellUsed(run, op.now) && op.Rotate? && op.current.Some? && Sound(run, op)
    ensures
      Agrees(Then(run, op), op.now) <==>
      Exists(run, op.id, op.now) && (CurrentOf(run, op.id) == op.current || Immaterial(run, op))
  {
    hide RecordAgrees, HolderAgrees, Immaterial, Exists, CurrentOf, Sound;
    if !Exists(run, op.id, op.now) {
      DeadRotationDisagrees(run, op);
    } else if CurrentOf(run, op.id) == op.current {
      InTimeIsWellUsed(run, op);
      WellUsedAgrees(Then(run, op), op.now);
    } else if Immaterial(run, op) {
      forall id: Id, t: int | t >= op.now
        ensures RecordAgrees(Then(run, op), id, t)
      {
        RotationKeepsRecords(run, op, id, t);
      }
      forall raw: Raw, t: int | t >= op.now
        ensures HolderAgrees(Then(run, op), raw, t)
      {
        ImmaterialRotationAgrees(run, op, raw, t);
      }
    } else {
      MaterialRotationDisagrees(run, op);
    }
  }

  lemma InTimeIsWellUsed(run: History, op: Op)
    requires WellUsed(run, op.now) && Sound(run, op) && InTime(run, op)
    ensures WellUsed(Then(run, op), op.now)
  {
  }

  /** A deletion's write, however late, keeps it in every case. */
  lemma DeletionKeepsAgreement(run: History, op: Op)
    requires WellUsed(run, op.now) && op.Erase? && Sound(run, op)
    ensures Agrees(Then(run, op), op.now)
  {
    InTimeIsWellUsed(run, op);
    WellUsedAgrees(Then(run, op), op.now);
  }

  // ---------- deletion ----------

  /** The operation sets a field of the id's record. */
  ghost predicate Writes(op: Op, id: Id) {
    op.id == id && (op.Generate? || op.Block? || op.Unblock? || op.Update? || op.Rotate?)
  }

  /** No operation after `run` sets a field of the id's record. */
  ghost predicate NoWriteSince(later: History, run: History, id: Id) {
    later == run || (later.Then? && !Writes(later.last, id) && NoWriteSince(later.before, run, id))
  }

  ghost predicate Extends(later: History, run: History) {
    later == run || (later.Then? && Extends(later.before, run))
  }

  /** The id has no record after `run` and after every operation that follows. */
  ghost predicate GoneSince(later: History, run: History, id: Id) {
    RecordAfter(later, id).None? && (later == run || (later.Then? && GoneSince(later.before, run, id)))
  }

  /** The id is not generated anew after `run`. */
  ghost predicate NotReborn(later: History, run: History, id: Id) {
    later == run || (later.Then? && !(later.last.Generate? && later.last.id == id) && NotReborn(later.before, run, id))
  }

  /** A deleted record stays gone exactly as long as nothing sets a field of it. */
  lemma {:induction false} ErasedStaysGoneIff(run: History, later: History, id: Id)
    requires run.Then? && run.last.Erase? && run.last.id == id && Extends(later, run) && NotReborn(later, run, id)
    ensures GoneSince(later, run, id) <==> NoWriteSince(later, run, id)
  {
    if later != run {
      ErasedStaysGoneIff(run, later.before, id);
    }
  }

  lemma {:induction false} NotWrittenIsNotReborn(run: History, later: History, id: Id)
    requires NoWriteSince(later, run, id)
    ensures NotReborn(later, run, id)
  {
    if later != run {
      NotWrittenIsNotReborn(run, later.before, id);
    }
  }

  /** After a deletion, in any history, no raw key of the id is accepted as long as nothing sets a field of its record. */
  lemma {:induction false} DeletionSwitchesOff(k: Keys, run: History, later: History, raw: Raw, id: Id, t: int)
    requires run.Then? && run.last.Erase? && run.last.id == id
    requires Extends(later, run) && NoWriteSince(later, run, id) && Reached(k, later)
    ensures Validate(k, raw, t) != Some(id)
  {
    NotWrittenIsNotReborn(run, later, id);
    ErasedStaysGoneIff(run, later, id);
    assert k.RecordOf(id) == RecordAfter(later, id);
  }

  /** Setting a lone field of a dead record brings the id back for every raw key whose index entry is still live, in any state. */
  lemma LoneWriteRevivesIff(before: Keys, after: Keys, op: Op, raw: Raw)
    requires Performed(before, after, op) && (op.Unblock? || op.Update?) && !Redis.Live(before.RecordOf(op.id), op.now)
    ensures Validate(after, raw, op.now) == Some(op.id) <==> Redis.Get(before.HolderOf(raw), op.now) == Some(op.id)
  {
    assert after.HolderOf(raw) == before.HolderOf(raw);
    assert after.RecordOf(op.id) == NextRecord(before.RecordOf(op.id), op);
  }

  /** So does the write of a rotation, and the key it issues is then accepted for good. */
  lemma RotationRevives(before: Keys, after: Keys, op: Op, raw: Raw, t: int)
    requires Performed(before, after, op) && op.Rotate? && op.current != Some(op.raw)
    requires !Redis.Live(before.RecordOf(op.id), op.now) && t >= op.now
    ensures Validate(after, op.raw, t) == Some(op.id)
    ensures Validate(after, raw, t) == Some(op.id) <==> Redis.Get(after.HolderOf(raw), t) == Some(op.id)
  {
    assert after.HolderOf(op.raw) == NextHolder(before.HolderOf(op.raw), op, op.raw);
    assert after.RecordOf(op.id) == NextRecord(before.RecordOf(op.id), op);
  }

  /** After a block, none of the id's raw keys is accepted, those in grace included. */
  lemma BlockSwitchesOff(k: Keys, run: History, raw: Raw, id: Id, now: int, t: int)
    requires Reached(k, Then(run, Block(id, now))) && WellUsed(Then(run, Block(id, now)), t)
    ensures Validate(k, raw, t) != Some(id)
  {
    ValidIff(k, Then(run, Block(id, now)), raw, id, t);
  }

  /** Blocking and unblocking at once changes nothing that is accepted, unless the key was blocked before. */
  lemma UnblockRestores(k: Keys, before: Keys, run: History, raw: Raw, id: Id, now: int, t: int)
    requires Reached(before, run) && Reached(k, Then(Then(run, Block(id, now)), Unblock(id, now)))
    requires WellUsed(Then(Then(run, Block(id, now)), Unblock(id, now)), t) && !Blocked(run, id)
    ensures Validate(k, raw, t) == Validate(before, raw, t)
  {
    var longer := Then(Then(run, Block(id, now)), Unblock(id, now));
    assert WellUsed(longer.before, now) && WellUsed(run, now);
    StillWellUsed(run, now, t);
    forall x: Id
      ensures
        LifeOf(longer, x) == LifeOf(run, x) && Blocked(longer, x) == Blocked(run, x) && CurrentOf(longer, x) == CurrentOf(run, x)
    {
      var blocked := longer.before;
      assert LifeOf(blocked, x) == LifeOf(run, x) && CurrentOf(blocked, x) == CurrentOf(run, x);
      assert Blocked(blocked, x) == (x == id || Blocked(run, x));
    }
    SameAnswers(k, longer, before, run, raw, t);
  }

  lemma StillWellUsed(run: History, now: int, t: int)
    requires WellUsed(run, now) && now <= t
    ensures WellUsed(run, t)
  {
  }

  lemma SameAnswers(a: Keys, runA: History, b: Keys, runB: History, raw: Raw, t: int)
    requires Reached(a, runA) && WellUsed(runA, t) && Reached(b, runB) && WellUsed(runB, t)
    requires OwnerOf(runA, raw) == OwnerOf(runB, raw) && GraceEnd(runA, raw) == GraceEnd(runB, raw)
    requires forall id: Id ::
               LifeOf(runA, id) == LifeOf(runB, id) && Blocked(runA, id) == Blocked(runB, id)
               && CurrentOf(runA, id) == CurrentOf(runB, id)
    ensures Validate(a, raw, t) == Validate(b, raw, t)
  {
    if Validate(a, raw, t).Some? {
      ValidIff(a, runA, raw, Validate(a, raw, t).value, t);
      ValidIff(b, runB, raw, Validate(a, raw, t).value, t);
    } else if Validate(b, raw, t).Some? {
      ValidIff(a, runA, raw, Validate(b, raw, t).value, t);
      ValidIff(b, runB, raw, Validate(b, raw, t).value, t);
    }
  }

  // ---------- runs in which deletions and rotations overlap ----------

  /** Each deletion and rotation carries what an earlier look at its id's live record saw. */
  ghost predicate Genuine(run: History) {
    run.Then? ==>
      && Genuine(run.before)
      && (run.last.Erase? || run.last.Rotate? ==> Seen(run.before, run.last.id, run.last.current))
  }

  ghost predicate Seen(run: History, id: Id, current: Option<Raw>) {
    && run.Then?
    && (Seen(run.before, id, current)
        || (run.last.Look? && run.last.id == id && Redis.Live(RecordAfter(run.before, id), run.last.now)
            && RecordAfter(run.before, id).value.value.current == current))
  }

  ghost function LookedAt(id: Id, first: Raw): History {
    Then(Then(Then(Start, Generate(id, first, 0, 0)), Look(id, 1)), Look(id, 2))
  }

  lemma BothSawTheFirst(id: Id, first: Raw)
    ensures
      var run := LookedAt(id, first);
      && Genuine(run) && Seen(run, id, Some(first))
      && RecordAfter(run, id) == Some(Redis.Entry(Record(Some(first), false, None), None))
      && (forall raw: Raw :: HolderAfter(run, raw) == if raw == first then Some(Redis.Entry(id, None)) else None)
  {
    var born: History := Then(Start, Generate(id, first, 0, 0));
    assert RecordAfter(born, id) == Some(Redis.Entry(Record(Some(first), false, None), None));
    assert Seen(Then(born, Look(id, 1)), id, Some(first));
    assert Genuine(born) && Genuine(Then(born, Look(id, 1)));
    forall raw: Raw
      ensures HolderAfter(LookedAt(id, first), raw) == if raw == first then Some(Redis.Entry(id, None)) else None
    {
      assert HolderAfter(born, raw) == if raw == first then Some(Redis.Entry(id, None)) else None;
      assert HolderAfter(Then(born, Look(id, 1)), raw) == HolderAfter(born, raw);
    }
  }

  ghost function DeletedMeanwhile(id: Id, first: Raw, second: Raw): History {
    Then(Then(LookedAt(id, first), Erase(id, Some(first), 3)), Rotate(id, second, Some(first), 300, 4))
  }

  lemma AfterDeletion(id: Id, first: Raw, second: Raw)
    requires first != second
    ensures
      var run := DeletedMeanwhile(id, first, second);
      && Genuine(run) && RecordAfter(run, id) == Some(Redis.Entry(Record(Some(second), false, None), None))
      && HolderAfter(run, second) == Some(Redis.Entry(id, None))
  {
    BothSawTheFirst(id, first);
    var deleted := Then(LookedAt(id, first), Erase(id, Some(first), 3));
    hide LookedAt;
    assert deleted.before == LookedAt(id, first) && deleted.last == Erase(id, Some(first), 3);
    assert RecordAfter(deleted, id) == None && Seen(deleted, id, Some(first)) && Genuine(deleted);
    assert HolderAfter(deleted, second) == HolderAfter(deleted.before, second);
  }

  /** A rotation that looked before a deletion and writes after it: its new key is accepted for good. */
  lemma RotationOutlivesDeletion(k: Keys, id: Id, first: Raw, second: Raw, t: int)
    requires first != second && t >= 4 && Reached(k, DeletedMeanwhile(id, first, second))
    ensures Genuine(DeletedMeanwhile(id, first, second)) && Validate(k, second, t) == Some(id)
  {
    hide DeletedMeanwhile;
    AfterDeletion(id, first, second);
    assert k.HolderOf(second) == HolderAfter(DeletedMeanwhile(id, first, second), second);
    assert k.RecordOf(id) == RecordAfter(DeletedMeanwhile(id, first, second), id);
  }

  ghost function RotatedTwice(id: Id, first: Raw, second: Raw, third: Raw): History {
    Then(Then(LookedAt(id, first), Rotate(id, second, Some(first), 300, 3)), Rotate(id, third, Some(first), 300, 4))
  }

  lemma AfterRotations(id: Id, first: Raw, second: Raw, third: Raw)
    requires first != second && first != third && second != third
    ensures
      var run := RotatedTwice(id, first, second, third);
      && Genuine(run) && RecordAfter(run, id) == Some(Redis.Entry(Record(Some(third), false, None), None))
      && HolderAfter(run, second) == HolderAfter(run, third) == Some(Redis.Entry(id, None))
  {
    BothSawTheFirst(id, first);
    var once := Then(LookedAt(id, first), Rotate(id, second, Some(first), 300, 3));
    hide LookedAt;
    assert once.before == LookedAt(id, first) && once.last == Rotate(id, second, Some(first), 300, 3);
    assert Seen(once, id, Some(first)) && Genuine(once);
    assert RecordAfter(once, id) == Some(Redis.Entry(Record(Some(second), false, None), None));
    assert HolderAfter(once, second) == Some(Redis.Entry(id, None)) && HolderAfter(once, third) == None;
  }

  /** Two rotations that both looked first: the key of the one that writes first is accepted for ever, without being current. */
  lemma OverlappingRotationsKeepTheMiddleKey(k: Keys, id: Id, first: Raw, second: Raw, third: Raw, t: int)
    requires first != second && first != third && second != third && t >= 4
    requires Reached(k, RotatedTwice(id, first, second, third))
    ensures Genuine(RotatedTwice(id, first, second, third))
    ensures Validate(k, second, t) == Some(id) == Validate(k, third, t)
  {
    hide RotatedTwice;
    AfterRotations(id, first, second, third);
    var run := RotatedTwice(id, first, second, third);
    assert k.HolderOf(second) == HolderAfter(run, second) && k.HolderOf(third) == HolderAfter(run, third);
    assert k.RecordOf(id) == RecordAfter(run, id);
  }

  /** So a key that expired after a rotation is accepted for good once someone unblocks it. */
  lemma ExpiredKeyComesBack(k: Keys, id: Id, first: Raw, second: Raw, now: int, t: int)
    requires first != second && t >= now + 10
    requires Reached(
      k, Then(Then(Then(Start, Generate(id, first, 10, now)), Rotate(id, second, Some(first), 5, now)), Unblock(id, now + 10)))
    ensures Validate(k, second, t) == Some(id)
  {
    var born: History := Then(Start, Generate(id, first, 10, now));
    var rotated := Then(born, Rotate(id, second, Some(first), 5, now));
    assert RecordAfter(born, id) == Some(Redis.Entry(Record(Some(first), false, Some(now + 10)), Some(now + 10)));
    assert HolderAfter(rotated, second) == Some(Redis.Entry(id, None));
    assert RecordAfter(rotated, id) == Some(Redis.Entry(Record(Some(second), false, Some(now + 10)), Some(now + 10)));
    assert RecordAfter(Then(rotated, Unblock(id, now + 10)), id) == Some(Redis.Entry(BLANK, None));
    assert k.HolderOf(second) == HolderAfter(Then(rotated, Unblock(id, now + 10)), second);
    assert k.RecordOf(id) == RecordAfter(Then(rotated, Unblock(id, now + 10)), id);
  }
}
