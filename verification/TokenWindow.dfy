/** The tokens-per-minute window of middleware/rate_limiter.py: a sorted set of "ms:tokens" members. */
module TokenWindow {
  import opened Prelude
  import Redis

  /** One member of the sorted set; its score is its ms. Equal members are one member. */
  datatype Charge = Charge(ms: int, tokens: int)
  type Charges = set<Charge>
  type Slot = Redis.Slot<Charges>
  type Store = map<Scope, Redis.Entry<Charges>>

  /** Its item is the number of tokens. */
  type Call = Arrival<int>
  datatype Reply = Reply(allowed: bool, total: int)

  ghost function Total(s: Charges): int {
    if s == {} then 0 else
      var c :| c in s;
      c.tokens + Total(s - {c})
  }

  lemma {:induction false} TotalSplit(s: Charges, c: Charge)
    requires c in s
    ensures Total(s) == c.tokens + Total(s - {c})
    decreases |s|
  {
    var d :| d in s && Total(s) == d.tokens + Total(s - {d});
    if d != c {
      TotalSplit(s - {d}, c);
      TotalSplit(s - {c}, d);
      assert s - {d} - {c} == s - {c} - {d};
    }
  }

  lemma {:induction false} TotalMonotone(a: Charges, b: Charges)
    requires a <= b && forall c | c in b :: 0 <= c.tokens
    ensures 0 <= Total(a) <= Total(b)
    decreases |b|
  {
    if b != {} {
      var c :| c in b;
      TotalSplit(b, c);
      if c in a {
        TotalSplit(a, c);
        TotalMonotone(a - {c}, b - {c});
      } else {
        TotalMonotone(a, b - {c});
      }
    }
  }

  function View(z: Slot, now: int): Charges {
    Redis.Get(z, now).GetOr({})
  }

  /** ZREMRANGEBYSCORE key 0 cutoff. */
  function Trim(s: Charges, cutoff: int): Charges {
    set c | c in s && !(0 <= c.ms <= cutoff)
  }

  /** ZRANGEBYSCORE key from +inf. */
  function RangeFrom(s: Charges, from: int): Charges {
    set c | c in s && from <= c.ms
  }

  function Replace(z: Slot, now: int, s: Charges): Slot {
    if s == {} then None else Redis.Write(z, now, s)
  }

  function ChargeOf(c: Call): Charge {
    Charge(c.now, c.item)
  }

  /** The pipeline: trim and read, one step. */
  ghost function Look(z: Slot, w: nat, c: Call): (Slot, int) {
    var kept := Trim(View(z, c.at), c.now - w);
    (Replace(z, c.at, kept), Total(RangeFrom(kept, c.now - w)))
  }

  /** ZADD and PEXPIRE. */
  function Put(z: Slot, w: nat, charge: Charge, at: int): Slot {
    Redis.Expire(Redis.Write(z, at, View(z, at) + {charge}), at, at + w)
  }

  /** The whole check, when no other check on the key runs between its read and its write. */
  ghost function Check(z: Slot, w: nat, c: Call): (Slot, Reply) {
    var (trimmed, total) := Look(z, w, c);
    if total + c.item > c.limit then (trimmed, Reply(false, total))
    else (Put(trimmed, w, ChargeOf(c), c.at), Reply(true, total + c.item))
  }

  ghost function Step(s: Store, w: nat, c: Call): (Store, Reply) {
    var (z, r) := Check(Redis.SlotOf(s, c.key), w, c);
    (Redis.Store(s, c.key, z), r)
  }

  method SumTokens(members: Charges) returns (total: int)
    ensures total == Total(members)
  {
    total := 0;
    var rest := members;
    while rest != {}
      invariant total + Total(rest) == Total(members)
      decreases |rest|
    {
      var c :| c in rest;
      TotalSplit(rest, c);
      total := total + c.tokens;
      rest := rest - {c};
    }
  }

  method RunLook(z: Slot, w: nat, c: Call) returns (slot: Slot, total: int)
    ensures (slot, total) == Look(z, w, c)
  {
    var kept := Trim(View(z, c.at), c.now - w);
    slot := Replace(z, c.at, kept);
    total := SumTokens(RangeFrom(kept, c.now - w));
  }

  method RunCheck(z: Slot, w: nat, c: Call) returns (slot: Slot, r: Reply)
    ensures (slot, r) == Check(z, w, c)
  {
    var total;
    slot, total := RunLook(z, w, c);
    if total + c.item > c.limit {
      return slot, Reply(false, total);
    }
    slot := Put(slot, w, ChargeOf(c), c.at);
    r := Reply(true, total + c.item);
  }

  class Limiter {
    var zsets: Store

    constructor ()
      ensures zsets == map[]
    {
      zsets := map[];
    }

    method CheckTpm(w: nat, c: Call) returns (r: Reply)
      modifies this
      ensures (zsets, r) == Step(old(zsets), w, c)
    {
      var slot;
      slot, r := RunCheck(Redis.SlotOf(zsets, c.key), w, c);
      zsets := Redis.Store(zsets, c.key, slot);
    }
  }

  // ---------- the unbounded log ----------

  ghost function After(log: Charges, cutoff: int): Charges {
    set c | c in log && cutoff < c.ms
  }

  ghost function Between(log: Charges, lo: int, hi: int): Charges {
    set c | c in log && lo < c.ms <= hi
  }

  ghost predicate Tracks(z: Slot, w: nat, clock: int, log: Charges) {
    && 0 <= clock
    && (forall c | c in log :: 0 <= c.ms <= clock && 0 < c.tokens)
    && (z.Some? ==> z.value.value <= log)
    && (forall c | c in log && clock - w < c.ms ::
          z.Some? && c in z.value.value && Redis.Live(z, c.ms + w - 1))
  }

  /** Reading the expiring store shows no more than the caller's window of the full log, and no less than Redis's own. */
  lemma TrimTracks(z: Slot, w: nat, clock: int, log: Charges, at: int, now: int, kept: Charges)
    requires Tracks(z, w, clock, log) && clock <= at && 0 <= now <= at
    requires kept == Trim(View(z, at), now - w)
    ensures After(log, at - w) <= kept <= After(log, now - w) && kept == RangeFrom(kept, now - w) && kept <= log
    ensures Tracks(Replace(z, at, kept), w, at, log)
  {
    forall c | c in log && at - w < c.ms
      ensures c in kept && kept != {} && Redis.Live(z, at)
    {
    }
  }

  lemma PutTracks(z: Slot, w: nat, clock: int, log: Charges, at: int, charge: Charge)
    requires Tracks(z, w, clock, log) && clock <= at && 0 <= charge.ms <= at && 0 < charge.tokens
    ensures Tracks(Put(z, w, charge, at), w, at, log + {charge})
  {
    forall c | c in log && at - w < c.ms
      ensures c in View(z, at)
    {
      assert Redis.Live(z, c.ms + w - 1);
    }
    assert View(z, at) <= log;
  }

  lemma TrackedAreNotNegative(z: Slot, w: nat, clock: int, log: Charges, cutoff: int)
    requires Tracks(z, w, clock, log)
    ensures forall c | c in After(log, cutoff) :: 0 <= c.tokens
  {
  }

  /** The total the check read. */
  function Seen(r: Reply, c: Call): int {
    if r.allowed then r.total - c.item else r.total
  }

  lemma LookTracks(z: Slot, w: nat, clock: int, log: Charges, c: Call)
    requires Tracks(z, w, clock, log) && clock <= c.at && 0 <= c.now <= c.at
    ensures
      var (trimmed, total) := Look(z, w, c);
      Tracks(trimmed, w, c.at, log) && Total(After(log, c.at - w)) <= total <= Total(After(log, c.now - w))
  {
    hide Tracks, Trim, View, After, RangeFrom, Replace, Total;
    TrackedAreNotNegative(z, w, clock, log, c.now - w);
    var kept := Trim(View(z, c.at), c.now - w);
    TrimTracks(z, w, clock, log, c.at, c.now, kept);
    TotalMonotone(After(log, c.at - w), kept);
    TotalMonotone(kept, After(log, c.now - w));
  }

  lemma CheckTracks(z: Slot, w: nat, clock: int, log: Charges, c: Call)
    requires Tracks(z, w, clock, log) && clock <= c.at && 0 <= c.now <= c.at && 0 < c.item
    ensures
      var (z', r) := Check(z, w, c);
      && r.allowed == (Seen(r, c) + c.item <= c.limit)
      && Total(After(log, c.at - w)) <= Seen(r, c) <= Total(After(log, c.now - w))
      && Tracks(z', w, c.at, if r.allowed then log + {ChargeOf(c)} else log)
  {
    hide Tracks, Look, Put, Total, After;
    LookTracks(z, w, clock, log, c);
    PutTracks(Look(z, w, c).0, w, c.at, log, c.at, ChargeOf(c));
  }

  // ---------- runs of checks made one at a time ----------

  type Calls = Run<Call>

  /** Redis's clock never runs back between two checks on the key, they are at most `late` behind it, and charges are positive. */
  ghost predicate Valid(late: nat, run: Calls, key: Scope) {
    run.Then? ==>
      && Valid(late, run.before, key)
      && (run.last.key == key ==>
            && Clock(run.before, key) <= run.last.at
            && Punctual(late, run.last.now, run.last.at)
            && 0 < run.last.item)
  }

  ghost function State(w: nat, run: Calls): Store {
    if run.Start? then map[] else Step(State(w, run.before), w, run.last).0
  }

  ghost function ReplyTo(w: nat, run: Calls, c: Call): Reply {
    Check(Redis.SlotOf(State(w, run), c.key), w, c).1
  }

  /** The charges ever made under a key, one for each admitted check, in order. */
  ghost function Admissions(w: nat, run: Calls, key: Scope): seq<Charge> {
    if run.Start? then [] else
      var earlier := Admissions(w, run.before, key);
      if run.last.key == key && ReplyTo(w, run.before, run.last).allowed
      then earlier + [ChargeOf(run.last)] else earlier
  }

  /** As members of a set. */
  ghost function Charged(w: nat, run: Calls, key: Scope): Charges {
    Elements(Admissions(w, run, key))
  }

  lemma ChargedStep(w: nat, run: Calls, key: Scope)
    requires run.Then?
    ensures
      var earlier := Charged(w, run.before, key);
      Charged(w, run, key) ==
      if run.last.key == key && ReplyTo(w, run.before, run.last).allowed
      then earlier + {ChargeOf(run.last)} else earlier
  {
    hide ReplyTo;
  }

  lemma SlotAfter(w: nat, run: Calls, key: Scope)
    requires run.Then?
    ensures
      var before := State(w, run.before);
      Redis.SlotOf(State(w, run), key) ==
      if run.last.key == key then Check(Redis.SlotOf(before, key), w, run.last).0 else Redis.SlotOf(before, key)
  {
    hide Check, Redis.SlotOf, Redis.Store;
    var s := State(w, run.before);
    Redis.StoreThenRead(s, run.last.key, Check(Redis.SlotOf(s, run.last.key), w, run.last).0, key);
  }

  lemma NothingTracked(w: nat, key: Scope)
    ensures Tracks(Redis.SlotOf(State(w, Start), key), w, 0, {}) && Charged(w, Start, key) == {}
  {
  }

  lemma {:induction false} RunTracks(late: nat, w: nat, run: Calls, key: Scope)
    requires Valid(late, run, key)
    ensures Tracks(Redis.SlotOf(State(w, run), key), w, Clock(run, key), Charged(w, run, key))
  {
    hide Check, Redis.SlotOf, State, Tracks, After, Charged, Total;
    if run.Start? {
      NothingTracked(w, key);
    } else {
      RunTracks(late, w, run.before, key);
      SlotAfter(w, run, key);
      ChargedStep(w, run, key);
      if run.last.key == key {
        CheckTracks(
          Redis.SlotOf(State(w, run.before), key), w, Clock(run.before, key), Charged(w, run.before, key), run.last);
      }
    }
  }

  /**
   Expiry and trimming are invisible: the total a check reads is at most that of the caller's window of an unbounded
   log and at least that of Redis's window, which for a check without delay are one and the same.
   */
  lemma EveryReplyMatchesTheLog(late: nat, w: nat, run: Calls, c: Call)
    requires Valid(late, Then(run, c), c.key)
    ensures
      var r, log := ReplyTo(w, run, c), Charged(w, run, c.key);
      && r.allowed == (Seen(r, c) + c.item <= c.limit)
      && Total(After(log, c.at - w)) <= Seen(r, c) <= Total(After(log, c.now - w))
  {
    hide Check, Redis.SlotOf, State, Tracks, After, Charged, Total;
    assert Then(run, c).before == run && Then(run, c).last == c;
    RunTracks(late, w, run, c.key);
    CheckTracks(Redis.SlotOf(State(w, run), c.key), w, Clock(run, c.key), Charged(w, run, c.key), c);
  }

  lemma ChargesArePositive(late: nat, w: nat, run: Calls, key: Scope)
    requires Valid(late, run, key)
    ensures forall c | c in Charged(w, run, key) :: 0 <= c.ms <= Clock(run, key) && 0 < c.tokens
  {
    hide Charged, State, Redis.SlotOf;
    RunTracks(late, w, run, key);
  }

  /** Charging one more request, when Redis's window leaves room, overfills no window shorter by the delay. */
  lemma OneMoreFits(late: nat, log: Charges, w: nat, at: int, c: Charge, limit: int, t: int)
    requires (forall d | d in log :: 0 < d.tokens) && 0 < c.tokens
    requires Total(After(log, at - w)) + c.tokens <= limit && at <= c.ms + late
    requires Total(Between(log, t - w + late, t)) <= limit
    ensures Total(Between(log + {c}, t - w + late, t)) <= limit
  {
    var grown, recent := Between(log + {c}, t - w + late, t), After(log, at - w);
    if c in log || !(t - w + late < c.ms <= t) {
      assert grown == Between(log, t - w + late, t);
    } else {
      TotalSplit(recent + {c}, c);
      TotalMonotone(recent + {c} - {c}, recent);
      TotalMonotone(grown, recent + {c});
    }
  }

  lemma PartOfBetween(part: Charges, log: Charges, lo: int, hi: int)
    requires part <= Between(log, lo, hi) && forall c | c in log :: 0 < c.tokens
    ensures Total(part) <= Total(Between(log, lo, hi))
  {
    TotalMonotone(part, Between(log, lo, hi));
  }

  lemma NothingBetween(lo: int, hi: int)
    ensures Total(Between({}, lo, hi)) == 0
  {
    assert Between({}, lo, hi) == {};
  }

  /**
   With no limit on a key above `limit` and checks at most `late` behind Redis's clock, the pairs charged in any window
   of length w - late come to at most `limit` tokens.
   */
  lemma {:induction false} WindowNeverExceeded(late: nat, w: nat, run: Calls, key: Scope, limit: nat, t: int)
    requires Valid(late, run, key) && Bounded(run, key, limit)
    ensures Total(Between(Charged(w, run, key), t - w + late, t)) <= limit
  {
    hide ReplyTo, After, Between, Total, Charged, State;
    if run.Start? {
      NothingTracked(w, key);
      NothingBetween(t - w + late, t);
    } else {
      var c := run.last;
      assert run == Then(run.before, c);
      WindowNeverExceeded(late, w, run.before, key, limit, t);
      ChargedStep(w, run, key);
      if c.key == key && ReplyTo(w, run.before, c).allowed {
        EveryReplyMatchesTheLog(late, w, run.before, c);
        ChargesArePositive(late, w, run.before, key);
        OneMoreFits(late, Charged(w, run.before, key), w, c.at, ChargeOf(c), limit, t);
      }
    }
  }

  // ---------- checks that overlap ----------

  /** On one counter: the read of a check, and the write of one that passed. */
  datatype Half = Looks(id: Name, call: Call) | Puts(id: Name, at: int)

  type Halves = Run<Half>

  /** What is stored, what was ever written, and the charges of the checks that passed but have not written. */
  datatype Counter = Counter(slot: Slot, log: Charges, pending: map<Name, Charge>)

  ghost function Do(s: Counter, w: nat, h: Half): Counter {
    match h
    case Looks(id, c) =>
      var (slot, total) := Look(s.slot, w, c);
      Counter(slot, s.log, if total + c.item > c.limit then s.pending else s.pending[id := ChargeOf(c)])
    case Puts(id, at) =>
      if id !in s.pending then s
      else Counter(Put(s.slot, w, s.pending[id], at), s.log + {s.pending[id]}, s.pending - {id})
  }

  ghost function CounterAfter(w: nat, run: Halves): Counter {
    if run.Start? then Counter(None, {}, map[]) else Do(CounterAfter(w, run.before), w, run.last)
  }

  function TimeOf(h: Half): int {
    if h.Looks? then h.call.at else h.at
  }

  /** When Redis served the last command. */
  ghost function LastTime(run: Halves): int {
    if run.Start? then 0 else TimeOf(run.last)
  }

  ghost predicate Sound(late: nat, limit: int, most: int, h: Half, pending: map<Name, Charge>) {
    match h
    case Looks(id, c) => id !in pending && Punctual(late, c.now, c.at) && 0 < c.item <= most && c.limit <= limit
    case Puts(id, _) => id in pending
  }

  /** Redis's clock never runs back, limits and requests are bounded, and at most n checks are between read and write at once. */
  ghost predicate Overlapping(late: nat, w: nat, run: Halves, limit: int, most: int, n: nat) {
    && |CounterAfter(w, run).pending| <= n
    && (run.Then? ==>
          && Overlapping(late, w, run.before, limit, most, n)
          && LastTime(run.before) <= TimeOf(run.last)
          && Sound(late, limit, most, run.last, CounterAfter(w, run.before).pending))
  }

  ghost function PendingCharges(pending: map<Name, Charge>): Charges {
    set id | id in pending :: pending[id]
  }

  /** Written or about to be. */
  ghost function Promised(s: Counter): Charges {
    s.log + PendingCharges(s.pending)
  }

  ghost predicate PendingFit(s: Counter, time: int, most: int) {
    forall id | id in s.pending :: 0 <= s.pending[id].ms <= time && 0 < s.pending[id].tokens <= most
  }

  lemma {:induction false} OverlappingTracks(late: nat, w: nat, run: Halves, limit: int, most: int, n: nat)
    requires Overlapping(late, w, run, limit, most, n)
    ensures var s := CounterAfter(w, run); Tracks(s.slot, w, LastTime(run), s.log) && PendingFit(s, LastTime(run), most)
  {
    hide Look, Put, Total;
    if run.Then? {
      OverlappingTracks(late, w, run.before, limit, most, n);
      var s := CounterAfter(w, run.before);
      match run.last {
        case Looks(id, c) =>
          LookTracks(s.slot, w, LastTime(run.before), s.log, c);
        case Puts(id, at) =>
          PutTracks(s.slot, w, LastTime(run.before), s.log, at, s.pending[id]);
      }
    }
  }

  lemma {:induction false} FewPending(pending: map<Name, Charge>, most: int)
    requires forall id | id in pending :: 0 < pending[id].tokens <= most
    ensures Total(PendingCharges(pending)) <= |pending| * most
    decreases |pending|
  {
    if |pending| == 0 {
      assert PendingCharges(pending) == {};
    } else {
      var id :| id in pending;
      var rest := pending - {id};
      OneFewer(pending, id);
      FewPending(rest, most);
      SplitPending(pending, id);
      AddOne(PendingCharges(rest), pending[id]);
      Times(|rest|, most);
    }
  }

  lemma SplitPending(pending: map<Name, Charge>, id: Name)
    requires id in pending
    ensures PendingCharges(pending) == PendingCharges(pending - {id}) + {pending[id]}
  {
    forall c | c in PendingCharges(pending)
      ensures c in PendingCharges(pending - {id}) + {pending[id]}
    {
      var other :| other in pending && pending[other] == c;
      assert other != id ==> other in pending - {id};
    }
  }

  lemma OneFewer(pending: map<Name, Charge>, id: Name)
    requires id in pending
    ensures |pending - {id}| == |pending| - 1
  {
    assert (pending - {id}).Keys == pending.Keys - {id};
  }

  lemma Times(n: nat, most: int)
    ensures (n + 1) * most == n * most + most
  {
  }

  lemma AddOne(s: Charges, c: Charge)
    requires (forall d | d in s :: 0 < d.tokens) && 0 < c.tokens
    ensures Total(s + {c}) <= Total(s) + c.tokens
  {
    if c in s {
      assert s + {c} == s;
    } else {
      TotalSplit(s + {c}, c);
      assert s + {c} - {c} == s;
    }
  }
  lemma {:induction false} UnionTotal(a: Charges, b: Charges)
    requires forall c | c in a + b :: 0 < c.tokens
    ensures Total(a + b) <= Total(a) + Total(b)
    decreases |b|
  {
    if b == {} {
      assert a + b == a;
    } else {
      var c :| c in b;
      UnionTotal(a, b - {c});
      TotalSplit(b, c);
      assert a + b == a + (b - {c}) + {c};
      AddOne(a + (b - {c}), c);
    }
  }

  /** A check that reads Redis's window and passes leaves room for what the others in flight may add. */
  lemma PassingFits(late: nat, w: nat, s: Counter, c: Call, limit: int, most: nat, t: int)
    requires Punctual(late, c.now, c.at) && 0 < c.item && t - w + late < c.now <= t
    requires forall d | d in Promised(s) :: 0 < d.tokens
    requires forall id | id in s.pending :: s.pending[id].tokens <= most
    requires Total(After(s.log, c.at - w)) + c.item <= limit
    ensures Total(Between(Promised(s) + {ChargeOf(c)}, t - w + late, t)) <= limit + |s.pending| * most
  {
    var recent, others := After(s.log, c.at - w), PendingCharges(s.pending);
    forall id | id in s.pending
      ensures 0 < s.pending[id].tokens <= most
    {
      assert s.pending[id] in Promised(s);
    }
    FewPending(s.pending, most);
    UnionTotal(recent, others);
    AddOne(recent + others, ChargeOf(c));
    TotalMonotone(Between(Promised(s) + {ChargeOf(c)}, t - w + late, t), recent + others + {ChargeOf(c)});
  }

  lemma PromisedArePositive(late: nat, w: nat, run: Halves, limit: int, most: nat, n: nat)
    requires Overlapping(late, w, run, limit, most, n)
    ensures forall c | c in Promised(CounterAfter(w, run)) :: 0 < c.tokens
  {
    hide CounterAfter;
    OverlappingTracks(late, w, run, limit, most, n);
  }

  /** A look that passes adds to the promises; writing one changes nothing. */
  lemma PromisesMove(s: Counter, w: nat, h: Half)
    requires if h.Looks? then h.id !in s.pending else h.id in s.pending
    ensures
      Promised(Do(s, w, h)) ==
      if h.Looks? && Look(s.slot, w, h.call).1 + h.call.item <= h.call.limit
      then Promised(s) + {ChargeOf(h.call)} else Promised(s)
  {
    hide Look, Put, PendingCharges;
    if h.Looks? {
      var longer := s.pending[h.id := ChargeOf(h.call)];
      SplitPending(longer, h.id);
      assert longer - {h.id} == s.pending;
    } else {
      SplitPending(s.pending, h.id);
    }
  }

  /**
   However reads and writes interleave, with at most n checks between the two at once: what is charged in any window,
   shorter by the delay, comes to at most the limit and n - 1 times the largest request more.
   */
  lemma {:induction false} OverlapIsBounded(late: nat, w: nat, run: Halves, limit: nat, most: nat, n: nat, t: int)
    requires Overlapping(late, w, run, limit, most, n) && 1 <= n
    ensures Total(Between(Promised(CounterAfter(w, run)), t - w + late, t)) <= limit + (n - 1) * most
  {
    hide Look, Put, Total, Between, After, Promised, Do, PendingCharges, PendingFit, Tracks;
    if run.Start? {
      NothingPromised(w, t - w + late, t);
      Scaled(0, n - 1, most);
    } else {
      var s := CounterAfter(w, run.before);
      OverlapIsBounded(late, w, run.before, limit, most, n, t);
      PromisesMove(s, w, run.last);
      if run.last.Looks? && Look(s.slot, w, run.last.call).1 + run.last.call.item <= run.last.call.limit {
        LookFits(late, w, run, limit, most, n, t);
      }
    }
  }

  lemma NothingPromised(w: nat, lo: int, hi: int)
    ensures Total(Between(Promised(CounterAfter(w, Start)), lo, hi)) == 0
  {
    assert Between(Promised(CounterAfter(w, Start)), lo, hi) == {};
  }

  lemma Scaled(a: nat, b: nat, most: nat)
    requires a <= b
    ensures a * most <= b * most
  {
    assert b * most == a * most + (b - a) * most;
  }

  lemma OneMorePending(s: Counter, w: nat, id: Name, c: Call)
    requires id !in s.pending && Look(s.slot, w, c).1 + c.item <= c.limit
    ensures |Do(s, w, Looks(id, c)).pending| == |s.pending| + 1
  {
    OneFewer(s.pending[id := ChargeOf(c)], id);
    assert s.pending[id := ChargeOf(c)] - {id} == s.pending;
  }

  lemma LookFits(late: nat, w: nat, run: Halves, limit: nat, most: nat, n: nat, t: int)
    requires Overlapping(late, w, run, limit, most, n) && 1 <= n && run.Then? && run.last.Looks?
    requires
      var s, c := CounterAfter(w, run.before), run.last.call;
      Look(s.slot, w, c).1 + c.item <= c.limit && Total(Between(Promised(s), t - w + late, t)) <= limit + (n - 1) * most
    ensures
      Total(Between(Promised(CounterAfter(w, run.before)) + {ChargeOf(run.last.call)}, t - w + late, t)) <= limit + (n - 1) * most
  {
    hide Look, Put, Total, After, Do, Promised, Tracks;
    var s, c := CounterAfter(w, run.before), run.last.call;
    OverlappingTracks(late, w, run.before, limit, most, n);
    if t - w + late < c.now <= t {
      LookTracks(s.slot, w, LastTime(run.before), s.log, c);
      PromisedArePositive(late, w, run.before, limit, most, n);
      PassingFits(late, w, s, c, limit, most, t);
      OneMorePending(s, w, run.last.id, c);
      Scaled(|s.pending|, n - 1, most);
    } else {
      assert Between(Promised(s) + {ChargeOf(c)}, t - w + late, t) == Between(Promised(s), t - w + late, t);
    }
  }

  // ---------- repeated pairs merge ----------

  ghost function SumOf(charges: seq<Charge>): int {
    if charges == [] then 0 else charges[0].tokens + SumOf(charges[1..])
  }

  /** A set of members counts the tokens of a list of positive charges exactly when no pair repeats; otherwise it undercounts. */
  lemma {:induction false} MergedTotal(charges: seq<Charge>)
    requires forall c | c in charges :: 0 < c.tokens
    ensures Total(Elements(charges)) <= SumOf(charges)
    ensures Total(Elements(charges)) == SumOf(charges) <==> Distinct(charges)
  {
    if charges == [] {
      assert Elements(charges) == {};
    } else {
      var c, rest := charges[0], charges[1..];
      MergedTotal(rest);
      assert Elements(charges) == {c} + Elements(rest);
      if c in rest {
        assert Elements(charges) == Elements(rest);
      } else {
        TotalSplit(Elements(charges), c);
        assert Elements(charges) - {c} == Elements(rest);
      }
    }
  }

  /** The charges of a list after a cutoff, repetitions included. */
  ghost function Since(charges: seq<Charge>, cutoff: int): (recent: seq<Charge>)
    ensures forall c :: c in recent <==> c in charges && cutoff < c.ms
  {
    if charges == [] then []
    else (if cutoff < charges[0].ms then [charges[0]] else []) + Since(charges[1..], cutoff)
  }

  /** And those in (lo, hi]. */
  ghost function Within(charges: seq<Charge>, lo: int, hi: int): (part: seq<Charge>)
    ensures forall c :: c in part <==> c in charges && lo < c.ms <= hi
  {
    if charges == [] then []
    else (if lo < charges[0].ms <= hi then [charges[0]] else []) + Within(charges[1..], lo, hi)
  }

  lemma ElementsSince(charges: seq<Charge>, cutoff: int)
    ensures Elements(Since(charges, cutoff)) == After(Elements(charges), cutoff)
  {
    hide Since;
  }

  lemma ElementsWithin(charges: seq<Charge>, lo: int, hi: int)
    ensures Elements(Within(charges, lo, hi)) == Between(Elements(charges), lo, hi)
  {
    hide Within;
  }

  /**
   Over every run, repeated pairs or not: the total a check without delay reads is at most what was admitted in its
   window, and equals it exactly when no (ms, tokens) pair repeats there.
   */
  lemma ReadIsExactIff(w: nat, run: Calls, c: Call)
    requires Valid(0, Then(run, c), c.key)
    ensures
      var seen, admitted := Seen(ReplyTo(w, run, c), c), Since(Admissions(w, run, c.key), c.now - w);
      && seen <= SumOf(admitted)
      && (seen == SumOf(admitted) <==> Distinct(admitted))
  {
    hide ReplyTo, Admissions, Total, State, Since, Distinct, SumOf, Redis.SlotOf;
    var all := Admissions(w, run, c.key);
    assert Then(run, c).before == run && Then(run, c).last == c;
    EveryReplyMatchesTheLog(0, w, run, c);
    ChargesArePositive(0, w, run, c.key);
    ElementsSince(all, c.now - w);
    MergedTotal(Since(all, c.now - w));
  }

  /** So the requests admitted in a window carry at most `limit` tokens as long as no pair repeats there. */
  lemma AdmittedTokensFit(late: nat, w: nat, run: Calls, key: Scope, limit: nat, t: int)
    requires Valid(late, run, key) && Bounded(run, key, limit)
    requires Distinct(Within(Admissions(w, run, key), t - w + late, t))
    ensures SumOf(Within(Admissions(w, run, key), t - w + late, t)) <= limit
  {
    hide Admissions, Total, State, Within, Distinct, SumOf;
    var all := Admissions(w, run, key);
    WindowNeverExceeded(late, w, run, key, limit, t);
    ChargesArePositive(late, w, run, key);
    ElementsWithin(all, t - w + late, t);
    MergedTotal(Within(all, t - w + late, t));
  }

  /** Three equal requests in one millisecond: 180 tokens admitted under a limit of 130. */
  lemma RepeatedPairOvershoots(w: nat, key: Scope)
    requires 0 < w
    ensures
      var c := Arrival(key, 130, 1000, 1000, 60);
      && ReplyTo(w, Start, c).allowed
      && ReplyTo(w, Then(Start, c), c).allowed
      && ReplyTo(w, Then(Then(Start, c), c), c).allowed
  {
    var c := Arrival(key, 130, 1000, 1000, 60);
    var s0: Store := map[];
    var s1, s2 := State(w, Then(Start, c)), State(w, Then(Then(Start, c), c));
    var z0, z1 := Redis.SlotOf(s0, key), Redis.SlotOf(s1, key);
    assert State(w, Start) == s0 && Then(Start, c).before == Start;
    assert s1 == Step(s0, w, c).0;
    FirstOfItsKind(w, c, z0);
    Redis.StoreThenRead(s0, key, Check(z0, w, c).0, key);
    FirstOfItsKind(w, c, z1);
    Redis.StoreThenRead(s1, key, Check(z1, w, c).0, key);
    FirstOfItsKind(w, c, Redis.SlotOf(s2, key));
  }

  lemma FirstOfItsKind(w: nat, c: Call, z: Slot)
    requires 0 < w && c.limit == 130 && c.item == 60 && c.at == c.now == 1000
    requires z.None? || z == Some(Redis.Entry({Charge(1000, 60)}, Some(1000 + w)))
    ensures Check(z, w, c).1.allowed
    ensures Check(z, w, c).0 == Some(Redis.Entry({Charge(1000, 60)}, Some(1000 + w)))
  {
    var one := {Charge(1000, 60)};
    TotalSplit(one, Charge(1000, 60));
    var kept := Trim(View(z, 1000), 1000 - w);
    assert kept == if z.None? then {} else one;
    assert RangeFrom(kept, 1000 - w) == kept;
    assert kept + one == one;
    assert one - one == {};
  }
}
