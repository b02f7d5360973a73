/** The sliding-window request log of middleware/rate_limiter.py: one sorted set per limited key, and calls that add a member. */
module SlidingWindow {
  import opened Prelude
  import Redis

  /** A sorted set: member to score. Scores are milliseconds. */
  type Log = map<Name, int>
  type Store = map<Scope, Redis.Entry<Log>>

  type Call = Arrival<Name>
  datatype Reply = Reply(allowed: bool, count: int, limit: int)

  /** ZREMRANGEBYSCORE key 0 cutoff. */
  function Trim(z: Log, cutoff: int): Log {
    map m | m in z && !(0 <= z[m] <= cutoff) :: z[m]
  }

  type Slot = Redis.Slot<Log>

  function View(z: Slot, now: int): Log {
    Redis.Get(z, now).GetOr(map[])
  }

  /** Store a sorted set; Redis drops a key whose set has become empty. */
  function Replace(z: Slot, now: int, log: Log): Slot {
    if |log| == 0 then None else Redis.Write(z, now, log)
  }

  /** The whole script, as one atomic step on the slot of its key. */
  function Script(z: Slot, w: nat, c: Call): (Slot, Reply) {
    var kept := Trim(View(z, c.at), c.now - w);
    var trimmed := Replace(z, c.at, kept);
    if |kept| >= c.limit then
      (trimmed, Reply(false, |kept|, c.limit))
    else
      var added := Redis.Write(trimmed, c.at, kept[c.item := c.now]);
      (Redis.Expire(added, c.at, c.at + w), Reply(true, |kept| + 1, c.limit))
  }

  function Step(s: Store, w: nat, c: Call): (Store, Reply) {
    var (z, r) := Script(Redis.SlotOf(s, c.key), w, c);
    (Redis.Store(s, c.key, z), r)
  }

  class Limiter {
    var zsets: Store

    constructor ()
      ensures zsets == map[]
    {
      zsets := map[];
    }

    method CheckSlidingWindow(w: nat, c: Call) returns (r: Reply)
      modifies this
      ensures (zsets, r) == Step(old(zsets), w, c)
    {
      var slot;
      slot, r := RunScript(Redis.SlotOf(zsets, c.key), w, c);
      zsets := Redis.Store(zsets, c.key, slot);
    }
  }

  method RunScript(z: Slot, w: nat, c: Call) returns (slot: Slot, r: Reply)
    ensures (slot, r) == Script(z, w, c)
  {
    slot := z;
    var log := Trim(View(slot, c.at), c.now - w);
    slot := Replace(slot, c.at, log);
    var count := |log|;
    if count >= c.limit {
      return slot, Reply(false, count, c.limit);
    }
    slot := Redis.Write(slot, c.at, log[c.item := c.now]);
    slot := Redis.Expire(slot, c.at, c.at + w);
    r := Reply(true, count + 1, c.limit);
  }

  // ---------- the unbounded log ----------

  /** What is left of a log in the window (cutoff, infinity). */
  function After(log: Log, cutoff: int): Log {
    map m | m in log && cutoff < log[m] :: log[m]
  }

  /** The members with a score in (lo, hi]. */
  function Between(log: Log, lo: int, hi: int): set<Name> {
    set m | m in log && lo < log[m] <= hi
  }

  ghost predicate PartOf(a: Log, b: Log) {
    forall m | m in a :: m in b && b[m] == a[m]
  }

  lemma PartSize(a: Log, b: Log)
    requires PartOf(a, b)
    ensures |a| <= |b|
  {
    assert |a| == |a.Keys| && |b| == |b.Keys|;
    SubsetSize(a.Keys, b.Keys);
  }

  /** The stored set is a part of the full log, and the part that is still in the window outlives its use. */
  ghost predicate Tracks(z: Slot, w: nat, clock: int, log: Log) {
    && 0 <= clock
    && (forall m | m in log :: 0 <= log[m] <= clock)
    && (z.Some? ==> PartOf(z.value.value, log))
    && (forall m | m in log && clock - w < log[m] ::
          z.Some? && m in z.value.value && Redis.Live(z, log[m] + w - 1))
  }

  /** Reading the expiring store shows no more than the caller's window of the full log, and no less than Redis's own. */
  lemma TrimTracks(z: Slot, w: nat, clock: int, log: Log, at: int, now: int, kept: Log)
    requires Tracks(z, w, clock, log) && clock <= at && 0 <= now <= at
    requires kept == Trim(View(z, at), now - w)
    ensures PartOf(After(log, at - w), kept) && PartOf(kept, After(log, now - w)) && PartOf(kept, log)
    ensures Tracks(Replace(z, at, kept), w, at, log)
  {
    forall m | m in log && at - w < log[m]
      ensures m in kept && |kept| != 0 && Redis.Live(z, at)
    {
      assert m in kept.Keys;
    }
  }

  lemma AddTracks(z: Slot, w: nat, at: int, log: Log, member: Name, now: int, kept: Log)
    requires Tracks(z, w, at, log) && member !in log && 0 <= now <= at
    requires PartOf(After(log, at - w), kept) && PartOf(kept, log)
    ensures Tracks(Redis.Expire(Redis.Write(z, at, kept[member := now]), at, at + w), w, at, log[member := now])
  {
  }

  /** How many members the script counted. */
  function Seen(r: Reply): int {
    if r.allowed then r.count - 1 else r.count
  }

  lemma ScriptTracks(z: Slot, w: nat, clock: int, log: Log, c: Call)
    requires Tracks(z, w, clock, log) && clock <= c.at && 0 <= c.now <= c.at && c.item !in log
    ensures
      var (z', r) := Script(z, w, c);
      && r.allowed == (Seen(r) < c.limit)
      && |After(log, c.at - w)| <= Seen(r) <= |After(log, c.now - w)|
      && Tracks(z', w, c.at, if r.allowed then log[c.item := c.now] else log)
  {
    hide Tracks, Trim, View, After, Replace, Redis.Write, Redis.Expire;
    var kept := Trim(View(z, c.at), c.now - w);
    TrimTracks(z, w, clock, log, c.at, c.now, kept);
    PartSize(After(log, c.at - w), kept);
    PartSize(kept, After(log, c.now - w));
    AddTracks(Replace(z, c.at, kept), w, c.at, log, c.item, c.now, kept);
  }

  // ---------- runs: any interleaving of calls, in the order in which the scripts ran ----------

  type Calls = Run<Call>

  ghost predicate Used(run: Calls, key: Scope, member: Name) {
    run.Then? && (Used(run.before, key, member) || (run.last.key == key && run.last.item == member))
  }

  /** Redis's clock never runs back between two calls on the key, they are punctual, and no member is presented twice. */
  ghost predicate Valid(late: nat, run: Calls, key: Scope) {
    run.Then? ==>
      && Valid(late, run.before, key)
      && (run.last.key == key ==>
            && Clock(run.before, key) <= run.last.at
            && Punctual(late, run.last.now, run.last.at)
            && !Used(run.before, key, run.last.item))
  }

  ghost function State(w: nat, run: Calls): Store {
    if run.Start? then map[] else Step(State(w, run.before), w, run.last).0
  }

  /** The reply to call `c` made after `run`. */
  ghost function ReplyTo(w: nat, run: Calls, c: Call): Reply {
    Script(Redis.SlotOf(State(w, run), c.key), w, c).1
  }

  /** Everything ever admitted under a key: no trimming, no expiry. */
  ghost function Admitted(w: nat, run: Calls, key: Scope): Log {
    if run.Start? then map[] else
      var earlier := Admitted(w, run.before, key);
      if run.last.key == key && ReplyTo(w, run.before, run.last).allowed
      then earlier[run.last.item := run.last.now] else earlier
  }

  lemma {:induction false} AdmittedWereUsed(w: nat, run: Calls, key: Scope)
    ensures forall m | m in Admitted(w, run, key) :: Used(run, key, m)
  {
    if run.Then? {
      AdmittedWereUsed(w, run.before, key);
    }
  }

  lemma SlotAfter(w: nat, run: Calls, key: Scope)
    requires run.Then?
    ensures
      var before := State(w, run.before);
      Redis.SlotOf(State(w, run), key) ==
      if run.last.key == key then Script(Redis.SlotOf(before, key), w, run.last).0 else Redis.SlotOf(before, key)
  {
    hide Script, Redis.SlotOf, Redis.Store;
    var s := State(w, run.before);
    Redis.StoreThenRead(s, run.last.key, Script(Redis.SlotOf(s, run.last.key), w, run.last).0, key);
  }

  lemma NothingTracked(w: nat, key: Scope)
    ensures Tracks(Redis.SlotOf(State(w, Start), key), w, 0, map[])
  {
  }

  lemma {:induction false} RunTracks(late: nat, w: nat, run: Calls, key: Scope)
    requires Valid(late, run, key)
    ensures Tracks(Redis.SlotOf(State(w, run), key), w, Clock(run, key), Admitted(w, run, key))
  {
    hide Script, Redis.SlotOf, State, Tracks, After;
    if run.Start? {
      NothingTracked(w, key);
    } else {
      RunTracks(late, w, run.before, key);
      SlotAfter(w, run, key);
      if run.last.key == key {
        AdmittedWereUsed(w, run.before, key);
        var slot, log := Redis.SlotOf(State(w, run.before), key), Admitted(w, run.before, key);
        assert run.last.item !in log;
        ScriptTracks(slot, w, Clock(run.before, key), log, run.last);
      }
    }
  }

  /**
   PEXPIRE and trimming are invisible: a reply counts at most the caller's window of an unbounded log and at least
   Redis's window of it, which for a call without delay are one and the same.
   */
  lemma EveryReplyMatchesTheLog(late: nat, w: nat, run: Calls, c: Call)
    requires Valid(late, Then(run, c), c.key)
    ensures
      var r, log := ReplyTo(w, run, c), Admitted(w, run, c.key);
      && r.allowed == (Seen(r) < c.limit)
      && |After(log, c.at - w)| <= Seen(r) <= |After(log, c.now - w)|
  {
    hide Script, Redis.SlotOf, State, Tracks, After;
    assert Then(run, c).before == run && Then(run, c).last == c;
    RunTracks(late, w, run, c.key);
    AdmittedWereUsed(w, run, c.key);
    ScriptTracks(Redis.SlotOf(State(w, run), c.key), w, Clock(run, c.key), Admitted(w, run, c.key), c);
  }

  lemma AdmittedEarlier(late: nat, w: nat, run: Calls, key: Scope)
    requires Valid(late, run, key)
    ensures forall m | m in Admitted(w, run, key) :: 0 <= Admitted(w, run, key)[m] <= Clock(run, key)
  {
    hide Admitted, State, Redis.SlotOf;
    RunTracks(late, w, run, key);
  }

  /** Admitting one more member, when fewer than `limit` are in Redis's window, overfills no window shorter by the delay. */
  lemma OneMoreFits(late: nat, log: Log, w: nat, at: int, now: int, member: Name, limit: nat, t: int)
    requires member !in log && |After(log, at - w)| < limit && at <= now + late
    requires |Between(log, t - w + late, t)| <= limit
    ensures |Between(log[member := now], t - w + late, t)| <= limit
  {
    var grown, recent := Between(log[member := now], t - w + late, t), After(log, at - w);
    if t - w + late < now <= t {
      assert grown <= recent.Keys + {member};
      SubsetSize(grown, recent.Keys + {member});
    } else {
      SubsetSize(grown, Between(log, t - w + late, t));
    }
  }

  /**
   With no limit on a key above `limit` and calls at most `late` behind Redis's clock, no window of length w - late
   ever holds more than `limit`; without delays, none of length w.
   */
  lemma {:induction false} WindowNeverExceeded(late: nat, w: nat, run: Calls, key: Scope, limit: nat, t: int)
    requires Valid(late, run, key) && Bounded(run, key, limit)
    ensures |Between(Admitted(w, run, key), t - w + late, t)| <= limit
  {
    hide Script, Redis.SlotOf, State, ReplyTo, After;
    if run.Then? {
      var c := run.last;
      assert run == Then(run.before, c);
      WindowNeverExceeded(late, w, run.before, key, limit, t);
      if c.key == key && ReplyTo(w, run.before, c).allowed {
        EveryReplyMatchesTheLog(late, w, run.before, c);
        AdmittedWereUsed(w, run.before, key);
        OneMoreFits(late, Admitted(w, run.before, key), w, c.at, c.now, c.item, limit, t);
      }
    }
  }

  /**
   Under limits of at most c.limit and without delays, `c` is refused exactly when that many admitted requests
   lie in its window.
   */
  lemma RefusedOnlyWhenFull(w: nat, run: Calls, c: Call)
    requires Valid(0, Then(run, c), c.key) && 0 <= c.limit && Bounded(run, c.key, c.limit)
    ensures
      !ReplyTo(w, run, c).allowed <==>
      |Between(Admitted(w, run, c.key), c.now - w, c.now)| == c.limit
  {
    hide Script, ReplyTo, State, After, Between, Admitted;
    assert Then(run, c).before == run && Then(run, c).last == c;
    EveryReplyMatchesTheLog(0, w, run, c);
    WindowNeverExceeded(0, w, run, c.key, c.limit, c.now);
    AdmittedEarlier(0, w, run, c.key);
    RecentIsBetween(Admitted(w, run, c.key), c.now - w, c.now);
  }

  lemma RecentIsBetween(log: Log, cutoff: int, now: int)
    requires forall m | m in log :: log[m] <= now
    ensures |After(log, cutoff)| == |Between(log, cutoff, now)|
  {
    var recent, between := After(log, cutoff), Between(log, cutoff, now);
    assert forall m | m in recent :: m in between;
    assert forall m | m in between :: m in recent;
    assert recent.Keys == between;
  }

  // ---------- the bound is tight ----------

  /** A member that left every window is gone: a script that finds nothing in its window leaves its own member alone. */
  lemma AloneInWindow(z: Slot, w: nat, clock: int, log: Log, c: Call)
    requires Tracks(z, w, clock, log) && clock <= c.at && 0 <= c.now <= c.at
    requires (forall m | m in log :: log[m] <= c.now - w) && 0 < c.limit && 0 < w
    ensures Script(z, w, c).0 == Some(Redis.Entry(map[c.item := c.now], Some(c.at + w)))
    ensures Script(z, w, c).1.allowed
  {
    var kept := Trim(View(z, c.at), c.now - w);
    TrimTracks(z, w, clock, log, c.at, c.now, kept);
    assert kept.Keys == {};
    assert kept == map[];
    assert map[][c.item := c.now] == map[c.item := c.now];
  }

  lemma RoomBesideOne(z: Slot, w: nat, c: Call, m: Name, score: int)
    requires z == Some(Redis.Entry(map[m := score], Some(c.at + w))) && 1 < c.limit && 0 < w
    ensures Script(z, w, c).1.allowed
  {
    var kept := Trim(View(z, c.at), c.now - w);
    assert kept.Keys <= {m};
    SubsetSize(kept.Keys, {m});
  }

  ghost function FourCalls(late: nat, w: nat, key: Scope, a: Name, b: Name, c: Name, d: Name): Calls {
    var two := Then(Then(Start, Arrival(key, 2, 0, 0, a)), Arrival(key, 2, 0, 0, b));
    Then(Then(two, Arrival(key, 2, w, w, c)), Arrival(key, 2, w, w - late, d))
  }

  /** All there is to know of a run on one key with limits of at most 2. */
  ghost predicate Reached(late: nat, w: nat, run: Calls, key: Scope, clock: int, used: set<Name>, log: Log) {
    && Valid(late, run, key) && Bounded(run, key, 2) && Clock(run, key) == clock
    && (forall m :: Used(run, key, m) <==> m in used) && Admitted(w, run, key) == log
  }

  lemma Admit(late: nat, w: nat, run: Calls, key: Scope, clock: int, used: set<Name>, log: Log, c: Call)
    requires Reached(late, w, run, key, clock, used, log)
    requires c.key == key && c.limit <= 2 && clock <= c.at && Punctual(late, c.now, c.at) && c.item !in used
    requires ReplyTo(w, run, c).allowed
    ensures Reached(late, w, Then(run, c), key, c.at, used + {c.item}, log[c.item := c.now])
  {
    hide ReplyTo;
  }

  lemma RoomInLog(late: nat, w: nat, run: Calls, key: Scope, clock: int, used: set<Name>, log: Log, c: Call)
    requires Reached(late, w, run, key, clock, used, log)
    requires c.key == key && clock <= c.at && Punctual(late, c.now, c.at) && c.item !in used && |log| < c.limit
    ensures ReplyTo(w, run, c).allowed
  {
    hide ReplyTo, Admitted, Used;
    var longer := Then(run, c);
    assert longer.before == run && longer.last == c;
    EveryReplyMatchesTheLog(late, w, run, c);
    PartSize(After(log, c.now - w), log);
  }

  lemma FirstThree(late: nat, w: nat, key: Scope, a: Name, b: Name, c: Name, d: Name)
    requires |{a, b, c, d}| == 4 && late <= w && 0 < w
    ensures
      var three := FourCalls(late, w, key, a, b, c, d).before;
      && Reached(late, w, three, key, w, {a, b, c}, map[a := 0, b := 0, c := w])
      && Redis.SlotOf(State(w, three), key) == Some(Redis.Entry(map[c := w], Some(w + w)))
  {
    FourDistinct(a, b, c, d);
    var one: Calls := Then(Start, Arrival(key, 2, 0, 0, a));
    var two := Then(one, Arrival(key, 2, 0, 0, b));
    var three := Then(two, Arrival(key, 2, w, w, c));
    assert Reached(late, w, Start, key, 0, {}, map[]);
    hide Script, Redis.SlotOf, State, Tracks, ReplyTo, Reached;
    RoomInLog(late, w, Start, key, 0, {}, map[], one.last);
    Admit(late, w, Start, key, 0, {}, map[], one.last);
    assert map[][a := 0] == map[a := 0] && {} + {a} == {a};
    RoomInLog(late, w, one, key, 0, {a}, map[a := 0], two.last);
    Admit(late, w, one, key, 0, {a}, map[a := 0], two.last);
    assert map[a := 0][b := 0] == map[a := 0, b := 0] && {a} + {b} == {a, b};
    TrackedLog(late, w, two, key, 0, {a, b}, map[a := 0, b := 0]);
    SlotAfter(w, three, key);
    ThirdCall(Redis.SlotOf(State(w, two), key), w, map[a := 0, b := 0], three.last);
    ReplyIsTheScripts(w, two, three.last);
    Admit(late, w, two, key, 0, {a, b}, map[a := 0, b := 0], three.last);
    assert map[a := 0, b := 0][c := w] == map[a := 0, b := 0, c := w] && {a, b} + {c} == {a, b, c};
  }

  lemma TrackedLog(late: nat, w: nat, run: Calls, key: Scope, clock: int, used: set<Name>, log: Log)
    requires Reached(late, w, run, key, clock, used, log)
    ensures Tracks(Redis.SlotOf(State(w, run), key), w, clock, log)
  {
    hide Tracks, State, Admitted;
    RunTracks(late, w, run, key);
  }

  lemma ReplyIsTheScripts(w: nat, run: Calls, c: Call)
    ensures ReplyTo(w, run, c) == Script(Redis.SlotOf(State(w, run), c.key), w, c).1
  {
  }

  lemma ThirdCall(z: Slot, w: nat, log: Log, c: Call)
    requires Tracks(z, w, 0, log) && c.at == c.now == w && c.limit == 2 && 0 < w
    requires forall m | m in log :: log[m] == 0
    ensures Script(z, w, c).0 == Some(Redis.Entry(map[c.item := w], Some(w + w))) && Script(z, w, c).1.allowed
  {
    AloneInWindow(z, w, 0, log, c);
  }

  lemma FourDistinct(a: Name, b: Name, c: Name, d: Name)
    requires |{a, b, c, d}| == 4
    ensures a != b && a != c && a != d && b != c && b != d && c != d
  {
    if a == b || a == c || a == d {
      SubsetSize({a, b, c, d}, {b, c, d});
    } else if b == c || b == d {
      SubsetSize({a, b, c, d}, {a, c, d});
    } else if c == d {
      SubsetSize({a, b, c, d}, {a, b, d});
    }
  }

  /** Every allowed delay really costs that much: a window longer by one millisecond can hold three under a limit of two. */
  lemma DelayBoundIsTight(late: nat, w: nat, key: Scope, a: Name, b: Name, c: Name, d: Name)
    requires |{a, b, c, d}| == 4 && late <= w && 0 < w
    ensures
      var run, t := FourCalls(late, w, key, a, b, c, d), w - late;
      && Valid(late, run, key) && Bounded(run, key, 2)
      && |Between(Admitted(w, run, key), t - w + late - 1, t)| > 2
  {
    hide Script, Redis.SlotOf, State, Admitted, Used, Between, ReplyTo;
    FourDistinct(a, b, c, d);
    FirstThree(late, w, key, a, b, c, d);
    var run, log := FourCalls(late, w, key, a, b, c, d), map[a := 0, b := 0, c := w];
    RoomBesideOne(Redis.SlotOf(State(w, run.before), key), w, run.last, c, w);
    ReplyIsTheScripts(w, run.before, run.last);
    Admit(late, w, run.before, key, w, {a, b, c}, log, run.last);
    ThreeBetween(log[d := w - late], a, b, d, w - late);
  }

  lemma ThreeBetween(log: Log, a: Name, b: Name, d: Name, t: int)
    requires a in log && b in log && d in log && 0 <= log[a] <= t && 0 <= log[b] <= t && 0 <= log[d] <= t
    requires a != b && a != d && b != d
    ensures |Between(log, -1, t)| > 2
  {
    SubsetSize({a, b, d}, Between(log, -1, t));
  }
}
