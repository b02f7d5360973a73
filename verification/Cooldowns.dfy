/**
 Failure counters and cooldown flags of routing/cooldowns.py. A failure is up to four commands, and those of other requests
 may come between them. Times are seconds.
 */
module Cooldowns {
  import opened Prelude
  import Redis

  const IDLE := 300

  /** Keep `allowed` failures below the threshold; pause for `pause` seconds at it. */
  datatype Policy = Policy(allowed: int, pause: int)

  /** What Redis holds for one deployment. */
  datatype Marks = Marks(failures: Redis.Slot<int>, active: Redis.Slot<bool>)

  function Read(failures: Redis.Slot<int>, now: int): int {
    Redis.Get(failures, now).GetOr(0)
  }

  /** INCR. */
  function Increment(failures: Redis.Slot<int>, now: int): Redis.Slot<int> {
    Redis.Write(failures, now, Read(failures, now) + 1)
  }

  /** EXPIRE. */
  function Renew(failures: Redis.Slot<int>, now: int): Redis.Slot<int> {
    Redis.Expire(failures, now, now + IDLE)
  }

  /** SETEX. */
  function Paused(p: Policy, now: int): Redis.Slot<bool> {
    Some(Redis.Entry(true, Some(now + p.pause)))
  }

  datatype Event = Failed(now: int) | Succeeded(now: int)

  /** increment_failure and maybe_cooldown, or reset_cooldown, at one instant; and whether a cooldown starts. */
  function Step(m: Marks, p: Policy, e: Event): (Marks, bool) {
    match e
    case Succeeded(_) => (m.(failures := None), false)
    case Failed(now) =>
      if Read(m.failures, now) + 1 >= p.allowed
      then (Marks(None, Paused(p, now)), true)
      else (m.(failures := Renew(Increment(m.failures, now), now)), false)
  }

  class Tracker {
    var failures: map<Name, Redis.Entry<int>>
    var active: map<Name, Redis.Entry<bool>>

    ghost function MarksOf(d: Name): Marks
      reads this
    {
      Marks(Redis.SlotOf(failures, d), Redis.SlotOf(active, d))
    }

    /** Two commands at two times, when no other one on the key comes between them. */
    method IncrementFailure(d: Name, at: int, later: int) returns (count: int)
      modifies this`failures
      ensures count == Read(old(MarksOf(d)).failures, at) + 1
      ensures failures == Redis.Store(old(failures), d, Renew(Increment(Redis.SlotOf(old(failures), d), at), later))
    {
      var slot := Redis.SlotOf(failures, d);
      count := Read(slot, at) + 1;
      slot := Redis.Write(slot, at, count);
      slot := Redis.Expire(slot, later, later + IDLE);
      failures := Redis.Store(failures, d, slot);
    }

    method MaybeCooldown(d: Name, count: int, p: Policy, now: int) returns (paused: bool)
      modifies this
      ensures paused == (count >= p.allowed)
      ensures failures == if paused then Redis.Store(old(failures), d, None) else old(failures)
      ensures active == if paused then Redis.Store(old(active), d, Paused(p, now)) else old(active)
    {
      paused := count >= p.allowed;
      if paused {
        active := Redis.Store(active, d, Some(Redis.Entry(true, Some(now + p.pause))));
        failures := Redis.Store(failures, d, None);
      }
    }

    /** What the route does after a failed or a successful visit. */
    method Record(d: Name, p: Policy, e: Event) returns (paused: bool)
      modifies this
      ensures (MarksOf(d), paused) == Step(old(MarksOf(d)), p, e)
      ensures forall other | other != d :: MarksOf(other) == old(MarksOf(other))
    {
      paused := false;
      if e.Succeeded? {
        failures := Redis.Store(failures, d, None);
      } else {
        var count := IncrementFailure(d, e.now, e.now);
        paused := MaybeCooldown(d, count, p, e.now);
      }
    }

    method IsCooledDown(d: Name, now: int) returns (cooled: bool)
      ensures cooled == Redis.Live(MarksOf(d).active, now)
    {
      cooled := Redis.Live(Redis.SlotOf(active, d), now);
    }
  }

  // ---------- interleavings of commands on one deployment ----------

  /** `Decides` is a SETEX at the threshold and nothing below it; `Drops` is the DEL after it, `Clears` the DEL of a success. */
  datatype Command =
    | Counts(visit: Name, now: int)
    | Renews(visit: Name, now: int)
    | Decides(visit: Name, now: int)
    | Drops(visit: Name, now: int)
    | Clears(now: int)

  type Commands = Run<Command>

  datatype Stage = Counted | Renewed | Started

  /** A failure in flight: the count its INCR returned, and how far it is. */
  datatype Failure = Failure(count: int, stage: Stage)

  datatype State = State(marks: Marks, flight: map<Name, Failure>)

  ghost predicate Possible(s: State, c: Command) {
    match c
    case Counts(v, _) => v !in s.flight
    case Renews(v, _) => v in s.flight && s.flight[v].stage == Counted
    case Decides(v, _) => v in s.flight && s.flight[v].stage == Renewed
    case Drops(v, _) => v in s.flight && s.flight[v].stage == Started
    case Clears(_) => true
  }

  ghost predicate Starts(s: State, p: Policy, c: Command) {
    c.Decides? && c.visit in s.flight && s.flight[c.visit].count >= p.allowed
  }

  ghost function Do(s: State, p: Policy, c: Command): State {
    if !Possible(s, c) then s else
      match c
      case Counts(v, now) =>
        State(s.marks.(failures := Increment(s.marks.failures, now)),
              s.flight[v := Failure(Read(s.marks.failures, now) + 1, Counted)])
      case Renews(v, now) =>
        State(s.marks.(failures := Renew(s.marks.failures, now)), s.flight[v := s.flight[v].(stage := Renewed)])
      case Decides(v, now) =>
        if Starts(s, p, c)
        then State(s.marks.(active := Paused(p, now)), s.flight[v := s.flight[v].(stage := Started)])
        else State(s.marks, s.flight - {v})
      case Drops(v, _) => State(s.marks.(failures := None), s.flight - {v})
      case Clears(_) => State(s.marks.(failures := None), s.flight)
  }

  ghost function After(p: Policy, run: Commands): State {
    if run.Start? then State(Marks(None, None), map[]) else Do(After(p, run.before), p, run.last)
  }

  /** The clock never runs back, and each failure counts, renews, decides and drops in this order. */
  ghost predicate Legal(p: Policy, run: Commands, now: int) {
    run.Then? ==>
      && run.last.now <= now && Legal(p, run.before, run.last.now)
      && Possible(After(p, run.before), run.last)
  }

  /** The failures counted since the counter was last deleted or ran out, and the last EXPIRE among them. */
  datatype Row = Row(count: nat, renewed: Option<int>)

  ghost function RowAt(r: Row, now: int): Row {
    if r.renewed.Some? && r.renewed.value + 300 <= now then Row(0, None) else r
  }

  ghost function RowOf(run: Commands): Row {
    if run.Start? then Row(0, None) else
      var r := RowAt(RowOf(run.before), run.last.now);
      match run.last
      case Counts(_, _) => Row(r.count + 1, r.renewed)
      case Renews(_, now) => if r.count > 0 then Row(r.count, Some(now)) else r
      case Decides(_, _) => r
      case Drops(_, _) => Row(0, None)
      case Clears(_) => Row(0, None)
  }

  /** The row that v's latest INCR found. */
  ghost function RowFound(run: Commands, v: Name): nat {
    if run.Start? then 0
    else if run.last.Counts? && run.last.visit == v then RowAt(RowOf(run.before), run.last.now).count
    else RowFound(run.before, v)
  }

  ghost predicate Holds(failures: Redis.Slot<int>, r: Row, now: int) {
    && Read(failures, now) == r.count
    && (r.count > 0 ==>
          && failures.Some?
          && failures.value.deadline == if r.renewed.Some? then Some(r.renewed.value + IDLE) else None)
    && (r.count == 0 ==> r.renewed.None? && !Redis.Live(failures, now))
  }

  lemma {:induction false} CounterIsTheRow(p: Policy, run: Commands, now: int)
    requires Legal(p, run, now)
    ensures Holds(After(p, run).marks.failures, RowAt(RowOf(run), now), now)
  {
    if run.Then? {
      CounterIsTheRow(p, run.before, run.last.now);
    }
  }

  /** In every interleaving, the count a failure in flight was told is one more than the row its INCR found. */
  lemma {:induction false} CountsAreRows(p: Policy, run: Commands, now: int, v: Name)
    requires Legal(p, run, now) && v in After(p, run).flight
    ensures After(p, run).flight[v].count == RowFound(run, v) + 1
  {
    var t := run.last.now;
    if run.last.Counts? && run.last.visit == v {
      CounterIsTheRow(p, run.before, t);
    } else {
      CountsAreRows(p, run.before, t, v);
    }
  }

  /** In every interleaving, a failure starts a cooldown exactly when its own INCR completed a row of `allowed`. */
  lemma StartsIffOwnCount(p: Policy, run: Commands, v: Name, now: int)
    requires Legal(p, Then(run, Decides(v, now)), now)
    ensures Starts(After(p, run), p, Decides(v, now)) <==> RowFound(run, v) + 1 >= p.allowed
  {
    assert Then(run, Decides(v, now)).before == run && Then(run, Decides(v, now)).last == Decides(v, now);
    CountsAreRows(p, run, now, v);
  }

  ghost function AtThreshold(s: State, p: Policy): set<Name> {
    set v | v in s.flight && s.flight[v].count >= p.allowed
  }

  ghost function Counter(s: State): int {
    if s.marks.failures.None? then 0 else s.marks.failures.value.value
  }

  /** What the counter is above the threshold is in flight. */
  ghost predicate ExcessInFlight(s: State, p: Policy) {
    0 <= Counter(s) <= (if p.allowed < 1 then 0 else p.allowed - 1) + |AtThreshold(s, p)|
  }

  lemma CountKeepsExcess(s: State, p: Policy, v: Name, now: int)
    requires ExcessInFlight(s, p) && v !in s.flight
    ensures ExcessInFlight(Do(s, p, Counts(v, now)), p)
  {
    var after := Do(s, p, Counts(v, now));
    var n := Read(s.marks.failures, now) + 1;
    assert AtThreshold(after, p) == AtThreshold(s, p) + if n >= p.allowed then {v} else {};
    assert Counter(after) == n && 1 <= n <= Counter(s) + 1;
  }

  lemma StepKeepsExcess(s: State, p: Policy, c: Command)
    requires ExcessInFlight(s, p) && Possible(s, c)
    ensures ExcessInFlight(Do(s, p, c), p)
  {
    if c.Counts? {
      CountKeepsExcess(s, p, c.visit, c.now);
    } else if c.Renews? || c.Decides? {
      assert AtThreshold(Do(s, p, c), p) == AtThreshold(s, p);
    }
  }

  lemma {:induction false} ExcessIsInFlight(p: Policy, run: Commands, now: int)
    requires Legal(p, run, now)
    ensures ExcessInFlight(After(p, run), p)
  {
    hide Do, Possible;
    if run.Then? {
      ExcessIsInFlight(p, run.before, run.last.now);
      StepKeepsExcess(After(p, run.before), p, run.last);
    } else {
      assert AtThreshold(After(p, run), p) == {};
    }
  }

  /** In every interleaving, the counter is below the threshold by all but the failures in flight. */
  lemma CounterIsBounded(p: Policy, run: Commands, now: int)
    requires Legal(p, run, now)
    ensures Counter(After(p, run)) < (if p.allowed < 1 then 1 else p.allowed) + |After(p, run).flight|
  {
    ExcessIsInFlight(p, run, now);
    var s := After(p, run);
    SubsetSize(AtThreshold(s, p), s.flight.Keys);
    assert |s.flight.Keys| == |s.flight|;
  }

  /** Some cooldown of the run that started less than `pause` before now. */
  ghost predicate PausedSince(p: Policy, run: Commands, now: int) {
    run.Then? && (
      || (Starts(After(p, run.before), p, run.last) && now < run.last.now + p.pause)
      || PausedSince(p, run.before, now))
  }

  lemma {:induction false} PausesNest(p: Policy, run: Commands, at: int, now: int)
    requires Legal(p, run, at)
    ensures PausedSince(p, run, now) ==> run.Then? && now < run.last.now + p.pause
  {
    if run.Then? {
      PausesNest(p, run.before, run.last.now, now);
    }
  }

  /** A deployment is cooled down exactly while one of its cooldowns lasts; successes do not end it. */
  lemma {:induction false} CooledDownIff(p: Policy, run: Commands, at: int, now: int)
    requires Legal(p, run, at) && at <= now
    ensures Redis.Live(After(p, run).marks.active, now) <==> PausedSince(p, run, now)
  {
    if run.Then? {
      CooledDownIff(p, run.before, run.last.now, now);
      PausesNest(p, run.before, run.last.now, now);
    }
  }

  lemma Follows(p: Policy, run: Commands, s: State, c: Command, later: int)
    requires Legal(p, run, c.now) && After(p, run) == s && Possible(s, c) && c.now <= later
    ensures Legal(p, Then(run, c), later) && After(p, Then(run, c)) == Do(s, p, c)
  {
    assert Then(run, c).before == run && Then(run, c).last == c;
  }

  // ---------- three failures at once ----------

  ghost function Overlapping(a: Name, b: Name, c: Name): Commands {
    var counted := Then(Then(Then(Start, Counts(a, 0)), Counts(b, 0)), Counts(c, 0));
    Then(Then(Then(counted, Renews(a, 0)), Renews(b, 0)), Renews(c, 0))
  }

  lemma CountedTo(p: Policy, run: Commands, s: State, v: Name, n: int)
    requires Legal(p, run, 0) && After(p, run) == s && v !in s.flight && Read(s.marks.failures, 0) == n
    ensures
      var next := Then(run, Counts(v, 0));
      && Legal(p, next, 0) && After(p, next).flight == s.flight[v := Failure(n + 1, Counted)]
      && Read(After(p, next).marks.failures, 0) == n + 1
  {
    Follows(p, run, s, Counts(v, 0), 0);
  }

  lemma RenewedTo(p: Policy, run: Commands, s: State, v: Name)
    requires Legal(p, run, 0) && After(p, run) == s && v in s.flight && s.flight[v].stage == Counted
    ensures
      var next := Then(run, Renews(v, 0));
      Legal(p, next, 0) && After(p, next).flight == s.flight[v := s.flight[v].(stage := Renewed)]
  {
    Follows(p, run, s, Renews(v, 0), 0);
  }

  lemma OverlappingFlight(p: Policy, a: Name, b: Name, c: Name)
    requires a != b && b != c && a != c
    ensures Legal(p, Overlapping(a, b, c), 0)
    ensures
      After(p, Overlapping(a, b, c)).flight ==
      map[a := Failure(1, Renewed), b := Failure(2, Renewed), c := Failure(3, Renewed)]
  {
    var one := Then(Start, Counts(a, 0));
    var counted := Then(Then(one, Counts(b, 0)), Counts(c, 0));
    CountedTo(p, Start, After(p, Start), a, 0);
    hide Legal, After, Read;
    CountedTo(p, one, After(p, one), b, 1);
    CountedTo(p, Then(one, Counts(b, 0)), After(p, Then(one, Counts(b, 0))), c, 2);
    RenewedTo(p, counted, After(p, counted), a);
    RenewedTo(p, Then(counted, Renews(a, 0)), After(p, Then(counted, Renews(a, 0))), b);
    var two := Then(Then(counted, Renews(a, 0)), Renews(b, 0));
    RenewedTo(p, two, After(p, two), c);
  }

  lemma DecidedTo(p: Policy, run: Commands, s: State, v: Name)
    requires Legal(p, run, 0) && After(p, run) == s && v in s.flight && s.flight[v].stage == Renewed
    ensures
      var next := Then(run, Decides(v, 0));
      && Starts(s, p, Decides(v, 0)) == (s.flight[v].count >= p.allowed) && Legal(p, next, 0)
      && After(p, next).flight ==
         if s.flight[v].count >= p.allowed then s.flight[v := s.flight[v].(stage := Started)] else s.flight - {v}
  {
    Follows(p, run, s, Decides(v, 0), 0);
  }

  /** With a threshold of two and three failures in flight at once, the third starts a cooldown as the second does. */
  lemma OverlappingFailuresStartTwice(p: Policy, a: Name, b: Name, c: Name)
    requires a != b && b != c && a != c && p.allowed == 2
    ensures
      var run := Then(Overlapping(a, b, c), Decides(a, 0));
      var later := Then(Then(run, Decides(b, 0)), Drops(b, 0));
      && Legal(p, Then(later, Decides(c, 0)), 0)
      && !Starts(After(p, Overlapping(a, b, c)), p, Decides(a, 0))
      && Starts(After(p, run), p, Decides(b, 0)) && Starts(After(p, later), p, Decides(c, 0))
  {
    hide Overlapping, Legal, After, Starts;
    OverlappingFlight(p, a, b, c);
    var run := Then(Overlapping(a, b, c), Decides(a, 0));
    DecidedTo(p, Overlapping(a, b, c), After(p, Overlapping(a, b, c)), a);
    DecidedTo(p, run, After(p, run), b);
    var decided := Then(run, Decides(b, 0));
    var s := After(p, decided);
    assert s.flight == map[b := Failure(2, Started), c := Failure(3, Renewed)];
    Follows(p, decided, s, Drops(b, 0), 0);
    var later := Then(decided, Drops(b, 0));
    assert Do(s, p, Drops(b, 0)).flight == s.flight - {b};
    DecidedTo(p, later, After(p, later), c);
  }

  // ---------- one visit after the other ----------

  type Events = Run<Event>

  ghost predicate Ordered(run: Events) {
    run.Then? ==> Ordered(run.before) && (run.before.Then? ==> run.before.last.now <= run.last.now)
  }

  ghost function StateOf(p: Policy, run: Events): Marks {
    if run.Start? then Marks(None, None) else Step(StateOf(p, run.before), p, run.last).0
  }

  ghost predicate Triggers(p: Policy, run: Events, e: Event) {
    Step(StateOf(p, run), p, e).1
  }

  ghost predicate SoonAfter(run: Events, now: int) {
    run.Then? && now < run.last.now + 300
  }

  /** The last n events are failures less than 300 seconds apart, none of which started a cooldown. */
  ghost predicate UnbrokenRow(p: Policy, run: Events, n: nat) {
    n == 0 || (
      && run.Then? && run.last.Failed? && !Triggers(p, run.before, run.last)
      && UnbrokenRow(p, run.before, n - 1)
      && (n > 1 ==> SoonAfter(run.before, run.last.now)))
  }

  ghost function Count(p: Policy, run: Events): int {
    if StateOf(p, run).failures.None? then 0 else StateOf(p, run).failures.value.value
  }

  /** When each failure is over before the next command, the counter is the unbroken row. */
  lemma {:induction false} CountIsTheRow(p: Policy, run: Events, n: nat)
    requires Ordered(run)
    ensures 0 <= Count(p, run) < (if p.allowed <= 1 then 1 else p.allowed)
    ensures Count(p, run) > 0 ==> run.Then? && StateOf(p, run).failures.value.deadline == Some(run.last.now + IDLE)
    ensures UnbrokenRow(p, run, n) <==> n <= Count(p, run)
  {
    if run.Then? {
      CountIsTheRow(p, run.before, if n > 0 then n - 1 else 0);
      if run.last.Failed? {
        var live := Redis.Live(StateOf(p, run.before).failures, run.last.now);
        assert Count(p, run.before) > 0 ==> live == SoonAfter(run.before, run.last.now);
      }
    }
  }

  /** Then a cooldown starts exactly at the failure that completes a row of `allowed` (at least one). */
  lemma CooldownStartsExactlyAt(p: Policy, run: Events, now: int)
    requires Ordered(Then(run, Failed(now)))
    ensures
      Triggers(p, run, Failed(now)) <==>
      p.allowed <= 1 || (UnbrokenRow(p, run, p.allowed - 1) && SoonAfter(run, now))
    ensures !Triggers(p, run, Succeeded(now))
  {
    CountIsTheRow(p, run, if p.allowed > 1 then p.allowed - 1 else 0);
  }

  /** The commands of these events, each at one instant and with nothing in between. */
  ghost function CommandsOf(p: Policy, run: Events, v: Name): Commands {
    if run.Start? then Start else
      var earlier := CommandsOf(p, run.before, v);
      match run.last
      case Succeeded(now) => Then(earlier, Clears(now))
      case Failed(now) =>
        var decided := Then(Then(Then(earlier, Counts(v, now)), Renews(v, now)), Decides(v, now));
        if Triggers(p, run.before, run.last) then Then(decided, Drops(v, now)) else decided
  }

  lemma FailureIsItsCommands(p: Policy, s: State, v: Name, now: int)
    requires s.flight == map[]
    ensures
      var counted := Do(s, p, Counts(v, now));
      var renewed := Do(counted, p, Renews(v, now));
      var decided := Do(renewed, p, Decides(v, now));
      && Possible(s, Counts(v, now)) && Possible(counted, Renews(v, now)) && Possible(renewed, Decides(v, now))
      && Step(s.marks, p, Failed(now)).1 == Starts(renewed, p, Decides(v, now))
      && if Starts(renewed, p, Decides(v, now))
         then Possible(decided, Drops(v, now)) && Do(decided, p, Drops(v, now)) == State(Step(s.marks, p, Failed(now)).0, map[])
         else decided == State(Step(s.marks, p, Failed(now)).0, map[])
  {
    var renewed := Do(Do(s, p, Counts(v, now)), p, Renews(v, now));
    assert renewed.flight == map[v := Failure(Read(s.marks.failures, now) + 1, Renewed)];
    assert renewed.flight - {v} == map[];
  }

  lemma FailureIsLegal(p: Policy, run: Commands, s: State, v: Name, now: int, later: int)
    requires Legal(p, run, now) && After(p, run) == s && s.flight == map[] && now <= later
    ensures
      var decided := Then(Then(Then(run, Counts(v, now)), Renews(v, now)), Decides(v, now));
      var whole := if Step(s.marks, p, Failed(now)).1 then Then(decided, Drops(v, now)) else decided;
      Legal(p, whole, later) && After(p, whole) == State(Step(s.marks, p, Failed(now)).0, map[])
  {
    hide Step, Do, Possible, Starts, Legal, After;
    FailureIsItsCommands(p, s, v, now);
    Follows(p, run, s, Counts(v, now), now);
    var counted := Do(s, p, Counts(v, now));
    Follows(p, Then(run, Counts(v, now)), counted, Renews(v, now), now);
    var renewed := Do(counted, p, Renews(v, now));
    Follows(p, Then(Then(run, Counts(v, now)), Renews(v, now)), renewed, Decides(v, now), later);
    Follows(p, Then(Then(run, Counts(v, now)), Renews(v, now)), renewed, Decides(v, now), now);
    if Step(s.marks, p, Failed(now)).1 {
      var decided := Then(Then(Then(run, Counts(v, now)), Renews(v, now)), Decides(v, now));
      Follows(p, decided, Do(renewed, p, Decides(v, now)), Drops(v, now), later);
    }
  }

  /** So the events are runs of the commands: those in which nothing overlaps. */
  lemma {:induction false} EventsAreCommands(p: Policy, run: Events, v: Name, now: int)
    requires Ordered(run) && (run.Then? ==> run.last.now <= now)
    ensures Legal(p, CommandsOf(p, run, v), now)
    ensures After(p, CommandsOf(p, run, v)) == State(StateOf(p, run), map[])
  {
    hide Do, Possible;
    if run.Then? {
      var t := run.last.now;
      EventsAreCommands(p, run.before, v, t);
      var earlier := CommandsOf(p, run.before, v);
      if run.last.Failed? {
        FailureIsLegal(p, earlier, After(p, earlier), v, t, now);
      } else {
        ClearIsLegal(p, earlier, t, now);
      }
    }
  }

  lemma ClearIsLegal(p: Policy, run: Commands, now: int, later: int)
    requires Legal(p, run, now) && now <= later
    ensures Legal(p, Then(run, Clears(now)), later)
    ensures After(p, Then(run, Clears(now))) == After(p, run).(marks := After(p, run).marks.(failures := None))
  {
    Follows(p, run, After(p, run), Clears(now), later);
  }
}
