/** The token bucket of middleware/rate_limiter.py, in exact arithmetic. Times are seconds. */
module TokenBucket {
  import opened Prelude

  const TTL := 120.0

  datatype Bucket = Bucket(tokens: real, last: real, deadline: real)
  datatype Limit = Limit(capacity: real, rate: real)
  /** `at` is when Redis runs the script, `now` the time the caller read before and passes in. */
  datatype Call = Call(at: real, now: real, requested: real)
  datatype Reply = Reply(allowed: bool, tokens: real)

  /** The limit a key with a requests-per-minute quota gets. */
  function PerMinute(rpm: real): Limit {
    Limit(rpm, rpm / 60.0)
  }

  /** Tokens that flow in during a span of time. */
  function Refill(l: Limit, span: real): real {
    span * l.rate
  }

  function Min(a: real, b: real): real {
    if a <= b then a else b
  }

  /** The level for a caller whose clock says `now`, perhaps less than the bucket's; an absent bucket is a full one. */
  function Refilled(b: Option<Bucket>, l: Limit, now: real): real {
    if b.None? then l.capacity else Min(l.capacity, b.value.tokens + Refill(l, now - b.value.last))
  }

  /** HMGET: an expired hash has no fields. */
  function Read(b: Option<Bucket>, at: real): Option<Bucket> {
    if b.Some? && at < b.value.deadline then b else None
  }

  function Level(b: Option<Bucket>, l: Limit, at: real, now: real): real {
    Refilled(Read(b, at), l, now)
  }

  /** The whole script as one atomic step. */
  function Script(b: Option<Bucket>, l: Limit, c: Call): (Option<Bucket>, Reply) {
    var level := Level(b, l, c.at, c.now);
    if level >= c.requested then
      (Some(Bucket(level - c.requested, c.now, c.at + TTL)), Reply(true, level - c.requested))
    else
      (Some(Bucket(level, c.now, c.at + TTL)), Reply(false, level))
  }

  class Limiter {
    var buckets: map<Name, Bucket>

    method Check(key: Name, l: Limit, c: Call) returns (r: Reply)
      modifies this
      ensures
        var was := if key in old(buckets) then Some(old(buckets)[key]) else None;
        var (b, reply) := Script(was, l, c);
        r == reply && b.Some? && buckets == old(buckets)[key := b.value]
    {
      var tokens, last := l.capacity, c.now;
      if key in buckets && c.at < buckets[key].deadline {
        tokens, last := buckets[key].tokens, buckets[key].last;
      }
      tokens := Min(l.capacity, tokens + Refill(l, c.now - last));
      var allowed := tokens >= c.requested;
      if allowed {
        tokens := tokens - c.requested;
      }
      buckets := buckets[key := Bucket(tokens, c.now, c.at + TTL)];
      r := Reply(allowed, tokens);
    }
  }

  /** The reply tells the level left; the bucket carries it with the caller's time, for 120 seconds. */
  lemma ReplyTellsTheLevel(b: Option<Bucket>, l: Limit, c: Call)
    ensures
      var (after, reply) := Script(b, l, c);
      && after == Some(Bucket(reply.tokens, c.now, c.at + 120.0))
      && reply.tokens == Level(b, l, c.at, c.now) - if reply.allowed then c.requested else 0.0
  {
  }

  // ---------- expiry ----------

  /** A stored bucket was not overdrawn when it was written, TTL before its deadline; its own clock may have been behind. */
  ghost predicate WellFormed(b: Option<Bucket>, l: Limit) {
    b.Some? ==>
      var written := b.value.deadline - TTL;
      -Refill(l, written - b.value.last) <= b.value.tokens <= l.capacity && b.value.last <= written
  }

  /** The script runs no more than `late` after the caller read its clock. */
  predicate Timely(late: real, now: real, at: real) {
    now <= at <= now + late
  }

  ghost predicate SoundLimit(l: Limit) {
    0.0 <= l.capacity && 0.0 <= l.rate
  }

  lemma RefillMonotone(l: Limit, a: real, b: real)
    requires 0.0 <= l.rate && a <= b
    ensures Refill(l, a) <= Refill(l, b)
  {
  }

  lemma RefillAdds(l: Limit, a: real, b: real)
    ensures Refill(l, a + b) == Refill(l, a) + Refill(l, b)
  {
  }

  lemma RefillNothing(l: Limit)
    ensures Refill(l, 0.0) == 0.0
  {
  }

  /** What a late caller makes of an expired bucket, if it were still there. */
  lemma ExpiredIsFull(late: real, l: Limit, b: Bucket, at: real, now: real)
    requires SoundLimit(l) && l.capacity <= Refill(l, TTL - late) && WellFormed(Some(b), l)
    requires b.deadline <= at && Timely(late, now, at)
    ensures Refilled(Some(b), l, now) == l.capacity
  {
    hide Refill;
    var written := b.deadline - TTL;
    RefillAdds(l, written - b.last, now - written);
    assert written - b.last + (now - written) == now - b.last;
    RefillMonotone(l, TTL - late, now - written);
  }

  /**
   Forgetting an expired bucket changes no level, for every bucket and for every caller at most `late` behind, exactly when
   a bucket refills within its TTL less the delay.
   */
  lemma ExpiryInvisibleIff(late: real, l: Limit)
    requires SoundLimit(l) && 0.0 <= late
    ensures
      l.capacity <= Refill(l, TTL - late) <==>
      forall b, at, now | WellFormed(b, l) && b.Some? && b.value.deadline - TTL <= at && Timely(late, now, at) ::
        Level(b, l, at, now) == Refilled(b, l, now)
  {
    if l.capacity <= Refill(l, TTL - late) {
      hide Refill;
      forall b, at, now | WellFormed(b, l) && b.Some? && b.value.deadline - TTL <= at && Timely(late, now, at)
        ensures Level(b, l, at, now) == Refilled(b, l, now)
      {
        if b.value.deadline <= at {
          ExpiredIsFull(late, l, b.value, at, now);
        }
      }
    } else {
      var b := Some(Bucket(0.0, 0.0, TTL));
      RefillNothing(l);
      hide Refill;
      assert WellFormed(b, l) && Level(b, l, TTL, TTL - late) != Refilled(b, l, TTL - late);
      assert Timely(late, TTL - late, TTL);
    }
  }

  /** The gateway's own limits refill in half that time, so a minute's delay does no harm. */
  lemma PerMinuteExpiryInvisible(late: real, rpm: real, b: Option<Bucket>, at: real, now: real)
    requires 0.0 <= rpm && 0.0 <= late <= 60.0 && Timely(late, now, at)
    requires WellFormed(b, PerMinute(rpm)) && b.Some? && b.value.deadline - TTL <= at
    ensures Level(b, PerMinute(rpm), at, now) == Refilled(b, PerMinute(rpm), now)
  {
    hide Refill, WellFormed, Level;
    MinuteRefills(rpm);
    RefillMonotone(PerMinute(rpm), 60.0, TTL - late);
    ExpiryInvisibleIff(late, PerMinute(rpm));
  }

  lemma MinuteRefills(rpm: real)
    ensures Refill(PerMinute(rpm), 60.0) == rpm
  {
  }

  // ---------- runs ----------

  type Calls = Run<Call>

  /** Redis's clock never runs back, and no caller's is more than `late` behind it, in whatever order. */
  ghost predicate Valid(late: real, run: Calls) {
    run.Then? ==>
      && Valid(late, run.before)
      && 0.0 <= run.last.requested && Timely(late, run.last.now, run.last.at)
      && (run.before.Then? ==> run.before.last.at <= run.last.at)
  }

  ghost function State(l: Limit, run: Calls): Option<Bucket> {
    if run.Start? then None else Script(State(l, run.before), l, run.last).0
  }

  ghost function Allowed(l: Limit, run: Calls, c: Call): bool {
    Script(State(l, run), l, c).1.allowed
  }

  /** Tokens handed out to the calls of a run that come after its first n. */
  ghost function GrantedSince(l: Limit, run: Calls, n: nat): real {
    if run.Start? || Length(run) <= n then 0.0 else
      GrantedSince(l, run.before, n) + if Allowed(l, run.before, run.last) then run.last.requested else 0.0
  }

  ghost function Length(run: Calls): nat {
    if run.Start? then 0 else Length(run.before) + 1
  }

  ghost function CallAt(run: Calls, n: nat): Call
    requires n < Length(run)
  {
    if n == Length(run.before) then run.last else CallAt(run.before, n)
  }

  /** Room left at `now` by the allowance of the interval that starts with the n-th call. */
  ghost function Room(l: Limit, run: Calls, n: nat, now: real): real
    requires n < Length(run)
  {
    l.capacity + Refill(l, now - CallAt(run, n).now) - GrantedSince(l, run, n)
  }

  lemma StepWellFormed(late: real, l: Limit, b: Option<Bucket>, c: Call)
    requires SoundLimit(l) && WellFormed(b, l) && Timely(late, c.now, c.at) && 0.0 <= c.requested
    requires b.Some? ==> b.value.deadline - TTL <= c.at
    ensures WellFormed(Script(b, l, c).0, l)
  {
    RefillMonotone(l, 0.0, c.at - c.now);
    RefillNothing(l);
    hide Refill;
    if b.Some? {
      var written := b.value.deadline - TTL;
      RefillAdds(l, written - b.value.last, c.now - written);
      RefillAdds(l, c.at - c.now, c.now - written);
      RefillMonotone(l, 0.0, c.at - written);
      assert written - b.value.last + (c.now - written) == c.now - b.value.last;
      assert c.at - c.now + (c.now - written) == c.at - written;
    }
  }

  /** The level never exceeds the capacity, and never falls below 0 by more than flowed in while the last call was on its way. */
  lemma {:induction false} RunWellFormed(late: real, l: Limit, run: Calls)
    requires SoundLimit(l) && Valid(late, run)
    ensures WellFormed(State(l, run), l)
    ensures
      run.Then? ==>
        State(l, run).Some? && State(l, run).value.last == run.last.now && State(l, run).value.deadline == run.last.at + TTL
  {
    hide WellFormed, Refill;
    if run.Then? {
      RunWellFormed(late, l, run.before);
      StepWellFormed(late, l, State(l, run.before), run.last);
    } else {
      NothingWellFormed(l);
    }
  }

  lemma NothingWellFormed(l: Limit)
    ensures WellFormed(None, l)
  {
  }

  /** The level is the least room over the full capacity and every interval ending now. */
  ghost predicate IsLeastRoom(level: real, l: Limit, run: Calls, now: real) {
    && level <= l.capacity
    && (forall n: nat | n < Length(run) :: level <= Room(l, run, n, now))
    && (level == l.capacity || exists n: nat :: n < Length(run) && level == Room(l, run, n, now))
  }

  lemma RoomStep(l: Limit, run: Calls, n: nat, now: real)
    requires run.Then? && n < Length(run.before)
    ensures
      Room(l, run, n, now) == Room(l, run.before, n, run.last.now) + Refill(l, now - run.last.now)
        - if Allowed(l, run.before, run.last) then run.last.requested else 0.0
  {
    hide Refill, Script;
    var start := CallAt(run.before, n).now;
    assert CallAt(run, n).now == start;
    RefillAdds(l, run.last.now - start, now - run.last.now);
    assert run.last.now - start + (now - run.last.now) == now - start;
  }

  lemma RoomOfLast(l: Limit, run: Calls, now: real)
    requires run.Then?
    ensures
      Room(l, run, Length(run.before), now) == l.capacity + Refill(l, now - run.last.now)
        - if Allowed(l, run.before, run.last) then run.last.requested else 0.0
  {
    hide Refill, Script;
    assert GrantedSince(l, run.before, Length(run.before)) == 0.0;
  }

  lemma EmptyRunIsFull(l: Limit, at: real, now: real)
    ensures Level(State(l, Start), l, at, now) == l.capacity
  {
  }

  lemma LevelStep(late: real, l: Limit, run: Calls, at: real, now: real)
    requires SoundLimit(l) && 0.0 <= late && l.capacity <= Refill(l, TTL - late) && Valid(late, run) && run.Then?
    requires run.last.at <= at && Timely(late, now, at)
    ensures
      Level(State(l, run), l, at, now) ==
      Min(l.capacity, Level(State(l, run.before), l, run.last.at, run.last.now) + Refill(l, now - run.last.now)
        - if Allowed(l, run.before, run.last) then run.last.requested else 0.0)
  {
    hide Refill;
    RunWellFormed(late, l, run);
    ExpiryInvisibleIff(late, l);
  }

  /** Whatever order the callers' clocks come in. */
  lemma {:induction false} LevelIsLeastRoom(late: real, l: Limit, run: Calls, at: real, now: real)
    requires SoundLimit(l) && 0.0 <= late && l.capacity <= Refill(l, TTL - late) && Valid(late, run)
    requires (run.Then? ==> run.last.at <= at) && Timely(late, now, at)
    ensures IsLeastRoom(Level(State(l, run), l, at, now), l, run, now)
  {
    hide Refill, Script, Level, Room;
    if run.Start? {
      EmptyRunIsFull(l, at, now);
    } else {
      var m, t := Length(run.before), run.last.now;
      LevelIsLeastRoom(late, l, run.before, run.last.at, t);
      LevelStep(late, l, run, at, now);
      RoomOfLast(l, run, now);
      var before, level := Level(State(l, run.before), l, run.last.at, t), Level(State(l, run), l, at, now);
      forall n: nat | n < Length(run)
        ensures level <= Room(l, run, n, now)
      {
        if n < m {
          RoomStep(l, run, n, now);
        }
      }
      if level != l.capacity {
        if before == l.capacity {
          assert level == Room(l, run, m, now);
        } else {
          var n: nat :| n < m && before == Room(l, run.before, n, t);
          RoomStep(l, run, n, now);
          assert level == Room(l, run, n, now);
        }
      }
    }
  }

  /**
   A request is admitted exactly when it breaks the allowance capacity + rate * elapsed of no interval
   that starts at an earlier call and ends now, nor the capacity alone.
   */
  lemma AdmittedIffEveryIntervalHasRoom(late: real, l: Limit, run: Calls, c: Call)
    requires SoundLimit(l) && 0.0 <= late && l.capacity <= Refill(l, TTL - late) && Valid(late, Then(run, c))
    ensures
      Allowed(l, run, c) <==>
      c.requested <= l.capacity && forall n: nat | n < Length(run) :: c.requested <= Room(l, run, n, c.now)
  {
    assert Then(run, c).before == run && Then(run, c).last == c;
    LevelIsLeastRoom(late, l, run, c.at, c.now);
  }

  /**
   Over any stretch of a run, the tokens handed out are at most the capacity plus the refill of its duration, from the
   reading of the clock by its first call to the serving of its last.
   */
  lemma GrantsAreBounded(late: real, l: Limit, run: Calls, n: nat)
    requires SoundLimit(l) && 0.0 <= late && l.capacity <= Refill(l, TTL - late) && Valid(late, run) && n < Length(run)
    ensures GrantedSince(l, run, n) <= l.capacity + Refill(l, run.last.at - CallAt(run, n).now)
  {
    var at := run.last.at;
    hide Refill;
    LevelIsLeastRoom(late, l, run, at, at);
    RunWellFormed(late, l, run);
    assert 0.0 <= Level(State(l, run), l, at, at) <= Room(l, run, n, at);
  }

  /** A call that is a second behind stores a level below 0. */
  lemma LateCallOverdraws(late: real)
    requires 1.0 <= late
    ensures
      var l, run := PerMinute(60.0), Then(Then(Start, Call(10.0, 10.0, 60.0)), Call(10.0, 9.0, 1.0));
      Valid(late, run) && State(l, run) == Some(Bucket(-1.0, 9.0, 10.0 + TTL))
  {
    var l, first := PerMinute(60.0), Then(Start, Call(10.0, 10.0, 60.0));
    assert State(l, first) == Some(Bucket(0.0, 10.0, 10.0 + TTL));
    assert Refill(l, -1.0) == -1.0;
  }
}
