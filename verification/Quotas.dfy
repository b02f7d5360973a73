/**
 _check_quota of middleware/rate_limiter.py: GET, INCRBY and EXPIRE on the counter of one key and one day or month. Between
 the commands of one request those of others may come.
 */
module Quotas {
  import opened Prelude
  import Redis

  type Slot = Redis.Slot<int>

  function Read(z: Slot, at: int): int {
    Redis.Get(z, at).GetOr(0)
  }

  /** INCRBY. */
  function Add(z: Slot, tokens: int, at: int): Slot {
    Redis.Write(z, at, Read(z, at) + tokens)
  }

  /** EXPIRE. */
  function Renew(z: Slot, ttl: int, at: int): Slot {
    Redis.Expire(z, at, at + ttl)
  }

  /** The three commands at one instant; EXPIRE follows either way. */
  function Check(z: Slot, limit: int, tokens: int, ttl: int, at: int): (Slot, bool) {
    if Read(z, at) + tokens > limit then (Renew(z, ttl, at), false)
    else (Renew(Add(z, tokens, at), ttl, at), true)
  }

  method CheckQuota(z: Slot, limit: int, tokens: int, ttl: int, at: int) returns (slot: Slot, ok: bool)
    ensures (slot, ok) == Check(z, limit, tokens, ttl, at)
  {
    slot := z;
    var current := Redis.Get(slot, at).GetOr(0);
    ok := current + tokens <= limit;
    if ok {
      slot := Redis.Write(slot, at, current + tokens);
    }
    slot := Redis.Expire(slot, at, at + ttl);
  }

  // ---------- interleavings on one counter ----------

  /** A request reads the counter; one that fits adds its tokens later, and any request renews the deadline at some time. */
  datatype Step = Reads(id: Name, tokens: int, at: int) | Adds(id: Name, at: int) | Renews(at: int)

  type Steps = Run<Step>

  /** A counter's length of time to live, and the first and the last moment of its day or month. */
  datatype Period = Period(start: int, end: int, ttl: int)

  /** The slot, the tokens ever added, and those of the requests that fitted but have not added theirs. */
  datatype State = State(slot: Slot, added: int, pending: map<Name, int>)

  ghost function Do(s: State, limit: int, ttl: int, step: Step): State {
    match step
    case Reads(id, tokens, at) =>
      if Read(s.slot, at) + tokens > limit then s else s.(pending := s.pending[id := tokens])
    case Adds(id, at) =>
      if id !in s.pending then s
      else State(Add(s.slot, s.pending[id], at), s.added + s.pending[id], s.pending - {id})
    case Renews(at) => s.(slot := Renew(s.slot, ttl, at))
  }

  ghost function After(limit: int, ttl: int, run: Steps): State {
    if run.Start? then State(None, 0, map[]) else Do(After(limit, ttl, run.before), limit, ttl, run.last)
  }

  /** A whole check is these steps at one instant with nothing in between. */
  lemma CheckIsItsSteps(s: State, limit: int, tokens: int, ttl: int, id: Name, at: int)
    requires id !in s.pending
    ensures
      var read := Do(s, limit, ttl, Reads(id, tokens, at));
      var after := Do(Do(read, limit, ttl, Adds(id, at)), limit, ttl, Renews(at));
      && (after.slot, id in read.pending) == Check(s.slot, limit, tokens, ttl, at)
      && after.pending == s.pending
  {
    assert s.pending[id := tokens] - {id} == s.pending;
  }

  ghost function Clock(run: Steps, start: int): int {
    if run.Start? then start else run.last.at
  }

  /**
   The clock never runs back, the counter is read within its period only, no request has more than `most` tokens, and at
   most n are between their GET and their INCRBY at once.
   */
  ghost predicate Legal(p: Period, run: Steps, limit: int, most: nat, n: nat) {
    && |After(limit, p.ttl, run).pending| <= n
    && (run.Then? ==>
          && Legal(p, run.before, limit, most, n) && Clock(run.before, p.start) <= run.last.at
          && match run.last
             case Reads(id, tokens, at) =>
               id !in After(limit, p.ttl, run.before).pending && 0 <= tokens <= most && at < p.end
             case Adds(id, _) => id in After(limit, p.ttl, run.before).pending
             case Renews(_) => true)
  }

  ghost function SumOf(pending: map<Name, int>): int {
    if |pending| == 0 then 0 else
      var id :| id in pending;
      pending[id] + SumOf(pending - {id})
  }

  /** The tokens of all requests that fitted. */
  ghost function Granted(s: State): int {
    s.added + SumOf(s.pending)
  }

  lemma OneFewer(pending: map<Name, int>, id: Name)
    requires id in pending
    ensures |pending - {id}| == |pending| - 1
  {
    assert (pending - {id}).Keys == pending.Keys - {id};
  }

  lemma EitherOrder(pending: map<Name, int>, a: Name, b: Name)
    ensures pending - {a} - {b} == pending - {b} - {a}
  {
  }

  lemma SumPicks(pending: map<Name, int>) returns (id: Name)
    requires |pending| > 0
    ensures id in pending && SumOf(pending) == pending[id] + SumOf(pending - {id})
  {
    id :| id in pending && SumOf(pending) == pending[id] + SumOf(pending - {id});
  }

  lemma {:induction false} SumWithout(pending: map<Name, int>, id: Name)
    requires id in pending
    ensures SumOf(pending) == pending[id] + SumOf(pending - {id}) && |pending - {id}| == |pending| - 1
    decreases |pending|
  {
    hide SumOf;
    OneFewer(pending, id);
    var other := SumPicks(pending);
    if other != id {
      OneFewer(pending, other);
      SumWithout(pending - {other}, id);
      SumWithout(pending - {id}, other);
      EitherOrder(pending, other, id);
    }
  }

  lemma SumWith(pending: map<Name, int>, id: Name, tokens: int)
    requires id !in pending
    ensures SumOf(pending[id := tokens]) == tokens + SumOf(pending) && |pending[id := tokens]| == |pending| + 1
  {
    SumWithout(pending[id := tokens], id);
    assert pending[id := tokens] - {id} == pending;
  }

  lemma {:induction false} SumAtMost(pending: map<Name, int>, most: nat)
    requires forall id | id in pending :: pending[id] <= most
    ensures SumOf(pending) <= |pending| * most
    decreases |pending|
  {
    if |pending| > 0 {
      var id :| id in pending;
      SumWithout(pending, id);
      SumAtMost(pending - {id}, most);
      assert |pending| * most == |pending - {id}| * most + most;
    }
  }

  /** Until the time to live has passed since the period began, the counter holds what was added and has not run out. */
  ghost predicate Kept(p: Period, s: State) {
    match s.slot
    case None => s.added == 0
    case Some(e) => e.value == s.added && (e.deadline.Some? ==> p.start + p.ttl <= e.deadline.value)
  }

  ghost predicate Bounded(s: State, limit: int, most: nat, n: nat) {
    && (forall id | id in s.pending :: 0 <= s.pending[id] <= most)
    && |s.pending| <= n && Granted(s) <= limit + (n - 1) * most
  }

  lemma StepKeeps(p: Period, s: State, limit: int, step: Step)
    requires Kept(p, s) && p.start <= step.at < p.start + p.ttl
    ensures Kept(p, Do(s, limit, p.ttl, step))
    ensures Read(s.slot, step.at) == s.added
  {
  }

  lemma ReadBounded(s: State, limit: int, most: nat, n: nat, ttl: int, step: Step)
    requires Bounded(s, limit, most, n) && step.Reads? && step.id !in s.pending && 0 <= step.tokens <= most
    requires Read(s.slot, step.at) == s.added && |Do(s, limit, ttl, step).pending| <= n
    ensures Bounded(Do(s, limit, ttl, step), limit, most, n)
  {
    hide SumOf;
    if s.added + step.tokens <= limit {
      SumWith(s.pending, step.id, step.tokens);
      SumAtMost(s.pending, most);
      Scale(|s.pending|, n - 1, most);
    }
  }

  lemma AddBounded(s: State, limit: int, most: nat, n: nat, ttl: int, step: Step)
    requires Bounded(s, limit, most, n) && step.Adds? && step.id in s.pending
    ensures Bounded(Do(s, limit, ttl, step), limit, most, n)
  {
    hide SumOf, Add;
    SumWithout(s.pending, step.id);
  }

  lemma RenewBounded(s: State, limit: int, most: nat, n: nat, ttl: int, step: Step)
    requires Bounded(s, limit, most, n) && step.Renews?
    ensures Bounded(Do(s, limit, ttl, step), limit, most, n)
  {
    hide SumOf, Renew;
  }

  lemma Scale(a: nat, b: nat, most: nat)
    requires a <= b
    ensures a * most <= b * most
  {
    assert b * most == a * most + (b - a) * most;
  }

  lemma {:induction false} RunBounded(p: Period, run: Steps, limit: nat, most: nat, n: nat)
    requires Legal(p, run, limit, most, n) && 1 <= n && p.end <= p.start + p.ttl
    ensures Bounded(After(limit, p.ttl, run), limit, most, n) && p.start <= Clock(run, p.start)
    ensures Clock(run, p.start) < p.start + p.ttl ==> Kept(p, After(limit, p.ttl, run))
  {
    hide Kept, Bounded, Do, Read;
    if run.Start? {
      NothingYet(p, limit, most, n);
    } else {
      RunBounded(p, run.before, limit, most, n);
      var s := After(limit, p.ttl, run.before);
      if run.last.at < p.start + p.ttl {
        StepKeeps(p, s, limit, run.last);
      }
      match run.last {
        case Reads(_, _, _) => ReadBounded(s, limit, most, n, p.ttl, run.last);
        case Adds(_, _) => AddBounded(s, limit, most, n, p.ttl, run.last);
        case Renews(_) => RenewBounded(s, limit, most, n, p.ttl, run.last);
      }
    }
  }

  lemma NothingYet(p: Period, limit: nat, most: nat, n: nat)
    requires 1 <= n
    ensures Kept(p, After(limit, p.ttl, Start)) && Bounded(After(limit, p.ttl, Start), limit, most, n)
  {
    Scale(0, n - 1, most);
  }

  /**
   However the commands interleave, if a period is no longer than the time to live, the requests that fitted in it carry at
   most the limit and n - 1 times the largest request more. One at a time, they never exceed the limit.
   */
  lemma GrantsAreBounded(p: Period, run: Steps, limit: nat, most: nat, n: nat)
    requires Legal(p, run, limit, most, n) && 1 <= n && p.end <= p.start + p.ttl
    ensures Granted(After(limit, p.ttl, run)) <= limit + (n - 1) * most
  {
    hide Granted, Legal;
    RunBounded(p, run, limit, most, n);
  }

  ghost predicate Honoured(p: Period, run: Steps, limit: nat, most: nat, n: nat) {
    Legal(p, run, limit, most, n) && 1 <= n ==> Granted(After(limit, p.ttl, run)) <= limit + (n - 1) * most
  }

  /** Two requests for the whole quota, one when the period begins and one when the counter has run out. */
  ghost function Twice(p: Period, limit: nat, id: Name): Steps {
    var one := Then(Then(Then(Start, Reads(id, limit, p.start)), Adds(id, p.start)), Renews(p.start));
    Then(one, Reads(id, limit, p.start + p.ttl))
  }

  lemma FirstOfTwo(p: Period, limit: nat, id: Name)
    requires 0 < limit && 0 < p.ttl && p.start < p.end
    ensures
      var one := Twice(p, limit, id).before;
      && Legal(p, one, limit, limit, 1)
      && After(limit, p.ttl, one) == State(Some(Redis.Entry(limit, Some(p.start + p.ttl))), limit, map[])
  {
    var read := Then(Start, Reads(id, limit, p.start));
    assert After(limit, p.ttl, Start) == State(None, 0, map[]);
    assert After(limit, p.ttl, read) == State(None, 0, map[id := limit]);
    var added := Then(read, Adds(id, p.start));
    assert After(limit, p.ttl, added) == State(Some(Redis.Entry(limit, None)), limit, map[]) by {
      assert map[id := limit] - {id} == map[];
    }
    assert Legal(p, Start, limit, limit, 1) && Legal(p, read, limit, limit, 1) && Legal(p, added, limit, limit, 1);
  }

  lemma SecondOfTwo(p: Period, limit: nat, id: Name)
    requires 0 < limit && 0 < p.ttl && p.start + p.ttl < p.end
    ensures !Honoured(p, Twice(p, limit, id), limit, limit, 1)
  {
    FirstOfTwo(p, limit, id);
    var run := Twice(p, limit, id);
    hide Twice;
    assert run.last == Reads(id, limit, p.start + p.ttl);
    assert After(limit, p.ttl, run).pending == map[id := limit];
    SumWith(map[], id, limit);
    assert map[][id := limit] == map[id := limit];
  }

  /** The quota is kept in every interleaving exactly when the period is no longer than the time to live. */
  lemma QuotaIsKeptIff(p: Period, limit: nat, id: Name)
    requires 0 < limit && 0 < p.ttl
    ensures (forall run: Steps, most: nat, n: nat :: Honoured(p, run, limit, most, n)) <==> p.end <= p.start + p.ttl
  {
    if p.end <= p.start + p.ttl {
      forall run: Steps, most: nat, n: nat
        ensures Honoured(p, run, limit, most, n)
      {
        if Legal(p, run, limit, most, n) && 1 <= n {
          GrantsAreBounded(p, run, limit, most, n);
        }
      }
    } else {
      SecondOfTwo(p, limit, id);
    }
  }

  const DAY := 86400
  const MONTH := 2592000

  /** A day of 24 hours is as long as its counter lives. A month of 31 days is longer, and its quota may be granted twice. */
  lemma DailyButNotMonthly(day: Period, month: Period, limit: nat, id: Name)
    requires 0 < limit && day.end == day.start + DAY && day.ttl == DAY
    requires month.end == month.start + 31 * DAY && month.ttl == MONTH
    ensures forall run: Steps, most: nat, n: nat :: Honoured(day, run, limit, most, n)
    ensures Legal(month, Twice(month, limit, id), limit, limit, 1)
    ensures Granted(After(limit, MONTH, Twice(month, limit, id))) > limit
  {
    QuotaIsKeptIff(day, limit, id);
    SecondOfTwo(month, limit, id);
  }
}
