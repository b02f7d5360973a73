/**
 Spend counters and the budget check of auth/budgets.py, with the settlement step of
 middleware/cost_tracker.py. Money is exact. A request reads its counters one at a time,
 is in flight, and settles later; other requests and resets run in between.
 */
module Budgets {
  import opened Prelude

  /** A user id may be empty: such a counter is charged but never checked. */
  datatype Counter =
    | KeySpend(key: Name)
    | UserSpend(user: Option<Name>)
    | TeamSpend(team: Name)
    | OrgSpend(org: Name)

  datatype Identity = Identity(key: Name, user: Option<Name>, team: Option<Name>, org: Option<Name>)

  type Spend = map<Counter, real>
  type Budget = map<Counter, real>

  function Get(s: Spend, c: Counter): real {
    if c in s then s[c] else 0.0
  }

  function TeamAndOrg(i: Identity): seq<Counter> {
    (if i.team.Some? then [TeamSpend(i.team.value)] else []) + (if i.org.Some? then [OrgSpend(i.org.value)] else [])
  }

  /** The counters check_budget reads, in order. */
  function Checked(i: Identity): seq<Counter> {
    [KeySpend(i.key)] + (if i.user.Some? then [UserSpend(i.user)] else []) + TeamAndOrg(i)
  }

  /** The counters increment_spend charges. */
  function Charged(i: Identity): seq<Counter> {
    [KeySpend(i.key), UserSpend(i.user)] + TeamAndOrg(i)
  }

  predicate WithinBudget(budget: Budget, s: Spend, c: Counter, estimate: real) {
    c in budget ==> Get(s, c) + estimate <= budget[c]
  }

  /** The key, and the user, team and organisation a request names, each have a budget of their own. */
  ghost predicate IsLevelOf(c: Counter, i: Identity) {
    match c
    case KeySpend(key) => key == i.key
    case UserSpend(user) => user.Some? && user == i.user
    case TeamSpend(team) => i.team == Some(team)
    case OrgSpend(org) => i.org == Some(org)
  }

  /** Its cost goes to these; that of a request without a user to the counter of the empty id. */
  ghost predicate IsChargedTo(c: Counter, i: Identity) {
    if c.UserSpend? then c.user == i.user else IsLevelOf(c, i)
  }

  /** A level without a budget has room for everything. */
  ghost predicate HasRoom(budget: Budget, s: Spend, c: Counter, estimate: real) {
    if c !in budget then true else if c in s then s[c] + estimate <= budget[c] else estimate <= budget[c]
  }

  lemma CountersAreLevels(i: Identity, c: Counter)
    ensures c in Checked(i) <==> IsLevelOf(c, i)
    ensures c in Charged(i) <==> IsChargedTo(c, i)
  {
  }

  /** Every listed counter goes up by the cost, the others stay. */
  ghost function Charge(s: Spend, counters: seq<Counter>, cost: real): Spend {
    map c | c in s.Keys + Elements(counters) :: Get(s, c) + if c in counters then cost else 0.0
  }

  lemma ChargeOneMore(s: Spend, counters: seq<Counter>, c: Counter, cost: real)
    requires c !in counters
    ensures
      var partial := Charge(s, counters, cost);
      Charge(s, counters + [c], cost) == partial[c := Get(partial, c) + cost]
  {
  }

  lemma CountersDiffer(i: Identity)
    ensures forall a, b | 0 <= a < b < |Charged(i)| :: Charged(i)[a] != Charged(i)[b]
  {
  }

  lemma ChargeRaises(s: Spend, i: Identity, cost: real)
    ensures forall c :: Get(Charge(s, Charged(i), cost), c) == Get(s, c) + if IsChargedTo(c, i) then cost else 0.0
  {
    hide Charged, IsChargedTo;
    forall c
      ensures c in Charged(i) <==> IsChargedTo(c, i)
    {
      CountersAreLevels(i, c);
    }
  }

  // ---------- the operations ----------

  const DAY := 86_400
  const MONTH := 2_592_000

  datatype Duration = Daily | Monthly | Other

  /** The fields of a key record that the reset loop reads. */
  datatype KeyRecord = KeyRecord(keyId: Option<Name>, resetAt: Option<int>, duration: Duration)

  predicate Due(r: KeyRecord, now: int) {
    r.resetAt.Some? && r.resetAt.value <= now && r.keyId.Some?
  }

  /** A due record is rescheduled from now; with no period its deadline stays in the past. */
  function Rescheduled(r: KeyRecord, now: int): KeyRecord {
    if !Due(r, now) then r else
      match r.duration
      case Daily => r.(resetAt := Some(now + DAY))
      case Monthly => r.(resetAt := Some(now + MONTH))
      case Other => r
  }

  class Ledger {
    var spend: Spend
    var records: map<Name, KeyRecord>

    /** The check as one step, with nothing else running between its reads. */
    method CheckBudget(budget: Budget, i: Identity, estimate: real) returns (ok: bool)
      ensures ok <==> forall c | c in Checked(i) :: WithinBudget(budget, spend, c, estimate)
      ensures ok <==> forall c | IsLevelOf(c, i) :: HasRoom(budget, spend, c, estimate)
    {
      forall c
        ensures c in Checked(i) <==> IsLevelOf(c, i)
      {
        CountersAreLevels(i, c);
      }
      ok := WithinBudget(budget, spend, KeySpend(i.key), estimate);
      if !ok {
        return;
      }
      if i.user.Some? {
        ok := WithinBudget(budget, spend, UserSpend(i.user), estimate);
        if !ok {
          return;
        }
      }
      if i.team.Some? {
        ok := WithinBudget(budget, spend, TeamSpend(i.team.value), estimate);
        if !ok {
          return;
        }
      }
      if i.org.Some? {
        ok := WithinBudget(budget, spend, OrgSpend(i.org.value), estimate);
      }
    }

    method IncrementSpend(i: Identity, cost: real)
      modifies this`spend
      ensures spend == Charge(old(spend), Charged(i), cost)
      ensures forall c :: Get(spend, c) == Get(old(spend), c) + if IsChargedTo(c, i) then cost else 0.0
    {
      hide IsChargedTo;
      CountersDiffer(i);
      var keys := [KeySpend(i.key), UserSpend(i.user)] + TeamAndOrg(i);
      var n := 0;
      while n < |keys|
        invariant 0 <= n <= |keys|
        invariant spend == Charge(old(spend), keys[..n], cost)
      {
        ChargeOneMore(old(spend), keys[..n], keys[n], cost);
        assert keys[..n + 1] == keys[..n] + [keys[n]];
        spend := spend[keys[n] := Get(spend, keys[n]) + cost];
        n := n + 1;
      }
      assert keys[..n] == keys;
      ChargeRaises(old(spend), i, cost);
    }

    method ResetBudget(key: Name)
      modifies this`spend
      ensures spend == old(spend)[KeySpend(key) := 0.0]
    {
      spend := spend[KeySpend(key) := 0.0];
    }

    /** One pass of the reset loop over the keys a scan returned, possibly with repetitions. */
    method Sweep(now: int, scanned: seq<Name>)
      modifies this
      ensures Swept(old(records), old(spend), Elements(scanned), now, records, spend)
    {
      hide Swept, Elements;
      NothingSwept(records, spend, now);
      var n := 0;
      while n < |scanned|
        invariant 0 <= n <= |scanned|
        invariant Swept(old(records), old(spend), Elements(scanned[..n]), now, records, spend)
      {
        var k := scanned[n];
        ghost var records0, spend0 := records, spend;
        if k in records && Due(records[k], now) {
          var r := records[k];
          ResetBudget(r.keyId.value);
          if r.duration == Daily {
            records := records[k := r.(resetAt := Some(now + DAY))];
          } else if r.duration == Monthly {
            records := records[k := r.(resetAt := Some(now + MONTH))];
          }
        }
        SweepOne(old(records), old(spend), Elements(scanned[..n]), now, records0, spend0, k, records, spend);
        OneMoreScanned(scanned, n);
        n := n + 1;
      }
      assert scanned[..n] == scanned;
    }
  }

  /** Some record among the given keys is due and names this counter's key. */
  ghost predicate DueAmong(records: map<Name, KeyRecord>, among: set<Name>, now: int, c: Counter) {
    exists k :: k in among && k in records && Due(records[k], now) && c == KeySpend(records[k].keyId.value)
  }

  /** Exactly the due records among `done` are rescheduled, and exactly their keys' counters are back at 0. */
  ghost predicate Swept(
    was: map<Name, KeyRecord>, before: Spend, done: set<Name>, now: int, records: map<Name, KeyRecord>, spend: Spend)
  {
    && records.Keys == was.Keys
    && (forall k | k in was :: records[k] == if k in done then Rescheduled(was[k], now) else was[k])
    && (forall c :: Get(spend, c) == if DueAmong(was, done, now, c) then 0.0 else Get(before, c))
  }

  lemma NothingSwept(records: map<Name, KeyRecord>, spend: Spend, now: int)
    ensures Swept(records, spend, Elements([]), now, records, spend)
  {
  }

  lemma OneMoreScanned(scanned: seq<Name>, n: nat)
    requires n < |scanned|
    ensures Elements(scanned[..n + 1]) == Elements(scanned[..n]) + {scanned[n]}
  {
    assert scanned[..n + 1] == scanned[..n] + [scanned[n]];
  }

  lemma SweepOne(
    was: map<Name, KeyRecord>, before: Spend, done: set<Name>, now: int, records: map<Name, KeyRecord>, spend: Spend,
    k: Name, records': map<Name, KeyRecord>, spend': Spend)
    requires Swept(was, before, done, now, records, spend)
    requires
      if k in records && Due(records[k], now) then
        records' == records[k := Rescheduled(records[k], now)] && spend' == spend[KeySpend(records[k].keyId.value) := 0.0]
      else records' == records && spend' == spend
    ensures Swept(was, before, done + {k}, now, records', spend')
  {
    forall c
      ensures DueAmong(was, done + {k}, now, c) <==>
              DueAmong(was, done, now, c) || (k in was && Due(was[k], now) && c == KeySpend(was[k].keyId.value))
    {
    }
    if k in was && k in done && Due(was[k], now) {
      assert DueAmong(was, done, now, KeySpend(was[k].keyId.value));
    }
  }

  /** A record after sweeps at these times. */
  ghost function RecordAfter(r: KeyRecord, sweeps: Run<int>): KeyRecord {
    if sweeps.Start? then r else Rescheduled(RecordAfter(r, sweeps.before), sweeps.last)
  }

  /** When the last of the sweeps that reset the key ran. */
  ghost function LastReset(r: KeyRecord, sweeps: Run<int>): Option<int> {
    if sweeps.Start? then None
    else if Due(RecordAfter(r, sweeps.before), sweeps.last) then Some(sweeps.last)
    else LastReset(r, sweeps.before)
  }

  /**
   Over any sweeps, the next one resets a key exactly when its first deadline has come and, since the last reset, a day
   or a month has passed; without a period every sweep after the deadline resets it.
   */
  lemma {:induction false} ResetsAgainIff(r: KeyRecord, sweeps: Run<int>, now: int)
    requires r.keyId.Some? && r.resetAt.Some?
    ensures
      Due(RecordAfter(r, sweeps), now) <==>
      match LastReset(r, sweeps)
      case None => r.resetAt.value <= now
      case Some(last) =>
        match r.duration
        case Daily => last + 86_400 <= now
        case Monthly => last + 2_592_000 <= now
        case Other => r.resetAt.value <= now
    ensures RecordAfter(r, sweeps).duration == r.duration && RecordAfter(r, sweeps).keyId.Some?
    ensures RecordAfter(r, sweeps).resetAt.Some?
  {
    if sweeps.Then? {
      ResetsAgainIff(r, sweeps.before, sweeps.last);
      ResetsAgainIff(r, sweeps.before, now);
    }
  }

  // ---------- interleavings ----------

  /** An open request: how many of its counters it has read and found within budget. */
  datatype Call = Call(identity: Identity, passed: nat)

  datatype State = State(spend: Spend, open: map<Name, Call>)

  datatype Step =
    | Begin(id: Name, identity: Identity)
    | Read(id: Name, estimate: real)
    | Settle(id: Name, cost: real)
    | Abandon(id: Name)
    | ResetKey(key: Name)
    | ResetAll

  ghost predicate InFlightAlready(s: State, id: Name) {
    id in s.open && s.open[id].passed == |Checked(s.open[id].identity)|
  }

  ghost predicate Enabled(s: State, step: Step) {
    match step
    case Begin(id, _) => id !in s.open
    case Read(id, estimate) => id in s.open && s.open[id].passed < |Checked(s.open[id].identity)| && 0.0 <= estimate
    case Settle(id, cost) => InFlightAlready(s, id) && 0.0 <= cost
    case Abandon(id) => id in s.open
    case ResetKey(_) => true
    case ResetAll => true
  }

  ghost function Next(budget: Budget, s: State, step: Step): State
    requires Enabled(s, step)
  {
    match step
    case Begin(id, i) => s.(open := s.open[id := Call(i, 0)])
    case Read(id, estimate) =>
      var call := s.open[id];
      if WithinBudget(budget, s.spend, Checked(call.identity)[call.passed], estimate)
      then s.(open := s.open[id := call.(passed := call.passed + 1)])
      else s.(open := s.open - {id})
    case Settle(id, cost) =>
      State(if cost > 0.0 then Charge(s.spend, Charged(s.open[id].identity), cost) else s.spend, s.open - {id})
    case Abandon(id) => s.(open := s.open - {id})
    case ResetKey(key) => s.(spend := s.spend[KeySpend(key) := 0.0])
    case ResetAll => s.(spend := map[])
  }

  type Steps = Run<Step>

  ghost predicate Runs(budget: Budget, run: Steps)
    decreases run, 1
  {
    run.Then? ==> Runs(budget, run.before) && Enabled(StateOf(budget, run.before), run.last)
  }

  ghost function StateOf(budget: Budget, run: Steps): State
    requires Runs(budget, run)
    decreases run, 2
  {
    if run.Start? then State(map[], map[]) else Next(budget, StateOf(budget, run.before), run.last)
  }

  /** The next n reads of a request, one after the other. */
  ghost function Uninterrupted(budget: Budget, s: State, id: Name, estimate: real, n: nat): State
    decreases n
  {
    if n == 0 || !Enabled(s, Read(id, estimate)) then s
    else Uninterrupted(budget, Next(budget, s, Read(id, estimate)), id, estimate, n - 1)
  }

  ghost predicate RoomFrom(budget: Budget, s: Spend, counters: seq<Counter>, from: nat, estimate: real) {
    forall n | from <= n < |counters| :: HasRoom(budget, s, counters[n], estimate)
  }

  lemma {:induction false} ReadsUpTo(budget: Budget, s: State, id: Name, estimate: real, n: nat)
    requires id in s.open && 0.0 <= estimate && s.open[id].passed + n == |Checked(s.open[id].identity)|
    ensures
      var call, after := s.open[id], Uninterrupted(budget, s, id, estimate, n);
      && after.spend == s.spend
      && (InFlightAlready(after, id) <==> RoomFrom(budget, s.spend, Checked(call.identity), call.passed, estimate))
      && (id in after.open <==> InFlightAlready(after, id))
    decreases n
  {
    hide Checked;
    if n > 0 {
      var next := Next(budget, s, Read(id, estimate));
      if id in next.open {
        ReadsUpTo(budget, next, id, estimate, n - 1);
      }
    }
  }

  /** A request whose reads nothing interrupts is in flight after them exactly if each of its levels has room. */
  lemma UninterruptedReadsAreTheCheck(budget: Budget, s: State, id: Name, i: Identity, estimate: real, n: nat)
    requires Enabled(s, Begin(id, i)) && n == |Checked(i)| && 0.0 <= estimate
    ensures
      InFlightAlready(Uninterrupted(budget, Next(budget, s, Begin(id, i)), id, estimate, n), id) <==>
      forall c | IsLevelOf(c, i) :: HasRoom(budget, s.spend, c, estimate)
  {
    hide Checked, IsLevelOf, HasRoom;
    ReadsUpTo(budget, Next(budget, s, Begin(id, i)), id, estimate, n);
    forall c
      ensures c in Checked(i) <==> IsLevelOf(c, i)
    {
      CountersAreLevels(i, c);
    }
    if RoomFrom(budget, s.spend, Checked(i), 0, estimate) {
      forall c | IsLevelOf(c, i)
        ensures HasRoom(budget, s.spend, c, estimate)
      {
        var k :| 0 <= k < |Checked(i)| && Checked(i)[k] == c;
      }
    }
  }

  /** The requests between their read of a counter and their end. */
  ghost function InFlight(s: State, c: Counter): set<Name> {
    set id | id in s.open && Passed(s.open[id], c)
  }

  ghost predicate Passed(call: Call, c: Counter) {
    exists n :: 0 <= n < call.passed && n < |Checked(call.identity)| && Checked(call.identity)[n] == c
  }

  /** The step settles a request that is charged at the counter. */
  ghost predicate SettlesAt(s: State, step: Step, c: Counter) {
    step.Settle? && step.id in s.open && c in Charged(s.open[step.id].identity)
  }

  /** At most n requests are ever in flight at the counter, and none that is charged there costs more than max. */
  ghost predicate Load(budget: Budget, run: Steps, c: Counter, n: nat, max: real)
    requires Runs(budget, run)
  {
    && |InFlight(StateOf(budget, run), c)| <= n
    && (run.Then? ==>
          && Load(budget, run.before, c, n, max)
          && (SettlesAt(StateOf(budget, run.before), run.last, c) ==> run.last.cost <= max))
  }

  /** What k more requests can still cost. */
  ghost function Worst(k: int, max: real): real {
    max * (k as real)
  }

  lemma WorstGrows(k: int, max: real)
    requires 0.0 <= max
    ensures Worst(k + 1, max) == Worst(k, max) + max
    ensures 0 <= k ==> 0.0 <= Worst(k, max)
  {
    assert (k + 1) as real == k as real + 1.0;
  }

  ghost predicate Headroom(s: State, c: Counter, limit: real, n: nat, max: real) {
    Get(s.spend, c) <= limit + Worst(n - |InFlight(s, c)|, max)
  }

  lemma Leaves(s: State, s': State, c: Counter, id: Name)
    requires id in s.open && s'.open == s.open - {id}
    ensures InFlight(s', c) == InFlight(s, c) - {id}
    ensures id in InFlight(s, c) <==> Passed(s.open[id], c)
  {
    hide Passed;
  }

  lemma Shrinks(s: State, s': State, c: Counter, id: Name)
    requires id in s.open && s'.open == s.open - {id}
    ensures InFlight(s', c) == InFlight(s, c) - {id}
    ensures |InFlight(s', c)| == |InFlight(s, c)| - if Passed(s.open[id], c) then 1 else 0
  {
    hide InFlight, Passed;
    Leaves(s, s', c, id);
  }

  lemma Advances(s: State, s': State, c: Counter, id: Name)
    requires id in s.open && s.open[id].passed < |Checked(s.open[id].identity)|
    requires s'.open == s.open[id := s.open[id].(passed := s.open[id].passed + 1)]
    ensures InFlight(s, c) <= InFlight(s', c)
    ensures Checked(s.open[id].identity)[s.open[id].passed] != c ==> InFlight(s', c) == InFlight(s, c)
  {
    hide Checked;
    var call := s.open[id];
    forall other | other in InFlight(s, c)
      ensures other in InFlight(s', c)
    {
      var n :| 0 <= n < s.open[other].passed && n < |Checked(s.open[other].identity)| && Checked(s.open[other].identity)[n] == c;
      assert s'.open[other].identity == s.open[other].identity;
    }
  }

  lemma ChargedIffChecked(i: Identity, c: Counter)
    requires c != UserSpend(None)
    ensures c in Charged(i) <==> c in Checked(i)
  {
  }

  lemma ReadKeepsHeadroom(budget: Budget, s: State, id: Name, estimate: real, c: Counter, n: nat, max: real)
    requires Enabled(s, Read(id, estimate)) && c in budget && 0.0 <= max
    requires Headroom(s, c, budget[c], n, max) && |InFlight(s, c)| <= n
    requires |InFlight(Next(budget, s, Read(id, estimate)), c)| <= n
    ensures Headroom(Next(budget, s, Read(id, estimate)), c, budget[c], n, max)
  {
    hide Worst, InFlight, Checked;
    var s' := Next(budget, s, Read(id, estimate));
    var call := s.open[id];
    if WithinBudget(budget, s.spend, Checked(call.identity)[call.passed], estimate) {
      Advances(s, s', c, id);
      WorstGrows(n - |InFlight(s', c)|, max);
    } else {
      Shrinks(s, s', c, id);
      WorstGrows(n - |InFlight(s, c)|, max);
    }
  }

  lemma SettleKeepsHeadroom(budget: Budget, s: State, id: Name, cost: real, c: Counter, limit: real, n: nat, max: real)
    requires Enabled(s, Settle(id, cost)) && c != UserSpend(None) && 0.0 <= max
    requires SettlesAt(s, Settle(id, cost), c) ==> cost <= max
    requires Headroom(s, c, limit, n, max)
    ensures Headroom(Next(budget, s, Settle(id, cost)), c, limit, n, max)
  {
    hide Worst, InFlight, Checked, Charged;
    var call, s' := s.open[id], Next(budget, s, Settle(id, cost));
    Shrinks(s, s', c, id);
    ChargedIffChecked(call.identity, c);
    WorstGrows(n - |InFlight(s, c)|, max);
    if c in Charged(call.identity) {
      var k :| 0 <= k < |Checked(call.identity)| && Checked(call.identity)[k] == c;
      assert Passed(call, c);
    }
  }

  lemma AbandonKeepsHeadroom(budget: Budget, s: State, id: Name, c: Counter, limit: real, n: nat, max: real)
    requires Enabled(s, Abandon(id)) && 0.0 <= max && Headroom(s, c, limit, n, max)
    ensures Headroom(Next(budget, s, Abandon(id)), c, limit, n, max)
  {
    hide Worst, InFlight;
    Shrinks(s, Next(budget, s, Abandon(id)), c, id);
    WorstGrows(n - |InFlight(s, c)|, max);
  }

  lemma BeginKeepsHeadroom(budget: Budget, s: State, id: Name, i: Identity, c: Counter, limit: real, n: nat, max: real)
    requires Enabled(s, Begin(id, i)) && Headroom(s, c, limit, n, max)
    ensures Headroom(Next(budget, s, Begin(id, i)), c, limit, n, max)
  {
    hide Worst;
    assert InFlight(Next(budget, s, Begin(id, i)), c) == InFlight(s, c);
  }

  /** A reset lowers the counter or leaves it. */
  lemma ResetKeepsHeadroom(budget: Budget, s: State, step: Step, c: Counter, limit: real, n: nat, max: real)
    requires (step.ResetKey? || step.ResetAll?) && 0.0 <= limit && 0.0 <= max
    requires Headroom(s, c, limit, n, max) && |InFlight(s, c)| <= n
    ensures Headroom(Next(budget, s, step), c, limit, n, max)
  {
    hide Worst;
    SameFlight(s, Next(budget, s, step), c);
    WorstGrows(n - |InFlight(s, c)|, max);
  }

  lemma SameFlight(s: State, s': State, c: Counter)
    requires s'.open == s.open
    ensures InFlight(s', c) == InFlight(s, c)
  {
  }

  lemma StepKeepsHeadroom(budget: Budget, s: State, step: Step, c: Counter, n: nat, max: real)
    requires Enabled(s, step) && c in budget && 0.0 <= budget[c] && c != UserSpend(None) && 0.0 <= max
    requires Headroom(s, c, budget[c], n, max) && |InFlight(s, c)| <= n
    requires |InFlight(Next(budget, s, step), c)| <= n
    requires SettlesAt(s, step, c) ==> step.cost <= max
    ensures Headroom(Next(budget, s, step), c, budget[c], n, max)
  {
    hide Next, Worst, InFlight, Checked, Charged, SettlesAt, Headroom, Enabled;
    match step
    case Begin(id, i) => BeginKeepsHeadroom(budget, s, id, i, c, budget[c], n, max);
    case Read(id, estimate) => ReadKeepsHeadroom(budget, s, id, estimate, c, n, max);
    case Settle(id, cost) => SettleKeepsHeadroom(budget, s, id, cost, c, budget[c], n, max);
    case Abandon(id) => AbandonKeepsHeadroom(budget, s, id, c, budget[c], n, max);
    case ResetKey(_) => ResetKeepsHeadroom(budget, s, step, c, budget[c], n, max);
    case ResetAll => ResetKeepsHeadroom(budget, s, step, c, budget[c], n, max);
  }

  /** Overspend at a counter is at most what the requests in flight there can still cost. */
  lemma {:induction false} OverspendIsBounded(budget: Budget, run: Steps, c: Counter, n: nat, max: real)
    requires Runs(budget, run) && Load(budget, run, c, n, max)
    requires c in budget && 0.0 <= budget[c] && c != UserSpend(None) && 0.0 <= max
    ensures Headroom(StateOf(budget, run), c, budget[c], n, max)
    ensures Get(StateOf(budget, run).spend, c) <= budget[c] + Worst(n, max)
  {
    hide Next, Worst, InFlight, SettlesAt;
    if run.Then? {
      OverspendIsBounded(budget, run.before, c, n, max);
      StepKeepsHeadroom(budget, StateOf(budget, run.before), run.last, c, n, max);
    } else {
      EmptyStateHasHeadroom(c, n, max);
    }
    WorstMonotone(n - |InFlight(StateOf(budget, run), c)|, n, max);
  }

  lemma EmptyStateHasHeadroom(c: Counter, n: nat, max: real)
    requires 0.0 <= max
    ensures Get(State(map[], map[]).spend, c) <= Worst(n - |InFlight(State(map[], map[]), c)|, max)
  {
    assert InFlight(State(map[], map[]), c) == {};
    WorstGrows(n, max);
  }

  lemma WorstMonotone(k: int, n: int, max: real)
    requires 0.0 <= max && k <= n
    ensures Worst(k, max) <= Worst(n, max)
  {
    assert k as real <= n as real;
  }

  // ---------- conservation ----------

  ghost function Sum(costs: Run<real>): real {
    if costs.Start? then 0.0 else Sum(costs.before) + costs.last
  }

  ghost predicate Resets(step: Step, c: Counter) {
    step.ResetAll? || (step.ResetKey? && c == KeySpend(step.key))
  }

  /** The costs settled to a counter since it was last reset, in order. */
  ghost function SettledTo(budget: Budget, run: Steps, c: Counter): Run<real>
    requires Runs(budget, run)
  {
    if run.Start? || Resets(run.last, c) then Start else
      var earlier := SettledTo(budget, run.before, c);
      if run.last.Settle? && IsChargedTo(c, StateOf(budget, run.before).open[run.last.id].identity)
      then Then(earlier, run.last.cost) else earlier
  }

  lemma SettlementCharges(budget: Budget, s: State, id: Name, cost: real, c: Counter)
    requires Enabled(s, Settle(id, cost))
    ensures
      Get(Next(budget, s, Settle(id, cost)).spend, c) ==
      Get(s.spend, c) + if IsChargedTo(c, s.open[id].identity) then cost else 0.0
  {
    hide Checked, Charged;
    CountersAreLevels(s.open[id].identity, c);
  }

  lemma {:induction false} CounterIsWhatWasSettled(budget: Budget, run: Steps, c: Counter)
    requires Runs(budget, run)
    ensures Get(StateOf(budget, run).spend, c) == Sum(SettledTo(budget, run, c))
  {
    hide Checked, Charged;
    if run.Then? {
      CounterIsWhatWasSettled(budget, run.before, c);
      if run.last.Settle? {
        SettlementCharges(budget, StateOf(budget, run.before), run.last.id, run.last.cost, c);
      }
    }
  }

  ghost function KeyTotal(s: Spend, keys: seq<Name>): real {
    if keys == [] then 0.0 else Get(s, KeySpend(keys[0])) + KeyTotal(s, keys[1..])
  }

  /** Charging one key more raises the total over a list of keys by that much exactly when the key is in it. */
  lemma {:induction false} KeyTotalCharged(s: Spend, s': Spend, keys: seq<Name>, key: Name, cost: real)
    requires Distinct(keys)
    requires forall k :: Get(s', KeySpend(k)) == Get(s, KeySpend(k)) + if k == key then cost else 0.0
    ensures KeyTotal(s', keys) == KeyTotal(s, keys) + if key in keys then cost else 0.0
  {
    if keys != [] {
      KeyTotalCharged(s, s', keys[1..], key, cost);
    }
  }

  /** A run without resets in which exactly the given keys settle to a counter. */
  ghost predicate OneGroup(run: Steps, c: Counter, keys: seq<Name>) {
    run.Then? ==>
      && OneGroup(run.before, c, keys)
      && !run.last.ResetKey? && !run.last.ResetAll?
      && (run.last.Begin? ==> (IsChargedTo(c, run.last.identity) <==> run.last.identity.key in keys))
  }

  ghost predicate MembersAgree(s: State, c: Counter, keys: seq<Name>) {
    forall id | id in s.open :: IsChargedTo(c, s.open[id].identity) <==> s.open[id].identity.key in keys
  }

  lemma GroupStep(budget: Budget, s: State, step: Step, c: Counter, keys: seq<Name>)
    requires Enabled(s, step) && !step.ResetKey? && !step.ResetAll? && Distinct(keys) && MembersAgree(s, c, keys)
    requires step.Begin? ==> (IsChargedTo(c, step.identity) <==> step.identity.key in keys)
    requires Get(s.spend, c) == KeyTotal(s.spend, keys)
    ensures
      var s' := Next(budget, s, step);
      MembersAgree(s', c, keys) && Get(s'.spend, c) == KeyTotal(s'.spend, keys)
  {
    hide Checked, KeyTotal, Get, Charge, Charged, Distinct, IsChargedTo;
    if step.Settle? && step.cost > 0.0 {
      var i, s' := s.open[step.id].identity, Next(budget, s, step);
      SettlementCharges(budget, s, step.id, step.cost, c);
      forall k
        ensures Get(s'.spend, KeySpend(k)) == Get(s.spend, KeySpend(k)) + if k == i.key then step.cost else 0.0
      {
        SettlementCharges(budget, s, step.id, step.cost, KeySpend(k));
        ChargedToItsKey(i, k);
      }
      KeyTotalCharged(s.spend, s'.spend, keys, i.key, step.cost);
    }
  }

  lemma ChargedToItsKey(i: Identity, key: Name)
    ensures IsChargedTo(KeySpend(key), i) <==> key == i.key
  {
  }

  /** Between resets, what a user, a team or an organisation spent is what its keys spent together. */
  lemma {:induction false} GroupSpendIsItsKeysSpend(budget: Budget, run: Steps, c: Counter, keys: seq<Name>)
    requires Runs(budget, run) && Distinct(keys) && OneGroup(run, c, keys)
    ensures Get(StateOf(budget, run).spend, c) == KeyTotal(StateOf(budget, run).spend, keys)
    ensures MembersAgree(StateOf(budget, run), c, keys)
  {
    hide Next, Enabled, KeyTotal, Distinct, IsChargedTo;
    if run.Then? {
      GroupSpendIsItsKeysSpend(budget, run.before, c, keys);
      GroupStep(budget, StateOf(budget, run.before), run.last, c, keys);
    } else {
      NothingSpent(keys);
    }
  }

  lemma {:induction false} NothingSpent(keys: seq<Name>)
    ensures KeyTotal(map[], keys) == 0.0
  {
    if keys != [] {
      NothingSpent(keys[1..]);
    }
  }
}
