/** check_and_increment_rate_limit: every dimension of one request, checked in turn. */
module RateLimiter {
  import opened Prelude
  import Q = Quotas
  import Redis
  import SW = SlidingWindow
  import TW = TokenWindow

  const WINDOW: nat := 60_000
  const DAY := 86_400_000
  const MONTH := 2_592_000_000

  datatype Limits = Limits(rpm: Option<int>, tpm: Option<int>)

  /** The identity's own limits; an absent limit and a limit of 0 both mean no check. */
  datatype Identity = Identity(
    key: Name, user: Name, team: Option<Name>, org: Option<Name>,
    own: Limits, perModel: map<Name, Limits>, userRpm: Option<int>,
    globalModelRpm: map<Name, int>, dailyQuota: Option<int>, monthlyQuota: Option<int>)

  /** The team and org records, whose limit fields are numbers or missing. */
  datatype Records = Records(teams: map<Name, Limits>, orgs: map<Name, Limits>)

  /** A quota belongs to a key and to one calendar day or month. */
  datatype Period = Daily(key: Name, day: Name) | Monthly(key: Name, month: Name)

  datatype Check =
    | Rpm(scope: Scope, limit: int)
    | Tpm(scope: Scope, limit: int)
    | Quota(period: Period, limit: int, ttl: int)

  datatype Request = Request(id: Name, tokens: int, now: int, plan: seq<Check>)

  // ---------- which checks apply ----------

  function Optional(limit: Option<int>, check: Check): seq<Check> {
    if limit.Some? && limit.value != 0 then [check] else []
  }

  function Lookup<V>(m: map<Name, V>, k: Option<Name>): Option<V> {
    if k.Some? && k.value in m then Some(m[k.value]) else None
  }

  function RpmOf(l: Option<Limits>): Option<int> {
    if l.Some? then l.value.rpm else None
  }

  function TpmOf(l: Option<Limits>, charged: bool): Option<int> {
    if l.Some? && charged then l.value.tpm else None
  }

  function RpmThenTpm(scope: Scope, l: Option<Limits>, charged: bool): seq<Check> {
    Optional(RpmOf(l), Rpm(scope, RpmOf(l).GetOr(0))) + Optional(TpmOf(l, charged), Tpm(scope, TpmOf(l, charged).GetOr(0)))
  }

  function UserChecks(i: Identity): seq<Check> {
    Optional(i.userRpm, Rpm(OfUser(i.user), i.userRpm.GetOr(0)))
  }

  function OrgChecks(i: Identity, records: Records): seq<Check> {
    var org := Lookup(records.orgs, i.org);
    Optional(RpmOf(org), Rpm(OfOrg(i.org.GetOr(i.user)), RpmOf(org).GetOr(0)))
  }

  function ModelChecks(i: Identity, model: Name): seq<Check> {
    var global := Lookup(i.globalModelRpm, Some(model));
    Optional(global, Rpm(OfModel(model), global.GetOr(0)))
  }

  function QuotaChecks(i: Identity, cacheHit: bool, day: Name, month: Name): seq<Check> {
    if cacheHit then [] else
      Optional(i.dailyQuota, Quota(Daily(i.key, day), i.dailyQuota.GetOr(0), DAY))
      + Optional(i.monthlyQuota, Quota(Monthly(i.key, month), i.monthlyQuota.GetOr(0), MONTH))
  }

  /** The checks a request must pass, in the order in which they are made. */
  function Plan(i: Identity, records: Records, model: Name, tokens: int, cacheHit: bool, day: Name, month: Name): seq<Check> {
    var charged := !cacheHit && tokens > 0;
    RpmThenTpm(OfKey(i.key), Some(i.own), charged)
    + (RpmThenTpm(OfKeyAndModel(i.key, model), Lookup(i.perModel, Some(model)), charged)
    + (UserChecks(i)
    + (RpmThenTpm(OfTeam(i.team.GetOr(i.user)), Lookup(records.teams, i.team), charged)
    + (OrgChecks(i, records)
    + (ModelChecks(i, model)
    + QuotaChecks(i, cacheHit, day, month))))))
  }

  /** No two checks of a plan share a counter. */
  ghost predicate SeparateCounters(plan: seq<Check>) {
    forall a, b | 0 <= a < b < |plan| :: !SameCounter(plan[a], plan[b])
  }

  ghost predicate SameCounter(a: Check, b: Check) {
    || (a.Rpm? && b.Rpm? && a.scope == b.scope)
    || (a.Tpm? && b.Tpm? && a.scope == b.scope)
    || (a.Quota? && b.Quota? && a.period == b.period)
  }

  /** The position of a check in the fixed order of dimensions. */
  function Rank(c: Check): nat {
    match c
    case Rpm(OfKey(_), _) => 0
    case Tpm(OfKey(_), _) => 1
    case Rpm(OfKeyAndModel(_, _), _) => 2
    case Tpm(OfKeyAndModel(_, _), _) => 3
    case Rpm(OfUser(_), _) => 4
    case Rpm(OfTeam(_), _) => 5
    case Tpm(OfTeam(_), _) => 6
    case Rpm(OfOrg(_), _) => 7
    case Rpm(OfModel(_), _) => 8
    case Tpm(_, _) => 9
    case Quota(Daily(_, _), _, _) => 10
    case Quota(Monthly(_, _), _, _) => 11
  }

  ghost predicate Ranked(plan: seq<Check>, lo: nat, hi: nat) {
    && (forall c | c in plan :: lo <= Rank(c) < hi && Rank(c) != 9)
    && (forall a, b | 0 <= a < b < |plan| :: Rank(plan[a]) < Rank(plan[b]))
  }

  lemma RankedConcat(a: seq<Check>, b: seq<Check>, lo: nat, mid: nat, hi: nat)
    requires lo <= mid < hi && Ranked(a, lo, mid) && Ranked(b, mid, hi)
    ensures Ranked(a + b, lo, hi)
  {
  }

  lemma RankedSeparates(plan: seq<Check>, hi: nat)
    requires Ranked(plan, 0, hi)
    ensures SeparateCounters(plan)
  {
  }

  lemma PairRanked(scope: Scope, l: Option<Limits>, charged: bool)
    requires scope.OfKey? || scope.OfKeyAndModel? || scope.OfTeam?
    ensures var r := Rank(Rpm(scope, 0)); Ranked(RpmThenTpm(scope, l, charged), r, r + 2)
  {
  }

  lemma SinglesRanked(i: Identity, records: Records, model: Name, cacheHit: bool, day: Name, month: Name)
    ensures Ranked(UserChecks(i), 4, 5) && Ranked(OrgChecks(i, records), 7, 8)
    ensures Ranked(ModelChecks(i, model), 8, 10) && Ranked(QuotaChecks(i, cacheHit, day, month), 10, 12)
  {
  }

  lemma ChainRanked(
    key: seq<Check>, keyModel: seq<Check>, user: seq<Check>, team: seq<Check>, org: seq<Check>, global: seq<Check>,
    quotas: seq<Check>)
    requires Ranked(key, 0, 2) && Ranked(keyModel, 2, 4) && Ranked(user, 4, 5) && Ranked(team, 5, 7)
    requires Ranked(org, 7, 8) && Ranked(global, 8, 10) && Ranked(quotas, 10, 12)
    ensures Ranked(key + (keyModel + (user + (team + (org + (global + quotas))))), 0, 12)
  {
    hide Ranked;
    RankedConcat(global, quotas, 8, 10, 12);
    RankedConcat(org, global + quotas, 7, 8, 12);
    RankedConcat(team, org + (global + quotas), 5, 7, 12);
    RankedConcat(user, team + (org + (global + quotas)), 4, 5, 12);
    RankedConcat(keyModel, user + (team + (org + (global + quotas))), 2, 4, 12);
    RankedConcat(key, keyModel + (user + (team + (org + (global + quotas)))), 0, 2, 12);
  }

  /** The checks come in the fixed order of dimensions, and one request never meets the same counter twice. */
  lemma PlanSeparatesCounters(i: Identity, records: Records, model: Name, tokens: int, cacheHit: bool, day: Name, month: Name)
    ensures Ranked(Plan(i, records, model, tokens, cacheHit, day, month), 0, 12)
    ensures SeparateCounters(Plan(i, records, model, tokens, cacheHit, day, month))
  {
    hide RpmThenTpm, UserChecks, OrgChecks, ModelChecks, QuotaChecks, Ranked, SeparateCounters, Lookup;
    var charged := !cacheHit && tokens > 0;
    var keyModel, team := Lookup(i.perModel, Some(model)), Lookup(records.teams, i.team);
    PairRanked(OfKey(i.key), Some(i.own), charged);
    PairRanked(OfKeyAndModel(i.key, model), keyModel, charged);
    PairRanked(OfTeam(i.team.GetOr(i.user)), team, charged);
    SinglesRanked(i, records, model, cacheHit, day, month);
    ChainRanked(
      RpmThenTpm(OfKey(i.key), Some(i.own), charged), RpmThenTpm(OfKeyAndModel(i.key, model), keyModel, charged),
      UserChecks(i), RpmThenTpm(OfTeam(i.team.GetOr(i.user)), team, charged), OrgChecks(i, records),
      ModelChecks(i, model), QuotaChecks(i, cacheHit, day, month));
    RankedSeparates(Plan(i, records, model, tokens, cacheHit, day, month), 12);
  }

  /** The limits in force for a request at a scope, wherever they are stored. */
  ghost function LimitsAt(i: Identity, records: Records, model: Name, scope: Scope): Limits {
    match scope
    case OfKey(k) => if k == i.key then i.own else Limits(None, None)
    case OfKeyAndModel(k, m) => if k == i.key && m == model && m in i.perModel then i.perModel[m] else Limits(None, None)
    case OfUser(u) => if u == i.user then Limits(i.userRpm, None) else Limits(None, None)
    case OfTeam(t) => if i.team == Some(t) && t in records.teams then records.teams[t] else Limits(None, None)
    case OfOrg(o) => if i.org == Some(o) && o in records.orgs then Limits(records.orgs[o].rpm, None) else Limits(None, None)
    case OfModel(m) => if m == model && m in i.globalModelRpm then Limits(Some(i.globalModelRpm[m]), None) else Limits(None, None)
  }

  ghost predicate AppliesTo(
    c: Check, i: Identity, records: Records, model: Name, tokens: int, cacheHit: bool, day: Name, month: Name)
  {
    && c.limit != 0
    && match c
       case Rpm(scope, limit) => LimitsAt(i, records, model, scope).rpm == Some(limit)
       case Tpm(scope, limit) => !cacheHit && tokens > 0 && LimitsAt(i, records, model, scope).tpm == Some(limit)
       case Quota(period, limit, ttl) =>
         && !cacheHit
         && ((period == Daily(i.key, day) && i.dailyQuota == Some(limit) && ttl == DAY)
             || (period == Monthly(i.key, month) && i.monthlyQuota == Some(limit) && ttl == MONTH))
  }

  lemma InPair(scope: Scope, l: Option<Limits>, charged: bool, c: Check)
    ensures
      c in RpmThenTpm(scope, l, charged) <==>
      && l.Some? && c.limit != 0
      && ((c.Rpm? && c.scope == scope && l.value.rpm == Some(c.limit))
          || (c.Tpm? && c.scope == scope && charged && l.value.tpm == Some(c.limit)))
  {
  }

  lemma InQuotas(i: Identity, cacheHit: bool, day: Name, month: Name, c: Check)
    ensures
      c in QuotaChecks(i, cacheHit, day, month) <==>
      && !cacheHit && c.limit != 0 && c.Quota?
      && ((c.period == Daily(i.key, day) && i.dailyQuota == Some(c.limit) && c.ttl == DAY)
          || (c.period == Monthly(i.key, month) && i.monthlyQuota == Some(c.limit) && c.ttl == MONTH))
  {
  }

  lemma InSingles(i: Identity, records: Records, model: Name, c: Check)
    ensures c in UserChecks(i) <==> c.limit != 0 && c.Rpm? && c.scope == OfUser(i.user) && i.userRpm == Some(c.limit)
    ensures
      c in OrgChecks(i, records) <==>
      && c.limit != 0 && c.Rpm? && c.scope.OfOrg? && i.org == Some(c.scope.org)
      && c.scope.org in records.orgs && records.orgs[c.scope.org].rpm == Some(c.limit)
    ensures
      c in ModelChecks(i, model) <==>
      && c.limit != 0 && c.Rpm? && c.scope == OfModel(model)
      && model in i.globalModelRpm && i.globalModelRpm[model] == c.limit
  {
  }

  lemma InChain(
    c: Check, key: seq<Check>, keyModel: seq<Check>, user: seq<Check>, team: seq<Check>, org: seq<Check>, global: seq<Check>,
    quotas: seq<Check>)
    ensures
      c in key + (keyModel + (user + (team + (org + (global + quotas))))) <==>
      c in key || c in keyModel || c in user || c in team || c in org || c in global || c in quotas
  {
  }

  /** A check is made if and only if a limit other than 0 is in force for it; no dimension is skipped and none is invented. */
  lemma PlanAppliesEveryLimit(
    i: Identity, records: Records, model: Name, tokens: int, cacheHit: bool, day: Name, month: Name, c: Check)
    ensures
      c in Plan(i, records, model, tokens, cacheHit, day, month) <==>
      AppliesTo(c, i, records, model, tokens, cacheHit, day, month)
  {
    hide RpmThenTpm, UserChecks, OrgChecks, ModelChecks, QuotaChecks;
    var charged := !cacheHit && tokens > 0;
    var keyModel, team := Lookup(i.perModel, Some(model)), Lookup(records.teams, i.team);
    InPair(OfKey(i.key), Some(i.own), charged, c);
    InPair(OfKeyAndModel(i.key, model), keyModel, charged, c);
    InPair(OfTeam(i.team.GetOr(i.user)), team, charged, c);
    InSingles(i, records, model, c);
    InQuotas(i, cacheHit, day, month, c);
    InChain(
      c, RpmThenTpm(OfKey(i.key), Some(i.own), charged), RpmThenTpm(OfKeyAndModel(i.key, model), keyModel, charged),
      UserChecks(i), RpmThenTpm(OfTeam(i.team.GetOr(i.user)), team, charged), OrgChecks(i, records),
      ModelChecks(i, model), QuotaChecks(i, cacheHit, day, month));
  }

  ghost predicate TokenChecksOnlyIf(charged: bool, plan: seq<Check>) {
    forall c | c in plan && c.Tpm? :: charged
  }

  /** What the runs below ask of a plan, Plan provides. */
  lemma PlansAreWellMade(i: Identity, records: Records, model: Name, tokens: int, cacheHit: bool, day: Name, month: Name)
    ensures SeparateCounters(Plan(i, records, model, tokens, cacheHit, day, month))
    ensures TokenChecksOnlyIf(0 < tokens, Plan(i, records, model, tokens, cacheHit, day, month))
  {
    hide Plan, AppliesTo, SeparateCounters, Ranked;
    PlanSeparatesCounters(i, records, model, tokens, cacheHit, day, month);
    forall c | c in Plan(i, records, model, tokens, cacheHit, day, month) && c.Tpm?
      ensures 0 < tokens
    {
      PlanAppliesEveryLimit(i, records, model, tokens, cacheHit, day, month, c);
      TokensNeeded(c, i, records, model, tokens, cacheHit, day, month);
    }
  }

  lemma TokensNeeded(
    c: Check, i: Identity, records: Records, model: Name, tokens: int, cacheHit: bool, day: Name, month: Name)
    requires AppliesTo(c, i, records, model, tokens, cacheHit, day, month) && c.Tpm?
    ensures 0 < tokens
  {
  }

  // ---------- one request ----------

  type Quotas = map<Period, Redis.Entry<int>>

  datatype Stores = Stores(rpm: SW.Store, tpm: TW.Store, quotas: Quotas)

  /** A request reads its clock once, at its start; Redis serves each of its checks at a time of its own. */
  function RpmCall(r: Request, c: Check, at: int): SW.Call
    requires c.Rpm?
  {
    Arrival(c.scope, c.limit, at, r.now, r.id)
  }

  function TpmCall(r: Request, c: Check, at: int): TW.Call
    requires c.Tpm?
  {
    Arrival(c.scope, c.limit, at, r.now, r.tokens)
  }

  function QuotaStep(q: Quotas, c: Check, tokens: int, now: int): (Quotas, bool)
    requires c.Quota?
  {
    var (slot, ok) := Q.Check(Redis.SlotOf(q, c.period), c.limit, tokens, c.ttl, now);
    (Redis.Store(q, c.period, slot), ok)
  }

  ghost function Apply(s: Stores, r: Request, c: Check, at: int): (Stores, bool) {
    match c
    case Rpm(_, _) =>
      var (z, reply) := SW.Step(s.rpm, WINDOW, RpmCall(r, c, at));
      (s.(rpm := z), reply.allowed)
    case Tpm(_, _) =>
      var (z, reply) := TW.Step(s.tpm, WINDOW, TpmCall(r, c, at));
      (s.(tpm := z), reply.allowed)
    case Quota(_, _, _) =>
      var (q, ok) := QuotaStep(s.quotas, c, r.tokens, at);
      (s.(quotas := q), ok)
  }

  /** One request with nothing in between: checks up to the first refusal; the dimensions before it stay charged. */
  ghost function RunPlan(s: Stores, r: Request, plan: seq<Check>): (Stores, bool)
    decreases |plan|
  {
    if plan == [] then (s, true) else
      var (s', ok) := Apply(s, r, plan[0], r.now);
      if ok then RunPlan(s', r, plan[1..]) else (s', false)
  }

  lemma {:induction false} RunPlanConcat(s: Stores, r: Request, a: seq<Check>, b: seq<Check>)
    ensures
      var (s', ok) := RunPlan(s, r, a);
      RunPlan(s, r, a + b) == if ok then RunPlan(s', r, b) else (s', false)
    decreases |a|
  {
    hide Apply;
    if a == [] {
      assert a + b == b;
    } else {
      var (s', ok) := Apply(s, r, a[0], r.now);
      assert (a + b)[1..] == a[1..] + b;
      RunPlanConcat(s', r, a[1..], b);
    }
  }

  class Limiter {
    const rpm: SW.Limiter
    const tpm: TW.Limiter
    var quotas: Quotas

    constructor ()
      ensures fresh(rpm) && fresh(tpm)
      ensures Now() == Stores(map[], map[], map[])
    {
      rpm := new SW.Limiter();
      tpm := new TW.Limiter();
      quotas := map[];
    }

    ghost function Now(): Stores
      reads this, rpm, tpm
    {
      Stores(rpm.zsets, tpm.zsets, quotas)
    }

    method Try(r: Request, c: Check, at: int) returns (ok: bool)
      modifies this, rpm, tpm
      ensures (Now(), ok) == Apply(old(Now()), r, c, at)
    {
      match c {
        case Rpm(_, _) =>
          var reply := rpm.CheckSlidingWindow(WINDOW, RpmCall(r, c, at));
          ok := reply.allowed;
        case Tpm(_, _) =>
          var reply := tpm.CheckTpm(WINDOW, TpmCall(r, c, at));
          ok := reply.allowed;
        case Quota(_, _, _) =>
          var slot;
          slot, ok := Q.CheckQuota(Redis.SlotOf(quotas, c.period), c.limit, r.tokens, c.ttl, at);
          quotas := Redis.Store(quotas, c.period, slot);
      }
    }

    /** One dimension: nothing happens when its limit is missing or 0. */
    method TryOptional(r: Request, limit: Option<int>, c: Check) returns (ok: bool)
      modifies this, rpm, tpm
      ensures (Now(), ok) == RunPlan(old(Now()), r, Optional(limit, c))
    {
      ok := true;
      if limit.Some? && limit.value != 0 {
        ok := Try(r, c, r.now);
      }
    }

    method TryBoth(r: Request, scope: Scope, l: Option<Limits>, charged: bool) returns (ok: bool)
      modifies this, rpm, tpm
      ensures (Now(), ok) == RunPlan(old(Now()), r, RpmThenTpm(scope, l, charged))
    {
      var a, b := RpmOf(l), TpmOf(l, charged);
      RunPlanConcat(Now(), r, Optional(a, Rpm(scope, a.GetOr(0))), Optional(b, Tpm(scope, b.GetOr(0))));
      ok := TryOptional(r, a, Rpm(scope, a.GetOr(0)));
      if !ok {
        return;
      }
      ok := TryOptional(r, b, Tpm(scope, b.GetOr(0)));
    }

    method TryQuotas(r: Request, i: Identity, cacheHit: bool, day: Name, month: Name) returns (ok: bool)
      modifies this, rpm, tpm
      ensures (Now(), ok) == RunPlan(old(Now()), r, QuotaChecks(i, cacheHit, day, month))
    {
      ok := true;
      if cacheHit {
        return;
      }
      var a := Quota(Daily(i.key, day), i.dailyQuota.GetOr(0), DAY);
      var b := Quota(Monthly(i.key, month), i.monthlyQuota.GetOr(0), MONTH);
      RunPlanConcat(Now(), r, Optional(i.dailyQuota, a), Optional(i.monthlyQuota, b));
      ok := TryOptional(r, i.dailyQuota, a);
      if !ok {
        return;
      }
      ok := TryOptional(r, i.monthlyQuota, b);
    }

    method TryShared(r: Request, i: Identity, records: Records, model: Name, cacheHit: bool, day: Name, month: Name)
      returns (ok: bool)
      modifies this, rpm, tpm
      ensures
        (Now(), ok) ==
        RunPlan(old(Now()), r, OrgChecks(i, records) + (ModelChecks(i, model) + QuotaChecks(i, cacheHit, day, month)))
    {
      hide Apply;
      var org, global := RpmOf(Lookup(records.orgs, i.org)), Lookup(i.globalModelRpm, Some(model));
      ghost var quotas := QuotaChecks(i, cacheHit, day, month);
      RunPlanConcat(Now(), r, OrgChecks(i, records), ModelChecks(i, model) + quotas);
      ok := TryOptional(r, org, Rpm(OfOrg(i.org.GetOr(i.user)), org.GetOr(0)));
      if !ok {
        return;
      }
      RunPlanConcat(Now(), r, ModelChecks(i, model), quotas);
      ok := TryOptional(r, global, Rpm(OfModel(model), global.GetOr(0)));
      if !ok {
        return;
      }
      ok := TryQuotas(r, i, cacheHit, day, month);
    }

    method CheckAndIncrement(
      id: Name, now: int, i: Identity, records: Records, model: Name, tokens: int, cacheHit: bool, day: Name, month: Name)
      returns (ok: bool)
      modifies this, rpm, tpm
      ensures
        var plan := Plan(i, records, model, tokens, cacheHit, day, month);
        (Now(), ok) == RunPlan(old(Now()), Request(id, tokens, now, plan), plan)
    {
      hide Apply, RpmThenTpm, Lookup, OrgChecks, ModelChecks, QuotaChecks;
      var charged := !cacheHit && tokens > 0;
      var r := Request(id, tokens, now, Plan(i, records, model, tokens, cacheHit, day, month));
      var perModel, team := Lookup(i.perModel, Some(model)), Lookup(records.teams, i.team);
      ghost var a := RpmThenTpm(OfKey(i.key), Some(i.own), charged);
      ghost var b := RpmThenTpm(OfKeyAndModel(i.key, model), perModel, charged);
      ghost var c := RpmThenTpm(OfTeam(i.team.GetOr(i.user)), team, charged);
      ghost var shared := OrgChecks(i, records) + (ModelChecks(i, model) + QuotaChecks(i, cacheHit, day, month));
      RunPlanConcat(Now(), r, a, b + (UserChecks(i) + (c + shared)));
      ok := TryBoth(r, OfKey(i.key), Some(i.own), charged);
      if !ok {
        return;
      }
      RunPlanConcat(Now(), r, b, UserChecks(i) + (c + shared));
      ok := TryBoth(r, OfKeyAndModel(i.key, model), perModel, charged);
      if !ok {
        return;
      }
      RunPlanConcat(Now(), r, UserChecks(i), c + shared);
      ok := TryOptional(r, i.userRpm, Rpm(OfUser(i.user), i.userRpm.GetOr(0)));
      if !ok {
        return;
      }
      RunPlanConcat(Now(), r, c, shared);
      ok := TryBoth(r, OfTeam(i.team.GetOr(i.user)), team, charged);
      if !ok {
        return;
      }
      ok := TryShared(r, i, records, model, cacheHit, day, month);
    }
  }

  /** A refusal late in a plan leaves the dimensions before it charged. */
  lemma LateRefusalStillCharges(s: Stores, r: Request, passed: seq<Check>, refusing: Check, rest: seq<Check>)
    ensures
      var (charged, ok) := RunPlan(s, r, passed);
      ok && !Apply(charged, r, refusing, r.now).1 ==>
        RunPlan(s, r, passed + ([refusing] + rest)) == Apply(charged, r, refusing, r.now)
  {
    hide Apply;
    RunPlanConcat(s, r, passed, [refusing] + rest);
  }

  // ---------- interleaved requests ----------

  /** The calls each kind of counter has served so far. */
  datatype History = History(rpm: SW.Calls, tpm: TW.Calls, quotas: Quotas)

  ghost function StoresOf(h: History): Stores {
    Stores(SW.State(WINDOW, h.rpm), TW.State(WINDOW, h.tpm), h.quotas)
  }

  ghost function Serve(h: History, r: Request, c: Check, at: int): (History, bool) {
    match c
    case Rpm(_, _) => (h.(rpm := Then(h.rpm, RpmCall(r, c, at))), SW.ReplyTo(WINDOW, h.rpm, RpmCall(r, c, at)).allowed)
    case Tpm(_, _) => (h.(tpm := Then(h.tpm, TpmCall(r, c, at))), TW.ReplyTo(WINDOW, h.tpm, TpmCall(r, c, at)).allowed)
    case Quota(_, _, _) =>
      var (q, ok) := QuotaStep(h.quotas, c, r.tokens, at);
      (h.(quotas := q), ok)
  }

  /** Serving from the call histories is what the stores do. */
  lemma ServeIsApply(h: History, r: Request, c: Check, at: int)
    ensures Apply(StoresOf(h), r, c, at) == (StoresOf(Serve(h, r, c, at).0), Serve(h, r, c, at).1)
  {
    hide SW.Script, TW.Check, Redis.SlotOf, Redis.Store, QuotaStep;
  }

  /** An open request and how many of its checks it has passed; it has passed altogether when that is all of them. */
  datatype Progress = Progress(request: Request, done: nat)

  datatype System = System(history: History, open: map<Name, Progress>)

  datatype Step = Begin(request: Request) | Next(id: Name, at: int)

  type Steps = Run<Step>

  ghost predicate Checking(s: System, id: Name) {
    id in s.open && s.open[id].done < |s.open[id].request.plan|
  }

  ghost function CheckOf(s: System, id: Name): Check
    requires Checking(s, id)
  {
    s.open[id].request.plan[s.open[id].done]
  }

  /** A request begins, or an open one makes its next check; a refusal ends it. */
  ghost function Move(s: System, step: Step): System {
    match step
    case Begin(r) => s.(open := s.open[r.id := Progress(r, 0)])
    case Next(id, at) =>
      if !Checking(s, id) then s else
        var p := s.open[id];
        var (h, ok) := Serve(s.history, p.request, CheckOf(s, id), at);
        System(h, if ok then s.open[id := p.(done := p.done + 1)] else s.open - {id})
  }

  ghost function SystemAfter(run: Steps): System {
    if run.Start? then System(History(Start, Start, map[]), map[]) else Move(SystemAfter(run.before), run.last)
  }

  /** The rest of a request's checks, one after the other. */
  ghost function Uninterrupted(s: System, id: Name, at: int, n: nat): System
    decreases n
  {
    if n == 0 then s else Uninterrupted(Move(s, Next(id, at)), id, at, n - 1)
  }

  /** A request that nothing interrupts does what RunPlan says, and stays open exactly when it passes. */
  lemma {:induction false} UninterruptedIsRunPlan(s: System, id: Name, n: nat)
    requires id in s.open && n == |s.open[id].request.plan| - s.open[id].done
    ensures
      var r := s.open[id].request;
      var (stores, ok) := RunPlan(StoresOf(s.history), r, r.plan[s.open[id].done..]);
      var after := Uninterrupted(s, id, r.now, n);
      && StoresOf(after.history) == stores
      && (id in after.open <==> ok)
    decreases n
  {
    hide StoresOf, Serve, Apply;
    if n > 0 {
      var p := s.open[id];
      var r := p.request;
      var next := Move(s, Next(id, r.now));
      ServeIsApply(s.history, r, CheckOf(s, id), r.now);
      assert r.plan[p.done..][1..] == r.plan[p.done + 1..];
      if Serve(s.history, r, CheckOf(s, id), r.now).1 {
        UninterruptedIsRunPlan(next, id, n - 1);
      } else {
        NothingToDo(next, id, r.now, n - 1);
      }
    }
  }

  lemma {:induction false} NothingToDo(s: System, id: Name, at: int, n: nat)
    requires id !in s.open
    ensures Uninterrupted(s, id, at, n) == s
  {
    if n > 0 {
      NothingToDo(s, id, at, n - 1);
    }
  }

  ghost predicate Begun(run: Steps, id: Name) {
    run.Then? && ((run.last.Begin? && run.last.request.id == id) || Begun(run.before, id))
  }

  /** Request ids are fresh, and plans are as Plan makes them: no counter twice, token checks only with tokens. */
  ghost predicate WellPlanned(run: Steps) {
    run.Then? ==>
      && WellPlanned(run.before)
      && (run.last.Begin? ==>
            && !Begun(run.before, run.last.request.id)
            && SeparateCounters(run.last.request.plan)
            && TokenChecksOnlyIf(0 < run.last.request.tokens, run.last.request.plan))
  }

  // ---------- requests per minute ----------

  ghost predicate RpmLimitsAtMost(plan: seq<Check>, scope: Scope, limit: int) {
    forall c | c in plan && c.Rpm? && c.scope == scope :: c.limit <= limit
  }

  ghost predicate AllRpmLimitsAtMost(run: Steps, scope: Scope, limit: int) {
    run.Then? ==>
      && AllRpmLimitsAtMost(run.before, scope, limit)
      && (run.last.Begin? ==> RpmLimitsAtMost(run.last.request.plan, scope, limit))
  }

  ghost predicate IsRpmAt(c: Check, scope: Scope) {
    c.Rpm? && c.scope == scope
  }

  /** The request checks made at the scope reach Redis in time, and Redis's clock does not run back between them. */
  ghost predicate RpmTimely(late: nat, run: Steps, scope: Scope) {
    run.Then? ==>
      && RpmTimely(late, run.before, scope)
      && var s := SystemAfter(run.before);
         (run.last.Next? && Checking(s, run.last.id) && IsRpmAt(CheckOf(s, run.last.id), scope) ==>
            && Clock(s.history.rpm, scope) <= run.last.at
            && Punctual(late, s.open[run.last.id].request.now, run.last.at))
  }

  /** Among the checks passed so far is one of requests at the scope. */
  ghost predicate CountedSoFar(p: Progress, scope: Scope) {
    exists k :: 0 <= k < p.done && k < |p.request.plan| && IsRpmAt(p.request.plan[k], scope)
  }

  lemma CountedOneMore(p: Progress, scope: Scope)
    requires p.done < |p.request.plan|
    ensures
      CountedSoFar(p.(done := p.done + 1), scope) <==> CountedSoFar(p, scope) || IsRpmAt(p.request.plan[p.done], scope)
  {
    var q := p.(done := p.done + 1);
    if CountedSoFar(q, scope) {
      var k :| 0 <= k < q.done && IsRpmAt(q.request.plan[k], scope);
      assert IsRpmAt(p.request.plan[k], scope);
    }
    if IsRpmAt(p.request.plan[p.done], scope) {
      assert IsRpmAt(q.request.plan[p.done], scope);
    }
    if CountedSoFar(p, scope) {
      var k :| 0 <= k < p.done && IsRpmAt(p.request.plan[k], scope);
      assert IsRpmAt(q.request.plan[k], scope);
    }
  }

  lemma NotCountedTwice(p: Progress, scope: Scope)
    requires p.done < |p.request.plan| && SeparateCounters(p.request.plan) && IsRpmAt(p.request.plan[p.done], scope)
    ensures !CountedSoFar(p, scope)
  {
    forall k | 0 <= k < p.done
      ensures !IsRpmAt(p.request.plan[k], scope)
    {
      assert !SameCounter(p.request.plan[k], p.request.plan[p.done]);
    }
  }

  lemma ServeElsewhere(late: nat, h: History, r: Request, c: Check, at: int, scope: Scope, limit: int)
    requires !IsRpmAt(c, scope)
    ensures
      var calls := Serve(h, r, c, at).0.rpm;
      && (SW.Valid(late, h.rpm, scope) ==> SW.Valid(late, calls, scope))
      && (Bounded(h.rpm, scope, limit) ==> Bounded(calls, scope, limit))
      && (forall id :: SW.Used(calls, scope, id) <==> SW.Used(h.rpm, scope, id))
      && SW.Admitted(WINDOW, calls, scope) == SW.Admitted(WINDOW, h.rpm, scope)
  {
    hide SW.ReplyTo, TW.ReplyTo, QuotaStep;
  }

  lemma ServeHere(late: nat, h: History, r: Request, c: Check, at: int, scope: Scope, limit: int)
    requires IsRpmAt(c, scope) && c.limit <= limit
    requires SW.Valid(late, h.rpm, scope) && Bounded(h.rpm, scope, limit) && !SW.Used(h.rpm, scope, r.id)
    requires Clock(h.rpm, scope) <= at && Punctual(late, r.now, at)
    ensures
      var (after, ok) := Serve(h, r, c, at);
      var log := SW.Admitted(WINDOW, h.rpm, scope);
      && SW.Valid(late, after.rpm, scope) && Bounded(after.rpm, scope, limit)
      && (forall id :: SW.Used(after.rpm, scope, id) <==> SW.Used(h.rpm, scope, id) || id == r.id)
      && r.id !in log
      && SW.Admitted(WINDOW, after.rpm, scope) == if ok then log[r.id := r.now] else log
  {
    hide SW.ReplyTo;
    SW.AdmittedWereUsed(WINDOW, h.rpm, scope);
  }

  ghost predicate ProgressAgrees(p: Progress, id: Name, scope: Scope, limit: int, log: SW.Log) {
    && p.request.id == id && SeparateCounters(p.request.plan) && RpmLimitsAtMost(p.request.plan, scope, limit)
    && (CountedSoFar(p, scope) ==> id in log && log[id] == p.request.now)
  }

  /** Every open request that passed a check at the scope is in its log. */
  ghost predicate OpenAgrees(open: map<Name, Progress>, scope: Scope, limit: int, log: SW.Log) {
    forall id | id in open :: ProgressAgrees(open[id], id, scope, limit, log)
  }

  /** Only requests that have begun were presented at the scope, and the open ones among them passed. */
  ghost predicate UsedAgrees(run: Steps, open: map<Name, Progress>, scope: Scope, calls: SW.Calls) {
    && (forall id | SW.Used(calls, scope, id) :: Begun(run, id))
    && (forall id | SW.Used(calls, scope, id) && id in open :: CountedSoFar(open[id], scope))
    && (forall id | id in open :: Begun(run, id))
  }

  ghost predicate AllCounted(late: nat, run: Steps, scope: Scope, limit: int) {
    var s := SystemAfter(run);
    && SW.Valid(late, s.history.rpm, scope) && Bounded(s.history.rpm, scope, limit)
    && OpenAgrees(s.open, scope, limit, SW.Admitted(WINDOW, s.history.rpm, scope))
    && UsedAgrees(run, s.open, scope, s.history.rpm)
  }

  ghost function Advance(open: map<Name, Progress>, id: Name, ok: bool): map<Name, Progress>
    requires id in open
  {
    if ok then open[id := open[id].(done := open[id].done + 1)] else open - {id}
  }

  lemma OpenAdvances(open: map<Name, Progress>, id: Name, ok: bool, scope: Scope, limit: int, log: SW.Log, log': SW.Log)
    requires OpenAgrees(open, scope, limit, log) && id in open && open[id].done < |open[id].request.plan|
    requires
      log' == if ok && IsRpmAt(open[id].request.plan[open[id].done], scope) then log[id := open[id].request.now] else log
    ensures OpenAgrees(Advance(open, id, ok), scope, limit, log')
  {
    hide CountedSoFar, SeparateCounters, RpmLimitsAtMost, IsRpmAt;
    CountedOneMore(open[id], scope);
    assert ProgressAgrees(open[id], id, scope, limit, log);
    forall other | other in Advance(open, id, ok)
      ensures ProgressAgrees(Advance(open, id, ok)[other], other, scope, limit, log')
    {
      assert ProgressAgrees(open[other], other, scope, limit, log);
    }
  }

  lemma UsedAdvances(
    run: Steps, step: Step, open: map<Name, Progress>, id: Name, ok: bool, scope: Scope, calls: SW.Calls, calls': SW.Calls)
    requires UsedAgrees(run, open, scope, calls) && id in open && open[id].done < |open[id].request.plan|
    requires
      forall m :: SW.Used(calls', scope, m) <==>
                  SW.Used(calls, scope, m) || (m == id && IsRpmAt(open[id].request.plan[open[id].done], scope))
    ensures UsedAgrees(Then(run, step), Advance(open, id, ok), scope, calls')
  {
    hide CountedSoFar, IsRpmAt, SW.Used;
    CountedOneMore(open[id], scope);
    assert forall m | Begun(run, m) :: Begun(Then(run, step), m);
  }

  lemma NextCounted(late: nat, run: Steps, id: Name, at: int, scope: Scope, limit: int)
    requires AllCounted(late, run, scope, limit) && Checking(SystemAfter(run), id)
    requires IsRpmAt(CheckOf(SystemAfter(run), id), scope) ==>
               && Clock(SystemAfter(run).history.rpm, scope) <= at
               && Punctual(late, SystemAfter(run).open[id].request.now, at)
    ensures AllCounted(late, Then(run, Next(id, at)), scope, limit)
  {
    hide Serve, SW.Valid, Bounded, SW.Used, SW.Admitted, Clock, Punctual, CountedSoFar, UsedAgrees, SeparateCounters,
      RpmLimitsAtMost, IsRpmAt;
    var s := SystemAfter(run);
    var p, c, log := s.open[id], CheckOf(s, id), SW.Admitted(WINDOW, s.history.rpm, scope);
    var (h, ok) := Serve(s.history, p.request, c, at);
    assert ProgressAgrees(p, id, scope, limit, log);
    if IsRpmAt(c, scope) {
      NotPresented(run, s.open, id, scope, s.history.rpm);
      LimitOf(p.request.plan, p.done, scope, limit);
      ServeHere(late, s.history, p.request, c, at, scope, limit);
    } else {
      ServeElsewhere(late, s.history, p.request, c, at, scope, limit);
    }
    OpenAdvances(s.open, id, ok, scope, limit, log, SW.Admitted(WINDOW, h.rpm, scope));
    UsedAdvances(run, Next(id, at), s.open, id, ok, scope, s.history.rpm, h.rpm);
  }

  lemma NotPresented(run: Steps, open: map<Name, Progress>, id: Name, scope: Scope, calls: SW.Calls)
    requires UsedAgrees(run, open, scope, calls) && id in open && open[id].done < |open[id].request.plan|
    requires SeparateCounters(open[id].request.plan) && IsRpmAt(open[id].request.plan[open[id].done], scope)
    ensures !SW.Used(calls, scope, id)
  {
    NotCountedTwice(open[id], scope);
  }

  lemma LimitOf(plan: seq<Check>, n: nat, scope: Scope, limit: int)
    requires n < |plan| && RpmLimitsAtMost(plan, scope, limit) && IsRpmAt(plan[n], scope)
    ensures plan[n].limit <= limit
  {
  }

  lemma OpenBegins(open: map<Name, Progress>, r: Request, scope: Scope, limit: int, log: SW.Log)
    requires OpenAgrees(open, scope, limit, log) && SeparateCounters(r.plan) && RpmLimitsAtMost(r.plan, scope, limit)
    ensures OpenAgrees(open[r.id := Progress(r, 0)], scope, limit, log)
  {
    hide SeparateCounters, RpmLimitsAtMost, IsRpmAt;
    assert !CountedSoFar(Progress(r, 0), scope);
  }

  lemma UsedBegins(run: Steps, open: map<Name, Progress>, r: Request, scope: Scope, calls: SW.Calls)
    requires UsedAgrees(run, open, scope, calls) && !Begun(run, r.id)
    ensures UsedAgrees(Then(run, Begin(r)), open[r.id := Progress(r, 0)], scope, calls)
  {
    hide CountedSoFar, SW.Used;
    assert forall m | Begun(run, m) :: Begun(Then(run, Begin(r)), m);
  }

  lemma BeginCounted(late: nat, run: Steps, r: Request, scope: Scope, limit: int)
    requires AllCounted(late, run, scope, limit) && !Begun(run, r.id)
    requires SeparateCounters(r.plan) && RpmLimitsAtMost(r.plan, scope, limit)
    ensures AllCounted(late, Then(run, Begin(r)), scope, limit)
  {
    hide SW.Valid, Bounded, SW.Used, SW.Admitted, SeparateCounters, RpmLimitsAtMost, OpenAgrees, UsedAgrees, Begun;
    var s := SystemAfter(run);
    OpenBegins(s.open, r, scope, limit, SW.Admitted(WINDOW, s.history.rpm, scope));
    UsedBegins(run, s.open, r, scope, s.history.rpm);
  }

  lemma {:induction false} RunCounts(late: nat, run: Steps, scope: Scope, limit: int)
    requires WellPlanned(run) && RpmTimely(late, run, scope) && AllRpmLimitsAtMost(run, scope, limit)
    ensures AllCounted(late, run, scope, limit)
  {
    hide Clock, Punctual, SeparateCounters, RpmLimitsAtMost, IsRpmAt, TokenChecksOnlyIf, AllCounted;
    if run.Start? {
      NothingCounted(late, scope, limit);
    } else {
      RunCounts(late, run.before, scope, limit);
      assert run == Then(run.before, run.last);
      match run.last {
        case Begin(r) => BeginCounted(late, run.before, r, scope, limit);
        case Next(id, at) =>
          if Checking(SystemAfter(run.before), id) {
            NextCounted(late, run.before, id, at, scope, limit);
          } else {
            IdleCounted(late, run, scope, limit);
          }
      }
    }
  }

  lemma NothingCounted(late: nat, scope: Scope, limit: int)
    ensures AllCounted(late, Start, scope, limit)
  {
  }

  lemma IdleCounted(late: nat, run: Steps, scope: Scope, limit: int)
    requires run.Then? && run.last.Next? && !Checking(SystemAfter(run.before), run.last.id)
    requires AllCounted(late, run.before, scope, limit)
    ensures AllCounted(late, run, scope, limit)
  {
    hide SW.Valid, Bounded, SW.Used, SW.Admitted, OpenAgrees, CountedSoFar;
  }

  ghost predicate CountedAt(plan: seq<Check>, scope: Scope) {
    exists k :: 0 <= k < |plan| && IsRpmAt(plan[k], scope)
  }

  ghost predicate Passed(p: Progress) {
    p.done >= |p.request.plan|
  }

  /** The requests that have passed all their checks, among those counted at a scope, with their times. */
  ghost function PassedAt(run: Steps, scope: Scope): SW.Log {
    var open := SystemAfter(run).open;
    map id | id in open && Passed(open[id]) && CountedAt(open[id].request.plan, scope) :: open[id].request.now
  }

  lemma PassedWereAdmitted(late: nat, run: Steps, scope: Scope, limit: int)
    requires AllCounted(late, run, scope, limit)
    ensures SW.PartOf(PassedAt(run, scope), SW.Admitted(WINDOW, SystemAfter(run).history.rpm, scope))
  {
    hide SW.Valid, Bounded, SW.Admitted, UsedAgrees, SeparateCounters, RpmLimitsAtMost, IsRpmAt;
    var s := SystemAfter(run);
    forall id | id in PassedAt(run, scope)
      ensures CountedSoFar(s.open[id], scope)
      ensures ProgressAgrees(s.open[id], id, scope, limit, SW.Admitted(WINDOW, s.history.rpm, scope))
    {
      var plan := s.open[id].request.plan;
      var k :| 0 <= k < |plan| && IsRpmAt(plan[k], scope);
      assert IsRpmAt(s.open[id].request.plan[k], scope);
    }
  }

  lemma FewerBetween(a: SW.Log, b: SW.Log, lo: int, hi: int)
    requires SW.PartOf(a, b)
    ensures |SW.Between(a, lo, hi)| <= |SW.Between(b, lo, hi)|
  {
    SubsetSize(SW.Between(a, lo, hi), SW.Between(b, lo, hi));
  }

  lemma CountedFit(late: nat, run: Steps, scope: Scope, limit: nat, t: int)
    requires AllCounted(late, run, scope, limit)
    ensures |SW.Between(PassedAt(run, scope), t - WINDOW + late, t)| <= limit
  {
    hide SW.Between, PassedAt, SW.Valid, Bounded, SW.Admitted, OpenAgrees, UsedAgrees, SystemAfter;
    var calls := SystemAfter(run).history.rpm;
    PassedWereAdmitted(late, run, scope, limit);
    SW.WindowNeverExceeded(late, WINDOW, calls, scope, limit, t);
    FewerBetween(PassedAt(run, scope), SW.Admitted(WINDOW, calls, scope), t - WINDOW + late, t);
  }

  lemma CountedRequestsFit(late: nat, run: Steps, scope: Scope, limit: nat, t: int)
    requires WellPlanned(run) && RpmTimely(late, run, scope) && AllRpmLimitsAtMost(run, scope, limit)
    ensures |SW.Between(PassedAt(run, scope), t - WINDOW + late, t)| <= limit
  {
    hide AllCounted, PassedAt, SW.Between;
    RunCounts(late, run, scope, limit);
    CountedFit(late, run, scope, limit, t);
  }

  // ---------- tokens per minute ----------

  ghost predicate TpmLimitsAtMost(plan: seq<Check>, scope: Scope, limit: int) {
    forall c | c in plan && c.Tpm? && c.scope == scope :: c.limit <= limit
  }

  ghost predicate AllTpmLimitsAtMost(run: Steps, scope: Scope, limit: int) {
    run.Then? ==>
      && AllTpmLimitsAtMost(run.before, scope, limit)
      && (run.last.Begin? ==> TpmLimitsAtMost(run.last.request.plan, scope, limit))
  }

  ghost predicate IsTpmAt(c: Check, scope: Scope) {
    c.Tpm? && c.scope == scope
  }

  ghost predicate TpmTimely(late: nat, run: Steps, scope: Scope) {
    run.Then? ==>
      && TpmTimely(late, run.before, scope)
      && var s := SystemAfter(run.before);
         (run.last.Next? && Checking(s, run.last.id) && IsTpmAt(CheckOf(s, run.last.id), scope) ==>
            && Clock(s.history.tpm, scope) <= run.last.at
            && Punctual(late, s.open[run.last.id].request.now, run.last.at))
  }

  function ChargeOf(r: Request): TW.Charge {
    TW.Charge(r.now, r.tokens)
  }

  ghost predicate ChargedSoFar(p: Progress, scope: Scope) {
    exists k :: 0 <= k < p.done && k < |p.request.plan| && IsTpmAt(p.request.plan[k], scope)
  }

  lemma ChargedOneMore(p: Progress, scope: Scope)
    requires p.done < |p.request.plan|
    ensures
      ChargedSoFar(p.(done := p.done + 1), scope) ==> ChargedSoFar(p, scope) || IsTpmAt(p.request.plan[p.done], scope)
  {
    var q := p.(done := p.done + 1);
    if ChargedSoFar(q, scope) {
      var k :| 0 <= k < q.done && IsTpmAt(q.request.plan[k], scope);
      assert IsTpmAt(p.request.plan[k], scope);
    }
  }

  lemma ServeTokens(late: nat, h: History, r: Request, c: Check, at: int, scope: Scope, limit: int)
    requires TW.Valid(late, h.tpm, scope) && Bounded(h.tpm, scope, limit)
    requires IsTpmAt(c, scope) ==>
               c.limit <= limit && 0 < r.tokens && Clock(h.tpm, scope) <= at && Punctual(late, r.now, at)
    ensures
      var (after, ok) := Serve(h, r, c, at);
      && TW.Valid(late, after.tpm, scope) && Bounded(after.tpm, scope, limit)
      && TW.Charged(WINDOW, h.tpm, scope) <= TW.Charged(WINDOW, after.tpm, scope)
      && (ok && IsTpmAt(c, scope) ==> ChargeOf(r) in TW.Charged(WINDOW, after.tpm, scope))
  {
    hide TW.ReplyTo, SW.ReplyTo, QuotaStep, TW.Charged;
    if c.Tpm? {
      TW.ChargedStep(WINDOW, Then(h.tpm, TpmCall(r, c, at)), scope);
    }
  }

  ghost predicate ChargeAgrees(p: Progress, scope: Scope, limit: int, log: TW.Charges) {
    && TpmLimitsAtMost(p.request.plan, scope, limit) && TokenChecksOnlyIf(0 < p.request.tokens, p.request.plan)
    && (ChargedSoFar(p, scope) ==> ChargeOf(p.request) in log)
  }

  /** Every open request that passed a token check at the scope is charged there. */
  ghost predicate AllCharged(late: nat, run: Steps, scope: Scope, limit: int) {
    var s := SystemAfter(run);
    && TW.Valid(late, s.history.tpm, scope) && Bounded(s.history.tpm, scope, limit)
    && (forall id | id in s.open :: ChargeAgrees(s.open[id], scope, limit, TW.Charged(WINDOW, s.history.tpm, scope)))
  }

  lemma NextCharged(late: nat, run: Steps, id: Name, at: int, scope: Scope, limit: int)
    requires AllCharged(late, run, scope, limit) && Checking(SystemAfter(run), id)
    requires IsTpmAt(CheckOf(SystemAfter(run), id), scope) ==>
               && Clock(SystemAfter(run).history.tpm, scope) <= at
               && Punctual(late, SystemAfter(run).open[id].request.now, at)
    ensures AllCharged(late, Then(run, Next(id, at)), scope, limit)
  {
    hide Serve, TW.Valid, Bounded, TW.Charged, Clock, Punctual, ChargedSoFar;
    var s, after := SystemAfter(run), SystemAfter(Then(run, Next(id, at)));
    var log, longer := TW.Charged(WINDOW, s.history.tpm, scope), TW.Charged(WINDOW, after.history.tpm, scope);
    var p := s.open[id];
    assert ChargeAgrees(p, scope, limit, log);
    ServeTokens(late, s.history, p.request, CheckOf(s, id), at, scope, limit);
    ChargedOneMore(p, scope);
    forall other | other in after.open
      ensures ChargeAgrees(after.open[other], scope, limit, longer)
    {
      assert ChargeAgrees(s.open[other], scope, limit, log);
    }
  }

  lemma BeginCharged(late: nat, run: Steps, r: Request, scope: Scope, limit: int)
    requires AllCharged(late, run, scope, limit)
    requires TpmLimitsAtMost(r.plan, scope, limit) && TokenChecksOnlyIf(0 < r.tokens, r.plan)
    ensures AllCharged(late, Then(run, Begin(r)), scope, limit)
  {
    hide TW.Valid, Bounded, TW.Charged, TpmLimitsAtMost, TokenChecksOnlyIf;
    var s, after := SystemAfter(run), SystemAfter(Then(run, Begin(r)));
    forall id | id in after.open
      ensures ChargeAgrees(after.open[id], scope, limit, TW.Charged(WINDOW, s.history.tpm, scope))
    {
      assert id in s.open ==> ChargeAgrees(s.open[id], scope, limit, TW.Charged(WINDOW, s.history.tpm, scope));
    }
  }

  lemma {:induction false} RunCharges(late: nat, run: Steps, scope: Scope, limit: int)
    requires WellPlanned(run) && TpmTimely(late, run, scope) && AllTpmLimitsAtMost(run, scope, limit)
    ensures AllCharged(late, run, scope, limit)
  {
    hide Clock, Punctual, SeparateCounters, TpmLimitsAtMost, IsTpmAt, TokenChecksOnlyIf, AllCharged;
    if run.Start? {
      NothingCharged(late, scope, limit);
    } else {
      RunCharges(late, run.before, scope, limit);
      assert run == Then(run.before, run.last);
      match run.last {
        case Begin(r) => BeginCharged(late, run.before, r, scope, limit);
        case Next(id, at) =>
          if Checking(SystemAfter(run.before), id) {
            NextCharged(late, run.before, id, at, scope, limit);
          } else {
            IdleCharged(late, run, scope, limit);
          }
      }
    }
  }

  lemma NothingCharged(late: nat, scope: Scope, limit: int)
    ensures AllCharged(late, Start, scope, limit)
  {
  }

  lemma IdleCharged(late: nat, run: Steps, scope: Scope, limit: int)
    requires run.Then? && run.last.Next? && !Checking(SystemAfter(run.before), run.last.id)
    requires AllCharged(late, run.before, scope, limit)
    ensures AllCharged(late, run, scope, limit)
  {
    hide TW.Valid, Bounded, TW.Charged, ChargeAgrees;
  }

  ghost predicate ChargedAt(plan: seq<Check>, scope: Scope) {
    exists k :: 0 <= k < |plan| && IsTpmAt(plan[k], scope)
  }

  /** The requests that have passed all their checks, among those charged at a scope that started in (lo, hi]. */
  ghost function PaidAt(run: Steps, scope: Scope, lo: int, hi: int): set<Name> {
    var open := SystemAfter(run).open;
    set id | id in open && Passed(open[id]) && ChargedAt(open[id].request.plan, scope) && lo < open[id].request.now <= hi
  }

  ghost function TokensOf(open: map<Name, Progress>, ids: set<Name>): int
    requires ids <= open.Keys
  {
    if ids == {} then 0 else
      var id :| id in ids;
      open[id].request.tokens + TokensOf(open, ids - {id})
  }

  ghost function ChargesOf(open: map<Name, Progress>, ids: set<Name>): TW.Charges
    requires ids <= open.Keys
  {
    set id | id in ids :: ChargeOf(open[id].request)
  }

  /** No two of the requests share their start and their token count. */
  ghost predicate PairsDiffer(open: map<Name, Progress>, ids: set<Name>)
    requires ids <= open.Keys
  {
    forall a, b | a in ids && b in ids && a != b :: ChargeOf(open[a].request) != ChargeOf(open[b].request)
  }

  lemma ChargesWithout(open: map<Name, Progress>, ids: set<Name>, id: Name)
    requires ids <= open.Keys && PairsDiffer(open, ids) && id in ids
    ensures
      var charge := ChargeOf(open[id].request);
      charge in ChargesOf(open, ids) && ChargesOf(open, ids) - {charge} == ChargesOf(open, ids - {id})
    ensures PairsDiffer(open, ids - {id})
  {
  }

  lemma {:induction false} TokensAreTheirCharges(open: map<Name, Progress>, ids: set<Name>)
    requires ids <= open.Keys && PairsDiffer(open, ids)
    ensures TokensOf(open, ids) == TW.Total(ChargesOf(open, ids))
    decreases |ids|
  {
    hide TW.Total, ChargesOf, PairsDiffer;
    if ids == {} {
      NoCharges(open);
    } else {
      var id :| id in ids && TokensOf(open, ids) == open[id].request.tokens + TokensOf(open, ids - {id});
      ChargesWithout(open, ids, id);
      TokensAreTheirCharges(open, ids - {id});
      TW.TotalSplit(ChargesOf(open, ids), ChargeOf(open[id].request));
    }
  }

  lemma NoCharges(open: map<Name, Progress>)
    ensures TW.Total(ChargesOf(open, {})) == 0
  {
    assert ChargesOf(open, {}) == {};
  }

  lemma PaidWereCharged(late: nat, run: Steps, scope: Scope, limit: int, lo: int, hi: int)
    requires AllCharged(late, run, scope, limit)
    ensures
      var s, ids := SystemAfter(run), PaidAt(run, scope, lo, hi);
      ChargesOf(s.open, ids) <= TW.Between(TW.Charged(WINDOW, s.history.tpm, scope), lo, hi)
  {
    hide TW.Valid, Bounded, TW.Charged, TpmLimitsAtMost, TokenChecksOnlyIf, IsTpmAt;
    var s := SystemAfter(run);
    forall id | id in PaidAt(run, scope, lo, hi)
      ensures ChargeOf(s.open[id].request) in TW.Charged(WINDOW, s.history.tpm, scope)
    {
      assert ChargeAgrees(s.open[id], scope, limit, TW.Charged(WINDOW, s.history.tpm, scope));
      var plan := s.open[id].request.plan;
      var k :| 0 <= k < |plan| && IsTpmAt(plan[k], scope);
      assert IsTpmAt(s.open[id].request.plan[k], scope);
      assert ChargedSoFar(s.open[id], scope);
    }
  }

  lemma ChargesFit(
    late: nat, calls: TW.Calls, open: map<Name, Progress>, ids: set<Name>, scope: Scope, limit: nat, t: int)
    requires TW.Valid(late, calls, scope) && Bounded(calls, scope, limit)
    requires ids <= open.Keys && PairsDiffer(open, ids)
    requires ChargesOf(open, ids) <= TW.Between(TW.Charged(WINDOW, calls, scope), t - WINDOW + late, t)
    ensures TokensOf(open, ids) <= limit
  {
    hide TW.Valid, Bounded, TW.Charged, TW.Between, TW.Total, ChargesOf, PairsDiffer, TokensOf;
    TokensAreTheirCharges(open, ids);
    TW.WindowNeverExceeded(late, WINDOW, calls, scope, limit, t);
    TW.ChargesArePositive(late, WINDOW, calls, scope);
    TW.PartOfBetween(ChargesOf(open, ids), TW.Charged(WINDOW, calls, scope), t - WINDOW + late, t);
  }

  lemma ChargedFit(late: nat, run: Steps, scope: Scope, limit: nat, t: int)
    requires AllCharged(late, run, scope, limit)
    requires PairsDiffer(SystemAfter(run).open, PaidAt(run, scope, t - WINDOW + late, t))
    ensures TokensOf(SystemAfter(run).open, PaidAt(run, scope, t - WINDOW + late, t)) <= limit
  {
    hide TW.Valid, Bounded, TW.Charged, TW.Between, ChargeAgrees, ChargesOf, PairsDiffer, TokensOf;
    var s := SystemAfter(run);
    PaidWereCharged(late, run, scope, limit, t - WINDOW + late, t);
    ChargesFit(late, s.history.tpm, s.open, PaidAt(run, scope, t - WINDOW + late, t), scope, limit, t);
  }

  lemma ChargedTokensFit(late: nat, run: Steps, scope: Scope, limit: nat, t: int)
    requires WellPlanned(run) && TpmTimely(late, run, scope) && AllTpmLimitsAtMost(run, scope, limit)
    requires PairsDiffer(SystemAfter(run).open, PaidAt(run, scope, t - WINDOW + late, t))
    ensures TokensOf(SystemAfter(run).open, PaidAt(run, scope, t - WINDOW + late, t)) <= limit
  {
    hide AllCharged, PaidAt, TokensOf, PairsDiffer;
    RunCharges(late, run, scope, limit);
    ChargedFit(late, run, scope, limit, t);
  }

  // ---------- quotas ----------

  ghost predicate IsQuotaAt(c: Check, period: Period) {
    c.Quota? && c.period == period
  }

  function TtlOf(period: Period): int {
    if period.Daily? then 86_400_000 else 2_592_000_000
  }

  /** The tokens of the requests that have passed the quota check of a period, whatever became of them later. */
  ghost function QuotaPassers(run: Steps, period: Period): map<Name, int> {
    if run.Start? then map[] else
      var s, earlier := SystemAfter(run.before), QuotaPassers(run.before, period);
      if run.last.Next? && Checking(s, run.last.id) && IsQuotaAt(CheckOf(s, run.last.id), period)
         && run.last.id in SystemAfter(run).open
      then earlier[run.last.id := s.open[run.last.id].request.tokens] else earlier
  }

  /** When the last quota check of a period was served. */
  ghost function QuotaClock(run: Steps, period: Period, start: int): int {
    if run.Start? then start else
      var s := SystemAfter(run.before);
      if run.last.Next? && Checking(s, run.last.id) && IsQuotaAt(CheckOf(s, run.last.id), period)
      then run.last.at else QuotaClock(run.before, period, start)
  }

  /** The quota checks of a period are served in the order of Redis's clock, within the time to live from its start. */
  ghost predicate QuotaTimely(run: Steps, period: Period, start: int) {
    run.Then? ==>
      && QuotaTimely(run.before, period, start)
      && QuotaClock(run.before, period, start) <= QuotaClock(run, period, start) < start + TtlOf(period)
  }

  /** A request's quota checks are for its tokens within the largest limit, and renew the time to live of their period. */
  ghost predicate QuotasAtMost(plan: seq<Check>, period: Period, limit: int) {
    forall c | c in plan && IsQuotaAt(c, period) :: c.limit <= limit && c.ttl == TtlOf(period)
  }

  ghost predicate AllQuotasAtMost(run: Steps, period: Period, limit: int) {
    run.Then? ==>
      && AllQuotasAtMost(run.before, period, limit)
      && (run.last.Begin? ==> QuotasAtMost(run.last.request.plan, period, limit))
  }

  /** Among the checks passed so far is the quota of the period. */
  ghost predicate QuotaSoFar(p: Progress, period: Period) {
    exists k :: 0 <= k < p.done && k < |p.request.plan| && IsQuotaAt(p.request.plan[k], period)
  }

  lemma QuotaOneMore(p: Progress, period: Period)
    requires p.done < |p.request.plan|
    ensures QuotaSoFar(p.(done := p.done + 1), period) <==> QuotaSoFar(p, period) || IsQuotaAt(p.request.plan[p.done], period)
  {
    var q := p.(done := p.done + 1);
    if QuotaSoFar(q, period) {
      var k :| 0 <= k < q.done && IsQuotaAt(q.request.plan[k], period);
      assert IsQuotaAt(p.request.plan[k], period);
    }
    if IsQuotaAt(p.request.plan[p.done], period) {
      assert IsQuotaAt(q.request.plan[p.done], period);
    }
    if QuotaSoFar(p, period) {
      var k :| 0 <= k < p.done && IsQuotaAt(p.request.plan[k], period);
      assert IsQuotaAt(q.request.plan[k], period);
    }
  }

  lemma NoQuotaTwice(p: Progress, period: Period)
    requires p.done < |p.request.plan| && SeparateCounters(p.request.plan) && IsQuotaAt(p.request.plan[p.done], period)
    ensures !QuotaSoFar(p, period)
  {
    forall k | 0 <= k < p.done
      ensures !IsQuotaAt(p.request.plan[k], period)
    {
      assert !SameCounter(p.request.plan[k], p.request.plan[p.done]);
    }
  }

  /** The stored counter holds a sum, and lasts until the time to live has passed since the start of the period. */
  ghost predicate HoldsSum(slot: Redis.Slot<int>, sum: int, until: int) {
    match slot
    case None => sum == 0
    case Some(e) => e.value == sum && e.deadline.Some? && until <= e.deadline.value
  }

  /** A quota check adds the request's tokens exactly if they fit beside what is on the counter. */
  lemma QuotaIsServed(h: History, r: Request, c: Check, at: int, sum: int, start: int)
    requires c.Quota? && HoldsSum(Redis.SlotOf(h.quotas, c.period), sum, start + c.ttl) && start <= at < start + c.ttl
    ensures
      var (after, ok) := Serve(h, r, c, at);
      && (ok <==> sum + r.tokens <= c.limit)
      && HoldsSum(Redis.SlotOf(after.quotas, c.period), if ok then sum + r.tokens else sum, start + c.ttl)
  {
  }

  lemma QuotaElsewhere(h: History, r: Request, c: Check, at: int, period: Period)
    requires !IsQuotaAt(c, period)
    ensures Redis.SlotOf(Serve(h, r, c, at).0.quotas, period) == Redis.SlotOf(h.quotas, period)
  {
    hide Q.Check, SW.ReplyTo, TW.ReplyTo;
    if c.Quota? {
      var z := Q.Check(Redis.SlotOf(h.quotas, c.period), c.limit, r.tokens, c.ttl, at).0;
      Redis.StoreThenRead(h.quotas, c.period, z, period);
    }
  }

  ghost predicate QuotaProgress(p: Progress, id: Name, period: Period, limit: int, passers: map<Name, int>) {
    && p.request.id == id && SeparateCounters(p.request.plan) && QuotasAtMost(p.request.plan, period, limit)
    && (QuotaSoFar(p, period) <==> id in passers)
    && (id in passers ==> passers[id] == p.request.tokens)
  }

  ghost predicate QuotasAgree(run: Steps, open: map<Name, Progress>, period: Period, limit: int, passers: map<Name, int>) {
    && (forall id | id in open :: QuotaProgress(open[id], id, period, limit, passers) && Begun(run, id))
    && (forall id | id in passers :: Begun(run, id))
  }

  ghost predicate QuotaHolds(run: Steps, period: Period, start: int, limit: int) {
    var s, passers := SystemAfter(run), QuotaPassers(run, period);
    && QuotasAgree(run, s.open, period, limit, passers)
    && HoldsSum(Redis.SlotOf(s.history.quotas, period), Q.SumOf(passers), start + TtlOf(period))
    && Q.SumOf(passers) <= limit
  }

  lemma NoQuotaYet(period: Period, start: int, limit: nat)
    ensures QuotaHolds(Start, period, start, limit)
  {
  }

  lemma BeginHoldsQuota(run: Steps, r: Request, period: Period, start: int, limit: int)
    requires QuotaHolds(run, period, start, limit) && !Begun(run, r.id)
    requires SeparateCounters(r.plan) && QuotasAtMost(r.plan, period, limit)
    ensures QuotaHolds(Then(run, Begin(r)), period, start, limit)
  {
    hide SeparateCounters, QuotasAtMost, IsQuotaAt, HoldsSum;
    assert !QuotaSoFar(Progress(r, 0), period);
    assert forall m | Begun(run, m) :: Begun(Then(run, Begin(r)), m);
  }

  lemma QuotasAdvance(run: Steps, step: Step, open: map<Name, Progress>, id: Name, ok: bool, period: Period, limit: int,
                      passers: map<Name, int>)
    requires QuotasAgree(run, open, period, limit, passers) && id in open && open[id].done < |open[id].request.plan|
    ensures
      var here := IsQuotaAt(open[id].request.plan[open[id].done], period);
      QuotasAgree(Then(run, step), Advance(open, id, ok), period, limit,
                  if here && ok then passers[id := open[id].request.tokens] else passers)
  {
    hide SeparateCounters, QuotasAtMost, IsQuotaAt, QuotaSoFar;
    QuotaOneMore(open[id], period);
    assert QuotaProgress(open[id], id, period, limit, passers);
    assert forall m | Begun(run, m) :: Begun(Then(run, step), m);
    forall other | other in open
      ensures QuotaProgress(open[other], other, period, limit, passers) && Begun(run, other)
    {
    }
  }

  lemma NextHoldsQuota(run: Steps, id: Name, at: int, period: Period, start: int, limit: int)
    requires QuotaHolds(run, period, start, limit) && Checking(SystemAfter(run), id)
    requires IsQuotaAt(CheckOf(SystemAfter(run), id), period) ==> start <= at < start + TtlOf(period)
    ensures QuotaHolds(Then(run, Next(id, at)), period, start, limit)
  {
    hide Serve, SeparateCounters, QuotasAtMost, QuotaSoFar, HoldsSum, QuotaProgress, QuotasAgree, IsQuotaAt, Redis.SlotOf,
      Q.SumOf, SystemAfter, QuotaPassers;
    var s, passers := SystemAfter(run), QuotaPassers(run, period);
    var p, c := s.open[id], CheckOf(s, id);
    var (h, ok) := Serve(s.history, p.request, c, at);
    ProgressOfOpen(run, s.open, id, period, limit, passers);
    QuotasAdvance(run, Next(id, at), s.open, id, ok, period, limit, passers);
    if IsQuotaAt(c, period) {
      QuotaLimit(p, id, period, limit, passers);
      IsItsQuota(c, period);
      QuotaIsServed(s.history, p.request, c, at, Q.SumOf(passers), start);
      Q.SumWith(passers, id, p.request.tokens);
    } else {
      QuotaElsewhere(s.history, p.request, c, at, period);
    }
    NextIs(run, id, at, period, ok);
  }

  lemma IsItsQuota(c: Check, period: Period)
    requires IsQuotaAt(c, period)
    ensures c.Quota? && c.period == period
  {
  }

  lemma ProgressOfOpen(run: Steps, open: map<Name, Progress>, id: Name, period: Period, limit: int, passers: map<Name, int>)
    requires QuotasAgree(run, open, period, limit, passers) && id in open
    ensures QuotaProgress(open[id], id, period, limit, passers)
  {
  }

  lemma NextIs(run: Steps, id: Name, at: int, period: Period, ok: bool)
    requires Checking(SystemAfter(run), id)
    requires ok == Serve(SystemAfter(run).history, SystemAfter(run).open[id].request, CheckOf(SystemAfter(run), id), at).1
    ensures
      var s, passers := SystemAfter(run), QuotaPassers(run, period);
      && SystemAfter(Then(run, Next(id, at))).open == Advance(s.open, id, ok)
      && SystemAfter(Then(run, Next(id, at))).history == Serve(s.history, s.open[id].request, CheckOf(s, id), at).0
      && QuotaPassers(Then(run, Next(id, at)), period) ==
         if IsQuotaAt(CheckOf(s, id), period) && ok then passers[id := s.open[id].request.tokens] else passers
  {
    hide Serve;
    assert Then(run, Next(id, at)).before == run && Then(run, Next(id, at)).last == Next(id, at);
  }

  lemma QuotaLimit(p: Progress, id: Name, period: Period, limit: int, passers: map<Name, int>)
    requires QuotaProgress(p, id, period, limit, passers) && p.done < |p.request.plan|
    requires IsQuotaAt(p.request.plan[p.done], period)
    ensures id !in passers && p.request.plan[p.done].limit <= limit && p.request.plan[p.done].ttl == TtlOf(period)
  {
    NoQuotaTwice(p, period);
  }

  lemma {:induction false} RunHoldsQuota(run: Steps, period: Period, start: int, limit: nat)
    requires WellPlanned(run) && QuotaTimely(run, period, start) && AllQuotasAtMost(run, period, limit)
    ensures QuotaHolds(run, period, start, limit) && start <= QuotaClock(run, period, start)
  {
    hide SeparateCounters, QuotasAtMost, IsQuotaAt, TokenChecksOnlyIf, QuotaHolds;
    if run.Start? {
      NoQuotaYet(period, start, limit);
    } else {
      RunHoldsQuota(run.before, period, start, limit);
      assert run == Then(run.before, run.last);
      match run.last {
        case Begin(r) => BeginHoldsQuota(run.before, r, period, start, limit);
        case Next(id, at) =>
          if Checking(SystemAfter(run.before), id) {
            NextHoldsQuota(run.before, id, at, period, start, limit);
          } else {
            IdleHoldsQuota(run, period, start, limit);
          }
      }
    }
  }

  lemma IdleHoldsQuota(run: Steps, period: Period, start: int, limit: int)
    requires run.Then? && run.last.Next? && !Checking(SystemAfter(run.before), run.last.id)
    requires QuotaHolds(run.before, period, start, limit)
    ensures QuotaHolds(run, period, start, limit)
  {
    hide HoldsSum, QuotaProgress;
  }

  // ---------- requests with the limits in force for them ----------

  /** What decides a request's checks beside its tokens: who asks for which model, and what is stored about them. */
  datatype Facts = Facts(identity: Identity, records: Records, model: Name, cacheHit: bool, day: Name, month: Name)

  function PlanOf(f: Facts, tokens: int): seq<Check> {
    Plan(f.identity, f.records, f.model, tokens, f.cacheHit, f.day, f.month)
  }

  /** Request ids are fresh, and every request makes the checks its facts ask for. */
  ghost predicate Planned(run: Steps, facts: Name -> Facts) {
    run.Then? ==>
      && Planned(run.before, facts)
      && (run.last.Begin? ==>
            !Begun(run.before, run.last.request.id)
            && run.last.request.plan == PlanOf(facts(run.last.request.id), run.last.request.tokens))
  }

  /** The limit of requests in force for a request at a scope, where 0 is none. */
  ghost function RpmInForce(f: Facts, scope: Scope): int {
    LimitsAt(f.identity, f.records, f.model, scope).rpm.GetOr(0)
  }

  /** The limit of tokens in force for a request at a scope, where 0 is none: cache hits and empty requests are not charged. */
  ghost function TpmInForce(f: Facts, tokens: int, scope: Scope): int {
    if f.cacheHit || tokens <= 0 then 0 else LimitsAt(f.identity, f.records, f.model, scope).tpm.GetOr(0)
  }

  ghost predicate RpmInForceAtMost(run: Steps, facts: Name -> Facts, scope: Scope, limit: int) {
    run.Then? ==>
      && RpmInForceAtMost(run.before, facts, scope, limit)
      && (run.last.Begin? ==> RpmInForce(facts(run.last.request.id), scope) <= limit)
  }

  ghost predicate TpmInForceAtMost(run: Steps, facts: Name -> Facts, scope: Scope, limit: int) {
    run.Then? ==>
      && TpmInForceAtMost(run.before, facts, scope, limit)
      && (run.last.Begin? ==> TpmInForce(facts(run.last.request.id), run.last.request.tokens, scope) <= limit)
  }

  /** The requests with a limit in force at the scope that have passed all their checks, with their times. */
  ghost function LimitedAndPassed(run: Steps, facts: Name -> Facts, scope: Scope): SW.Log {
    var open := SystemAfter(run).open;
    map id | id in open && Passed(open[id]) && RpmInForce(facts(id), scope) != 0 :: open[id].request.now
  }

  /** The requests that started in (lo, hi] with a limit of tokens in force at the scope and have passed all their checks. */
  ghost function LimitedAndPaid(run: Steps, facts: Name -> Facts, scope: Scope, lo: int, hi: int): set<Name> {
    var open := SystemAfter(run).open;
    set id |
      && id in open && Passed(open[id]) && TpmInForce(facts(id), open[id].request.tokens, scope) != 0
      && lo < open[id].request.now <= hi
  }

  lemma PlanCounts(f: Facts, tokens: int, scope: Scope, limit: int)
    ensures CountedAt(PlanOf(f, tokens), scope) <==> RpmInForce(f, scope) != 0
    ensures RpmInForce(f, scope) <= limit ==> RpmLimitsAtMost(PlanOf(f, tokens), scope, limit)
  {
    hide Plan, LimitsAt;
    var plan := PlanOf(f, tokens);
    forall k | 0 <= k < |plan| && IsRpmAt(plan[k], scope)
      ensures RpmInForce(f, scope) == plan[k].limit != 0
    {
      PlanAppliesEveryLimit(f.identity, f.records, f.model, tokens, f.cacheHit, f.day, f.month, plan[k]);
    }
    if RpmInForce(f, scope) != 0 {
      var c := Rpm(scope, RpmInForce(f, scope));
      PlanAppliesEveryLimit(f.identity, f.records, f.model, tokens, f.cacheHit, f.day, f.month, c);
      var k :| 0 <= k < |plan| && plan[k] == c;
      assert IsRpmAt(plan[k], scope);
    }
  }

  lemma PlanCharges(f: Facts, tokens: int, scope: Scope, limit: int)
    ensures ChargedAt(PlanOf(f, tokens), scope) <==> TpmInForce(f, tokens, scope) != 0
    ensures TpmInForce(f, tokens, scope) <= limit ==> TpmLimitsAtMost(PlanOf(f, tokens), scope, limit)
  {
    hide Plan, LimitsAt;
    var plan := PlanOf(f, tokens);
    forall k | 0 <= k < |plan| && IsTpmAt(plan[k], scope)
      ensures TpmInForce(f, tokens, scope) == plan[k].limit != 0
    {
      PlanAppliesEveryLimit(f.identity, f.records, f.model, tokens, f.cacheHit, f.day, f.month, plan[k]);
    }
    if TpmInForce(f, tokens, scope) != 0 {
      var c := Tpm(scope, TpmInForce(f, tokens, scope));
      PlanAppliesEveryLimit(f.identity, f.records, f.model, tokens, f.cacheHit, f.day, f.month, c);
      var k :| 0 <= k < |plan| && plan[k] == c;
      assert IsTpmAt(plan[k], scope);
    }
  }

  lemma {:induction false} PlannedIsWellPlanned(run: Steps, facts: Name -> Facts)
    requires Planned(run, facts)
    ensures WellPlanned(run)
  {
    hide Plan, SeparateCounters, TokenChecksOnlyIf;
    if run.Then? {
      PlannedIsWellPlanned(run.before, facts);
      if run.last.Begin? {
        var r := run.last.request;
        var f := facts(r.id);
        PlansAreWellMade(f.identity, f.records, f.model, r.tokens, f.cacheHit, f.day, f.month);
      }
    }
  }

  ghost predicate OpenArePlanned(open: map<Name, Progress>, facts: Name -> Facts) {
    forall id | id in open :: open[id].request.plan == PlanOf(facts(id), open[id].request.tokens)
  }

  lemma {:induction false} OpenStayPlanned(run: Steps, facts: Name -> Facts)
    requires Planned(run, facts)
    ensures OpenArePlanned(SystemAfter(run).open, facts)
  {
    hide Plan, Serve, PlanOf;
    if run.Then? {
      OpenStayPlanned(run.before, facts);
    }
  }

  lemma {:induction false} RpmLimitsFollow(run: Steps, facts: Name -> Facts, scope: Scope, limit: nat)
    requires Planned(run, facts) && RpmInForceAtMost(run, facts, scope, limit)
    ensures AllRpmLimitsAtMost(run, scope, limit)
  {
    hide Plan, RpmInForce, PlanOf, RpmLimitsAtMost;
    if run.Then? {
      RpmLimitsFollow(run.before, facts, scope, limit);
      if run.last.Begin? {
        PlanCounts(facts(run.last.request.id), run.last.request.tokens, scope, limit);
      }
    }
  }

  lemma {:induction false} TpmLimitsFollow(run: Steps, facts: Name -> Facts, scope: Scope, limit: nat)
    requires Planned(run, facts) && TpmInForceAtMost(run, facts, scope, limit)
    ensures AllTpmLimitsAtMost(run, scope, limit)
  {
    hide Plan, TpmInForce, PlanOf, TpmLimitsAtMost;
    if run.Then? {
      TpmLimitsFollow(run.before, facts, scope, limit);
      if run.last.Begin? {
        PlanCharges(facts(run.last.request.id), run.last.request.tokens, scope, limit);
      }
    }
  }

  lemma LimitedAreCounted(run: Steps, facts: Name -> Facts, scope: Scope)
    requires Planned(run, facts)
    ensures LimitedAndPassed(run, facts, scope) == PassedAt(run, scope)
  {
    hide Plan, RpmInForce, PlanOf, CountedAt;
    OpenStayPlanned(run, facts);
    var open := SystemAfter(run).open;
    forall id | id in open
      ensures CountedAt(open[id].request.plan, scope) <==> RpmInForce(facts(id), scope) != 0
    {
      PlanCounts(facts(id), open[id].request.tokens, scope, 0);
    }
  }

  lemma LimitedAreCharged(run: Steps, facts: Name -> Facts, scope: Scope, lo: int, hi: int)
    requires Planned(run, facts)
    ensures LimitedAndPaid(run, facts, scope, lo, hi) == PaidAt(run, scope, lo, hi)
  {
    hide Plan, TpmInForce, PlanOf, ChargedAt;
    OpenStayPlanned(run, facts);
    var open := SystemAfter(run).open;
    forall id | id in open
      ensures ChargedAt(open[id].request.plan, scope) <==> TpmInForce(facts(id), open[id].request.tokens, scope) != 0
    {
      PlanCharges(facts(id), open[id].request.tokens, scope, 0);
    }
  }

  /**
   However the checks of the requests interleave, at every scope and in every window at most `limit` of the requests with
   a limit of requests in force there pass all their checks, if none of these limits is larger. The window is shorter by
   as much as a check may reach Redis late.
   */
  lemma PassedRequestsFitEveryWindow(late: nat, run: Steps, facts: Name -> Facts, scope: Scope, limit: nat, t: int)
    requires Planned(run, facts) && RpmTimely(late, run, scope) && RpmInForceAtMost(run, facts, scope, limit)
    ensures |SW.Between(LimitedAndPassed(run, facts, scope), t - WINDOW + late, t)| <= limit
  {
    hide PassedAt, LimitedAndPassed, SW.Between, Plan;
    PlannedIsWellPlanned(run, facts);
    RpmLimitsFollow(run, facts, scope, limit);
    LimitedAreCounted(run, facts, scope);
    CountedRequestsFit(late, run, scope, limit, t);
  }

  /**
   In the same way, the requests with a limit of tokens in force at a scope that pass all their checks carry at most
   `limit` tokens in every window, as long as no two of these very requests share their start and their token count.
   */
  lemma PassedTokensFitEveryWindow(late: nat, run: Steps, facts: Name -> Facts, scope: Scope, limit: nat, t: int)
    requires Planned(run, facts) && TpmTimely(late, run, scope) && TpmInForceAtMost(run, facts, scope, limit)
    requires PairsDiffer(SystemAfter(run).open, LimitedAndPaid(run, facts, scope, t - WINDOW + late, t))
    ensures TokensOf(SystemAfter(run).open, LimitedAndPaid(run, facts, scope, t - WINDOW + late, t)) <= limit
  {
    hide PaidAt, TokensOf, PairsDiffer, Plan;
    PlannedIsWellPlanned(run, facts);
    TpmLimitsFollow(run, facts, scope, limit);
    LimitedAreCharged(run, facts, scope, t - WINDOW + late, t);
    ChargedTokensFit(late, run, scope, limit, t);
  }

  /** The quota of tokens in force for a request in a period, where 0 is none: cache hits are not counted. */
  ghost function QuotaInForce(f: Facts, period: Period): int {
    if f.cacheHit then 0 else
      match period
      case Daily(key, day) => if key == f.identity.key && day == f.day then f.identity.dailyQuota.GetOr(0) else 0
      case Monthly(key, month) => if key == f.identity.key && month == f.month then f.identity.monthlyQuota.GetOr(0) else 0
  }

  /** Every quota of the period is at most this much, and no request has a negative number of tokens. */
  ghost predicate QuotaInForceAtMost(run: Steps, facts: Name -> Facts, period: Period, limit: int) {
    run.Then? ==>
      && QuotaInForceAtMost(run.before, facts, period, limit)
      && (run.last.Begin? ==> QuotaInForce(facts(run.last.request.id), period) <= limit && 0 <= run.last.request.tokens)
  }

  /** The requests with a quota in force in the period that have passed all their checks. */
  ghost function PaidFromQuota(run: Steps, facts: Name -> Facts, period: Period): set<Name> {
    var open := SystemAfter(run).open;
    set id | id in open && Passed(open[id]) && QuotaInForce(facts(id), period) != 0
  }

  lemma PlanQuotas(f: Facts, tokens: int, period: Period, limit: int)
    ensures (exists c :: c in PlanOf(f, tokens) && IsQuotaAt(c, period)) <==> QuotaInForce(f, period) != 0
    ensures forall c | c in PlanOf(f, tokens) && IsQuotaAt(c, period) :: c.limit == QuotaInForce(f, period)
    ensures QuotaInForce(f, period) <= limit ==> QuotasAtMost(PlanOf(f, tokens), period, limit)
  {
    hide Plan, LimitsAt;
    var plan := PlanOf(f, tokens);
    forall c | c in plan && IsQuotaAt(c, period)
      ensures QuotaInForce(f, period) == c.limit != 0 && c.ttl == TtlOf(period)
    {
      PlanAppliesEveryLimit(f.identity, f.records, f.model, tokens, f.cacheHit, f.day, f.month, c);
    }
    if QuotaInForce(f, period) != 0 {
      var c := Quota(period, QuotaInForce(f, period), TtlOf(period));
      PlanAppliesEveryLimit(f.identity, f.records, f.model, tokens, f.cacheHit, f.day, f.month, c);
      assert IsQuotaAt(c, period);
    }
  }

  lemma {:induction false} QuotasFollow(run: Steps, facts: Name -> Facts, period: Period, limit: nat)
    requires Planned(run, facts) && QuotaInForceAtMost(run, facts, period, limit)
    ensures AllQuotasAtMost(run, period, limit)
  {
    hide Plan, QuotaInForce, PlanOf, QuotasAtMost;
    if run.Then? {
      QuotasFollow(run.before, facts, period, limit);
      if run.last.Begin? {
        PlanQuotas(facts(run.last.request.id), run.last.request.tokens, period, limit);
      }
    }
  }

  lemma {:induction false} PassersAreNotNegative(run: Steps, facts: Name -> Facts, period: Period, limit: int)
    requires QuotaInForceAtMost(run, facts, period, limit)
    ensures forall id | id in SystemAfter(run).open :: 0 <= SystemAfter(run).open[id].request.tokens
    ensures forall id | id in QuotaPassers(run, period) :: 0 <= QuotaPassers(run, period)[id]
  {
    hide Serve, QuotaInForce;
    if run.Then? {
      PassersAreNotNegative(run.before, facts, period, limit);
    }
  }

  lemma {:induction false} SumIsNotNegative(passers: map<Name, int>)
    requires forall id | id in passers :: 0 <= passers[id]
    ensures 0 <= Q.SumOf(passers)
    decreases |passers|
  {
    if |passers| > 0 {
      var id :| id in passers;
      Q.SumWithout(passers, id);
      SumIsNotNegative(passers - {id});
    }
  }

  /** Of some of the passers, no more than of all. */
  lemma {:induction false} PartOfPassers(open: map<Name, Progress>, ids: set<Name>, passers: map<Name, int>)
    requires ids <= open.Keys && ids <= passers.Keys
    requires forall id | id in ids :: passers[id] == open[id].request.tokens
    requires forall id | id in passers :: 0 <= passers[id]
    ensures TokensOf(open, ids) <= Q.SumOf(passers)
    decreases |ids|
  {
    if ids == {} {
      SumIsNotNegative(passers);
    } else {
      var id :| id in ids && TokensOf(open, ids) == open[id].request.tokens + TokensOf(open, ids - {id});
      Q.SumWithout(passers, id);
      PartOfPassers(open, ids - {id}, passers - {id});
    }
  }

  lemma PaidArePassers(run: Steps, facts: Name -> Facts, period: Period, start: int, limit: int)
    requires Planned(run, facts) && QuotaHolds(run, period, start, limit)
    ensures
      var open, passers := SystemAfter(run).open, QuotaPassers(run, period);
      forall id | id in PaidFromQuota(run, facts, period) :: id in passers && passers[id] == open[id].request.tokens
  {
    hide Plan, QuotaInForce, PlanOf, SeparateCounters, QuotasAtMost, HoldsSum, QuotaPassers, Q.SumOf;
    OpenStayPlanned(run, facts);
    var open, passers := SystemAfter(run).open, QuotaPassers(run, period);
    forall id | id in PaidFromQuota(run, facts, period)
      ensures id in passers && passers[id] == open[id].request.tokens
    {
      assert QuotaProgress(open[id], id, period, limit, passers);
      PlanQuotas(facts(id), open[id].request.tokens, period, limit);
      var c :| c in open[id].request.plan && IsQuotaAt(c, period);
      var k :| 0 <= k < |open[id].request.plan| && open[id].request.plan[k] == c;
      assert QuotaSoFar(open[id], period);
    }
  }

  /**
   However the checks of the requests interleave, each quota check as one step, the requests with a quota in force in a
   period that pass all their checks within the time to live from its start carry at most the largest such quota.
   */
  lemma PassedTokensFitTheQuota(run: Steps, facts: Name -> Facts, period: Period, start: int, limit: nat)
    requires Planned(run, facts) && QuotaTimely(run, period, start) && QuotaInForceAtMost(run, facts, period, limit)
    ensures TokensOf(SystemAfter(run).open, PaidFromQuota(run, facts, period)) <= limit
  {
    hide Plan, TokensOf, PaidFromQuota, Q.SumOf, QuotasAgree, HoldsSum;
    PlannedIsWellPlanned(run, facts);
    QuotasFollow(run, facts, period, limit);
    RunHoldsQuota(run, period, start, limit);
    PaidArePassers(run, facts, period, start, limit);
    PassersAreNotNegative(run, facts, period, limit);
    PaidAreOpen(run, facts, period);
    PartOfPassers(SystemAfter(run).open, PaidFromQuota(run, facts, period), QuotaPassers(run, period));
  }

  lemma PaidAreOpen(run: Steps, facts: Name -> Facts, period: Period)
    ensures PaidFromQuota(run, facts, period) <= SystemAfter(run).open.Keys
  {
  }

  /** And its counter then holds the tokens of the requests that passed that check, those refused later included. */
  lemma QuotaCounterIsItsPassers(run: Steps, facts: Name -> Facts, period: Period, start: int, limit: nat, t: int)
    requires Planned(run, facts) && QuotaTimely(run, period, start) && QuotaInForceAtMost(run, facts, period, limit)
    requires QuotaClock(run, period, start) <= t < start + TtlOf(period)
    ensures
      var quotas := SystemAfter(run).history.quotas;
      (if period in quotas && Redis.Live(Redis.SlotOf(quotas, period), t) then quotas[period].value else 0) ==
      Q.SumOf(QuotaPassers(run, period))
  {
    hide Plan, Q.SumOf, QuotasAgree;
    PlannedIsWellPlanned(run, facts);
    QuotasFollow(run, facts, period, limit);
    RunHoldsQuota(run, period, start, limit);
  }

  /** A request passes its quota check exactly if its tokens fit in its quota beside those of all that passed it before. */
  lemma QuotaPassesIff(run: Steps, facts: Name -> Facts, id: Name, at: int, period: Period, start: int, limit: nat)
    requires Planned(run, facts) && QuotaTimely(Then(run, Next(id, at)), period, start)
    requires QuotaInForceAtMost(run, facts, period, limit)
    requires Checking(SystemAfter(run), id) && IsQuotaAt(CheckOf(SystemAfter(run), id), period)
    ensures
      id in SystemAfter(Then(run, Next(id, at))).open <==>
      Q.SumOf(QuotaPassers(run, period)) + SystemAfter(run).open[id].request.tokens <= QuotaInForce(facts(id), period)
  {
    hide Plan, Q.SumOf, HoldsSum, Serve, QuotaInForce, PlanOf;
    assert Then(run, Next(id, at)).before == run && Then(run, Next(id, at)).last == Next(id, at);
    PlannedIsWellPlanned(run, facts);
    QuotasFollow(run, facts, period, limit);
    RunHoldsQuota(run, period, start, limit);
    OpenStayPlanned(run, facts);
    var s := SystemAfter(run);
    var p, c := s.open[id], CheckOf(s, id);
    PlanQuotas(facts(id), p.request.tokens, period, limit);
    assert c in p.request.plan;
    assert QuotaProgress(p, id, period, limit, QuotaPassers(run, period));
    QuotaLimit(p, id, period, limit, QuotaPassers(run, period));
    QuotaIsServed(s.history, p.request, c, at, Q.SumOf(QuotaPassers(run, period)), start);
  }

  // ---------- who passes a check of requests or tokens ----------

  /** The requests that have passed the request check of a scope, with their times, whatever became of them later. */
  ghost function RpmPassers(run: Steps, scope: Scope): SW.Log {
    if run.Start? then map[] else
      var s, earlier := SystemAfter(run.before), RpmPassers(run.before, scope);
      if run.last.Next? && Checking(s, run.last.id) && IsRpmAt(CheckOf(s, run.last.id), scope)
         && run.last.id in SystemAfter(run).open
      then earlier[s.open[run.last.id].request.id := s.open[run.last.id].request.now] else earlier
  }

  lemma {:induction false} RpmPassersAreAdmitted(run: Steps, scope: Scope)
    ensures SW.Admitted(WINDOW, SystemAfter(run).history.rpm, scope) == RpmPassers(run, scope)
  {
    hide SW.ReplyTo, TW.ReplyTo, QuotaStep;
    if run.Then? {
      RpmPassersAreAdmitted(run.before, scope);
    }
  }

  /** The pairs of start and tokens of the requests that have passed the token check of a scope. */
  ghost function TpmPassers(run: Steps, scope: Scope): TW.Charges {
    if run.Start? then {} else
      var s, earlier := SystemAfter(run.before), TpmPassers(run.before, scope);
      if run.last.Next? && Checking(s, run.last.id) && IsTpmAt(CheckOf(s, run.last.id), scope)
         && run.last.id in SystemAfter(run).open
      then earlier + {TW.Charge(s.open[run.last.id].request.now, s.open[run.last.id].request.tokens)} else earlier
  }

  lemma {:induction false} TpmPassersAreCharged(run: Steps, scope: Scope)
    ensures TW.Charged(WINDOW, SystemAfter(run).history.tpm, scope) == TpmPassers(run, scope)
  {
    hide SW.ReplyTo, TW.ReplyTo, QuotaStep, TW.Charged;
    if run.Start? {
      TW.NothingTracked(WINDOW, scope);
    } else {
      TpmPassersAreCharged(run.before, scope);
      if SystemAfter(run).history.tpm != SystemAfter(run.before).history.tpm {
        TW.ChargedStep(WINDOW, SystemAfter(run).history.tpm, scope);
      }
    }
  }

  /** Those that started after a time. */
  ghost function StartedAfter(passers: SW.Log, t: int): set<Name> {
    set id | id in passers && t < passers[id]
  }

  lemma StartedAfterIsAfter(passers: SW.Log, t: int)
    ensures |StartedAfter(passers, t)| == |SW.After(passers, t)|
  {
    assert SW.After(passers, t).Keys == StartedAfter(passers, t);
  }

  lemma NextRequestIsValid(late: nat, run: Steps, id: Name, at: int, scope: Scope, limit: int)
    requires AllCounted(late, run, scope, limit) && RpmTimely(late, Then(run, Next(id, at)), scope)
    requires Checking(SystemAfter(run), id) && IsRpmAt(CheckOf(SystemAfter(run), id), scope)
    ensures
      var s := SystemAfter(run);
      SW.Valid(late, Then(s.history.rpm, RpmCall(s.open[id].request, CheckOf(s, id), at)), scope)
  {
    hide Serve, Bounded, SW.Used, SW.Admitted, SeparateCounters, RpmLimitsAtMost;
    var s := SystemAfter(run);
    assert ProgressAgrees(s.open[id], id, scope, limit, SW.Admitted(WINDOW, s.history.rpm, scope));
    NotPresented(run, s.open, id, scope, s.history.rpm);
    assert Then(run, Next(id, at)).before == run && Then(run, Next(id, at)).last == Next(id, at);
  }

  lemma NextReply(run: Steps, id: Name, at: int)
    requires Checking(SystemAfter(run), id) && CheckOf(SystemAfter(run), id).Rpm?
    ensures
      var s := SystemAfter(run);
      id in SystemAfter(Then(run, Next(id, at))).open <==>
      SW.ReplyTo(WINDOW, s.history.rpm, RpmCall(s.open[id].request, CheckOf(s, id), at)).allowed
  {
    hide SW.ReplyTo;
    assert Then(run, Next(id, at)).before == run && Then(run, Next(id, at)).last == Next(id, at);
  }

  /**
   A request passes a request check only if fewer than its limit of those that passed it before started in Redis's last
   minute, and is refused only if that many started in its own; without delay the two are one.
   */
  lemma RequestPassesIfRoom(
    late: nat, run: Steps, facts: Name -> Facts, id: Name, at: int, scope: Scope, limit: nat)
    requires Planned(run, facts) && RpmInForceAtMost(run, facts, scope, limit)
    requires RpmTimely(late, Then(run, Next(id, at)), scope)
    requires Checking(SystemAfter(run), id) && IsRpmAt(CheckOf(SystemAfter(run), id), scope)
    ensures
      var now, inForce := SystemAfter(run).open[id].request.now, RpmInForce(facts(id), scope);
      if id in SystemAfter(Then(run, Next(id, at))).open then |StartedAfter(RpmPassers(run, scope), at - 60_000)| < inForce
      else |StartedAfter(RpmPassers(run, scope), now - 60_000)| >= inForce
  {
    hide Plan, RpmInForce, PlanOf, SW.ReplyTo, SW.Valid, SW.After, SW.Admitted, StartedAfter, AllCounted, SystemAfter, Serve,
      RpmPassers, Planned;
    PlannedIsWellPlanned(run, facts);
    RpmLimitsFollow(run, facts, scope, limit);
    assert Then(run, Next(id, at)).before == run;
    RunCounts(late, run, scope, limit);
    NextRequestIsValid(late, run, id, at, scope, limit);
    NextReply(run, id, at);
    OpenStayPlanned(run, facts);
    RpmPassersAreAdmitted(run, scope);
    var s := SystemAfter(run);
    var p, c := s.open[id], CheckOf(s, id);
    LimitInForce(facts(id), p.request.tokens, c, scope);
    SW.EveryReplyMatchesTheLog(late, WINDOW, s.history.rpm, RpmCall(p.request, c, at));
    StartedAfterIsAfter(RpmPassers(run, scope), at - 60_000);
    StartedAfterIsAfter(RpmPassers(run, scope), p.request.now - 60_000);
  }

  lemma LimitInForce(f: Facts, tokens: int, c: Check, scope: Scope)
    requires c in PlanOf(f, tokens)
    ensures IsRpmAt(c, scope) ==> c.limit == RpmInForce(f, scope)
    ensures IsTpmAt(c, scope) ==> c.limit == TpmInForce(f, tokens, scope)
  {
    hide Plan, LimitsAt;
    PlanAppliesEveryLimit(f.identity, f.records, f.model, tokens, f.cacheHit, f.day, f.month, c);
  }

  ghost function ChargedAfter(pairs: TW.Charges, t: int): TW.Charges {
    set pair | pair in pairs && t < pair.ms
  }

  lemma NextTokensAreValid(late: nat, run: Steps, id: Name, at: int, scope: Scope, limit: int)
    requires AllCharged(late, run, scope, limit) && TpmTimely(late, Then(run, Next(id, at)), scope)
    requires Checking(SystemAfter(run), id) && IsTpmAt(CheckOf(SystemAfter(run), id), scope)
    ensures
      var s := SystemAfter(run);
      TW.Valid(late, Then(s.history.tpm, TpmCall(s.open[id].request, CheckOf(s, id), at)), scope)
  {
    hide Serve, Bounded, TW.Charged, TpmLimitsAtMost;
    var s := SystemAfter(run);
    assert ChargeAgrees(s.open[id], scope, limit, TW.Charged(WINDOW, s.history.tpm, scope));
    assert Then(run, Next(id, at)).before == run && Then(run, Next(id, at)).last == Next(id, at);
  }

  lemma NextTokenReply(run: Steps, id: Name, at: int)
    requires Checking(SystemAfter(run), id) && CheckOf(SystemAfter(run), id).Tpm?
    ensures
      var s := SystemAfter(run);
      id in SystemAfter(Then(run, Next(id, at))).open <==>
      TW.ReplyTo(WINDOW, s.history.tpm, TpmCall(s.open[id].request, CheckOf(s, id), at)).allowed
  {
    hide TW.ReplyTo;
    assert Then(run, Next(id, at)).before == run && Then(run, Next(id, at)).last == Next(id, at);
  }

  /** In the same way for tokens: they fit beside the distinct pairs of Redis's last minute, or not beside those of its own. */
  lemma TokensPassIfRoom(
    late: nat, run: Steps, facts: Name -> Facts, id: Name, at: int, scope: Scope, limit: nat)
    requires Planned(run, facts) && TpmInForceAtMost(run, facts, scope, limit)
    requires TpmTimely(late, Then(run, Next(id, at)), scope)
    requires Checking(SystemAfter(run), id) && IsTpmAt(CheckOf(SystemAfter(run), id), scope)
    ensures
      var r := SystemAfter(run).open[id].request;
      var pairs, inForce := TpmPassers(run, scope), TpmInForce(facts(id), r.tokens, scope);
      if id in SystemAfter(Then(run, Next(id, at))).open
      then TW.Total(ChargedAfter(pairs, at - 60_000)) + r.tokens <= inForce
      else TW.Total(ChargedAfter(pairs, r.now - 60_000)) + r.tokens > inForce
  {
    hide Plan, TpmInForce, PlanOf, TW.ReplyTo, TW.Valid, TW.Charged, AllCharged, TW.Total;
    PlannedIsWellPlanned(run, facts);
    TpmLimitsFollow(run, facts, scope, limit);
    assert Then(run, Next(id, at)).before == run;
    RunCharges(late, run, scope, limit);
    NextTokensAreValid(late, run, id, at, scope, limit);
    NextTokenReply(run, id, at);
    OpenStayPlanned(run, facts);
    TpmPassersAreCharged(run, scope);
    var s := SystemAfter(run);
    var p, c := s.open[id], CheckOf(s, id);
    LimitInForce(facts(id), p.request.tokens, c, scope);
    TW.EveryReplyMatchesTheLog(late, WINDOW, s.history.tpm, TpmCall(p.request, c, at));
    assert ChargedAfter(TpmPassers(run, scope), at - 60_000) == TW.After(TpmPassers(run, scope), at - 60_000);
    assert ChargedAfter(TpmPassers(run, scope), p.request.now - 60_000) == TW.After(TpmPassers(run, scope), p.request.now - 60_000);
  }
}
