/** select_deployment of routing/router.py with the filters and strategies of routing/strategies.py. */
module Router {
  import opened Prelude

  datatype Deployment = Deployment(
    id: Name, model: Name, providerModel: Name, region: Option<Name>, contextWindow: Option<int>)

  /** Empty lists and missing values restrict nothing. */
  datatype Identity = Identity(allowlist: seq<Name>, region: Option<Name>, maxParallel: Option<int>)

  datatype Strategy = LeastBusy | LatencyBased | CostBased | Shuffle

  datatype Config = Config(deployments: map<Name, seq<Deployment>>, strategy: Strategy, prices: map<Name, real>)

  /**
   The Redis values one selection reads, each at a time of its own; the busy counters are read twice, for the parallel cap
   and by the strategy.
   */
  datatype Snapshot = Snapshot(
    cooled: set<Name>, teamRegions: seq<Name>, upstream: map<Name, int>, busy: map<Name, int>, busyLater: map<Name, int>,
    p50: map<Name, real>)

  // ---------- filters ----------

  predicate RegionAllowed(i: Identity, s: Snapshot, d: Deployment) {
    if i.region.Some? then d.region == i.region
    else if s.teamRegions != [] then d.region.Some? && d.region.value in s.teamRegions
    else true
  }

  predicate HasQuotaLeft(s: Snapshot, d: Deployment) {
    d.id in s.upstream ==> s.upstream[d.id] > 0
  }

  predicate Fits(tokens: int, d: Deployment) {
    d.contextWindow.Some? && d.contextWindow.value != 0 ==> tokens <= d.contextWindow.value
  }

  datatype Test =
    | NotCooledDown(s: Snapshot)
    | InRegion(i: Identity, s: Snapshot)
    | NotDepleted(s: Snapshot)
    | FitsWindow(tokens: int)

  predicate Passes(t: Test, d: Deployment) {
    match t
    case NotCooledDown(s) => d.id !in s.cooled
    case InRegion(i, s) => RegionAllowed(i, s, d)
    case NotDepleted(s) => HasQuotaLeft(s, d)
    case FitsWindow(tokens) => Fits(tokens, d)
  }

  function Keep(t: Test, ds: seq<Deployment>): (kept: seq<Deployment>)
    ensures forall d :: d in kept <==> d in ds && Passes(t, d)
  {
    if ds == [] then [] else
      var n := |ds| - 1;
      Keep(t, ds[..n]) + if Passes(t, ds[n]) then [ds[n]] else []
  }

  method Filter(t: Test, ds: seq<Deployment>) returns (kept: seq<Deployment>)
    ensures kept == Keep(t, ds)
  {
    kept := [];
    for n := 0 to |ds|
      invariant kept == Keep(t, ds[..n])
    {
      assert ds[..n + 1][..n] == ds[..n];
      if Passes(t, ds[n]) {
        kept := kept + [ds[n]];
      }
    }
    assert ds[..|ds|] == ds;
  }

  /** A soft filter: best effort when nothing would be left. */
  function Prefer(t: Test, ds: seq<Deployment>): seq<Deployment> {
    if Keep(t, ds) == [] then ds else Keep(t, ds)
  }

  predicate ModelAllowed(i: Identity, model: Name) {
    i.allowlist != [] ==> model in i.allowlist
  }

  /** What no strategy may override. */
  predicate Eligible(c: Config, i: Identity, s: Snapshot, model: Name, d: Deployment) {
    && model in c.deployments && d in c.deployments[model]
    && ModelAllowed(i, model)
    && d.id !in s.cooled
    && RegionAllowed(i, s, d)
  }

  function Healthy(c: Config, i: Identity, s: Snapshot, model: Name): (ds: seq<Deployment>)
    ensures forall d :: d in ds <==> Eligible(c, i, s, model, d)
  {
    if model in c.deployments && ModelAllowed(i, model) then
      Keep(InRegion(i, s), Keep(NotCooledDown(s), c.deployments[model]))
    else []
  }

  /** After the soft filters: never empty unless the hard ones left nothing. */
  function Candidates(c: Config, i: Identity, s: Snapshot, model: Name, tokens: int): (ds: seq<Deployment>)
    ensures forall d | d in ds :: Eligible(c, i, s, model, d)
    ensures ds == [] <==> Healthy(c, i, s, model) == []
    ensures (exists d :: d in ds && HasQuotaLeft(s, d)) ==> forall d | d in ds :: HasQuotaLeft(s, d)
    ensures tokens > 0 && (exists d :: d in ds && Fits(tokens, d)) ==> forall d | d in ds :: Fits(tokens, d)
  {
    var ds := Prefer(NotDepleted(s), Healthy(c, i, s, model));
    if tokens > 0 then Prefer(FitsWindow(tokens), ds) else ds
  }

  function Busy(counters: map<Name, int>, d: Deployment): int {
    if d.id in counters then counters[d.id] else 0
  }

  function TotalBusy(s: Snapshot, ds: seq<Deployment>): int {
    if ds == [] then 0 else TotalBusy(s, ds[..|ds| - 1]) + Busy(s.busy, ds[|ds| - 1])
  }

  predicate AtParallelCap(i: Identity, s: Snapshot, ds: seq<Deployment>) {
    i.maxParallel.Some? && i.maxParallel.value != 0 && TotalBusy(s, ds) >= i.maxParallel.value
  }

  // ---------- strategies ----------

  predicate Scored(c: Config, s: Snapshot, d: Deployment) {
    match c.strategy
    case LeastBusy => true
    case LatencyBased => d.id in s.p50
    case CostBased => d.providerModel in c.prices || d.model in c.prices
    case Shuffle => false
  }

  /** Open requests, median latency, or input plus output price. */
  function Score(c: Config, s: Snapshot, d: Deployment): real
    requires Scored(c, s, d)
  {
    match c.strategy
    case LeastBusy => Busy(s.busyLater, d) as real
    case LatencyBased => s.p50[d.id]
    case CostBased => if d.providerModel in c.prices then c.prices[d.providerModel] else c.prices[d.model]
  }

  /** The first deployment with the least score; the first of all when none has a score. */
  ghost predicate IsFirstLeast(c: Config, s: Snapshot, ds: seq<Deployment>, n: nat) {
    && n < |ds|
    && (forall m | 0 <= m < |ds| && Scored(c, s, ds[m]) ::
          Scored(c, s, ds[n]) && Score(c, s, ds[n]) <= Score(c, s, ds[m])
          && (m < n ==> Score(c, s, ds[n]) < Score(c, s, ds[m])))
    && ((forall m | 0 <= m < |ds| :: !Scored(c, s, ds[m])) ==> n == 0)
  }

  /** The running-best loop the three deterministic strategies share. */
  method RunningBest(c: Config, s: Snapshot, ds: seq<Deployment>) returns (best: Deployment)
    requires ds != []
    ensures exists n: nat :: IsFirstLeast(c, s, ds, n) && ds[n] == best
  {
    best := ds[0];
    ghost var at: nat := 0;
    var least: Option<real> := None;
    for n := 0 to |ds|
      invariant at < |ds| && best == ds[at]
      invariant least.Some? ==> at < n && Scored(c, s, best) && Score(c, s, best) == least.value
      invariant least.None? ==> at == 0 && forall m | 0 <= m < n :: !Scored(c, s, ds[m])
      invariant forall m | 0 <= m < n && Scored(c, s, ds[m]) ::
                  least.Some? && least.value <= Score(c, s, ds[m]) && (m < at ==> least.value < Score(c, s, ds[m]))
    {
      if Scored(c, s, ds[n]) && (least.None? || Score(c, s, ds[n]) < least.value) {
        least, best, at := Some(Score(c, s, ds[n])), ds[n], n;
      }
    }
  }

  ghost predicate Chosen(c: Config, s: Snapshot, ds: seq<Deployment>, d: Deployment) {
    if c.strategy == Shuffle then d in ds else exists n: nat :: IsFirstLeast(c, s, ds, n) && ds[n] == d
  }

  /** What a selection may answer. */
  ghost predicate MaySelect(c: Config, i: Identity, s: Snapshot, model: Name, tokens: int, answer: Option<Deployment>) {
    var ds := Candidates(c, i, s, model, tokens);
    if ds == [] || AtParallelCap(i, s, ds) then answer.None? else answer.Some? && Chosen(c, s, ds, answer.value)
  }

  method SelectDeployment(c: Config, i: Identity, s: Snapshot, model: Name, tokens: int) returns (answer: Option<Deployment>)
    ensures MaySelect(c, i, s, model, tokens, answer)
  {
    if model !in c.deployments || !ModelAllowed(i, model) {
      return None;
    }
    var healthy := Filter(NotCooledDown(s), c.deployments[model]);
    healthy := Filter(InRegion(i, s), healthy);
    if healthy == [] {
      return None;
    }
    var nonDepleted := Filter(NotDepleted(s), healthy);
    if nonDepleted != [] {
      healthy := nonDepleted;
    }
    if tokens > 0 {
      var fits := Filter(FitsWindow(tokens), healthy);
      if fits != [] {
        healthy := fits;
      }
    }
    assert healthy == Candidates(c, i, s, model, tokens);
    if i.maxParallel.Some? && i.maxParallel.value != 0 {
      var busy := CountBusy(s, healthy);
      if busy >= i.maxParallel.value {
        return None;
      }
    }
    var d := Choose(c, s, healthy);
    answer := Some(d);
  }

  method CountBusy(s: Snapshot, ds: seq<Deployment>) returns (busy: int)
    ensures busy == TotalBusy(s, ds)
  {
    busy := 0;
    for n := 0 to |ds|
      invariant busy == TotalBusy(s, ds[..n])
    {
      assert ds[..n + 1][..n] == ds[..n];
      busy := busy + Busy(s.busy, ds[n]);
    }
    assert ds[..|ds|] == ds;
  }

  method Choose(c: Config, s: Snapshot, ds: seq<Deployment>) returns (d: Deployment)
    requires ds != []
    ensures Chosen(c, s, ds, d)
  {
    if c.strategy == Shuffle {
      assert ds[0] in ds;
      d :| d in ds;
    } else {
      d := RunningBest(c, s, ds);
    }
  }

  // ---------- what a selection answers ----------

  /** The hard filters: configured for the model, allowed, not cooling down, and in the identity's region or else the team's. */
  lemma EligibleIff(c: Config, i: Identity, s: Snapshot, model: Name, d: Deployment)
    ensures
      Eligible(c, i, s, model, d) <==>
      && model in c.deployments && d in c.deployments[model]
      && (i.allowlist == [] || model in i.allowlist)
      && d.id !in s.cooled
      && match i.region
         case Some(region) => d.region == Some(region)
         case None => s.teamRegions == [] || (d.region.Some? && d.region.value in s.teamRegions)
  {
  }

  /** The provider has not said that no request is left. */
  ghost predicate NotUsedUp(s: Snapshot, d: Deployment) {
    !(d.id in s.upstream && s.upstream[d.id] <= 0)
  }

  /** A missing window, or one of 0, takes everything. */
  ghost predicate TakesTokens(tokens: int, d: Deployment) {
    d.contextWindow.None? || d.contextWindow.value == 0 || d.contextWindow.value >= tokens
  }

  /** Eligible, and not used up unless all are. */
  ghost predicate Preferred(c: Config, i: Identity, s: Snapshot, model: Name, d: Deployment) {
    && Eligible(c, i, s, model, d)
    && ((exists e :: Eligible(c, i, s, model, e) && NotUsedUp(s, e)) ==> NotUsedUp(s, d))
  }

  /** The candidates are the preferred deployments that take the tokens, or all preferred ones if none does. */
  lemma CandidatesAre(c: Config, i: Identity, s: Snapshot, model: Name, tokens: int, d: Deployment)
    ensures
      d in Candidates(c, i, s, model, tokens) <==>
      && Preferred(c, i, s, model, d)
      && (tokens > 0 && (exists e :: Preferred(c, i, s, model, e) && TakesTokens(tokens, e)) ==> TakesTokens(tokens, d))
  {
    hide Healthy;
    var healthy := Healthy(c, i, s, model);
    var preferred := Prefer(NotDepleted(s), healthy);
    PreferIs(NotDepleted(s), healthy);
    forall e
      ensures Passes(NotDepleted(s), e) <==> NotUsedUp(s, e)
      ensures Passes(FitsWindow(tokens), e) <==> TakesTokens(tokens, e)
    {
    }
    forall e
      ensures e in preferred <==> Preferred(c, i, s, model, e)
    {
    }
    PreferIs(FitsWindow(tokens), preferred);
  }

  lemma PreferIs(t: Test, ds: seq<Deployment>)
    ensures forall d :: d in Prefer(t, ds) <==> d in ds && ((exists e :: e in ds && Passes(t, e)) ==> Passes(t, d))
  {
    if Keep(t, ds) != [] {
      assert Keep(t, ds)[0] in Keep(t, ds);
    }
  }

  ghost function CountPassing(t: Test, ds: seq<Deployment>, n: nat): nat
    requires n <= |ds|
  {
    if n == 0 then 0 else CountPassing(t, ds, n - 1) + if Passes(t, ds[n - 1]) then 1 else 0
  }

  lemma {:induction false} CountOfFront(t: Test, ds: seq<Deployment>, m: nat, n: nat)
    requires m <= n <= |ds|
    ensures CountPassing(t, ds[..n], m) == CountPassing(t, ds, m)
  {
    if m > 0 {
      CountOfFront(t, ds, m - 1, n);
    }
  }

  /** A filter keeps the passing deployments in order, as often as they are listed. */
  lemma {:induction false} KeptInOrder(t: Test, ds: seq<Deployment>)
    ensures |Keep(t, ds)| == CountPassing(t, ds, |ds|)
    ensures
      forall n: nat | n < |ds| && Passes(t, ds[n]) ::
        CountPassing(t, ds, n) < |Keep(t, ds)| && Keep(t, ds)[CountPassing(t, ds, n)] == ds[n]
  {
    if ds != [] {
      var k := |ds| - 1;
      KeptInOrder(t, ds[..k]);
      CountOfFront(t, ds, k, k);
      forall n: nat | n < |ds| && Passes(t, ds[n])
        ensures CountPassing(t, ds, n) < |Keep(t, ds)| && Keep(t, ds)[CountPassing(t, ds, n)] == ds[n]
      {
        if n < k {
          CountOfFront(t, ds, n, k);
          assert Passes(t, ds[..k][n]);
        }
      }
    }
  }

  /** The parallel cap counts the calls open at every candidate; a missing counter is 0. */
  lemma {:induction false} BusyAddsUp(s: Snapshot, a: seq<Deployment>, b: seq<Deployment>)
    ensures TotalBusy(s, a + b) == TotalBusy(s, a) + TotalBusy(s, b) && TotalBusy(s, []) == 0
    ensures forall d :: TotalBusy(s, [d]) == if d.id in s.busy then s.busy[d.id] else 0
  {
    forall d
      ensures TotalBusy(s, [d]) == if d.id in s.busy then s.busy[d.id] else 0
    {
      assert [d][..0] == [];
    }
    if b == [] {
      assert a + b == a;
    } else {
      var n := |b| - 1;
      BusyAddsUp(s, a, b[..n]);
      assert (a + b)[..|a + b| - 1] == a + b[..n];
    }
  }

  /** What the strategy compares, if it is known of a deployment: open calls, median latency, or price. */
  ghost function ValueOf(c: Config, s: Snapshot, d: Deployment): Option<real> {
    match c.strategy
    case LeastBusy => Some((if d.id in s.busyLater then s.busyLater[d.id] else 0) as real)
    case LatencyBased => if d.id in s.p50 then Some(s.p50[d.id]) else None
    case CostBased =>
      if d.providerModel in c.prices then Some(c.prices[d.providerModel])
      else if d.model in c.prices then Some(c.prices[d.model]) else None
    case Shuffle => None
  }

  ghost predicate HasLeastValue(c: Config, s: Snapshot, ds: seq<Deployment>, n: nat) {
    && n < |ds|
    && (forall m: nat | m < |ds| && ValueOf(c, s, ds[m]).Some? ::
          && ValueOf(c, s, ds[n]).Some?
          && ValueOf(c, s, ds[n]).value <= ValueOf(c, s, ds[m]).value
          && (m < n ==> ValueOf(c, s, ds[n]).value < ValueOf(c, s, ds[m]).value))
    && ((forall m: nat | m < |ds| :: ValueOf(c, s, ds[m]).None?) ==> n == 0)
  }

  /** The answer is a candidate: with a strategy that compares, the first with the least value, or the first of all. */
  lemma AnswerHasLeastValue(c: Config, i: Identity, s: Snapshot, model: Name, tokens: int, answer: Option<Deployment>)
    requires MaySelect(c, i, s, model, tokens, answer) && answer.Some?
    ensures answer.value in Candidates(c, i, s, model, tokens)
    ensures
      c.strategy != Shuffle ==>
        exists n: nat ::
          HasLeastValue(c, s, Candidates(c, i, s, model, tokens), n)
          && Candidates(c, i, s, model, tokens)[n] == answer.value
  {
    var ds := Candidates(c, i, s, model, tokens);
    if c.strategy != Shuffle {
      var n: nat :| IsFirstLeast(c, s, ds, n) && ds[n] == answer.value;
      forall d
        ensures Scored(c, s, d) <==> ValueOf(c, s, d).Some?
        ensures Scored(c, s, d) ==> ValueOf(c, s, d).value == Score(c, s, d)
      {
      }
      assert HasLeastValue(c, s, ds, n);
    }
  }

  /** The shuffle may answer any candidate. */
  lemma ShuffleMayAnswerAny(c: Config, i: Identity, s: Snapshot, model: Name, tokens: int, d: Deployment)
    requires c.strategy == Shuffle && d in Candidates(c, i, s, model, tokens)
    requires i.maxParallel.Some? && i.maxParallel.value != 0 ==>
               TotalBusy(s, Candidates(c, i, s, model, tokens)) < i.maxParallel.value
    ensures MaySelect(c, i, s, model, tokens, Some(d))
  {
  }

  /** Every answer passes the hard filters; there is none exactly when they leave nothing or the parallel cap is reached. */
  lemma SelectionRespectsHardFilters(c: Config, i: Identity, s: Snapshot, model: Name, tokens: int, answer: Option<Deployment>)
    requires MaySelect(c, i, s, model, tokens, answer)
    ensures answer.Some? ==> Eligible(c, i, s, model, answer.value)
    ensures
      answer.None? <==>
      || (forall d :: !Eligible(c, i, s, model, d))
      || (i.maxParallel.Some? && i.maxParallel.value != 0
          && i.maxParallel.value <= TotalBusy(s, Candidates(c, i, s, model, tokens)))
  {
    var ds := Candidates(c, i, s, model, tokens);
    if ds == [] {
      assert forall d :: d !in Healthy(c, i, s, model);
    } else {
      assert Eligible(c, i, s, model, ds[0]);
    }
  }
}
