/**
 _route_and_call of routes/chat.py: a work list of models that grows while it is walked, a retry loop
 for each, and the failure accounting. Selections and provider replies are arbitrary.
 */
module RouteAndCall {
  import opened Prelude
  import Cooldowns
  import Redis
  import Router

  type Deployment = Router.Deployment
  type Body = Name

  // ---------- fallback chains (routing/fallbacks.py) ----------

  datatype Chain = Chain(
    primary: Name, standard: seq<Name>, contextWindow: seq<Name>, contentPolicy: seq<Name>, default: Option<Name>)
  {
    function WithDefault(models: seq<Name>): seq<Name> {
      if default.Some? && default.value !in models then models + [default.value] else models
    }

    function Standard(): seq<Name> {
      WithDefault(standard)
    }

    function ContextWindow(): seq<Name> {
      WithDefault(if contextWindow != [] then contextWindow else standard)
    }

    predicate HasFallbacks() {
      standard != [] || contextWindow != [] || contentPolicy != [] || default.Some?
    }
  }

  // ---------- replies (routing/retries.py) ----------

  /** A reply with status 200, another status with whether its message speaks of the context length, or an exception. */
  datatype Reply = Answer(body: Body) | Status(code: int, overflow: bool) | Raised

  predicate IsContextWindowError(code: int, overflow: bool) {
    code == 400 && overflow
  }

  predicate ShouldRetry(code: int, attempt: int, maxRetries: int) {
    attempt < maxRetries && code !in {400, 401, 403, 404} && code in {429, 500, 502, 503, 504}
  }

  /** How the visit of one model ends. `Untried` needs a negative number of retries. */
  datatype End = NoDeployment | Success(body: Body) | Overflow | Failure(byException: bool) | Untried

  datatype Outcome = Outcome(end: End, sends: nat, retries: nat)

  /** What selection answers at each visit, and what the provider replies to each attempt of it. */
  datatype World = World(select: (nat, Name) -> Option<Deployment>, reply: (nat, nat) -> Reply)

  /** The retry loop of visit v from its n-th attempt on. */
  function Attempts(w: World, v: nat, n: nat, maxRetries: int): (o: Outcome)
    ensures o.end != NoDeployment
    decreases maxRetries - n
  {
    if n > maxRetries then Outcome(Untried, 0, 0) else
      match w.reply(v, n)
      case Answer(body) => Outcome(Success(body), 1, 0)
      case Status(code, overflow) =>
        if IsContextWindowError(code, overflow) then Outcome(Overflow, 1, 0)
        else if ShouldRetry(code, n, maxRetries) then Again(Attempts(w, v, n + 1, maxRetries))
        else Outcome(Failure(false), 1, 0)
      case Raised =>
        if n < maxRetries then Again(Attempts(w, v, n + 1, maxRetries)) else Outcome(Failure(true), 1, 1)
  }

  function Again(rest: Outcome): Outcome {
    Outcome(rest.end, rest.sends + 1, rest.retries + 1)
  }

  // ---------- one pass of the outer loop ----------

  datatype Visit = Visit(model: Name, deployment: Option<Deployment>, outcome: Outcome)

  function VisitAt(w: World, maxRetries: int, v: nat, model: Name): Visit {
    var d := w.select(v, model);
    Visit(model, d, if d.None? then Outcome(NoDeployment, 0, 0) else Attempts(w, v, 0, maxRetries))
  }

  function AppendNew(list: seq<Name>, more: seq<Name>): seq<Name>
    decreases |more|
  {
    if more == [] then list
    else AppendNew(if more[0] in list then list else list + [more[0]], more[1..])
  }

  /** The work list after a visit that did not succeed: without a deployment the standard list is added as it is. */
  function Grow(c: Chain, list: seq<Name>, model: Name, end: End): seq<Name> {
    var fallsBack := model == c.primary && c.HasFallbacks();
    if end == NoDeployment then
      if fallsBack then list + c.Standard() else list
    else
      var wider := if end == Overflow then AppendNew(list, c.ContextWindow()) else list;
      if fallsBack then AppendNew(wider, c.Standard()) else wider
  }

  datatype Loop = Loop(models: seq<Name>, visits: seq<Visit>, result: Option<Body>)

  predicate Finished(l: Loop) {
    l.result.Some? || |l.visits| >= |l.models|
  }

  function Turn(c: Chain, w: World, maxRetries: int, l: Loop): Loop
    requires !Finished(l)
  {
    var v := |l.visits|;
    var visit := VisitAt(w, maxRetries, v, l.models[v]);
    if visit.outcome.end.Success? then Loop(l.models, l.visits + [visit], Some(visit.outcome.end.body))
    else Loop(Grow(c, l.models, visit.model, visit.outcome.end), l.visits + [visit], None)
  }

  /** The loop after at most n visits. */
  function Turns(c: Chain, w: World, maxRetries: int, n: nat): Loop {
    if n == 0 then Loop([c.primary], [], None) else
      var l := Turns(c, w, maxRetries, n - 1);
      if Finished(l) then l else Turn(c, w, maxRetries, l)
  }

  // ---------- the work list ----------

  /** The configured fallbacks, then the default one unless it is among them. */
  lemma FallbacksAre(c: Chain)
    ensures
      c.Standard() == c.standard + if c.default.Some? && c.default.value !in c.standard then [c.default.value] else []
    ensures
      var own := if c.contextWindow != [] then c.contextWindow else c.standard;
      c.ContextWindow() == own + if c.default.Some? && c.default.value !in own then [c.default.value] else []
  {
  }

  /** The primary model is among its own standard or default fallbacks. */
  ghost predicate FallsBackToItself(c: Chain) {
    c.primary in c.standard || c.default == Some(c.primary)
  }

  lemma {:induction false} AppendNewFacts(list: seq<Name>, more: seq<Name>)
    ensures list <= AppendNew(list, more)
    ensures |AppendNew(list, more)| <= |list| + |more|
    ensures forall m :: m in AppendNew(list, more) <==> m in list || m in more
    ensures (forall m | m in more :: m in list) ==> AppendNew(list, more) == list
    decreases |more|
  {
    if more != [] {
      AppendNewFacts(if more[0] in list then list else list + [more[0]], more[1..]);
      assert forall m :: m in more <==> m == more[0] || m in more[1..];
    }
  }

  function Bound(c: Chain): nat {
    1 + |c.Standard()| + |c.ContextWindow()|
  }

  /** The shape of a list that holds the primary model once, in front. */
  ghost predicate Shape(c: Chain, models: seq<Name>) {
    && models != [] && models[0] == c.primary
    && (forall n | 0 < n < |models| :: models[n] != c.primary)
    && (|models| <= 1 + |c.Standard()| || (|models| <= Bound(c) && forall m | m in c.ContextWindow() :: m in models))
  }

  lemma FirstGrowth(c: Chain, end: End)
    requires c.primary !in c.Standard()
    ensures Shape(c, Grow(c, [c.primary], c.primary, end))
  {
    var start := [c.primary];
    AppendNewFacts(start, c.Standard());
    AppendNewFacts(start, c.ContextWindow());
    AppendNewFacts(AppendNew(start, c.ContextWindow()), c.Standard());
    AppendedDiffer(start, c.ContextWindow());
    AppendedDiffer(start, c.Standard());
    AppendedDiffer(AppendNew(start, c.ContextWindow()), c.Standard());
  }

  /** What is appended was not in the list before. */
  lemma {:induction false} AppendedDiffer(list: seq<Name>, more: seq<Name>)
    ensures list <= AppendNew(list, more)
    ensures forall n | |list| <= n < |AppendNew(list, more)| :: AppendNew(list, more)[n] !in list
    decreases |more|
  {
    if more != [] {
      var next := if more[0] in list then list else list + [more[0]];
      AppendedDiffer(next, more[1..]);
      AppendNewFacts(next, more[1..]);
    }
  }

  lemma LaterGrowth(c: Chain, models: seq<Name>, model: Name, end: End)
    requires Shape(c, models) && model != c.primary
    ensures Shape(c, Grow(c, models, model, end))
  {
    AppendNewFacts(models, c.ContextWindow());
    AppendedDiffer(models, c.ContextWindow());
  }

  lemma {:induction false} VisitsFollowTheList(c: Chain, w: World, maxRetries: int, n: nat)
    ensures
      var l := Turns(c, w, maxRetries, n);
      && |l.visits| <= |l.models| && |l.visits| <= n
      && (!Finished(l) ==> |l.visits| == n)
      && (forall i | 0 <= i < |l.visits| :: l.visits[i] == VisitAt(w, maxRetries, i, l.models[i]))
  {
    if n > 0 {
      VisitsFollowTheList(c, w, maxRetries, n - 1);
      var l := Turns(c, w, maxRetries, n - 1);
      if !Finished(l) {
        GrowExtends(c, l.models, l.models[|l.visits|], VisitAt(w, maxRetries, |l.visits|, l.models[|l.visits|]).outcome.end);
      }
    }
  }

  lemma GrowExtends(c: Chain, list: seq<Name>, model: Name, end: End)
    ensures list <= Grow(c, list, model, end)
  {
    AppendNewFacts(list, c.Standard());
    AppendNewFacts(list, c.ContextWindow());
    AppendNewFacts(AppendNew(list, c.ContextWindow()), c.Standard());
  }

  lemma {:induction false} ListStaysShort(c: Chain, w: World, maxRetries: int, n: nat)
    requires c.primary !in c.Standard()
    ensures var l := Turns(c, w, maxRetries, n); Shape(c, l.models) && |l.models| <= Bound(c)
    ensures Turns(c, w, maxRetries, n).visits == [] ==> Turns(c, w, maxRetries, n).models == [c.primary]
  {
    if n > 0 {
      hide VisitAt, Grow;
      ListStaysShort(c, w, maxRetries, n - 1);
      VisitsFollowTheList(c, w, maxRetries, n - 1);
      var l := Turns(c, w, maxRetries, n - 1);
      if !Finished(l) {
        var v := |l.visits|;
        var end := VisitAt(w, maxRetries, v, l.models[v]).outcome.end;
        if v == 0 {
          FirstGrowth(c, end);
        } else {
          LaterGrowth(c, l.models, l.models[v], end);
        }
      }
    }
  }

  /** If the primary model is not its own fallback, the loop ends within 1 + |standard| + |context window| visits. */
  lemma EndsWithinBound(c: Chain, w: World, maxRetries: int)
    requires c.primary !in c.Standard()
    ensures FinishedBy(c, w, maxRetries, Bound(c))
  {
    ListStaysShort(c, w, maxRetries, Bound(c));
    VisitsFollowTheList(c, w, maxRetries, Bound(c));
  }

  /** A visit without a deployment leaves the primary model to be visited again, if it is its own fallback. */
  lemma IdleTurn(c: Chain, w: World, maxRetries: int, l: Loop)
    requires c.primary in c.Standard() && (forall v, m :: w.select(v, m) == None)
    requires !Finished(l) && c.primary in l.models[|l.visits|..]
    ensures var next := Turn(c, w, maxRetries, l); !Finished(next) && c.primary in next.models[|next.visits|..]
  {
    hide Chain.Standard, Chain.ContextWindow;
    PrimaryFallsBack(c);
    var v, next := |l.visits|, Turn(c, w, maxRetries, l);
    var k :| v <= k < |l.models| && l.models[k] == c.primary;
    if k == v {
      var s :| 0 <= s < |c.Standard()| && c.Standard()[s] == c.primary;
      assert next.models == l.models + c.Standard();
      assert next.models[|l.models| + s] == c.primary;
    } else {
      assert next.models[k] == c.primary;
    }
  }

  lemma PrimaryFallsBack(c: Chain)
    requires c.primary in c.Standard()
    ensures c.HasFallbacks()
  {
  }

  /** If it is, and no model ever has a deployment, the loop never ends. */
  lemma {:induction false} NeverEnds(c: Chain, w: World, maxRetries: int, n: nat)
    requires c.primary in c.Standard() && forall v, m :: w.select(v, m) == None
    ensures var l := Turns(c, w, maxRetries, n); !Finished(l) && c.primary in l.models[|l.visits|..]
  {
    hide Turn, Chain.Standard;
    if n > 0 {
      NeverEnds(c, w, maxRetries, n - 1);
      IdleTurn(c, w, maxRetries, Turns(c, w, maxRetries, n - 1));
    }
  }

  ghost predicate FinishedBy(c: Chain, w: World, maxRetries: int, n: nat) {
    Finished(Turns(c, w, maxRetries, n))
  }

  ghost predicate Ends(c: Chain, w: World, maxRetries: int) {
    exists n: nat :: FinishedBy(c, w, maxRetries, n)
  }

  /** The loop ends in every world exactly when the primary model is not among its standard fallbacks. */
  lemma EndsInEveryWorldIff(c: Chain, maxRetries: int)
    ensures (forall w: World :: Ends(c, w, maxRetries)) <==> !FallsBackToItself(c)
  {
    FallbacksAre(c);
    if c.primary !in c.Standard() {
      forall w: World
        ensures Ends(c, w, maxRetries)
      {
        EndsWithinBound(c, w, maxRetries);
        assert FinishedBy(c, w, maxRetries, Bound(c));
      }
    } else {
      var w := World((v, m) => None, (v, a) => Raised);
      forall n: nat
        ensures !FinishedBy(c, w, maxRetries, n)
      {
        NeverEnds(c, w, maxRetries, n);
      }
      assert !Ends(c, w, maxRetries);
    }
  }

  // ---------- the loop itself ----------

  datatype FallbackUse = UsedContextWindow(model: Name) | UsedStandard(model: Name)

  /** A deployment's failure counter is cleared, or counts one more. */
  datatype Effect = Cleared(id: Name) | Counted(id: Name)

  function TotalSends(visits: seq<Visit>): nat {
    if visits == [] then 0 else TotalSends(visits[..|visits| - 1]) + visits[|visits| - 1].outcome.sends
  }

  function TotalRetries(visits: seq<Visit>): nat {
    if visits == [] then 0 else TotalRetries(visits[..|visits| - 1]) + visits[|visits| - 1].outcome.retries
  }

  function EffectOf(v: Visit): seq<Effect> {
    if v.deployment.None? then []
    else match v.outcome.end
      case Success(_) => [Cleared(v.deployment.value.id)]
      case Failure(_) => [Counted(v.deployment.value.id)]
      case _ => []
  }

  function Effects(visits: seq<Visit>): seq<Effect> {
    if visits == [] then [] else Effects(visits[..|visits| - 1]) + EffectOf(visits[|visits| - 1])
  }

  function UseOf(c: Chain, v: Visit): seq<FallbackUse> {
    if v.outcome.end == NoDeployment || v.outcome.end.Success? then [] else
      (if v.outcome.end == Overflow then [UsedContextWindow(v.model)] else [])
      + (if v.model == c.primary && c.HasFallbacks() then [UsedStandard(v.model)] else [])
  }

  function Uses(c: Chain, visits: seq<Visit>): seq<FallbackUse> {
    if visits == [] then [] else Uses(c, visits[..|visits| - 1]) + UseOf(c, visits[|visits| - 1])
  }

  method Extend(list: seq<Name>, more: seq<Name>) returns (longer: seq<Name>)
    ensures longer == AppendNew(list, more)
  {
    longer := list;
    for n := 0 to |more|
      invariant AppendNew(longer, more[n..]) == AppendNew(list, more)
    {
      assert more[n..][1..] == more[n + 1..];
      if more[n] !in longer {
        longer := longer + [more[n]];
      }
    }
  }

  /** The request context the route updates. */
  class Context {
    var retriesUsed: nat
    var fallbacksUsed: seq<FallbackUse>
    var effects: seq<Effect>

    /** One model's attempts, up to the first that decides its visit. */
    method CallWithRetries(model: Name, d: Deployment, w: World, v: nat, maxRetries: int) returns (o: Outcome)
      modifies this`retriesUsed, this`effects
      ensures o == Attempts(w, v, 0, maxRetries)
      ensures forall n: nat | DecidedBy(w, v, maxRetries, n) :: o == DecidedAs(w.reply(v, n), n)
      ensures retriesUsed == old(retriesUsed) + o.retries
      ensures effects == old(effects) + EffectOf(Visit(model, Some(d), o))
    {
      hide DecidedBy, DecidedAs;
      OutcomeFollowsReplies(w, v, maxRetries);
      var attempt: nat, sends: nat, retries: nat := 0, 0, 0;
      while attempt <= maxRetries
        invariant attempt == 0 || attempt <= maxRetries
        invariant sends == retries && retriesUsed == old(retriesUsed) + retries && effects == old(effects)
        invariant
          var rest := Attempts(w, v, attempt, maxRetries);
          Attempts(w, v, 0, maxRetries) == Outcome(rest.end, sends + rest.sends, retries + rest.retries)
        decreases maxRetries - attempt
      {
        sends := sends + 1;
        match w.reply(v, attempt) {
          case Answer(body) =>
            effects := effects + [Cleared(d.id)];
            return Outcome(Success(body), sends, retries);
          case Status(code, overflow) =>
            if IsContextWindowError(code, overflow) {
              return Outcome(Overflow, sends, retries);
            }
            if ShouldRetry(code, attempt, maxRetries) {
              retriesUsed, retries, attempt := retriesUsed + 1, retries + 1, attempt + 1;
              continue;
            }
            effects := effects + [Counted(d.id)];
            return Outcome(Failure(false), sends, retries);
          case Raised =>
            retriesUsed, retries := retriesUsed + 1, retries + 1;
            if attempt < maxRetries {
              attempt := attempt + 1;
              continue;
            }
            effects := effects + [Counted(d.id)];
            return Outcome(Failure(true), sends, retries);
        }
      }
      o := Outcome(Untried, 0, 0);
    }

    /** The fallback branches after a visit that did not succeed. */
    method ExtendAfter(c: Chain, models: seq<Name>, v: Visit) returns (longer: seq<Name>)
      requires !v.outcome.end.Success?
      modifies this`fallbacksUsed
      ensures longer == Grow(c, models, v.model, v.outcome.end)
      ensures fallbacksUsed == old(fallbacksUsed) + UseOf(c, v)
    {
      longer := models;
      if v.outcome.end == NoDeployment {
        if v.model == c.primary && c.HasFallbacks() {
          longer := models + c.Standard();
        }
        return;
      }
      if v.outcome.end == Overflow {
        longer := Extend(longer, c.ContextWindow());
        fallbacksUsed := fallbacksUsed + [UsedContextWindow(v.model)];
      }
      if v.model == c.primary && c.HasFallbacks() {
        longer := Extend(longer, c.Standard());
        fallbacksUsed := fallbacksUsed + [UsedStandard(v.model)];
      }
    }

    /** One pass of the outer loop: select, call, and either finish or widen the list. */
    method TryModel(c: Chain, w: World, maxRetries: int, models: seq<Name>, v: nat) returns (longer: seq<Name>, visit: Visit)
      requires v < |models|
      modifies this
      ensures visit == VisitAt(w, maxRetries, v, models[v])
      ensures longer == if visit.outcome.end.Success? then models else Grow(c, models, visit.model, visit.outcome.end)
      ensures retriesUsed == old(retriesUsed) + visit.outcome.retries
      ensures fallbacksUsed == old(fallbacksUsed) + UseOf(c, visit)
      ensures effects == old(effects) + EffectOf(visit)
    {
      var model := models[v];
      var d := w.select(v, model);
      var o := Outcome(NoDeployment, 0, 0);
      if d.Some? {
        o := CallWithRetries(model, d.value, w, v, maxRetries);
      }
      visit := Visit(model, d, o);
      longer := models;
      if !o.end.Success? {
        longer := ExtendAfter(c, models, visit);
      }
    }

    /** The first n passes of the outer loop, for any configuration. */
    method TryModels(c: Chain, w: World, maxRetries: int, n: nat)
      returns (result: Option<Body>, visits: seq<Visit>, models: seq<Name>)
      modifies this
      ensures Loop(models, visits, result) == Turns(c, w, maxRetries, n)
      ensures retriesUsed == old(retriesUsed) + TotalRetries(visits)
      ensures fallbacksUsed == old(fallbacksUsed) + Uses(c, visits)
      ensures effects == old(effects) + Effects(visits)
    {
      hide VisitAt, Grow, EffectOf, UseOf, TotalRetries, Uses, Effects, Turns, Turn;
      NothingVisited(c, w, maxRetries);
      models := [c.primary];
      visits := [];
      result := None;
      while result.None? && |visits| < |models| && |visits| < n
        invariant Loop(models, visits, result) == Turns(c, w, maxRetries, |visits|)
        invariant |visits| <= n
        invariant retriesUsed == old(retriesUsed) + TotalRetries(visits)
        invariant fallbacksUsed == old(fallbacksUsed) + Uses(c, visits)
        invariant effects == old(effects) + Effects(visits)
        decreases n - |visits|, result.None?
      {
        var longer, visit := TryModel(c, w, maxRetries, models, |visits|);
        OneMoreVisit(c, w, maxRetries, Loop(models, visits, result), visit);
        models, visits := longer, visits + [visit];
        if visit.outcome.end.Success? {
          result := Some(visit.outcome.end.body);
        }
      }
      if |visits| < n {
        StaysFinished(c, w, maxRetries, |visits|, n);
      }
    }

    /** The whole loop, wherever it ends; n is any number of passes by which it has. */
    method RouteAndCall(c: Chain, w: World, maxRetries: int, n: nat) returns (result: Option<Body>, visits: seq<Visit>)
      requires FinishedBy(c, w, maxRetries, n)
      modifies this
      ensures forall m: nat | n <= m :: Turns(c, w, maxRetries, m) == Turns(c, w, maxRetries, n)
      ensures var l := Turns(c, w, maxRetries, n); Finished(l) && result == l.result && visits == l.visits
      ensures retriesUsed == old(retriesUsed) + TotalRetries(visits)
      ensures fallbacksUsed == old(fallbacksUsed) + Uses(c, visits)
      ensures effects == old(effects) + Effects(visits)
    {
      forall m: nat | n <= m
        ensures Turns(c, w, maxRetries, m) == Turns(c, w, maxRetries, n)
      {
        StaysFinished(c, w, maxRetries, n, m);
      }
      var models;
      result, visits, models := TryModels(c, w, maxRetries, n);
    }
  }

  lemma NothingVisited(c: Chain, w: World, maxRetries: int)
    ensures Turns(c, w, maxRetries, 0) == Loop([c.primary], [], None)
    ensures TotalRetries([]) == 0 && Uses(c, []) == [] && Effects([]) == []
  {
  }

  lemma OneMoreVisit(c: Chain, w: World, maxRetries: int, l: Loop, v: Visit)
    requires !Finished(l) && l == Turns(c, w, maxRetries, |l.visits|)
    requires v == VisitAt(w, maxRetries, |l.visits|, l.models[|l.visits|])
    ensures
      Turns(c, w, maxRetries, |l.visits + [v]|) ==
      if v.outcome.end.Success? then Loop(l.models, l.visits + [v], Some(v.outcome.end.body))
      else Loop(Grow(c, l.models, v.model, v.outcome.end), l.visits + [v], None)
    ensures TotalRetries(l.visits + [v]) == TotalRetries(l.visits) + v.outcome.retries
    ensures Uses(c, l.visits + [v]) == Uses(c, l.visits) + UseOf(c, v)
    ensures Effects(l.visits + [v]) == Effects(l.visits) + EffectOf(v)
  {
    hide VisitAt, Grow, UseOf, EffectOf;
    assert (l.visits + [v])[..|l.visits|] == l.visits;
  }

  lemma {:induction false} StaysFinished(c: Chain, w: World, maxRetries: int, n: nat, m: nat)
    requires n <= m && Finished(Turns(c, w, maxRetries, n))
    ensures Turns(c, w, maxRetries, m) == Turns(c, w, maxRetries, n)
  {
    if n < m {
      StaysFinished(c, w, maxRetries, n, m - 1);
    }
  }

  // ---------- what a run promises ----------

  /** Visits whose last send was answered rather than interrupted by an exception. */
  function Answered(visits: seq<Visit>): nat {
    if visits == [] then 0
    else Answered(visits[..|visits| - 1])
         + if visits[|visits| - 1].outcome.end in {NoDeployment, Untried, Failure(true)} then 0 else 1
  }

  function MaxSends(maxRetries: int): nat {
    if maxRetries < 0 then 0 else maxRetries + 1
  }

  lemma {:induction false} AttemptsAccount(w: World, v: nat, n: nat, maxRetries: int)
    ensures
      var o := Attempts(w, v, n, maxRetries);
      && o.sends == o.retries + (if o.end in {Untried, Failure(true)} then 0 else 1)
      && (n <= maxRetries ==> 1 <= o.sends <= maxRetries + 1 - n)
      && (o.end == Untried <==> n > maxRetries)
    decreases maxRetries - n
  {
    if n < maxRetries {
      AttemptsAccount(w, v, n + 1, maxRetries);
    }
  }

  /** A reply that ends a visit whatever attempts are left. */
  ghost predicate EndsVisit(r: Reply) {
    match r
    case Answer(_) => true
    case Status(code, _) => code != 429 && code != 500 && code != 502 && code != 503 && code != 504
    case Raised => false
  }

  /** The first attempt whose reply ends the visit, or the last one there is. */
  ghost predicate DecidedBy(w: World, v: nat, maxRetries: int, n: nat) {
    && n <= maxRetries && (EndsVisit(w.reply(v, n)) || n == maxRetries)
    && forall k: nat | k < n :: !EndsVisit(w.reply(v, k))
  }

  /** A visit that this reply to attempt n decides: it sent n + 1 times, and an exception counts as one retry more. */
  ghost function DecidedAs(r: Reply, n: nat): Outcome {
    match r
    case Answer(body) => Outcome(Success(body), n + 1, n)
    case Status(code, overflow) => Outcome(if code == 400 && overflow then Overflow else Failure(false), n + 1, n)
    case Raised => Outcome(Failure(true), n + 1, n + 1)
  }

  lemma {:induction false} AttemptsFollowReplies(w: World, v: nat, m: nat, n: nat, maxRetries: int)
    requires m <= n && DecidedBy(w, v, maxRetries, n)
    ensures
      var rest, all := Attempts(w, v, m, maxRetries), DecidedAs(w.reply(v, n), n);
      rest == Outcome(all.end, all.sends - m, all.retries - m)
    decreases n - m
  {
    if m < n {
      AttemptsFollowReplies(w, v, m + 1, n, maxRetries);
    }
  }

  lemma OutcomeFollowsReplies(w: World, v: nat, maxRetries: int)
    ensures forall n: nat | DecidedBy(w, v, maxRetries, n) :: Attempts(w, v, 0, maxRetries) == DecidedAs(w.reply(v, n), n)
  {
    forall n: nat | DecidedBy(w, v, maxRetries, n)
      ensures Attempts(w, v, 0, maxRetries) == DecidedAs(w.reply(v, n), n)
    {
      AttemptsFollowReplies(w, v, 0, n, maxRetries);
    }
  }

  lemma {:induction false} SomeAttemptDecides(w: World, v: nat, m: nat, maxRetries: int) returns (n: nat)
    requires m <= maxRetries && forall k: nat | k < m :: !EndsVisit(w.reply(v, k))
    ensures DecidedBy(w, v, maxRetries, n)
    decreases maxRetries - m
  {
    if EndsVisit(w.reply(v, m)) || m == maxRetries {
      n := m;
    } else {
      n := SomeAttemptDecides(w, v, m + 1, maxRetries);
    }
  }

  /**
   Every visit of a run to a selected deployment, told by the replies alone: one of its attempts decides it, all before
   that one were answered by a status to be sent again or by an exception.
   */
  lemma VisitsFollowTheReplies(c: Chain, w: World, maxRetries: int, n: nat, v: nat)
    requires v < |Turns(c, w, maxRetries, n).visits| && 0 <= maxRetries
    ensures
      var visit := Turns(c, w, maxRetries, n).visits[v];
      && visit.deployment == w.select(v, visit.model)
      && if visit.deployment.None? then visit.outcome == Outcome(NoDeployment, 0, 0)
         else exists k: nat :: DecidedBy(w, v, maxRetries, k) && visit.outcome == DecidedAs(w.reply(v, k), k)
  {
    hide Turns;
    VisitsFollowTheList(c, w, maxRetries, n);
    var k := SomeAttemptDecides(w, v, 0, maxRetries);
    AttemptsFollowReplies(w, v, 0, k, maxRetries);
  }

  lemma VisitAccount(w: World, maxRetries: int, v: nat, model: Name)
    ensures
      var o := VisitAt(w, maxRetries, v, model).outcome;
      && o.sends == o.retries + (if o.end in {NoDeployment, Untried, Failure(true)} then 0 else 1)
      && o.sends <= MaxSends(maxRetries)
  {
    AttemptsAccount(w, v, 0, maxRetries);
  }

  lemma TotalsOfOneMore(visits: seq<Visit>, v: Visit)
    ensures TotalSends(visits + [v]) == TotalSends(visits) + v.outcome.sends
    ensures TotalRetries(visits + [v]) == TotalRetries(visits) + v.outcome.retries
    ensures
      Answered(visits + [v]) == Answered(visits) + if v.outcome.end in {NoDeployment, Untried, Failure(true)} then 0 else 1
  {
    assert (visits + [v])[..|visits|] == visits;
  }

  /**
   Every send is either counted as a retry or the answered last send of its visit;
   each visit sends at most retries + 1 times.
   */
  lemma {:induction false} SendsAreAccountedFor(c: Chain, w: World, maxRetries: int, n: nat)
    ensures
      var visits := Turns(c, w, maxRetries, n).visits;
      && TotalSends(visits) == TotalRetries(visits) + Answered(visits)
      && TotalSends(visits) <= MaxSends(maxRetries) * |visits|
  {
    hide VisitAt, Grow, MaxSends, TotalSends, TotalRetries, Answered, Chain.Standard;
    if n == 0 {
      NothingSent();
    } else {
      SendsAreAccountedFor(c, w, maxRetries, n - 1);
      VisitsFollowTheList(c, w, maxRetries, n - 1);
      var l := Turns(c, w, maxRetries, n - 1);
      if !Finished(l) {
        var v := |l.visits|;
        VisitAccount(w, maxRetries, v, l.models[v]);
        TotalsOfOneMore(l.visits, VisitAt(w, maxRetries, v, l.models[v]));
        OneMoreTimes(MaxSends(maxRetries), v);
      }
    }
  }

  lemma OneMoreTimes(k: nat, n: nat)
    ensures k * (n + 1) == k * n + k
  {
  }

  lemma NothingSent()
    ensures TotalSends([]) == TotalRetries([]) == Answered([]) == 0
  {
  }

  /** The whole call: few visits, and few sends. */
  lemma WorkIsBounded(c: Chain, w: World, maxRetries: int)
    requires c.primary !in c.Standard()
    ensures
      var l := Turns(c, w, maxRetries, Bound(c));
      && Finished(l) && |l.visits| <= Bound(c)
      && TotalSends(l.visits) <= MaxSends(maxRetries) * Bound(c)
  {
    EndsWithinBound(c, w, maxRetries);
    VisitsFollowTheList(c, w, maxRetries, Bound(c));
    SendsAreAccountedFor(c, w, maxRetries, Bound(c));
    var visits := |Turns(c, w, maxRetries, Bound(c)).visits|;
    assert MaxSends(maxRetries) * visits <= MaxSends(maxRetries) * Bound(c) by {
      Scale(MaxSends(maxRetries), visits, Bound(c));
    }
  }

  lemma Scale(k: nat, a: nat, b: nat)
    requires a <= b
    ensures k * a <= k * b
  {
    assert k * b == k * a + k * (b - a);
  }

  /** A result is the body of the last visit, and no other visit succeeded. */
  lemma {:induction false} OnlyTheLastSucceeds(c: Chain, w: World, maxRetries: int, n: nat)
    ensures
      var l := Turns(c, w, maxRetries, n);
      && (forall i | 0 <= i < |l.visits| - 1 :: !l.visits[i].outcome.end.Success?)
      && (l.result.None? ==> forall i | 0 <= i < |l.visits| :: !l.visits[i].outcome.end.Success?)
      && (l.result.Some? ==> l.visits != [] && l.visits[|l.visits| - 1].outcome.end == Success(l.result.value))
  {
    hide VisitAt, Grow;
    if n > 0 {
      OnlyTheLastSucceeds(c, w, maxRetries, n - 1);
    }
  }

  /** Once the primary model was visited without success, the list holds it and every standard fallback. */
  lemma {:induction false} FallbacksAreListed(c: Chain, w: World, maxRetries: int, n: nat)
    ensures
      var l := Turns(c, w, maxRetries, n);
      && l.models != [] && l.models[0] == c.primary
      && (l.visits != [] && l.result.None? ==> forall m | m in c.Standard() :: m in l.models)
  {
    if n > 0 {
      hide VisitAt;
      FallbacksAreListed(c, w, maxRetries, n - 1);
      VisitsFollowTheList(c, w, maxRetries, n - 1);
      var l := Turns(c, w, maxRetries, n - 1);
      if !Finished(l) {
        var visit := VisitAt(w, maxRetries, |l.visits|, l.models[|l.visits|]);
        GrowExtends(c, l.models, visit.model, visit.outcome.end);
        if l.visits == [] {
          GrowListsStandard(c, l.models, visit.outcome.end);
        }
      }
    }
  }

  lemma GrowListsStandard(c: Chain, list: seq<Name>, end: End)
    ensures forall m | m in c.Standard() :: m in Grow(c, list, c.primary, end)
  {
    AppendNewFacts(list, c.Standard());
    AppendNewFacts(AppendNew(list, c.ContextWindow()), c.Standard());
  }

  lemma OverflowListsContextWindow(c: Chain, list: seq<Name>, model: Name)
    ensures forall m | m in c.ContextWindow() :: m in Grow(c, list, model, Overflow)
  {
    AppendNewFacts(list, c.ContextWindow());
    AppendNewFacts(AppendNew(list, c.ContextWindow()), c.Standard());
  }

  ghost predicate Overflowed(visits: seq<Visit>) {
    exists i :: 0 <= i < |visits| && visits[i].outcome.end == Overflow
  }

  /** Once some visit overflowed its context window, the list holds every context-window fallback. */
  lemma {:induction false} OverflowFallbacksAreListed(c: Chain, w: World, maxRetries: int, n: nat)
    ensures var l := Turns(c, w, maxRetries, n); Overflowed(l.visits) ==> forall m | m in c.ContextWindow() :: m in l.models
  {
    if n > 0 {
      hide VisitAt, Grow, Chain.ContextWindow;
      OverflowFallbacksAreListed(c, w, maxRetries, n - 1);
      var l := Turns(c, w, maxRetries, n - 1);
      VisitsFollowTheList(c, w, maxRetries, n - 1);
      if !Finished(l) {
        var visit := VisitAt(w, maxRetries, |l.visits|, l.models[|l.visits|]);
        GrowExtends(c, l.models, visit.model, visit.outcome.end);
        if visit.outcome.end == Overflow {
          OverflowListsContextWindow(c, l.models, visit.model);
        }
        var longer := Turns(c, w, maxRetries, n).visits;
        assert forall i | 0 <= i < |l.visits| :: longer[i] == l.visits[i];
      }
    }
  }

  ghost predicate Visited(visits: seq<Visit>, m: Name) {
    exists i :: 0 <= i < |visits| && visits[i].model == m
  }

  /**
   No result only after the primary model, every standard or default fallback and, once a context overflowed,
   every context-window fallback was visited in vain.
   */
  lemma NoResultMeansAllFailed(c: Chain, w: World, maxRetries: int, n: nat)
    requires Finished(Turns(c, w, maxRetries, n)) && Turns(c, w, maxRetries, n).result.None?
    ensures
      var visits := Turns(c, w, maxRetries, n).visits;
      && Visited(visits, c.primary) && (forall m | m in c.standard || c.default == Some(m) :: Visited(visits, m))
      && (Overflowed(visits) ==>
            forall m | m in c.contextWindow || (c.contextWindow == [] && m in c.standard) :: Visited(visits, m))
      && forall i | 0 <= i < |visits| :: !visits[i].outcome.end.Success?
  {
    FallbacksAre(c);
    OnlyTheLastSucceeds(c, w, maxRetries, n);
    FallbacksAreListed(c, w, maxRetries, n);
    OverflowFallbacksAreListed(c, w, maxRetries, n);
    VisitsFollowTheList(c, w, maxRetries, n);
    var l := Turns(c, w, maxRetries, n);
    forall m | m in l.models
      ensures Visited(l.visits, m)
    {
      var i :| 0 <= i < |l.models| && l.models[i] == m;
      assert l.visits[i].model == m;
    }
  }

  ghost predicate DistinctFallbacks(c: Chain) {
    c.primary !in c.Standard() && forall i, j | 0 <= i < j < |c.Standard()| :: c.Standard()[i] != c.Standard()[j]
  }

  lemma GrowsInOrder(c: Chain, list: seq<Name>, model: Name, end: End)
    requires DistinctFallbacks(c) && end != Overflow && !end.Success?
    requires if model == c.primary then list == [c.primary] else list == [c.primary] + c.Standard()
    ensures Grow(c, list, model, end) == [c.primary] + c.Standard()
  {
    AppendFresh([c.primary], c.Standard());
    hide Chain.Standard, AppendNew;
    if !c.HasFallbacks() {
      FallbacksAre(c);
      assert c.Standard() == [];
    }
  }

  lemma {:induction false} NoOverflowBefore(c: Chain, w: World, maxRetries: int, n: nat)
    requires n > 0 && forall v | v in Turns(c, w, maxRetries, n).visits :: v.outcome.end != Overflow
    ensures forall v | v in Turns(c, w, maxRetries, n - 1).visits :: v.outcome.end != Overflow
  {
    hide VisitAt, Grow;
    var before, l := Turns(c, w, maxRetries, n - 1), Turns(c, w, maxRetries, n);
    assert before.visits <= l.visits;
    forall v | v in before.visits
      ensures v.outcome.end != Overflow
    {
      var i :| 0 <= i < |before.visits| && before.visits[i] == v;
      assert l.visits[i] == v;
    }
  }

  lemma {:induction false} StandardOrder(c: Chain, w: World, maxRetries: int, n: nat)
    requires DistinctFallbacks(c) && forall v | v in Turns(c, w, maxRetries, n).visits :: v.outcome.end != Overflow
    ensures
      var l := Turns(c, w, maxRetries, n);
      l.models == [c.primary] + (if l.visits == [] || l.visits[0].outcome.end.Success? then [] else c.Standard())
  {
    hide VisitAt, Grow, Chain.Standard, DistinctFallbacks;
    if n > 0 {
      var before, l := Turns(c, w, maxRetries, n - 1), Turns(c, w, maxRetries, n);
      NoOverflowBefore(c, w, maxRetries, n);
      StandardOrder(c, w, maxRetries, n - 1);
      VisitsFollowTheList(c, w, maxRetries, n - 1);
      if !Finished(before) {
        var v := |before.visits|;
        var visit := VisitAt(w, maxRetries, v, before.models[v]);
        VisitKeepsModel(w, maxRetries, v, before.models[v]);
        assert l.visits[v] == visit && l.visits[v] in l.visits;
        OnlyTheLastSucceeds(c, w, maxRetries, n - 1);
        if !visit.outcome.end.Success? {
          LaterIsFallback(c, before.models, v);
          GrowsInOrder(c, before.models, visit.model, visit.outcome.end);
        }
      }
    }
  }

  lemma LaterIsFallback(c: Chain, models: seq<Name>, v: nat)
    requires DistinctFallbacks(c) && v < |models|
    requires models == [c.primary] + if v == 0 then [] else c.Standard()
    ensures models[v] == c.primary <==> v == 0
  {
    hide Chain.Standard;
  }

  /** Without a context overflow, duplicate-free fallbacks are visited exactly in the configured order. */
  lemma ConfiguredOrder(c: Chain, w: World, maxRetries: int, n: nat)
    requires !FallsBackToItself(c) && forall i, j | 0 <= i < j < |c.standard| :: c.standard[i] != c.standard[j]
    requires forall v | v in Turns(c, w, maxRetries, n).visits :: v.outcome.end != Overflow
    ensures
      var l := Turns(c, w, maxRetries, n);
      l.models ==
      [c.primary] +
      if l.visits == [] || l.visits[0].outcome.end.Success? then []
      else c.standard + if c.default.Some? && c.default.value !in c.standard then [c.default.value] else []
  {
    hide Turns, Chain.Standard;
    FallbacksAre(c);
    StandardOrder(c, w, maxRetries, n);
  }

  lemma {:induction false} AppendFresh(list: seq<Name>, more: seq<Name>)
    requires forall i, j | 0 <= i < j < |more| :: more[i] != more[j]
    requires forall m | m in more :: m !in list
    ensures AppendNew(list, more) == list + more
    decreases |more|
  {
    if more != [] {
      AppendFresh(list + [more[0]], more[1..]);
      assert list + more == list + [more[0]] + more[1..];
    }
  }

  /** A sequence without its later repetitions. */
  ghost function Firsts(s: seq<Name>): seq<Name> {
    if s == [] then []
    else
      var n := |s| - 1;
      Firsts(s[..n]) + if s[n] in s[..n] then [] else [s[n]]
  }

  ghost function DefaultOf(c: Chain): seq<Name> {
    if c.default.Some? then [c.default.value] else []
  }

  /** What a failed visit calls for: context-window fallbacks at an overflow, standard ones at the primary model. */
  ghost function CalledBy(c: Chain, model: Name, end: End): seq<Name> {
    (if end != Overflow then [] else if c.contextWindow == [] then c.standard + DefaultOf(c) else c.contextWindow + DefaultOf(c))
    + (if model != c.primary || end.Success? then [] else c.standard + DefaultOf(c))
  }

  ghost function CalledFor(c: Chain, visits: seq<Visit>): seq<Name> {
    if visits == [] then []
    else
      var n := |visits| - 1;
      CalledFor(c, visits[..n]) + CalledBy(c, visits[n].model, visits[n].outcome.end)
  }

  lemma FirstsOfOneMore(s: seq<Name>, x: Name)
    ensures Firsts(s + [x]) == Firsts(s) + if x in s then [] else [x]
  {
    assert (s + [x])[..|s|] == s;
  }

  lemma {:induction false} FirstsHaveAll(s: seq<Name>)
    ensures forall x :: x in Firsts(s) <==> x in s
  {
    if s != [] {
      FirstsHaveAll(s[..|s| - 1]);
      assert s == s[..|s| - 1] + [s[|s| - 1]];
    }
  }

  lemma {:induction false} AppendNewIsFirsts(s: seq<Name>, more: seq<Name>)
    ensures AppendNew(Firsts(s), more) == Firsts(s + more)
    decreases |more|
  {
    hide Firsts;
    if more == [] {
      assert s + more == s;
    } else {
      FirstsHaveAll(s);
      FirstsOfOneMore(s, more[0]);
      AppendNewIsFirsts(s + [more[0]], more[1..]);
      assert s + [more[0]] + more[1..] == s + more;
      assert Firsts(s) + [] == Firsts(s);
    }
  }

  /** A default among the others adds nothing. */
  lemma FirstsWithDefault(s: seq<Name>, own: seq<Name>, default: Option<Name>)
    ensures
      Firsts(s + (own + if default.Some? && default.value !in own then [default.value] else [])) ==
      Firsts(s + (own + if default.Some? then [default.value] else []))
  {
    if default.Some? && default.value in own {
      FirstsOfOneMore(s + own, default.value);
      assert s + (own + [default.value]) == s + own + [default.value];
      assert s + (own + []) == s + own && Firsts(s + own) + [] == Firsts(s + own);
    }
  }

  lemma {:induction false} FirstsOfDistinct(s: seq<Name>)
    requires forall i, j | 0 <= i < j < |s| :: s[i] != s[j]
    ensures Firsts(s) == s
  {
    if s != [] {
      FirstsOfDistinct(s[..|s| - 1]);
      assert s == s[..|s| - 1] + [s[|s| - 1]];
    }
  }

  lemma AppendsAreFirsts(c: Chain, s: seq<Name>)
    ensures AppendNew(Firsts(s), c.Standard()) == Firsts(s + (c.standard + DefaultOf(c)))
    ensures
      AppendNew(Firsts(s), c.ContextWindow()) ==
      Firsts(s + ((if c.contextWindow == [] then c.standard else c.contextWindow) + DefaultOf(c)))
  {
    hide Chain.Standard, Chain.ContextWindow, AppendNew, Firsts;
    FallbacksAre(c);
    AppendNewIsFirsts(s, c.Standard());
    AppendNewIsFirsts(s, c.ContextWindow());
    FirstsWithDefault(s, c.standard, c.default);
    FirstsWithDefault(s, if c.contextWindow == [] then c.standard else c.contextWindow, c.default);
  }

  lemma GrowIsFirsts(c: Chain, s: seq<Name>, model: Name, end: End)
    requires end != NoDeployment && !end.Success?
    ensures Grow(c, Firsts(s), model, end) == Firsts(s + CalledBy(c, model, end))
  {
    hide Chain.Standard, Chain.ContextWindow, AppendNew, Firsts;
    var own := if c.contextWindow == [] then c.standard else c.contextWindow;
    var first := if end == Overflow then own + DefaultOf(c) else [];
    var second := if model == c.primary then c.standard + DefaultOf(c) else [];
    AppendsAreFirsts(c, s);
    AppendsAreFirsts(c, s + first);
    assert s + [] == s && first + [] == first && s + first + second == s + (first + second);
    if !c.HasFallbacks() {
      assert c.standard + DefaultOf(c) == [];
      assert s + first + [] == s + first;
    }
  }

  lemma FirstGrowthIsFirsts(c: Chain)
    requires c.primary !in c.Standard() && forall i, j | 0 <= i < j < |c.standard| :: c.standard[i] != c.standard[j]
    ensures Grow(c, [c.primary], c.primary, NoDeployment) == Firsts([c.primary] + CalledBy(c, c.primary, NoDeployment))
  {
    hide Firsts;
    FallbacksAre(c);
    FirstsWithDefault([c.primary], c.standard, c.default);
    FirstsOfDistinct([c.primary] + c.Standard());
    assert CalledBy(c, c.primary, NoDeployment) == c.standard + DefaultOf(c);
    if !c.HasFallbacks() {
      assert [c.primary] + c.Standard() == [c.primary];
    }
  }

  lemma WorkListStep(c: Chain, l: Loop, v: Visit)
    requires !FallsBackToItself(c) && forall i, j | 0 <= i < j < |c.standard| :: c.standard[i] != c.standard[j]
    requires !Finished(l) && Shape(c, l.models) && l.models[|l.visits|] == v.model
    requires l.visits == [] ==> l.models == [c.primary]
    requires l.models == Firsts([c.primary] + CalledFor(c, l.visits))
    ensures
      Firsts([c.primary] + CalledFor(c, l.visits + [v])) ==
      if v.outcome.end.Success? then l.models else Grow(c, l.models, v.model, v.outcome.end)
  {
    hide Chain.Standard, Chain.ContextWindow, Grow, Firsts, CalledBy, CalledFor, Shape;
    var called := [c.primary] + CalledFor(c, l.visits);
    CalledForOneMore(c, l.visits, v);
    assert called + CalledBy(c, v.model, v.outcome.end) == [c.primary] + CalledFor(c, l.visits + [v]);
    if v.outcome.end == NoDeployment {
      NoDeploymentCalls(c, l, v.model);
    } else if !v.outcome.end.Success? {
      GrowIsFirsts(c, called, v.model, v.outcome.end);
    } else {
      SuccessCallsNothing(c, called, v.model, v.outcome.end);
    }
  }

  /**
   The models of a run, visited or still to be: the primary one and, each once, what the failed visits call for in their
   order; context-window fallbacks at an overflow, standard ones at the primary model, the default behind either.
   */
  lemma {:induction false} WorkListIs(c: Chain, w: World, maxRetries: int, n: nat)
    requires !FallsBackToItself(c) && forall i, j | 0 <= i < j < |c.standard| :: c.standard[i] != c.standard[j]
    ensures Turns(c, w, maxRetries, n).models == Firsts([c.primary] + CalledFor(c, Turns(c, w, maxRetries, n).visits))
  {
    hide Chain.Standard, Chain.ContextWindow, Grow, Firsts, VisitAt, CalledFor, Shape;
    if n == 0 {
      NothingCalledFor(c);
    } else {
      WorkListIs(c, w, maxRetries, n - 1);
      PrimaryIsNoStandard(c);
      ListStaysShort(c, w, maxRetries, n - 1);
      VisitsFollowTheList(c, w, maxRetries, n - 1);
      var l := Turns(c, w, maxRetries, n - 1);
      if !Finished(l) {
        var v := VisitAt(w, maxRetries, |l.visits|, l.models[|l.visits|]);
        VisitKeepsModel(w, maxRetries, |l.visits|, l.models[|l.visits|]);
        WorkListStep(c, l, v);
      }
    }
  }

  lemma NothingCalledFor(c: Chain)
    ensures Firsts([c.primary] + CalledFor(c, [])) == [c.primary]
  {
    FirstsOfDistinct([c.primary]);
    assert [c.primary] + [] == [c.primary];
  }

  lemma PrimaryIsNoStandard(c: Chain)
    requires !FallsBackToItself(c)
    ensures c.primary !in c.Standard()
  {
  }

  lemma VisitKeepsModel(w: World, maxRetries: int, v: nat, model: Name)
    ensures VisitAt(w, maxRetries, v, model).model == model
  {
  }

  lemma SuccessCallsNothing(c: Chain, called: seq<Name>, model: Name, end: End)
    requires end.Success?
    ensures called + CalledBy(c, model, end) == called
  {
  }

  lemma NoDeploymentCalls(c: Chain, l: Loop, model: Name)
    requires !FallsBackToItself(c) && forall i, j | 0 <= i < j < |c.standard| :: c.standard[i] != c.standard[j]
    requires !Finished(l) && Shape(c, l.models) && l.models[|l.visits|] == model
    requires l.visits == [] ==> l.models == [c.primary]
    requires l.models == Firsts([c.primary] + CalledFor(c, l.visits))
    ensures
      Grow(c, l.models, model, NoDeployment) ==
      Firsts([c.primary] + CalledFor(c, l.visits) + CalledBy(c, model, NoDeployment))
  {
    hide Firsts, Chain.Standard;
    var called := [c.primary] + CalledFor(c, l.visits);
    if model == c.primary {
      assert l.visits == [] && called == [c.primary];
      FallbacksAre(c);
      FirstGrowthIsFirsts(c);
    } else {
      assert called + CalledBy(c, model, NoDeployment) == called;
    }
  }

  lemma CalledForOneMore(c: Chain, visits: seq<Visit>, v: Visit)
    ensures CalledFor(c, visits + [v]) == CalledFor(c, visits) + CalledBy(c, v.model, v.outcome.end)
  {
    assert (visits + [v])[..|visits|] == visits;
  }

  // ---------- failure accounting ----------

  predicate OnDeployment(v: Visit, id: Name) {
    v.deployment.Some? && v.deployment.value.id == id
  }

  /** How many visits to a deployment ended in a way that counts as a failure. */
  function FailedVisits(visits: seq<Visit>, id: Name): nat {
    if visits == [] then 0
    else FailedVisits(visits[..|visits| - 1], id)
         + if OnDeployment(visits[|visits| - 1], id) && visits[|visits| - 1].outcome.end.Failure? then 1 else 0
  }

  lemma EffectsOfVisit(v: Visit, id: Name)
    ensures multiset(EffectOf(v))[Counted(id)] == if OnDeployment(v, id) && v.outcome.end.Failure? then 1 else 0
    ensures Cleared(id) in EffectOf(v) <==> OnDeployment(v, id) && v.outcome.end.Success?
  {
  }

  lemma {:induction false} EffectsOfVisits(visits: seq<Visit>, id: Name)
    ensures multiset(Effects(visits))[Counted(id)] == FailedVisits(visits, id)
    ensures (forall v | v in visits :: !v.outcome.end.Success?) ==> Cleared(id) !in Effects(visits)
  {
    hide EffectOf;
    if visits != [] {
      var before, last := visits[..|visits| - 1], visits[|visits| - 1];
      EffectsOfVisits(before, id);
      EffectsOfVisit(last, id);
      assert multiset(Effects(before) + EffectOf(last)) == multiset(Effects(before)) + multiset(EffectOf(last));
    }
  }

  /** The visits to a deployment that ended in failure, by their numbers. */
  ghost function FailuresAt(visits: seq<Visit>, id: Name): set<int> {
    set i | 0 <= i < |visits| && visits[i].deployment.Some? && visits[i].deployment.value.id == id && visits[i].outcome.end.Failure?
  }

  lemma {:induction false} FailedVisitsAre(visits: seq<Visit>, id: Name)
    ensures FailedVisits(visits, id) == |FailuresAt(visits, id)|
  {
    if visits != [] {
      var n := |visits| - 1;
      FailedVisitsAre(visits[..n], id);
      assert FailuresAt(visits, id) ==
             FailuresAt(visits[..n], id)
             + if OnDeployment(visits[n], id) && visits[n].outcome.end.Failure? then {n} else {};
    }
  }

  /** Each failed visit counts once against its deployment; a counter is cleared only by the successful last visit. */
  lemma EffectsAreExact(c: Chain, w: World, maxRetries: int, n: nat, id: Name)
    ensures
      var l := Turns(c, w, maxRetries, n);
      && multiset(Effects(l.visits))[Counted(id)] == FailedVisits(l.visits, id) == |FailuresAt(l.visits, id)|
      && (Cleared(id) in Effects(l.visits) <==>
            && l.result.Some? && l.visits != []
            && var d := l.visits[|l.visits| - 1].deployment; d.Some? && d.value.id == id)
  {
    hide Turns, FailedVisits, VisitAt, Attempts, EffectOf;
    OnlyTheLastSucceeds(c, w, maxRetries, n);
    SuccessHasDeployment(c, w, maxRetries, n);
    var l := Turns(c, w, maxRetries, n);
    EffectsOfVisits(l.visits, id);
    FailedVisitsAre(l.visits, id);
    if l.result.Some? {
      var n := |l.visits| - 1;
      EffectsOfVisits(l.visits[..n], id);
      EffectsOfVisit(l.visits[n], id);
    }
  }

  ghost function OverflowsOf(visits: seq<Visit>, m: Name): set<int> {
    set i | 0 <= i < |visits| && visits[i].model == m && visits[i].outcome.end == Overflow
  }

  ghost predicate InVain(v: Visit, m: Name) {
    v.model == m && v.outcome.end != NoDeployment && !v.outcome.end.Success?
  }

  ghost function VainVisitsOf(visits: seq<Visit>, m: Name): set<int> {
    set i | 0 <= i < |visits| && InVain(visits[i], m)
  }

  lemma NoVisitsOf(m: Name)
    ensures OverflowsOf([], m) == {} == VainVisitsOf([], m)
  {
  }

  lemma OneMoreOverflow(visits: seq<Visit>, m: Name)
    requires visits != []
    ensures
      var n := |visits| - 1;
      |OverflowsOf(visits, m)| ==
      |OverflowsOf(visits[..n], m)| + if visits[n].model == m && visits[n].outcome.end == Overflow then 1 else 0
  {
    var n := |visits| - 1;
    assert OverflowsOf(visits, m) ==
           OverflowsOf(visits[..n], m) + if visits[n].model == m && visits[n].outcome.end == Overflow then {n} else {};
  }

  lemma OneMoreInVain(visits: seq<Visit>, m: Name)
    requires visits != []
    ensures
      var n := |visits| - 1;
      |VainVisitsOf(visits, m)| == |VainVisitsOf(visits[..n], m)| + if InVain(visits[n], m) then 1 else 0
  {
    var n := |visits| - 1;
    hide InVain;
    assert VainVisitsOf(visits, m) == VainVisitsOf(visits[..n], m) + if InVain(visits[n], m) then {n} else {};
  }

  lemma UsesOfVisit(c: Chain, v: Visit, m: Name)
    ensures
      multiset(UseOf(c, v))[UsedContextWindow(m)] == if v.model == m && v.outcome.end == Overflow then 1 else 0
    ensures
      multiset(UseOf(c, v))[UsedStandard(m)] ==
      if v.model == m == c.primary && v.outcome.end != NoDeployment && !v.outcome.end.Success?
         && (c.standard != [] || c.contextWindow != [] || c.contentPolicy != [] || c.default.Some?)
      then 1 else 0
  {
  }

  /**
   fallbacks_used names a context window for each visit that overflowed it, and the standard fallbacks for each visit of the
   primary model that found a deployment in vain, if any fallback is configured at all.
   */
  lemma {:induction false} UsesAreExact(c: Chain, visits: seq<Visit>, m: Name)
    ensures multiset(Uses(c, visits))[UsedContextWindow(m)] == |OverflowsOf(visits, m)|
    ensures
      multiset(Uses(c, visits))[UsedStandard(m)] ==
      if m == c.primary && (c.standard != [] || c.contextWindow != [] || c.contentPolicy != [] || c.default.Some?)
      then |VainVisitsOf(visits, m)| else 0
  {
    hide UseOf, OverflowsOf, VainVisitsOf;
    if visits == [] {
      NoVisitsOf(m);
    } else {
      var n := |visits| - 1;
      var before, v := visits[..n], visits[n];
      UsesAreExact(c, before, m);
      UsesOfVisit(c, v, m);
      assert multiset(Uses(c, before) + UseOf(c, v)) == multiset(Uses(c, before)) + multiset(UseOf(c, v));
      OneMoreOverflow(visits, m);
      OneMoreInVain(visits, m);
    }
  }

  lemma SuccessHasDeployment(c: Chain, w: World, maxRetries: int, n: nat)
    ensures forall v | v in Turns(c, w, maxRetries, n).visits :: v.deployment.None? <==> v.outcome.end == NoDeployment
  {
    VisitsFollowTheList(c, w, maxRetries, n);
  }

  // ---------- one call and one deployment's marks ----------

  /** What a deployment's failure counter and cooldown flag are after the visits, and how many cooldowns they started. */
  datatype Toll = Toll(marks: Cooldowns.Marks, cooldowns: nat)

  function Charge(t: Toll, p: Cooldowns.Policy, effects: seq<Effect>, id: Name, now: int): Toll {
    if Counted(id) in effects then
      var (marks, started) := Cooldowns.Step(t.marks, p, Cooldowns.Failed(now));
      Toll(marks, t.cooldowns + if started then 1 else 0)
    else if Cleared(id) in effects then t.(marks := Cooldowns.Step(t.marks, p, Cooldowns.Succeeded(now)).0)
    else t
  }

  /** Visit v ends at time at(v). */
  function TollOf(m: Cooldowns.Marks, p: Cooldowns.Policy, visits: seq<Visit>, id: Name, at: nat -> int): Toll {
    if visits == [] then Toll(m, 0) else
      var n := |visits| - 1;
      Charge(TollOf(m, p, visits[..n], id, at), p, EffectOf(visits[n]), id, at(n))
  }

  function Threshold(p: Cooldowns.Policy): nat {
    if p.allowed < 1 then 1 else p.allowed
  }

  function CountOf(m: Cooldowns.Marks): int {
    if m.failures.None? then 0 else m.failures.value.value
  }

  /** The counter is gone, or lasts through the visits from k on. */
  ghost predicate Lasts(m: Cooldowns.Marks, k: nat, n: nat, at: nat -> int) {
    forall i: nat | k <= i < n :: m.failures.None? || Redis.Live(m.failures, at(i))
  }

  /** n visits end one after the other, all within the counter's idle time. */
  ghost predicate Brief(n: nat, at: nat -> int) {
    forall i: nat, j: nat | i < j < n :: at(i) <= at(j) < at(i) + Cooldowns.IDLE
  }

  ghost predicate PausedByVisit(m: Cooldowns.Marks, p: Cooldowns.Policy, n: nat, at: nat -> int) {
    exists i: nat :: i < n && m.active == Cooldowns.Paused(p, at(i))
  }

  /** The flag is the one found, or that of the last cooldown the visits started. */
  ghost predicate FlagFits(t: Toll, m: Cooldowns.Marks, p: Cooldowns.Policy, n: nat, at: nat -> int) {
    if t.cooldowns == 0 then t.marks.active == m.active else PausedByVisit(t.marks, p, n, at)
  }

  lemma FailureCharges(t: Toll, p: Cooldowns.Policy, effects: seq<Effect>, id: Name, k: nat, n: nat, at: nat -> int)
    requires Counted(id) in effects && k < n && Lasts(t.marks, k, n, at) && Brief(n, at)
    requires 0 <= CountOf(t.marks) < Threshold(p)
    ensures
      var after := Charge(t, p, effects, id, at(k));
      && Lasts(after.marks, k + 1, n, at)
      && if CountOf(t.marks) + 1 == Threshold(p)
         then after == Toll(Cooldowns.Marks(None, Cooldowns.Paused(p, at(k))), t.cooldowns + 1)
         else CountOf(after.marks) == CountOf(t.marks) + 1
              && after.cooldowns == t.cooldowns && after.marks.active == t.marks.active
  {
    assert t.marks.failures.None? || Redis.Live(t.marks.failures, at(k));
  }

  lemma FlagStillFits(t: Toll, after: Toll, m: Cooldowns.Marks, p: Cooldowns.Policy, k: nat, at: nat -> int)
    requires FlagFits(t, m, p, k, at)
    requires
      || (after.cooldowns == t.cooldowns && after.marks.active == t.marks.active)
      || (after.cooldowns == t.cooldowns + 1 && after.marks.active == Cooldowns.Paused(p, at(k)))
    ensures FlagFits(after, m, p, k + 1, at)
  {
    if after.cooldowns == t.cooldowns && t.cooldowns > 0 {
      var i: nat :| i < k && t.marks.active == Cooldowns.Paused(p, at(i));
      assert i < k + 1 && after.marks.active == Cooldowns.Paused(p, at(i));
    }
  }

  /** Of the failures found and made, those not on the counter were used up by cooldowns, a threshold of them by each. */
  ghost predicate Balanced(t: Toll, p: Cooldowns.Policy, failures: int) {
    failures == Threshold(p) * t.cooldowns + CountOf(t.marks) && 0 <= CountOf(t.marks) < Threshold(p)
  }

  ghost predicate Accounted(t: Toll, m: Cooldowns.Marks, p: Cooldowns.Policy, failures: int, k: nat, n: nat, at: nat -> int) {
    Balanced(t, p, failures) && Lasts(t.marks, k, n, at) && FlagFits(t, m, p, k, at)
  }

  lemma VisitIsAccounted(t: Toll, m: Cooldowns.Marks, p: Cooldowns.Policy, failures: int, v: Visit, id: Name,
                         k: nat, n: nat, at: nat -> int)
    requires Accounted(t, m, p, failures, k, n, at) && k < n && Brief(n, at) && !v.outcome.end.Success?
    ensures
      var failed := OnDeployment(v, id) && v.outcome.end.Failure?;
      Accounted(Charge(t, p, EffectOf(v), id, at(k)), m, p, failures + (if failed then 1 else 0), k + 1, n, at)
  {
    hide Brief, Lasts, FlagFits, CountOf, Threshold, EffectOf, OnDeployment, Cooldowns.Step;
    EffectsOfVisit(v, id);
    var after := Charge(t, p, EffectOf(v), id, at(k));
    if OnDeployment(v, id) && v.outcome.end.Failure? {
      FailureCharges(t, p, EffectOf(v), id, k, n, at);
      FlagStillFits(t, after, m, p, k, at);
      OneMoreTimes(Threshold(p), t.cooldowns);
      GoneIsZero(after.marks);
    } else {
      assert after == t;
      FlagStillFits(t, t, m, p, k, at);
      StillLasts(t.marks, k, n, at);
    }
  }

  lemma GoneIsZero(m: Cooldowns.Marks)
    ensures m.failures.None? ==> CountOf(m) == 0
  {
  }

  lemma StillLasts(m: Cooldowns.Marks, k: nat, n: nat, at: nat -> int)
    requires Lasts(m, k, n, at)
    ensures Lasts(m, k + 1, n, at)
  {
  }

  lemma NothingCharged(m: Cooldowns.Marks, p: Cooldowns.Policy, n: nat, at: nat -> int)
    requires Lasts(m, 0, n, at) && 0 <= CountOf(m) < Threshold(p)
    ensures Accounted(Toll(m, 0), m, p, CountOf(m), 0, n, at)
  {
  }

  lemma {:induction false} FailuresAreAccounted(m: Cooldowns.Marks, p: Cooldowns.Policy, visits: seq<Visit>, id: Name,
                                                n: nat, at: nat -> int)
    requires |visits| <= n && Brief(n, at) && Lasts(m, 0, n, at) && 0 <= CountOf(m) < Threshold(p)
    requires forall v | v in visits :: !v.outcome.end.Success?
    ensures Accounted(TollOf(m, p, visits, id, at), m, p, CountOf(m) + FailedVisits(visits, id), |visits|, n, at)
  {
    hide Brief, Lasts, CountOf, Threshold, EffectOf, Charge, Accounted;
    if visits == [] {
      NothingCharged(m, p, n, at);
    } else {
      var k := |visits| - 1;
      FailuresAreAccounted(m, p, visits[..k], id, n, at);
      var t := TollOf(m, p, visits[..k], id, at);
      VisitIsAccounted(t, m, p, CountOf(m) + FailedVisits(visits[..k], id), visits[k], id, k, n, at);
    }
  }

  lemma Used(t: Toll, p: Cooldowns.Policy, failures: int)
    requires Balanced(t, p, failures)
    ensures
      var left := failures - Threshold(p) * t.cooldowns;
      0 <= left < Threshold(p) && CountOf(t.marks) == left && (t.cooldowns > 0 <==> failures >= Threshold(p))
  {
    if t.cooldowns > 0 {
      Scale(Threshold(p), 1, t.cooldowns);
    }
  }

  lemma SuccessClears(t: Toll, m: Cooldowns.Marks, p: Cooldowns.Policy, visits: seq<Visit>, id: Name, at: nat -> int)
    requires visits != [] && visits[|visits| - 1].outcome.end.Success?
    requires t == TollOf(m, p, visits[..|visits| - 1], id, at) && FlagFits(t, m, p, |visits| - 1, at)
    ensures
      var after := TollOf(m, p, visits, id, at);
      && after.cooldowns == t.cooldowns && FlagFits(after, m, p, |visits|, at)
      && CountOf(after.marks) == (if OnDeployment(visits[|visits| - 1], id) then 0 else CountOf(t.marks))
    ensures FailedVisits(visits, id) == FailedVisits(visits[..|visits| - 1], id)
  {
    hide FlagFits;
    FlagStillFits(t, TollOf(m, p, visits, id, at), m, p, |visits| - 1, at);
  }

  /**
   What a whole call does to a deployment whose counter does not run out meanwhile: its failures and those found are used
   up by cooldowns, a threshold of them by each, and what is left is on the counter unless the call succeeded there. The
   flag changes exactly if they reach the threshold.
   */
  lemma CallOnMarks(c: Chain, w: World, maxRetries: int, n: nat, m: Cooldowns.Marks, p: Cooldowns.Policy, id: Name,
                    at: nat -> int)
    requires Brief(n, at) && Lasts(m, 0, n, at) && 0 <= CountOf(m) < Threshold(p)
    ensures
      var l := Turns(c, w, maxRetries, n);
      var t := TollOf(m, p, l.visits, id, at);
      var left := CountOf(m) + FailedVisits(l.visits, id) - Threshold(p) * t.cooldowns;
      && 0 <= left < Threshold(p)
      && CountOf(t.marks) == (if Cleared(id) in Effects(l.visits) then 0 else left)
      && FlagFits(t, m, p, |l.visits|, at)
      && (t.cooldowns > 0 <==> CountOf(m) + FailedVisits(l.visits, id) >= Threshold(p))
  {
    hide Turns, Brief, Lasts, CountOf, Threshold, Charge, Balanced, FlagFits, FailedVisits, EffectOf;
    var l := Turns(c, w, maxRetries, n);
    VisitsFollowTheList(c, w, maxRetries, n);
    OnlyTheLastSucceeds(c, w, maxRetries, n);
    EffectsAreExact(c, w, maxRetries, n, id);
    if l.result.None? {
      FailuresAreAccounted(m, p, l.visits, id, n, at);
      Used(TollOf(m, p, l.visits, id, at), p, CountOf(m) + FailedVisits(l.visits, id));
    } else {
      var k := |l.visits| - 1;
      FailuresAreAccounted(m, p, l.visits[..k], id, n, at);
      var t := TollOf(m, p, l.visits[..k], id, at);
      Used(t, p, CountOf(m) + FailedVisits(l.visits[..k], id));
      SuccessClears(t, m, p, l.visits, id, at);
    }
  }

  // ---------- selection ----------

  ghost predicate SelectsAs(w: World, cfg: Router.Config, i: Router.Identity, snaps: nat -> Router.Snapshot) {
    forall v: nat, m: Name :: Router.MaySelect(cfg, i, snaps(v), m, 0, w.select(v, m))
  }

  /** Every send of a run, fallbacks included, goes to a deployment that passed the hard filters when it was selected. */
  lemma EverySendIsEligible(c: Chain, w: World, maxRetries: int, n: nat, cfg: Router.Config, i: Router.Identity,
                            snaps: nat -> Router.Snapshot, v: nat)
    requires SelectsAs(w, cfg, i, snaps) && v < |Turns(c, w, maxRetries, n).visits|
    requires Turns(c, w, maxRetries, n).visits[v].outcome.sends > 0
    ensures
      var visit := Turns(c, w, maxRetries, n).visits[v];
      visit.deployment.Some? && Router.Eligible(cfg, i, snaps(v), visit.model, visit.deployment.value)
  {
    VisitsFollowTheList(c, w, maxRetries, n);
    var model := Turns(c, w, maxRetries, n).visits[v].model;
    Router.SelectionRespectsHardFilters(cfg, i, snaps(v), model, 0, w.select(v, model));
  }
}
