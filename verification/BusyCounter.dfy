/**
 deployment_busy_counter of routing/router.py: one deployment's count of requests in flight. Opening a call is two
 commands, and those of other calls may come between them.
 */
module BusyCounter {
  import opened Prelude
  import Redis

  /** The counter's time to live, renewed by every call. */
  const TTL := 300

  type Slot = Redis.Slot<int>

  function Read(z: Slot, now: int): int {
    Redis.Get(z, now).GetOr(0)
  }

  /** INCR. */
  function Increment(z: Slot, now: int): Slot {
    Redis.Write(z, now, Read(z, now) + 1)
  }

  /** EXPIRE. */
  function Renew(z: Slot, now: int): Slot {
    Redis.Expire(z, now, now + TTL)
  }

  /** DECR: a counter that is gone comes back as -1, without a deadline. */
  function Decrement(z: Slot, now: int): Slot {
    Redis.Write(z, now, Read(z, now) - 1)
  }

  class Counters {
    var busy: map<Name, Redis.Entry<int>>

    /** The two commands before the call, at two times, when no other command on the key comes between them. */
    method EnterCall(d: Name, at: int, later: int)
      modifies this
      ensures busy == Redis.Store(old(busy), d, Renew(Increment(Redis.SlotOf(old(busy), d), at), later))
    {
      var slot := Redis.SlotOf(busy, d);
      slot := Redis.Write(slot, at, Read(slot, at) + 1);
      slot := Redis.Expire(slot, later, later + TTL);
      busy := Redis.Store(busy, d, slot);
    }

    method ExitCall(d: Name, now: int)
      modifies this
      ensures busy == Redis.Store(old(busy), d, Decrement(Redis.SlotOf(old(busy), d), now))
    {
      var slot := Redis.SlotOf(busy, d);
      slot := Redis.Write(slot, now, Read(slot, now) - 1);
      busy := Redis.Store(busy, d, slot);
    }
  }

  // ---------- interleavings of commands ----------

  datatype Step = Opens(call: Name, now: int) | Renews(call: Name, now: int) | Closes(call: Name, now: int)

  type Steps = Run<Step>

  /** When an open call began, and whether its EXPIRE has been served. */
  datatype Call = Call(began: int, renewed: bool)

  ghost function Open(run: Steps): map<Name, Call> {
    if run.Start? then map[] else
      match run.last
      case Opens(call, now) => Open(run.before)[call := Call(now, false)]
      case Renews(call, _) =>
        if call in Open(run.before) then Open(run.before)[call := Open(run.before)[call].(renewed := true)] else Open(run.before)
      case Closes(call, _) => Open(run.before) - {call}
  }

  /** The clock never runs back, and each call opens, renews and closes in this order. */
  ghost predicate Legal(run: Steps, now: int) {
    run.Then? ==>
      && run.last.now <= now && Legal(run.before, run.last.now)
      && match run.last
         case Opens(call, _) => call !in Open(run.before)
         case Renews(call, _) => call in Open(run.before) && !Open(run.before)[call].renewed
         case Closes(call, _) => call in Open(run.before) && Open(run.before)[call].renewed
  }

  ghost function StateOf(run: Steps): Slot {
    if run.Start? then None else
      var z := StateOf(run.before);
      match run.last
      case Opens(_, now) => Increment(z, now)
      case Renews(_, now) => Renew(z, now)
      case Closes(_, now) => Decrement(z, now)
  }

  /** The last EXPIRE since the counter was created, which an opening does again when it has run out with no call open. */
  ghost function LastRenewal(run: Steps): Option<int> {
    if run.Start? then None else
      var earlier := LastRenewal(run.before);
      match run.last
      case Opens(_, now) =>
        if |Open(run.before)| == 0 && earlier.Some? && earlier.value + TTL <= now then None else earlier
      case Renews(_, now) => Some(now)
      case Closes(_, _) => earlier
  }

  /** The counter read the number of open calls now and at every step before. */
  ghost predicate AlwaysRight(run: Steps, now: int) {
    && Read(StateOf(run), now) == |Open(run)|
    && (run.Then? ==> AlwaysRight(run.before, run.last.now))
  }

  ghost predicate RenewedInTime(run: Steps, now: int) {
    |Open(run)| > 0 && LastRenewal(run).Some? ==> now < LastRenewal(run).value + TTL
  }

  /** Whenever a call was open, the last EXPIRE since the counter was created, if any, was less than TTL ago. */
  ghost predicate AlwaysRenewed(run: Steps, now: int) {
    RenewedInTime(run, now) && (run.Then? ==> AlwaysRenewed(run.before, run.last.now))
  }

  lemma OneMoreOrFewer(open: map<Name, Call>, call: Name, c: Call)
    ensures call !in open ==> |open[call := c]| == |open| + 1
    ensures call in open ==> |open[call := c]| == |open| && |open - {call}| == |open| - 1 && |open| > 0
  {
    assert (open - {call}).Keys == open.Keys - {call};
    assert call in open ==> open[call := c].Keys == open.Keys;
    assert open[call := c].Keys == open.Keys + {call};
  }

  /** The stored count is n, and lasts until TTL after the last renewal. */
  ghost predicate Kept(z: Slot, n: int, renewal: Option<int>) {
    match z
    case None => n == 0 && renewal.None?
    case Some(e) => e.value == n && e.deadline == if renewal.Some? then Some(renewal.value + TTL) else None
  }

  lemma IncrementKeeps(z: Slot, n: int, renewal: Option<int>, now: int)
    requires Kept(z, n, renewal) && 0 <= n && (n > 0 && renewal.Some? ==> now < renewal.value + TTL)
    ensures Kept(Increment(z, now), n + 1, if n == 0 && renewal.Some? && renewal.value + TTL <= now then None else renewal)
  {
  }

  lemma RenewKeeps(z: Slot, n: int, renewal: Option<int>, now: int)
    requires Kept(z, n, renewal) && 0 < n && (renewal.Some? ==> now < renewal.value + TTL)
    ensures Kept(Renew(z, now), n, Some(now))
  {
  }

  lemma DecrementKeeps(z: Slot, n: int, renewal: Option<int>, now: int)
    requires Kept(z, n, renewal) && 0 < n && (renewal.Some? ==> now < renewal.value + TTL)
    ensures Kept(Decrement(z, now), n - 1, renewal)
  {
  }

  lemma StepKeeps(run: Steps, now: int)
    requires run.Then? && Legal(run, now) && RenewedInTime(run.before, run.last.now)
    requires Kept(StateOf(run.before), |Open(run.before)|, LastRenewal(run.before))
    ensures Kept(StateOf(run), |Open(run)|, LastRenewal(run))
  {
    hide Increment, Renew, Decrement, Kept;
    var z, open, renewal, t := StateOf(run.before), Open(run.before), LastRenewal(run.before), run.last.now;
    match run.last {
      case Opens(call, _) =>
        OneMoreOrFewer(open, call, Call(t, false));
        IncrementKeeps(z, |open|, renewal, t);
      case Renews(call, _) =>
        OneMoreOrFewer(open, call, open[call].(renewed := true));
        RenewKeeps(z, |open|, renewal, t);
      case Closes(call, _) =>
        OneMoreOrFewer(open, call, open[call]);
        DecrementKeeps(z, |open|, renewal, t);
    }
  }

  lemma {:induction false} RenewedIsKept(run: Steps, now: int)
    requires Legal(run, now) && (run.Then? ==> AlwaysRenewed(run.before, run.last.now))
    ensures Kept(StateOf(run), |Open(run)|, LastRenewal(run))
  {
    hide Increment, Renew, Decrement;
    if run.Then? {
      RenewedIsKept(run.before, run.last.now);
      StepKeeps(run, now);
    }
  }

  /**
   In every interleaving, the counter is right throughout exactly when, whenever a call was open, the last EXPIRE since
   the counter was created, if any, was less than TTL ago.
   */
  lemma {:induction false} RightIffRenewed(run: Steps, now: int)
    requires Legal(run, now)
    ensures AlwaysRight(run, now) <==> AlwaysRenewed(run, now)
  {
    hide StateOf, Open, LastRenewal;
    if run.Then? {
      RightIffRenewed(run.before, run.last.now);
    }
    if run.Start? || AlwaysRenewed(run.before, run.last.now) {
      RenewedIsKept(run, now);
    }
  }

  // ---------- short calls ----------

  /** Every open call is shorter than TTL so far. */
  ghost predicate Young(open: map<Name, Call>, now: int) {
    forall call | call in open :: now < open[call].began + TTL
  }

  /** No time passes between the two commands that open a call. */
  ghost predicate Prompt(open: map<Name, Call>, now: int) {
    forall call | call in open && !open[call].renewed :: open[call].began == now
  }

  ghost predicate AlwaysYoung(run: Steps, now: int) {
    Young(Open(run), now) && (run.Then? ==> AlwaysYoung(run.before, run.last.now))
  }

  ghost predicate AlwaysPrompt(run: Steps, now: int) {
    Prompt(Open(run), now) && (run.Then? ==> AlwaysPrompt(run.before, run.last.now))
  }

  lemma {:induction false} RenewedSince(run: Steps, now: int)
    requires Legal(run, now)
    ensures forall call | call in Open(run) :: Open(run)[call].began <= now
    ensures
      forall call | call in Open(run) && Open(run)[call].renewed ::
        LastRenewal(run).Some? && Open(run)[call].began <= LastRenewal(run).value
  {
    if run.Then? {
      RenewedSince(run.before, run.last.now);
    }
  }

  lemma {:induction false} YoungAndPromptIsRenewed(run: Steps, now: int)
    requires Legal(run, now) && AlwaysYoung(run, now) && AlwaysPrompt(run, now)
    ensures AlwaysRenewed(run, now)
  {
    hide StateOf;
    RenewedSince(run, now);
    if run.Then? {
      YoungAndPromptIsRenewed(run.before, run.last.now);
      RenewedSince(run, run.last.now);
    }
    if |Open(run)| > 0 && LastRenewal(run).Some? {
      var call :| call in Open(run);
      assert now < Open(run)[call].began + TTL;
      if !Open(run)[call].renewed {
        assert Open(run)[call].began == now;
      }
    }
  }

  /**
   With calls shorter than TTL that open without delay, the counter is the number of open calls and expires only if none
   is open.
   */
  lemma CounterIsCallsInFlight(run: Steps, now: int)
    requires Legal(run, now) && AlwaysYoung(run, now) && AlwaysPrompt(run, now)
    ensures AlwaysRight(run, now)
    ensures StateOf(run).Some? && !Redis.Live(StateOf(run), now) ==> |Open(run)| == 0
  {
    YoungAndPromptIsRenewed(run, now);
    RightIffRenewed(run, now);
    RenewedIsKept(run, now);
  }

  // ---------- lapses ----------

  /**
   When the only open call closes after a lapse, the counter comes back as -1 without a deadline; it stays one too low
   through the next call, whose opening gives it a deadline again.
   */
  lemma LapseLeavesOneTooFew(run: Steps, now: int, next: int, later: int)
    requires run.Then? && Legal(run, now) && AlwaysRight(run.before, run.last.now) && |Open(run)| == 1
    requires LastRenewal(run).Some? && LastRenewal(run).value + TTL <= now && now <= next <= later
    ensures
      var after := Decrement(StateOf(run), now);
      && after == Some(Redis.Entry(-1, None))
      && Renew(Increment(after, next), later) == Some(Redis.Entry(0, Some(later + TTL)))
  {
    RightIffRenewed(run.before, run.last.now);
    RenewedIsKept(run, now);
  }

  ghost function TwoShortCalls(a: Name, b: Name): Steps {
    Then(Then(Then(Then(Start, Opens(a, 0)), Renews(a, 0)), Closes(a, 10)), Opens(b, 299))
  }

  /** All there is to know of a run of short calls. */
  ghost predicate Reached(run: Steps, now: int, open: map<Name, Call>, z: Slot) {
    Legal(run, now) && AlwaysYoung(run, now) && Open(run) == open && StateOf(run) == z
  }

  lemma OpensTo(run: Steps, now: int, call: Name, later: int, open: map<Name, Call>, z: Slot)
    requires Reached(run, now, open, z) && call !in open && now <= later
    requires Young(open[call := Call(now, false)], later)
    ensures Reached(Then(run, Opens(call, now)), later, open[call := Call(now, false)], Increment(z, now))
  {
  }

  lemma RenewsTo(run: Steps, now: int, call: Name, later: int, open: map<Name, Call>, z: Slot)
    requires Reached(run, now, open, z) && call in open && !open[call].renewed && now <= later
    requires Young(open[call := open[call].(renewed := true)], later)
    ensures Reached(Then(run, Renews(call, now)), later, open[call := open[call].(renewed := true)], Renew(z, now))
  {
  }

  lemma ClosesTo(run: Steps, now: int, call: Name, later: int, open: map<Name, Call>, z: Slot)
    requires Reached(run, now, open, z) && call in open && open[call].renewed && now <= later && Young(open - {call}, later)
    ensures Reached(Then(run, Closes(call, now)), later, open - {call}, Decrement(z, now))
  {
  }

  lemma FirstShortCall(a: Name)
    ensures
      var run := Then(Then(Then(Start, Opens(a, 0)), Renews(a, 0)), Closes(a, 10));
      Reached(run, 299, map[], Some(Redis.Entry(0, Some(300))))
  {
    assert Reached(Start, 0, map[], None);
    hide Reached;
    OpensTo(Start, 0, a, 0, map[], None);
    var open := map[][a := Call(0, false)];
    RenewsTo(Then(Start, Opens(a, 0)), 0, a, 10, open, Increment(None, 0));
    var renewed := open[a := open[a].(renewed := true)];
    ClosesTo(Then(Then(Start, Opens(a, 0)), Renews(a, 0)), 10, a, 299, renewed, Renew(Increment(None, 0), 0));
    assert renewed - {a} == map[];
  }

  /** Short calls are not enough: the counter may run out between the two commands that open a call. */
  lemma ShortCallsMayLapse(a: Name, b: Name)
    ensures
      var run := TwoShortCalls(a, b);
      var end := Then(Then(run, Renews(b, 301)), Closes(b, 302));
      && Reached(run, 300, map[b := Call(299, false)], Some(Redis.Entry(1, Some(300))))
      && Read(StateOf(run), 300) == 0
      && Reached(end, 302, map[], Some(Redis.Entry(-1, None)))
  {
    FirstShortCall(a);
    var run := TwoShortCalls(a, b);
    var z, open := Some(Redis.Entry(1, Some(300))), map[][b := Call(299, false)];
    assert Reached(run, 300, open, z) && run.last == Opens(b, 299) by {
      OpensTo(run.before, 299, b, 300, map[], Some(Redis.Entry(0, Some(300))));
    }
    OpensTo(run.before, 299, b, 301, map[], Some(Redis.Entry(0, Some(300))));
    RenewsTo(run, 301, b, 302, open, z);
    ClosesTo(Then(run, Renews(b, 301)), 302, b, 302, open[b := open[b].(renewed := true)], z);
    assert open[b := open[b].(renewed := true)] - {b} == map[];
    assert open == map[b := Call(299, false)];
  }
}
