/** Option, and a few facts about sets and sequences shared by the other modules. */
module Prelude {

  /** A string that is only ever compared: a Redis key, an id, a model name. */
  datatype Name = Name(text: string)

  datatype Option<+T> = None | Some(value: T) {
    function GetOr(default: T): T {
      match this
      case Some(v) => v
      case None => default
    }
  }

  /** Whose requests a rate limit counts. */
  datatype Scope =
    | OfKey(key: Name)
    | OfKeyAndModel(key: Name, model: Name)
    | OfUser(user: Name)
    | OfTeam(team: Name)
    | OfOrg(org: Name)
    | OfModel(model: Name)

  /** A run, oldest step innermost. */
  datatype Run<+T> = Start | Then(before: Run<T>, last: T)

  // ---------- calls on a limited key ----------

  /** A call: `at` is when Redis serves it, `now` the time its caller read before and passes in, `item` what it would add. */
  datatype Arrival<+T> = Arrival(key: Scope, limit: int, at: int, now: int, item: T)

  /** A call is served no more than `late` after its caller read the clock. */
  predicate Punctual(late: nat, now: int, at: int) {
    0 <= now <= at <= now + late
  }

  /** When the last call on a key was served. */
  ghost function Clock<T>(run: Run<Arrival<T>>, key: Scope): int {
    if run.Start? then 0 else if run.last.key == key then run.last.at else Clock(run.before, key)
  }

  ghost predicate Bounded<T>(run: Run<Arrival<T>>, key: Scope, limit: int) {
    run.Then? ==> Bounded(run.before, key, limit) && (run.last.key == key ==> run.last.limit <= limit)
  }

  // ---------- sequences and sets ----------

  /** The pieces f makes of each element, one after the other. */
  function FlatMap<A, B>(f: A -> seq<B>, s: seq<A>): seq<B> {
    if s == [] then [] else f(s[0]) + FlatMap(f, s[1..])
  }

  lemma {:induction false} FlatMapConcat<A, B>(f: A -> seq<B>, front: seq<A>, back: seq<A>)
    ensures FlatMap(f, front + back) == FlatMap(f, front) + FlatMap(f, back)
  {
    if front == [] {
      assert front + back == back;
    } else {
      FlatMapConcat(f, front[1..], back);
      assert (front + back)[1..] == front[1..] + back;
      var first, rest := f(front[0]), FlatMap(f, front[1..]);
      assert FlatMap(f, front + back) == first + (rest + FlatMap(f, back)) == first + rest + FlatMap(f, back);
    }
  }

  lemma FlatMapOne<A, B>(f: A -> seq<B>, x: A)
    ensures FlatMap(f, [x]) == f(x)
  {
    assert [x][1..] == [];
  }

  ghost predicate Distinct<T>(s: seq<T>) {
    s == [] || (s[0] !in s[1..] && Distinct(s[1..]))
  }

  /** The set of the elements of a sequence. */
  ghost function Elements<T>(s: seq<T>): set<T> {
    set x | x in s
  }

  lemma SubsetSize<T>(a: set<T>, b: set<T>)
    requires a <= b
    ensures |a| <= |b|
  {
    assert b == a + (b - a);
  }

  /** A sequence has at least as many places as elements. */
  lemma {:induction false} ElementsSize<T>(s: seq<T>)
    ensures |Elements(s)| <= |s|
  {
    if s != [] {
      ElementsSize(s[1..]);
      assert Elements(s) == {s[0]} + Elements(s[1..]);
    }
  }

  /** A duplicate-free sequence has exactly as many elements as places. */
  lemma {:induction false} DistinctElementsSize<T>(s: seq<T>)
    requires forall i, j | 0 <= i < j < |s| :: s[i] != s[j]
    ensures |Elements(s)| == |s|
  {
    if s != [] {
      DistinctElementsSize(s[1..]);
      assert Elements(s) == {s[0]} + Elements(s[1..]);
      assert s[0] !in Elements(s[1..]);
    }
  }
}
