/** The built-in redaction of middleware/guardrails.py: spans are replaced from right to left. */
module Guardrails {

  datatype Kind = Email | Phone | Ssn | CreditCard | IpAddress

  const KINDS := [Email, Phone, Ssn, CreditCard, IpAddress]

  function Placeholder(k: Kind): string {
    match k
    case Email => "[EMAIL_REDACTED]"
    case Phone => "[PHONE_REDACTED]"
    case Ssn => "[SSN_REDACTED]"
    case CreditCard => "[CREDIT_CARD_REDACTED]"
    case IpAddress => "[IP_ADDRESS_REDACTED]"
  }

  datatype Finding = Finding(kind: Kind, start: nat, end: nat)

  // ---------- detection ----------

  function Matched(matches: Kind -> seq<(nat, nat)>, k: Kind): seq<Finding> {
    var spans := matches(k);
    seq(|spans|, n requires 0 <= n < |spans| => Finding(k, spans[n].0, spans[n].1))
  }

  /** The findings of the first patterns, one pattern after the other. */
  function DetectedBy(matches: Kind -> seq<(nat, nat)>, patterns: nat): seq<Finding>
    requires patterns <= |KINDS|
  {
    if patterns == 0 then [] else DetectedBy(matches, patterns - 1) + Matched(matches, KINDS[patterns - 1])
  }

  /** What each pattern matches is given. */
  method DetectPii(matches: Kind -> seq<(nat, nat)>) returns (findings: seq<Finding>)
    ensures findings == DetectedBy(matches, |KINDS|)
  {
    findings := [];
    for p := 0 to |KINDS|
      invariant findings == DetectedBy(matches, p)
    {
      var spans := matches(KINDS[p]);
      for n := 0 to |spans|
        invariant findings == DetectedBy(matches, p) + Matched(matches, KINDS[p])[..n]
      {
        findings := findings + [Finding(KINDS[p], spans[n].0, spans[n].1)];
      }
      assert Matched(matches, KINDS[p])[..|spans|] == Matched(matches, KINDS[p]);
    }
  }

  lemma {:induction false} DetectedIff(matches: Kind -> seq<(nat, nat)>, patterns: nat, f: Finding)
    requires patterns <= |KINDS|
    ensures f in DetectedBy(matches, patterns) <==> f.kind in KINDS[..patterns] && (f.start, f.end) in matches(f.kind)
  {
    if patterns > 0 {
      DetectedIff(matches, patterns - 1, f);
      var k := KINDS[patterns - 1];
      assert KINDS[..patterns] == KINDS[..patterns - 1] + [k];
      assert f in Matched(matches, k) <==> f.kind == k && (f.start, f.end) in matches(k) by {
        if f.kind == k && (f.start, f.end) in matches(k) {
          var n :| 0 <= n < |matches(k)| && matches(k)[n] == (f.start, f.end);
          assert Matched(matches, k)[n] == f;
        }
      }
    }
  }

  /** Every kind is looked for, the kinds in this order. */
  lemma EveryKindIsLookedFor(matches: Kind -> seq<(nat, nat)>, f: Finding)
    ensures f in DetectedBy(matches, |KINDS|) <==> (f.start, f.end) in matches(f.kind)
    ensures KINDS == [Email, Phone, Ssn, CreditCard, IpAddress]
  {
    DetectedIff(matches, |KINDS|, f);
    assert KINDS[..|KINDS|] == KINDS;
    var n := match f.kind case Email => 0 case Phone => 1 case Ssn => 2 case CreditCard => 3 case IpAddress => 4;
    assert KINDS[n] == f.kind;
  }

  /** Findings come out kind by kind, and within a kind as its pattern matched. */
  lemma {:induction false} DetectedInOrder(matches: Kind -> seq<(nat, nat)>, patterns: nat, p: nat, n: nat)
    requires p < patterns <= |KINDS| && n < |matches(KINDS[p])|
    ensures
      var at, found := |DetectedBy(matches, p)| + n, DetectedBy(matches, patterns);
      at < |found| && found[at] == Finding(KINDS[p], matches(KINDS[p])[n].0, matches(KINDS[p])[n].1)
  {
    if p < patterns - 1 {
      DetectedInOrder(matches, patterns - 1, p, n);
    }
  }

  lemma PlaceholdersAre()
    ensures Placeholder(Email) == "[EMAIL_REDACTED]" && Placeholder(Phone) == "[PHONE_REDACTED]"
    ensures Placeholder(Ssn) == "[SSN_REDACTED]" && Placeholder(CreditCard) == "[CREDIT_CARD_REDACTED]"
    ensures Placeholder(IpAddress) == "[IP_ADDRESS_REDACTED]"
  {
  }

  // ---------- redaction ----------

  /** Slicing past the end of a string is no error. */
  function Front(s: string, n: nat): string {
    if n <= |s| then s[..n] else s
  }

  function Back(s: string, n: nat): string {
    if n <= |s| then s[n..] else ""
  }

  function ReplaceSpan(s: string, f: Finding): string {
    Front(s, f.start) + Placeholder(f.kind) + Back(s, f.end)
  }

  function ReplaceAll(s: string, fs: seq<Finding>): string
    decreases |fs|
  {
    if fs == [] then s else ReplaceAll(ReplaceSpan(s, fs[0]), fs[1..])
  }

  function InsertByStart(fs: seq<Finding>, f: Finding): seq<Finding> {
    if fs == [] then [f]
    else if fs[0].start >= f.start then [fs[0]] + InsertByStart(fs[1..], f)
    else [f] + fs
  }

  /** Latest start first, equal starts in their given order. */
  function SortedByStart(fs: seq<Finding>): seq<Finding> {
    if fs == [] then [] else InsertByStart(SortedByStart(fs[..|fs| - 1]), fs[|fs| - 1])
  }

  method RedactPii(text: string, findings: seq<Finding>) returns (result: string)
    ensures result == ReplaceAll(text, SortedByStart(findings))
  {
    result := text;
    var sorted := SortedByStart(findings);
    for n := 0 to |sorted|
      invariant ReplaceAll(result, sorted[n..]) == ReplaceAll(text, sorted)
    {
      assert sorted[n..][1..] == sorted[n + 1..];
      result := Front(result, sorted[n].start) + Placeholder(sorted[n].kind) + Back(result, sorted[n].end);
    }
  }

  // ---------- the left-to-right meaning ----------

  /** Non-empty spans of the text, each one starting no earlier than the one before ends. */
  ghost predicate InOrder(text: string, fs: seq<Finding>, from: nat) {
    fs != [] ==>
      && from <= fs[0].start < fs[0].end <= |text|
      && InOrder(text, fs[1..], fs[0].end)
  }

  /** The text from a position on, the gaps kept and each finding replaced by its placeholder. */
  ghost function Splice(text: string, fs: seq<Finding>, from: nat): string
    requires from <= |text| && InOrder(text, fs, from)
  {
    if fs == [] then text[from..]
    else text[from..fs[0].start] + Placeholder(fs[0].kind) + Splice(text, fs[1..], fs[0].end)
  }

  ghost function Backwards(fs: seq<Finding>): seq<Finding> {
    if fs == [] then [] else Backwards(fs[1..]) + [fs[0]]
  }

  lemma {:induction false} ReplaceOneMore(s: string, fs: seq<Finding>, f: Finding)
    ensures ReplaceAll(s, fs + [f]) == ReplaceSpan(ReplaceAll(s, fs), f)
    decreases |fs|
  {
    if fs == [] {
      assert [f][1..] == [];
      assert ReplaceAll(s, [f]) == ReplaceAll(ReplaceSpan(s, f), []);
    } else {
      ReplaceOneMore(ReplaceSpan(s, fs[0]), fs[1..], f);
      assert (fs + [f])[1..] == fs[1..] + [f];
    }
  }

  lemma ReplaceNext(text: string, f: Finding, rest: string, from: nat)
    requires from <= f.start < f.end <= |text|
    ensures
      ReplaceSpan(text[..f.end] + rest, f) == text[..from] + (text[from..f.start] + Placeholder(f.kind) + rest)
  {
    hide Placeholder;
    var inner := text[..f.end] + rest;
    assert inner[..f.start] == text[..from] + text[from..f.start];
    assert inner[f.end..] == rest;
  }

  lemma {:induction false} FromTheRight(text: string, fs: seq<Finding>, from: nat)
    requires from <= |text| && InOrder(text, fs, from)
    ensures ReplaceAll(text, Backwards(fs)) == text[..from] + Splice(text, fs, from)
  {
    hide Placeholder, ReplaceSpan;
    if fs == [] {
      assert text == text[..from] + text[from..];
    } else {
      FromTheRight(text, fs[1..], fs[0].end);
      ReplaceOneMore(text, Backwards(fs[1..]), fs[0]);
      ReplaceNext(text, fs[0], Splice(text, fs[1..], fs[0].end), from);
    }
  }

  // ---------- sorting ----------

  ghost predicate Descending(fs: seq<Finding>) {
    forall i, j | 0 <= i < j < |fs| :: fs[i].start >= fs[j].start
  }

  lemma DescendingFrom(f: Finding, fs: seq<Finding>)
    requires Descending(fs) && forall g | g in fs :: f.start >= g.start
    ensures Descending([f] + fs)
  {
  }

  lemma {:induction false} InsertFacts(fs: seq<Finding>, f: Finding)
    requires Descending(fs)
    ensures Descending(InsertByStart(fs, f)) && multiset(InsertByStart(fs, f)) == multiset(fs) + multiset{f}
    ensures forall g :: g in InsertByStart(fs, f) <==> g == f || g in fs
  {
    hide Descending;
    if fs == [] {
      assert Descending([f]) by {
        DescendingOne(f);
      }
    } else {
      assert fs == [fs[0]] + fs[1..];
      DescendingParts(fs);
      if fs[0].start >= f.start {
        InsertFacts(fs[1..], f);
        DescendingFrom(fs[0], InsertByStart(fs[1..], f));
      } else {
        DescendingFrom(f, fs);
      }
    }
  }

  lemma DescendingOne(f: Finding)
    ensures Descending([f])
  {
  }

  lemma DescendingParts(fs: seq<Finding>)
    requires Descending(fs) && fs != []
    ensures Descending(fs[1..]) && Descending(fs[..|fs| - 1])
    ensures forall g | g in fs :: fs[0].start >= g.start >= fs[|fs| - 1].start
  {
  }

  lemma {:induction false} SortFacts(fs: seq<Finding>)
    ensures Descending(SortedByStart(fs)) && multiset(SortedByStart(fs)) == multiset(fs)
  {
    if fs != [] {
      SortFacts(fs[..|fs| - 1]);
      InsertFacts(SortedByStart(fs[..|fs| - 1]), fs[|fs| - 1]);
      assert fs == fs[..|fs| - 1] + [fs[|fs| - 1]];
    }
  }

  lemma {:induction false} StartsLater(text: string, fs: seq<Finding>, from: nat)
    requires InOrder(text, fs, from)
    ensures forall f | f in fs :: from <= f.start < f.end <= |text|
  {
    if fs != [] {
      StartsLater(text, fs[1..], fs[0].end);
    }
  }

  lemma LeastIsLast(text: string, sorted: seq<Finding>, fs: seq<Finding>, from: nat)
    requires fs != [] && Descending(sorted) && InOrder(text, fs, from) && multiset(sorted) == multiset(fs)
    ensures |sorted| == |fs| && sorted[|fs| - 1] == fs[0]
  {
    assert |sorted| == |multiset(sorted)| == |fs|;
    var last := sorted[|fs| - 1];
    DescendingParts(sorted);
    hide Descending;
    assert fs == [fs[0]] + fs[1..];
    assert fs[0] in multiset(sorted) && last in multiset(fs);
    StartsLater(text, fs[1..], fs[0].end);
  }

  lemma CancelEnds(before: seq<Finding>, f: Finding, after: seq<Finding>)
    requires multiset(before + [f]) == multiset([f] + after)
    ensures multiset(before) == multiset(after)
  {
    assert multiset(before) == multiset(before + [f]) - multiset{f};
    assert multiset(after) == multiset([f] + after) - multiset{f};
  }

  lemma SplitEnds(sorted: seq<Finding>, fs: seq<Finding>)
    requires fs != [] && |sorted| == |fs| && sorted[|fs| - 1] == fs[0]
    requires Descending(sorted) && multiset(sorted) == multiset(fs)
    ensures Descending(sorted[..|fs| - 1]) && multiset(sorted[..|fs| - 1]) == multiset(fs[1..])
  {
    DescendingParts(sorted);
    hide Descending;
    var before := sorted[..|fs| - 1];
    assert sorted == before + [fs[0]] && fs == [fs[0]] + fs[1..];
    CancelEnds(before, fs[0], fs[1..]);
  }

  /** Disjoint findings have only one descending order. */
  lemma {:induction false} OneOrder(text: string, sorted: seq<Finding>, fs: seq<Finding>, from: nat)
    requires Descending(sorted) && InOrder(text, fs, from) && multiset(sorted) == multiset(fs)
    ensures sorted == Backwards(fs)
    decreases |fs|
  {
    hide Descending;
    if fs == [] {
      assert |sorted| == |multiset(sorted)|;
    } else {
      LeastIsLast(text, sorted, fs, from);
      var before := sorted[..|fs| - 1];
      SplitEnds(sorted, fs);
      OneOrder(text, before, fs[1..], fs[0].end);
    }
  }

  // ---------- main results ----------

  /** For disjoint findings in any order, redaction is the exact left-to-right splice. */
  lemma RedactionIsASplice(text: string, findings: seq<Finding>, inOrder: seq<Finding>)
    requires InOrder(text, inOrder, 0) && multiset(findings) == multiset(inOrder)
    ensures ReplaceAll(text, SortedByStart(findings)) == Splice(text, inOrder, 0)
  {
    SortFacts(findings);
    OneOrder(text, SortedByStart(findings), inOrder, 0);
    FromTheRight(text, inOrder, 0);
  }

  ghost predicate Outside(fs: seq<Finding>, p: nat) {
    forall f | f in fs :: !(f.start <= p < f.end)
  }

  /** Where the splice from a position on puts the character that was at p. */
  ghost function MovedTo(fs: seq<Finding>, from: nat, p: nat): int {
    if fs == [] || p < fs[0].start then p - from
    else fs[0].start - from + |Placeholder(fs[0].kind)| + MovedTo(fs[1..], fs[0].end, p)
  }

  /** No character outside the findings changes. */
  lemma {:induction false} OutsideSurvives(text: string, fs: seq<Finding>, from: nat, p: nat)
    requires from <= p < |text| && InOrder(text, fs, from) && Outside(fs, p)
    ensures 0 <= MovedTo(fs, from, p) < |Splice(text, fs, from)|
    ensures Splice(text, fs, from)[MovedTo(fs, from, p)] == text[p]
  {
    hide Placeholder;
    if fs != [] && p >= fs[0].start {
      assert fs[0] in fs && forall f | f in fs[1..] :: f in fs;
      OutsideSurvives(text, fs[1..], fs[0].end, p);
      var rest, at := Splice(text, fs[1..], fs[0].end), MovedTo(fs[1..], fs[0].end, p);
      var gap := text[from..fs[0].start] + Placeholder(fs[0].kind);
      assert (gap + rest)[|gap| + at] == rest[at];
    }
  }

  /** Position q of the splice holds this character of a placeholder. */
  ghost predicate FromPlaceholder(fs: seq<Finding>, from: nat, q: int, c: char) {
    fs != [] &&
    var gap, text := fs[0].start - from, Placeholder(fs[0].kind);
    if 0 <= q - gap < |text| then c == text[q - gap]
    else q >= gap + |text| && FromPlaceholder(fs[1..], fs[0].end, q - gap - |text|, c)
  }

  /** Position q of the splice holds a character from outside the findings. */
  ghost predicate FromOutside(text: string, fs: seq<Finding>, from: nat, q: int) {
    exists p: nat :: from <= p < |text| && Outside(fs, p) && MovedTo(fs, from, p) == q
  }

  /** And nothing inside a finding survives: every character of the result is a placeholder's or comes from outside. */
  lemma {:induction false} NothingInsideSurvives(text: string, fs: seq<Finding>, from: nat, q: nat)
    requires from <= |text| && InOrder(text, fs, from) && q < |Splice(text, fs, from)|
    ensures FromPlaceholder(fs, from, q, Splice(text, fs, from)[q]) || FromOutside(text, fs, from, q)
  {
    hide Placeholder;
    if fs == [] {
      assert Outside(fs, from + q) && MovedTo(fs, from, from + q) == q;
    } else if q < fs[0].start - from {
      StartsLater(text, fs, fs[0].start);
      assert Outside(fs, from + q) && MovedTo(fs, from, from + q) == q;
    } else {
      var gap := text[from..fs[0].start] + Placeholder(fs[0].kind);
      var rest := Splice(text, fs[1..], fs[0].end);
      if q >= |gap| {
        assert (gap + rest)[q] == rest[q - |gap|];
        NothingInsideSurvives(text, fs[1..], fs[0].end, q - |gap|);
        if FromOutside(text, fs[1..], fs[0].end, q - |gap|) {
          var p: nat :| fs[0].end <= p < |text| && Outside(fs[1..], p) && MovedTo(fs[1..], fs[0].end, p) == q - |gap|;
          OutsideOneMore(fs, p);
          assert MovedTo(fs, from, p) == q;
        }
      }
    }
  }

  lemma OutsideOneMore(fs: seq<Finding>, p: nat)
    requires fs != [] && Outside(fs[1..], p) && fs[0].end <= p
    ensures Outside(fs, p)
  {
    assert fs == [fs[0]] + fs[1..];
  }

  // ---------- clusters of findings ----------

  /** The findings of one start, in their given order. */
  function WithStart(fs: seq<Finding>, s: nat): seq<Finding> {
    if fs == [] then [] else (if fs[0].start == s then [fs[0]] else []) + WithStart(fs[1..], s)
  }

  /** The same findings in any order that keeps the order of those with equal starts. */
  ghost predicate SameFindings(a: seq<Finding>, b: seq<Finding>) {
    forall s: nat :: WithStart(a, s) == WithStart(b, s)
  }

  lemma {:induction false} WithStartConcat(a: seq<Finding>, b: seq<Finding>, s: nat)
    ensures WithStart(a + b, s) == WithStart(a, s) + WithStart(b, s)
  {
    if a == [] {
      assert a + b == b;
    } else {
      assert (a + b)[1..] == a[1..] + b;
      WithStartConcat(a[1..], b, s);
      var first := if a[0].start == s then [a[0]] else [];
      assert first + (WithStart(a[1..], s) + WithStart(b, s)) == first + WithStart(a[1..], s) + WithStart(b, s);
    }
  }

  lemma {:induction false} NoneWithStart(fs: seq<Finding>, s: nat)
    requires forall f | f in fs :: f.start != s
    ensures WithStart(fs, s) == []
  {
    if fs != [] {
      NoneWithStart(fs[1..], s);
    }
  }

  lemma WithStartFirst(f: Finding, fs: seq<Finding>, s: nat)
    ensures WithStart([f] + fs, s) == (if f.start == s then [f] else []) + WithStart(fs, s)
  {
    assert ([f] + fs)[1..] == fs;
  }

  lemma {:induction false} InsertIsStable(fs: seq<Finding>, f: Finding, s: nat)
    requires Descending(fs)
    ensures WithStart(InsertByStart(fs, f), s) == WithStart(fs, s) + if f.start == s then [f] else []
  {
    hide Descending, WithStart;
    if fs == [] {
      WithStartFirst(f, [], s);
      assert [f] + [] == [f] && InsertByStart(fs, f) == [f];
      NoneWithStart([], s);
    } else {
      DescendingParts(fs);
      if fs[0].start >= f.start {
        InsertIsStable(fs[1..], f, s);
        WithStartFirst(fs[0], fs[1..], s);
        WithStartFirst(fs[0], InsertByStart(fs[1..], f), s);
        assert [fs[0]] + fs[1..] == fs;
      } else {
        WithStartFirst(f, fs, s);
        if f.start == s {
          NoneWithStart(fs, s);
        }
      }
    }
  }

  lemma WithStartRest(fs: seq<Finding>, s: nat)
    requires fs != []
    ensures
      fs[0].start == s ==>
        WithStart(fs, s) == [fs[0]] + WithStart(fs[1..], s) && WithStart(fs, s)[1..] == WithStart(fs[1..], s)
    ensures fs[0].start != s ==> WithStart(fs, s) == WithStart(fs[1..], s)
  {
  }

  lemma {:induction false} SortIsStable(fs: seq<Finding>, s: nat)
    ensures WithStart(SortedByStart(fs), s) == WithStart(fs, s)
  {
    hide Descending, InsertByStart;
    if fs != [] {
      var before, f := fs[..|fs| - 1], fs[|fs| - 1];
      SortIsStable(before, s);
      SortFacts(before);
      InsertIsStable(SortedByStart(before), f, s);
      WithStartConcat(before, [f], s);
      assert fs == before + [f] && [f][1..] == [];
    }
  }

  lemma {:induction false} SomeWithStart(fs: seq<Finding>, f: Finding)
    requires f in fs
    ensures WithStart(fs, f.start) != []
  {
    if fs[0] != f {
      SomeWithStart(fs[1..], f);
    }
  }

  lemma {:induction false} FoundWithStart(fs: seq<Finding>, s: nat)
    requires WithStart(fs, s) != []
    ensures exists f :: f in fs && f.start == s
  {
    if fs[0].start != s {
      FoundWithStart(fs[1..], s);
      var f :| f in fs[1..] && f.start == s;
      assert f in fs;
    } else {
      assert fs[0] in fs;
    }
  }

  lemma StartsNoEarlier(a: seq<Finding>, b: seq<Finding>)
    requires Descending(a) && SameFindings(a, b) && b != []
    ensures a != [] && a[0].start >= b[0].start
  {
    SomeWithStart(b, b[0]);
    FoundWithStart(a, b[0].start);
  }

  /** There is only one such order in which starts descend. */
  lemma {:induction false} OneDescendingOrder(a: seq<Finding>, b: seq<Finding>)
    requires Descending(a) && Descending(b) && SameFindings(a, b)
    ensures a == b
  {
    hide Descending;
    if a != [] || b != [] {
      if a == [] {
        StartsNoEarlier(a, b);
      } else {
        StartsNoEarlier(b, a);
        StartsNoEarlier(a, b);
        assert WithStart(a, a[0].start) == WithStart(b, a[0].start);
        WithStartRest(a, a[0].start);
        WithStartRest(b, a[0].start);
        assert a == [a[0]] + a[1..] && b == [b[0]] + b[1..];
        DescendingParts(a);
        DescendingParts(b);
        forall s: nat
          ensures WithStart(a[1..], s) == WithStart(b[1..], s)
        {
          assert WithStart(a, s) == WithStart(b, s);
          WithStartRest(a, s);
          WithStartRest(b, s);
        }
        OneDescendingOrder(a[1..], b[1..]);
      }
    }
  }

  ghost function EndOf(fs: seq<Finding>, from: nat): nat {
    if fs == [] then from else EndOf(fs[1..], fs[0].end)
  }

  lemma {:induction false} StartsBefore(text: string, fs: seq<Finding>, from: nat)
    requires InOrder(text, fs, from)
    ensures from <= EndOf(fs, from) && (from <= |text| ==> EndOf(fs, from) <= |text|)
    ensures forall f | f in fs :: from <= f.start < f.end <= EndOf(fs, from)
  {
    if fs != [] {
      StartsBefore(text, fs[1..], fs[0].end);
    }
  }

  lemma {:induction false} BackwardsIsSame(text: string, fs: seq<Finding>, from: nat, s: nat)
    requires InOrder(text, fs, from)
    ensures WithStart(Backwards(fs), s) == WithStart(fs, s)
  {
    if fs != [] {
      BackwardsIsSame(text, fs[1..], fs[0].end, s);
      WithStartConcat(Backwards(fs[1..]), [fs[0]], s);
      assert [fs[0]][1..] == [];
      if fs[0].start == s {
        StartsLater(text, fs[1..], fs[0].end);
        NoneWithStart(fs[1..], s);
      }
    }
  }

  lemma {:induction false} BackwardsFacts(text: string, fs: seq<Finding>, from: nat)
    requires InOrder(text, fs, from)
    ensures Descending(Backwards(fs)) && forall f :: f in Backwards(fs) <==> f in fs
  {
    if fs != [] {
      BackwardsFacts(text, fs[1..], fs[0].end);
      StartsLater(text, fs[1..], fs[0].end);
    }
  }

  lemma DescendingConcat(a: seq<Finding>, b: seq<Finding>)
    requires Descending(a) && Descending(b) && forall f, g | f in a && g in b :: f.start >= g.start
    ensures Descending(a + b)
  {
  }

  /** Findings that start in [lo, hi) between disjoint ones outside. */
  ghost predicate Between(text: string, before: seq<Finding>, cluster: seq<Finding>, after: seq<Finding>, lo: nat, hi: nat) {
    && InOrder(text, before, 0) && EndOf(before, 0) <= lo < hi <= |text| && InOrder(text, after, hi)
    && forall f | f in cluster :: lo <= f.start < hi
  }

  lemma SortedMembers(fs: seq<Finding>)
    ensures forall f :: f in SortedByStart(fs) <==> f in fs
  {
    hide Descending;
    SortFacts(fs);
    assert forall f :: f in SortedByStart(fs) <==> f in multiset(SortedByStart(fs));
  }

  /** Sorting takes the ones behind first, then the cluster, then the ones before. */
  lemma ClusterIsSortedBetween(text: string, fs: seq<Finding>, before: seq<Finding>, cluster: seq<Finding>,
                               after: seq<Finding>, lo: nat, hi: nat)
    requires Between(text, before, cluster, after, lo, hi) && SameFindings(fs, before + cluster + after)
    ensures SortedByStart(fs) == Backwards(after) + SortedByStart(cluster) + Backwards(before)
  {
    hide SortedByStart, Backwards, WithStart;
    var sorted := SortedByStart(cluster);
    SortFacts(fs);
    SortFacts(cluster);
    SortedMembers(cluster);
    BackwardsFacts(text, before, 0);
    BackwardsFacts(text, after, hi);
    StartsLater(text, after, hi);
    StartsBefore(text, before, 0);
    DescendingConcat(Backwards(after), sorted);
    DescendingConcat(Backwards(after) + sorted, Backwards(before));
    forall s: nat
      ensures WithStart(SortedByStart(fs), s) == WithStart(Backwards(after) + sorted + Backwards(before), s)
    {
      SortIsStable(fs, s);
      SortIsStable(cluster, s);
      BackwardsIsSame(text, before, 0, s);
      BackwardsIsSame(text, after, hi, s);
      WithStartConcat(Backwards(after) + sorted, Backwards(before), s);
      WithStartConcat(Backwards(after), sorted, s);
      WithStartConcat(before + cluster, after, s);
      WithStartConcat(before, cluster, s);
      assert WithStart(fs, s) == WithStart(before + cluster + after, s);
      if s < lo {
        NoneWithStart(cluster, s);
        NoneWithStart(after, s);
      } else if s < hi {
        NoneWithStart(before, s);
        NoneWithStart(after, s);
      } else {
        NoneWithStart(before, s);
        NoneWithStart(cluster, s);
      }
    }
    OneDescendingOrder(SortedByStart(fs), Backwards(after) + sorted + Backwards(before));
  }

  lemma {:induction false} ReplaceConcat(s: string, a: seq<Finding>, b: seq<Finding>)
    ensures ReplaceAll(s, a + b) == ReplaceAll(ReplaceAll(s, a), b)
    decreases |a|
  {
    if a == [] {
      assert a + b == b;
    } else {
      assert (a + b)[1..] == a[1..] + b;
      ReplaceConcat(ReplaceSpan(s, a[0]), a[1..], b);
    }
  }

  lemma {:induction false} FrontIsKept(s: string, fs: seq<Finding>, lo: nat)
    requires lo <= |s| && forall f | f in fs :: lo <= f.start
    ensures lo <= |ReplaceAll(s, fs)| && ReplaceAll(s, fs)[..lo] == s[..lo]
    decreases |fs|
  {
    hide Placeholder;
    if fs != [] {
      FrontIsKept(ReplaceSpan(s, fs[0]), fs[1..], lo);
    }
  }

  lemma {:induction false} InOrderElsewhere(text: string, other: string, fs: seq<Finding>, from: nat)
    requires InOrder(text, fs, from) && EndOf(fs, from) <= |other|
    ensures InOrder(other, fs, from)
  {
    if fs != [] {
      StartsBefore(text, fs[1..], fs[0].end);
      InOrderElsewhere(text, other, fs[1..], fs[0].end);
    }
  }

  /** The text when everything behind a position is redacted. */
  ghost function Behind(text: string, after: seq<Finding>, hi: nat): string
    requires hi <= |text| && InOrder(text, after, hi)
  {
    text[..hi] + Splice(text, after, hi)
  }

  /** A cluster is redacted as if it were alone in the text whose part behind it is redacted already. */
  lemma ClusterIsRedactedAlone(text: string, fs: seq<Finding>, before: seq<Finding>, cluster: seq<Finding>,
                               after: seq<Finding>, lo: nat, hi: nat)
    requires Between(text, before, cluster, after, lo, hi) && SameFindings(fs, before + cluster + after)
    ensures
      var inside := ReplaceAll(Behind(text, after, hi), SortedByStart(cluster));
      && lo <= |inside| && inside[..lo] == text[..lo] && InOrder(inside, before, 0)
      && ReplaceAll(text, SortedByStart(fs)) == Splice(inside, before, 0)
  {
    hide SameFindings, ReplaceAll;
    ClusterIsSortedBetween(text, fs, before, cluster, after, lo, hi);
    var sorted := SortedByStart(cluster);
    ReplaceConcat(text, Backwards(after) + sorted, Backwards(before));
    ReplaceConcat(text, Backwards(after), sorted);
    FromTheRight(text, after, hi);
    SortedMembers(cluster);
    FrontIsKept(Behind(text, after, hi), sorted, lo);
    var inside := ReplaceAll(Behind(text, after, hi), sorted);
    InOrderElsewhere(text, inside, before, 0);
    FromTheRight(inside, before, 0);
    assert inside[..0] + Splice(inside, before, 0) == Splice(inside, before, 0);
  }

  lemma SameSlice(x: string, y: string, e: nat, lo: nat, hi: nat)
    requires lo <= hi <= e <= |x| && e <= |y| && x[..e] == y[..e]
    ensures x[lo..hi] == y[lo..hi]
  {
    forall i | lo <= i < hi
      ensures x[i] == y[i]
    {
      assert x[..e][i] == y[..e][i];
    }
  }

  /** Two texts with the same beginning are spliced to the same result exactly when their ends are the same. */
  lemma {:induction false} SameSpliceIff(x: string, y: string, fs: seq<Finding>, from: nat)
    requires InOrder(x, fs, from) && InOrder(y, fs, from) && from <= EndOf(fs, from) <= |x| && EndOf(fs, from) <= |y|
    requires x[..EndOf(fs, from)] == y[..EndOf(fs, from)]
    ensures Splice(x, fs, from) == Splice(y, fs, from) <==> x[EndOf(fs, from)..] == y[EndOf(fs, from)..]
  {
    hide Placeholder;
    if fs != [] {
      var e := EndOf(fs, from);
      StartsBefore(x, fs[1..], fs[0].end);
      assert fs[0].end <= e && e == EndOf(fs[1..], fs[0].end);
      SameSlice(x, y, e, from, fs[0].start);
      SameSpliceIff(x, y, fs[1..], fs[0].end);
      SameHead(x[from..fs[0].start] + Placeholder(fs[0].kind),
               Splice(x, fs[1..], fs[0].end), Splice(y, fs[1..], fs[0].end));
    }
  }

  // ---------- overlapping findings ----------

  /** Two findings, given in either order. */
  ghost predicate AreTwo(fs: seq<Finding>, first: Finding, second: Finding) {
    fs == [first, second] || fs == [second, first]
  }

  /** What the replacement of the later finding leaves behind the end of the earlier one. */
  ghost function Tail(text: string, first: Finding, second: Finding): string
    requires second.start <= second.end <= |text|
  {
    Back(text[..second.start] + Placeholder(second.kind) + text[second.end..], first.end)
  }

  /** The second of two findings is replaced first. */
  ghost predicate Precedes(fs: seq<Finding>, second: Finding, first: Finding) {
    AreTwo(fs, first, second) && (first.start < second.start || (first.start == second.start && fs == [second, first]))
  }

  lemma InSortedPair(a: Finding, b: Finding)
    ensures SortedByStart([a, b]) == if a.start >= b.start then [a, b] else [b, a]
  {
    assert [a, b][..1] == [a] && [a][..0] == [];
    assert SortedByStart([a]) == InsertByStart(SortedByStart([]), a) == [a];
    assert SortedByStart([a, b]) == InsertByStart([a], b);
    assert [a][1..] == [];
  }

  lemma LaterFirst(fs: seq<Finding>, first: Finding, second: Finding)
    requires Precedes(fs, second, first)
    ensures SortedByStart(fs) == [second, first]
  {
    InSortedPair(fs[0], fs[1]);
  }

  lemma TwoReplacements(text: string, fs: seq<Finding>, first: Finding, second: Finding)
    requires Precedes(fs, second, first) && second.start < second.end <= |text|
    ensures ReplaceAll(text, SortedByStart(fs)) == text[..first.start] + Placeholder(first.kind) + Tail(text, first, second)
  {
    LaterFirst(fs, first, second);
    hide Placeholder, SortedByStart;
    ReplaceOneMore(text, [], second);
    ReplaceOneMore(text, [second], first);
    assert [] + [second] == [second] && [second] + [first] == [second, first];
    var once := text[..second.start] + Placeholder(second.kind) + text[second.end..];
    assert ReplaceSpan(text, second) == once;
    assert once[..first.start] == text[..first.start];
  }

  /** If the earlier finding ends inside the later one's placeholder, its rest stays; otherwise the cut lands in the text. */
  lemma TailIs(text: string, first: Finding, second: Finding)
    requires second.start < first.end && second.start < second.end <= |text|
    ensures
      var p := Placeholder(second.kind);
      Tail(text, first, second) ==
      if first.end < second.start + |p| then p[first.end - second.start..] + text[second.end..]
      else Back(text, second.end + (first.end - second.start - |p|))
  {
    hide Placeholder;
    var p := Placeholder(second.kind);
    var once := text[..second.start] + p + text[second.end..];
    if first.end < second.start + |p| {
      assert once[first.end..] == p[first.end - second.start..] + text[second.end..];
    } else if first.end <= |once| {
      assert once[first.end..] == text[second.end + (first.end - second.start - |p|)..];
    }
  }

  ghost predicate Nested(outer: Finding, inner: Finding) {
    outer.start <= inner.start < inner.end <= outer.end
  }

  /** What redacting a finding and one inside it makes of a text. */
  ghost function NestResult(text: string, fs: seq<Finding>, outer: Finding, inner: Finding): string
    requires Nested(outer, inner) && outer.end <= |text|
  {
    var p := Placeholder(inner.kind);
    var growth := |p| - (inner.end - inner.start);
    if Precedes(fs, inner, outer) then
      text[..outer.start] + Placeholder(outer.kind) +
      if outer.end < inner.start + |p| then p[outer.end - inner.start..] + text[inner.end..] else Back(text, outer.end - growth)
    else
      text[..outer.start] + p + Back(Placeholder(outer.kind) + text[outer.end..], inner.end - inner.start)
  }

  /** The placeholder has the span's length, or is shorter at the end of the text; and the outer one stays the last word. */
  ghost predicate HarmlessNest(fs: seq<Finding>, outer: Finding, inner: Finding, atEnd: bool) {
    var growth := |Placeholder(inner.kind)| - (inner.end - inner.start);
    (growth == 0 || (growth < 0 && atEnd)) && (Precedes(fs, inner, outer) || outer.kind == inner.kind)
  }

  lemma PairLeaksOrEats(text: string, fs: seq<Finding>, outer: Finding, inner: Finding)
    requires AreTwo(fs, outer, inner) && Nested(outer, inner) && outer.end <= |text|
    ensures ReplaceAll(text, SortedByStart(fs)) == NestResult(text, fs, outer, inner)
  {
    hide Placeholder, ReplaceAll, SortedByStart, Tail, Back;
    if Precedes(fs, inner, outer) {
      InnerFirst(text, fs, outer, inner);
    } else {
      assert fs == [outer, inner] && outer.start == inner.start;
      InnerLast(text, outer, inner);
      InSortedPair(outer, inner);
    }
  }

  lemma InnerFirst(text: string, fs: seq<Finding>, outer: Finding, inner: Finding)
    requires Precedes(fs, inner, outer) && Nested(outer, inner) && outer.end <= |text|
    ensures ReplaceAll(text, SortedByStart(fs)) == NestResult(text, fs, outer, inner)
  {
    hide Placeholder, ReplaceAll, SortedByStart, Tail, Back, Precedes;
    TwoReplacements(text, fs, outer, inner);
    TailIs(text, outer, inner);
  }

  lemma SpanBehind(head: string, rest: string, f: Finding)
    requires f.start == |head| <= f.end
    ensures ReplaceSpan(head + rest, f) == head + Placeholder(f.kind) + Back(rest, f.end - f.start)
  {
    hide Placeholder;
    assert Front(head + rest, |head|) == head;
    assert Back(head + rest, f.end) == Back(rest, f.end - |head|);
  }

  lemma OneThenAnother(s: string, a: Finding, b: Finding)
    ensures ReplaceAll(s, [a, b]) == ReplaceSpan(ReplaceSpan(s, a), b)
  {
    hide ReplaceSpan;
    assert [a, b][1..] == [b] && [b][1..] == [];
    assert ReplaceAll(ReplaceSpan(s, a), [b]) == ReplaceAll(ReplaceSpan(ReplaceSpan(s, a), b), []);
  }

  lemma InnerLast(text: string, outer: Finding, inner: Finding)
    requires outer.start == inner.start < inner.end <= outer.end <= |text|
    ensures
      ReplaceAll(text, [outer, inner]) ==
      text[..outer.start] + Placeholder(inner.kind)
        + Back(Placeholder(outer.kind) + text[outer.end..], inner.end - inner.start)
  {
    hide Placeholder, Back;
    OneThenAnother(text, outer, inner);
    Reassociate(text[..outer.start], Placeholder(outer.kind), text[outer.end..]);
    assert Back(text, outer.end) == text[outer.end..] by {
      BackWithin(text, outer.end);
    }
    SpanBehind(text[..outer.start], Placeholder(outer.kind) + text[outer.end..], inner);
  }

  lemma BackWithin(text: string, n: nat)
    requires n <= |text|
    ensures Back(text, n) == text[n..]
  {
  }

  /** Placeholders of different kinds differ in their second character. */
  lemma PlaceholdersDiffer(a: Kind, b: Kind)
    requires a != b
    ensures |Placeholder(a)| > 1 && |Placeholder(b)| > 1 && Placeholder(a)[1] != Placeholder(b)[1]
  {
  }

  lemma InnerFirstTail(text: string, p: string, outer: Finding, inner: Finding)
    requires Nested(outer, inner) && outer.end <= |text|
    ensures
      var growth := |p| - (inner.end - inner.start);
      var tail := if outer.end < inner.start + |p| then p[outer.end - inner.start..] + text[inner.end..]
                  else Back(text, outer.end - growth);
      tail == text[outer.end..] <==> growth == 0 || (growth < 0 && outer.end == |text|)
  {
  }

  lemma PairIsHarmlessIff(text: string, fs: seq<Finding>, outer: Finding, inner: Finding)
    requires AreTwo(fs, outer, inner) && Nested(outer, inner) && outer.end <= |text|
    ensures
      ReplaceAll(text, SortedByStart(fs)) == ReplaceSpan(text, outer) <==>
      HarmlessNest(fs, outer, inner, outer.end == |text|)
  {
    hide Placeholder, SortedByStart, ReplaceAll, Back, AreTwo, Precedes;
    PairLeaksOrEats(text, fs, outer, inner);
    BackWithin(text, outer.end);
    var head, p, q, rest := text[..outer.start], Placeholder(inner.kind), Placeholder(outer.kind), text[outer.end..];
    if Precedes(fs, inner, outer) {
      var tail := if outer.end < inner.start + |p| then p[outer.end - inner.start..] + text[inner.end..]
                  else Back(text, outer.end - (|p| - (inner.end - inner.start)));
      InnerFirstTail(text, p, outer, inner);
      SameHead(head + q, tail, rest);
    } else {
      InnerLastIsHarmlessIff(head, outer.kind, inner.kind, rest, inner.end - inner.start);
    }
  }

  lemma InnerLastIsHarmlessIff(head: string, outer: Kind, inner: Kind, rest: string, n: nat)
    ensures
      var p, q := Placeholder(inner), Placeholder(outer);
      head + p + Back(q + rest, n) == head + q + rest <==> outer == inner && (|p| == n || (|p| < n && rest == ""))
  {
    var p, q := Placeholder(inner), Placeholder(outer);
    if outer == inner {
      hide Placeholder;
      SameHead(head + p, Back(p + rest, n), rest);
    } else {
      PlaceholdersDiffer(outer, inner);
      hide Placeholder;
      var a, b := head + p + Back(q + rest, n), head + q + rest;
      assert a[|head| + 1] == p[1] && b[|head| + 1] == q[1];
    }
  }

  lemma SpliceIsEmptyIff(text: string, fs: seq<Finding>, from: nat)
    requires from <= |text| && InOrder(text, fs, from)
    ensures Splice(text, fs, from) == "" <==> from == |text|
  {
    if fs != [] {
      assert |Placeholder(fs[0].kind)| > 0;
    }
  }

  lemma SameBeyondIff(text: string, x: string, y: string, before: seq<Finding>, lo: nat)
    requires lo <= |text| && lo <= |x| && lo <= |y| && x[..lo] == text[..lo] == y[..lo] && EndOf(before, 0) <= lo
    requires InOrder(x, before, 0) && InOrder(y, before, 0)
    ensures Splice(x, before, 0) == Splice(y, before, 0) <==> x == y
  {
    hide Splice, InOrder;
    var e := EndOf(before, 0);
    assert x[..e] == x[..lo][..e] && y[..e] == y[..lo][..e];
    SameSpliceIff(x, y, before, 0);
    assert x == x[..e] + x[e..] && y == y[..e] + y[e..];
  }

  lemma {:induction false} SplitInOrder(text: string, before: seq<Finding>, outer: Finding, after: seq<Finding>, from: nat)
    requires InOrder(text, before + [outer] + after, from)
    ensures InOrder(text, before, from) && EndOf(before, from) <= outer.start < outer.end <= |text|
    ensures InOrder(text, after, outer.end)
  {
    var all := before + [outer] + after;
    if before == [] {
      assert all == [outer] + after && all[1..] == after;
    } else {
      assert all[1..] == before[1..] + [outer] + after;
      SplitInOrder(text, before[1..], outer, after, before[0].end);
    }
  }

  /** The outer finding alone, as a cluster of one. */
  lemma OuterAlone(text: string, before: seq<Finding>, outer: Finding, after: seq<Finding>)
    requires InOrder(text, before + [outer] + after, 0)
    requires Between(text, before, [outer], after, outer.start, outer.end)
    ensures
      var y := ReplaceSpan(Behind(text, after, outer.end), outer);
      && outer.start <= |y| && y[..outer.start] == text[..outer.start] && InOrder(y, before, 0)
      && Splice(text, before + [outer] + after, 0) == Splice(y, before, 0)
  {
    var all := before + [outer] + after;
    RedactionIsASplice(text, all, all);
    ClusterIsRedactedAlone(text, all, before, [outer], after, outer.start, outer.end);
    hide Placeholder, Splice, ReplaceSpan;
    var t := Behind(text, after, outer.end);
    assert [outer][..0] == [] && [outer][1..] == [];
    assert SortedByStart([outer]) == InsertByStart(SortedByStart([]), outer) == [outer];
    assert ReplaceAll(t, [outer]) == ReplaceAll(ReplaceSpan(t, outer), []) == ReplaceSpan(t, outer);
  }

  /**
   Among disjoint findings, one inside another is harmless exactly when its placeholder has its length, or is shorter at the
   end of the text, provided that it is replaced first: it starts later, or is given first, or both are of one kind.
   */
  lemma NestedIsHarmlessIff(text: string, fs: seq<Finding>, before: seq<Finding>, pair: seq<Finding>, after: seq<Finding>,
                            outer: Finding, inner: Finding)
    requires AreTwo(pair, outer, inner) && Nested(outer, inner) && InOrder(text, before + [outer] + after, 0)
    requires SameFindings(fs, before + pair + after)
    ensures
      ReplaceAll(text, SortedByStart(fs)) == Splice(text, before + [outer] + after, 0) <==>
      HarmlessNest(pair, outer, inner, outer.end == |text|)
  {
    hide Placeholder, SortedByStart, ReplaceAll, SameFindings, HarmlessNest;
    SplitInOrder(text, before, outer, after, 0);
    var t := Behind(text, after, outer.end);
    ClusterIsRedactedAlone(text, fs, before, pair, after, outer.start, outer.end);
    OuterAlone(text, before, outer, after);
    PairIsHarmlessIff(t, pair, outer, inner);
    SpliceIsEmptyIff(text, after, outer.end);
    SameBeyondIff(text, ReplaceAll(t, SortedByStart(pair)), ReplaceSpan(t, outer), before, outer.start);
  }

  /**
   Otherwise a longer placeholder leaves the end of the outer finding readable, and a shorter one takes as much of the
   text behind it away; one that is replaced last is followed by the end of the outer placeholder.
   */
  lemma NestedLeaksOrEats(text: string, fs: seq<Finding>, before: seq<Finding>, pair: seq<Finding>, after: seq<Finding>,
                          outer: Finding, inner: Finding)
    requires AreTwo(pair, outer, inner) && Nested(outer, inner) && InOrder(text, before + [outer] + after, 0)
    requires SameFindings(fs, before + pair + after)
    ensures InOrder(text, before, 0) && InOrder(text, after, outer.end) && outer.end <= |text|
    ensures
      var inside := NestResult(Behind(text, after, outer.end), pair, outer, inner);
      InOrder(inside, before, 0) && ReplaceAll(text, SortedByStart(fs)) == Splice(inside, before, 0)
  {
    hide Placeholder, SortedByStart, ReplaceAll, SameFindings, NestResult;
    SplitInOrder(text, before, outer, after, 0);
    ClusterIsRedactedAlone(text, fs, before, pair, after, outer.start, outer.end);
    PairLeaksOrEats(Behind(text, after, outer.end), pair, outer, inner);
  }

  /** Of findings that overlap without nesting, the text behind both is kept exactly when the cut stays within the placeholder. */
  lemma OverlapKeepsTheRestIff(text: string, fs: seq<Finding>, first: Finding, second: Finding)
    requires AreTwo(fs, first, second) && first.start < second.start < first.end < second.end <= |text|
    ensures
      var r, p := ReplaceAll(text, SortedByStart(fs)), Placeholder(second.kind);
      first.end <= second.start + |p| || second.end == |text| <==>
      r == text[..first.start] + Placeholder(first.kind)
           + (if first.end < second.start + |p| then p[first.end - second.start..] else "") + text[second.end..]
  {
    hide Placeholder, SortedByStart, ReplaceAll, Tail;
    TwoReplacements(text, fs, first, second);
    TailIs(text, first, second);
    var p := Placeholder(second.kind);
    var head, rest := text[..first.start] + Placeholder(first.kind), text[second.end..];
    if first.end < second.start + |p| {
      Reassociate(head, p[first.end - second.start..], rest);
    } else {
      Reassociate(head, "", rest);
      assert "" + rest == rest;
      SameHead(head, Tail(text, first, second), rest);
    }
  }

  lemma Reassociate(a: string, b: string, c: string)
    ensures a + b + c == a + (b + c)
  {
  }

  lemma SameHead(head: string, a: string, b: string)
    ensures head + a == head + b <==> a == b
  {
    if head + a == head + b {
      assert a == (head + a)[|head|..] == b;
    }
  }

  const PHONE_IN_EMAIL := "a.555-123-4567@example.com"

  lemma AddressWithPhone(text: string, email: Finding, phone: Finding)
    requires |text| == 26 && email == Finding(Email, 0, 26) && phone == Finding(Phone, 2, 14)
    ensures ReplaceAll(text, SortedByStart([email, phone])) == Placeholder(Email) + text[22..]
  {
    PhonePlaceholder();
    hide Placeholder;
    PairLeaksOrEats(text, [email, phone], email, phone);
    assert text[..0] + Placeholder(Email) == Placeholder(Email);
  }

  lemma PhonePlaceholder()
    ensures |Placeholder(Phone)| == 16
  {
  }

  /** The built-in patterns find an address and a telephone number inside it; the end of the address stays readable. */
  lemma PhoneInEmailLeaks()
    ensures
      ReplaceAll(PHONE_IN_EMAIL, SortedByStart([Finding(Email, 0, 26), Finding(Phone, 2, 14)])) ==
      Placeholder(Email) + ".com"
  {
    hide Placeholder, ReplaceAll, SortedByStart;
    AddressWithPhone(PHONE_IN_EMAIL, Finding(Email, 0, 26), Finding(Phone, 2, 14));
  }

  const PHONE_FIRST_IN_EMAIL := "555-123-4567@example.com"

  lemma AddressFirst(text: string, email: Finding, phone: Finding)
    requires |text| == 24 && email == Finding(Email, 0, 24) && phone == Finding(Phone, 0, 12)
    ensures ReplaceAll(text, SortedByStart([email, phone])) == Placeholder(Phone) + Back(Placeholder(Email), 12)
  {
    hide Placeholder;
    PairLeaksOrEats(text, [email, phone], email, phone);
    assert text[..0] + Placeholder(Phone) == Placeholder(Phone);
    assert Placeholder(Email) + text[24..] == Placeholder(Email);
  }

  lemma EmailPlaceholderEnds()
    ensures Back(Placeholder(Email), 12) == "TED]"
  {
  }

  /** With the number in front, the address is replaced first and its placeholder is cut. */
  lemma PhoneFirstInEmailIsCut()
    ensures
      ReplaceAll(PHONE_FIRST_IN_EMAIL, SortedByStart([Finding(Email, 0, 24), Finding(Phone, 0, 12)])) ==
      Placeholder(Phone) + "TED]"
  {
    hide Placeholder, ReplaceAll, SortedByStart, Back;
    AddressFirst(PHONE_FIRST_IN_EMAIL, Finding(Email, 0, 24), Finding(Phone, 0, 12));
    EmailPlaceholderEnds();
  }
}
