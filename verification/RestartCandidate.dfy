/**
 The choice of the pod that re-creates the group after a total outage
 (internal/controller/mysql/groupreplication/gr_client.go).
 GTID sets are mathematical sets and GTID_SUBTRACT is set difference.
 */
module RestartCandidate {

  datatype Gtid = Gtid(source: string, number: nat)

  datatype GtidSets = GtidSets(executed: set<Gtid>, certified: set<Gtid>)

  datatype GtidInfo = GtidInfo(pod: string, ordinal: int, sets: GtidSets)

  /** The answer of PickRestartCandidate: a pod, or one of its two errors. */
  datatype Choice = Chosen(pod: string) | NoInfo | CompareFailed

  /** Pairs (candidate, other) whose comparison query returns an error. */
  type Broken = set<(string, string)>

  function Subtract(a: set<Gtid>, b: set<Gtid>): set<Gtid> {
    a - b
  }

  predicate Superset(candidate: GtidSets, other: GtidSets) {
    && Subtract(other.executed, candidate.executed) == {}
    && Subtract(other.certified, candidate.certified) == {}
  }

  /** The partial order the choice is about: both components contained. */
  predicate Contains(big: GtidSets, small: GtidSets) {
    small.executed <= big.executed && small.certified <= big.certified
  }

  lemma SupersetIsContains(a: GtidSets, b: GtidSets)
    ensures Superset(a, b) <==> Contains(a, b)
  {
    assert Subtract(b.executed, a.executed) == {} <==> b.executed <= a.executed by {
      if Subtract(b.executed, a.executed) == {} {
        forall x | x in b.executed ensures x in a.executed {
          assert x !in Subtract(b.executed, a.executed);
        }
      }
    }
    assert Subtract(b.certified, a.certified) == {} <==> b.certified <= a.certified by {
      if Subtract(b.certified, a.certified) == {} {
        forall x | x in b.certified ensures x in a.certified {
          assert x !in Subtract(b.certified, a.certified);
        }
      }
    }
  }

  // ---------------------------------------------------------------- the search, as a function

  datatype Verdict = Wins | Loses | Breaks

  /** The inner loop from position j on: does infos[i] beat every other pod? */
  function Compare(infos: seq<GtidInfo>, i: nat, j: nat, broken: Broken): Verdict
    requires i < |infos|
    decreases |infos| - j
  {
    if j >= |infos| then Wins
    else if infos[i].pod == infos[j].pod then Compare(infos, i, j + 1, broken)
    else if (infos[i].pod, infos[j].pod) in broken then Breaks
    else if !Superset(infos[i].sets, infos[j].sets) then Loses
    else Compare(infos, i, j + 1, broken)
  }

  /** The outer loop from position i on, followed by the fall-back on ordinals. */
  function Search(infos: seq<GtidInfo>, i: nat, broken: Broken, tie: nat): Choice
    requires infos != []
    decreases |infos| - i
  {
    if i >= |infos| then Chosen(LeastPod(infos, tie))
    else match Compare(infos, i, 0, broken)
      case Wins => Chosen(infos[i].pod)
      case Breaks => CompareFailed
      case Loses => Search(infos, i + 1, broken, tie)
  }

  /** PickRestartCandidate. The sort is not stable, so `tie` says which of several
      least ordinals comes first. */
  function Pick(infos: seq<GtidInfo>, broken: Broken, tie: nat): Choice {
    if |infos| == 0 then NoInfo else Search(infos, 0, broken, tie)
  }

  predicate IsLeast(infos: seq<GtidInfo>, i: nat) {
    i < |infos| && forall j :: 0 <= j < |infos| ==> infos[i].ordinal <= infos[j].ordinal
  }

  function FirstLeast(infos: seq<GtidInfo>): (i: nat)
    requires infos != []
    ensures IsLeast(infos, i)
  {
    if |infos| == 1 then 0
    else
      var k := FirstLeast(infos[1..]);
      assert forall j :: 1 <= j < |infos| ==> infos[j] == infos[1..][j - 1];
      if infos[0].ordinal <= infos[k + 1].ordinal then 0 else k + 1
  }

  function LeastPod(infos: seq<GtidInfo>, tie: nat): (pod: string)
    requires infos != []
    ensures exists i: nat :: IsLeast(infos, i) && infos[i].pod == pod
  {
    if IsLeast(infos, tie) then infos[tie].pod else infos[FirstLeast(infos)].pod
  }

  // ---------------------------------------------------------------- what the choice means

  /** infos[i] holds every transaction any differently named pod reported. */
  predicate Dominates(infos: seq<GtidInfo>, i: nat) {
    && i < |infos|
    && forall j :: 0 <= j < |infos| && infos[j].pod != infos[i].pod ==> Contains(infos[i].sets, infos[j].sets)
  }

  predicate DistinctPods(infos: seq<GtidInfo>) {
    forall i, j :: 0 <= i < j < |infos| ==> infos[i].pod != infos[j].pod
  }

  predicate DistinctOrdinals(infos: seq<GtidInfo>) {
    forall i, j :: 0 <= i < j < |infos| ==> infos[i].ordinal != infos[j].ordinal
  }

  /** The i-th pod is the right answer: the first dominating one, or, when no pod
      dominates, one of least ordinal. */
  ghost predicate RightChoice(infos: seq<GtidInfo>, i: nat) {
    && i < |infos|
    && if exists k: nat :: Dominates(infos, k)
       then Dominates(infos, i) && forall k :: 0 <= k < i ==> !Dominates(infos, k)
       else IsLeast(infos, i)
  }

  lemma {:induction false} CompareMeaning(infos: seq<GtidInfo>, i: nat, j: nat, broken: Broken)
    requires i < |infos| && j <= |infos|
    ensures Compare(infos, i, j, broken) == Wins ==>
              forall k :: j <= k < |infos| && infos[k].pod != infos[i].pod ==> Contains(infos[i].sets, infos[k].sets)
    ensures Compare(infos, i, j, broken) == Loses ==>
              exists k :: j <= k < |infos| && infos[k].pod != infos[i].pod && !Contains(infos[i].sets, infos[k].sets)
    ensures broken == {} ==> Compare(infos, i, j, broken) != Breaks
    decreases |infos| - j
  {
    if j < |infos| {
      SupersetIsContains(infos[i].sets, infos[j].sets);
      CompareMeaning(infos, i, j + 1, broken);
    }
  }

  lemma {:induction false} SearchMeaning(infos: seq<GtidInfo>, i: nat, broken: Broken, tie: nat) returns (c: nat)
    requires infos != [] && i <= |infos|
    requires forall k :: 0 <= k < i ==> !Dominates(infos, k)
    ensures match Search(infos, i, broken, tie)
            case Chosen(pod) => RightChoice(infos, c) && infos[c].pod == pod
            case CompareFailed => broken != {}
            case NoInfo => false
    decreases |infos| - i
  {
    c := 0;
    if i == |infos| {
      c := if IsLeast(infos, tie) then tie else FirstLeast(infos);
    } else {
      CompareMeaning(infos, i, 0, broken);
      match Compare(infos, i, 0, broken) {
        case Wins =>
          assert Dominates(infos, i);
          c := i;
        case Breaks =>
        case Loses =>
          c := SearchMeaning(infos, i + 1, broken, tie);
      }
    }
  }

  /** The choice meets its specification whenever no comparison it needed failed,
      and it fails only when there is nothing to choose from or a comparison failed. */
  lemma PickMeetsSpec(infos: seq<GtidInfo>, broken: Broken, tie: nat)
    ensures Pick(infos, broken, tie) == NoInfo <==> infos == []
    ensures Pick(infos, broken, tie) == CompareFailed ==> broken != {}
    ensures Pick(infos, broken, tie).Chosen? ==>
              exists i: nat :: RightChoice(infos, i) && infos[i].pod == Pick(infos, broken, tie).pod
  {
    if infos != [] {
      var c := SearchMeaning(infos, 0, broken, tie);
    }
  }

  /** Comparing pod i with pod j neither fails nor rules pod i out. */
  predicate Stands(infos: seq<GtidInfo>, i: nat, j: nat, broken: Broken)
    requires i < |infos| && j < |infos|
  {
    || infos[i].pod == infos[j].pod
    || ((infos[i].pod, infos[j].pod) !in broken && Contains(infos[i].sets, infos[j].sets))
  }

  /** Pod i stands against the pods before j and is compared with the differently named
      pod j, where the comparison fails or, when it does not, rules pod i out. */
  predicate EndsAt(infos: seq<GtidInfo>, i: nat, j: nat, broken: Broken, fails: bool) {
    && i < |infos| && j < |infos| && infos[i].pod != infos[j].pod
    && (forall k :: 0 <= k < j ==> Stands(infos, i, k, broken))
    && ((infos[i].pod, infos[j].pod) in broken <==> fails)
    && (!fails ==> !Contains(infos[i].sets, infos[j].sets))
  }

  ghost predicate Ends(infos: seq<GtidInfo>, i: nat, broken: Broken, fails: bool) {
    exists j: nat :: EndsAt(infos, i, j, broken, fails)
  }

  lemma {:induction false} CompareExact(infos: seq<GtidInfo>, i: nat, j: nat, broken: Broken)
    requires i < |infos| && j <= |infos| && forall k :: 0 <= k < j ==> Stands(infos, i, k, broken)
    ensures match Compare(infos, i, j, broken)
            case Wins => forall k :: 0 <= k < |infos| ==> Stands(infos, i, k, broken)
            case Breaks => Ends(infos, i, broken, true)
            case Loses => Ends(infos, i, broken, false)
    decreases |infos| - j
  {
    if j < |infos| {
      SupersetIsContains(infos[i].sets, infos[j].sets);
      if Stands(infos, i, j, broken) {
        CompareExact(infos, i, j + 1, broken);
      } else {
        assert EndsAt(infos, i, j, broken, (infos[i].pod, infos[j].pod) in broken);
      }
    }
  }

  lemma EndsOneWay(infos: seq<GtidInfo>, i: nat, broken: Broken)
    requires Ends(infos, i, broken, true)
    ensures !Ends(infos, i, broken, false)
  {
    var j: nat :| EndsAt(infos, i, j, broken, true);
    if k: nat :| EndsAt(infos, i, k, broken, false) {
      assert !Stands(infos, i, j, broken) && !Stands(infos, i, k, broken);
    }
  }

  /** Pod i meets a failing comparison, after every pod before it was ruled out. */
  ghost predicate MeetsFailure(infos: seq<GtidInfo>, i: nat, broken: Broken) {
    Ends(infos, i, broken, true) && forall k: nat :: k < i ==> Ends(infos, k, broken, false)
  }

  lemma {:induction false} SearchFailsIff(infos: seq<GtidInfo>, i: nat, broken: Broken, tie: nat)
    requires infos != [] && i <= |infos| && forall k: nat :: k < i ==> Ends(infos, k, broken, false)
    ensures Search(infos, i, broken, tie) == CompareFailed <==> exists m: nat :: MeetsFailure(infos, m, broken)
    decreases |infos| - i
  {
    forall m: nat | MeetsFailure(infos, m, broken) ensures i <= m < |infos| {
      EndsOneWay(infos, m, broken);
      var j: nat :| EndsAt(infos, m, j, broken, true);
    }
    if i < |infos| {
      CompareExact(infos, i, 0, broken);
      match Compare(infos, i, 0, broken) {
        case Wins =>
          forall f: bool, j: nat ensures !EndsAt(infos, i, j, broken, f) {
            assert j < |infos| ==> Stands(infos, i, j, broken);
          }
          assert !Ends(infos, i, broken, true) && !Ends(infos, i, broken, false);
        case Breaks =>
          assert MeetsFailure(infos, i, broken);
        case Loses =>
          SearchFailsIff(infos, i + 1, broken, tie);
      }
    }
  }

  /** The choice fails exactly when some pod meets a failing comparison after all pods
      before it were ruled out by one that did not fail. */
  lemma PickFailsIff(infos: seq<GtidInfo>, broken: Broken, tie: nat)
    ensures Pick(infos, broken, tie) == CompareFailed <==> exists m: nat :: MeetsFailure(infos, m, broken)
  {
    if infos != [] {
      SearchFailsIff(infos, 0, broken, tie);
    }
  }

  /** The chosen pod's report contains every other pod's report exactly when some
      pod's does: outside that case the fall-back leaves transactions behind. */
  lemma ChoiceKeepsEverythingIff(infos: seq<GtidInfo>, broken: Broken, tie: nat, c: nat)
    requires DistinctPods(infos) && c < |infos|
    requires Pick(infos, broken, tie) == Chosen(infos[c].pod)
    ensures (forall j :: 0 <= j < |infos| ==> Contains(infos[c].sets, infos[j].sets))
            <==> exists k: nat :: Dominates(infos, k)
  {
    var i := SearchMeaning(infos, 0, broken, tie);
    assert i == c;
    if forall j :: 0 <= j < |infos| ==> Contains(infos[c].sets, infos[j].sets) {
      assert Dominates(infos, c);
    }
    if exists k: nat :: Dominates(infos, k) {
      forall j | 0 <= j < |infos| ensures Contains(infos[c].sets, infos[j].sets) {
        if infos[j].pod == infos[c].pod {
          assert j == c;
        }
      }
    }
  }

  /** Domination does not depend on the order of the list. */
  lemma DominatesAfterReordering(a: seq<GtidInfo>, b: seq<GtidInfo>, i: nat) returns (k: nat)
    requires multiset(a) == multiset(b)
    requires Dominates(a, i)
    ensures Dominates(b, k) && b[k] == a[i]
  {
    assert a[i] in multiset(a);
    assert a[i] in b;
    k :| 0 <= k < |b| && b[k] == a[i];
    forall j | 0 <= j < |b| && b[j].pod != b[k].pod ensures Contains(b[k].sets, b[j].sets) {
      assert b[j] in multiset(b);
      assert b[j] in a;
    }
  }

  lemma LeastAfterReordering(a: seq<GtidInfo>, b: seq<GtidInfo>, i: nat, k: nat)
    requires multiset(a) == multiset(b)
    requires DistinctOrdinals(a)
    requires IsLeast(a, i) && IsLeast(b, k)
    ensures a[i] == b[k]
  {
    assert b[k] in multiset(b);
    assert b[k] in a;
    var m :| 0 <= m < |a| && a[m] == b[k];
    assert a[i] in multiset(a);
    assert a[i] in b;
    assert a[m].ordinal == a[i].ordinal;
  }

  /** The list order, which the pod listing does not promise, does not matter: the
      chosen pods hold the same transactions, and are the same pod when none dominates. */
  lemma PickIgnoresOrder(a: seq<GtidInfo>, b: seq<GtidInfo>, tieA: nat, tieB: nat, i: nat, k: nat)
    requires multiset(a) == multiset(b)
    requires DistinctPods(a) && DistinctPods(b) && DistinctOrdinals(a)
    requires i < |a| && Pick(a, {}, tieA) == Chosen(a[i].pod)
    requires k < |b| && Pick(b, {}, tieB) == Chosen(b[k].pod)
    ensures a[i].sets == b[k].sets
    ensures !(exists d: nat :: Dominates(a, d)) ==> a[i] == b[k]
  {
    var i' := SearchMeaning(a, 0, {}, tieA);
    var k' := SearchMeaning(b, 0, {}, tieB);
    assert i' == i && k' == k;
    if d :| Dominates(a, d) {
      var _ := DominatesAfterReordering(a, b, d);
      var m := DominatesAfterReordering(a, b, i);
      if b[m].pod == b[k].pod {
        assert m == k;
      } else {
        assert Contains(b[m].sets, b[k].sets) && Contains(b[k].sets, b[m].sets);
      }
    } else {
      if d :| Dominates(b, d) {
        var e := DominatesAfterReordering(b, a, d);
      }
      LeastAfterReordering(a, b, i, k);
    }
  }

  // ---------------------------------------------------------------- the imperative form

  predicate SortedByOrdinal(infos: seq<GtidInfo>) {
    forall i, j :: 0 <= i < j < |infos| ==> infos[i].ordinal <= infos[j].ordinal
  }

  method Swap(a: array<GtidInfo>, i: nat, j: nat)
    requires i < a.Length && j < a.Length
    modifies a
    ensures a[..] == old(a[..])[i := old(a[j])][j := old(a[i])]
    ensures multiset(a[..]) == multiset(old(a[..]))
  {
    a[i], a[j] := a[j], a[i];
  }

  /** sort.Slice on ordinals: in place, not necessarily stable. */
  method SortByOrdinal(a: array<GtidInfo>)
    modifies a
    ensures SortedByOrdinal(a[..])
    ensures multiset(a[..]) == multiset(old(a[..]))
  {
    var n := 0;
    while n < a.Length
      invariant n <= a.Length
      invariant SortedByOrdinal(a[..n])
      invariant forall i, j :: 0 <= i < n <= j < a.Length ==> a[i].ordinal <= a[j].ordinal
      invariant multiset(a[..]) == multiset(old(a[..]))
    {
      var least := n;
      for k := n + 1 to a.Length
        invariant n <= least < a.Length
        invariant forall j :: n <= j < k ==> a[least].ordinal <= a[j].ordinal
      {
        if a[k].ordinal < a[least].ordinal { least := k; }
      }
      ghost var before := a[..];
      Swap(a, n, least);
      assert forall j :: 0 <= j < a.Length ==> a[j] == a[..][j];
      assert a[..n] == before[..n];
      n := n + 1;
    }
    assert a[..n] == a[..];
  }

  /** PickRestartCandidate with its nested early-exit loops and its in-place sort. */
  method PickRestartCandidate(infos: array<GtidInfo>, broken: Broken) returns (choice: Choice, ghost tie: nat)
    modifies infos
    ensures choice == Pick(old(infos[..]), broken, tie)
    ensures multiset(infos[..]) == multiset(old(infos[..]))
  {
    ghost var start := infos[..];
    tie := 0;
    if infos.Length == 0 {
      return NoInfo, 0;
    }
    for i := 0 to infos.Length
      invariant infos[..] == start
      invariant forall t: nat :: Search(start, 0, broken, t) == Search(start, i, broken, t)
    {
      var isSuperset := true;
      var j := 0;
      while j < infos.Length
        invariant 0 <= j <= infos.Length
        invariant infos[..] == start && isSuperset
        invariant Compare(start, i, 0, broken) == Compare(start, i, j, broken)
      {
        if infos[i].pod == infos[j].pod {
          j := j + 1;
          continue;
        }
        if (infos[i].pod, infos[j].pod) in broken {
          return CompareFailed, 0;
        }
        if !Superset(infos[i].sets, infos[j].sets) {
          isSuperset := false;
          break;
        }
        j := j + 1;
      }
      if isSuperset {
        return Chosen(infos[i].pod), 0;
      }
    }
    SortByOrdinal(infos);
    tie := WhereLeast(start, infos[..]);
    choice := Chosen(infos[0].pod);
  }

  lemma WhereLeast(start: seq<GtidInfo>, sorted: seq<GtidInfo>) returns (t: nat)
    requires start != [] && multiset(start) == multiset(sorted) && SortedByOrdinal(sorted)
    ensures |sorted| == |start| && IsLeast(start, t) && start[t] == sorted[0]
  {
    assert |multiset(start)| == |multiset(sorted)|;
    assert sorted[0] in multiset(sorted);
    assert sorted[0] in start;
    t :| 0 <= t < |start| && start[t] == sorted[0];
    forall j | 0 <= j < |start| ensures start[t].ordinal <= start[j].ordinal {
      assert start[j] in multiset(start);
      assert start[j] in sorted;
    }
  }
}
