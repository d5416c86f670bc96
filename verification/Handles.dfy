/**
 Connections: on every exit of the survey and of the pod loop each replication client
 that was opened has been closed, and the one connection that can leak is named.
 */
module Handles {
  import opened Servers
  import opened Protocol

  /** The client in use: none, one, or a misuse (a second client, a stray call or close). */
  datatype Holding = Nothing | Client(pod: string) | Misuse

  function After(h: Holding, c: Call): Holding {
    match c
    case OpenCompare => h
    case CloseCompare => h
    case Connect(p) => if h == Nothing then Client(p) else Misuse
    case Close(p) => if h == Client(p) then Nothing else Misuse
    case _ => if h == Client(c.pod) then h else Misuse
  }

  function Track(h: Holding, log: seq<Call>): Holding
    decreases |log|
  {
    if log == [] then h else Track(After(h, log[0]), log[1..])
  }

  /** Every client was closed exactly once, before the next one was opened, and every
      call went to the client then open. */
  predicate Balanced(log: seq<Call>) {
    Track(Nothing, log) == Nothing
  }

  lemma {:induction false} TrackAppend(h: Holding, a: seq<Call>, b: seq<Call>)
    ensures Track(h, a + b) == Track(Track(h, a), b)
    decreases |a|
  {
    if a == [] {
      assert a + b == b;
    } else {
      assert (a + b)[1..] == a[1..] + b;
      TrackAppend(After(h, a[0]), a[1..], b);
    }
  }

  /** What one visit does with its client: nothing, or connect, calls, close. */
  predicate Session(d: seq<Call>, p: string) {
    || d == []
    || (|d| >= 3 && d[0] == Connect(p) && d[|d| - 1] == Close(p)
        && forall k :: 0 < k < |d| - 1 ==> Inner(d[k], p))
  }

  predicate Inner(c: Call, p: string) {
    c.OpenCompare? || c.CloseCompare? || (c.pod == p && !c.Connect? && !c.Close?)
  }

  lemma {:induction false} InnerKeeps(d: seq<Call>, p: string)
    requires forall k :: 0 <= k < |d| ==> Inner(d[k], p)
    ensures Track(Client(p), d) == Client(p)
    decreases |d|
  {
    if d != [] {
      InnerKeeps(d[1..], p);
    }
  }

  lemma SessionBalanced(log: seq<Call>, d: seq<Call>, p: string)
    requires Balanced(log) && Session(d, p)
    ensures Balanced(log + d)
  {
    TrackAppend(Nothing, log, d);
    if d != [] {
      var inner, last := d[1..|d| - 1], [Close(p)];
      assert d == [Connect(p)] + inner + last;
      TrackAppend(Nothing, [Connect(p)] + inner, last);
      TrackAppend(Nothing, [Connect(p)], inner);
      assert Track(Nothing, [Connect(p)]) == Track(Client(p), []);
      InnerKeeps(inner, p);
      assert Track(Client(p), last) == Track(Nothing, []);
    }
  }

  /** The calls of one survey visit. */
  function SurveyCalls(s: Survey, pod: Pod, gather: bool, a: SurveyAnswer): seq<Call> {
    var p := pod.name;
    if !Usable(pod) || !a.connect then []
    else if !a.self || IsOnline(ApplyEnvs(s.net, a.env), p) || !gather then [Connect(p), AskSelf(p), Close(p)]
    else if !a.gtid || s.compareOpen || !a.open then [Connect(p), AskSelf(p), AskGtid(p), Close(p)]
    else [Connect(p), AskSelf(p), AskGtid(p), OpenCompare, Close(p)]
  }

  lemma SurveyVisitLog(s: Survey, pod: Pod, gather: bool, a: SurveyAnswer)
    ensures SurveyVisit(s, pod, gather, a).log == s.log + SurveyCalls(s, pod, gather, a)
  {
    var p := pod.name;
    var asked := s.log + [Connect(p), AskSelf(p)];
    assert asked + [Close(p)] == s.log + [Connect(p), AskSelf(p), Close(p)];
    assert asked + [AskGtid(p), Close(p)] == s.log + [Connect(p), AskSelf(p), AskGtid(p), Close(p)];
    assert asked + [AskGtid(p), OpenCompare, Close(p)]
           == s.log + [Connect(p), AskSelf(p), AskGtid(p), OpenCompare, Close(p)];
    assert s.log + [] == s.log;
  }

  lemma SurveyCallsSession(s: Survey, pod: Pod, gather: bool, a: SurveyAnswer)
    ensures Session(SurveyCalls(s, pod, gather, a), pod.name)
  {
  }

  /** The calls of one visit of the pod loop. */
  function WalkCalls(s: Walk, pod: Pod, c: string, force: bool, a: WalkAnswer): seq<Call> {
    var p := pod.name;
    if !Usable(pod) || !a.connect then []
    else if !a.self || IsOnline(ApplyEnvs(s.net, a.env), p) then [Connect(p), AskSelf(p), Close(p)]
    else if !a.user then [Connect(p), AskSelf(p), EnsureUser(p), Close(p)]
    else if a.view == ViewError then [Connect(p), AskSelf(p), EnsureUser(p), AskView(p), Close(p)]
    else if FirstBootstrap(s.status, p, force, a.view) || Rebootstrap(s.status, p, c, a.view) then
      [Connect(p), AskSelf(p), EnsureUser(p), AskView(p), CallBootstrap(p), Close(p)]
    else
      [Connect(p), AskSelf(p), EnsureUser(p), AskView(p), CallJoin(p), Close(p)]
  }

  lemma WalkVisitLog(s: Walk, pod: Pod, c: string, force: bool, a: WalkAnswer)
    ensures WalkVisit(s, pod, c, force, a).log == s.log + WalkCalls(s, pod, c, force, a)
  {
    var p := pod.name;
    var asked := s.log + [Connect(p), AskSelf(p)];
    var viewed := asked + [EnsureUser(p), AskView(p)];
    assert asked + [Close(p)] == s.log + [Connect(p), AskSelf(p), Close(p)];
    assert asked + [EnsureUser(p), Close(p)] == s.log + [Connect(p), AskSelf(p), EnsureUser(p), Close(p)];
    assert viewed == s.log + [Connect(p), AskSelf(p), EnsureUser(p), AskView(p)];
    ViewedThen(s.log, p, [Close(p)]);
    ViewedThen(s.log, p, [CallBootstrap(p), Close(p)]);
    ViewedThen(s.log, p, [CallJoin(p), Close(p)]);
    assert s.log + [] == s.log;
  }

  lemma ViewedThen(log: seq<Call>, p: string, d: seq<Call>)
    ensures (log + [Connect(p), AskSelf(p)] + [EnsureUser(p), AskView(p)]) + d
            == log + ([Connect(p), AskSelf(p), EnsureUser(p), AskView(p)] + d)
  {
  }

  lemma WalkCallsSession(s: Walk, pod: Pod, c: string, force: bool, a: WalkAnswer)
    ensures Session(WalkCalls(s, pod, c, force, a), pod.name)
    ensures forall k :: 0 <= k < |WalkCalls(s, pod, c, force, a)| ==>
              !WalkCalls(s, pod, c, force, a)[k].OpenCompare? && !WalkCalls(s, pod, c, force, a)[k].CloseCompare?
  {
  }

  lemma {:induction false} SurveyBalanced(s: Survey, pods: seq<Pod>, i: nat, gather: bool, answers: seq<SurveyAnswer>)
    requires Balanced(s.log)
    ensures Balanced(SurveyFrom(s, pods, i, gather, answers).log)
    decreases |pods| - i
  {
    if !s.failed && i < |pods| {
      var a := SurveyAnswerAt(answers, i);
      SurveyVisitLog(s, pods[i], gather, a);
      SurveyCallsSession(s, pods[i], gather, a);
      SessionBalanced(s.log, SurveyCalls(s, pods[i], gather, a), pods[i].name);
      SurveyBalanced(SurveyVisit(s, pods[i], gather, SurveyAnswerAt(answers, i)), pods, i + 1, gather, answers);
    }
  }

  lemma {:induction false} WalkBalanced(
    s: Walk, pods: seq<Pod>, i: nat, c: string, force: bool, answers: seq<WalkAnswer>)
    requires Balanced(s.log)
    ensures Balanced(WalkFrom(s, pods, i, c, force, answers).log)
    decreases |pods| - i
  {
    if !s.failed && i < |pods| {
      var a := WalkAnswerAt(answers, i);
      WalkVisitLog(s, pods[i], c, force, a);
      WalkCallsSession(s, pods[i], c, force, a);
      SessionBalanced(s.log, WalkCalls(s, pods[i], c, force, a), pods[i].name);
      WalkBalanced(WalkVisit(s, pods[i], c, force, WalkAnswerAt(answers, i)), pods, i + 1, c, force, answers);
    }
  }

  /** Where one Reconcile call leaves the log. */
  lemma LogOutcome(w: World, r: Inputs)
    ensures Reconcile(w, r).log ==
            if !ReachesPass(r) then w.log
            else if SurveyOf(w, r).failed then SurveyOf(w, r).log
            else if Selects(w, r) then SurveyOf(w, r).log + CloseCompareOf(SurveyOf(w, r))
            else WalkOf(w, r).log + CloseCompareOf(SurveyOf(w, r))
  {
  }

  lemma CompareCallsKeepBalance(log: seq<Call>, d: seq<Call>)
    requires Balanced(log) && (d == [] || d == [CloseCompare])
    ensures Balanced(log + d)
  {
    TrackAppend(Nothing, log, d);
  }

  lemma ReconcileBalanced(w: World, r: Inputs)
    requires Balanced(w.log)
    ensures Balanced(Reconcile(w, r).log)
  {
    LogOutcome(w, r);
    var s := SurveyOf(w, r);
    SurveyBalanced(SurveyStart(w), r.pods, 0, Gathers(r.seen), r.survey);
    WalkBalanced(WalkStart(w, r), r.pods, 0, r.seen.candidate, r.force, r.walk);
    CompareCallsKeepBalance(s.log, CloseCompareOf(s));
    CompareCallsKeepBalance(WalkOf(w, r).log, CloseCompareOf(s));
  }

  /** In every run, whatever fails, each replication client opened has been closed
      exactly once and at most one was open at a time. */
  lemma {:induction false} ClientsConserved(w: World, es: seq<Event>)
    requires Balanced(w.log)
    ensures Balanced(Exec(w, es).log)
    decreases |es|
  {
    if es != [] {
      if es[0].Loop? {
        ReconcileBalanced(w, es[0].r);
      }
      ClientsConserved(Step(w, es[0]), es[1..]);
    }
  }

  // ---------------------------------------------------------------- the compare connection

  /** Compare connections opened and not closed. */
  function CompareOpen(log: seq<Call>): int
    decreases |log|
  {
    if log == [] then 0
    else CompareOpen(log[..|log| - 1])
         + match log[|log| - 1] case OpenCompare => 1 case CloseCompare => -1 case _ => 0
  }

  lemma {:induction false} CompareAppend(a: seq<Call>, b: seq<Call>)
    ensures CompareOpen(a + b) == CompareOpen(a) + CompareOpen(b)
    decreases |b|
  {
    if b == [] {
      assert a + b == a;
    } else {
      assert (a + b)[..|a + b| - 1] == a + b[..|b| - 1];
      CompareAppend(a, b[..|b| - 1]);
    }
  }

  lemma {:induction false} NoCompareCalls(d: seq<Call>)
    requires forall k :: 0 <= k < |d| ==> !d[k].OpenCompare? && !d[k].CloseCompare?
    ensures CompareOpen(d) == 0
    decreases |d|
  {
    if d != [] {
      NoCompareCalls(d[..|d| - 1]);
    }
  }

  /** This visit opens the compare connection. */
  predicate Opens(s: Survey, pod: Pod, gather: bool, a: SurveyAnswer) {
    && Usable(pod) && a.connect && a.self && !IsOnline(ApplyEnvs(s.net, a.env), pod.name)
    && gather && a.gtid && !s.compareOpen && a.open
  }

  lemma OpeningCalls(p: string)
    ensures CompareOpen([Connect(p), AskSelf(p), AskGtid(p), OpenCompare, Close(p)]) == 1
  {
    var front := [Connect(p), AskSelf(p), AskGtid(p)];
    assert [Connect(p), AskSelf(p), AskGtid(p), OpenCompare, Close(p)] == front + [OpenCompare] + [Close(p)];
    CompareAppend(front + [OpenCompare], [Close(p)]);
    CompareAppend(front, [OpenCompare]);
    NoCompareCalls(front);
    NoCompareCalls([Close(p)]);
    assert CompareOpen([OpenCompare]) == CompareOpen([OpenCompare][..0]) + 1;
  }

  lemma SurveyCallsCompare(s: Survey, pod: Pod, gather: bool, a: SurveyAnswer)
    ensures CompareOpen(SurveyCalls(s, pod, gather, a)) == if Opens(s, pod, gather, a) then 1 else 0
  {
    if Opens(s, pod, gather, a) {
      OpeningCalls(pod.name);
    } else {
      NoCompareCalls(SurveyCalls(s, pod, gather, a));
    }
  }

  lemma SurveyVisitCompare(s: Survey, pod: Pod, gather: bool, a: SurveyAnswer)
    ensures var s' := SurveyVisit(s, pod, gather, a);
            && CompareOpen(s'.log) - CompareOpen(s.log) == (if s'.compareOpen && !s.compareOpen then 1 else 0)
            && (s.compareOpen ==> s'.compareOpen)
  {
    SurveyVisitLog(s, pod, gather, a);
    SurveyCallsCompare(s, pod, gather, a);
    CompareAppend(s.log, SurveyCalls(s, pod, gather, a));
  }

  lemma {:induction false} SurveyCompare(s: Survey, pods: seq<Pod>, i: nat, gather: bool, answers: seq<SurveyAnswer>)
    ensures var r := SurveyFrom(s, pods, i, gather, answers);
            && CompareOpen(r.log) - CompareOpen(s.log) == (if r.compareOpen && !s.compareOpen then 1 else 0)
            && (s.compareOpen ==> r.compareOpen)
    decreases |pods| - i
  {
    if !s.failed && i < |pods| {
      SurveyVisitCompare(s, pods[i], gather, SurveyAnswerAt(answers, i));
      SurveyCompare(SurveyVisit(s, pods[i], gather, SurveyAnswerAt(answers, i)), pods, i + 1, gather, answers);
    }
  }

  lemma {:induction false} WalkCompare(
    s: Walk, pods: seq<Pod>, i: nat, c: string, force: bool, answers: seq<WalkAnswer>)
    ensures CompareOpen(WalkFrom(s, pods, i, c, force, answers).log) == CompareOpen(s.log)
    decreases |pods| - i
  {
    if !s.failed && i < |pods| {
      var a := WalkAnswerAt(answers, i);
      var d := WalkCalls(s, pods[i], c, force, a);
      WalkVisitLog(s, pods[i], c, force, a);
      WalkCallsSession(s, pods[i], c, force, a);
      CompareAppend(s.log, d);
      NoCompareCalls(d);
      WalkCompare(WalkVisit(s, pods[i], c, force, WalkAnswerAt(answers, i)), pods, i + 1, c, force, answers);
    }
  }

  lemma CloseCompareBalances(log: seq<Call>, s: Survey)
    ensures CompareOpen(log + CloseCompareOf(s)) == CompareOpen(log) - (if s.compareOpen then 1 else 0)
  {
    CompareAppend(log, CloseCompareOf(s));
    assert CompareOpen([CloseCompare]) == CompareOpen([CloseCompare][..0]) - 1;
  }

  /** The compare connection is left open by a Reconcile call exactly when the survey
      fails after opening it: the error return comes before the deferred close. */
  lemma CompareLeaksIff(w: World, r: Inputs)
    ensures CompareOpen(Reconcile(w, r).log) - CompareOpen(w.log) ==
            if ReachesPass(r) && SurveyOf(w, r).failed && SurveyOf(w, r).compareOpen then 1 else 0
  {
    LogOutcome(w, r);
    var s := SurveyOf(w, r);
    SurveyCompare(SurveyStart(w), r.pods, 0, Gathers(r.seen), r.survey);
    WalkCompare(WalkStart(w, r), r.pods, 0, r.seen.candidate, r.force, r.walk);
    CloseCompareBalances(s.log, s);
    CloseCompareBalances(WalkOf(w, r).log, s);
  }

  // ---------------------------------------------------------------- Bootstrap calls

  /** Bootstrap calls in a log, successful or not. */
  function Boots(log: seq<Call>): nat
    decreases |log|
  {
    if log == [] then 0
    else Boots(log[..|log| - 1]) + if log[|log| - 1].CallBootstrap? then 1 else 0
  }

  lemma {:induction false} BootsAppend(a: seq<Call>, b: seq<Call>)
    ensures Boots(a + b) == Boots(a) + Boots(b)
    decreases |b|
  {
    if b == [] {
      assert a + b == a;
    } else {
      assert (a + b)[..|a + b| - 1] == a + b[..|b| - 1];
      BootsAppend(a, b[..|b| - 1]);
    }
  }

  lemma {:induction false} NoBoots(d: seq<Call>)
    requires forall k :: 0 <= k < |d| ==> !d[k].CallBootstrap?
    ensures Boots(d) == 0
    decreases |d|
  {
    if d != [] {
      NoBoots(d[..|d| - 1]);
    }
  }

  /** This visit calls Bootstrap. */
  predicate Calls(s: Walk, pod: Pod, c: string, force: bool, a: WalkAnswer) {
    && Usable(pod) && a.connect && a.self && !IsOnline(ApplyEnvs(s.net, a.env), pod.name)
    && a.user && a.view != ViewError
    && (FirstBootstrap(s.status, pod.name, force, a.view) || Rebootstrap(s.status, pod.name, c, a.view))
  }

  lemma BootingCalls(p: string)
    ensures Boots([Connect(p), AskSelf(p), EnsureUser(p), AskView(p), CallBootstrap(p), Close(p)]) == 1
  {
    var front := [Connect(p), AskSelf(p), EnsureUser(p), AskView(p)];
    assert [Connect(p), AskSelf(p), EnsureUser(p), AskView(p), CallBootstrap(p), Close(p)]
           == front + [CallBootstrap(p)] + [Close(p)];
    BootsAppend(front + [CallBootstrap(p)], [Close(p)]);
    BootsAppend(front, [CallBootstrap(p)]);
    NoBoots(front);
    NoBoots([Close(p)]);
    assert Boots([CallBootstrap(p)]) == Boots([CallBootstrap(p)][..0]) + 1;
  }

  lemma WalkCallsBoots(s: Walk, pod: Pod, c: string, force: bool, a: WalkAnswer)
    ensures Boots(WalkCalls(s, pod, c, force, a)) == if Calls(s, pod, c, force, a) then 1 else 0
  {
    if Calls(s, pod, c, force, a) {
      BootingCalls(pod.name);
    } else {
      NoBoots(WalkCalls(s, pod, c, force, a));
    }
  }

  lemma VisitBoots(s: Walk, pod: Pod, c: string, force: bool, a: WalkAnswer)
    ensures Boots(WalkVisit(s, pod, c, force, a).log) == Boots(s.log) + if Calls(s, pod, c, force, a) then 1 else 0
  {
    WalkVisitLog(s, pod, c, force, a);
    WalkCallsBoots(s, pod, c, force, a);
    BootsAppend(s.log, WalkCalls(s, pod, c, force, a));
  }

  /** The later log extends the earlier one without a Bootstrap call. */
  predicate AddsNoBootstrap(log: seq<Call>, log': seq<Call>) {
    log <= log' && forall k :: |log| <= k < |log'| ==> !log'[k].CallBootstrap?
  }

  lemma AddsNoneCounts(log: seq<Call>, log': seq<Call>)
    requires AddsNoBootstrap(log, log')
    ensures Boots(log') == Boots(log)
  {
    var d := log'[|log|..];
    assert log' == log + d;
    BootsAppend(log, d);
    NoBoots(d);
  }

  lemma {:induction false} SurveyNeverBootstraps(
    s: Survey, pods: seq<Pod>, i: nat, gather: bool, answers: seq<SurveyAnswer>)
    ensures AddsNoBootstrap(s.log, SurveyFrom(s, pods, i, gather, answers).log)
    decreases |pods| - i
  {
    if !s.failed && i < |pods| {
      var a := SurveyAnswerAt(answers, i);
      var s' := SurveyVisit(s, pods[i], gather, a);
      SurveyVisitLog(s, pods[i], gather, a);
      assert AddsNoBootstrap(s.log, s'.log);
      SurveyNeverBootstraps(s', pods, i + 1, gather, answers);
    }
  }
}
