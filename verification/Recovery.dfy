/**
 What a pass sees and how a cluster comes back: the survey is exact, a partial outage
 never leads to a Bootstrap, and undisturbed passes bring every pod online and then
 leave the cluster alone.
 */
module Recovery {
  import opened RestartCandidate
  import opened Servers
  import opened Protocol
  import opened Safety
  import opened Handles
  import PodIdentity

  // ---------------------------------------------------------------- the survey is exact

  predicate StillSurvey(answers: seq<SurveyAnswer>) {
    forall k :: 0 <= k < |answers| ==> answers[k].env == []
  }

  /** The report about one listed pod, if it is ready and not online. */
  function ReportOn(net: Net, pod: Pod): seq<GtidInfo> {
    if Usable(pod) && !IsOnline(net, pod.name)
    then [GtidInfo(pod.name, PodIdentity.OperatorOrdinal(pod.name), At(net, pod.name).sets)]
    else []
  }

  /** The reports of the ready pods that are not online, in list order. */
  function OfflineReports(net: Net, pods: seq<Pod>, i: nat): seq<GtidInfo>
    decreases |pods| - i
  {
    if i >= |pods| then [] else ReportOn(net, pods[i]) + OfflineReports(net, pods, i + 1)
  }

  predicate ReadyOnline(net: Net, pods: seq<Pod>, i: nat) {
    exists k :: i <= k < |pods| && Usable(pods[k]) && IsOnline(net, pods[k].name)
  }

  lemma VisitExact(s: Survey, pod: Pod, gather: bool, a: SurveyAnswer)
    requires a.env == [] && !SurveyVisit(s, pod, gather, a).failed
    ensures var r := SurveyVisit(s, pod, gather, a);
            && r.net == s.net
            && (r.anyOnline <==> s.anyOnline || (Usable(pod) && IsOnline(s.net, pod.name)))
            && r.infos == if gather then s.infos + ReportOn(s.net, pod) else s.infos
  {
  }

  /** A survey that fails nowhere leaves the servers alone and finds the online pods. */
  lemma {:induction false} SurveyFindsOnline(
    s: Survey, pods: seq<Pod>, i: nat, gather: bool, answers: seq<SurveyAnswer>)
    requires StillSurvey(answers) && i <= |pods|
    requires !SurveyFrom(s, pods, i, gather, answers).failed
    ensures var r := SurveyFrom(s, pods, i, gather, answers);
            r.net == s.net && (r.anyOnline <==> s.anyOnline || ReadyOnline(s.net, pods, i))
    decreases |pods| - i
  {
    if i < |pods| {
      var a := SurveyAnswerAt(answers, i);
      var s' := SurveyVisit(s, pods[i], gather, a);
      assert !s'.failed;
      VisitExact(s, pods[i], gather, a);
      SurveyFindsOnline(s', pods, i + 1, gather, answers);
      if ReadyOnline(s.net, pods, i + 1) {
        assert ReadyOnline(s.net, pods, i);
      }
    }
  }

  /** It reports exactly the ready pods that are not online, in list order. */
  lemma {:induction false} SurveyReports(s: Survey, pods: seq<Pod>, i: nat, answers: seq<SurveyAnswer>)
    requires StillSurvey(answers) && i <= |pods|
    requires !SurveyFrom(s, pods, i, true, answers).failed
    ensures SurveyFrom(s, pods, i, true, answers).infos == s.infos + OfflineReports(s.net, pods, i)
    decreases |pods| - i
  {
    if i < |pods| {
      var a := SurveyAnswerAt(answers, i);
      var s' := SurveyVisit(s, pods[i], true, a);
      assert !s'.failed;
      VisitExact(s, pods[i], true, a);
      SurveyReports(s', pods, i + 1, answers);
      Regroup(s.infos, ReportOn(s.net, pods[i]), OfflineReports(s.net, pods, i + 1));
    } else {
      assert s.infos + [] == s.infos;
    }
  }

  lemma Regroup(a: seq<GtidInfo>, b: seq<GtidInfo>, c: seq<GtidInfo>)
    ensures (a + b) + c == a + (b + c)
  {
  }

  lemma {:induction false} NoReportsIff(net: Net, pods: seq<Pod>, i: nat)
    requires i <= |pods|
    ensures OfflineReports(net, pods, i) == [] <==>
            forall k :: i <= k < |pods| && Usable(pods[k]) ==> IsOnline(net, pods[k].name)
    decreases |pods| - i
  {
    if i < |pods| {
      NoReportsIff(net, pods, i + 1);
      var first, rest := ReportOn(net, pods[i]), OfflineReports(net, pods, i + 1);
      assert |first| == 0 <==> (Usable(pods[i]) ==> IsOnline(net, pods[i].name));
      assert |first + rest| == |first| + |rest|;
    }
  }

  /** A settled cluster: the pass reports exactly the ready pods that are not online,
      and goes into candidate selection exactly when some pod is ready and none of
      the ready ones is online. */
  lemma SelectsIff(w: World, r: Inputs)
    requires ReadsStored(w, r) && Gathers(w.status) && ReachesPass(r) && StillSurvey(r.survey)
    requires !SurveyOf(w, r).failed
    ensures SurveyOf(w, r).infos == OfflineReports(w.net, r.pods, 0)
    ensures SurveyOf(w, r).anyOnline <==> ReadyOnline(w.net, r.pods, 0)
    ensures Selects(w, r) <==>
            (exists k :: 0 <= k < |r.pods| && Usable(r.pods[k]))
            && forall k :: 0 <= k < |r.pods| && Usable(r.pods[k]) ==> !IsOnline(w.net, r.pods[k].name)
  {
    SurveyFindsOnline(SurveyStart(w), r.pods, 0, true, r.survey);
    SurveyReports(SurveyStart(w), r.pods, 0, r.survey);
    assert [] + OfflineReports(w.net, r.pods, 0) == OfflineReports(w.net, r.pods, 0);
    NoReportsIff(w.net, r.pods, 0);
  }

  /** Once bootstrapped and with no candidate pending, a Reconcile call never calls
      Bootstrap, whatever the pods answer and however many of them are down. */
  lemma PartialOutageSafe(w: World, r: Inputs)
    requires ReadsStored(w, r) && Gathers(w.status)
    ensures AddsNoBootstrap(w.log, Reconcile(w, r).log)
  {
    LogOutcome(w, r);
    if ReachesPass(r) {
      SurveyNeverBootstraps(SurveyStart(w), r.pods, 0, Gathers(r.seen), r.survey);
      SpentWalkCallsNone(WalkStart(w, r), r.pods, 0, "", r.force, r.walk);
    }
  }

  // ---------------------------------------------------------------- undisturbed passes

  /** A healthy answer; what the pod sees of its group is left open. */
  predicate Healthy(a: WalkAnswer) {
    a == HEALTHY_WALK.(view := a.view) && a.view != ViewError
  }

  predicate HealthyFrom(answers: seq<WalkAnswer>, i: nat) {
    forall k :: i <= k < |answers| ==> Healthy(answers[k])
  }

  /** Nothing goes wrong before the pod loop, and the writes that carry the replication
      fields land. The order of equal ordinals, forced bootstraps and the fate of the
      phase and failure writes are left open. */
  predicate Calm(w: World, pods: seq<Pod>, r: Inputs) {
    && ReadsStored(w, r) && ReachesPass(r) && r.pods == pods && r.broken == {}
    && (forall k :: 0 <= k < |r.survey| ==> r.survey[k] == HEALTHY_SURVEY)
    && r.pickLands && r.walkLands
  }

  /** An undisturbed pass: calm, and healthy answers in the pod loop. */
  predicate Quiet(w: World, pods: seq<Pod>, r: Inputs) {
    Calm(w, pods, r) && HealthyFrom(r.walk, 0)
  }

  function Passes(w: World, rs: seq<Inputs>): World
    decreases |rs|
  {
    if rs == [] then w else Passes(Reconcile(w, rs[0]), rs[1..])
  }

  predicate QuietRun(w: World, pods: seq<Pod>, rs: seq<Inputs>)
    decreases |rs|
  {
    rs == [] || (Quiet(w, pods, rs[0]) && QuietRun(Reconcile(w, rs[0]), pods, rs[1..]))
  }

  /** Every listed pod is ready and configured as a seed of the group. */
  predicate Deployed(net: Net, pods: seq<Pod>) {
    && pods != [] && ProperNames(pods)
    && forall k :: 0 <= k < |pods| ==> Usable(pods[k]) && pods[k].name in net.seeds
  }

  predicate OnlineFrom(net: Net, pods: seq<Pod>, i: nat) {
    forall k :: i <= k < |pods| ==> IsOnline(net, pods[k].name)
  }

  /** No listed pod is half-way into a group. */
  predicate Crisp(net: Net, pods: seq<Pod>) {
    forall k :: 0 <= k < |pods| ==> !At(net, pods[k].name).member.Recovering?
  }

  predicate SeedOnline(net: Net) {
    exists p :: p in net.seeds && IsOnline(net, p)
  }

  /** From position i on, the loop has nothing to bootstrap. */
  predicate JoinsOnly(s: Walk, pods: seq<Pod>, i: nat, c: string) {
    s.status.bootstrapped && (c == "" || NoneNamed(pods, i, c))
  }

  lemma QuietJoin(net: Net, pod: string)
    requires FlagsOff(net) && SeedOnline(net) && At(net, pod).member == Offline
    ensures var e := Join(net, pod, HEALTHY_JOIN);
            && e.ok && IsOnline(e.net, pod) && FlagsOff(e.net) && SeedOnline(e.net) && e.net.seeds == net.seeds
            && forall q :: q != pod ==> At(e.net, q) == At(net, q)
  {
  }

  /** One visit next to a live group: the pod is online afterwards, others as before. */
  lemma VisitNearGroup(s: Walk, pods: seq<Pod>, i: nat, c: string, force: bool, a: WalkAnswer)
    requires i < |pods| && Deployed(s.net, pods) && JoinsOnly(s, pods, i, c) && !s.failed && Healthy(a)
    requires FlagsOff(s.net) && SeedOnline(s.net) && Crisp(s.net, pods)
    ensures var r := WalkVisit(s, pods[i], c, force, a);
            && !r.failed && r.status == s.status && r.dirty == s.dirty && JoinsOnly(r, pods, i + 1, c)
            && FlagsOff(r.net) && SeedOnline(r.net) && r.net.seeds == s.net.seeds
            && IsOnline(r.net, pods[i].name) && Crisp(r.net, pods)
            && (forall k :: 0 <= k < |pods| && k != i ==> At(r.net, pods[k].name) == At(s.net, pods[k].name))
  {
    assert ApplyEnvs(s.net, []) == s.net;
    if !IsOnline(s.net, pods[i].name) {
      QuietJoin(s.net, pods[i].name);
    }
  }

  /** The loop next to a live group brings every remaining pod online. */
  lemma {:induction false} WalkNearGroup(
    s: Walk, pods: seq<Pod>, i: nat, c: string, force: bool, answers: seq<WalkAnswer>)
    requires i <= |pods| && Deployed(s.net, pods) && JoinsOnly(s, pods, i, c) && !s.failed && HealthyFrom(answers, i)
    requires FlagsOff(s.net) && SeedOnline(s.net) && Crisp(s.net, pods)
    ensures var r := WalkFrom(s, pods, i, c, force, answers);
            && !r.failed && r.status == s.status && r.dirty == s.dirty
            && FlagsOff(r.net) && SeedOnline(r.net) && r.net.seeds == s.net.seeds && Crisp(r.net, pods)
            && OnlineFrom(r.net, pods, i)
            && (forall k :: 0 <= k < i ==> At(r.net, pods[k].name) == At(s.net, pods[k].name))
    decreases |pods| - i
  {
    if i < |pods| {
      var a := WalkAnswerAt(answers, i);
      VisitNearGroup(s, pods, i, c, force, a);
      WalkNearGroup(WalkVisit(s, pods[i], c, force, a), pods, i + 1, c, force, answers);
    }
  }

  /** A loop over pods that are all online changes no server. */
  lemma {:induction false} WalkOverOnline(
    s: Walk, pods: seq<Pod>, i: nat, c: string, force: bool, answers: seq<WalkAnswer>)
    requires !s.failed && OnlineFrom(s.net, pods, i) && HealthyFrom(answers, i)
    ensures WalkFrom(s, pods, i, c, force, answers).net == s.net
    decreases |pods| - i
  {
    if i < |pods| {
      assert ApplyEnvs(s.net, []) == s.net;
      WalkOverOnline(WalkVisit(s, pods[i], c, force, WalkAnswerAt(answers, i)), pods, i + 1, c, force, answers);
    }
  }

  /** The pod at k is bootstrapped when the loop reaches it. */
  predicate Founds(status: Status, pods: seq<Pod>, k: nat, c: string, force: bool, answers: seq<WalkAnswer>) {
    && k < |pods|
    && var view := WalkAnswerAt(answers, k).view;
       FirstBootstrap(status, pods[k].name, force, view) || Rebootstrap(status, pods[k].name, c, view)
  }

  predicate NoFounder(
    status: Status, pods: seq<Pod>, lo: nat, hi: nat, c: string, force: bool, answers: seq<WalkAnswer>) {
    forall k: nat :: lo <= k < hi ==> !Founds(status, pods, k, c, force, answers)
  }

  lemma {:induction false} FirstFounder(
    status: Status, pods: seq<Pod>, m: nat, c: string, force: bool, answers: seq<WalkAnswer>)
    returns (f: nat)
    requires Founds(status, pods, m, c, force, answers)
    ensures f <= m && Founds(status, pods, f, c, force, answers) && NoFounder(status, pods, 0, f, c, force, answers)
    decreases m
  {
    f := m;
    if k: nat :| k < m && Founds(status, pods, k, c, force, answers) {
      f := FirstFounder(status, pods, k, c, force, answers);
    }
  }

  /** The visit that founds the group. */
  lemma VisitFounding(s: Walk, pods: seq<Pod>, i: nat, c: string, force: bool, answers: seq<WalkAnswer>)
    requires i < |pods| && Deployed(s.net, pods) && !s.failed && Founds(s.status, pods, i, c, force, answers)
    requires WalkAnswerAt(answers, i).(join := HEALTHY_JOIN, view := SeesNone) == HEALTHY_WALK
    requires Dark(s.net) && Crisp(s.net, pods)
    ensures var r := WalkVisit(s, pods[i], c, force, WalkAnswerAt(answers, i));
            && !r.failed && r.dirty && r.status == s.status.(bootstrapped := true, candidate := "")
            && FlagsOff(r.net) && SeedOnline(r.net) && r.net.seeds == s.net.seeds && Crisp(r.net, pods)
            && IsOnline(r.net, pods[i].name)
  {
    assert ApplyEnvs(s.net, []) == s.net;
    var p := pods[i].name;
    QuietBootstrap(s.net, p);
    var r := WalkVisit(s, pods[i], c, force, WalkAnswerAt(answers, i));
    assert r.net == Bootstrap(s.net, p, []).net;
    assert p in r.net.seeds && IsOnline(r.net, p);
  }

  /** A healthy Bootstrap of an offline server succeeds. */
  lemma QuietBootstrap(net: Net, p: string)
    requires At(net, p).member == Offline
    ensures Bootstrap(net, p, []).ok
    ensures Bootstrap(net, p, []).net ==
            Put(net, p, Server(Online(net.nextGroup), false, At(net, p).sets)).(nextGroup := net.nextGroup + 1)
  {
    BootstrapCreatesGroup(net, p, []);
  }

  /** A visit in a total outage to a pod that does not found a group changes nothing. */
  lemma VisitInOutage(s: Walk, pods: seq<Pod>, i: nat, c: string, force: bool, answers: seq<WalkAnswer>)
    requires i < |pods| && Deployed(s.net, pods) && !s.failed && Healthy(WalkAnswerAt(answers, i))
    requires Dark(s.net) && !Founds(s.status, pods, i, c, force, answers)
    ensures var r := WalkVisit(s, pods[i], c, force, WalkAnswerAt(answers, i));
            !r.failed && r.status == s.status && r.dirty == s.dirty && r.net == s.net
  {
    assert ApplyEnvs(s.net, []) == s.net;
    assert FirstLive(s.net, s.net.seeds, {}) < 0;
  }

  /** In a total outage the loop reaches the founding pod with nothing changed. */
  lemma {:induction false} WalkToFounder(
    s: Walk, pods: seq<Pod>, i: nat, m: nat, c: string, force: bool, answers: seq<WalkAnswer>)
    returns (s': Walk)
    requires i <= m < |pods| && Deployed(s.net, pods) && !s.failed
    requires forall k :: i <= k < m ==> Healthy(WalkAnswerAt(answers, k))
    requires Dark(s.net) && NoFounder(s.status, pods, i, m, c, force, answers)
    ensures !s'.failed && s'.net == s.net && s'.status == s.status
    ensures WalkFrom(s, pods, i, c, force, answers) == WalkFrom(s', pods, m, c, force, answers)
    decreases m - i
  {
    s' := s;
    if i < m {
      VisitInOutage(s, pods, i, c, force, answers);
      s' := WalkToFounder(WalkVisit(s, pods[i], c, force, WalkAnswerAt(answers, i)), pods, i + 1, m, c, force, answers);
    }
  }

  /** A loop in a total outage whose pod m founds the group: the pods from m on come
      online, no pod is left half-way, and the status is settled. */
  lemma WalkFounding(s: Walk, pods: seq<Pod>, m: nat, c: string, force: bool, answers: seq<WalkAnswer>)
    requires m < |pods| && Deployed(s.net, pods) && !s.failed && HealthyFrom(answers, m + 1)
    requires forall k :: 0 <= k < m ==> Healthy(WalkAnswerAt(answers, k))
    requires WalkAnswerAt(answers, m).(join := HEALTHY_JOIN, view := SeesNone) == HEALTHY_WALK
    requires Dark(s.net) && Crisp(s.net, pods)
    requires NoFounder(s.status, pods, 0, m, c, force, answers) && Founds(s.status, pods, m, c, force, answers)
    requires c == "" || pods[m].name == c
    ensures var r := WalkFrom(s, pods, 0, c, force, answers);
            && !r.failed && r.dirty && r.status == s.status.(bootstrapped := true, candidate := "")
            && FlagsOff(r.net) && SeedOnline(r.net) && r.net.seeds == s.net.seeds && Crisp(r.net, pods)
            && OnlineFrom(r.net, pods, m)
  {
    var s1 := WalkToFounder(s, pods, 0, m, c, force, answers);
    VisitFounding(s1, pods, m, c, force, answers);
    var s2 := WalkVisit(s1, pods[m], c, force, WalkAnswerAt(answers, m));
    WalkNearGroup(s2, pods, m + 1, c, force, answers);
    assert WalkFrom(s1, pods, m, c, force, answers) == WalkFrom(s2, pods, m + 1, c, force, answers);
  }

  // ---------------------------------------------------------------- one calm pass

  lemma {:induction false} HealthySurveySucceeds(
    s: Survey, pods: seq<Pod>, i: nat, gather: bool, answers: seq<SurveyAnswer>)
    requires !s.failed && forall k :: 0 <= k < |answers| ==> answers[k] == HEALTHY_SURVEY
    ensures !SurveyFrom(s, pods, i, gather, answers).failed
    decreases |pods| - i
  {
    if i < |pods| {
      HealthySurveySucceeds(SurveyVisit(s, pods[i], gather, SurveyAnswerAt(answers, i)), pods, i + 1, gather, answers);
    }
  }

  lemma CalmSurvey(w: World, pods: seq<Pod>, r: Inputs)
    requires Calm(w, pods, r)
    ensures !SurveyOf(w, r).failed && SurveyOf(w, r).net == w.net
    ensures SurveyOf(w, r).anyOnline <==> ReadyOnline(w.net, pods, 0)
    ensures Gathers(w.status) ==> SurveyOf(w, r).infos == OfflineReports(w.net, pods, 0)
  {
    HealthySurveySucceeds(SurveyStart(w), pods, 0, Gathers(r.seen), r.survey);
    SurveyFindsOnline(SurveyStart(w), pods, 0, Gathers(r.seen), r.survey);
    if Gathers(r.seen) {
      SurveyReports(SurveyStart(w), pods, 0, r.survey);
      assert [] + OfflineReports(w.net, pods, 0) == OfflineReports(w.net, pods, 0);
    }
  }

  /** What a calm pass that walks without error does to servers and replication fields. */
  lemma CalmWalkOutcome(w: World, pods: seq<Pod>, r: Inputs)
    requires Calm(w, pods, r) && Walks(w, r) && !WalkOf(w, r).failed
    ensures var k, w' := WalkOf(w, r), Reconcile(w, r);
            && w'.net == k.net
            && w'.status.bootstrapped == (if k.dirty then k.status.bootstrapped else w.status.bootstrapped)
            && w'.status.candidate == (if k.dirty then k.status.candidate else w.status.candidate)
  {
  }

  predicate Settled(w: World, pods: seq<Pod>) {
    Deployed(w.net, pods) && FlagsOff(w.net) && Gathers(w.status) && Crisp(w.net, pods)
  }

  /** A pass over a settled cluster with a live pod brings every pod online, whatever
      the pods see; if all are online already it changes nothing. */
  lemma SettledPass(w: World, pods: seq<Pod>, r: Inputs)
    requires Settled(w, pods) && Quiet(w, pods, r)
    requires exists k :: 0 <= k < |pods| && IsOnline(w.net, pods[k].name)
    ensures var w' := Reconcile(w, r);
            && Settled(w', pods) && OnlineFrom(w'.net, pods, 0)
            && (OnlineFrom(w.net, pods, 0) ==> w'.net == w.net)
  {
    CalmSurvey(w, pods, r);
    var m :| 0 <= m < |pods| && IsOnline(w.net, pods[m].name);
    assert Usable(pods[m]);
    assert ReadyOnline(w.net, pods, 0);
    assert SeedOnline(w.net);
    var s := WalkStart(w, r);
    WalkNearGroup(s, pods, 0, "", r.force, r.walk);
    if OnlineFrom(w.net, pods, 0) {
      WalkOverOnline(s, pods, 0, "", r.force, r.walk);
    }
    assert WalkOf(w, r) == WalkFrom(s, pods, 0, "", r.force, r.walk);
    CalmWalkOutcome(w, pods, r);
  }

  /** The later log extends the earlier one by questions about being online only. */
  predicate AddsQuestions(log: seq<Call>, log': seq<Call>) {
    && |log| <= |log'|
    && (forall k :: 0 <= k < |log| ==> log'[k] == log[k])
    && (forall k :: |log| <= k < |log'| ==> log'[k].Connect? || log'[k].AskSelf? || log'[k].Close?)
  }

  lemma {:induction false} SurveyOnlyAsks(s: Survey, pods: seq<Pod>, i: nat, gather: bool, answers: seq<SurveyAnswer>)
    requires !s.failed && OnlineFrom(s.net, pods, i)
    requires forall k :: 0 <= k < |answers| ==> answers[k] == HEALTHY_SURVEY
    ensures var r := SurveyFrom(s, pods, i, gather, answers);
            AddsQuestions(s.log, r.log) && r.compareOpen == s.compareOpen
    decreases |pods| - i
  {
    if i < |pods| {
      assert ApplyEnvs(s.net, []) == s.net;
      var s' := SurveyVisit(s, pods[i], gather, HEALTHY_SURVEY);
      SurveyVisitLog(s, pods[i], gather, HEALTHY_SURVEY);
      assert AddsQuestions(s.log, s'.log);
      SurveyOnlyAsks(s', pods, i + 1, gather, answers);
    }
  }

  lemma {:induction false} WalkOnlyAsks(
    s: Walk, pods: seq<Pod>, i: nat, c: string, force: bool, answers: seq<WalkAnswer>)
    requires !s.failed && OnlineFrom(s.net, pods, i) && HealthyFrom(answers, i)
    ensures AddsQuestions(s.log, WalkFrom(s, pods, i, c, force, answers).log)
    decreases |pods| - i
  {
    if i < |pods| {
      assert ApplyEnvs(s.net, []) == s.net;
      var a := WalkAnswerAt(answers, i);
      var s' := WalkVisit(s, pods[i], c, force, a);
      WalkVisitLog(s, pods[i], c, force, a);
      assert AddsQuestions(s.log, s'.log);
      WalkOnlyAsks(s', pods, i + 1, c, force, answers);
    }
  }

  lemma ConvergedPassAsks(w: World, pods: seq<Pod>, r: Inputs)
    requires Settled(w, pods) && OnlineFrom(w.net, pods, 0) && Quiet(w, pods, r)
    ensures AddsQuestions(w.log, Reconcile(w, r).log)
  {
    CalmSurvey(w, pods, r);
    assert Usable(pods[0]) && IsOnline(w.net, pods[0].name);
    assert ReadyOnline(w.net, pods, 0);
    LogOutcome(w, r);
    SurveyOnlyAsks(SurveyStart(w), pods, 0, true, r.survey);
    WalkOnlyAsks(WalkStart(w, r), pods, 0, "", r.force, r.walk);
  }

  /** Once every pod is online, any number of further undisturbed passes leaves the
      servers and the replication fields alone and only asks pods whether they are
      online. */
  lemma {:induction false} StaysConverged(w: World, pods: seq<Pod>, rs: seq<Inputs>)
    requires Settled(w, pods) && OnlineFrom(w.net, pods, 0) && QuietRun(w, pods, rs)
    ensures var w' := Passes(w, rs);
            w'.net == w.net && Gathers(w'.status) && AddsQuestions(w.log, w'.log)
    decreases |rs|
  {
    if rs != [] {
      assert IsOnline(w.net, pods[0].name);
      SettledPass(w, pods, rs[0]);
      ConvergedPassAsks(w, pods, rs[0]);
      StaysConverged(Reconcile(w, rs[0]), pods, rs[1..]);
    }
  }

  // ---------------------------------------------------------------- convergence

  /** A pass over a cluster in total outage in which some pod founds the group. */
  lemma FoundingPass(w: World, pods: seq<Pod>, r: Inputs, m: nat) returns (f: nat)
    requires Deployed(w.net, pods) && Dark(w.net) && Crisp(w.net, pods)
    requires StatusOk(w.status) && Unsettled(w.status) && Quiet(w, pods, r)
    requires Founds(w.status, pods, m, w.status.candidate, r.force, r.walk)
    ensures var w' := Reconcile(w, r);
            f < |pods| && Settled(w', pods) && IsOnline(w'.net, pods[f].name) && OnlineFrom(w'.net, pods, f)
  {
    f := FirstFounder(w.status, pods, m, w.status.candidate, r.force, r.walk);
    CalmSurvey(w, pods, r);
    var s := WalkStart(w, r);
    assert NoFounder(s.status, pods, 0, f, w.status.candidate, r.force, r.walk) by {
      forall k: nat | k < f ensures !Founds(s.status, pods, k, w.status.candidate, r.force, r.walk) {
        assert !Founds(w.status, pods, k, w.status.candidate, r.force, r.walk);
      }
    }
    WalkFounding(s, pods, f, w.status.candidate, r.force, r.walk);
    CalmWalkOutcome(w, pods, r);
  }

  /** Two passes, the first of which founds the group, bring every pod online; further
      ones keep it so. */
  lemma FoundedConverges(w: World, pods: seq<Pod>, rs: seq<Inputs>, m: nat)
    requires Deployed(w.net, pods) && Dark(w.net) && Crisp(w.net, pods)
    requires StatusOk(w.status) && Unsettled(w.status) && |rs| >= 2 && QuietRun(w, pods, rs)
    requires Founds(w.status, pods, m, w.status.candidate, rs[0].force, rs[0].walk)
    ensures Settled(Passes(w, rs), pods) && OnlineFrom(Passes(w, rs).net, pods, 0)
  {
    var f := FoundingPass(w, pods, rs[0], m);
    var w1 := Reconcile(w, rs[0]);
    assert rs[1..][0] == rs[1];
    SettledPass(w1, pods, rs[1]);
    var w2 := Reconcile(w1, rs[1]);
    assert rs[1..][1..] == rs[2..];
    StaysConverged(w2, pods, rs[2..]);
    assert Passes(w, rs) == Passes(w1, rs[1..]);
    assert Passes(w1, rs[1..]) == Passes(w2, rs[2..]);
  }

  /** A fresh cluster is entirely online after any two or more undisturbed passes, if in
      the first some pod allowed to bootstrap sees nobody online. */
  lemma FreshConverges(w: World, pods: seq<Pod>, rs: seq<Inputs>, m: nat)
    requires Deployed(w.net, pods) && Dark(w.net) && Crisp(w.net, pods)
    requires !w.status.bootstrapped && w.status.candidate == "" && |rs| >= 2 && QuietRun(w, pods, rs)
    requires m < |pods| && (rs[0].force || PodIdentity.OperatorOrdinal(pods[m].name) == 0)
    requires WalkAnswerAt(rs[0].walk, m).view == SeesNone
    ensures Settled(Passes(w, rs), pods) && OnlineFrom(Passes(w, rs).net, pods, 0)
  {
    FoundedConverges(w, pods, rs, m);
  }

  /** The ready pods of a StatefulSet. */
  function StatefulPods(service: string, replicas: nat): seq<Pod> {
    seq(replicas, i requires 0 <= i < replicas => Pod(PodIdentity.PodName(service, i), true, true))
  }

  lemma StatefulPodsProper(service: string, replicas: nat)
    ensures ProperNames(StatefulPods(service, replicas))
  {
    var pods := StatefulPods(service, replicas);
    forall i, j | 0 <= i < j < replicas ensures pods[i].name != pods[j].name {
      if pods[i].name == pods[j].name {
        PodIdentity.PodNameInjective(service, i, j);
      }
    }
    forall i | 0 <= i < replicas ensures pods[i].name != "" {
      assert |pods[i].name| > 0;
    }
  }

  /** A fresh StatefulSet of any size, whose pods are the seeds, comes up entirely in two
      undisturbed passes without any forced bootstrap, if pod 0 sees nobody online in
      the first: its names are distinct and its pod 0 has ordinal 0. */
  lemma StatefulSetConverges(w: World, service: string, replicas: nat, rs: seq<Inputs>)
    requires service != "" && replicas >= 1
    requires forall i: nat :: i < replicas ==> PodIdentity.PodName(service, i) in w.net.seeds
    requires Dark(w.net) && Crisp(w.net, StatefulPods(service, replicas))
    requires !w.status.bootstrapped && w.status.candidate == ""
    requires |rs| >= 2 && QuietRun(w, StatefulPods(service, replicas), rs)
    requires WalkAnswerAt(rs[0].walk, 0).view == SeesNone
    ensures Gathers(Passes(w, rs).status) && OnlineFrom(Passes(w, rs).net, StatefulPods(service, replicas), 0)
  {
    var pods := StatefulPods(service, replicas);
    StatefulPodsProper(service, replicas);
    PodIdentity.NameRoundTrip(service, 0);
    FreshConverges(w, pods, rs, 0);
  }

  lemma {:induction false} ReportsName(net: Net, pods: seq<Pod>, i: nat, info: GtidInfo) returns (m: nat)
    requires info in OfflineReports(net, pods, i)
    ensures i <= m < |pods| && pods[m].name == info.pod
    decreases |pods| - i
  {
    m := i;
    if info in OfflineReports(net, pods, i + 1) {
      m := ReportsName(net, pods, i + 1, info);
    }
  }

  /** In a total outage a calm pass stores one of the listed pods as the candidate,
      whichever way the sort breaks ties, and touches no server. */
  lemma PickingPass(w: World, pods: seq<Pod>, r: Inputs) returns (m: nat)
    requires Deployed(w.net, pods) && NoneOnline(w.net) && Gathers(w.status) && Calm(w, pods, r)
    ensures var w' := Reconcile(w, r);
            m < |pods| && w'.net == w.net && w'.status.bootstrapped && w'.status.candidate == pods[m].name
  {
    CalmSurvey(w, pods, r);
    assert Usable(pods[0]) && !IsOnline(w.net, pods[0].name);
    SelectsIff(w, r);
    var infos := SurveyOf(w, r).infos;
    PickMeetsSpec(infos, {}, r.tie);
    var i: nat :| RightChoice(infos, i) && infos[i].pod == ChoiceOf(w, r).pod;
    m := ReportsName(w.net, pods, 0, infos[i]);
    PickOutcome(w, r);
    NetOutcome(w, r);
  }

  /** The pod of this name sees nobody online when the loop reaches it. */
  predicate SeesNobody(pods: seq<Pod>, name: string, answers: seq<WalkAnswer>) {
    forall k :: 0 <= k < |pods| && pods[k].name == name ==> WalkAnswerAt(answers, k).view == SeesNone
  }

  /** A bootstrapped cluster in total outage is entirely online after any three or more
      undisturbed passes (pick, found and join, join the rest), if in the second the
      candidate sees nobody online. */
  lemma OutageConverges(w: World, pods: seq<Pod>, rs: seq<Inputs>)
    requires Deployed(w.net, pods) && Dark(w.net) && Crisp(w.net, pods)
    requires Gathers(w.status) && |rs| >= 3 && QuietRun(w, pods, rs)
    requires SeesNobody(pods, Reconcile(w, rs[0]).status.candidate, rs[1].walk)
    ensures Settled(Passes(w, rs), pods) && OnlineFrom(Passes(w, rs).net, pods, 0)
  {
    var m := PickingPass(w, pods, rs[0]);
    var w1 := Reconcile(w, rs[0]);
    assert rs[1..][0] == rs[1];
    assert pods[m].name != "";
    FoundedConverges(w1, pods, rs[1..], m);
  }

  // ---------------------------------------------------------------- a pod that is still recovering

  /** A healthy Bootstrap of a server that is still recovering turns the flag on, fails,
      and leaves it on. */
  lemma RecoveringBootstrapSpoils(net: Net, p: string)
    requires At(net, p).member.Recovering?
    ensures Spoils(net, p, [])
    ensures Bootstrap(net, p, []) == Effect(Put(net, p, At(net, p).(bootstrapFlag := true)), false)
  {
  }

  lemma BootstrapTouchesOne(net: Net, p: string, q: string)
    requires p != q
    ensures At(Bootstrap(net, p, []).net, q) == At(net, q)
  {
  }

  /** No healthy visit, to whichever pod, gets a recovering server out of recovery. */
  lemma VisitLeavesRecovering(s: Walk, pod: Pod, c: string, force: bool, a: WalkAnswer, q: string)
    requires Healthy(a) && At(s.net, q).member.Recovering?
    ensures At(WalkVisit(s, pod, c, force, a).net, q).member == At(s.net, q).member
  {
    assert ApplyEnvs(s.net, []) == s.net;
    if pod.name == q {
      RecoveringBootstrapSpoils(s.net, q);
    } else {
      BootstrapTouchesOne(s.net, pod.name, q);
    }
  }

  lemma {:induction false} WalkLeavesRecovering(
    s: Walk, pods: seq<Pod>, i: nat, c: string, force: bool, answers: seq<WalkAnswer>, q: string)
    requires HealthyFrom(answers, 0) && At(s.net, q).member.Recovering?
    ensures At(WalkFrom(s, pods, i, c, force, answers).net, q).member == At(s.net, q).member
    decreases |pods| - i
  {
    if !s.failed && i < |pods| {
      var a := WalkAnswerAt(answers, i);
      VisitLeavesRecovering(s, pods[i], c, force, a, q);
      WalkLeavesRecovering(WalkVisit(s, pods[i], c, force, a), pods, i + 1, c, force, answers, q);
    }
  }

  /** A recovering server stays so through any number of undisturbed passes. */
  lemma {:induction false} RecoveringStays(w: World, pods: seq<Pod>, rs: seq<Inputs>, q: string)
    requires QuietRun(w, pods, rs) && At(w.net, q).member.Recovering?
    ensures At(Passes(w, rs).net, q).member == At(w.net, q).member
    decreases |rs|
  {
    if rs != [] {
      var r := rs[0];
      CalmSurvey(w, pods, r);
      NetOutcome(w, r);
      WalkLeavesRecovering(WalkStart(w, r), pods, 0, r.seen.candidate, r.force, r.walk, q);
      RecoveringStays(Reconcile(w, r), pods, rs[1..], q);
    }
  }

  lemma RecoveringBlocks(w: World, pods: seq<Pod>, rs: seq<Inputs>)
    requires QuietRun(w, pods, rs) && !Crisp(w.net, pods)
    ensures !OnlineFrom(Passes(w, rs).net, pods, 0)
  {
    var k :| 0 <= k < |pods| && At(w.net, pods[k].name).member.Recovering?;
    RecoveringStays(w, pods, rs, pods[k].name);
  }

  /** From a total outage, three or more undisturbed passes bring every listed pod online
      if and only if none of them is still recovering at the start. */
  lemma OutageConvergesIff(w: World, pods: seq<Pod>, rs: seq<Inputs>)
    requires Deployed(w.net, pods) && Dark(w.net) && Gathers(w.status)
    requires |rs| >= 3 && QuietRun(w, pods, rs)
    requires SeesNobody(pods, Reconcile(w, rs[0]).status.candidate, rs[1].walk)
    ensures OnlineFrom(Passes(w, rs).net, pods, 0) <==> Crisp(w.net, pods)
  {
    if Crisp(w.net, pods) {
      OutageConverges(w, pods, rs);
    } else {
      RecoveringBlocks(w, pods, rs);
    }
  }

  /** With nothing going wrong at all, a pick that names a server still recovering makes
      the next pass fail half-way through its Bootstrap: H5 is broken without a fault. */
  lemma RecoveringPickSpoils(w: World, pods: seq<Pod>, pick: Inputs, boot: Inputs)
    requires Deployed(w.net, pods) && Dark(w.net) && Gathers(w.status)
    requires Quiet(w, pods, pick) && Quiet(Reconcile(w, pick), pods, boot)
    requires var c := Reconcile(w, pick).status.candidate;
             At(w.net, c).member.Recovering? && SeesNobody(pods, c, boot.walk)
    ensures var w1 := Reconcile(w, pick);
            !CleanBootstraps(w1, boot) && At(Reconcile(w1, boot).net, w1.status.candidate).bootstrapFlag
  {
    var m := PickingPass(w, pods, pick);
    var w1 := Reconcile(w, pick);
    var c := pods[m].name;
    assert c != "";
    CalmSurvey(w1, pods, boot);
    var s := WalkStart(w1, boot);
    var s1 := WalkToFounder(s, pods, 0, m, c, boot.force, boot.walk);
    assert ApplyEnvs(s1.net, []) == s1.net;
    RecoveringBootstrapSpoils(s1.net, c);
    var s2 := WalkVisit(s1, pods[m], c, boot.force, WalkAnswerAt(boot.walk, m));
    assert s2.failed && s2.spoiled;
    assert WalkOf(w1, boot) == s2;
    NetOutcome(w1, boot);
  }

  // ---------------------------------------------------------------- a candidate that is gone

  /** A restart is pending. */
  predicate RestartPending(s: Status) {
    s.bootstrapped && s.candidate != ""
  }

  lemma {:induction false} SpentWalkWakesNone(
    s: Walk, pods: seq<Pod>, i: nat, c: string, force: bool, answers: seq<WalkAnswer>)
    requires Spent(s, pods, i, c) && Dark(s.net)
    ensures var r := WalkFrom(s, pods, i, c, force, answers); Dark(r.net)
    decreases |pods| - i
  {
    if !s.failed && i < |pods| {
      var a := WalkAnswerAt(answers, i);
      SpentVisit(s, pods, i, c, force, a);
      SpentVisitWakesNone(s, pods, i, c, force, a);
      SpentWalkWakesNone(WalkVisit(s, pods[i], c, force, a), pods, i + 1, c, force, answers);
    }
  }

  lemma SpentVisitWakesNone(s: Walk, pods: seq<Pod>, i: nat, c: string, force: bool, a: WalkAnswer)
    requires i < |pods| && Spent(s, pods, i, c) && !s.failed && Dark(s.net)
    ensures var r := WalkVisit(s, pods[i], c, force, a); Dark(r.net)
  {
    EnvsKeep(s.net, a.env);
    JoinKeeps(ApplyEnvs(s.net, a.env), pods[i].name, a.join);
    assert Usable(pods[i]) && pods[i].name == c ==> ListedFrom(pods, i, c);
  }

  /** A Reconcile call that does not list the stored candidate among the ready pods
      keeps the candidate, whatever the pods answer and whatever fails. */
  lemma AbsentCandidateKept(w: World, r: Inputs)
    requires RestartPending(w.status) && ReadsStored(w, r) && !ListedFrom(r.pods, 0, w.status.candidate)
    ensures SameReplication(w, Reconcile(w, r))
  {
    if Walks(w, r) {
      SpentWalkCallsNone(WalkStart(w, r), r.pods, 0, w.status.candidate, r.force, r.walk);
    } else {
      OtherOutcome(w, r);
    }
  }

  /** It calls no Bootstrap. */
  lemma AbsentCandidateUncalled(w: World, r: Inputs)
    requires RestartPending(w.status) && ReadsStored(w, r) && !ListedFrom(r.pods, 0, w.status.candidate)
    ensures AddsNoBootstrap(w.log, Reconcile(w, r).log)
  {
    LogOutcome(w, r);
    SurveyNeverBootstraps(SurveyStart(w), r.pods, 0, false, r.survey);
    SpentWalkCallsNone(WalkStart(w, r), r.pods, 0, w.status.candidate, r.force, r.walk);
  }

  /** Nor does it bring a pod online in a total outage. */
  lemma AbsentCandidateWakesNone(w: World, r: Inputs)
    requires RestartPending(w.status) && ReadsStored(w, r) && !ListedFrom(r.pods, 0, w.status.candidate)
    ensures Dark(w.net) ==> Dark(Reconcile(w, r).net)
  {
    if Dark(w.net) {
      NetOutcome(w, r);
      SurveyKeeps(SurveyStart(w), r.pods, 0, false, r.survey);
      SpentWalkWakesNone(WalkStart(w, r), r.pods, 0, w.status.candidate, r.force, r.walk);
    }
  }

  /** Every Reconcile call reads the stored status and none lists this pod as ready. */
  predicate AbsentRun(w: World, es: seq<Event>, pod: string)
    decreases |es|
  {
    es == [] ||
    ((es[0].Loop? ==> ReadsStored(w, es[0].r) && !ListedFrom(es[0].r.pods, 0, pod))
     && AbsentRun(Step(w, es[0]), es[1..], pod))
  }

  /** A candidate that is gone, after a scale-down for example, makes a total outage
      permanent: no run in which it is never listed calls Bootstrap, picks another
      candidate or brings a pod online, whatever the environment does. */
  lemma {:induction false} AbsentCandidateBlocks(w: World, es: seq<Event>)
    requires RestartPending(w.status) && AbsentRun(w, es, w.status.candidate)
    ensures SameReplication(w, Exec(w, es)) && AddsNoBootstrap(w.log, Exec(w, es).log)
    ensures Dark(w.net) ==> Dark(Exec(w, es).net)
    decreases |es|
  {
    if es != [] {
      if es[0].Loop? {
        AbsentCandidateKept(w, es[0].r);
        AbsentCandidateUncalled(w, es[0].r);
        AbsentCandidateWakesNone(w, es[0].r);
      } else if Dark(w.net) {
        EnvKeeps(w.net, es[0].e);
      }
      AbsentCandidateBlocks(Step(w, es[0]), es[1..]);
    }
  }

  lemma {:induction false} AbsentCandidatePasses(w: World, pods: seq<Pod>, rs: seq<Inputs>)
    requires RestartPending(w.status) && Dark(w.net) && QuietRun(w, pods, rs)
    requires !ListedFrom(pods, 0, w.status.candidate)
    ensures Dark(Passes(w, rs).net)
    decreases |rs|
  {
    if rs != [] {
      AbsentCandidateKept(w, rs[0]);
      AbsentCandidateWakesNone(w, rs[0]);
      AbsentCandidatePasses(Reconcile(w, rs[0]), pods, rs[1..]);
    }
  }

  /** With a restart pending, two or more undisturbed passes bring every listed pod online
      if and only if the candidate is one of them and none is still recovering. */
  lemma PendingConvergesIff(w: World, pods: seq<Pod>, rs: seq<Inputs>)
    requires Deployed(w.net, pods) && Dark(w.net) && RestartPending(w.status)
    requires |rs| >= 2 && QuietRun(w, pods, rs)
    requires SeesNobody(pods, w.status.candidate, rs[0].walk)
    ensures OnlineFrom(Passes(w, rs).net, pods, 0) <==>
            ListedFrom(pods, 0, w.status.candidate) && Crisp(w.net, pods)
  {
    if !Crisp(w.net, pods) {
      RecoveringBlocks(w, pods, rs);
    } else if ListedFrom(pods, 0, w.status.candidate) {
      var m: nat :| m < |pods| && Usable(pods[m]) && pods[m].name == w.status.candidate;
      FoundedConverges(w, pods, rs, m);
    } else {
      AbsentCandidatePasses(w, pods, rs);
      assert !IsOnline(Passes(w, rs).net, pods[0].name);
    }
  }

  // ---------------------------------------------------------------- from every reachable state

  /** The founder's own view, in the pass that is to found the group: the first one when
      the status allows a Bootstrap already, the second after a pick. */
  ghost predicate FounderSeesNobody(w: World, pods: seq<Pod>, rs: seq<Inputs>) {
    && |rs| >= 2
    && (Unsettled(w.status) ==>
          exists m: nat :: Founds(w.status, pods, m, w.status.candidate, rs[0].force, rs[0].walk))
    && (Gathers(w.status) && NoneOnline(w.net) ==>
          SeesNobody(pods, Reconcile(w, rs[0]).status.candidate, rs[1].walk))
  }

  /** Convergence from every state that meets the joint invariant. */
  lemma InvariantConverges(w: World, pods: seq<Pod>, rs: seq<Inputs>)
    requires Inv(w) && Deployed(w.net, pods) && OnlineAhead(w.net, pods, 0) && Crisp(w.net, pods)
    requires |rs| >= 3 && QuietRun(w, pods, rs) && FounderSeesNobody(w, pods, rs)
    ensures Settled(Passes(w, rs), pods) && OnlineFrom(Passes(w, rs).net, pods, 0)
  {
    if Unsettled(w.status) {
      var m: nat :| Founds(w.status, pods, m, w.status.candidate, rs[0].force, rs[0].walk);
      FoundedConverges(w, pods, rs, m);
    } else if NoneOnline(w.net) {
      OutageConverges(w, pods, rs);
    } else {
      var p :| p in w.net.servers && w.net.servers[p].member.Online?;
      assert ListedFrom(pods, 0, p);
      SettledPass(w, pods, rs[0]);
      StaysConverged(Reconcile(w, rs[0]), pods, rs[1..]);
    }
  }

  /** From wherever a run of any length left the cluster, three or more undisturbed passes
      that list every online pod bring every listed pod online if and only if none of
      them is still recovering at that point. */
  lemma ReachableConvergesIff(start: World, es: seq<Event>, pods: seq<Pod>, rs: seq<Inputs>)
    requires Fresh(start) && GoodRun(start, es)
    requires Deployed(Exec(start, es).net, pods) && OnlineAhead(Exec(start, es).net, pods, 0)
    requires |rs| >= 3 && QuietRun(Exec(start, es), pods, rs) && FounderSeesNobody(Exec(start, es), pods, rs)
    ensures OnlineFrom(Passes(Exec(start, es), rs).net, pods, 0) <==> Crisp(Exec(start, es).net, pods)
    ensures Crisp(Exec(start, es).net, pods) ==> Gathers(Passes(Exec(start, es), rs).status)
  {
    FreshInv(start);
    RunSafe(start, es);
    if Crisp(Exec(start, es).net, pods) {
      InvariantConverges(Exec(start, es), pods, rs);
    } else {
      RecoveringBlocks(Exec(start, es), pods, rs);
    }
  }

  // ---------------------------------------------------------------- when a lone join is refused

  /** START GROUP_REPLICATION on this pod is refused, as MySQL does while there is no
      group to join. */
  predicate RefusesJoin(a: WalkAnswer) {
    a.view != ViewError && a == HEALTHY_WALK.(view := a.view, join := HEALTHY_JOIN.(reply := Failed))
  }

  /** A calm pass in which the first listed pod's join is refused. */
  predicate Refused(w: World, pods: seq<Pod>, r: Inputs) {
    Calm(w, pods, r) && |r.walk| >= 1 && RefusesJoin(r.walk[0]) && HealthyFrom(r.walk, 1)
  }

  predicate RefusedRun(w: World, pods: seq<Pod>, rs: seq<Inputs>)
    decreases |rs|
  {
    rs == [] || (Refused(w, pods, rs[0]) && RefusedRun(Reconcile(w, rs[0]), pods, rs[1..]))
  }

  /** The first pod only tries to join: the loop ends there with an error. */
  lemma RefusedWalkStops(s: Walk, pods: seq<Pod>, c: string, force: bool, answers: seq<WalkAnswer>)
    requires Deployed(s.net, pods) && !s.failed && !Founds(s.status, pods, 0, c, force, answers)
    requires |answers| >= 1 && RefusesJoin(answers[0]) && At(s.net, pods[0].name).member == Offline
    ensures var r := WalkFrom(s, pods, 0, c, force, answers);
            r.failed && r.dirty == s.dirty && r.net == s.net && r.status == s.status && r.founders == s.founders
  {
    assert ApplyEnvs(s.net, []) == s.net;
    var s' := WalkVisit(s, pods[0], c, force, answers[0]);
    assert s'.failed;
  }

  /** With lone joins refused, a pass in a total outage brings the cluster up at once if
      the first listed pod is the one to found the group, and otherwise changes
      neither the servers nor the replication fields. */
  lemma RefusedPassFoundsIff(w: World, pods: seq<Pod>, r: Inputs)
    requires Deployed(w.net, pods) && Dark(w.net) && Crisp(w.net, pods)
    requires StatusOk(w.status) && Unsettled(w.status) && Refused(w, pods, r)
    ensures var w' := Reconcile(w, r);
            if Founds(w.status, pods, 0, w.status.candidate, r.force, r.walk)
            then Settled(w', pods) && OnlineFrom(w'.net, pods, 0)
            else w'.net == w.net && SameReplication(w, w')
  {
    CalmSurvey(w, pods, r);
    assert Walks(w, r);
    var s := WalkStart(w, r);
    NetOutcome(w, r);
    if Founds(w.status, pods, 0, w.status.candidate, r.force, r.walk) {
      WalkFounding(s, pods, 0, w.status.candidate, r.force, r.walk);
      CalmWalkOutcome(w, pods, r);
    } else {
      RefusedWalkStops(s, pods, w.status.candidate, r.force, r.walk);
    }
  }

  /** Under the same refusals, a pending candidate that is not the first listed pod is
      never reached: the outage lasts through any number of passes. */
  lemma {:induction false} RefusedJoinsBlock(w: World, pods: seq<Pod>, rs: seq<Inputs>)
    requires Deployed(w.net, pods) && Dark(w.net) && Crisp(w.net, pods)
    requires RestartPending(w.status) && w.status.candidate != pods[0].name
    requires RefusedRun(w, pods, rs)
    ensures Passes(w, rs).net == w.net && SameReplication(w, Passes(w, rs))
    decreases |rs|
  {
    if rs != [] {
      RefusedPassFoundsIff(w, pods, rs[0]);
      RefusedJoinsBlock(Reconcile(w, rs[0]), pods, rs[1..]);
    }
  }
}
