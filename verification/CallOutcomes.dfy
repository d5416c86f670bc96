/**
 What one Reconcile call does, told from its inputs alone: which pods it may contact and
 bootstrap, when its loops end in an error, what its survey reports, which status it
 stores, and which pod founds the first group of an unforced cluster.
 */
module CallOutcomes {
  import opened RestartCandidate
  import opened Servers
  import opened Protocol
  import opened Handles
  import opened Safety
  import PodIdentity

  // ---------------------------------------------------------------- when a visit fails

  /** A survey visit fails exactly when a ready pod with an address cannot be reached, does
      not say whether it is online, or, asked for its transactions, does not tell them or
      is the first to tell them and the compare connection cannot be opened. */
  lemma SurveyVisitFailsIff(s: Survey, pod: Pod, gather: bool, a: SurveyAnswer)
    requires !s.failed
    ensures SurveyVisit(s, pod, gather, a).failed <==>
            && pod.ready && pod.hasIP
            && (|| !a.connect || !a.self
                || (&& gather && !At(ApplyEnvs(s.net, a.env), pod.name).member.Online?
                    && (!a.gtid || (!s.compareOpen && !a.open))))
  {
  }

  /** The status lets this pod be bootstrapped. */
  predicate MayBoot(status: Status, candidate: string, force: bool, p: string) {
    if status.bootstrapped then candidate != "" && p == candidate
    else force || PodIdentity.OperatorOrdinal(p) == 0
  }

  /** The visit gets as far as choosing between Bootstrap and Join. */
  predicate Chooses(s: Walk, pod: Pod, a: WalkAnswer) {
    && pod.ready && pod.hasIP && a.connect && a.self && a.user && a.view != ViewError
    && !At(ApplyEnvs(s.net, a.env), pod.name).member.Online?
  }

  /** A visit of the pod loop calls Bootstrap exactly when it gets that far, the pod sees
      nobody online and the status lets it be bootstrapped. */
  lemma VisitCallsIff(s: Walk, pod: Pod, c: string, force: bool, a: WalkAnswer)
    ensures Boots(WalkVisit(s, pod, c, force, a).log) == Boots(s.log) +
            if Chooses(s, pod, a) && a.view == SeesNone && MayBoot(s.status, c, force, pod.name) then 1 else 0
  {
    VisitBoots(s, pod, c, force, a);
  }

  /** A visit of the pod loop fails exactly when a question to a ready pod with an address
      fails, or the Bootstrap or Join it then calls does. */
  lemma WalkVisitFailsIff(s: Walk, pod: Pod, c: string, force: bool, a: WalkAnswer)
    requires !s.failed
    ensures var net := ApplyEnvs(s.net, a.env);
            WalkVisit(s, pod, c, force, a).failed <==>
            && pod.ready && pod.hasIP
            && (|| !a.connect || !a.self
                || (&& !At(net, pod.name).member.Online?
                    && (|| !a.user || a.view == ViewError
                        || (if a.view == SeesNone && MayBoot(s.status, c, force, pod.name)
                            then !Bootstrap(net, pod.name, a.boot).ok
                            else !Join(net, pod.name, a.join).ok))))
  {
  }

  /** A join answered with error 3663 does not end the loop: the visit is as if the pod had
      been skipped, but for the calls. */
  lemma BusyJoinGoesOn(s: Walk, pod: Pod, c: string, force: bool, a: WalkAnswer)
    requires !s.failed && Chooses(s, pod, a) && !(a.view == SeesNone && MayBoot(s.status, c, force, pod.name))
    requires a.join.reply == Busy && a.join.state != StateError
    ensures var r := WalkVisit(s, pod, c, force, a);
            !r.failed && r.net == ApplyEnvs(s.net, a.env) && r.status == s.status && r.dirty == s.dirty
  {
    JoinResult(ApplyEnvs(s.net, a.env), pod.name, a.join);
  }

  // ---------------------------------------------------------------- which calls are made

  /** A ready pod with an address is listed under this name, and in this pass it sees
      nobody online where that is asked for. */
  predicate Listed(r: Inputs, name: string, alone: bool) {
    exists k :: 0 <= k < |r.pods| && r.pods[k].ready && r.pods[k].hasIP && r.pods[k].name == name
                && (alone ==> WalkAnswerAt(r.walk, k).view == SeesNone)
  }

  /** What the status read licenses: ordinal 0 or a forced bootstrap while none is
      recorded, and otherwise the candidate alone. */
  predicate Licensed(seen: Status, force: bool, p: string) {
    || (!seen.bootstrapped && (force || PodIdentity.OperatorOrdinal(p) == 0))
    || (seen.candidate != "" && p == seen.candidate)
  }

  predicate Allowed(r: Inputs, c: Call) {
    match c
    case OpenCompare => true
    case CloseCompare => true
    case CallBootstrap(p) => Listed(r, p, true) && Licensed(r.seen, r.force, p)
    case _ => Listed(r, c.pod, false)
  }

  predicate AddsAllowed(r: Inputs, log: seq<Call>, log': seq<Call>) {
    log <= log' && forall k :: |log| <= k < |log'| ==> Allowed(r, log'[k])
  }

  lemma AddsMore(r: Inputs, log: seq<Call>, log': seq<Call>, d: seq<Call>)
    requires AddsAllowed(r, log, log') && forall k :: 0 <= k < |d| ==> Allowed(r, d[k])
    ensures AddsAllowed(r, log, log' + d)
  {
  }

  lemma {:induction false} SurveyAllowed(w: World, r: Inputs, s: Survey, i: nat, gather: bool)
    requires AddsAllowed(r, w.log, s.log)
    ensures AddsAllowed(r, w.log, SurveyFrom(s, r.pods, i, gather, r.survey).log)
    decreases |r.pods| - i
  {
    if !s.failed && i < |r.pods| {
      var a := SurveyAnswerAt(r.survey, i);
      var d := SurveyCalls(s, r.pods[i], gather, a);
      SurveyVisitLog(s, r.pods[i], gather, a);
      assert d != [] ==> Listed(r, r.pods[i].name, false);
      AddsMore(r, w.log, s.log, d);
      SurveyAllowed(w, r, SurveyVisit(s, r.pods[i], gather, a), i + 1, gather);
    }
  }

  lemma WalkCallsAllowed(r: Inputs, s: Walk, i: nat, a: WalkAnswer)
    requires i < |r.pods| && a == WalkAnswerAt(r.walk, i) && (r.seen.bootstrapped ==> s.status.bootstrapped)
    ensures var d := WalkCalls(s, r.pods[i], r.seen.candidate, r.force, a);
            forall k :: 0 <= k < |d| ==> Allowed(r, d[k])
  {
    var d := WalkCalls(s, r.pods[i], r.seen.candidate, r.force, a);
    assert d != [] ==> Listed(r, r.pods[i].name, false);
    assert d != [] && a.view == SeesNone ==> Listed(r, r.pods[i].name, true);
  }

  lemma {:induction false} WalkAllowed(w: World, r: Inputs, s: Walk, i: nat)
    requires AddsAllowed(r, w.log, s.log) && (r.seen.bootstrapped ==> s.status.bootstrapped)
    ensures AddsAllowed(r, w.log, WalkFrom(s, r.pods, i, r.seen.candidate, r.force, r.walk).log)
    decreases |r.pods| - i
  {
    if !s.failed && i < |r.pods| {
      var a := WalkAnswerAt(r.walk, i);
      WalkVisitLog(s, r.pods[i], r.seen.candidate, r.force, a);
      WalkCallsAllowed(r, s, i, a);
      AddsMore(r, w.log, s.log, WalkCalls(s, r.pods[i], r.seen.candidate, r.force, a));
      WalkAllowed(w, r, WalkVisit(s, r.pods[i], r.seen.candidate, r.force, a), i + 1);
    }
  }

  /** Every call a Reconcile call makes, whatever the answers, goes to a listed pod that is
      ready and has an address; and it calls Bootstrap only on a pod that sees nobody online
      and is the candidate read, or has ordinal 0 or is forced while the status read records
      no bootstrap. */
  lemma CallsAllowed(w: World, r: Inputs)
    ensures AddsAllowed(r, w.log, Reconcile(w, r).log)
  {
    LogOutcome(w, r);
    var s := SurveyOf(w, r);
    SurveyAllowed(w, r, SurveyStart(w), 0, Gathers(r.seen));
    WalkAllowed(w, r, WalkStart(w, r), 0);
    AddsMore(r, w.log, s.log, CloseCompareOf(s));
    AddsMore(r, w.log, WalkOf(w, r).log, CloseCompareOf(s));
  }

  // ---------------------------------------------------------------- the first founder

  /** An unforced loop on a status that records nothing: its first founder is a listed pod
      of ordinal 0, and without one it leaves the status alone. */
  lemma {:induction false} UnforcedWalk(s: Walk, pods: seq<Pod>, i: nat, answers: seq<WalkAnswer>)
    requires s.founders == [] ==> !s.status.bootstrapped && s.status.candidate == "" && !s.dirty
    requires s.founders != [] ==> ZeroAmong(pods, s.founders[0].pod)
    ensures var r := WalkFrom(s, pods, i, "", false, answers);
            && (r.founders == [] ==> !r.status.bootstrapped && r.status.candidate == "" && !r.dirty)
            && (r.founders != [] ==> ZeroAmong(pods, r.founders[0].pod))
    decreases |pods| - i
  {
    if !s.failed && i < |pods| {
      var s' := WalkVisit(s, pods[i], "", false, WalkAnswerAt(answers, i));
      assert s.founders == [] && s'.founders != [] ==> s'.founders[0].pod == pods[i].name;
      UnforcedWalk(s', pods, i + 1, answers);
    }
  }

  predicate ZeroAmong(pods: seq<Pod>, name: string) {
    PodIdentity.OperatorOrdinal(name) == 0 && exists k :: 0 <= k < |pods| && pods[k].name == name
  }

  /** Every listed pod carries a StatefulSet name of this service. */
  ghost predicate Stateful(pods: seq<Pod>, service: string) {
    forall k :: 0 <= k < |pods| ==> exists i: nat :: pods[k].name == PodIdentity.PodName(service, i)
  }

  /** Nothing is recorded and nothing founded, or pod 0 founded the first group. */
  predicate FoundedByZero(w: World, service: string) {
    if w.founders == [] then !w.status.bootstrapped && w.status.candidate == ""
    else w.founders[0].pod == PodIdentity.PodName(service, 0)
  }

  lemma ZeroIsPodZero(pods: seq<Pod>, service: string, name: string)
    requires Stateful(pods, service) && ZeroAmong(pods, name)
    ensures name == PodIdentity.PodName(service, 0)
  {
    var k :| 0 <= k < |pods| && pods[k].name == name;
    var i: nat :| pods[k].name == PodIdentity.PodName(service, i);
    PodIdentity.PodZeroIff(service, i);
  }

  lemma UnforcedCall(w: World, r: Inputs, service: string)
    requires FoundedByZero(w, service) && ReadsStored(w, r) && !r.force && Stateful(r.pods, service)
    ensures FoundedByZero(Reconcile(w, r), service)
  {
    FoundersOutcome(w, r);
    if Walks(w, r) {
      WalkRecords(WalkStart(w, r), r.pods, 0, r.seen.candidate, r.force, r.walk);
      if w.founders == [] {
        UnforcedWalk(WalkStart(w, r), r.pods, 0, r.walk);
        if WalkOf(w, r).founders != [] {
          ZeroIsPodZero(r.pods, service, WalkOf(w, r).founders[0].pod);
        }
      }
    } else if w.founders == [] {
      OtherOutcome(w, r);
    }
  }

  ghost predicate UnforcedRun(w: World, es: seq<Event>, service: string)
    decreases |es|
  {
    es == [] ||
    ((es[0].Loop? ==> ReadsStored(w, es[0].r) && !es[0].r.force && Stateful(es[0].r.pods, service))
     && UnforcedRun(Step(w, es[0]), es[1..], service))
  }

  lemma {:induction false} UnforcedRunKeeps(w: World, es: seq<Event>, service: string)
    requires FoundedByZero(w, service) && UnforcedRun(w, es, service)
    ensures FoundedByZero(Exec(w, es), service)
    decreases |es|
  {
    if es != [] {
      if es[0].Loop? {
        UnforcedCall(w, es[0].r, service);
      }
      UnforcedRunKeeps(Step(w, es[0]), es[1..], service);
    }
  }

  /** In every unforced run of a StatefulSet from a fresh cluster, whatever fails, pod 0 is
      the founder of the first group, and nothing is recorded before it is founded. */
  lemma PodZeroFoundsFirst(w: World, es: seq<Event>, service: string)
    requires Fresh(w) && UnforcedRun(w, es, service)
    ensures Exec(w, es).founders != [] ==> Exec(w, es).founders[0].pod == PodIdentity.PodName(service, 0)
    ensures Exec(w, es).founders == [] ==> !Exec(w, es).status.bootstrapped && Exec(w, es).status.candidate == ""
  {
    UnforcedRunKeeps(w, es, service);
  }

  // ---------------------------------------------------------------- the status a call stores

  /** The pass ends in an error. */
  predicate PassErrs(w: World, r: Inputs) {
    || !r.loads || SurveyOf(w, r).failed
    || (Selects(w, r) && !ChoiceOf(w, r).Chosen?)
    || (Walks(w, r) && WalkOf(w, r).failed)
  }

  /** A Bootstrap succeeded in the pass. */
  predicate PassFounds(w: World, r: Inputs) {
    Walks(w, r) && |WalkOf(w, r).founders| > |w.founders|
  }

  lemma {:induction false} WalkRecords(
    s: Walk, pods: seq<Pod>, i: nat, c: string, force: bool, answers: seq<WalkAnswer>)
    ensures var r := WalkFrom(s, pods, i, c, force, answers);
            && s.founders <= r.founders
            && (r.dirty <==> s.dirty || |r.founders| > |s.founders|)
            && r.status == if |r.founders| > |s.founders| then s.status.(bootstrapped := true, candidate := "")
                           else s.status
    decreases |pods| - i
  {
    if !s.failed && i < |pods| {
      WalkRecords(WalkVisit(s, pods[i], c, force, WalkAnswerAt(answers, i)), pods, i + 1, c, force, answers);
    }
  }

  /** The status in memory when the pass ends, but for the phase. */
  function InMemory(w: World, r: Inputs): Status {
    if PassFounds(w, r) then r.seen.(bootstrapped := true, candidate := "") else r.seen
  }

  /** The phase write, which comes before the pass, lands and changes the object. */
  predicate PhaseMoves(w: World, r: Inputs) {
    r.phaseLands && (r.touches || w.status != r.seen.(phase := Ready))
  }

  /** The stored status after a call that never gets to the pass: none, the degraded one when
      failStatus is accepted for the version read, or the pending one. */
  lemma StatusWithoutPass(w: World, r: Inputs)
    requires r.early != Proceed || r.gate != AllReady
    ensures var w' := Reconcile(w, r);
            match (r.early, r.gate)
            case (Requeued, _) => w' == w
            case (FailsEarly, _) =>
              w'.status == if r.failLands && r.version == w.version then r.seen.(phase := Degraded) else w.status
            case (Proceed, NoStatefulSet) => w' == w
            case (Proceed, _) => w'.status == if r.phaseLands then r.seen.(phase := Pending) else w.status
  {
  }

  /** The stored status after the phase write. */
  function Phased(w: World, r: Inputs): Status {
    if r.phaseLands then r.seen.(phase := Ready) else w.status
  }

  predicate Degrades(w: World, r: Inputs) {
    r.failLands && r.version == w.version + (if PhaseMoves(w, r) then 1 else 0)
  }

  lemma StatusAfterError(w: World, r: Inputs)
    requires r.early == Proceed && r.gate == AllReady && PassErrs(w, r)
    ensures Reconcile(w, r).status ==
            if Degrades(w, r) then InMemory(w, r).(phase := Degraded) else Phased(w, r)
  {
    if Walks(w, r) {
      WalkRecords(WalkStart(w, r), r.pods, 0, r.seen.candidate, r.force, r.walk);
    }
  }

  lemma StatusAfterWalk(w: World, r: Inputs)
    requires Walks(w, r) && !PassErrs(w, r)
    ensures Reconcile(w, r).status ==
            if PassFounds(w, r) && r.walkLands then InMemory(w, r).(phase := Ready) else Phased(w, r)
  {
    WalkRecords(WalkStart(w, r), r.pods, 0, r.seen.candidate, r.force, r.walk);
  }

  /** The stored status after a pass. Without an error it is Ready, with the candidate picked
      or the group founded when that write lands; with one it is Degraded exactly when the
      version read is still stored and the write accepted. */
  lemma StatusAfterPass(w: World, r: Inputs)
    requires r.early == Proceed && r.gate == AllReady
    ensures Reconcile(w, r).status ==
            if PassErrs(w, r) then (if Degrades(w, r) then InMemory(w, r).(phase := Degraded) else Phased(w, r))
            else if Selects(w, r) && r.pickLands then r.seen.(phase := Ready, candidate := ChoiceOf(w, r).pod)
            else if PassFounds(w, r) && r.walkLands then InMemory(w, r).(phase := Ready)
            else Phased(w, r)
  {
    if PassErrs(w, r) {
      StatusAfterError(w, r);
    } else if !Selects(w, r) {
      StatusAfterWalk(w, r);
    }
  }

  /** A call never takes the version back, and one that keeps it keeps the status. */
  lemma VersionKeepsStatus(w: World, r: Inputs)
    ensures w.version <= Reconcile(w, r).version
    ensures Reconcile(w, r).version == w.version ==> Reconcile(w, r).status == w.status
  {
  }

  /** So between two points of a run, stale reads and lost writes included, an equal version
      means that no status was stored: refusing updates by version is sound. */
  lemma {:induction false} VersionNamesStatus(w: World, es: seq<Event>)
    ensures w.version <= Exec(w, es).version
    ensures Exec(w, es).version == w.version ==> Exec(w, es).status == w.status
    decreases |es|
  {
    if es != [] {
      if es[0].Loop? {
        VersionKeepsStatus(w, es[0].r);
      }
      VersionNamesStatus(Step(w, es[0]), es[1..]);
    }
  }

  /** The call gets to the phase write, and it lands together with other fields. */
  predicate Touches(r: Inputs) {
    r.early == Proceed && r.gate != NoStatefulSet && r.phaseLands && r.touches
  }

  lemma VersionAfterWalk(w: World, r: Inputs)
    requires ReadsStored(w, r) && StatusOk(w.status) && ProperNames(r.pods) && Walks(w, r)
    ensures Reconcile(w, r).version == w.version <==> Reconcile(w, r).status == w.status && !Touches(r)
  {
    WalkRecords(WalkStart(w, r), r.pods, 0, r.seen.candidate, r.force, r.walk);
    PassWalkStatus(w, r);
  }

  /** Under H1 the version stays exactly when the call stores nothing new. */
  lemma VersionStaysIff(w: World, r: Inputs)
    requires ReadsStored(w, r) && StatusOk(w.status) && ProperNames(r.pods)
    ensures Reconcile(w, r).version == w.version <==> Reconcile(w, r).status == w.status && !Touches(r)
  {
    if Selects(w, r) && ChoiceOf(w, r).Chosen? {
      ChoiceHasName(w, r);
    }
    if Walks(w, r) {
      VersionAfterWalk(w, r);
    }
  }

  // ---------------------------------------------------------------- what the survey reports

  /** The survey when it comes to the k-th listed pod. */
  function SurveyBefore(w: World, r: Inputs, k: nat): Survey
    requires k <= |r.pods|
  {
    SurveyFrom(SurveyStart(w), r.pods[..k], 0, Gathers(r.seen), r.survey)
  }

  /** The servers when the k-th listed pod is asked. */
  function AskedNet(w: World, r: Inputs, k: nat): Net
    requires k < |r.pods|
  {
    ApplyEnvs(SurveyBefore(w, r, k).net, SurveyAnswerAt(r.survey, k).env)
  }

  /** What the server of the k-th listed pod holds when it is asked. */
  function Held(w: World, r: Inputs, k: nat): GtidSets
    requires k < |r.pods|
  {
    At(AskedNet(w, r, k), r.pods[k].name).sets
  }

  /** The k-th listed pod is ready, has an address and is online when it is asked. */
  predicate FoundOnline(w: World, r: Inputs, k: nat)
    requires k < |r.pods|
  {
    r.pods[k].ready && r.pods[k].hasIP && At(AskedNet(w, r, k), r.pods[k].name).member.Online?
  }

  /** It is ready, has an address and is not online. */
  predicate FoundDown(w: World, r: Inputs, k: nat)
    requires k < |r.pods|
  {
    r.pods[k].ready && r.pods[k].hasIP && !At(AskedNet(w, r, k), r.pods[k].name).member.Online?
  }

  /** The reports due from the first k pods: name, ordinal and both sets, in list order. */
  function Reports(w: World, r: Inputs, k: nat): seq<GtidInfo>
    requires k <= |r.pods|
  {
    if k == 0 then []
    else
      var name := r.pods[k - 1].name;
      Reports(w, r, k - 1) +
      if FoundDown(w, r, k - 1) then [GtidInfo(name, PodIdentity.OperatorOrdinal(name), Held(w, r, k - 1))] else []
  }

  lemma {:induction false} SurveyLast(
    s: Survey, front: seq<Pod>, last: Pod, i: nat, gather: bool, answers: seq<SurveyAnswer>)
    requires i <= |front|
    ensures var t := SurveyFrom(s, front, i, gather, answers);
            SurveyFrom(s, front + [last], i, gather, answers) ==
            if t.failed then t else SurveyVisit(t, last, gather, SurveyAnswerAt(answers, |front|))
    decreases |front| - i
  {
    if !s.failed && i < |front| {
      var s' := SurveyVisit(s, front[i], gather, SurveyAnswerAt(answers, i));
      SurveyLast(s', front, last, i + 1, gather, answers);
    } else if !s.failed {
      var s' := SurveyVisit(s, last, gather, SurveyAnswerAt(answers, i));
      assert SurveyFrom(s, front + [last], i, gather, answers)
          == SurveyFrom(s', front + [last], i + 1, gather, answers);
    }
  }

  lemma SurveyNext(w: World, r: Inputs, k: nat)
    requires k < |r.pods|
    ensures var t := SurveyBefore(w, r, k);
            SurveyBefore(w, r, k + 1) ==
            if t.failed then t else SurveyVisit(t, r.pods[k], Gathers(r.seen), SurveyAnswerAt(r.survey, k))
  {
    assert r.pods[..k + 1] == r.pods[..k] + [r.pods[k]];
    SurveyLast(SurveyStart(w), r.pods[..k], r.pods[k], 0, Gathers(r.seen), r.survey);
  }

  /** One visit without error: it meets an online pod, or adds the report due. */
  lemma SurveyVisitExact(s: Survey, pod: Pod, gather: bool, a: SurveyAnswer)
    requires !SurveyVisit(s, pod, gather, a).failed && (s.compareOpen <==> s.infos != [])
    ensures var s', server := SurveyVisit(s, pod, gather, a), At(ApplyEnvs(s.net, a.env), pod.name);
            && (s'.anyOnline <==> s.anyOnline || (pod.ready && pod.hasIP && server.member.Online?))
            && s'.infos == s.infos +
               (if gather && pod.ready && pod.hasIP && !server.member.Online?
                then [GtidInfo(pod.name, PodIdentity.OperatorOrdinal(pod.name), server.sets)] else [])
            && (s'.compareOpen <==> s'.infos != [])
  {
    assert s.infos + [] == s.infos;
  }

  /** Up to each pod, whatever happens between the questions, a survey without error has met
      an online pod exactly when one was online as it was asked; it has the reports due
      from the others, when it gathers them at all, and the compare connection open
      exactly when there are any. */
  lemma {:induction false} SurveyExact(w: World, r: Inputs, k: nat)
    requires k <= |r.pods| && !SurveyBefore(w, r, k).failed
    ensures var s := SurveyBefore(w, r, k);
            && (s.anyOnline <==> exists j: nat :: j < k && FoundOnline(w, r, j))
            && s.infos == (if Gathers(r.seen) then Reports(w, r, k) else [])
            && (s.compareOpen <==> s.infos != [])
    decreases k
  {
    if k > 0 {
      SurveyNext(w, r, k - 1);
      SurveyExact(w, r, k - 1);
      var t := SurveyBefore(w, r, k - 1);
      SurveyVisitExact(t, r.pods[k - 1], Gathers(r.seen), SurveyAnswerAt(r.survey, k - 1));
      assert SurveyBefore(w, r, k).anyOnline <==> t.anyOnline || FoundOnline(w, r, k - 1);
    }
  }

  /** The questions to the k-th pod fail. */
  predicate QuestionsFail(w: World, r: Inputs, k: nat)
    requires k < |r.pods|
  {
    var a := SurveyAnswerAt(r.survey, k);
    && r.pods[k].ready && r.pods[k].hasIP
    && (|| !a.connect || !a.self
        || (Gathers(r.seen) && FoundDown(w, r, k) && (!a.gtid || (!a.open && SurveyBefore(w, r, k).infos == []))))
  }

  lemma QuestionsDecide(w: World, r: Inputs, k: nat)
    requires k < |r.pods| && !SurveyBefore(w, r, k).failed
    ensures SurveyBefore(w, r, k + 1).failed <==> QuestionsFail(w, r, k)
  {
    SurveyNext(w, r, k);
    SurveyExact(w, r, k);
    SurveyVisitFailsIff(SurveyBefore(w, r, k), r.pods[k], Gathers(r.seen), SurveyAnswerAt(r.survey, k));
  }

  lemma {:induction false} SurveyFailsBefore(w: World, r: Inputs, k: nat)
    requires k <= |r.pods|
    ensures SurveyBefore(w, r, k).failed <==> exists j: nat :: j < k && QuestionsFail(w, r, j)
    decreases k
  {
    if k > 0 {
      SurveyNext(w, r, k - 1);
      SurveyFailsBefore(w, r, k - 1);
      if !SurveyBefore(w, r, k - 1).failed {
        QuestionsDecide(w, r, k - 1);
      }
    }
  }

  /** The survey of a pass fails exactly when the questions to some pod do. */
  lemma SurveyFailsIff(w: World, r: Inputs)
    ensures SurveyOf(w, r).failed <==> exists j: nat :: j < |r.pods| && QuestionsFail(w, r, j)
  {
    assert r.pods[..|r.pods|] == r.pods;
    SurveyFailsBefore(w, r, |r.pods|);
  }

  lemma {:induction false} ReportDue(w: World, r: Inputs, n: nat, k: nat) returns (m: nat)
    requires k < n <= |r.pods| && FoundDown(w, r, k)
    ensures m < |Reports(w, r, n)|
    ensures Reports(w, r, n)[m].pod == r.pods[k].name && Reports(w, r, n)[m].sets == Held(w, r, k)
    decreases n
  {
    if k == n - 1 {
      m := |Reports(w, r, n - 1)|;
    } else {
      m := ReportDue(w, r, n - 1, k);
    }
  }

  lemma {:induction false} ReportFrom(w: World, r: Inputs, n: nat, m: nat) returns (k: nat)
    requires n <= |r.pods| && m < |Reports(w, r, n)|
    ensures k < n && FoundDown(w, r, k)
    ensures Reports(w, r, n)[m].pod == r.pods[k].name && Reports(w, r, n)[m].sets == Held(w, r, k)
    decreases n
  {
    if m < |Reports(w, r, n - 1)| {
      k := ReportFrom(w, r, n - 1, m);
    } else {
      k := n - 1;
    }
  }

  /** The k-th pod is ready with an address, and as it was asked held everything every other
      such pod held as that one was asked. */
  predicate HoldsAll(w: World, r: Inputs, d: nat) {
    && d < |r.pods| && Usable(r.pods[d])
    && forall k :: 0 <= k < |r.pods| && Usable(r.pods[k]) ==> Contains(Held(w, r, d), Held(w, r, k))
  }

  lemma SelectionReports(w: World, r: Inputs)
    requires Selects(w, r)
    ensures SurveyOf(w, r).infos == Reports(w, r, |r.pods|)
    ensures forall k :: 0 <= k < |r.pods| && Usable(r.pods[k]) ==> FoundDown(w, r, k)
  {
    assert r.pods[..|r.pods|] == r.pods;
    SurveyExact(w, r, |r.pods|);
    forall k | 0 <= k < |r.pods| && Usable(r.pods[k]) ensures FoundDown(w, r, k) {
      assert !FoundOnline(w, r, k);
    }
  }

  /** In a pass that selects a candidate, a report that dominates the others is what a pod
      that holds everything gives. */
  lemma HoldsAllDominates(w: World, r: Inputs, d: nat) returns (m: nat)
    requires Selects(w, r) && HoldsAll(w, r, d)
    ensures Dominates(SurveyOf(w, r).infos, m)
  {
    SelectionReports(w, r);
    m := ReportDue(w, r, |r.pods|, d);
    var infos := SurveyOf(w, r).infos;
    forall j | 0 <= j < |infos| ensures Contains(infos[m].sets, infos[j].sets) {
      var k := ReportFrom(w, r, |r.pods|, j);
    }
  }

  /** In an undisturbed survey a pod is asked for what it held when the call began. */
  lemma {:induction false} StillNet(w: World, r: Inputs, k: nat)
    requires k <= |r.pods| && forall j :: 0 <= j < |r.survey| ==> r.survey[j].env == []
    ensures SurveyBefore(w, r, k).net == w.net
    decreases k
  {
    if k > 0 {
      SurveyNext(w, r, k - 1);
      StillNet(w, r, k - 1);
    }
  }

  lemma HeldWhenStill(w: World, r: Inputs, k: nat)
    requires k < |r.pods| && forall j :: 0 <= j < |r.survey| ==> r.survey[j].env == []
    ensures Held(w, r, k) == At(w.net, r.pods[k].name).sets
  {
    StillNet(w, r, k);
  }
}
