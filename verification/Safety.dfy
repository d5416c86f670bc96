/**
 What every run of the operator keeps: the status invariant, the Bootstrap
 accounting, the single live group, and that only Bootstrap calls create groups.
 */
module Safety {
  import opened RestartCandidate
  import opened Servers
  import opened Protocol
  import opened Handles

  // ---------------------------------------------------------------- the status

  predicate StatusOk(s: Status) {
    s.candidate != "" ==> s.bootstrapped
  }

  /** No group is meant to be alive: none was created, or a restart is pending. */
  predicate Unsettled(s: Status) {
    !s.bootstrapped || s.candidate != ""
  }

  lemma {:induction false} WalkKeepsStatus(
    s: Walk, pods: seq<Pod>, i: nat, c: string, force: bool, answers: seq<WalkAnswer>)
    requires StatusOk(s.status)
    ensures var r := WalkFrom(s, pods, i, c, force, answers);
            StatusOk(r.status) && (s.status.bootstrapped ==> r.status.bootstrapped)
    decreases |pods| - i
  {
    if !s.failed && i < |pods| {
      WalkKeepsStatus(WalkVisit(s, pods[i], c, force, WalkAnswerAt(answers, i)), pods, i + 1, c, force, answers);
    }
  }

  predicate SameReplication(w: World, w': World) {
    && w'.status.bootstrapped == w.status.bootstrapped && w'.status.candidate == w.status.candidate
    && w'.founders == w.founders && w'.picks == w.picks
  }

  predicate LandsPick(w: World, r: Inputs) {
    Selects(w, r) && ChoiceOf(w, r).Chosen? && r.pickLands
  }

  lemma PickOutcome(w: World, r: Inputs)
    requires ReadsStored(w, r) && Selects(w, r)
    ensures var w' := Reconcile(w, r);
            if LandsPick(w, r) then
              && w'.status.bootstrapped && w'.status.candidate == ChoiceOf(w, r).pod
              && w'.founders == w.founders && w'.picks == w.picks + 1
            else SameReplication(w, w')
  {
  }

  lemma OtherOutcome(w: World, r: Inputs)
    requires ReadsStored(w, r) && !Selects(w, r) && !Walks(w, r)
    ensures SameReplication(w, Reconcile(w, r))
  {
  }

  lemma WalkingKeepsStatus(w: World, r: Inputs)
    requires StatusOk(w.status) && ReadsStored(w, r) && Walks(w, r)
    ensures StatusOk(Reconcile(w, r).status)
    ensures w.status.bootstrapped ==> Reconcile(w, r).status.bootstrapped
  {
    WalkKeepsStatus(WalkStart(w, r), r.pods, 0, r.seen.candidate, r.force, r.walk);
  }

  lemma ReconcileKeepsStatus(w: World, r: Inputs)
    requires StatusOk(w.status) && ReadsStored(w, r)
    ensures StatusOk(Reconcile(w, r).status)
    ensures w.status.bootstrapped ==> Reconcile(w, r).status.bootstrapped
  {
    if Selects(w, r) {
      PickOutcome(w, r);
    } else if Walks(w, r) {
      WalkingKeepsStatus(w, r);
    } else {
      OtherOutcome(w, r);
    }
  }

  predicate ReadsStoredRun(w: World, es: seq<Event>)
    decreases |es|
  {
    es == [] || ((es[0].Loop? ==> ReadsStored(w, es[0].r)) && ReadsStoredRun(Step(w, es[0]), es[1..]))
  }

  /** Under H1 alone, whatever fails: a stored restart candidate implies a stored
      bootstrap, and a stored bootstrap is never taken back. */
  lemma {:induction false} StatusInvariant(w: World, es: seq<Event>)
    requires StatusOk(w.status) && ReadsStoredRun(w, es)
    ensures StatusOk(Exec(w, es).status)
    ensures w.status.bootstrapped ==> Exec(w, es).status.bootstrapped
    decreases |es|
  {
    if es != [] {
      if es[0].Loop? {
        ReconcileKeepsStatus(w, es[0].r);
      }
      StatusInvariant(Step(w, es[0]), es[1..]);
    }
  }

  // ---------------------------------------------------------------- Bootstrap accounting

  /** Bootstraps the status accounts for: the first, minus a pending re-bootstrap. */
  function Credit(s: Status): int {
    (if s.bootstrapped then 1 else 0) - (if s.candidate != "" then 1 else 0)
  }

  predicate NoneNamed(pods: seq<Pod>, i: nat, name: string) {
    forall k :: i <= k < |pods| ==> pods[k].name != name
  }

  /** The stale local copy of the candidate is harmless: it is current, or names no
      pod still to come. */
  predicate CandidateCurrent(s: Walk, pods: seq<Pod>, i: nat, c: string) {
    s.status.candidate == c || NoneNamed(pods, i, c)
  }

  lemma VisitAccounts(s: Walk, pods: seq<Pod>, i: nat, c: string, force: bool, a: WalkAnswer)
    requires i < |pods| && ProperNames(pods) && StatusOk(s.status) && CandidateCurrent(s, pods, i, c)
    ensures var r := WalkVisit(s, pods[i], c, force, a);
            && StatusOk(r.status) && CandidateCurrent(r, pods, i + 1, c)
            && |r.founders| - Credit(r.status) == |s.founders| - Credit(s.status)
            && s.founders <= r.founders
            && (r.dirty <==> s.dirty || |r.founders| > |s.founders|)
            && (|r.founders| == |s.founders| ==> r.status == s.status)
  {
  }

  lemma {:induction false} WalkAccounts(
    s: Walk, pods: seq<Pod>, i: nat, c: string, force: bool, answers: seq<WalkAnswer>)
    requires ProperNames(pods) && StatusOk(s.status) && CandidateCurrent(s, pods, i, c)
    ensures var r := WalkFrom(s, pods, i, c, force, answers);
            && StatusOk(r.status)
            && |r.founders| - Credit(r.status) == |s.founders| - Credit(s.status)
            && s.founders <= r.founders
            && (r.dirty <==> s.dirty || |r.founders| > |s.founders|)
            && (|r.founders| == |s.founders| ==> r.status == s.status)
    decreases |pods| - i
  {
    if !s.failed && i < |pods| {
      var s' := WalkVisit(s, pods[i], c, force, WalkAnswerAt(answers, i));
      VisitAccounts(s, pods, i, c, force, WalkAnswerAt(answers, i));
      WalkAccounts(s', pods, i + 1, c, force, answers);
    }
  }

  /** No pod still to come can be bootstrapped. */
  predicate Spent(s: Walk, pods: seq<Pod>, i: nat, c: string) {
    s.failed || (s.status.bootstrapped && (c == "" || !ListedFrom(pods, i, c)))
  }

  /** A visit that calls Bootstrap, with whatever result, leaves no pod to bootstrap. */
  lemma CallSpends(s: Walk, pods: seq<Pod>, i: nat, c: string, force: bool, a: WalkAnswer)
    requires i < |pods| && ProperNames(pods) && StatusOk(s.status) && CandidateCurrent(s, pods, i, c)
    requires Calls(s, pods[i], c, force, a)
    ensures Spent(WalkVisit(s, pods[i], c, force, a), pods, i + 1, c)
  {
  }

  lemma SpentVisit(s: Walk, pods: seq<Pod>, i: nat, c: string, force: bool, a: WalkAnswer)
    requires i < |pods| && Spent(s, pods, i, c) && !s.failed
    ensures var r := WalkVisit(s, pods[i], c, force, a);
            && Spent(r, pods, i + 1, c) && AddsNoBootstrap(s.log, r.log)
            && r.status == s.status && r.dirty == s.dirty && r.founders == s.founders && r.spoiled == s.spoiled
  {
    WalkVisitLog(s, pods[i], c, force, a);
    assert ListedFrom(pods, i + 1, c) ==> ListedFrom(pods, i, c);
    assert Usable(pods[i]) && pods[i].name == c ==> ListedFrom(pods, i, c);
  }

  /** With no pod left to bootstrap, the loop calls no Bootstrap and leaves the status. */
  lemma {:induction false} SpentWalkCallsNone(
    s: Walk, pods: seq<Pod>, i: nat, c: string, force: bool, answers: seq<WalkAnswer>)
    requires Spent(s, pods, i, c)
    ensures var r := WalkFrom(s, pods, i, c, force, answers);
            && AddsNoBootstrap(s.log, r.log)
            && r.status == s.status && r.dirty == s.dirty && r.founders == s.founders && r.spoiled == s.spoiled
    decreases |pods| - i
  {
    if !s.failed && i < |pods| {
      var a := WalkAnswerAt(answers, i);
      SpentVisit(s, pods, i, c, force, a);
      SpentWalkCallsNone(WalkVisit(s, pods[i], c, force, a), pods, i + 1, c, force, answers);
    }
  }

  lemma {:induction false} WalkCallsOnce(
    s: Walk, pods: seq<Pod>, i: nat, c: string, force: bool, answers: seq<WalkAnswer>)
    requires ProperNames(pods) && StatusOk(s.status) && CandidateCurrent(s, pods, i, c)
    ensures Boots(WalkFrom(s, pods, i, c, force, answers).log) <= Boots(s.log) + 1
    decreases |pods| - i
  {
    if !s.failed && i < |pods| {
      var a := WalkAnswerAt(answers, i);
      var s' := WalkVisit(s, pods[i], c, force, a);
      VisitBoots(s, pods[i], c, force, a);
      if Calls(s, pods[i], c, force, a) {
        CallSpends(s, pods, i, c, force, a);
        SpentWalkCallsNone(s', pods, i + 1, c, force, answers);
        AddsNoneCounts(s'.log, WalkFrom(s', pods, i + 1, c, force, answers).log);
      } else {
        VisitAccounts(s, pods, i, c, force, a);
        WalkCallsOnce(s', pods, i + 1, c, force, answers);
      }
    }
  }

  /** One pod loop calls Bootstrap at most once, whether the call succeeds or fails, for
      every pod list and all answers, although the loop keeps using its first copy of
      the candidate; and the calls that succeed are what the status accounts for. */
  lemma AtMostOneBootstrap(s: Walk, pods: seq<Pod>, force: bool, answers: seq<WalkAnswer>)
    requires ProperNames(pods) && StatusOk(s.status)
    ensures var r := WalkAll(s, pods, force, answers);
            && Boots(r.log) <= Boots(s.log) + 1
            && s.founders <= r.founders && |r.founders| - |s.founders| == Credit(r.status) - Credit(s.status) <= 1
  {
    WalkCallsOnce(s, pods, 0, s.status.candidate, force, answers);
    WalkAccounts(s, pods, 0, s.status.candidate, force, answers);
  }

  /** So does every Reconcile call, stale or not, that reads a status meeting StatusOk. */
  lemma ReconcileBootstrapsOnce(w: World, r: Inputs)
    requires ProperNames(r.pods) && StatusOk(r.seen)
    ensures Boots(Reconcile(w, r).log) <= Boots(w.log) + 1
  {
    LogOutcome(w, r);
    var s := SurveyOf(w, r);
    SurveyNeverBootstraps(SurveyStart(w), r.pods, 0, Gathers(r.seen), r.survey);
    AddsNoneCounts(w.log, s.log);
    AtMostOneBootstrap(WalkStart(w, r), r.pods, r.force, r.walk);
    NoBoots(CloseCompareOf(s));
    BootsAppend(s.log, CloseCompareOf(s));
    BootsAppend(WalkOf(w, r).log, CloseCompareOf(s));
  }

  predicate AllNamed(infos: seq<GtidInfo>) {
    forall k :: 0 <= k < |infos| ==> |infos[k].pod| > 0
  }

  lemma {:induction false} SurveyNames(s: Survey, pods: seq<Pod>, i: nat, gather: bool, answers: seq<SurveyAnswer>)
    requires ProperNames(pods) && AllNamed(s.infos)
    ensures AllNamed(SurveyFrom(s, pods, i, gather, answers).infos)
    decreases |pods| - i
  {
    if !s.failed && i < |pods| {
      var s' := SurveyVisit(s, pods[i], gather, SurveyAnswerAt(answers, i));
      assert |pods[i].name| > 0;
      SurveyNames(s', pods, i + 1, gather, answers);
    }
  }

  /** The pod a selection chooses is one of the pods listed. */
  lemma ChoiceHasName(w: World, r: Inputs)
    requires ProperNames(r.pods) && Selects(w, r) && ChoiceOf(w, r).Chosen?
    ensures ChoiceOf(w, r).pod != ""
  {
    SurveyNames(SurveyStart(w), r.pods, 0, Gathers(r.seen), r.survey);
    var infos := SurveyOf(w, r).infos;
    PickMeetsSpec(infos, r.broken, r.tie);
    var i: nat :| RightChoice(infos, i) && infos[i].pod == ChoiceOf(w, r).pod;
  }

  /** A pod loop either founds one group and settles the status, or leaves it alone. */
  lemma PassWalkStatus(w: World, r: Inputs)
    requires StatusOk(r.seen) && ProperNames(r.pods)
    ensures var k := WalkOf(w, r);
            if k.dirty then
              && w.founders <= k.founders && |k.founders| == |w.founders| + 1
              && k.status.bootstrapped && k.status.candidate == "" && Unsettled(r.seen)
            else
              k.founders == w.founders && k.status == r.seen.(phase := Ready)
  {
    WalkAccounts(WalkStart(w, r), r.pods, 0, r.seen.candidate, r.force, r.walk);
  }

  lemma WalkOutcome(w: World, r: Inputs)
    requires StatusOk(w.status) && ProperNames(r.pods) && ReadsStored(w, r) && LandsBootstrap(w, r) && Walks(w, r)
    ensures var w' := Reconcile(w, r);
            if WalkOf(w, r).dirty then
              && w'.status.bootstrapped && w'.status.candidate == "" && Unsettled(w.status)
              && w'.founders == WalkOf(w, r).founders && w.founders <= w'.founders && |w'.founders| == |w.founders| + 1
              && w'.picks == w.picks
            else SameReplication(w, w')
  {
    PassWalkStatus(w, r);
  }

  /** When an error follows a successful Bootstrap, the record of that Bootstrap rests on
      failStatus alone, which the API refuses exactly when this very call's phase write
      changed the object. With every write accepted the record is therefore lost after
      any phase but Ready, in particular on the first pass of a cluster. */
  lemma FailedPassKeepsRecordIff(w: World, r: Inputs)
    requires StatusOk(w.status) && ProperNames(r.pods) && ReadsStored(w, r) && Walks(w, r)
    requires WalkOf(w, r).dirty && WalkOf(w, r).failed && r.phaseLands && r.failLands
    ensures LandsBootstrap(w, r) <==> w.status.phase == Ready && !r.touches
    ensures !LandsBootstrap(w, r) ==> Reconcile(w, r).status == w.status.(phase := Ready)
  {
  }

  /** What one Reconcile call does to the replication fields: a landed pick sets the
      candidate, a landed bootstrap settles the status, anything else changes nothing. */
  lemma StatusOutcome(w: World, r: Inputs)
    requires StatusOk(w.status) && ProperNames(r.pods) && ReadsStored(w, r) && LandsBootstrap(w, r)
    ensures var w' := Reconcile(w, r);
            if LandsPick(w, r) then
              && w'.status.bootstrapped && w'.status.candidate == ChoiceOf(w, r).pod
              && w'.founders == w.founders && w'.picks == w.picks + 1
            else if Walks(w, r) && WalkOf(w, r).dirty then
              && w'.status.bootstrapped && w'.status.candidate == "" && Unsettled(w.status)
              && w'.founders == WalkOf(w, r).founders && w.founders <= w'.founders && |w'.founders| == |w.founders| + 1
              && w'.picks == w.picks
            else SameReplication(w, w')
  {
    if Selects(w, r) {
      PickOutcome(w, r);
    } else if Walks(w, r) {
      WalkOutcome(w, r);
    } else {
      OtherOutcome(w, r);
    }
  }

  lemma ReconcileAccounts(w: World, r: Inputs)
    requires StatusOk(w.status)
    requires ProperNames(r.pods) && ReadsStored(w, r) && LandsBootstrap(w, r)
    ensures var w' := Reconcile(w, r);
            && |w'.founders| - Credit(w'.status) - w'.picks == |w.founders| - Credit(w.status) - w.picks
            && w.founders <= w'.founders && w.picks <= w'.picks
  {
    StatusOutcome(w, r);
    ReconcileKeepsStatus(w, r);
    if Selects(w, r) && ChoiceOf(w, r).Chosen? {
      ChoiceHasName(w, r);
    }
  }

  predicate AccountedRun(w: World, es: seq<Event>)
    decreases |es|
  {
    es == [] ||
    ((es[0].Loop? ==> ProperNames(es[0].r.pods) && ReadsStored(w, es[0].r) && LandsBootstrap(w, es[0].r))
     && AccountedRun(Step(w, es[0]), es[1..]))
  }

  lemma {:induction false} RunAccounts(w: World, es: seq<Event>)
    requires StatusOk(w.status) && AccountedRun(w, es)
    ensures var w' := Exec(w, es);
            && |w'.founders| - Credit(w'.status) - w'.picks == |w.founders| - Credit(w.status) - w.picks
            && StatusOk(w'.status) && w.founders <= w'.founders && w.picks <= w'.picks
    decreases |es|
  {
    if es != [] {
      if es[0].Loop? {
        ReconcileAccounts(w, es[0].r);
        ReconcileKeepsStatus(w, es[0].r);
      }
      RunAccounts(Step(w, es[0]), es[1..]);
    }
  }

  /** In every run from an empty status under H1 and H2 the successful Bootstraps are
      the first one and one per landed pick, less the pick still pending. */
  lemma BootstrapAccounting(w: World, es: seq<Event>)
    requires Fresh(w) && AccountedRun(w, es)
    ensures var w' := Exec(w, es);
            |w'.founders| ==
            (if w'.status.bootstrapped then 1 else 0) + w'.picks - (if w'.status.candidate != "" then 1 else 0)
  {
    RunAccounts(w, es);
  }

  /** Between any two Bootstraps of a run lies a landed pick. */
  lemma PickBetweenBootstraps(w: World, before: seq<Event>, between: seq<Event>)
    requires Fresh(w) && AccountedRun(w, before) && AccountedRun(Exec(w, before), between)
    ensures var w1, w2 := Exec(w, before), Exec(Exec(w, before), between);
            |w2.founders| - |w1.founders| <= 1 + (w2.picks - w1.picks)
    ensures var w1, w2 := Exec(w, before), Exec(Exec(w, before), between);
            !Unsettled(w1.status) ==> |w2.founders| - |w1.founders| <= w2.picks - w1.picks
  {
    RunAccounts(w, before);
    RunAccounts(Exec(w, before), between);
  }

  // ---------------------------------------------------------------- the single live group

  predicate NetOk(net: Net) {
    FlagsOff(net) && GroupsOk(net)
  }

  /** The joint invariant: flags off, one group, and no pod online while the status
      allows a Bootstrap. */
  predicate Inv(w: World) {
    NetOk(w.net) && StatusOk(w.status) && (Unsettled(w.status) ==> NoneOnline(w.net))
  }

  /** A server online after some events was online before or finished recovery in them. */
  lemma {:induction false} OnlineOrPromoted(net: Net, es: seq<EnvEvent>, p: string)
    requires IsOnline(ApplyEnvs(net, es), p)
    ensures IsOnline(net, p) || Promote(p) in es
    decreases |es|
  {
    if es != [] {
      OnlineOrPromoted(ApplyEnv(net, es[0]), es[1..], p);
    }
  }

  /** Every online server is a listed ready pod the survey has still to ask. */
  predicate OnlineAhead(net: Net, pods: seq<Pod>, i: nat) {
    forall p :: p in net.servers && net.servers[p].member.Online? ==> ListedFrom(pods, i, p)
  }

  predicate QuietAnswers(answers: seq<SurveyAnswer>, pods: seq<Pod>) {
    forall i :: 0 <= i < |answers| ==> PromotesAhead(answers[i].env, pods, i)
  }

  /** A visit that meets nobody online leaves every online server still ahead. */
  lemma VisitKeepsAhead(s: Survey, pods: seq<Pod>, i: nat, gather: bool, a: SurveyAnswer)
    requires i < |pods| && OnlineAhead(s.net, pods, i) && PromotesAhead(a.env, pods, i)
    requires var s' := SurveyVisit(s, pods[i], gather, a); !s'.failed && !s'.anyOnline
    ensures OnlineAhead(SurveyVisit(s, pods[i], gather, a).net, pods, i + 1)
  {
    var net := SurveyVisit(s, pods[i], gather, a).net;
    forall p | p in net.servers && net.servers[p].member.Online? ensures ListedFrom(pods, i + 1, p) {
      if Usable(pods[i]) {
        OnlineOrPromoted(s.net, a.env, p);
      }
      assert ListedFrom(pods, i, p);
      var k :| i <= k < |pods| && Usable(pods[k]) && pods[k].name == p;
      assert k != i;
    }
  }

  /** A survey that meets no online pod, while only pods it has still to ask finish
      recovery, ends with no server online at all. */
  lemma {:induction false} SurveySound(s: Survey, pods: seq<Pod>, i: nat, gather: bool, answers: seq<SurveyAnswer>)
    requires i <= |pods| && QuietAnswers(answers, pods) && OnlineAhead(s.net, pods, i)
    ensures var r := SurveyFrom(s, pods, i, gather, answers);
            !r.failed && !r.anyOnline ==> NoneOnline(r.net)
    decreases |pods| - i
  {
    if !s.failed && !s.anyOnline && i < |pods| {
      var a := SurveyAnswerAt(answers, i);
      var s' := SurveyVisit(s, pods[i], gather, a);
      if !s'.failed && !s'.anyOnline {
        VisitKeepsAhead(s, pods, i, gather, a);
        SurveySound(s', pods, i + 1, gather, answers);
      } else {
        MetStaysMet(s', pods, i + 1, gather, answers);
      }
    } else if i < |pods| {
      MetStaysMet(s, pods, i, gather, answers);
    }
  }

  lemma {:induction false} MetStaysMet(s: Survey, pods: seq<Pod>, i: nat, gather: bool, answers: seq<SurveyAnswer>)
    requires s.failed || s.anyOnline
    ensures var r := SurveyFrom(s, pods, i, gather, answers); r.failed || r.anyOnline
    decreases |pods| - i
  {
    if !s.failed && i < |pods| {
      MetStaysMet(SurveyVisit(s, pods[i], gather, SurveyAnswerAt(answers, i)), pods, i + 1, gather, answers);
    }
  }

  /** Whatever happens during it, a survey keeps flags and groups, and wakes no group
      nobody is online in. */
  lemma {:induction false} SurveyKeeps(s: Survey, pods: seq<Pod>, i: nat, gather: bool, answers: seq<SurveyAnswer>)
    requires FlagsOff(s.net)
    ensures var r := SurveyFrom(s, pods, i, gather, answers);
            && FlagsOff(r.net) && r.net.nextGroup == s.net.nextGroup
            && (GroupsOk(s.net) ==> GroupsOk(r.net)) && (NoneOnline(s.net) ==> NoneOnline(r.net))
    decreases |pods| - i
  {
    if !s.failed && i < |pods| {
      var a := SurveyAnswerAt(answers, i);
      EnvsKeep(s.net, a.env);
      SurveyKeeps(SurveyVisit(s, pods[i], gather, a), pods, i + 1, gather, answers);
    }
  }

  /** A pass that selects a candidate ends its survey with no server online at all. */
  lemma SelectionMeansOutage(w: World, r: Inputs)
    requires SeesOnlinePods(w, r) && QuietSurvey(r) && Selects(w, r)
    ensures NoneOnline(SurveyOf(w, r).net)
  {
    SurveySound(SurveyStart(w), r.pods, 0, Gathers(r.seen), r.survey);
  }

  /** The pod loop never creates a second group, whatever happens between its calls. */
  lemma {:induction false} WalkSafe(s: Walk, pods: seq<Pod>, i: nat, c: string, force: bool, answers: seq<WalkAnswer>)
    requires ProperNames(pods) && StatusOk(s.status) && CandidateCurrent(s, pods, i, c)
    requires NetOk(s.net) && (Unsettled(s.status) ==> NoneOnline(s.net))
    requires !WalkFrom(s, pods, i, c, force, answers).spoiled
    ensures var r := WalkFrom(s, pods, i, c, force, answers);
            NetOk(r.net) && (Unsettled(r.status) ==> NoneOnline(r.net))
    decreases |pods| - i
  {
    if !s.failed && i < |pods| {
      var a := WalkAnswerAt(answers, i);
      var s' := WalkVisit(s, pods[i], c, force, a);
      SpoiledStays(s', pods, i + 1, c, force, answers);
      VisitSafe(s, pods, i, c, force, a);
      WalkSafe(s', pods, i + 1, c, force, answers);
    }
  }

  lemma {:induction false} SpoiledStays(
    s: Walk, pods: seq<Pod>, i: nat, c: string, force: bool, answers: seq<WalkAnswer>)
    ensures s.spoiled ==> WalkFrom(s, pods, i, c, force, answers).spoiled
    decreases |pods| - i
  {
    if !s.failed && i < |pods| {
      SpoiledStays(WalkVisit(s, pods[i], c, force, WalkAnswerAt(answers, i)), pods, i + 1, c, force, answers);
    }
  }

  lemma VisitSafe(s: Walk, pods: seq<Pod>, i: nat, c: string, force: bool, a: WalkAnswer)
    requires i < |pods| && ProperNames(pods) && StatusOk(s.status) && CandidateCurrent(s, pods, i, c)
    requires NetOk(s.net) && (Unsettled(s.status) ==> NoneOnline(s.net))
    requires !WalkVisit(s, pods[i], c, force, a).spoiled
    ensures var s' := WalkVisit(s, pods[i], c, force, a);
            && NetOk(s'.net) && StatusOk(s'.status) && (Unsettled(s'.status) ==> NoneOnline(s'.net))
            && CandidateCurrent(s', pods, i + 1, c)
  {
    EnvsKeep(s.net, a.env);
    var net := ApplyEnvs(s.net, a.env);
    var p := pods[i].name;
    if FirstBootstrap(s.status, p, force, a.view) || Rebootstrap(s.status, p, c, a.view) {
      assert Unsettled(s.status);
      if !Spoils(net, p, a.boot) {
        BootstrapSafe(net, p, a.boot);
        if !Bootstrap(net, p, a.boot).ok {
          UnspoiledFailureIsNoOp(net, p, a.boot);
        }
      }
    } else {
      JoinKeeps(net, p, a.join);
    }
  }

  /** With no server online, a Bootstrap call that does not fail half-way leaves at
      most one group alive. */
  lemma BootstrapSafe(net: Net, pod: string, replies: seq<Reply>)
    requires NetOk(net) && NoneOnline(net) && !Spoils(net, pod, replies)
    ensures NetOk(Bootstrap(net, pod, replies).net)
  {
  }

  /** Where one Reconcile call leaves the servers. */
  lemma NetOutcome(w: World, r: Inputs)
    ensures Reconcile(w, r).net ==
            if !ReachesPass(r) then w.net
            else if Walks(w, r) then WalkOf(w, r).net
            else SurveyOf(w, r).net
  {
  }

  lemma PassWalkSafe(w: World, r: Inputs)
    requires Inv(w) && Assumptions(w, r) && Walks(w, r)
    ensures NetOk(WalkOf(w, r).net)
    ensures Unsettled(WalkOf(w, r).status) ==> NoneOnline(WalkOf(w, r).net)
    ensures !WalkOf(w, r).dirty ==> WalkOf(w, r).status == w.status.(phase := Ready)
  {
    SurveyKeeps(SurveyStart(w), r.pods, 0, Gathers(r.seen), r.survey);
    WalkSafe(WalkStart(w, r), r.pods, 0, r.seen.candidate, r.force, r.walk);
    PassWalkStatus(w, r);
  }

  lemma ReconcileSafe(w: World, r: Inputs)
    requires Inv(w) && Assumptions(w, r)
    ensures Inv(Reconcile(w, r))
  {
    ReconcileKeepsStatus(w, r);
    StatusOutcome(w, r);
    NetOutcome(w, r);
    SurveyKeeps(SurveyStart(w), r.pods, 0, Gathers(r.seen), r.survey);
    if Selects(w, r) {
      SelectionMeansOutage(w, r);
    } else if Walks(w, r) {
      PassWalkSafe(w, r);
    }
  }

  lemma {:induction false} RunSafe(w: World, es: seq<Event>)
    requires Inv(w) && GoodRun(w, es)
    ensures Inv(Exec(w, es))
    decreases |es|
  {
    if es != [] {
      if es[0].Loop? {
        ReconcileSafe(w, es[0].r);
      } else {
        EnvKeeps(w.net, es[0].e);
      }
      RunSafe(Step(w, es[0]), es[1..]);
    }
  }

  lemma FreshInv(w: World)
    requires Fresh(w)
    ensures Inv(w)
  {
  }

  /** In every run all online pods are in one group, every bootstrap flag is off
      between calls, and while the status allows a Bootstrap no pod is online. */
  lemma SingleLiveGroup(w: World, es: seq<Event>)
    requires Fresh(w) && GoodRun(w, es)
    ensures SingleGroup(Exec(w, es).net) && FlagsOff(Exec(w, es).net)
    ensures Unsettled(Exec(w, es).status) ==> NoneOnline(Exec(w, es).net)
  {
    FreshInv(w);
    RunSafe(w, es);
    OneGroupIsTheNewest(Exec(w, es).net);
  }

  /** The same in the middle of a pass: after the first k visits of the pod loop, with
      the in-memory status in place of the stored one. */
  lemma SingleGroupMidPass(w: World, es: seq<Event>, r: Inputs, k: nat)
    requires Fresh(w) && GoodRun(w, es) && k <= |r.pods|
    requires ProperNames(r.pods) && ReadsStored(Exec(w, es), r) && Walks(Exec(w, es), r)
    requires !WalkAll(WalkStart(Exec(w, es), r), r.pods[..k], r.force, r.walk).spoiled
    ensures var mid := WalkAll(WalkStart(Exec(w, es), r), r.pods[..k], r.force, r.walk);
            SingleGroup(mid.net) && FlagsOff(mid.net) && (Unsettled(mid.status) ==> NoneOnline(mid.net))
  {
    FreshInv(w);
    RunSafe(w, es);
    var w1 := Exec(w, es);
    SurveyKeeps(SurveyStart(w1), r.pods, 0, Gathers(r.seen), r.survey);
    WalkSafe(WalkStart(w1, r), r.pods[..k], 0, r.seen.candidate, r.force, r.walk);
    OneGroupIsTheNewest(WalkAll(WalkStart(w1, r), r.pods[..k], r.force, r.walk).net);
  }

  // ---------------------------------------------------------------- where groups come from

  lemma VisitFlags(s: Walk, pod: Pod, c: string, force: bool, a: WalkAnswer)
    requires FlagsOff(s.net) && !WalkVisit(s, pod, c, force, a).spoiled
    ensures var r := WalkVisit(s, pod, c, force, a);
            FlagsOff(r.net) && r.net.nextGroup - s.net.nextGroup == |r.founders| - |s.founders|
  {
    EnvsKeep(s.net, a.env);
    var net := ApplyEnvs(s.net, a.env);
    var p := pod.name;
    if FirstBootstrap(s.status, p, force, a.view) || Rebootstrap(s.status, p, c, a.view) {
      if Bootstrap(net, p, a.boot).ok {
        BootstrapCreatesGroup(net, p, a.boot);
      } else if !Spoils(net, p, a.boot) {
        UnspoiledFailureIsNoOp(net, p, a.boot);
      }
    } else {
      JoinKeeps(net, p, a.join);
    }
  }

  lemma {:induction false} WalkFlags(s: Walk, pods: seq<Pod>, i: nat, c: string, force: bool, answers: seq<WalkAnswer>)
    requires FlagsOff(s.net) && !WalkFrom(s, pods, i, c, force, answers).spoiled
    ensures var r := WalkFrom(s, pods, i, c, force, answers);
            FlagsOff(r.net) && r.net.nextGroup - s.net.nextGroup == |r.founders| - |s.founders|
    decreases |pods| - i
  {
    if !s.failed && i < |pods| {
      var a := WalkAnswerAt(answers, i);
      var s' := WalkVisit(s, pods[i], c, force, a);
      SpoiledStays(s', pods, i + 1, c, force, answers);
      VisitFlags(s, pods[i], c, force, a);
      WalkFlags(s', pods, i + 1, c, force, answers);
    }
  }

  lemma FoundersOutcome(w: World, r: Inputs)
    ensures Reconcile(w, r).founders == if Walks(w, r) then WalkOf(w, r).founders else w.founders
  {
  }

  predicate CleanRun(w: World, es: seq<Event>)
    decreases |es|
  {
    es == [] || ((es[0].Loop? ==> CleanBootstraps(w, es[0].r)) && CleanRun(Step(w, es[0]), es[1..]))
  }

  /** In every run in which no Bootstrap call fails half-way, whatever else fails and
      whatever status the calls act on: every bootstrap flag is off between calls, and
      each group ever created was created by a Bootstrap call that succeeded, none by
      a Join. */
  lemma {:induction false} GroupsComeFromBootstraps(w: World, es: seq<Event>)
    requires FlagsOff(w.net) && CleanRun(w, es)
    ensures var w' := Exec(w, es);
            FlagsOff(w'.net) && w'.net.nextGroup - w.net.nextGroup == |w'.founders| - |w.founders|
    decreases |es|
  {
    if es != [] {
      if es[0].Loop? {
        var r := es[0].r;
        NetOutcome(w, r);
        FoundersOutcome(w, r);
        SurveyKeeps(SurveyStart(w), r.pods, 0, Gathers(r.seen), r.survey);
        if Walks(w, r) {
          WalkFlags(WalkStart(w, r), r.pods, 0, r.seen.candidate, r.force, r.walk);
        }
      } else {
        EnvKeeps(w.net, es[0].e);
      }
      GroupsComeFromBootstraps(Step(w, es[0]), es[1..]);
    }
  }
}
