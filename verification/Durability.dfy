/**
 No transaction is lost across a total outage: from the survey that picks a restart
 candidate to the Bootstrap that re-creates the group on it.
 */
module Durability {
  import opened RestartCandidate
  import opened Servers
  import opened Protocol
  import opened Safety
  import opened CallOutcomes
  import PodIdentity

  // ---------------------------------------------------------------- the survey's reports stay true

  /** A server that is not online and does not finish recovery stays so and loses nothing. */
  lemma {:induction false} QuietKeeps(net: Net, es: seq<EnvEvent>, p: string)
    requires Promote(p) !in es && !IsOnline(net, p)
    ensures !IsOnline(ApplyEnvs(net, es), p) && Keeps(net, ApplyEnvs(net, es), p)
    decreases |es|
  {
    if es != [] {
      var mid := ApplyEnv(net, es[0]);
      assert !IsOnline(mid, p) && Keeps(net, mid, p);
      QuietKeeps(mid, es[1..], p);
    }
  }

  /** Every report is about a listed pod that is not online and still holds it all. */
  predicate ReportsHold(net: Net, infos: seq<GtidInfo>) {
    forall k :: 0 <= k < |infos| ==>
      !IsOnline(net, infos[k].pod) && Contains(At(net, infos[k].pod).sets, infos[k].sets)
  }

  predicate NamedBefore(pods: seq<Pod>, i: nat, name: string) {
    exists m :: 0 <= m < i && m < |pods| && pods[m].name == name
  }

  predicate ReportsFrom(infos: seq<GtidInfo>, pods: seq<Pod>, i: nat) {
    forall k :: 0 <= k < |infos| ==> NamedBefore(pods, i, infos[k].pod)
  }

  /** A pod already asked does not finish recovery while the survey goes on. */
  lemma AskedNotPromoted(infos: seq<GtidInfo>, pods: seq<Pod>, i: nat, es: seq<EnvEvent>, k: nat)
    requires ProperNames(pods) && ReportsFrom(infos, pods, i) && PromotesAhead(es, pods, i) && k < |infos|
    ensures Promote(infos[k].pod) !in es
  {
    assert NamedBefore(pods, i, infos[k].pod);
    assert !ListedFrom(pods, i, infos[k].pod);
  }

  lemma {:induction false} ReportsStayTrue(s: Survey, pods: seq<Pod>, i: nat, gather: bool, answers: seq<SurveyAnswer>)
    requires i <= |pods| && ProperNames(pods) && QuietAnswers(answers, pods)
    requires ReportsHold(s.net, s.infos) && DistinctPods(s.infos) && ReportsFrom(s.infos, pods, i)
    ensures var r := SurveyFrom(s, pods, i, gather, answers);
            ReportsHold(r.net, r.infos) && DistinctPods(r.infos)
    decreases |pods| - i
  {
    if !s.failed && i < |pods| {
      var a := SurveyAnswerAt(answers, i);
      var s' := SurveyVisit(s, pods[i], gather, a);
      VisitReports(s, pods[i], gather, a);
      VisitReportsFrom(s, pods, i, gather, a);
      if Usable(pods[i]) {
        forall k | 0 <= k < |s.infos|
          ensures !IsOnline(s'.net, s.infos[k].pod) && Contains(At(s'.net, s.infos[k].pod).sets, s.infos[k].sets)
        {
          AskedNotPromoted(s.infos, pods, i, a.env, k);
          QuietKeeps(s.net, a.env, s.infos[k].pod);
        }
      }
      ReportsStayTrue(s', pods, i + 1, gather, answers);
    }
  }

  /** A visit adds at most one report, about the pod visited as it then stands. */
  lemma VisitReports(s: Survey, pod: Pod, gather: bool, a: SurveyAnswer)
    ensures var s' := SurveyVisit(s, pod, gather, a);
            || s'.infos == s.infos
            || (&& s'.infos == s.infos + [GtidInfo(pod.name, PodIdentity.OperatorOrdinal(pod.name),
                                                   At(s'.net, pod.name).sets)]
                && !IsOnline(s'.net, pod.name) && Usable(pod))
  {
  }

  lemma VisitReportsFrom(s: Survey, pods: seq<Pod>, i: nat, gather: bool, a: SurveyAnswer)
    requires i < |pods| && ProperNames(pods) && DistinctPods(s.infos) && ReportsFrom(s.infos, pods, i)
    ensures var s' := SurveyVisit(s, pods[i], gather, a);
            DistinctPods(s'.infos) && ReportsFrom(s'.infos, pods, i + 1)
  {
    var s' := SurveyVisit(s, pods[i], gather, a);
    VisitReports(s, pods[i], gather, a);
    forall k | 0 <= k < |s'.infos| ensures NamedBefore(pods, i + 1, s'.infos[k].pod) {
      if k < |s.infos| {
        assert s'.infos[k] == s.infos[k] && NamedBefore(pods, i, s.infos[k].pod);
      } else {
        assert pods[i].name == s'.infos[k].pod;
      }
    }
  }

  /** What a landed pick establishes about the reports. */
  lemma PickHoldsReports(w: World, r: Inputs)
    requires Inv(w) && Assumptions(w, r) && LandsPick(w, r)
    requires exists d: nat :: Dominates(SurveyOf(w, r).infos, d)
    ensures var w' := Reconcile(w, r);
            && Inv(w') && w'.status.candidate == ChoiceOf(w, r).pod != "" && w'.status.bootstrapped
            && forall k :: 0 <= k < |SurveyOf(w, r).infos| ==>
                 Contains(At(w'.net, w'.status.candidate).sets, SurveyOf(w, r).infos[k].sets)
  {
    ReconcileSafe(w, r);
    PickOutcome(w, r);
    ChoiceHasName(w, r);
    NetOutcome(w, r);
    var s := SurveyStart(w);
    ReportsStayTrue(s, r.pods, 0, Gathers(r.seen), r.survey);
    var infos := SurveyOf(w, r).infos;
    PickMeetsSpec(infos, r.broken, r.tie);
    var c: nat :| RightChoice(infos, c) && infos[c].pod == ChoiceOf(w, r).pod;
    assert Dominates(infos, c);
    ContainsAll(infos, c, At(SurveyOf(w, r).net, infos[c].pod).sets);
  }

  /** After a landed pick the candidate's server holds every transaction, executed or
      certified, that any surveyed pod held as it was asked, if one of them held it all. */
  lemma PickHoldsEverything(w: World, r: Inputs)
    requires Inv(w) && Assumptions(w, r) && LandsPick(w, r)
    requires exists d: nat :: HoldsAll(w, r, d)
    ensures var w' := Reconcile(w, r);
            && Inv(w') && w'.status.candidate == ChoiceOf(w, r).pod != "" && w'.status.bootstrapped
            && forall k :: 0 <= k < |r.pods| && Usable(r.pods[k]) ==>
                 Contains(At(w'.net, w'.status.candidate).sets, Held(w, r, k))
  {
    var d: nat :| HoldsAll(w, r, d);
    var _ := HoldsAllDominates(w, r, d);
    PickHoldsReports(w, r);
    SelectionReports(w, r);
    forall k | 0 <= k < |r.pods| && Usable(r.pods[k])
      ensures Contains(At(Reconcile(w, r).net, Reconcile(w, r).status.candidate).sets, Held(w, r, k))
    {
      var m := ReportDue(w, r, |r.pods|, k);
    }
  }

  lemma ContainsAll(infos: seq<GtidInfo>, c: nat, held: GtidSets)
    requires DistinctPods(infos) && Dominates(infos, c) && Contains(held, infos[c].sets)
    ensures forall k :: 0 <= k < |infos| ==> Contains(held, infos[k].sets)
  {
  }

  // ---------------------------------------------------------------- until the Bootstrap nothing is lost

  /** The survey of a pass, and any pod loop that founds no group, lose nothing while
      no server is online. */
  lemma {:induction false} SurveyLosesNothing(
    s: Survey, pods: seq<Pod>, i: nat, gather: bool, answers: seq<SurveyAnswer>, p: string)
    requires Dark(s.net)
    ensures var r := SurveyFrom(s, pods, i, gather, answers);
            Dark(r.net) && Keeps(s.net, r.net, p)
    decreases |pods| - i
  {
    if !s.failed && i < |pods| {
      var a := SurveyAnswerAt(answers, i);
      EnvsKeep(s.net, a.env);
      EnvsLoseNothing(s.net, a.env, p);
      SurveyLosesNothing(SurveyVisit(s, pods[i], gather, a), pods, i + 1, gather, answers, p);
    }
  }

  /** A visit that founds no group and does not fail half-way. */
  lemma VisitLosesNothing(s: Walk, pod: Pod, c: string, force: bool, a: WalkAnswer, p: string)
    requires Dark(s.net)
    requires var s' := WalkVisit(s, pod, c, force, a); !s'.spoiled && |s'.founders| == |s.founders|
    ensures var s' := WalkVisit(s, pod, c, force, a);
            Dark(s'.net) && Keeps(s.net, s'.net, p)
  {
    EnvsKeep(s.net, a.env);
    EnvsLoseNothing(s.net, a.env, p);
    var net := ApplyEnvs(s.net, a.env);
    if FirstBootstrap(s.status, pod.name, force, a.view) || Rebootstrap(s.status, pod.name, c, a.view) {
      if !Bootstrap(net, pod.name, a.boot).ok && !Spoils(net, pod.name, a.boot) {
        UnspoiledFailureIsNoOp(net, pod.name, a.boot);
      }
    } else {
      JoinKeeps(net, pod.name, a.join);
    }
  }

  lemma {:induction false} WalkLosesNothing(
    s: Walk, pods: seq<Pod>, i: nat, c: string, force: bool, answers: seq<WalkAnswer>, p: string)
    requires ProperNames(pods) && StatusOk(s.status) && CandidateCurrent(s, pods, i, c)
    requires Dark(s.net)
    requires var r := WalkFrom(s, pods, i, c, force, answers); !r.spoiled && |r.founders| == |s.founders|
    ensures var r := WalkFrom(s, pods, i, c, force, answers);
            Dark(r.net) && Keeps(s.net, r.net, p)
    decreases |pods| - i
  {
    if !s.failed && i < |pods| {
      var a := WalkAnswerAt(answers, i);
      var s' := WalkVisit(s, pods[i], c, force, a);
      VisitAccounts(s, pods, i, c, force, a);
      WalkAccounts(s', pods, i + 1, c, force, answers);
      SpoiledStays(s', pods, i + 1, c, force, answers);
      VisitLosesNothing(s, pods[i], c, force, a, p);
      WalkLosesNothing(s', pods, i + 1, c, force, answers, p);
    }
  }

  /** With a candidate pending, a Reconcile call that founds no group keeps the
      candidate, and its server keeps what it holds. */
  lemma PendingKeeps(w: World, r: Inputs)
    requires Inv(w) && Assumptions(w, r) && w.status.candidate != ""
    requires |Reconcile(w, r).founders| == |w.founders|
    ensures var w' := Reconcile(w, r);
            w'.status.candidate == w.status.candidate && Keeps(w.net, w'.net, w.status.candidate)
  {
    var c := w.status.candidate;
    StatusOutcome(w, r);
    NetOutcome(w, r);
    SurveyLosesNothing(SurveyStart(w), r.pods, 0, Gathers(r.seen), r.survey, c);
    if Walks(w, r) {
      PassWalkStatus(w, r);
      WalkLosesNothing(WalkStart(w, r), r.pods, 0, c, r.force, r.walk, c);
    }
  }

  lemma {:induction false} PendingRunKeeps(w: World, es: seq<Event>)
    requires Inv(w) && GoodRun(w, es) && w.status.candidate != ""
    requires |Exec(w, es).founders| == |w.founders|
    ensures var w' := Exec(w, es);
            Inv(w') && w'.status.candidate == w.status.candidate && Keeps(w.net, w'.net, w.status.candidate)
    decreases |es|
  {
    if es != [] {
      var w1 := Step(w, es[0]);
      if es[0].Loop? {
        ReconcileSafe(w, es[0].r);
        FoundersGrow(w1, es[1..]);
        StatusOutcome(w, es[0].r);
        PendingKeeps(w, es[0].r);
      } else {
        EnvKeeps(w.net, es[0].e);
        EnvsLoseNothing(w.net, [es[0].e], w.status.candidate);
        assert ApplyEnvs(w.net, [es[0].e]) == ApplyEnv(w.net, es[0].e);
      }
      PendingRunKeeps(w1, es[1..]);
    }
  }

  lemma {:induction false} FoundersGrow(w: World, es: seq<Event>)
    requires StatusOk(w.status) && GoodRun(w, es)
    ensures |w.founders| <= |Exec(w, es).founders|
    decreases |es|
  {
    if es != [] {
      if es[0].Loop? {
        ReconcileKeepsStatus(w, es[0].r);
        StatusOutcome(w, es[0].r);
      }
      FoundersGrow(Step(w, es[0]), es[1..]);
    }
  }

  // ---------------------------------------------------------------- the Bootstrap itself

  /** With a candidate pending, the founder of the next group is that candidate, with
      at least what its server held when the pod loop began. */
  lemma {:induction false} FounderIsCandidate(
    s: Walk, pods: seq<Pod>, i: nat, c: string, force: bool, answers: seq<WalkAnswer>)
    requires ProperNames(pods) && c != "" && s.status.candidate == c && s.status.bootstrapped
    requires Dark(s.net)
    requires var r := WalkFrom(s, pods, i, c, force, answers); !r.spoiled && |r.founders| > |s.founders|
    ensures var f := WalkFrom(s, pods, i, c, force, answers).founders[|s.founders|];
            f.pod == c && Contains(f.sets, At(s.net, c).sets)
    decreases |pods| - i
  {
    var a := WalkAnswerAt(answers, i);
    var s' := WalkVisit(s, pods[i], c, force, a);
    VisitAccounts(s, pods, i, c, force, a);
    WalkAccounts(s', pods, i + 1, c, force, answers);
    SpoiledStays(s', pods, i + 1, c, force, answers);
    EnvsLoseNothing(s.net, a.env, c);
    if |s'.founders| == |s.founders| {
      VisitLosesNothing(s, pods[i], c, force, a, c);
      FounderIsCandidate(s', pods, i + 1, c, force, answers);
    }
  }

  lemma PendingFounder(w: World, r: Inputs)
    requires Inv(w) && Assumptions(w, r) && w.status.candidate != ""
    requires |Reconcile(w, r).founders| > |w.founders|
    ensures var f := Reconcile(w, r).founders[|w.founders|];
            f.pod == w.status.candidate && Contains(f.sets, At(w.net, w.status.candidate).sets)
  {
    var c := w.status.candidate;
    StatusOutcome(w, r);
    SurveyLosesNothing(SurveyStart(w), r.pods, 0, Gathers(r.seen), r.survey, c);
    FounderIsCandidate(WalkStart(w, r), r.pods, 0, c, r.force, r.walk);
  }

  /** A total outage loses nothing: when some surveyed pod held what every surveyed pod held
      as it was asked, the pick lands, and the next group is founded any number of steps
      later, then its founder is the pod picked and holds every transaction, executed or
      certified, any surveyed pod held at pick time. */
  lemma NoTransactionLost(w: World, before: seq<Event>, pick: Inputs, between: seq<Event>, boot: Inputs)
    requires Fresh(w) && GoodRun(w, before)
    requires var w0 := Exec(w, before);
             Assumptions(w0, pick) && LandsPick(w0, pick) && exists d: nat :: HoldsAll(w0, pick, d)
    requires var w1 := Reconcile(Exec(w, before), pick);
             GoodRun(w1, between) && |Exec(w1, between).founders| == |w1.founders|
    requires var w2 := Exec(Reconcile(Exec(w, before), pick), between);
             Assumptions(w2, boot) && |Reconcile(w2, boot).founders| > |w2.founders|
    ensures var w0 := Exec(w, before);
            var w2 := Exec(Reconcile(w0, pick), between);
            var founder := Reconcile(w2, boot).founders[|w2.founders|];
            && ChoiceOf(w0, pick) == Chosen(founder.pod)
            && forall k :: 0 <= k < |pick.pods| && Usable(pick.pods[k]) ==>
                 Contains(founder.sets, Held(w0, pick, k))
  {
    FreshInv(w);
    RunSafe(w, before);
    var w0 := Exec(w, before);
    PickHoldsEverything(w0, pick);
    var w1 := Reconcile(w0, pick);
    PendingRunKeeps(w1, between);
    PendingFounder(Exec(w1, between), boot);
  }
}
