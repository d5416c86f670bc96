/**
 The reconciliation as the source runs it: loops over the pods that update the
 in-memory resource, the servers and the stored status step by step. Every method
 is proved to do what the functions of Servers and Protocol say, so the theorems
 about those functions are theorems about these loops.
 */
module OperatorLoop {
  import opened RestartCandidate
  import opened Servers
  import opened Protocol
  import opened Safety
  import opened CallOutcomes
  import PodIdentity

  /** The same events, with the order the sorts gave equal ordinals filled in. */
  predicate SameEvents(es: seq<Event>, trace: seq<Event>) {
    && |es| == |trace|
    && forall i :: 0 <= i < |es| ==>
         match es[i]
         case Env(_) => trace[i] == es[i]
         case Loop(r) => trace[i].Loop? && trace[i].r == r.(tie := trace[i].r.tie)
  }

  lemma {:induction false} ExecAppend(w: World, es: seq<Event>, e: Event)
    ensures Exec(w, es + [e]) == Step(Exec(w, es), e)
    decreases |es|
  {
    if es == [] {
      assert es + [e] == [e];
      assert Exec(w, [e]) == Exec(Step(w, e), []);
    } else {
      assert (es + [e])[1..] == es[1..] + [e];
      ExecAppend(Step(w, es[0]), es[1..], e);
    }
  }

  class Operator {
    var net: Net
    var status: Status           // the stored status
    var version: nat             // its resource version
    var founders: seq<Founder>
    var picks: nat
    var log: seq<Call>
    var mysql: Status            // the in-memory copy of the resource's status

    ghost function View(): World
      reads this
    {
      World(net, status, version, founders, picks, log)
    }

    // -------------------------------------------------------------- gr_client.go

    /** bootstrapGroup: the three statements in order, stopping at the first error. */
    method BootstrapGroup(pod: string, replies: seq<Reply>) returns (ok: bool)
      modifies this`net
      ensures Effect(net, ok) == Bootstrap(old(net), pod, replies)
    {
      for k := 0 to |BOOTSTRAP|
        invariant Bootstrap(old(net), pod, replies) == BootstrapFrom(net, pod, k, replies)
      {
        var q, r := BOOTSTRAP[k], ReplyAt(replies, k);
        var seen := StatementReply(net, pod, q, r);
        net := Execute(net, pod, q, r);
        if seen != Done {
          return false;
        }
      }
      return true;
    }

    /** joinGroup: nothing to do for a member, otherwise START, forgiving error 3663. */
    method JoinGroup(pod: string, a: JoinAnswer) returns (ok: bool)
      modifies this`net
      ensures Effect(net, ok) == Join(old(net), pod, a)
      ensures At(old(net), pod).member == Offline ==>
                (ok <==> a.state != StateError && (a.reply == Done || a.reply == Busy))
    {
      if a.state == StateError {
        return false;
      }
      if a.state == Row && At(net, pod).member != Offline {
        return true;
      }
      var seen := StartReply(net, pod, a.reply);
      if TakesEffect(seen) {
        net := Start(net, pod, a.unreachable, a.arrives);
      }
      return seen == Done || seen == Busy;
    }

    // -------------------------------------------------------------- group_replication.go

    /** One round of the survey loop. */
    method SurveyPod(pod: Pod, gather: bool, before: Survey, a: SurveyAnswer)
      returns (anyOnline: bool, infos: seq<GtidInfo>, compareOpen: bool, failed: bool)
      requires before.net == net && before.log == log && !before.failed
      modifies this`net, this`log
      ensures SurveyVisit(before, pod, gather, a) == Survey(net, anyOnline, infos, compareOpen, log, failed)
    {
      anyOnline, infos, compareOpen, failed := before.anyOnline, before.infos, before.compareOpen, false;
      if !pod.ready || !pod.hasIP {
        return;
      }
      var p := pod.name;
      net := ApplyEnvs(net, a.env);
      if !a.connect {
        failed := true;
        return;
      }
      log := log + [Connect(p), AskSelf(p)];
      if !a.self {
        log := log + [Close(p)];
        failed := true;
        return;
      }
      if IsOnline(net, p) {
        anyOnline := true;
        log := log + [Close(p)];
        return;
      }
      if gather {
        if !a.gtid {
          log := log + [AskGtid(p), Close(p)];
          failed := true;
          return;
        }
        infos := infos + [GtidInfo(p, PodIdentity.OperatorOrdinal(p), At(net, p).sets)];
        if compareOpen {
          log := log + [AskGtid(p), Close(p)];
        } else if !a.open {
          log := log + [AskGtid(p), Close(p)];
          failed := true;
        } else {
          compareOpen := true;
          log := log + [AskGtid(p), OpenCompare, Close(p)];
        }
        return;
      }
      log := log + [Close(p)];
    }

    /** collectGroupInfo: the loop over the listed pods, left at the first error. */
    method CollectGroupInfo(pods: seq<Pod>, bootstrapped: bool, restartCandidate: string, answers: seq<SurveyAnswer>)
      returns (anyOnline: bool, infos: seq<GtidInfo>, compareOpen: bool, failed: bool)
      modifies this`net, this`log
      ensures Survey(net, anyOnline, infos, compareOpen, log, failed)
              == SurveyFrom(Survey(old(net), false, [], false, old(log), false), pods, 0,
                            bootstrapped && restartCandidate == "", answers)
    {
      anyOnline, infos, compareOpen, failed := false, [], false, false;
      var gather := bootstrapped && restartCandidate == "";
      ghost var whole := SurveyFrom(Survey(net, false, [], false, log, false), pods, 0, gather, answers);
      for i := 0 to |pods|
        invariant !failed
        invariant whole == SurveyFrom(Survey(net, anyOnline, infos, compareOpen, log, false), pods, i, gather, answers)
      {
        anyOnline, infos, compareOpen, failed :=
          SurveyPod(pods[i], gather, Survey(net, anyOnline, infos, compareOpen, log, false),
                    SurveyAnswerAt(answers, i));
        if failed {
          return;
        }
      }
    }

    /** One round of the pod loop; `candidate` is the loop's own copy. */
    method ReconcilePod(pod: Pod, candidate: string, force: bool, ghost before: Walk, a: WalkAnswer)
      returns (wrote: bool, failed: bool, ghost spoiled: bool)
      requires before == Walk(net, mysql, before.dirty, founders, log, false, before.spoiled)
      modifies this`net, this`log, this`founders, this`mysql
      ensures WalkVisit(before, pod, candidate, force, a)
              == Walk(net, mysql, before.dirty || wrote, founders, log, failed, spoiled)
    {
      wrote, failed, spoiled := false, false, before.spoiled;
      if !pod.ready || !pod.hasIP {
        return;
      }
      var p := pod.name;
      net := ApplyEnvs(net, a.env);
      if !a.connect {
        failed := true;
        return;
      }
      log := log + [Connect(p), AskSelf(p)];
      if !a.self {
        log := log + [Close(p)];
        failed := true;
        return;
      }
      if IsOnline(net, p) {
        log := log + [Close(p)];
        return;
      }
      if !a.user {
        log := log + [EnsureUser(p), Close(p)];
        failed := true;
        return;
      }
      log := log + [EnsureUser(p), AskView(p)];
      if a.view == ViewError {
        log := log + [Close(p)];
        failed := true;
        return;
      }
      wrote, failed, spoiled := BootstrapOrJoin(p, candidate, force, before.spoiled, a);
    }

    /** The switch: first bootstrap, re-bootstrap of the candidate, or join. */
    method BootstrapOrJoin(p: string, candidate: string, force: bool, ghost was: bool, a: WalkAnswer)
      returns (wrote: bool, failed: bool, ghost spoiled: bool)
      requires a.view != ViewError
      modifies this`net, this`log, this`founders, this`mysql
      ensures if a.view == SeesNone && MayBoot(old(mysql), candidate, force, p) then
                var e := Bootstrap(old(net), p, a.boot);
                && net == e.net && log == old(log) + [CallBootstrap(p), Close(p)] && wrote == e.ok && failed == !e.ok
                && mysql == (if e.ok then old(mysql).(bootstrapped := true, candidate := "") else old(mysql))
                && founders == (if e.ok then old(founders) + [Founder(p, At(old(net), p).sets)] else old(founders))
                && spoiled == (was || (!e.ok && Spoils(old(net), p, a.boot)))
              else
                var e := Join(old(net), p, a.join);
                && net == e.net && log == old(log) + [CallJoin(p), Close(p)] && !wrote && failed == !e.ok
                && mysql == old(mysql) && founders == old(founders) && spoiled == was
    {
      wrote, spoiled := false, was;
      var anyOnline := a.view == SeesOnline;
      var sets := At(net, p).sets;
      var ok: bool;
      if !mysql.bootstrapped && !anyOnline && (force || PodIdentity.OperatorOrdinal(p) == 0) {
        ok := BootstrapGroup(p, a.boot);
        log := log + [CallBootstrap(p), Close(p)];
        if ok {
          mysql := mysql.(bootstrapped := true, candidate := "");
          wrote := true;
          founders := founders + [Founder(p, sets)];
        }
        spoiled := was || (!ok && Spoils(old(net), p, a.boot));
      } else if mysql.bootstrapped && candidate != "" && p == candidate && !anyOnline {
        ok := BootstrapGroup(p, a.boot);
        log := log + [CallBootstrap(p), Close(p)];
        if ok {
          mysql := mysql.(candidate := "");
          wrote := true;
          founders := founders + [Founder(p, sets)];
        }
        spoiled := was || (!ok && Spoils(old(net), p, a.boot));
      } else {
        ok := JoinGroup(p, a.join);
        log := log + [CallJoin(p), Close(p)];
      }
      failed := !ok;
    }

    /** reconcilePods: the loop over the listed pods, left at the first error, with the
        in-memory status updated on the way. */
    method ReconcilePods(pods: seq<Pod>, force: bool, answers: seq<WalkAnswer>)
      returns (dirty: bool, failed: bool, ghost spoiled: bool)
      modifies this`net, this`log, this`founders, this`mysql
      ensures Walk(net, mysql, dirty, founders, log, failed, spoiled)
              == WalkAll(Walk(old(net), old(mysql), false, old(founders), old(log), false, false), pods, force, answers)
    {
      var candidate := mysql.candidate;
      dirty, failed, spoiled := false, false, false;
      ghost var whole := WalkAll(Walk(net, mysql, false, founders, log, false, false), pods, force, answers);
      for i := 0 to |pods|
        invariant !failed
        invariant var here := Walk(net, mysql, dirty, founders, log, false, spoiled);
                  whole == WalkFrom(here, pods, i, candidate, force, answers)
      {
        ghost var before := Walk(net, mysql, dirty, founders, log, false, spoiled);
        var wrote;
        wrote, failed, spoiled := ReconcilePod(pods[i], candidate, force, before, WalkAnswerAt(answers, i));
        dirty := dirty || wrote;
        if failed {
          return;
        }
      }
    }

    /** A status update with a fresh read of the object: it lands or is given up, and an
        update that changes nothing keeps the version. */
    method UpdateLatest(lands: bool)
      modifies this`status, this`version
      ensures status == if lands then mysql else old(status)
      ensures version == if lands && mysql != old(status) then old(version) + 1 else old(version)
    {
      if lands {
        if mysql != status {
          version := version + 1;
        }
        status := mysql;
      }
    }

    /** The candidate selection of a pass that found nobody online. */
    method SelectCandidate(infos: seq<GtidInfo>, compareOpen: bool, broken: Broken, lands: bool)
      returns (choice: Choice, ghost tie: nat)
      modifies this`log, this`mysql, this`status, this`version, this`picks
      ensures choice == Pick(infos, broken, tie)
      ensures log == old(log) + (if compareOpen then [CloseCompare] else [])
      ensures mysql == if choice.Chosen? then old(mysql).(candidate := choice.pod) else old(mysql)
      ensures status == if choice.Chosen? && lands then mysql else old(status)
      ensures version == if choice.Chosen? && lands && mysql != old(status) then old(version) + 1 else old(version)
      ensures picks == if choice.Chosen? && lands then old(picks) + 1 else old(picks)
    {
      var list := new GtidInfo[|infos|](i requires 0 <= i < |infos| => infos[i]);
      assert list[..] == infos;
      choice, tie := PickRestartCandidate(list, broken);
      CloseCompareConnection(compareOpen);
      if choice.Chosen? {
        mysql := mysql.(candidate := choice.pod);
        UpdateLatest(lands);
        if lands {
          picks := picks + 1;
        }
      }
    }

    /** reconcileGroupReplication: survey, then either select a candidate or walk the
        pods. An error leaves the status write to the caller. */
    method ReconcileGroupReplication(r: Inputs) returns (failed: bool, choice: Choice, ghost tie: nat)
      requires r.early == Proceed && r.gate == AllReady && mysql == r.seen.(phase := Ready)
      modifies this
      ensures choice == Pick(SurveyOf(old(View()), r).infos, r.broken, tie) || !Selects(old(View()), r)
      ensures Pass(old(View()), r, choice) == if failed then FailStatus(View(), mysql, r) else View()
    {
      tie, choice := 0, NoInfo;
      if !r.loads {
        failed := true;
        return;
      }
      var anyOnline, infos, compareOpen;
      anyOnline, infos, compareOpen, failed := CollectGroupInfo(r.pods, mysql.bootstrapped, mysql.candidate, r.survey);
      ghost var s := SurveyOf(old(View()), r);
      assert s == Survey(net, anyOnline, infos, compareOpen, log, failed);
      if failed {
        return;
      }
      if mysql.bootstrapped && !anyOnline && mysql.candidate == "" && |infos| > 0 {
        choice, tie := SelectCandidate(infos, compareOpen, r.broken, r.pickLands);
        failed := !choice.Chosen?;
        return;
      }
      assert !Selects(old(View()), r);
      var dirty;
      ghost var spoiled;
      dirty, failed, spoiled := ReconcilePods(r.pods, r.force, r.walk);
      assert WalkOf(old(View()), r) == Walk(net, mysql, dirty, founders, log, failed, spoiled);
      if !failed && dirty {
        UpdateLatest(r.walkLands);
      }
      CloseCompareConnection(compareOpen);
    }

    /** The deferred close. */
    method CloseCompareConnection(open: bool)
      modifies this`log
      ensures log == old(log) + (if open then [CloseCompare] else [])
    {
      if open {
        log := log + [CloseCompare];
      }
    }

    // -------------------------------------------------------------- mysql_controller.go

    /** failStatus: an update of the object as it was read, without a fresh read. */
    method WriteFailStatus(r: Inputs)
      modifies this`mysql, this`status, this`version
      ensures mysql == old(mysql).(phase := Degraded)
      ensures status == if r.failLands && old(version) == r.version then mysql else old(status)
      ensures version == if r.failLands && old(version) == r.version && mysql != old(status)
                         then old(version) + 1 else old(version)
    {
      mysql := mysql.(phase := Degraded);
      UpdateLatest(r.failLands && version == r.version);
    }

    /** Reconcile: one call changes the world as the function Reconcile says, whichever
        of several least ordinals the sort happens to put first. */
    method ReconcileOnce(r: Inputs) returns (choice: Choice, ghost tie: nat)
      modifies this
      ensures Selects(old(View()), r) ==> choice == Pick(SurveyOf(old(View()), r).infos, r.broken, tie)
      ensures View() == ReconcileChoosing(old(View()), r, choice)
      ensures r.early == Proceed && r.gate == NotReady && r.phaseLands ==> status.phase == Pending
    {
      tie, choice := 0, NoInfo;
      mysql := r.seen;
      if r.early == Requeued {
        return;
      }
      if r.early == FailsEarly {
        WriteFailStatus(r);
        return;
      }
      if r.gate == NoStatefulSet {
        return;
      }
      mysql := mysql.(phase := if r.gate == AllReady then Ready else Pending);
      var read := version;
      UpdateLatest(r.phaseLands);
      if r.phaseLands && r.touches {
        version := read + 1;
      }
      if r.gate == AllReady {
        ghost var w1 := View();
        assert w1 == StorePhase(old(View()), r, Ready);
        var failed;
        failed, choice, tie := ReconcileGroupReplication(r);
        if failed {
          WriteFailStatus(r);
        }
      }
    }

    /** One step of a run: the environment acts, or the operator reconciles. */
    method TakeStep(e: Event) returns (ghost taken: Event)
      modifies this
      ensures View() == Step(old(View()), taken) && SameEvents([e], [taken])
    {
      match e {
        case Env(event) =>
          net := ApplyEnv(net, event);
          taken := e;
        case Loop(r) =>
          var choice;
          ghost var tie;
          choice, tie := ReconcileOnce(r);
          ChoosingIsReconcile(old(View()), r, choice, tie);
          taken := Loop(r.(tie := tie));
      }
    }

    /** A whole run of the loops above is a run of the model, and from an empty status,
        under the assumptions, it ends with a single live group. */
    method Run(es: seq<Event>) returns (ghost trace: seq<Event>)
      modifies this
      ensures SameEvents(es, trace) && View() == Exec(old(View()), trace)
      ensures Fresh(old(View())) && GoodRun(old(View()), trace) ==> SingleGroup(net) && FlagsOff(net)
    {
      trace := [];
      for i := 0 to |es|
        invariant SameEvents(es[..i], trace) && View() == Exec(old(View()), trace)
      {
        ghost var taken := TakeStep(es[i]);
        ExecAppend(old(View()), trace, taken);
        trace := trace + [taken];
      }
      assert es[..|es|] == es;
      if Fresh(old(View())) && GoodRun(old(View()), trace) {
        SingleLiveGroup(old(View()), trace);
      }
    }
  }
}
