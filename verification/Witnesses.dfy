/**
 Inputs on which a property fails. Each assumption of the single-group theorem is
 needed: for every pair of pod names there is a run from a fresh cluster in which one
 call breaks that assumption and keeps the others, every other call keeps them all,
 and two groups are alive at the end. The theorem about a total outage needs a
 dominating report, the bound on Bootstrap calls a sound status, and the compare
 connection does leak.
 */
module Witnesses {
  import opened RestartCandidate
  import opened Servers
  import opened Protocol
  import opened Handles
  import opened Safety
  import opened CallOutcomes
  import Recovery

  const NONE := GtidSets({}, {})
  const SOME := GtidSets({Gtid("s", 1)}, {})

  predicate Names(a: string, b: string) {
    |a| > 0 && |b| > 0 && a != b
  }

  function Both(a: string, b: string): seq<Pod> {
    [Pod(a, true, true), Pod(b, true, true)]
  }

  function Start2(a: string, sa: Server, b: string, sb: Server, next: nat, status: Status): World {
    World(Net(map[a := sa, b := sb], [a, b], next), status, 0, [], 0, [])
  }

  /** A pass in which no call fails and the API accepts every write. */
  function Faultless(w: World, pods: seq<Pod>, force: bool): Inputs {
    Inputs(w.status, w.version, Proceed, AllReady, true, pods, force, [], {}, 0, [], true, false, true, true, true)
  }

  predicate TwoGroups(net: Net) {
    !SingleGroup(net)
  }

  datatype Hypothesis = H1 | H2 | H3 | H4 | H5

  /** The call breaks this assumption of the single-group theorem and keeps the others. */
  ghost predicate BreaksOnly(h: Hypothesis, w: World, r: Inputs) {
    && ProperNames(r.pods)
    && (ReadsStored(w, r) <==> h != H1)
    && (LandsBootstrap(w, r) <==> h != H2)
    && (SeesOnlinePods(w, r) <==> h != H3)
    && (QuietSurvey(r) <==> h != H4)
    && (CleanBootstraps(w, r) <==> h != H5)
  }

  /** A good run from a fresh cluster ends in `w`. */
  ghost predicate Reaches(start: World, es: seq<Event>, w: World) {
    Fresh(start) && GoodRun(start, es) && Exec(start, es) == w
  }

  lemma ReachesStart(start: World)
    requires Fresh(start)
    ensures Reaches(start, [], start)
  {
  }

  /** A good run can be continued by a good call or an environment event. */
  lemma ReachesNext(start: World, es: seq<Event>, w: World, e: Event)
    requires Reaches(start, es, w) && (e.Loop? ==> Assumptions(w, e.r))
    ensures Reaches(start, es + [e], Step(w, e))
  {
    RunNext(start, es, e);
  }

  lemma {:induction false} RunNext(start: World, es: seq<Event>, e: Event)
    requires GoodRun(start, es) && (e.Loop? ==> Assumptions(Exec(start, es), e.r))
    ensures GoodRun(start, es + [e]) && Exec(start, es + [e]) == Step(Exec(start, es), e)
    decreases |es|
  {
    if es == [] {
      assert [] + [e] == [e] && [e][1..] == [];
      assert GoodRun(Step(start, e), []) && Exec(Step(start, e), []) == Step(start, e);
    } else {
      assert (es + [e])[1..] == es[1..] + [e];
      RunNext(Step(start, es[0]), es[1..], e);
    }
  }

  lemma TwoOnline(net: Net, a: string, b: string)
    requires IsOnline(net, a) && IsOnline(net, b) && At(net, a).member != At(net, b).member
    ensures TwoGroups(net)
  {
  }

  lemma Survey2(s: Survey, pods: seq<Pod>, gather: bool, answers: seq<SurveyAnswer>)
    requires |pods| == 2 && !s.failed
    ensures var s1 := SurveyVisit(s, pods[0], gather, SurveyAnswerAt(answers, 0));
            SurveyFrom(s, pods, 0, gather, answers) ==
            if s1.failed then s1 else SurveyVisit(s1, pods[1], gather, SurveyAnswerAt(answers, 1))
  {
    var s1 := SurveyVisit(s, pods[0], gather, SurveyAnswerAt(answers, 0));
    assert SurveyFrom(s, pods, 0, gather, answers) == SurveyFrom(s1, pods, 1, gather, answers);
    if !s1.failed {
      var s2 := SurveyVisit(s1, pods[1], gather, SurveyAnswerAt(answers, 1));
      assert SurveyFrom(s1, pods, 1, gather, answers) == SurveyFrom(s2, pods, 2, gather, answers);
    }
  }

  lemma Walk2(s: Walk, pods: seq<Pod>, c: string, force: bool, answers: seq<WalkAnswer>)
    requires |pods| == 2 && !s.failed
    ensures var s1 := WalkVisit(s, pods[0], c, force, WalkAnswerAt(answers, 0));
            WalkFrom(s, pods, 0, c, force, answers) ==
            if s1.failed then s1 else WalkVisit(s1, pods[1], c, force, WalkAnswerAt(answers, 1))
  {
    var s1 := WalkVisit(s, pods[0], c, force, WalkAnswerAt(answers, 0));
    assert WalkFrom(s, pods, 0, c, force, answers) == WalkFrom(s1, pods, 1, c, force, answers);
    if !s1.failed {
      var s2 := WalkVisit(s1, pods[1], c, force, WalkAnswerAt(answers, 1));
      assert WalkFrom(s1, pods, 1, c, force, answers) == WalkFrom(s2, pods, 2, c, force, answers);
    }
  }

  // ---------------------------------------------------------------- the first group

  /** A pass that lists one pod and may bootstrap it. */
  function Alone(w: World, p: string): Inputs {
    Faultless(w, [Pod(p, true, true)], true)
  }

  /** The servers after `p` founded a group alone. */
  function Founded(net: Net, p: string): Net {
    Put(net, p, Server(Online(net.nextGroup), false, At(net, p).sets)).(nextGroup := net.nextGroup + 1)
  }

  lemma AloneWalk(w: World, p: string)
    requires Fresh(w) && p != ""
    ensures Walks(w, Alone(w, p))
    ensures var k := WalkOf(w, Alone(w, p));
            && !k.failed && !k.spoiled && k.dirty && k.net == Founded(w.net, p)
            && k.status == Status(Ready, true, "")
  {
    var r := Alone(w, p);
    assert ApplyEnvs(w.net, []) == w.net;
    var s1 := SurveyVisit(SurveyStart(w), r.pods[0], false, HEALTHY_SURVEY);
    assert SurveyOf(w, r) == SurveyFrom(s1, r.pods, 1, false, []) == s1;
    Recovery.QuietBootstrap(w.net, p);
    var k1 := WalkVisit(WalkStart(w, r), r.pods[0], "", true, HEALTHY_WALK);
    assert WalkOf(w, r) == WalkFrom(k1, r.pods, 1, "", true, []) == k1;
  }

  /** From a fresh cluster such a pass founds the first group. */
  lemma AloneFounds(w: World, p: string)
    requires Fresh(w) && p != ""
    ensures var w1 := Reconcile(w, Alone(w, p));
            && Reaches(w, [Loop(Alone(w, p))], w1)
            && w1.status == Status(Ready, true, "") && w1.net == Founded(w.net, p)
  {
    AloneWalk(w, p);
    ReachesStart(w);
    ReachesNext(w, [], w, Loop(Alone(w, p)));
    assert [] + [Loop(Alone(w, p))] == [Loop(Alone(w, p))];
  }

  // ---------------------------------------------------------------- the second group

  /** `a` is online, the status read lets `b` be bootstrapped, and nothing goes wrong. */
  predicate BootstrapsOther(w: World, r: Inputs, a: string, b: string) {
    && Names(a, b) && r == Faultless(w, Both(a, b), r.force).(seen := r.seen, version := r.version)
    && IsOnline(w.net, a) && At(w.net, b).member == Offline && GroupsOk(w.net) && w.net.servers.Keys == {a, b}
    && ((!r.seen.bootstrapped && r.force) || (r.seen.bootstrapped && r.seen.candidate == b))
  }

  lemma SecondBootstrap(w: World, r: Inputs, a: string, b: string)
    requires BootstrapsOther(w, r, a, b)
    ensures Walks(w, r) && WalkOf(w, r).net == Bootstrap(w.net, b, []).net
    ensures !WalkOf(w, r).spoiled && !WalkOf(w, r).failed
  {
    Survey2(SurveyStart(w), r.pods, Gathers(r.seen), r.survey);
    assert ApplyEnvs(w.net, []) == w.net;
    assert SurveyOf(w, r).net == w.net && !SurveyOf(w, r).failed && Walks(w, r);
    var k := WalkStart(w, r);
    Walk2(k, r.pods, r.seen.candidate, r.force, []);
    Recovery.QuietBootstrap(w.net, b);
    var k1 := WalkVisit(k, r.pods[0], r.seen.candidate, r.force, HEALTHY_WALK);
    assert k1.net == w.net && !k1.failed && k1.status == k.status;
  }

  /** The last step of every witness: a pass in which nothing goes wrong bootstraps `b`
      beside `a`. */
  lemma SecondGroup(w: World, r: Inputs, a: string, b: string)
    requires BootstrapsOther(w, r, a, b)
    ensures TwoGroups(Reconcile(w, r).net)
    ensures ReadsStored(w, r) ==> Assumptions(w, r)
    ensures !ReadsStored(w, r) ==> BreaksOnly(H1, w, r)
  {
    SecondBootstrap(w, r, a, b);
    Recovery.QuietBootstrap(w.net, b);
    NetOutcome(w, r);
    TwoOnline(WalkOf(w, r).net, a, b);
    assert Usable(r.pods[0]) && Usable(r.pods[1]);
    assert ListedFrom(r.pods, 0, a) && ListedFrom(r.pods, 0, b);
  }

  // ---------------------------------------------------------------- a stale read

  const DOWN := Server(Offline, false, NONE)

  function Untouched(a: string, b: string): World {
    Start2(a, DOWN, b, DOWN, 0, Status(NoPhase, false, ""))
  }

  /** The servers after `a` founded the first group alone. */
  function OneUp(a: string, b: string): Net {
    Net(map[a := Server(Online(0), false, NONE), b := DOWN], [a, b], 1)
  }

  lemma OneUpReached(a: string, b: string)
    requires Names(a, b)
    ensures var w := Untouched(a, b);
            var w1 := Reconcile(w, Alone(w, a));
            && Reaches(w, [Loop(Alone(w, a))], w1)
            && w1.status == Status(Ready, true, "") && w1.net == OneUp(a, b)
  {
    var w := Untouched(a, b);
    AloneFounds(w, a);
    assert Founded(w.net, a).servers == OneUp(a, b).servers;
  }

  /** H1: a call that reads the status and version stored before the first group was
      founded bootstraps another pod. */
  lemma StaleReadNeeded(a: string, b: string)
    requires Names(a, b)
    ensures var w := Untouched(a, b);
            var w1 := Reconcile(w, Alone(w, a));
            var stale := Faultless(w, Both(a, b), true);
            && Reaches(w, [Loop(Alone(w, a))], w1)
            && stale.seen == w.status && stale.version == w.version && BreaksOnly(H1, w1, stale)
            && TwoGroups(Reconcile(w1, stale).net)
  {
    OneUpReached(a, b);
    var w := Untouched(a, b);
    SecondGroup(Reconcile(w, Alone(w, a)), Faultless(w, Both(a, b), true), a, b);
  }

  // ---------------------------------------------------------------- a lost status write

  /** The second pod's join fails; the API accepts every write it can. */
  function LostWrite(a: string, b: string): Inputs {
    Faultless(Untouched(a, b), Both(a, b), true)
      .(walk := [HEALTHY_WALK, HEALTHY_WALK.(join := HEALTHY_JOIN.(reply := Failed))])
  }

  lemma LostWriteWalk(a: string, b: string)
    requires Names(a, b)
    ensures var k := WalkOf(Untouched(a, b), LostWrite(a, b));
            && Walks(Untouched(a, b), LostWrite(a, b)) && k.failed && k.dirty && !k.spoiled
            && k.net == OneUp(a, b)
  {
    var w, r := Untouched(a, b), LostWrite(a, b);
    Survey2(SurveyStart(w), r.pods, false, []);
    assert ApplyEnvs(w.net, []) == w.net;
    assert SurveyOf(w, r).net == w.net && Walks(w, r);
    var k := WalkStart(w, r);
    Walk2(k, r.pods, "", true, r.walk);
    Recovery.QuietBootstrap(w.net, a);
    var k1 := WalkVisit(k, r.pods[0], "", true, HEALTHY_WALK);
    assert ApplyEnvs(k1.net, []) == k1.net;
    assert k1.net.servers == OneUp(a, b).servers;
  }

  /** H2: a first bootstrap whose record is lost is repeated on another pod, when the
      resource forces bootstraps. No write is refused for want of an API: the record is
      lost because the phase write of the same pass changed the object. */
  lemma LandedWriteNeeded(a: string, b: string)
    requires Names(a, b)
    ensures var w, r1 := Untouched(a, b), LostWrite(a, b);
            var w1 := Reconcile(w, r1);
            var r2 := Faultless(w1, Both(a, b), true);
            && Fresh(w) && BreaksOnly(H2, w, r1) && r1.phaseLands && r1.walkLands && r1.failLands
            && Assumptions(w1, r2) && TwoGroups(Reconcile(w1, r2).net)
  {
    LostWriteWalk(a, b);
    var w, r1 := Untouched(a, b), LostWrite(a, b);
    FailedPassKeepsRecordIff(w, r1);
    NetOutcome(w, r1);
    var w1 := Reconcile(w, r1);
    SecondGroup(w1, Faultless(w1, Both(a, b), true), a, b);
  }

  // ---------------------------------------------------------------- a half-failed Bootstrap

  function HalfBoot(a: string, b: string): Inputs {
    Faultless(Untouched(a, b), Both(a, b), true).(walk := [HEALTHY_WALK.(boot := [Done, Lost])])
  }

  lemma HalfBootOutcome(a: string, b: string)
    requires Names(a, b)
    ensures var w := Untouched(a, b);
            var w1 := Reconcile(w, HalfBoot(a, b));
            && !CleanBootstraps(w, HalfBoot(a, b)) && LandsBootstrap(w, HalfBoot(a, b))
            && w1.status == Status(Ready, false, "")
            && w1.net == Net(map[a := Server(Online(0), true, NONE), b := DOWN], [a, b], 1)
  {
    var w := Untouched(a, b);
    var r := HalfBoot(a, b);
    Survey2(SurveyStart(w), r.pods, false, []);
    assert ApplyEnvs(w.net, []) == w.net;
    assert SurveyOf(w, r).net == w.net && Walks(w, r);
    var k := WalkStart(w, r);
    Walk2(k, r.pods, "", true, r.walk);
    var n1 := Execute(w.net, a, FlagOn, Done);
    var n2 := Execute(n1, a, StartGroup, Lost);
    assert Bootstrap(w.net, a, [Done, Lost]) == BootstrapFrom(n1, a, 1, [Done, Lost]);
    assert BootstrapFrom(n1, a, 1, [Done, Lost]) == Effect(n2, false);
    assert n2.servers == map[a := Server(Online(0), true, NONE), b := DOWN];
    assert WalkOf(w, r) == WalkVisit(k, r.pods[0], "", true, r.walk[0]);
    NetOutcome(w, r);
  }

  /** H5: a Bootstrap whose START took effect but whose reply was lost leaves a group
      the status does not know of, and a forced bootstrap creates a second one. */
  lemma CleanBootstrapNeeded(a: string, b: string)
    requires Names(a, b)
    ensures var w := Untouched(a, b);
            var r1 := HalfBoot(a, b);
            var w1 := Reconcile(w, r1);
            var r2 := Faultless(w1, Both(a, b), true);
            && Fresh(w) && BreaksOnly(H5, w, r1)
            && Assumptions(w1, r2) && TwoGroups(Reconcile(w1, r2).net)
  {
    HalfBootOutcome(a, b);
    var w1 := Reconcile(Untouched(a, b), HalfBoot(a, b));
    SecondGroup(w1, Faultless(w1, Both(a, b), true), a, b);
  }

  // ---------------------------------------------------------------- an online pod missing from the list

  /** A pass that lists the offline pod only. */
  function Hidden(w: World, b: string): Inputs {
    Faultless(w, [Pod(b, true, true)], false)
  }

  lemma HiddenOutcome(w: World, a: string, b: string)
    requires Names(a, b) && w.net == OneUp(a, b) && w.status == Status(Ready, true, "")
    ensures var w1 := Reconcile(w, Hidden(w, b));
            Selects(w, Hidden(w, b)) && w1.status == Status(Ready, true, b) && w1.net == w.net
  {
    var r := Hidden(w, b);
    var s := SurveyStart(w);
    assert ApplyEnvs(w.net, []) == w.net;
    var s1 := SurveyVisit(s, r.pods[0], true, HEALTHY_SURVEY);
    assert SurveyOf(w, r) == SurveyFrom(s1, r.pods, 1, true, []);
    assert SurveyOf(w, r) == s1;
    assert s1.infos == [InfoOf(w.net, b)];
    PickMeetsSpec(s1.infos, {}, 0);
    NetOutcome(w, r);
  }

  /** H3: a pass that does not list the online pod starts a restart beside it. */
  lemma ListedOnlineNeeded(a: string, b: string)
    requires Names(a, b)
    ensures var w := Untouched(a, b);
            var w1 := Reconcile(w, Alone(w, a));
            var w2 := Reconcile(w1, Hidden(w1, b));
            var r := Faultless(w2, Both(a, b), false);
            && Reaches(w, [Loop(Alone(w, a))], w1) && BreaksOnly(H3, w1, Hidden(w1, b))
            && Assumptions(w2, r) && TwoGroups(Reconcile(w2, r).net)
  {
    OneUpReached(a, b);
    var w := Untouched(a, b);
    var w1 := Reconcile(w, Alone(w, a));
    HiddenOutcome(w1, a, b);
    assert w1.net.servers[a].member.Online? && !ListedFrom(Hidden(w1, b).pods, 0, a);
    var w2 := Reconcile(w1, Hidden(w1, b));
    SecondGroup(w2, Faultless(w2, Both(a, b), false), a, b);
  }

  // ---------------------------------------------------------------- recovery ending during a survey

  /** A fresh cluster whose pod `b` holds a transaction. */
  function Seeded(a: string, b: string): World {
    Start2(a, DOWN, b, Server(Offline, false, SOME), 0, Status(NoPhase, false, ""))
  }

  /** A pass in which `a` joins and is still recovering when the pass ends. */
  function SlowJoin(w: World, a: string, b: string): Inputs {
    Faultless(w, Both(a, b), false).(walk := [HEALTHY_WALK.(join := HEALTHY_JOIN.(arrives := false))])
  }

  /** `a` is asked while recovering, then comes online with donor `b`, which leaves the
      group before it is asked. */
  function Race(w: World, a: string, b: string): Inputs {
    Faultless(w, Both(a, b), false)
      .(survey := [HEALTHY_SURVEY, HEALTHY_SURVEY.(env := [Promote(a), Leave(b)])])
  }

  function DonorUp(a: string, b: string): Net {
    Net(map[a := DOWN, b := Server(Online(0), false, SOME)], [a, b], 1)
  }

  function RaceStart(a: string, b: string): Net {
    Net(map[a := Server(Recovering(0), false, NONE), b := Server(Online(0), false, SOME)], [a, b], 1)
  }

  function RaceEnd(a: string, b: string): Net {
    Net(map[a := Server(Online(0), false, NONE), b := Server(Offline, false, SOME)], [a, b], 1)
  }

  lemma DonorUpReached(a: string, b: string)
    requires Names(a, b)
    ensures var w := Seeded(a, b);
            var w1 := Reconcile(w, Alone(w, b));
            && Reaches(w, [Loop(Alone(w, b))], w1)
            && w1.status == Status(Ready, true, "") && w1.net == DonorUp(a, b)
  {
    var w := Seeded(a, b);
    AloneFounds(w, b);
    assert Founded(w.net, b).servers == DonorUp(a, b).servers;
  }

  lemma SlowJoinWalk(w: World, a: string, b: string)
    requires Names(a, b) && w.net == DonorUp(a, b) && w.status == Status(Ready, true, "")
    ensures var r := SlowJoin(w, a, b);
            var k := WalkOf(w, r);
            && Walks(w, r) && !k.failed && !k.dirty && !k.spoiled && k.net == RaceStart(a, b)
  {
    var r := SlowJoin(w, a, b);
    Survey2(SurveyStart(w), r.pods, true, []);
    assert ApplyEnvs(w.net, []) == w.net;
    assert SurveyOf(w, r).net == w.net && SurveyOf(w, r).anyOnline && Walks(w, r);
    var k := WalkStart(w, r);
    Walk2(k, r.pods, "", false, r.walk);
    SlowStart(a, b);
    var k1 := WalkVisit(k, r.pods[0], "", false, r.walk[0]);
    assert k1.net == RaceStart(a, b);
    assert ApplyEnvs(k1.net, []) == k1.net;
  }

  lemma SlowStart(a: string, b: string)
    requires Names(a, b)
    ensures Start(DonorUp(a, b), a, {}, false) == RaceStart(a, b)
  {
    var net := DonorUp(a, b);
    assert FirstLive(net, [b], {}) == 0;
    assert [a, b][1..] == [b];
    assert FirstLive(net, [a, b], {}) == 0;
    assert Put(net, a, Server(Recovering(0), false, NONE)).servers == RaceStart(a, b).servers;
  }

  /** The start of the race lies on a good run from a fresh cluster. */
  lemma RaceReached(a: string, b: string)
    requires Names(a, b)
    ensures var w := Seeded(a, b);
            var w1 := Reconcile(w, Alone(w, b));
            var w2 := Reconcile(w1, SlowJoin(w1, a, b));
            && Reaches(w, [Loop(Alone(w, b)), Loop(SlowJoin(w1, a, b))], w2)
            && w2.status == Status(Ready, true, "") && w2.net == RaceStart(a, b)
  {
    DonorUpReached(a, b);
    var w := Seeded(a, b);
    var w1 := Reconcile(w, Alone(w, b));
    var r := SlowJoin(w1, a, b);
    SlowJoinWalk(w1, a, b);
    assert Usable(r.pods[1]) && ListedFrom(r.pods, 0, b);
    ReachesNext(w, [Loop(Alone(w, b))], w1, Loop(r));
    NetOutcome(w1, r);
    assert [Loop(Alone(w, b))] + [Loop(r)] == [Loop(Alone(w, b)), Loop(r)];
  }

  lemma RaceEnvironment(a: string, b: string)
    requires Names(a, b)
    ensures ApplyEnvs(RaceStart(a, b), [Promote(a), Leave(b)]) == RaceEnd(a, b)
  {
    var net := RaceStart(a, b);
    assert HasDonor(net, a, 0) by {
      assert b in net.servers && net.servers[b].member == Online(0);
    }
    var mid := ApplyEnv(net, Promote(a));
    assert mid == Put(net, a, Server(Online(0), false, NONE));
    var end := ApplyEnv(mid, Leave(b));
    assert end.servers == RaceEnd(a, b).servers;
    assert [Promote(a), Leave(b)][1..] == [Leave(b)];
    assert ApplyEnvs(mid, [Leave(b)]) == ApplyEnvs(end, []);
  }

  predicate Racing(w: World, a: string, b: string) {
    Names(a, b) && w.net == RaceStart(a, b) && w.status == Status(Ready, true, "")
  }

  lemma RaceSurvey(w: World, a: string, b: string)
    requires Racing(w, a, b)
    ensures var s := SurveyOf(w, Race(w, a, b));
            && !s.failed && !s.anyOnline && s.net == RaceEnd(a, b)
            && s.infos == [InfoOf(RaceStart(a, b), a), InfoOf(RaceEnd(a, b), b)]
  {
    var r := Race(w, a, b);
    Survey2(SurveyStart(w), r.pods, true, r.survey);
    assert ApplyEnvs(w.net, []) == w.net;
    RaceEnvironment(a, b);
  }

  lemma RacePick(a: string, b: string)
    requires Names(a, b)
    ensures Pick([InfoOf(RaceStart(a, b), a), InfoOf(RaceEnd(a, b), b)], {}, 0) == Chosen(b)
  {
    var infos := [InfoOf(RaceStart(a, b), a), InfoOf(RaceEnd(a, b), b)];
    assert Dominates(infos, 1);
    assert !Dominates(infos, 0) by {
      assert Gtid("s", 1) in SOME.executed;
      assert !Contains(infos[0].sets, infos[1].sets);
    }
    PickMeetsSpec(infos, {}, 0);
  }

  lemma RaceOutcome(w: World, a: string, b: string)
    requires Racing(w, a, b)
    ensures var w1 := Reconcile(w, Race(w, a, b));
            && Selects(w, Race(w, a, b))
            && w1.status == Status(Ready, true, b) && w1.net == RaceEnd(a, b)
  {
    RaceSurvey(w, a, b);
    RacePick(a, b);
    NetOutcome(w, Race(w, a, b));
  }

  lemma RaceBreaksH4(w: World, a: string, b: string)
    requires Racing(w, a, b)
    ensures BreaksOnly(H4, w, Race(w, a, b))
  {
    RaceOutcome(w, a, b);
    var r := Race(w, a, b);
    assert r.survey[1].env[0] == Promote(a) && !ListedFrom(r.pods, 1, a);
    assert Usable(r.pods[1]) && r.pods[1].name == b;
    assert ListedFrom(r.pods, 0, b);
  }

  /** H4: the survey asks pods one after the other, so a pod that finishes recovery
      after it was asked can hide the only live group. */
  lemma QuietSurveyNeeded(a: string, b: string)
    requires Names(a, b)
    ensures var w := Seeded(a, b);
            var w1 := Reconcile(w, Alone(w, b));
            var w2 := Reconcile(w1, SlowJoin(w1, a, b));
            var w3 := Reconcile(w2, Race(w2, a, b));
            var r := Faultless(w3, Both(a, b), false);
            && Reaches(w, [Loop(Alone(w, b)), Loop(SlowJoin(w1, a, b))], w2)
            && BreaksOnly(H4, w2, Race(w2, a, b))
            && Assumptions(w3, r) && TwoGroups(Reconcile(w3, r).net)
  {
    RaceReached(a, b);
    var w1 := Reconcile(Seeded(a, b), Alone(Seeded(a, b), b));
    var w2 := Reconcile(w1, SlowJoin(w1, a, b));
    RaceOutcome(w2, a, b);
    RaceBreaksH4(w2, a, b);
    var w3 := Reconcile(w2, Race(w2, a, b));
    SecondGroup(w3, Faultless(w3, Both(a, b), false), a, b);
  }

  // ---------------------------------------------------------------- a candidate without a group

  /** A status no run stores: a candidate before the first bootstrap. */
  function Unfounded(a: string, b: string): World {
    Start2(a, DOWN, b, DOWN, 0, Status(Ready, false, b))
  }

  /** A pass that reads a candidate without a recorded group calls Bootstrap twice: the
      first clears the candidate in the status and not in the copy the loop uses. */
  lemma StatusOkNeeded(a: string, b: string)
    requires Names(a, b)
    ensures var w := Unfounded(a, b);
            var w' := Reconcile(w, Faultless(w, Both(a, b), true));
            && Boots(w.log) == 0 && Boots(w'.log) == 2 && |w'.founders| == 2 && TwoGroups(w'.net)
  {
    var w := Unfounded(a, b);
    var r := Faultless(w, Both(a, b), true);
    Survey2(SurveyStart(w), r.pods, false, []);
    assert ApplyEnvs(w.net, []) == w.net;
    assert SurveyOf(w, r).net == w.net && Walks(w, r);
    SurveyNeverBootstraps(SurveyStart(w), r.pods, 0, false, []);
    AddsNoneCounts(w.log, SurveyOf(w, r).log);
    var k := WalkStart(w, r);
    Walk2(k, r.pods, b, true, []);
    Recovery.QuietBootstrap(w.net, a);
    var k1 := WalkVisit(k, r.pods[0], b, true, HEALTHY_WALK);
    assert ApplyEnvs(k1.net, []) == k1.net;
    VisitBoots(k, r.pods[0], b, true, HEALTHY_WALK);
    Recovery.QuietBootstrap(k1.net, b);
    VisitBoots(k1, r.pods[1], b, true, HEALTHY_WALK);
    TwoOnline(WalkOf(w, r).net, a, b);
    NetOutcome(w, r);
    FoundersOutcome(w, r);
    LogOutcome(w, r);
    assert WalkOf(w, r).log + [] == WalkOf(w, r).log;
  }

  // ---------------------------------------------------------------- a leaked connection

  function BothDown(a: string, b: string): World {
    Start2(a, DOWN, b, DOWN, 1, Status(Ready, true, ""))
  }

  /** The first visit opens the compare connection, the second connect fails. */
  function BrokenSurvey(a: string, b: string): Inputs {
    Faultless(BothDown(a, b), Both(a, b), false)
      .(survey := [HEALTHY_SURVEY, HEALTHY_SURVEY.(connect := false)])
  }

  /** A survey of two pods that fails at the second leaves one connection open. */
  lemma CompareLeaks(a: string, b: string)
    requires Names(a, b)
    ensures CompareOpen(BothDown(a, b).log) == 0
    ensures CompareOpen(Reconcile(BothDown(a, b), BrokenSurvey(a, b)).log) == 1
  {
    var w, r := BothDown(a, b), BrokenSurvey(a, b);
    Survey2(SurveyStart(w), r.pods, true, r.survey);
    assert ApplyEnvs(w.net, []) == w.net;
    assert SurveyOf(w, r).failed && SurveyOf(w, r).compareOpen;
    CompareLeaksIff(w, r);
  }

  // ---------------------------------------------------------------- reports nobody dominates

  function Holds(n: nat): GtidSets {
    GtidSets({Gtid("s", n)}, {})
  }

  /** Two pods that each hold a transaction the other lacks: whichever is chosen, a
      transaction is left behind. */
  lemma IncomparablePick(a: string, b: string, i: int, j: int, tie: nat)
    requires Names(a, b)
    ensures var infos := [GtidInfo(a, i, Holds(1)), GtidInfo(b, j, Holds(2))];
            && !(exists k: nat :: Dominates(infos, k))
            && Pick(infos, {}, tie).Chosen?
            && (Pick(infos, {}, tie).pod == a || Pick(infos, {}, tie).pod == b)
            && forall c :: 0 <= c < 2 && infos[c].pod == Pick(infos, {}, tie).pod ==>
                 !Contains(infos[c].sets, infos[1 - c].sets)
  {
    var infos := [GtidInfo(a, i, Holds(1)), GtidInfo(b, j, Holds(2))];
    assert Gtid("s", 1) in Holds(1).executed && Gtid("s", 2) in Holds(2).executed;
    assert !Contains(Holds(1), Holds(2)) && !Contains(Holds(2), Holds(1));
    assert infos[0].sets == Holds(1) && infos[1].sets == Holds(2);
    PickMeetsSpec(infos, {}, tie);
  }

  function Apart(a: string, b: string): World {
    Start2(a, Server(Offline, false, Holds(1)), b, Server(Offline, false, Holds(2)), 0, Status(NoPhase, false, ""))
  }

  /** Pod `a` founds the first group alone and leaves it again. */
  function Prelude(a: string, b: string): seq<Event> {
    [Loop(Alone(Apart(a, b), a)), Env(Leave(a))]
  }

  function ApartDown(a: string, b: string): Net {
    Net(map[a := Server(Offline, false, Holds(1)), b := Server(Offline, false, Holds(2))], [a, b], 1)
  }

  lemma PreludeOutcome(a: string, b: string)
    requires Names(a, b)
    ensures var w0 := Exec(Apart(a, b), Prelude(a, b));
            && Reaches(Apart(a, b), Prelude(a, b), w0)
            && w0.status == Status(Ready, true, "") && w0.net == ApartDown(a, b)
  {
    var w := Apart(a, b);
    AloneFounds(w, a);
    var w1 := Reconcile(w, Alone(w, a));
    ReachesNext(w, [Loop(Alone(w, a))], w1, Env(Leave(a)));
    assert [Loop(Alone(w, a))] + [Env(Leave(a))] == Prelude(a, b);
    assert ApplyEnv(w1.net, Leave(a)).servers == ApartDown(a, b).servers;
  }

  lemma ApartHoldsNone(w0: World, r: Inputs)
    requires |r.pods| == 2 && Usable(r.pods[0]) && Usable(r.pods[1])
    requires Held(w0, r, 0) == Holds(1) && Held(w0, r, 1) == Holds(2)
    ensures !(exists k: nat :: HoldsAll(w0, r, k))
  {
    assert Gtid("s", 1) in Holds(1).executed && Gtid("s", 2) in Holds(2).executed;
    assert !Contains(Holds(1), Holds(2)) && !Contains(Holds(2), Holds(1));
  }

  lemma ApartPick(w0: World, a: string, b: string)
    requires Names(a, b) && w0.status == Status(Ready, true, "") && w0.net == ApartDown(a, b)
    ensures var r := Faultless(w0, Both(a, b), false);
            && Assumptions(w0, r) && LandsPick(w0, r)
            && SurveyOf(w0, r).infos == [InfoOf(w0.net, a), InfoOf(w0.net, b)]
            && Held(w0, r, 0) == Holds(1) && Held(w0, r, 1) == Holds(2)
            && !(exists k: nat :: HoldsAll(w0, r, k))
            && Reconcile(w0, r).net == w0.net && Reconcile(w0, r).status.bootstrapped
            && (Reconcile(w0, r).status.candidate == a || Reconcile(w0, r).status.candidate == b)
  {
    var r := Faultless(w0, Both(a, b), false);
    Survey2(SurveyStart(w0), r.pods, true, []);
    assert ApplyEnvs(w0.net, []) == w0.net;
    assert SurveyOf(w0, r).infos == [InfoOf(w0.net, a), InfoOf(w0.net, b)];
    IncomparablePick(a, b, InfoOf(w0.net, a).ordinal, InfoOf(w0.net, b).ordinal, 0);
    HeldWhenStill(w0, r, 0);
    HeldWhenStill(w0, r, 1);
    ApartHoldsNone(w0, r);
    PickOutcome(w0, r);
    NetOutcome(w0, r);
  }

  predicate ApartPending(w1: World, a: string, b: string) {
    && Names(a, b) && w1.net == ApartDown(a, b) && w1.status.bootstrapped
    && (w1.status.candidate == a || w1.status.candidate == b)
  }

  lemma ApartStart(w1: World, a: string, b: string)
    requires ApartPending(w1, a, b)
    ensures var r := Faultless(w1, Both(a, b), false);
            Walks(w1, r) && WalkStart(w1, r).net == w1.net
  {
    Survey2(SurveyStart(w1), Both(a, b), false, []);
    assert ApplyEnvs(w1.net, []) == w1.net;
  }

  lemma ApartWalk(w1: World, a: string, b: string)
    requires ApartPending(w1, a, b)
    ensures var c, r := w1.status.candidate, Faultless(w1, Both(a, b), false);
            && Walks(w1, r) && !WalkOf(w1, r).failed && !WalkOf(w1, r).spoiled
            && WalkOf(w1, r).founders == w1.founders + [Founder(c, At(w1.net, c).sets)]
  {
    ApartStart(w1, a, b);
    var c, r := w1.status.candidate, Faultless(w1, Both(a, b), false);
    var k := WalkStart(w1, r);
    Walk2(k, r.pods, c, false, []);
    Recovery.QuietBootstrap(w1.net, c);
    assert ApplyEnvs(w1.net, []) == w1.net;
    var k1 := WalkVisit(k, r.pods[0], c, false, HEALTHY_WALK);
    assert ApplyEnvs(k1.net, []) == k1.net;
    if c == b {
      assert FirstLive(w1.net, w1.net.seeds, {}) < 0;
      assert k1.net == w1.net;
    }
  }

  /** The next pass founds the group on the candidate, which holds what it held. */
  lemma ApartBoot(w1: World, a: string, b: string)
    requires ApartPending(w1, a, b)
    ensures var c, r := w1.status.candidate, Faultless(w1, Both(a, b), false);
            && Assumptions(w1, r)
            && Reconcile(w1, r).founders == w1.founders + [Founder(c, At(w1.net, c).sets)]
  {
    ApartWalk(w1, a, b);
    FoundersOutcome(w1, Faultless(w1, Both(a, b), false));
  }

  /** Without a dominating report a total outage does lose transactions: a run that meets
      every other hypothesis of the no-loss theorem, whose founder lacks a transaction a
      surveyed pod held. */
  lemma DominationNeeded(a: string, b: string)
    requires Names(a, b)
    ensures var w0 := Exec(Apart(a, b), Prelude(a, b));
            var pick := Faultless(w0, Both(a, b), false);
            var w1 := Reconcile(w0, pick);
            var boot := Faultless(w1, Both(a, b), false);
            && Reaches(Apart(a, b), Prelude(a, b), w0)
            && Assumptions(w0, pick) && LandsPick(w0, pick) && !(exists k: nat :: HoldsAll(w0, pick, k))
            && Assumptions(w1, boot) && |Reconcile(w1, boot).founders| > |w1.founders|
            && exists k :: 0 <= k < |pick.pods| && Usable(pick.pods[k])
                 && !Contains(Reconcile(w1, boot).founders[|w1.founders|].sets, Held(w0, pick, k))
  {
    PreludeOutcome(a, b);
    var w0 := Exec(Apart(a, b), Prelude(a, b));
    ApartPick(w0, a, b);
    var pick := Faultless(w0, Both(a, b), false);
    var w1 := Reconcile(w0, pick);
    ApartBoot(w1, a, b);
    assert Gtid("s", 1) in Holds(1).executed && Gtid("s", 2) in Holds(2).executed;
    if w1.status.candidate == a {
      assert Usable(pick.pods[1]) && !Contains(Holds(1), Held(w0, pick, 1));
    } else {
      assert Usable(pick.pods[0]) && !Contains(Holds(2), Held(w0, pick, 0));
    }
  }
}
