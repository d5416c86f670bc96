/**
 One Reconcile call of the operator and runs of such calls
 (internal/controller/mysql_controller.go, internal/controller/group_replication.go).

 Whatever the cluster answers is an explicit input, so a statement for all inputs
 is a statement for all behaviours of the cluster. Answer lists may be shorter than
 the pod list: a missing answer is a healthy one.
 */
module Protocol {
  import opened RestartCandidate
  import opened Servers
  import PodIdentity

  // ---------------------------------------------------------------- stored and listed things

  datatype Phase = NoPhase | Ready | Pending | Degraded

  /** The fields of MySQLStatus the reconciliation reads or writes. */
  datatype Status = Status(phase: Phase, bootstrapped: bool, candidate: string)

  datatype Pod = Pod(name: string, ready: bool, hasIP: bool)

  predicate Usable(pod: Pod) {
    pod.ready && pod.hasIP
  }

  /** What Kubernetes guarantees of a pod list. */
  predicate ProperNames(pods: seq<Pod>) {
    && (forall i :: 0 <= i < |pods| ==> pods[i].name != "")
    && (forall i, j :: 0 <= i < j < |pods| ==> pods[i].name != pods[j].name)
  }

  /** Calls on replication clients and on the compare connection, in order. */
  datatype Call =
    | Connect(pod: string) | Close(pod: string)
    | AskSelf(pod: string) | AskGtid(pod: string) | EnsureUser(pod: string) | AskView(pod: string)
    | CallBootstrap(pod: string) | CallJoin(pod: string)
    | OpenCompare | CloseCompare

  // ---------------------------------------------------------------- collectGroupInfo

  /** Answers to one survey visit. `env` happens just before the visit; the flags say
      which calls succeed. */
  datatype SurveyAnswer = SurveyAnswer(env: seq<EnvEvent>, connect: bool, self: bool, gtid: bool, open: bool)

  const HEALTHY_SURVEY := SurveyAnswer([], true, true, true, true)

  function SurveyAnswerAt(answers: seq<SurveyAnswer>, i: nat): SurveyAnswer {
    if i < |answers| then answers[i] else HEALTHY_SURVEY
  }

  datatype Survey = Survey(
    net: Net, anyOnline: bool, infos: seq<GtidInfo>, compareOpen: bool, log: seq<Call>, failed: bool)

  function InfoOf(net: Net, pod: string): GtidInfo {
    GtidInfo(pod, PodIdentity.OperatorOrdinal(pod), At(net, pod).sets)
  }

  function SurveyVisit(s: Survey, pod: Pod, gather: bool, a: SurveyAnswer): Survey {
    if !Usable(pod) then s
    else
      var p := pod.name;
      var net := ApplyEnvs(s.net, a.env);
      var asked := s.log + [Connect(p), AskSelf(p)];
      if !a.connect then s.(net := net, failed := true)
      else if !a.self then s.(net := net, log := asked + [Close(p)], failed := true)
      else if IsOnline(net, p) then s.(net := net, anyOnline := true, log := asked + [Close(p)])
      else if !gather then s.(net := net, log := asked + [Close(p)])
      else if !a.gtid then s.(net := net, log := asked + [AskGtid(p), Close(p)], failed := true)
      else
        var infos := s.infos + [InfoOf(net, p)];
        if s.compareOpen then s.(net := net, infos := infos, log := asked + [AskGtid(p), Close(p)])
        else if !a.open then s.(net := net, infos := infos, log := asked + [AskGtid(p), Close(p)], failed := true)
        else s.(net := net, infos := infos, compareOpen := true, log := asked + [AskGtid(p), OpenCompare, Close(p)])
  }

  function SurveyFrom(s: Survey, pods: seq<Pod>, i: nat, gather: bool, answers: seq<SurveyAnswer>): Survey
    decreases |pods| - i
  {
    if s.failed || i >= |pods| then s
    else SurveyFrom(SurveyVisit(s, pods[i], gather, SurveyAnswerAt(answers, i)), pods, i + 1, gather, answers)
  }

  // ---------------------------------------------------------------- reconcilePods

  /** AnyOnlineMember, a pod's own view of its group: any answer is possible. */
  datatype View = SeesNone | SeesOnline | ViewError

  datatype WalkAnswer = WalkAnswer(
    env: seq<EnvEvent>, connect: bool, self: bool, user: bool, view: View, boot: seq<Reply>, join: JoinAnswer)

  const HEALTHY_WALK := WalkAnswer([], true, true, true, SeesNone, [], HEALTHY_JOIN)

  function WalkAnswerAt(answers: seq<WalkAnswer>, i: nat): WalkAnswer {
    if i < |answers| then answers[i] else HEALTHY_WALK
  }

  /** A Bootstrap call that returned without error: the pod, and what it held. */
  datatype Founder = Founder(pod: string, sets: GtidSets)

  /** `spoiled` records that some Bootstrap call failed half-way (Servers.Spoils). */
  datatype Walk = Walk(
    net: Net, status: Status, dirty: bool, founders: seq<Founder>, log: seq<Call>, failed: bool, spoiled: bool)

  predicate FirstBootstrap(status: Status, pod: string, force: bool, view: View) {
    !status.bootstrapped && view == SeesNone && (force || PodIdentity.OperatorOrdinal(pod) == 0)
  }

  predicate Rebootstrap(status: Status, pod: string, candidate: string, view: View) {
    status.bootstrapped && candidate != "" && pod == candidate && view == SeesNone
  }

  /** One pod of the loop. `candidate` is the value the loop started with; it is not
      updated when a bootstrap clears the field in `status`. */
  function WalkVisit(s: Walk, pod: Pod, candidate: string, force: bool, a: WalkAnswer): Walk {
    if !Usable(pod) then s
    else
      var p := pod.name;
      var net := ApplyEnvs(s.net, a.env);
      var asked := s.log + [Connect(p), AskSelf(p)];
      var viewed := asked + [EnsureUser(p), AskView(p)];
      if !a.connect then s.(net := net, failed := true)
      else if !a.self then s.(net := net, log := asked + [Close(p)], failed := true)
      else if IsOnline(net, p) then s.(net := net, log := asked + [Close(p)])
      else if !a.user then s.(net := net, log := asked + [EnsureUser(p), Close(p)], failed := true)
      else if a.view == ViewError then s.(net := net, log := viewed + [Close(p)], failed := true)
      else if FirstBootstrap(s.status, p, force, a.view) || Rebootstrap(s.status, p, candidate, a.view) then
        var e := Bootstrap(net, p, a.boot);
        var s' := s.(net := e.net, log := viewed + [CallBootstrap(p), Close(p)]);
        if !e.ok then s'.(failed := true, spoiled := s.spoiled || Spoils(net, p, a.boot))
        else s'.(
          status := s.status.(bootstrapped := true, candidate := ""),
          dirty := true,
          founders := s.founders + [Founder(p, At(net, p).sets)])
      else
        var e := Join(net, p, a.join);
        s.(net := e.net, log := viewed + [CallJoin(p), Close(p)], failed := !e.ok)
  }

  function WalkFrom(s: Walk, pods: seq<Pod>, i: nat, candidate: string, force: bool, answers: seq<WalkAnswer>): Walk
    decreases |pods| - i
  {
    if s.failed || i >= |pods| then s
    else
      var s' := WalkVisit(s, pods[i], candidate, force, WalkAnswerAt(answers, i));
      WalkFrom(s', pods, i + 1, candidate, force, answers)
  }

  function WalkAll(s: Walk, pods: seq<Pod>, force: bool, answers: seq<WalkAnswer>): Walk {
    WalkFrom(s, pods, 0, s.status.candidate, force, answers)
  }

  // ---------------------------------------------------------------- Reconcile

  /** How the part of Reconcile before the status writes ends: it goes on, is
      requeued (or finds nothing to do), or fails through failStatus. */
  datatype Early = Proceed | Requeued | FailsEarly

  /** The StatefulSet as read back: unreadable, not yet ready, or fully ready. */
  datatype Gate = NoStatefulSet | NotReady | AllReady

  /** Everything one Reconcile call is told. `seen` and `version` are the status and the
      resource version it reads; the `...Lands` flags say which status writes the API
      accepts, and `touches` that the phase write also changes replica counts or the
      message, which are not modelled. */
  datatype Inputs = Inputs(
    seen: Status, version: nat, early: Early, gate: Gate, loads: bool, pods: seq<Pod>, force: bool,
    survey: seq<SurveyAnswer>, broken: Broken, tie: nat, walk: seq<WalkAnswer>,
    phaseLands: bool, touches: bool, pickLands: bool, walkLands: bool, failLands: bool)

  /** The stored status with its resource version, the servers, and the history:
      Bootstrap calls that succeeded, candidate picks that reached the store, and
      client calls. */
  datatype World = World(net: Net, status: Status, version: nat, founders: seq<Founder>, picks: nat, log: seq<Call>)

  /** A write on top of the latest object; one that changes nothing keeps the version. */
  function Store(w: World, status: Status, lands: bool): World {
    if !lands then w
    else w.(status := status, version := if status == w.status then w.version else w.version + 1)
  }

  /** The write of the phase, before any group replication. */
  function StorePhase(w: World, r: Inputs, phase: Phase): World {
    var w' := Store(w, r.seen.(phase := phase), r.phaseLands);
    if r.phaseLands && r.touches then w'.(version := w.version + 1) else w'
  }

  /** failStatus updates the object read at the start of the call, so the API refuses it
      once the stored object has another version. */
  predicate FailLands(w: World, r: Inputs) {
    r.failLands && w.version == r.version
  }

  /** failStatus: the in-memory status with phase Degraded. */
  function FailStatus(w: World, status: Status, r: Inputs): World {
    Store(w, status.(phase := Degraded), FailLands(w, r))
  }

  predicate ReachesPass(r: Inputs) {
    r.early == Proceed && r.gate == AllReady && r.loads
  }

  predicate Gathers(s: Status) {
    s.bootstrapped && s.candidate == ""
  }

  function SurveyStart(w: World): Survey {
    Survey(w.net, false, [], false, w.log, false)
  }

  function SurveyOf(w: World, r: Inputs): Survey {
    SurveyFrom(SurveyStart(w), r.pods, 0, Gathers(r.seen), r.survey)
  }

  /** The pass goes into candidate selection. */
  predicate Selects(w: World, r: Inputs) {
    && ReachesPass(r) && !SurveyOf(w, r).failed
    && Gathers(r.seen) && !SurveyOf(w, r).anyOnline && |SurveyOf(w, r).infos| > 0
  }

  function ChoiceOf(w: World, r: Inputs): Choice {
    Pick(SurveyOf(w, r).infos, r.broken, r.tie)
  }

  /** The pass goes into the pod loop. */
  predicate Walks(w: World, r: Inputs) {
    ReachesPass(r) && !SurveyOf(w, r).failed && !Selects(w, r)
  }

  function WalkStart(w: World, r: Inputs): Walk {
    var s := SurveyOf(w, r);
    Walk(s.net, r.seen.(phase := Ready), false, w.founders, s.log, false, false)
  }

  function WalkOf(w: World, r: Inputs): Walk {
    WalkAll(WalkStart(w, r), r.pods, r.force, r.walk)
  }

  /** The deferred close of the compare connection. */
  function CloseCompareOf(s: Survey): seq<Call> {
    if s.compareOpen then [CloseCompare] else []
  }

  /** reconcileGroupReplication, with the failStatus call its caller makes. */
  function Pass(w: World, r: Inputs, choice: Choice): World
    requires r.early == Proceed && r.gate == AllReady
  {
    var status := r.seen.(phase := Ready);
    if !r.loads then FailStatus(w, status, r)
    else
      var s := SurveyOf(w, r);
      var w1 := w.(net := s.net, log := s.log);
      if s.failed then FailStatus(w1, status, r)
      else if Selects(w, r) then
        var w2 := w1.(log := w1.log + CloseCompareOf(s));
        match choice
        case Chosen(pod) =>
          Store(w2, status.(candidate := pod), r.pickLands).(picks := if r.pickLands then w.picks + 1 else w.picks)
        case _ => FailStatus(w2, status, r)
      else
        var k := WalkOf(w, r);
        var w2 := w1.(net := k.net, founders := k.founders, log := k.log + CloseCompareOf(s));
        if k.failed then FailStatus(w2, k.status, r)
        else Store(w2, k.status, k.dirty && r.walkLands)
  }

  /** One Reconcile call, given what candidate selection would answer. */
  function ReconcileChoosing(w: World, r: Inputs, choice: Choice): World {
    match r.early
    case Requeued => w
    case FailsEarly => FailStatus(w, r.seen, r)
    case Proceed =>
      match r.gate
      case NoStatefulSet => w
      case NotReady => StorePhase(w, r, Pending)
      case AllReady => Pass(StorePhase(w, r, Ready), r, choice)
  }

  /** One Reconcile call. */
  function Reconcile(w: World, r: Inputs): World {
    ReconcileChoosing(w, r, ChoiceOf(w, r))
  }

  lemma ChoiceUnused(w: World, r: Inputs, c1: Choice, c2: Choice)
    requires !Selects(w, r)
    ensures ReconcileChoosing(w, r, c1) == ReconcileChoosing(w, r, c2)
  {
  }

  lemma TieUnusedInLoops(w: World, r: Inputs, tie: nat)
    ensures SurveyOf(w, r.(tie := tie)) == SurveyOf(w, r)
    ensures WalkOf(w, r.(tie := tie)) == WalkOf(w, r)
    ensures Selects(w, r.(tie := tie)) == Selects(w, r)
  {
  }

  lemma TieUnusedInPass(w: World, r: Inputs, choice: Choice, tie: nat)
    requires r.early == Proceed && r.gate == AllReady
    ensures Pass(w, r.(tie := tie), choice) == Pass(w, r, choice)
  {
    TieUnusedInLoops(w, r, tie);
  }

  lemma TieUnused(w: World, r: Inputs, choice: Choice, tie: nat)
    ensures ReconcileChoosing(w, r.(tie := tie), choice) == ReconcileChoosing(w, r, choice)
  {
    if r.early == Proceed && r.gate == AllReady {
      TieUnusedInPass(StorePhase(w, r, Ready), r, choice, tie);
    }
  }

  /** Which of several least ordinals the sort puts first is one more input. */
  lemma ChoosingIsReconcile(w: World, r: Inputs, choice: Choice, tie: nat)
    requires Selects(w, r) ==> choice == Pick(SurveyOf(w, r).infos, r.broken, tie)
    ensures ReconcileChoosing(w, r, choice) == Reconcile(w, r.(tie := tie))
  {
    TieUnused(w, r, choice, tie);
    TieUnusedInLoops(w, r, tie);
    if !Selects(w, r) {
      ChoiceUnused(w, r.(tie := tie), choice, ChoiceOf(w, r.(tie := tie)));
    }
  }

  // ---------------------------------------------------------------- runs

  datatype Event = Env(e: EnvEvent) | Loop(r: Inputs)

  function Step(w: World, e: Event): World {
    match e
    case Env(e) => w.(net := ApplyEnv(w.net, e))
    case Loop(r) => Reconcile(w, r)
  }

  function Exec(w: World, es: seq<Event>): World
    decreases |es|
  {
    if es == [] then w else Exec(Step(w, es[0]), es[1..])
  }

  /** Nothing stored yet and no server in a group. */
  predicate Fresh(w: World) {
    && w.status == Status(NoPhase, false, "")
    && w.founders == [] && w.picks == 0 && w.log == []
    && forall p :: p in w.net.servers ==> w.net.servers[p].member == Offline && !w.net.servers[p].bootstrapFlag
  }

  // ---------------------------------------------------------------- assumptions about runs

  /** H1: the status a call reads is the stored one. */
  predicate ReadsStored(w: World, r: Inputs) {
    r.seen == w.status && r.version == w.version
  }

  /** H2: a call in which a Bootstrap succeeded gets its last status write through. */
  predicate LandsBootstrap(w: World, r: Inputs) {
    Walks(w, r) && WalkOf(w, r).dirty ==>
      if WalkOf(w, r).failed then FailLands(StorePhase(w, r, Ready), r) else r.walkLands
  }

  /** H3: when the readiness gate is open, every online pod is among the ready pods listed. */
  predicate SeesOnlinePods(w: World, r: Inputs) {
    ReachesPass(r) ==> forall p :: p in w.net.servers && w.net.servers[p].member.Online? ==> ListedFrom(r.pods, 0, p)
  }

  /** Some ready pod at position i or later has this name. */
  predicate ListedFrom(pods: seq<Pod>, i: nat, name: string) {
    exists k :: i <= k < |pods| && Usable(pods[k]) && pods[k].name == name
  }

  /** Only pods the survey has still to ask finish recovery in these events. */
  predicate PromotesAhead(es: seq<EnvEvent>, pods: seq<Pod>, i: nat) {
    forall k :: 0 <= k < |es| && es[k].Promote? ==> ListedFrom(pods, i, es[k].pod)
  }

  /** H4: no server finishes recovery during the survey unless it is a listed ready pod
      the survey has still to ask. */
  predicate QuietSurvey(r: Inputs) {
    forall i :: 0 <= i < |r.survey| ==> PromotesAhead(r.survey[i].env, r.pods, i)
  }

  /** H5: no Bootstrap call fails half-way. */
  predicate CleanBootstraps(w: World, r: Inputs) {
    Walks(w, r) ==> !WalkOf(w, r).spoiled
  }

  predicate Assumptions(w: World, r: Inputs) {
    && ProperNames(r.pods)
    && ReadsStored(w, r) && LandsBootstrap(w, r) && SeesOnlinePods(w, r) && QuietSurvey(r) && CleanBootstraps(w, r)
  }

  /** The assumptions hold at every Reconcile call of the run. */
  predicate GoodRun(w: World, es: seq<Event>)
    decreases |es|
  {
    es == [] || ((es[0].Loop? ==> Assumptions(w, es[0].r)) && GoodRun(Step(w, es[0]), es[1..]))
  }
}
