/**
 The MySQL servers behind the pods, as far as group replication is concerned, and
 the two client calls that change them (gr_client.go: bootstrapGroup, joinGroup).
 Everything a server or the network decides is an explicit answer.
 */
module Servers {
  import opened RestartCandidate

  /** A group is named by the number of groups created before it. */
  datatype Member = Offline | Recovering(group: nat) | Online(group: nat)

  /** `bootstrapFlag` is the global group_replication_bootstrap_group. */
  datatype Server = Server(member: Member, bootstrapFlag: bool, sets: GtidSets)

  /** All servers by pod name, the group_replication_group_seeds list every pod is
      configured with, and the name the next group will get. */
  datatype Net = Net(servers: map<string, Server>, seeds: seq<string>, nextGroup: nat)

  const BLANK := Server(Offline, false, GtidSets({}, {}))

  function At(net: Net, pod: string): Server {
    if pod in net.servers then net.servers[pod] else BLANK
  }

  function Put(net: Net, pod: string, server: Server): Net {
    net.(servers := net.servers[pod := server])
  }

  predicate IsOnline(net: Net, pod: string) {
    At(net, pod).member.Online?
  }

  function Union(a: GtidSets, b: GtidSets): GtidSets {
    GtidSets(a.executed + b.executed, a.certified + b.certified)
  }

  // ---------------------------------------------------------------- the environment

  /** What can happen to a server without the operator.
      Crash: mysqld restarts; start_on_boot and bootstrap_group are off in its
        configuration (cmd/init/main.go), so it comes back offline with the flag
        off. An online server may lose or gain transactions; a server that is not
        online keeps the ones it has.
      Leave: the server drops out of its group without a restart.
      Promote: a recovering server comes online, which needs an online donor.
      Write: a server gains transactions. */
  datatype EnvEvent =
    | Crash(pod: string, sets: GtidSets)
    | Leave(pod: string)
    | Promote(pod: string)
    | Write(pod: string, sets: GtidSets)

  predicate HasDonor(net: Net, pod: string, group: nat) {
    exists q :: q in net.servers && q != pod && net.servers[q].member == Online(group)
  }

  function ApplyEnv(net: Net, e: EnvEvent): Net {
    var s := At(net, e.pod);
    match e
    case Crash(p, sets) =>
      Put(net, p, Server(Offline, false, if s.member.Online? then sets else Union(s.sets, sets)))
    case Leave(p) => Put(net, p, s.(member := Offline))
    case Promote(p) =>
      if s.member.Recovering? && HasDonor(net, p, s.member.group)
      then Put(net, p, s.(member := Online(s.member.group)))
      else net
    case Write(p, sets) => Put(net, p, s.(sets := Union(s.sets, sets)))
  }

  function ApplyEnvs(net: Net, es: seq<EnvEvent>): Net
    decreases |es|
  {
    if es == [] then net else ApplyEnvs(ApplyEnv(net, es[0]), es[1..])
  }

  // ---------------------------------------------------------------- START GROUP_REPLICATION

  /** How a statement ends: done; refused; done but the reply was lost, which the
      client sees as an error; or error 3663, which only a join forgives. */
  datatype Reply = Done | Failed | Lost | Busy

  predicate TakesEffect(r: Reply) {
    r == Done || r == Lost
  }

  /** The group of the first seed that is reachable and online. */
  function FirstLive(net: Net, seeds: seq<string>, unreachable: set<string>): (g: int)
    ensures g >= 0 ==> exists p :: p in seeds && p !in unreachable && At(net, p).member == Online(g)
    ensures g < 0 ==> forall p :: p in seeds && p !in unreachable ==> !IsOnline(net, p)
    decreases |seeds|
  {
    if seeds == [] then -1
    else if seeds[0] !in unreachable && IsOnline(net, seeds[0]) then At(net, seeds[0]).member.group
    else FirstLive(net, seeds[1..], unreachable)
  }

  /** The state START GROUP_REPLICATION leaves when it takes effect: with the flag
      on it creates a group; otherwise it joins the group of some live seed, and
      without a live seed it leaves the server out of any group. */
  function Start(net: Net, pod: string, unreachable: set<string>, arrives: bool): Net {
    var s := At(net, pod);
    if s.member != Offline then net
    else if s.bootstrapFlag then
      Put(net, pod, s.(member := Online(net.nextGroup))).(nextGroup := net.nextGroup + 1)
    else
      var g := FirstLive(net, net.seeds, unreachable);
      if g < 0 then net
      else if arrives then Put(net, pod, s.(member := Online(g)))
      else Put(net, pod, s.(member := Recovering(g)))
  }

  /** A server that already runs group replication never completes another START. */
  function StartReply(net: Net, pod: string, r: Reply): Reply {
    if At(net, pod).member == Offline || r == Busy then r else Failed
  }

  // ---------------------------------------------------------------- bootstrapGroup

  datatype Statement = FlagOn | StartGroup | FlagOff

  const BOOTSTRAP := [FlagOn, StartGroup, FlagOff]

  function StatementReply(net: Net, pod: string, q: Statement, r: Reply): Reply {
    if q == StartGroup then StartReply(net, pod, r) else r
  }

  function Execute(net: Net, pod: string, q: Statement, r: Reply): Net {
    if !TakesEffect(StatementReply(net, pod, q, r)) then net
    else match q
      case FlagOn => Put(net, pod, At(net, pod).(bootstrapFlag := true))
      case FlagOff => Put(net, pod, At(net, pod).(bootstrapFlag := false))
      case StartGroup => Start(net, pod, {}, true)
  }

  datatype Effect = Effect(net: Net, ok: bool)

  /** The statements from position k on, stopping at the first error. */
  function BootstrapFrom(net: Net, pod: string, k: nat, replies: seq<Reply>): Effect
    decreases |BOOTSTRAP| - k
  {
    if k >= |BOOTSTRAP| then Effect(net, true)
    else
      var r := ReplyAt(replies, k);
      var after := Execute(net, pod, BOOTSTRAP[k], r);
      if StatementReply(net, pod, BOOTSTRAP[k], r) != Done then Effect(after, false)
      else BootstrapFrom(after, pod, k + 1, replies)
  }

  /** Statements beyond the listed replies are answered Done. */
  function ReplyAt(replies: seq<Reply>, k: nat): Reply {
    if k < |replies| then replies[k] else Done
  }

  function Bootstrap(net: Net, pod: string, replies: seq<Reply>): Effect {
    BootstrapFrom(net, pod, 0, replies)
  }

  /** A Bootstrap call spoils its server when it returns an error after its first
      statement took effect: the flag may be on, or an unrecorded group alive. */
  predicate Spoils(net: Net, pod: string, replies: seq<Reply>) {
    !Bootstrap(net, pod, replies).ok && TakesEffect(ReplyAt(replies, 0))
  }

  // ---------------------------------------------------------------- joinGroup

  /** localStateDesc: the state row, no row (read as OFFLINE), or an error. */
  datatype LocalState = Row | NoRow | StateError

  datatype JoinAnswer = JoinAnswer(state: LocalState, reply: Reply, unreachable: set<string>, arrives: bool)

  const HEALTHY_JOIN := JoinAnswer(Row, Done, {}, true)

  function Join(net: Net, pod: string, a: JoinAnswer): Effect {
    if a.state == StateError then Effect(net, false)
    else if a.state == Row && At(net, pod).member != Offline then Effect(net, true)
    else
      var r := StartReply(net, pod, a.reply);
      Effect(if TakesEffect(r) then Start(net, pod, a.unreachable, a.arrives) else net,
             r == Done || r == Busy)
  }

  // ---------------------------------------------------------------- what these calls keep

  predicate NoneOnline(net: Net) {
    forall p :: p in net.servers ==> !net.servers[p].member.Online?
  }

  /** All online servers are in one group. */
  predicate SingleGroup(net: Net) {
    forall p, q :: p in net.servers && q in net.servers
      && net.servers[p].member.Online? && net.servers[q].member.Online?
      ==> net.servers[p].member == net.servers[q].member
  }

  predicate FlagsOff(net: Net) {
    forall p :: p in net.servers ==> !net.servers[p].bootstrapFlag
  }

  /** A total outage: no server is online, and none can found a group by joining. */
  predicate Dark(net: Net) {
    FlagsOff(net) && NoneOnline(net)
  }

  /** A member's group exists, and only the newest group has online members. */
  predicate GroupsOk(net: Net) {
    forall p :: p in net.servers ==>
      match net.servers[p].member
      case Offline => true
      case Recovering(g) => g < net.nextGroup
      case Online(g) => g + 1 == net.nextGroup
  }

  /** The pod's server still has every transaction it had. */
  predicate Keeps(net: Net, net': Net, pod: string) {
    Contains(At(net', pod).sets, At(net, pod).sets)
  }

  lemma OneGroupIsTheNewest(net: Net)
    requires GroupsOk(net)
    ensures SingleGroup(net)
  {
  }

  lemma EnvKeeps(net: Net, e: EnvEvent)
    requires FlagsOff(net)
    ensures FlagsOff(ApplyEnv(net, e))
    ensures GroupsOk(net) ==> GroupsOk(ApplyEnv(net, e))
    ensures NoneOnline(net) ==> NoneOnline(ApplyEnv(net, e))
    ensures ApplyEnv(net, e).nextGroup == net.nextGroup && ApplyEnv(net, e).seeds == net.seeds
  {
  }

  lemma {:induction false} EnvsKeep(net: Net, es: seq<EnvEvent>)
    requires FlagsOff(net)
    ensures FlagsOff(ApplyEnvs(net, es))
    ensures GroupsOk(net) ==> GroupsOk(ApplyEnvs(net, es))
    ensures NoneOnline(net) ==> NoneOnline(ApplyEnvs(net, es))
    ensures ApplyEnvs(net, es).nextGroup == net.nextGroup && ApplyEnvs(net, es).seeds == net.seeds
    decreases |es|
  {
    if es != [] {
      EnvKeeps(net, es[0]);
      EnvsKeep(ApplyEnv(net, es[0]), es[1..]);
    }
  }

  /** While no server is online, no server loses a transaction. */
  lemma {:induction false} EnvsLoseNothing(net: Net, es: seq<EnvEvent>, pod: string)
    requires NoneOnline(net)
    ensures Keeps(net, ApplyEnvs(net, es), pod)
    decreases |es|
  {
    if es != [] {
      var mid := ApplyEnv(net, es[0]);
      assert NoneOnline(mid) && Keeps(net, mid, pod);
      EnvsLoseNothing(mid, es[1..], pod);
    }
  }

  /** The flag after a Bootstrap call, for every way its three statements can end:
      it is off exactly when the first statement never turned on a flag that was
      off, or the last statement was reached and took effect. */
  lemma BootstrapFlagExact(net: Net, pod: string, replies: seq<Reply>)
    ensures var after := At(Bootstrap(net, pod, replies).net, pod);
            !after.bootstrapFlag <==>
              || (!TakesEffect(ReplyAt(replies, 0)) && !At(net, pod).bootstrapFlag)
              || (&& ReplyAt(replies, 0) == Done && ReplyAt(replies, 1) == Done
                  && At(net, pod).member == Offline && TakesEffect(ReplyAt(replies, 2)))
  {
  }

  /** A Bootstrap call succeeds exactly when the server is in no group and all three
      statements are done and answered. */
  lemma BootstrapOkIff(net: Net, pod: string, replies: seq<Reply>)
    ensures Bootstrap(net, pod, replies).ok <==>
            At(net, pod).member == Offline && forall k: nat :: k < 3 ==> ReplyAt(replies, k) == Done
  {
    assert Bootstrap(net, pod, replies).ok ==>
             ReplyAt(replies, 0) == Done && ReplyAt(replies, 1) == Done && ReplyAt(replies, 2) == Done;
  }

  /** A failed Bootstrap call leaves a live group nobody records exactly when START took
      effect and its own reply was lost or the last statement failed. */
  lemma FailedBootstrapLeavesGroupIff(net: Net, pod: string, replies: seq<Reply>)
    requires !Bootstrap(net, pod, replies).ok
    ensures var after := Bootstrap(net, pod, replies).net;
            if && ReplyAt(replies, 0) == Done && At(net, pod).member == Offline && TakesEffect(ReplyAt(replies, 1))
               && (ReplyAt(replies, 1) == Lost || ReplyAt(replies, 2) != Done)
            then At(after, pod).member == Online(net.nextGroup) && after.nextGroup == net.nextGroup + 1
            else after.nextGroup == net.nextGroup && forall p :: At(after, p).member == At(net, p).member
  {
  }

  /** What a successful Bootstrap call does: an offline server becomes the one
      member of a new group, with its flag off and its transactions unchanged, and
      no other server changes. */
  lemma BootstrapCreatesGroup(net: Net, pod: string, replies: seq<Reply>)
    requires Bootstrap(net, pod, replies).ok
    ensures At(net, pod).member == Offline
    ensures Bootstrap(net, pod, replies).net ==
            Put(net, pod, Server(Online(net.nextGroup), false, At(net, pod).sets)).(nextGroup := net.nextGroup + 1)
  {
  }

  /** A Bootstrap call that fails without spoiling leaves the servers alone. */
  lemma UnspoiledFailureIsNoOp(net: Net, pod: string, replies: seq<Reply>)
    requires !Bootstrap(net, pod, replies).ok && !Spoils(net, pod, replies)
    ensures Bootstrap(net, pod, replies).net == net
  {
  }

  /** The result of a Join from the answers alone. Error 3663 is forgiven; a member whose
      state row is found is left alone; without the row START meets a running member. */
  lemma JoinResult(net: Net, pod: string, a: JoinAnswer)
    ensures At(net, pod).member == Offline ==>
              (Join(net, pod, a).ok <==> a.state != StateError && (a.reply == Done || a.reply == Busy))
    ensures At(net, pod).member != Offline ==>
              && Join(net, pod, a).net == net
              && (Join(net, pod, a).ok <==> a.state == Row || (a.state == NoRow && a.reply == Busy))
  {
  }

  /** The pod as a Join with its flag off leaves it: a member of the group of some reachable
      online seed exactly when START took effect and there is such a seed. No other server
      changes. */
  lemma JoinMembership(net: Net, pod: string, a: JoinAnswer)
    requires At(net, pod) == Server(Offline, false, At(net, pod).sets)
    ensures var m := At(Join(net, pod, a).net, pod).member;
            && (m == Offline <==> || a.state == StateError || a.reply == Failed || a.reply == Busy
                                  || forall p :: p in net.seeds && p !in a.unreachable ==> !IsOnline(net, p))
            && (m != Offline ==>
                  && m == (if a.arrives then Online(m.group) else Recovering(m.group))
                  && exists p :: p in net.seeds && p !in a.unreachable && At(net, p).member == Online(m.group))
    ensures forall q :: q != pod ==> At(Join(net, pod, a).net, q) == At(net, q)
  {
  }

  /** A restarted server is in no group and has its flag off, whatever it was before. */
  lemma CrashClears(net: Net, pod: string, sets: GtidSets)
    ensures var after := At(ApplyEnv(net, Crash(pod, sets)), pod);
            after.member == Offline && !after.bootstrapFlag
  {
  }

  /** Transactions that arrive add to both sets of their server exactly what they are, also
      in a restart of a server that is not online, and leave every other server alone. */
  lemma EnvSets(net: Net, pod: string, sets: GtidSets, e: EnvEvent, q: string)
    requires e == Write(pod, sets) || (e == Crash(pod, sets) && !IsOnline(net, pod))
    ensures var was, now := At(net, pod).sets, At(ApplyEnv(net, e), pod).sets;
            && (forall x :: x in now.executed <==> x in was.executed || x in sets.executed)
            && (forall x :: x in now.certified <==> x in was.certified || x in sets.certified)
    ensures q != pod ==> At(ApplyEnv(net, e), q) == At(net, q)
  {
  }

  /** With its flag off a server never creates a group by joining: whatever the
      network does, it joins the live group or stays out. */
  lemma JoinKeeps(net: Net, pod: string, a: JoinAnswer)
    requires FlagsOff(net)
    ensures FlagsOff(Join(net, pod, a).net)
    ensures GroupsOk(net) ==> GroupsOk(Join(net, pod, a).net)
    ensures NoneOnline(net) ==> NoneOnline(Join(net, pod, a).net)
    ensures Join(net, pod, a).net.nextGroup == net.nextGroup
    ensures Join(net, pod, a).net.seeds == net.seeds
    ensures forall p :: p in Join(net, pod, a).net.servers ==>
              Join(net, pod, a).net.servers[p].sets == At(net, p).sets
  {
  }
}
