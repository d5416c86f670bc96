# YAMO: a model of the operator's group-replication recovery, and what it keeps

YAMO runs a MySQL group-replication cluster in a StatefulSet. Its operator wakes up again and again, reads
two status fields (`GroupReplicationBootstrapped`, `RestartCandidate`), asks the ready pods for their state,
and then either picks a pod that may re-create the group after a total outage, or walks the pods calling
Bootstrap or Join. Two things must never happen: two live groups, and a restart from a pod that misses
transactions. This project models that protocol, the candidate choice, the `my.cnf` text with the digest that
triggers restarts, and the names and addresses the init container and the operator both derive.

| file | what it holds |
|---|---|
| `RestartCandidate.dfy` | GTID sets, `superset`, `PickRestartCandidate` (loops and in-place sort) |
| `Servers.dfy` | servers, environment events, `bootstrapGroup`, `joinGroup`, statement by statement |
| `Protocol.dfy` | survey, pod loop, one Reconcile call, runs, and the assumptions about runs |
| `Operator.dfy` | the same as a class whose methods loop and update fields, proved equal to `Protocol` |
| `Safety.dfy` | status invariant, Bootstrap accounting, single live group, where groups come from |
| `CallOutcomes.dfy` | one call told from its inputs: calls it may make, errors, reports, stored status and version, the first founder |
| `Durability.dfy` | no transaction lost across a total outage |
| `Recovery.dfy` | survey exactness, partial outages, convergence, and what blocks it: recovering pods, a candidate that is gone, refused joins |
| `Witnesses.dfy` | inputs on which a property fails: one run per assumption, a lossy outage, a leak |
| `Handles.dfy` | connections opened and closed, Bootstrap calls counted |
| `Text.dfy`, `Decimal.dfy` | splitting, string order, sorted keys; Go's decimal printing and parsing |
| `Config.dfy` | rendering, reading back, digest input, restart decision |
| `PodIdentity.dfy` | ordinals, services, addresses, seed lists |

## How the protocol is modelled

A server is offline, recovering in a group or online in a group; a Bootstrap that takes effect creates a new
group. Everything the operator cannot control is an explicit input, so every theorem holds for all of it: which
calls fail, what a pod's own view of the group says, which of the three statements of a Bootstrap take effect
and whether their reply arrives, which status writes the API accepts, which pods are listed, how the unstable sort
orders equal ordinals, and which environment events (crash, leaving the group, end of recovery, transactions
arriving) happen between runs of the operator *and just before every single pod visit inside a pass*. A server that is
not online keeps the transactions it has; an online one may lose some when it crashes. The stored status has a
resource version: updates after a fresh read go through or are given up, while `failStatus` updates the object
read at the start of the call and is refused once the version has moved.

The whole-run theorems assume, at each Reconcile call:

- H1 `ReadsStored`: the status read is the stored one;
- H2 `LandsBootstrap`: a call in which a Bootstrap succeeded gets its last status write through;
- H3 `SeesOnlinePods`: when the readiness gate is open, every online pod is among the ready pods listed;
- H4 `QuietSurvey`: while the survey asks pods one after the other, no server finishes recovery unless it is a
  listed ready pod still to be asked;
- H5 `CleanBootstraps`: no Bootstrap call fails after its first statement took effect;
- pod names in a list are non-empty and distinct.

Each theorem states only those it needs (the status invariant needs H1 alone, the accounting H1 and H2, the
origin of groups H5 alone), and `Witnesses.dfy` shows for H1 to H5 one by one that the single-group theorem is
false without it: a run from a fresh cluster, one call that breaks only that assumption, and two live groups.

## What turned out not to hold

- The survey is not atomic: a pod that finishes recovery after it was asked can hide the only live group, and the
  next pass starts a second one (`QuietSurveyNeeded`). A pod still to be asked may finish at any time
  (`SurveySound`).
- When an error follows a successful Bootstrap, its record survives exactly when the phase write of the same call
  left the object alone (`FailedPassKeepsRecordIff`); so on the first pass of a cluster it is lost although every
  write is accepted, and under `forceBootstrap` the Bootstrap is repeated on another pod (`LandedWriteNeeded`).
  So is one whose START took effect while its reply was lost (`CleanBootstrapNeeded`). The group outlives the error
  because `bootstrapGroup` has no clean-up: a failed call leaves a live group behind exactly when START took effect
  and its reply was lost or the last statement failed (`FailedBootstrapLeavesGroupIff`), and `BootstrapFlagExact`
  says exactly when the flag is left on.
- The compare connection leaks exactly when the survey fails after opening it, because the deferred close is
  registered after the error return (`CompareLeaksIff`, with an input in `CompareLeaks`).
- If MySQL refuses a START while there is no group to join, a pass in a total outage makes progress exactly when
  the first listed pod is the one to found the group; otherwise the outage lasts for ever
  (`RefusedPassFoundsIff`, `RefusedJoinsBlock`).
- From a total outage undisturbed passes bring every pod online exactly when no listed pod is still recovering
  (`OutageConvergesIff`). If the pick names such a pod, the next pass turns its bootstrap flag on, fails and leaves
  it on with no fault anywhere (`RecoveringPickSpoils`).
- A stored candidate that is no longer among the ready pods, after a scale-down for example, is never cleared: no
  Reconcile call bootstraps, picks another or ends the outage, whatever the pods answer (`AbsentCandidateBlocks`). Undisturbed passes end a pending restart exactly when the candidate is listed and no
  listed pod is recovering (`PendingConvergesIff`).
- The bound of one Bootstrap call per pass rests on the status invariant: a pass that reads a candidate without a
  recorded group calls Bootstrap twice (`StatusOkNeeded`).
- The fall-back on the least ordinal leaves transactions behind exactly when no pod contains all others
  (`ChoiceKeepsEverythingIff`, with reports in `IncomparablePick` and a whole run in `DominationNeeded`).
- A pod whose name does not end in a number counts as ordinal 0, since the parse error is dropped
  (`OrdinalZeroIff`, with names in `LetterMeansOrdinalZero`); operator and init container agree on addresses exactly
  under the default domain (`AddressesAgreeIff`).
- An option key can be mistaken for a shorter one exactly when it holds ` = ` or ends in ` =` (`KeyConfusedIff`); a
  newline in the value of a one-line key imitates a further option exactly when that option sorts after the key
  (`NewlineConfuses`).
- The digest input is not injective on all data. An entry's bytes determine it exactly when it holds no NUL
  (`EntryConfusedIff`), and data share their bytes with other data exactly when they have several entries or a NUL
  in the only one (`DigestConfusedIff`, with a family in `NulConfuses`). Among NUL-free data it is injective
  (`DigestRoundTrip`).
- The comment at `internal/controller/mysql/groupreplication/gr_client.go:61` promises a check for other pods in
  the group; the query reads the pod's local table only, and the model follows the query.

## Model

| member | source | states |
|---|---|---|
| RestartCandidate.SupersetIsContains | internal/controller/mysql/groupreplication/gr_client.go:259-268 | Empty GTID_SUBTRACT results in both components mean containment of both components |
| RestartCandidate.PickMeetsSpec | internal/controller/mysql/groupreplication/gr_client.go:270-298 | A chosen pod is the first one containing all others, or one of least ordinal when none does; errors only for no infos or a failed comparison |
| RestartCandidate.PickFailsIff | internal/controller/mysql/groupreplication/gr_client.go:275-293 | The choice fails exactly when a pod meets a failing comparison after every pod before it was ruled out by one that did not fail |
| RestartCandidate.ChoiceKeepsEverythingIff | internal/controller/mysql/groupreplication/gr_client.go:275-297 | The chosen pod's report contains every report if and only if some pod's does |
| RestartCandidate.PickIgnoresOrder | internal/controller/mysql/groupreplication/gr_client.go:270-298 | Any two orders of the same reports choose pods with equal sets, and the same pod when none dominates |
| RestartCandidate.SortByOrdinal | internal/controller/mysql/groupreplication/gr_client.go:294-296 | The in-place sort orders by ordinal and preserves the multiset |
| RestartCandidate.PickRestartCandidate | internal/controller/mysql/groupreplication/gr_client.go:270-298 | The nested early-exit loops and the sort compute the specified choice on the original list and only permute the list |
| Servers.BootstrapFlagExact | internal/controller/mysql/groupreplication/gr_client.go:184-203 | For every way the three statements can end, exactly when the bootstrap flag is off afterwards |
| Servers.BootstrapOkIff | internal/controller/mysql/groupreplication/gr_client.go:184-203 | A call succeeds exactly when the server is in no group and all three statements are done and answered |
| Servers.FailedBootstrapLeavesGroupIff | internal/controller/mysql/groupreplication/gr_client.go:184-203 | A failed call leaves a new live group exactly when START took effect and its reply was lost or the last statement was not done; otherwise no membership changes |
| Servers.BootstrapCreatesGroup | internal/controller/mysql/groupreplication/gr_client.go:184-203 | A successful call turns an offline server into the sole member of a new group, flag off, sets unchanged, and touches no other server |
| Servers.UnspoiledFailureIsNoOp | internal/controller/mysql/groupreplication/gr_client.go:191-201 | A call whose first statement fails leaves all servers alone |
| Servers.JoinResult | internal/controller/mysql/groupreplication/gr_client.go:219-240 | For an offline server a join succeeds exactly when the state is readable and START is done or answers error 3663; a running member is left alone, and without a state row only error 3663 is forgiven |
| Servers.JoinMembership | internal/controller/mysql/groupreplication/gr_client.go:229-240 | With its flag off the server enters the group of some reachable online seed exactly when START took effect and there is one; no other server changes |
| Servers.JoinKeeps | internal/controller/mysql/groupreplication/gr_client.go:219-240 | With flags off a join never creates a group, changes no transactions, and brings nobody online without a live group |
| Servers.CrashClears | cmd/init/main.go:48-49 | A restarted server is in no group with its flag off, whatever it was |
| Servers.EnvKeeps | cmd/init/main.go:44-52 | Restarts and other environment events keep flags off, create no group, and wake no group nobody is online in |
| OperatorLoop.Operator.BootstrapGroup | internal/controller/mysql/groupreplication/gr_client.go:184-203 | The statement loop, left at the first error, has the effect and result of Bootstrap |
| OperatorLoop.Operator.JoinGroup | internal/controller/mysql/groupreplication/gr_client.go:219-240 | State check and START with the effect of Join; an offline server succeeds exactly on Done or the forgiven error 3663 |
| OperatorLoop.Operator.SurveyPod | internal/controller/group_replication.go:126-164 | One round of the survey loop: servers, reports, compare connection, calls and error |
| OperatorLoop.Operator.CollectGroupInfo | internal/controller/group_replication.go:110-168 | The survey loop computes the survey the theorems are about |
| OperatorLoop.Operator.BootstrapOrJoin | internal/controller/group_replication.go:215-242 | The three-way switch, with the ordinal, force, candidate and view conditions spelled out: which call is made, new servers, new in-memory status, record of the group's founder |
| OperatorLoop.Operator.ReconcilePod | internal/controller/group_replication.go:183-244 | One round of the pod loop with every early exit |
| OperatorLoop.Operator.ReconcilePods | internal/controller/group_replication.go:171-264 | The pod loop computes the walk the theorems are about |
| OperatorLoop.Operator.UpdateLatest | internal/controller/group_replication.go:247-262 | A write after a fresh read stores the in-memory status or is given up; a write that changes nothing keeps the version |
| OperatorLoop.Operator.SelectCandidate | internal/controller/group_replication.go:58-79 | Choice, closed compare connection, stored candidate when the write lands |
| OperatorLoop.Operator.ReconcileGroupReplication | internal/controller/group_replication.go:39-82 | A pass, up to the failStatus its caller adds on error |
| OperatorLoop.Operator.WriteFailStatus | internal/controller/mysql_controller.go:379-384 | Degraded phase, other fields as in memory, stored when the API accepts it and the version is still the one read |
| OperatorLoop.Operator.ReconcileOnce | internal/controller/mysql_controller.go:57-139 | One Reconcile call changes servers, status and history as the function Reconcile says; a landed phase write of an unready StatefulSet leaves Pending |
| OperatorLoop.Operator.Run | internal/controller/mysql_controller.go:57-139 | A run of the loops is a run of the model; from an empty status and under the assumptions it ends with one live group and all flags off |
| Protocol.ChoosingIsReconcile | internal/controller/mysql/groupreplication/gr_client.go:294-297 | The order the sort gives equal ordinals is just one more input |
| CallOutcomes.SurveyVisitFailsIff | internal/controller/group_replication.go:126-164 | A survey visit fails exactly on the listed errors of a ready pod with an address |
| CallOutcomes.SurveyFailsIff | internal/controller/group_replication.go:125-164 | A survey fails exactly when the questions to some listed pod do; opening the compare connection is one of them only at the first report |
| CallOutcomes.SurveyExact | internal/controller/group_replication.go:110-168 | Whatever happens between the questions: anyOnline exactly when a ready pod was online as it was asked, and the reports are name, ordinal and both sets of the others as they were asked, in list order |
| CallOutcomes.VisitCallsIff | internal/controller/group_replication.go:215-234 | A visit calls Bootstrap exactly when the pod sees nobody online and is the candidate of a recorded group, or none is recorded and it has ordinal 0 or is forced |
| CallOutcomes.WalkVisitFailsIff | internal/controller/group_replication.go:182-244 | A visit of the pod loop fails exactly on a failed question or when the Bootstrap or Join it calls fails |
| CallOutcomes.BusyJoinGoesOn | internal/controller/mysql/groupreplication/gr_client.go:229-236 | A join answered with error 3663 does not end the loop and changes no server |
| CallOutcomes.CallsAllowed | internal/controller/group_replication.go:182-234 | Every call of a Reconcile call goes to a listed ready pod with an address, and Bootstrap only to one that sees nobody online and is the candidate read, or has ordinal 0 or is forced while none is recorded |
| CallOutcomes.PodZeroFoundsFirst | internal/controller/group_replication.go:216-225 | In every unforced run of a StatefulSet from a fresh cluster, whatever fails, pod 0 founds the first group |
| CallOutcomes.StatusWithoutPass | internal/controller/mysql_controller.go:57-128 | The stored status after a call that ends before the pass: unchanged, Degraded exactly when failStatus is accepted, or Pending |
| CallOutcomes.StatusAfterPass | internal/controller/mysql_controller.go:102-139 | The stored status after a pass: Degraded exactly when an error meets an accepted failStatus on the version read, else Ready with the landed candidate or founding |
| CallOutcomes.VersionNamesStatus | internal/controller/mysql_controller.go:118-128 | In every run, stale reads included, an unchanged version means an unchanged status |
| CallOutcomes.VersionStaysIff | internal/controller/mysql_controller.go:118-128 | Under H1 a call keeps the version exactly when it stores nothing new |
| Safety.StatusInvariant | internal/controller/mysql_controller.go:118-128 | Under H1 alone every writer keeps "a candidate implies bootstrapped", and bootstrapped is never taken back |
| Safety.AtMostOneBootstrap | internal/controller/group_replication.go:180-245 | At most one Bootstrap call per pod loop, successful or failed, for all pod lists and answers; successes are exactly the change of the status' credit |
| Safety.ReconcileBootstrapsOnce | internal/controller/mysql_controller.go:57-139 | At most one Bootstrap call per Reconcile call, successful or failed, whether or not the status read is the stored one, if a candidate in it implies bootstrapped |
| Witnesses.StatusOkNeeded | internal/controller/group_replication.go:171-242 | A pass reading a candidate without a recorded group makes two successful Bootstrap calls and ends with two groups |
| Safety.StatusOutcome | internal/controller/group_replication.go:58-81 | The only effects on the replication fields: a landed pick, or a landed bootstrap by exactly one founder |
| Safety.FailedPassKeepsRecordIff | internal/controller/mysql_controller.go:118-134 | After a Bootstrap followed by an error, with all writes accepted, the record is kept if and only if the phase write changed nothing |
| Safety.BootstrapAccounting | internal/controller/group_replication.go:215-242 | Under H1 and H2, successful Bootstraps = first one + landed picks - pending pick, in every run |
| Safety.PickBetweenBootstraps | internal/controller/group_replication.go:58-79 | Two Bootstraps between any two points of a run need a landed pick between them, and from a settled point even one does |
| Safety.SurveySound | internal/controller/group_replication.go:110-168 | While only pods still to be asked finish recovery, a survey meeting nobody online ends with no server online |
| Safety.SurveyKeeps | internal/controller/group_replication.go:110-168 | Whatever happens during a survey, it keeps flags and groups and wakes no group nobody is online in |
| Safety.SelectionMeansOutage | internal/controller/group_replication.go:58-58 | Under H3 and H4 a pass that selects a candidate ends its survey with no server online anywhere |
| Safety.WalkSafe | internal/controller/group_replication.go:182-245 | The pod loop keeps flags off, one group, and nobody online while the status allows a Bootstrap |
| Safety.ReconcileSafe | internal/controller/mysql_controller.go:57-139 | Every Reconcile call keeps the joint invariant |
| Safety.SingleLiveGroup | internal/controller/group_replication.go:39-264 | In every run all online pods are in one group, flags are off, and nobody is online while a Bootstrap is allowed |
| Safety.SingleGroupMidPass | internal/controller/group_replication.go:182-245 | One group, flags off and nobody online while a Bootstrap is allowed, after every visit inside a pass |
| Safety.GroupsComeFromBootstraps | internal/controller/mysql/groupreplication/gr_client.go:184-240 | Under H5 alone flags are off between calls and groups created = successful Bootstraps: no Join creates a group |
| Durability.ReportsStayTrue | internal/controller/group_replication.go:148-154 | Under H4 every reported pod still holds what it reported when the survey ends, and no pod is reported twice |
| Durability.PickHoldsEverything | internal/controller/group_replication.go:58-79 | After a landed pick, if one surveyed pod held it all, the stored candidate's server holds every executed and certified transaction each surveyed pod held as it was asked |
| Durability.PendingRunKeeps | internal/controller/group_replication.go:227-234 | While a candidate is pending, any run that founds no group keeps the candidate and its transactions |
| Durability.PendingFounder | internal/controller/group_replication.go:227-234 | The next founder is the stored candidate with at least what its server held |
| Durability.NoTransactionLost | internal/controller/group_replication.go:58-79 | From any reachable pick to the next founding, any number of steps later, the founder holds every executed and certified transaction any surveyed pod held when it was asked, if one of them held it all |
| Recovery.SurveyFindsOnline | internal/controller/group_replication.go:110-168 | A successful undisturbed survey changes no server and answers anyOnline exactly when some ready pod is online |
| Recovery.SurveyReports | internal/controller/group_replication.go:148-154 | It reports exactly the ready pods that are not online, in list order, with their ordinals and sets |
| Recovery.SelectsIff | internal/controller/group_replication.go:58-58 | A settled cluster goes into selection exactly when some pod is ready and no ready pod is online |
| Recovery.PartialOutageSafe | internal/controller/group_replication.go:215-242 | Bootstrapped and without a candidate, no Reconcile call ever calls Bootstrap, whatever the pods answer |
| Recovery.SettledPass | internal/controller/group_replication.go:182-245 | Next to a live pod any undisturbed pass, whatever the pods see, brings every pod online and leaves the replication fields |
| Recovery.FreshConverges | internal/controller/group_replication.go:216-225 | A fresh cluster is entirely online after any two or more undisturbed passes if some pod allowed to bootstrap sees nobody online in the first |
| Recovery.StatefulSetConverges | internal/controller/group_replication.go:216-225 | A fresh StatefulSet of any size comes up in any two or more undisturbed passes without a forced bootstrap, by its pod names alone, if pod 0 sees nobody online in the first |
| Recovery.OutageConverges | internal/controller/group_replication.go:58-81 | A bootstrapped cluster in total outage is entirely online after any three or more undisturbed passes, for every order of equal ordinals, if the candidate sees nobody online in the second |
| Recovery.OutageConvergesIff | internal/controller/group_replication.go:58-81 | The same if and only if no listed pod is still recovering at the start |
| Recovery.ReachableConvergesIff | internal/controller/group_replication.go:39-264 | From every state a good run from a fresh cluster reaches, three or more undisturbed passes that list every online pod bring every listed pod online if and only if none is recovering then, given that the founder sees nobody |
| Recovery.AbsentCandidateBlocks | internal/controller/group_replication.go:227-234 | While the stored candidate is not a listed ready pod, no run calls Bootstrap, changes the candidate or ends a total outage, whatever the answers |
| Recovery.PendingConvergesIff | internal/controller/group_replication.go:227-234 | With a restart pending, two or more undisturbed passes bring every pod online if and only if the candidate is listed and no listed pod is recovering |
| Recovery.RecoveringStays | internal/controller/mysql/groupreplication/gr_client.go:219-228 | A recovering server stays so through any number of undisturbed passes |
| Recovery.RecoveringBootstrapSpoils | internal/controller/mysql/groupreplication/gr_client.go:184-203 | A healthy Bootstrap of a recovering server turns the flag on, fails and leaves it on |
| Recovery.RecoveringPickSpoils | internal/controller/group_replication.go:227-231 | Without any fault, a pick that names a recovering server breaks H5 in the next pass |
| Recovery.StaysConverged | internal/controller/group_replication.go:194-202 | Any run of further undisturbed passes leaves servers and replication fields alone and only asks pods whether they are online |
| Recovery.RefusedPassFoundsIff | internal/controller/group_replication.go:236-240 | With lone joins refused, a pass brings the cluster up if the first listed pod founds the group and otherwise changes neither servers nor replication fields |
| Recovery.RefusedJoinsBlock | internal/controller/group_replication.go:236-240 | A candidate that is not the first listed pod is then never reached, through any number of passes |
| Witnesses.StaleReadNeeded | internal/controller/mysql_controller.go:62-64 | Without H1: a fresh cluster is founded, then a call reading the status and version stored before that founds a second group |
| Witnesses.LandedWriteNeeded | internal/controller/group_replication.go:247-262 | Without H2 two passes from a fresh cluster, every write accepted, can end with two groups |
| Witnesses.ListedOnlineNeeded | internal/controller/group_replication.go:100-103 | Without H3: from a fresh cluster, one pass founds the group, one lists only the other pod and picks it, one with all assumptions founds a second group |
| Witnesses.QuietSurveyNeeded | internal/controller/group_replication.go:125-146 | Without H4: from a fresh cluster one pod founds, the other joins and finishes recovery right after it was asked; the next pass, with all assumptions, founds a second group |
| Witnesses.CleanBootstrapNeeded | internal/controller/mysql/groupreplication/gr_client.go:191-201 | Without H5 two passes from a fresh cluster can end with two groups |
| Witnesses.IncomparablePick | internal/controller/mysql/groupreplication/gr_client.go:275-297 | Two reports neither of which dominates, for all names, ordinals and tie-breaks |
| Witnesses.DominationNeeded | internal/controller/group_replication.go:58-79 | A run meeting every hypothesis of NoTransactionLost but the pod that holds it all, whose founder lacks a transaction a surveyed pod held |
| Witnesses.CompareLeaks | internal/controller/group_replication.go:48-56 | A two-pod survey whose second connect fails ends with one compare connection open |
| Handles.ClientsConserved | internal/controller/group_replication.go:125-245 | In every run, whatever fails, each replication client is closed exactly once before the next is opened, and calls go to the open one |
| Handles.CompareLeaksIff | internal/controller/group_replication.go:48-56 | A call leaves the compare connection open exactly when the survey fails after opening it |
| Config.RenderMySQLConfig | internal/controller/k8s/configmap/config_map.go:14-54 | For every iteration order of the maps the text is one function of the merged options |
| Config.KeysInOrder | internal/controller/k8s/configmap/config_map.go:36-40 | Collecting in any order and sorting lists each key once, strictly ascending |
| Config.MergePrecedence | internal/controller/k8s/configmap/config_map.go:15-34 | Overrides before base (or defaults) before boolean flags, on exact keys |
| Config.FileReadsBack | internal/controller/k8s/configmap/config_map.go:15-53 | A reader of the file finds each integer override as that number, each string override, then base or default values, then the bare flag skip-name-resolve, and no other key |
| Config.FileFrame | internal/controller/k8s/configmap/config_map.go:42-53 | Every file starts with the section line and ends with the include directive |
| Config.RenderRoundTrip | internal/controller/k8s/configmap/config_map.go:42-53 | A line reader recovers the merged options from the file, for one-line values and keys that are not ambiguous |
| Config.EqualsSignConfuses | internal/controller/k8s/configmap/config_map.go:44-50 | A bare key holding the separator and the option it imitates have one file, for every key and value |
| Config.KeyConfusedIff | internal/controller/k8s/configmap/config_map.go:44-50 | A key can share its file with an option of a shorter key if and only if it holds or runs into the separator |
| Config.NewlineConfuses | internal/controller/k8s/configmap/config_map.go:44-50 | A newline in a value and a further bare key give one file if the further key sorts after the first, and for a first key without newline only then |
| Config.HashInput | internal/controller/util/mysql_helpers.go:21-39 | Nothing for empty data, otherwise the digest input, for every iteration order |
| Config.DigestRoundTrip | internal/controller/util/mysql_helpers.go:25-37 | A decoder recovers NUL-free data from the bytes fed to the digest |
| Config.NulConfuses | internal/controller/util/mysql_helpers.go:32-37 | One entry with NULs in its value imitates two entries |
| Config.EntryConfusedIff | internal/controller/util/mysql_helpers.go:32-37 | Another key and value write the same bytes if and only if the entry holds a NUL |
| Config.DigestConfusedIff | internal/controller/util/mysql_helpers.go:25-37 | Other data feed the digest the same bytes if and only if the data have several entries or a NUL in their only one |
| Config.DigestTracksEntry | internal/controller/util/mysql_helpers.go:31-37 | With the other entries fixed, whatever they hold, the digest input changes exactly when one entry's value does |
| Config.RestartIffOptionsChange | internal/controller/mysql_controller.go:143-161 | Two specifications feed the digest the same bytes if and only if they merge to the same options |
| Decimal.AtoiItoa | internal/controller/group_replication.go:290-296 | Parsing a printed number gives it back, sign included, and clamps one that does not fit 64 bits |
| Decimal.AtoiReads | internal/controller/group_replication.go:290-296 | Digits with an optional sign are read as the number they stand for, or clamped to 64 bits with a range error |
| Decimal.AtoiStops | internal/controller/group_replication.go:290-296 | Digits followed by anything else are a syntax error, or a range error when they overflow 64 bits first |
| Decimal.AtoiNeedsDigits | internal/controller/group_replication.go:290-296 | Nothing but an optional sign and digits is read as a number |
| Text.BelowIff | internal/controller/k8s/configmap/config_map.go:40-40 | The order of keys: a proper prefix first, otherwise the first different character decides |
| PodIdentity.NameRoundTrip | cmd/init/main.go:90-109 | Parsing service-i gives back i and the service, dashes included, in both programs |
| PodIdentity.OrdinalsAgree | internal/controller/group_replication.go:290-303 | Both programs read the same ordinal from every name the init container accepts; no ordinal is negative |
| PodIdentity.OrdinalZeroIff | internal/controller/group_replication.go:302-303 | Ordinal 0 exactly for names whose last part reads as zero or does not read as a number |
| PodIdentity.LetterMeansOrdinalZero | internal/controller/group_replication.go:302-303 | Every name whose last part starts with neither a digit nor a plus, such as a letter, has ordinal 0 for the operator and is refused by the init container |
| PodIdentity.NoNumberExample | internal/controller/group_replication.go:290-303 | The pod name mysql has ordinal 0 |
| PodIdentity.AddressesAgreeIff | internal/controller/group_replication.go:302-307 | Announced and dialled address coincide if and only if the cluster domain is the default one |
| PodIdentity.InitAcceptsIff | cmd/init/main.go:90-109 | The init container accepts exactly the names service-ordinal with a readable ordinal and a non-empty service, in a namespace |
| PodIdentity.InitDerives | cmd/init/main.go:26-37 | Ordinal, server-id one above it in 64-bit arithmetic, report host and local address spelled out, and no seeds for no replicas |
| PodIdentity.PodZeroIff | internal/controller/group_replication.go:290-303 | Among StatefulSet names of any ordinal only pod 0 has ordinal 0 |
| PodIdentity.BuildSeeds | cmd/init/main.go:111-117 | The loop and the join produce the list of all replicas' addresses, also for a non-positive count |
| PodIdentity.SeedListRoundTrip | cmd/init/main.go:28-35 | Splitting the seeds gives exactly `replicas` distinct entries, the i-th being pod i's own address |
| PodIdentity.ServerIdsDistinct | cmd/init/main.go:37-42 | Server-ids are positive and pairwise distinct, and only pod 0 has ordinal 0 |

## Left out

- Kubernetes client, caches and retries: a status write after a fresh read is accepted or given up.
- Replica counts and messages in the status: an input says whether the phase write changes them.
- SQL driver, connection pools, timeouts and `waitForMySQL`: a connection attempt succeeds or fails.
- Creation of the replication user: the call succeeds or fails, and changes nothing the theorems speak of.
- Textual GTID sets: sets of transactions and set difference instead.
- `podReady`'s loop over conditions: a listed pod is ready or not.
- SHA-256 and hex encoding: the model stops at the bytes fed to the hash.
- The table of default options: rendering and restart theorems hold for every table.
- Option names MySQL treats alike (dash and underscore): keys are compared exactly, as the source does.
- UTF-8: a Go string is the sequence of its bytes, one char per byte.
- StatefulSet, Service, Secrets, webhook defaulting, RSA keys, manifests, environment variables and file writing: data or plumbing.
- OutageConverges: undisturbed means no environment events, no errors, and a join into a live group bringing the pod online at once; what pods see of their group is open except where stated.
- ReachableConvergesIff: undisturbed in the same sense, and the pod that is to found the group sees nobody online, because the table it asks is its own.
- RestartIffOptionsChange: for merged options on one line each with keys that are not ambiguous; KeyConfusedIff and NewlineConfuses show what happens otherwise.
