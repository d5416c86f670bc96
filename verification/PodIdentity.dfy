/**
 Names, ordinals and addresses of pods, as the init container derives them
 (cmd/init/main.go) and as the operator does (group_replication.go).
 */
module PodIdentity {
  import opened Decimal
  import opened Text

  // ---------------------------------------------------------------- the init container

  const DEFAULT_DOMAIN := "cluster.local"

  /** What the init container derives before it writes its two files. */
  datatype Identity =
    | InitFails
    | Identity(ordinal: int, serverId: int, reportHost: string, localAddr: string, seeds: string)

  /** parseOrdinal of cmd/init: any error ends the program. */
  function InitOrdinal(pod: string): Parsed {
    Atoi(LastPart(pod, '-'))
  }

  datatype Option<+T> = None | Some(value: T)

  /** deriveService: None when the last dash is missing or comes first. */
  function DeriveService(pod: string): Option<string> {
    var i := LastIndex(pod, '-');
    if i <= 0 then None else Some(pod[..i])
  }

  function ServiceFqdn(service: string, namespace: string, domain: string): string {
    service + "." + namespace + ".svc." + domain
  }

  function SeedHost(service: string, fqdn: string, port: int, i: nat): string {
    service + "-" + Itoa(i) + "." + fqdn + ":" + Itoa(port)
  }

  function SeedHosts(service: string, fqdn: string, port: int, replicas: nat): seq<string> {
    seq(replicas, i requires i >= 0 => SeedHost(service, fqdn, port, i))
  }

  function Seeds(service: string, fqdn: string, replicas: int, port: int): string {
    Join(SeedHosts(service, fqdn, port, if replicas < 0 then 0 else replicas), ',')
  }

  /** buildSeeds: append one host per replica, then join with commas. */
  method BuildSeeds(service: string, fqdn: string, replicas: int, port: int) returns (seeds: string)
    ensures seeds == Seeds(service, fqdn, replicas, port)
  {
    var hosts: seq<string> := [];
    var i := 0;
    while i < replicas
      invariant 0 <= i && (replicas >= 0 ==> i <= replicas) && (replicas < 0 ==> i == 0)
      invariant hosts == SeedHosts(service, fqdn, port, i)
    {
      hosts := hosts + [SeedHost(service, fqdn, port, i)];
      i := i + 1;
    }
    seeds := Join(hosts, ',');
  }

  /** server-id: ordinal + 1 in 64-bit arithmetic. */
  function ServerId(ordinal: int): int {
    if ordinal == MAX_INT then MIN_INT else ordinal + 1
  }

  function Init(pod: string, namespace: string, replicas: int, port: int, domain: string): Identity {
    if pod == "" || namespace == "" then InitFails
    else match InitOrdinal(pod)
      case SyntaxError => InitFails
      case RangeError(_) => InitFails
      case Number(ordinal) =>
        var service := DeriveService(pod);
        if service == None then InitFails
        else
          var fqdn := ServiceFqdn(service.value, namespace, domain);
          var reportHost := pod + "." + fqdn;
          Identity(ordinal, ServerId(ordinal), reportHost, reportHost + ":" + Itoa(port),
                   Seeds(service.value, fqdn, replicas, port))
  }

  // ---------------------------------------------------------------- the operator

  /** parseOrdinal of the operator: buildDSN ignores the error and keeps the value. */
  function OperatorOrdinal(pod: string): int {
    Atoi(LastPart(pod, '-')).Value()
  }

  /** The host:port in the data source name of buildDSN. */
  function OperatorHost(pod: string, service: string, namespace: string, port: int): string {
    pod + "." + service + "." + namespace + ".svc." + DEFAULT_DOMAIN + ":" + Itoa(port)
  }

  /** The i-th pod of the StatefulSet, which is named like the service. */
  function PodName(service: string, i: nat): string {
    service + "-" + Itoa(i)
  }

  // ---------------------------------------------------------------- round trips and agreement

  lemma NoDashInDigits(n: nat)
    ensures '-' !in Digits(n) && ',' !in Digits(n)
  {
  }

  /** Parsing the name of a StatefulSet pod gives back its ordinal and its service,
      dashes in the service name included. */
  lemma NameRoundTrip(service: string, i: nat)
    requires service != "" && i <= MAX_INT
    ensures InitOrdinal(PodName(service, i)) == Number(i)
    ensures OperatorOrdinal(PodName(service, i)) == i
    ensures DeriveService(PodName(service, i)) == Some(service)
  {
    NoDashInDigits(i);
    LastPartAfter(service, '-', Digits(i));
    assert PodName(service, i) == service + ['-'] + Digits(i);
    AtoiItoa(i);
    var k := LastIndex(PodName(service, i), '-');
    assert PodName(service, i)[|service|] == '-';
    assert PodName(service, i)[..|service|] == service;
  }

  /** Among the pods of a StatefulSet, of any size, only pod 0 has ordinal 0. */
  lemma PodZeroIff(service: string, i: nat)
    ensures OperatorOrdinal(PodName(service, i)) == 0 <==> i == 0
  {
    NoDashInDigits(i);
    LastPartAfter(service, '-', Digits(i));
    assert PodName(service, i) == service + ['-'] + Digits(i);
    AtoiItoa(i);
  }

  /** On every pod name the init container accepts, the operator reads the same
      ordinal; no ordinal is negative, so server-ids are positive below the top. */
  lemma OrdinalsAgree(pod: string)
    ensures InitOrdinal(pod).Number? ==> OperatorOrdinal(pod) == InitOrdinal(pod).n
    ensures 0 <= OperatorOrdinal(pod) <= MAX_INT
    ensures ServerId(OperatorOrdinal(pod)) > 0 <==> OperatorOrdinal(pod) != MAX_INT
  {
  }

  /** The ordinal that licenses an unforced first bootstrap is also the one every
      pod whose name does not end in a number gets. */
  lemma OrdinalZeroIff(pod: string)
    ensures OperatorOrdinal(pod) == 0 <==>
            InitOrdinal(pod) == Number(0) || InitOrdinal(pod) == SyntaxError
  {
  }

  /** A pod whose last name part starts with neither a digit nor a plus, such as a letter,
      has ordinal 0, and the init container refuses it. */
  lemma LetterMeansOrdinalZero(service: string, last: string)
    requires last != "" && '-' !in last && !IsDigit(last[0]) && last[0] != '+'
    ensures OperatorOrdinal(last) == 0 && OperatorOrdinal(service + "-" + last) == 0
    ensures InitOrdinal(service + "-" + last) == SyntaxError
  {
    SplitWithout(last, '-');
    LastPartAfter(service, '-', last);
    assert last[0] in last;
  }

  /** The pod name is a service, a dash and an ordinal without dashes. */
  predicate Parses(pod: string, service: string, ordinal: string) {
    service != "" && '-' !in ordinal && pod == service + "-" + ordinal
  }

  lemma ParsesMeans(pod: string, service: string, ordinal: string)
    requires Parses(pod, service, ordinal)
    ensures DeriveService(pod) == Some(service) && LastPart(pod, '-') == ordinal
  {
    LastPartAfter(service, '-', ordinal);
    assert pod[|service|] == '-' && pod[..|service|] == service;
    assert forall j :: |service| < j < |pod| ==> pod[j] == ordinal[j - |service| - 1];
  }

  lemma ServiceParses(pod: string)
    requires DeriveService(pod).Some?
    ensures Parses(pod, DeriveService(pod).value, pod[|DeriveService(pod).value| + 1..])
  {
    var i := LastIndex(pod, '-');
    assert pod == pod[..i] + "-" + pod[i + 1..];
  }

  /** What the init container derives from a name it accepts: the ordinal as a number, the
      server-id one above it in 64-bit arithmetic, and both addresses spelled out. */
  lemma InitDerives(pod: string, namespace: string, replicas: int, port: int, domain: string,
                    service: string, ordinal: string)
    requires Parses(pod, service, ordinal) && namespace != "" && Atoi(ordinal).Number?
    ensures var id := Init(pod, namespace, replicas, port, domain);
            && id.Identity? && id.ordinal == Atoi(ordinal).n
            && id.serverId == (if id.ordinal < 9223372036854775807 then id.ordinal + 1 else -9223372036854775808)
            && id.reportHost == service + "-" + ordinal + "." + (service + "." + namespace + ".svc." + domain)
            && id.localAddr == id.reportHost + ":" + Itoa(port)
            && (replicas <= 0 ==> id.seeds == "")
  {
    ParsesMeans(pod, service, ordinal);
  }

  /** It accepts exactly the names of that form with a readable ordinal, in a namespace. */
  lemma InitAcceptsIff(pod: string, namespace: string, replicas: int, port: int, domain: string)
    ensures Init(pod, namespace, replicas, port, domain).Identity? <==>
            namespace != "" && exists service, ordinal :: Parses(pod, service, ordinal) && Atoi(ordinal).Number?
  {
    if DeriveService(pod).Some? {
      ServiceParses(pod);
      ParsesMeans(pod, DeriveService(pod).value, pod[|DeriveService(pod).value| + 1..]);
    }
    forall service, ordinal | Parses(pod, service, ordinal)
      ensures DeriveService(pod) == Some(service) && LastPart(pod, '-') == ordinal
    {
      ParsesMeans(pod, service, ordinal);
    }
  }

  lemma NoNumberExample()
    ensures OperatorOrdinal("mysql") == 0
  {
    LetterMeansOrdinalZero("", "mysql");
  }

  /** Both spellings of an address are the same text before and after the domain. */
  lemma AddressParts(pod: string, service: string, namespace: string, port: int, domain: string)
    ensures pod + "." + ServiceFqdn(service, namespace, domain) + ":" + Itoa(port)
            == (pod + "." + service + "." + namespace + ".svc.") + (domain + (":" + Itoa(port)))
    ensures pod + "." + service + "." + namespace + ".svc." + domain + ":" + Itoa(port)
            == (pod + "." + service + "." + namespace + ".svc.") + (domain + (":" + Itoa(port)))
  {
  }

  /** The address a StatefulSet pod announces is the address the operator dials
      exactly when both use the default cluster domain. */
  lemma AddressesAgreeIff(service: string, namespace: string, i: nat, replicas: int, port: int, domain: string)
    requires service != "" && namespace != "" && i <= MAX_INT
    ensures var id := Init(PodName(service, i), namespace, replicas, port, domain);
            && id.Identity? && id.ordinal == OperatorOrdinal(PodName(service, i)) == i
            && (id.localAddr == OperatorHost(PodName(service, i), service, namespace, port)
                <==> domain == "cluster.local")
  {
    NameRoundTrip(service, i);
    var pod := PodName(service, i);
    var head := pod + "." + service + "." + namespace + ".svc.";
    var tail := ":" + Itoa(port);
    var id := Init(pod, namespace, replicas, port, domain);
    AddressParts(pod, service, namespace, port, domain);
    AddressParts(pod, service, namespace, port, DEFAULT_DOMAIN);
    if id.localAddr == OperatorHost(pod, service, namespace, port) {
      SamePrefix(domain + tail, DEFAULT_DOMAIN + tail, head);
      SameSuffix(domain, DEFAULT_DOMAIN, tail);
    }
  }

  lemma SeedHostParts(service: string, fqdn: string, port: int, i: nat)
    ensures SeedHost(service, fqdn, port, i)
            == (service + "-") + (Digits(i) + ("." + fqdn + ":" + Itoa(port)))
  {
  }

  lemma SeedHostInjective(service: string, fqdn: string, port: int, i: nat, j: nat)
    requires SeedHost(service, fqdn, port, i) == SeedHost(service, fqdn, port, j)
    ensures i == j
  {
    var head, tail := service + "-", "." + fqdn + ":" + Itoa(port);
    SeedHostParts(service, fqdn, port, i);
    SeedHostParts(service, fqdn, port, j);
    SamePrefix(Digits(i) + tail, Digits(j) + tail, head);
    SameSuffix(Digits(i), Digits(j), tail);
    DigitsInjective(i, j);
  }

  lemma SeedHostHasNoComma(service: string, fqdn: string, port: int, i: nat)
    requires ',' !in service && ',' !in fqdn
    ensures ',' !in SeedHost(service, fqdn, port, i)
  {
  }

  lemma LocalAddressIsSeed(service: string, namespace: string, i: nat, replicas: int, port: int, domain: string)
    requires service != "" && namespace != "" && i <= MAX_INT
    ensures var fqdn := ServiceFqdn(service, namespace, domain);
            var id := Init(PodName(service, i), namespace, replicas, port, domain);
            && id.Identity? && id.localAddr == SeedHost(service, fqdn, port, i)
            && id.seeds == Seeds(service, fqdn, replicas, port)
  {
    NameRoundTrip(service, i);
  }

  /** Every pod of the StatefulSet finds its own address at its ordinal in the seed
      list it was given, and a comma split recovers exactly `replicas` distinct seeds. */
  lemma SeedListRoundTrip(service: string, namespace: string, replicas: nat, port: int, domain: string)
    requires service != "" && namespace != "" && 1 <= replicas <= MAX_INT
    requires ',' !in service && ',' !in ServiceFqdn(service, namespace, domain)
    ensures var fqdn := ServiceFqdn(service, namespace, domain);
            var entries := Split(Seeds(service, fqdn, replicas, port), ',');
            && |entries| == replicas
            && (forall i, j :: 0 <= i < j < replicas ==> entries[i] != entries[j])
            && (forall i :: 0 <= i < replicas ==>
                  var id := Init(PodName(service, i), namespace, replicas, port, domain);
                  id.Identity? && id.localAddr == entries[i] && id.seeds == Seeds(service, fqdn, replicas, port))
  {
    var fqdn := ServiceFqdn(service, namespace, domain);
    var hosts := SeedHosts(service, fqdn, port, replicas);
    forall i | 0 <= i < replicas ensures ',' !in hosts[i] {
      SeedHostHasNoComma(service, fqdn, port, i);
    }
    SplitJoin(hosts, ',');
    forall i, j | 0 <= i < j < replicas ensures hosts[i] != hosts[j] {
      if hosts[i] == hosts[j] {
        SeedHostInjective(service, fqdn, port, i, j);
      }
    }
    forall i | 0 <= i < replicas
      ensures var id := Init(PodName(service, i), namespace, replicas, port, domain);
              id.Identity? && id.localAddr == hosts[i] && id.seeds == Seeds(service, fqdn, replicas, port)
    {
      LocalAddressIsSeed(service, namespace, i, replicas, port, domain);
    }
  }

  /** Server-ids of one StatefulSet are positive and pairwise distinct, and only its
      pod 0 gets the ordinal an unforced first bootstrap needs. */
  lemma ServerIdsDistinct(service: string, namespace: string, i: nat, j: nat, replicas: int, port: int, domain: string)
    requires service != "" && namespace != "" && i < MAX_INT && j < MAX_INT
    ensures var a := Init(PodName(service, i), namespace, replicas, port, domain);
            var b := Init(PodName(service, j), namespace, replicas, port, domain);
            && a.Identity? && b.Identity? && a.serverId > 0
            && (a.serverId == b.serverId <==> PodName(service, i) == PodName(service, j))
            && (OperatorOrdinal(PodName(service, i)) == 0 <==> i == 0)
  {
    NameRoundTrip(service, i);
    NameRoundTrip(service, j);
    if PodName(service, i) == PodName(service, j) {
      PodNameInjective(service, i, j);
    }
  }

  lemma PodNameInjective(service: string, i: nat, j: nat)
    requires PodName(service, i) == PodName(service, j)
    ensures i == j
  {
    SamePrefix(Itoa(i), Itoa(j), service + "-");
    DigitsInjective(i, j);
  }
}
