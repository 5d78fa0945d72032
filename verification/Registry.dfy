/** The tables of registry.go and the lookups built on them: the in-process table of
  channel transports, and the root registry with its walk, its handlers and its
  minute-by-minute check.

  Every lookup takes a short cut when the name has no `*`; the contracts below do not
  mention it, so both branches are held to "filter the whole table". */
module Registry {
  import opened Collections
  import opened Wildcard

  // ----- Names -----

  function ServiceName(publisher: string, service: string): string {
    publisher + "_" + service
  }

  /** fromPublisherServiceName; None is its panic. */
  function SplitName(name: string): Option<(string, string)> {
    var strs := Split(name, '_');
    if |strs| != 2 then None else Some((strs[0], strs[1]))
  }

  lemma {:induction false} SplitOne(a: string)
    requires '_' !in a
    ensures Split(a, '_') == [a]
  {
    if a != "" {
      SplitOne(a[1..]);
      assert a == [a[0]] + a[1..];
    }
  }

  lemma {:induction false} SplitTwo(a: string, b: string)
    requires '_' !in a
    ensures Split(a + "_" + b, '_') == [a] + Split(b, '_')
  {
    var s := a + "_" + b;
    if a == "" {
      assert s[1..] == b;
    } else {
      SplitTwo(a[1..], b);
      assert s[1..] == a[1..] + "_" + b;
      assert a == [a[0]] + a[1..];
    }
  }

  lemma {:induction false} SplitJoins(name: string)
    ensures |Split(name, '_')| == 1 ==> name == Split(name, '_')[0]
    ensures |Split(name, '_')| == 2 ==> name == ServiceName(Split(name, '_')[0], Split(name, '_')[1])
  {
    if name != "" {
      SplitJoins(name[1..]);
      assert name == [name[0]] + name[1..];
    }
  }

  /** A joined name comes apart again exactly when neither part has an underscore,
      which checkNameConvention asks of both. */
  lemma NameRoundTrip(publisher: string, service: string)
    ensures SplitName(ServiceName(publisher, service)) == Some((publisher, service))
       <==> '_' !in publisher && '_' !in service
  {
    if '_' !in publisher {
      SplitTwo(publisher, service);
      if '_' !in service {
        SplitOne(service);
      }
    }
  }

  /** What comes apart is the join of its parts. */
  lemma SplitNameJoins(name: string)
    requires SplitName(name).Some?
    ensures name == ServiceName(SplitName(name).value.0, SplitName(name).value.1)
    ensures '_' !in SplitName(name).value.0 && '_' !in SplitName(name).value.1
  {
    SplitJoins(name);
  }

  // ----- The in-process table -----

  class ChanRegistry<T> {
    var table: map<string, T>

    /** serviceNamesInProcess. */
    method ServiceNames(publisher: string, service: string) returns (names: seq<string>)
      ensures forall n :: n in names <==> n in table && Glob(ServiceName(publisher, service), n)
      ensures forall i, j :: 0 <= i < j < |names| ==> names[i] != names[j]
    {
      var name := ServiceName(publisher, service);
      names := [];
      if STAR in name {
        var todo := table.Keys;
        while todo != {}
          invariant todo <= table.Keys
          invariant forall n :: n in names <==> n in table.Keys - todo && Glob(name, n)
          invariant forall i, j :: 0 <= i < j < |names| ==> names[i] != names[j]
          decreases |todo|
        {
          var ctname :| ctname in todo;
          todo := todo - {ctname};
          var ok := WildcardMatch(name, ctname);
          if ok {
            names := names + [ctname];
          }
        }
      } else {
        forall n: string {
          ExactPattern(name, n);
        }
        if name in table {
          names := [name];
        }
      }
    }
  }

  // ----- The root registry -----

  datatype Provider = Provider(timeStamp: int, addr: string, proxied: bool)

  /** "publisher_service" to provider id to provider. */
  type Table = map<string, map<string, Provider>>

  datatype Visit = Visit(service: string, id: string, info: Provider)

  /** What a walk's callback decides: to remove the provider, or what to leave. */
  datatype Verdict = Remove | Keep(info: Provider)

  type Callback = (string, string, Provider) -> Verdict

  function Providers(m: Table, service: string): map<string, Provider> {
    if service in m then m[service] else map[]
  }

  function Put(m: Table, service: string, id: string, info: Provider): Table {
    m[service := Providers(m, service)[id := info]]
  }

  function Without(m: Table, service: string, id: string): Table {
    if service in m then m[service := m[service] - {id}] else m
  }

  /** Without time stamps and services that have no provider. */
  ghost function Entries(m: Table): map<(string, string), (string, bool)> {
    map n, p | n in m && p in m[n] :: (n, p) := Endpoint(m[n][p])
  }

  function Endpoint(info: Provider): (string, bool) { (info.addr, info.proxied) }

  lemma EntriesAt(m: Table, k: (string, string))
    ensures k in Entries(m) <==> k.0 in m && k.1 in m[k.0]
    ensures k in Entries(m) ==> Entries(m)[k] == Endpoint(m[k.0][k.1])
  {
  }

  /** b is a with one entry more, or changed. */
  ghost predicate IsExtended<K(!new), V>(a: map<K, V>, b: map<K, V>, key: K, value: V) {
    && (forall k :: k in b <==> k == key || k in a)
    && (key in b ==> b[key] == value)
    && (forall k :: k in a && k != key && k in b ==> b[k] == a[k])
  }

  lemma MapExtends<K(!new), V>(a: map<K, V>, b: map<K, V>, key: K, value: V)
    requires IsExtended(a, b, key, value)
    ensures b == a[key := value]
  {
  }

  lemma EntriesPut(m: Table, service: string, id: string, info: Provider)
    ensures IsExtended(Entries(m), Entries(Put(m, service, id, info)), (service, id), Endpoint(info))
  {
    var t := Put(m, service, id, info);
    var a, b := Entries(m), Entries(t);
    forall k: (string, string)
      ensures k in b <==> k == (service, id) || k in a
      ensures k == (service, id) ==> b[k] == Endpoint(info)
      ensures k != (service, id) && k in a ==> b[k] == a[k]
    {
      EntriesAt(m, k);
      EntriesAt(t, k);
    }
  }

  ghost predicate VisitedOnce(visits: seq<Visit>) {
    forall i, j :: 0 <= i < j < |visits| ==> visits[i].service != visits[j].service || visits[i].id != visits[j].id
  }

  /** One visit for each provider of each matching service, and no other. */
  ghost predicate Covers(visits: seq<Visit>, m: Table, name: string) {
    && VisitedOnce(visits)
    && forall v :: v in visits <==> Due(v, m, name)
  }

  ghost predicate Due(v: Visit, m: Table, name: string) {
    v.service in m && Glob(name, v.service) && v.id in m[v.service] && v.info == m[v.service][v.id]
  }

  function WalkedOne(service: string, ps: map<string, Provider>, fn: Callback): map<string, Provider> {
    map p | p in ps && fn(service, p, ps[p]).Keep? :: fn(service, p, ps[p]).info
  }

  ghost function Walked(m: Table, name: string, fn: Callback): Table {
    map n | n in m :: if Glob(name, n) then WalkedOne(n, m[n], fn) else m[n]
  }

  /** Without `*` the walk concerns one service, the one so named. */
  lemma ExactWalk(name: string, m: Table, fn: Callback)
    requires STAR !in name
    ensures Walked(m, name, fn) == if name in m then m[name := WalkedOne(name, m[name], fn)] else m
    ensures forall v :: Due(v, m, name) <==>
            v.service == name && name in m && v.id in m[name]
            && v.info == m[name][v.id]
  {
    forall n: string {
      ExactPattern(name, n);
    }
  }

  method WalkOne(service: string, ps: map<string, Provider>, fn: Callback)
    returns (left: map<string, Provider>, visits: seq<Visit>)
    ensures left == WalkedOne(service, ps, fn)
    ensures VisitedOnce(visits)
    ensures forall v :: v in visits <==> v.service == service && v.id in ps && v.info == ps[v.id]
  {
    left, visits := ps, [];
    var todo := ps.Keys;
    while todo != {}
      invariant todo <= ps.Keys && VisitedOnce(visits)
      invariant forall v :: v in visits <==> v.service == service && v.id in ps.Keys - todo && v.info == ps[v.id]
      invariant forall p :: p in left <==> p in ps && (p in todo || fn(service, p, ps[p]).Keep?)
      invariant forall p :: p in left ==> left[p] == if p in todo then ps[p] else fn(service, p, ps[p]).info
      decreases |todo|
    {
      var id :| id in todo;
      todo := todo - {id};
      visits := visits + [Visit(service, id, ps[id])];
      var verdict := fn(service, id, ps[id]);
      if verdict.Remove? {
        left := left - {id};
      } else {
        left := left[id := verdict.info];
      }
    }
  }

  // ----- Answers -----

  datatype ServiceInfo = ServiceInfo(publisher: string, service: string, id: string, addr: string)

  function ShownAddr(info: Provider): string {
    if info.proxied then info.addr + "P" else info.addr
  }

  /** makeServiceInfo; None is its panic on a name that does not come apart. */
  function MakeServiceInfo(v: Visit): Option<ServiceInfo> {
    if v.service == "" then Some(ServiceInfo("", "", v.id, ShownAddr(v.info)))
    else match SplitName(v.service)
      case None => None
      case Some(name) => Some(ServiceInfo(name.0, name.1, v.id, ShownAddr(v.info)))
  }

  ghost predicate Shows(visits: seq<Visit>, infos: seq<ServiceInfo>) {
    |visits| == |infos| && forall k :: 0 <= k < |visits| ==> MakeServiceInfo(visits[k]) == Some(infos[k])
  }

  /** One entry for each provider of each matching service, in some order. */
  ghost predicate Lists(infos: seq<ServiceInfo>, m: Table, name: string) {
    exists visits :: Covers(visits, m, name) && Shows(visits, infos)
  }

  /** The registry cannot show some matching provider. */
  ghost predicate Unshowable(m: Table, name: string) {
    exists v :: Due(v, m, name) && MakeServiceInfo(v).None?
  }

  method ShowAll(visits: seq<Visit>) returns (r: Option<seq<ServiceInfo>>)
    ensures r.Some? ==> Shows(visits, r.value)
    ensures r.None? ==> exists v :: v in visits && MakeServiceInfo(v).None?
  {
    var infos := [];
    for k := 0 to |visits|
      invariant Shows(visits[..k], infos)
    {
      var info := MakeServiceInfo(visits[k]);
      if info.None? {
        assert visits[k] in visits;
        return None;
      }
      infos := infos + [info.value];
    }
    assert visits[..|visits|] == visits;
    return Some(infos);
  }

  lemma ShownMeansShowable(visits: seq<Visit>, infos: seq<ServiceInfo>, m: Table, name: string)
    requires Covers(visits, m, name) && Shows(visits, infos)
    ensures Lists(infos, m, name) && !Unshowable(m, name)
  {
    forall v | Due(v, m, name) ensures MakeServiceInfo(v).Some? {
      assert v in visits;
    }
  }

  // ----- The check -----

  /** The time at which a provider is probed and whether it answered. */
  datatype Probe = Probe(now: int, ok: bool)

  function Judge(info: Provider, probe: Probe): Verdict {
    if probe.ok then Keep(info.(timeStamp := probe.now))
    else if probe.now > info.timeStamp + FIVE_MINUTES then Remove
    else Keep(info)
  }

  function Judged(probes: (string, string) -> Probe): Callback {
    (service: string, id: string, info: Provider) => Judge(info, probes(service, id))
  }

  function Get(ps: map<string, Provider>, id: string): Option<Provider> {
    if id in ps then Some(ps[id]) else None
  }

  function Entry(m: Table, service: string, id: string): Option<Provider> {
    Get(Providers(m, service), id)
  }

  ghost predicate PartlyOne(before: map<string, Provider>, now: map<string, Provider>, after: map<string, Provider>) {
    forall p :: Get(now, p) == Get(before, p) || Get(now, p) == Get(after, p)
  }

  /** Each provider is as it was, or as the walk would leave it. */
  ghost predicate PartlyWalked(before: Table, now: Table, after: Table) {
    forall n, p :: Entry(now, n, p) == Entry(before, n, p) || Entry(now, n, p) == Entry(after, n, p)
  }

  /** The walk is through with all services but these. */
  ghost predicate Through(before: Table, now: Table, after: Table, todo: set<string>) {
    && now.Keys == before.Keys == after.Keys && todo <= before.Keys
    && forall n :: n in before ==> now[n] == if n in todo then before[n] else after[n]
  }

  lemma ThroughMore(before: Table, now: Table, after: Table, todo: set<string>, service: string)
    requires Through(before, now, after, todo) && service in todo
    ensures Through(before, now[service := after[service]], after, todo - {service})
  {
  }

  lemma ThroughIsPartly(before: Table, now: Table, after: Table, todo: set<string>, service: string,
                        left: map<string, Provider>)
    requires Through(before, now, after, todo) && service in todo
    requires PartlyOne(before[service], left, after[service])
    ensures PartlyWalked(before, now[service := left], after)
  {
    var t := now[service := left];
    forall n, p ensures Entry(t, n, p) == Entry(before, n, p) || Entry(t, n, p) == Entry(after, n, p) {
      if n == service {
        assert Get(left, p) == Get(before[service], p) || Get(left, p) == Get(after[service], p);
      }
    }
  }

  /** One kept visit for each provider left of these services. */
  ghost predicate KeptOf(kept: seq<Visit>, service: string, left: map<string, Provider>) {
    && VisitedOnce(kept)
    && forall v :: v in kept <==> v.service == service && v.id in left && v.info == left[v.id]
  }

  ghost predicate PanicsAt(service: string, ps: map<string, Provider>, id: string, fn: Callback) {
    id in ps && fn(service, id, ps[id]).Keep? && MakeServiceInfo(Visit(service, id, fn(service, id, ps[id]).info)).None?
  }

  /** The callback of the check on the providers of one service; when makeServiceInfo
      panics, the rest of them is left as it was. */
  method CheckOne(service: string, ps: map<string, Provider>, probes: (string, string) -> Probe)
    returns (left: map<string, Provider>, infos: Option<seq<ServiceInfo>>, ghost kept: seq<Visit>)
    ensures infos.Some? ==> left == WalkedOne(service, ps, Judged(probes))
    ensures infos.Some? ==> KeptOf(kept, service, left) && Shows(kept, infos.value)
    ensures infos.None? ==> exists id :: PanicsAt(service, ps, id, Judged(probes))
    ensures PartlyOne(ps, left, WalkedOne(service, ps, Judged(probes)))
  {
    left, kept := ps, [];
    var shown := [];
    var todo := ps.Keys;
    while todo != {}
      invariant todo <= ps.Keys && VisitedOnce(kept) && Shows(kept, shown)
      invariant forall v :: v in kept <==> v.service == service && v.id in left && v.id !in todo && v.info == left[v.id]
      invariant forall p :: p in left <==> p in ps && (p in todo || Judge(ps[p], probes(service, p)).Keep?)
      invariant forall p :: p in left ==>
                left[p] == if p in todo then ps[p] else Judge(ps[p], probes(service, p)).info
      decreases |todo|
    {
      var id :| id in todo;
      todo := todo - {id};
      var verdict := Judge(ps[id], probes(service, id));
      if verdict.Remove? {
        left := left - {id};
      } else {
        left := left[id := verdict.info];
        var info := MakeServiceInfo(Visit(service, id, verdict.info));
        if info.None? {
          assert PanicsAt(service, ps, id, Judged(probes));
          return left, None, kept;
        }
        kept := kept + [Visit(service, id, verdict.info)];
        shown := shown + [info.value];
      }
    }
    return left, Some(shown), kept;
  }

  /** One kept visit for each provider of the services that are done. */
  ghost predicate KeptSoFar(kept: seq<Visit>, after: Table, todo: set<string>) {
    && VisitedOnce(kept)
    && forall v :: v in kept <==>
         v.service in after && v.service !in todo && v.id in after[v.service] && v.info == after[v.service][v.id]
  }

  lemma AllWalked(m: Table, fn: Callback)
    ensures Walked(m, "*", fn).Keys == m.Keys
    ensures forall n :: n in m ==> Walked(m, "*", fn)[n] == WalkedOne(n, m[n], fn)
  {
    forall n | n in m ensures Walked(m, "*", fn)[n] == WalkedOne(n, m[n], fn) {
      StarMatchesAll(n);
    }
  }

  lemma KeptMore(kept: seq<Visit>, more: seq<Visit>, after: Table, todo: set<string>, service: string)
    requires KeptSoFar(kept, after, todo + {service}) && service in after && service !in todo
    requires KeptOf(more, service, after[service])
    ensures KeptSoFar(kept + more, after, todo)
  {
    forall v: Visit | v in kept ensures v.service != service {
    }
    forall i, j | 0 <= i < |kept| && 0 <= j < |more| ensures kept[i].service != more[j].service {
      assert kept[i] in kept && more[j] in more;
    }
  }

  lemma KeptAll(kept: seq<Visit>, after: Table)
    requires KeptSoFar(kept, after, {})
    ensures Covers(kept, after, "*")
  {
    forall v ensures v in kept <==> Due(v, after, "*") {
      StarMatchesAll(v.service);
    }
  }

  /** Where the check stands between two services. */
  ghost predicate Checking(before: Table, now: Table, after: Table, todo: set<string>, kept: seq<Visit>,
                           infos: seq<ServiceInfo>) {
    Through(before, now, after, todo) && KeptSoFar(kept, after, todo) && Shows(kept, infos)
  }

  lemma AllChecked(before: Table, now: Table, after: Table, kept: seq<Visit>, infos: seq<ServiceInfo>)
    requires Checking(before, now, after, {}, kept, infos)
    ensures now == after && Lists(infos, now, "*") && !Unshowable(after, "*") && PartlyWalked(before, now, after)
  {
    KeptAll(kept, after);
    ShownMeansShowable(kept, infos, after, "*");
  }

  lemma PanicIsUnshowable(m: Table, service: string, fn: Callback)
    requires service in m && exists id :: PanicsAt(service, m[service], id, fn)
    ensures Unshowable(Walked(m, "*", fn), "*")
  {
    AllWalked(m, fn);
    StarMatchesAll(service);
    var id :| PanicsAt(service, m[service], id, fn);
    var v := Visit(service, id, fn(service, id, m[service][id]).info);
    assert Due(v, Walked(m, "*", fn), "*");
  }

  class RootRegistry {
    var serviceMap: Table

    /** walkProviders: whatever the callback decides, each matching provider is visited
        once and exactly those it flags are removed. */
    method WalkProviders(name: string, fn: Callback) returns (visits: seq<Visit>)
      modifies this
      ensures Covers(visits, old(serviceMap), name)
      ensures serviceMap == Walked(old(serviceMap), name, fn)
    {
      visits := [];
      ghost var before := serviceMap;
      if STAR in name {
        var todo := serviceMap.Keys;
        while todo != {}
          invariant todo <= before.Keys == serviceMap.Keys && VisitedOnce(visits)
          invariant forall v :: v in visits <==> v.service !in todo && Due(v, before, name)
          invariant forall n :: n in before ==>
                    serviceMap[n] == if n in todo then before[n] else Walked(before, name, fn)[n]
          decreases |todo|
        {
          var psName :| psName in todo;
          todo := todo - {psName};
          var ok := WildcardMatch(name, psName);
          if ok {
            var left, more := WalkOne(psName, serviceMap[psName], fn);
            serviceMap := serviceMap[psName := left];
            visits := visits + more;
          }
        }
      } else {
        ExactWalk(name, serviceMap, fn);
        if name in serviceMap {
          var left, more := WalkOne(name, serviceMap[name], fn);
          serviceMap := serviceMap[name := left];
          visits := more;
        }
      }
    }

    /** regServiceInWAN: an unreachable service is not registered. */
    method Register(publisher: string, service: string, id: string, addr: string, proxied: bool, probe: Probe)
      returns (ok: bool)
      modifies this
      ensures ok == probe.ok
      ensures ok ==>
              Entries(serviceMap)
              == Entries(old(serviceMap))[(ServiceName(publisher, service), id) := (addr, proxied)]
      ensures ok ==> serviceMap == Put(old(serviceMap), ServiceName(publisher, service), id,
              Provider(probe.now, addr, proxied))
      ensures !ok ==> serviceMap == old(serviceMap)
    {
      if !probe.ok {
        return false;
      }
      var name := ServiceName(publisher, service);
      ghost var before, info := serviceMap, Provider(probe.now, addr, proxied);
      EntriesPut(before, name, id, info);
      MapExtends(Entries(before), Entries(Put(before, name, id, info)), (name, id), Endpoint(info));
      var pmap := if name in serviceMap then serviceMap[name] else map[];
      serviceMap := serviceMap[name := pmap[id := Provider(probe.now, addr, proxied)]];
      return true;
    }

    /** delServiceInWAN. */
    method Delete(publisher: string, service: string, id: string)
      modifies this
      ensures Entries(serviceMap) == Entries(old(serviceMap)) - {(ServiceName(publisher, service), id)}
      ensures serviceMap == Without(old(serviceMap), ServiceName(publisher, service), id)
    {
      var name := ServiceName(publisher, service);
      ghost var before := serviceMap;
      if name in serviceMap {
        serviceMap := serviceMap[name := serviceMap[name] - {id}];
      }
      forall k: (string, string)
        ensures k in Entries(serviceMap) <==> k in Entries(before) && k != (name, id)
        ensures k in Entries(serviceMap) ==> Entries(serviceMap)[k] == Entries(before)[k]
      {
        EntriesAt(before, k);
        EntriesAt(serviceMap, k);
      }
      assert Entries(serviceMap) == Entries(before) - {(name, id)};
    }

    /** queryServiceInWAN: each provider of each matching service once, or a panic if
        one of their names does not come apart. */
    method Query(publisher: string, service: string) returns (r: Option<seq<ServiceInfo>>)
      modifies this
      ensures serviceMap == old(serviceMap)
      ensures r.None? <==> Unshowable(serviceMap, ServiceName(publisher, service))
      ensures r.Some? ==> Lists(r.value, serviceMap, ServiceName(publisher, service))
    {
      var name := ServiceName(publisher, service);
      ghost var before := serviceMap;
      var visits := WalkProviders(name, (s, i, info) => Keep(info));
      forall n | n in before ensures serviceMap[n] == before[n] {
        assert WalkedOne(n, before[n], (s, i, info) => Keep(info)) == before[n];
      }
      assert serviceMap == before;
      r := ShowAll(visits);
      if r.Some? {
        ShownMeansShowable(visits, r.value, serviceMap, name);
      }
    }

    /** The check on one service. */
    method CheckService(psName: string, infos: seq<ServiceInfo>, probes: (string, string) -> Probe,
                        ghost before: Table, ghost after: Table, ghost todo: set<string>, ghost kept: seq<Visit>)
      returns (more: Option<seq<ServiceInfo>>, ghost kept': seq<Visit>)
      requires psName in todo && after == Walked(before, "*", Judged(probes))
      requires Checking(before, serviceMap, after, todo, kept, infos)
      modifies this
      ensures more.Some? ==> Checking(before, serviceMap, after, todo - {psName}, kept', more.value)
      ensures more.None? ==> PartlyWalked(before, serviceMap, after) && Unshowable(after, "*")
    {
      AllWalked(before, Judged(probes));
      ghost var now := serviceMap;
      var left, shown;
      left, shown, kept' := CheckOne(psName, serviceMap[psName], probes);
      serviceMap := serviceMap[psName := left];
      if shown.None? {
        ThroughIsPartly(before, now, after, todo, psName, left);
        PanicIsUnshowable(before, psName, Judged(probes));
        return None, kept;
      }
      ThroughMore(before, now, after, todo, psName);
      KeptMore(kept, kept', after, todo - {psName}, psName);
      return Some(infos + shown.value), kept + kept';
    }

    /** One turn of registryCheckSaver: drops what has been unreachable for over five
        minutes; the record it returns lists exactly what is left.  A kept provider whose
        name does not come apart makes it panic in the middle of its walk. */
    method Check(probes: (string, string) -> Probe) returns (record: Option<seq<ServiceInfo>>)
      modifies this
      ensures record.None? <==> Unshowable(Walked(old(serviceMap), "*", Judged(probes)), "*")
      ensures record.Some? ==> serviceMap == Walked(old(serviceMap), "*", Judged(probes))
      ensures record.Some? ==> Lists(record.value, serviceMap, "*")
      ensures PartlyWalked(old(serviceMap), serviceMap, Walked(old(serviceMap), "*", Judged(probes)))
    {
      ghost var before, after := serviceMap, Walked(serviceMap, "*", Judged(probes));
      AllWalked(before, Judged(probes));
      ghost var kept := [];
      record := Some([]);
      var todo := serviceMap.Keys;
      while todo != {} && record.Some?
        invariant record.Some? ==> Checking(before, serviceMap, after, todo, kept, record.value)
        invariant record.None? ==> PartlyWalked(before, serviceMap, after) && Unshowable(after, "*")
        decreases |todo|
      {
        var psName :| psName in todo;
        record, kept := CheckService(psName, record.value, probes, before, after, todo, kept);
        todo := todo - {psName};
      }
      if record.Some? {
        AllChecked(before, serviceMap, after, kept, record.value);
      }
    }
  }
}
