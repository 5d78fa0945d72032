/** One node of the LAN registry (registry.go, registryLAN): its table of local
  services, its cache of services heard of, and its cache of query results. */
module Lan {
  import opened Collections
  import opened Wildcard

  const FIFTEEN_SECONDS := 15_000
  const DELAY := 100
  const MAX_RESULTS := 1000

  datatype Local = Local(stamp: int, port: string)

  datatype Heard = Heard(stamp: int, addr: string)

  datatype Info = Info(name: string, id: string, addr: string)

  /** `compiledAt` is history. */
  datatype Result = Result(stamp: int, infos: set<Info>, compiledAt: int)

  type Cache = map<string, map<string, Heard>>

  /** A foundInLAN message. */
  datatype FoundMsg = FoundMsg(name: string, id: string, port: string)

  datatype Node = Node(id: string, host: string, local: map<string, Local>, cache: Cache, results: map<string, Result>)

  // ----- What each message and command does -----

  ghost function Replies(n: Node, name: string): set<FoundMsg> {
    set k | k in n.local && Glob(name, k) :: FoundMsg(k, n.id, n.local[k].port)
  }

  function Addr(host: string, port: string): string {
    host + ":" + port
  }

  function OnFound(n: Node, msg: FoundMsg, host: string, now: int): Node {
    var prvds := if msg.name in n.cache then n.cache[msg.name] else map[];
    n.(cache := n.cache[msg.name := prvds[msg.id := Heard(now, Addr(host, msg.port))]])
  }

  predicate Current(h: Heard, now: int) {
    now - h.stamp <= FIVE_MINUTES
  }

  function Recent(prvds: map<string, Heard>, now: int): map<string, Heard> {
    map p | p in prvds && Current(prvds[p], now) :: prvds[p]
  }

  /** getServiceInfos drops what is out of date from the services it walks. */
  ghost function Swept(cache: Cache, name: string, now: int): Cache {
    map k | k in cache :: if Glob(name, k) then Recent(cache[k], now) else cache[k]
  }

  ghost predicate Listed(i: Info, cache: Cache, name: string, now: int) {
    && i.name in cache && Glob(name, i.name) && i.id in cache[i.name]
    && Current(cache[i.name][i.id], now) && i.addr == cache[i.name][i.id].addr
  }

  /** delService. */
  function Forget(n: Node, name: string): Node {
    n.(local := n.local - {name},
       cache := if name in n.cache then n.cache[name := n.cache[name] - {n.id}] else n.cache)
  }

  predicate Expires(l: Local, alive: bool, now: int) {
    !alive && now > l.stamp + FIVE_MINUTES
  }

  function TickedLocal(local: map<string, Local>, alive: set<string>, now: int, todo: set<string>): map<string, Local> {
    map k | k in local && (k in todo || !Expires(local[k], k in alive, now)) ::
      if k !in todo && k in alive then local[k].(stamp := now) else local[k]
  }

  function TickedCache(n: Node, alive: set<string>, now: int, todo: set<string>): Cache {
    map k | k in n.cache ::
      if k !in todo && k in n.local && Expires(n.local[k], k in alive, now) then n.cache[k] - {n.id} else n.cache[k]
  }

  /** The ticker: pings every local service, forgets those silent for five minutes. */
  function Ticked(n: Node, alive: set<string>, now: int): Node {
    n.(local := TickedLocal(n.local, alive, now, {}), cache := TickedCache(n, alive, now, {}))
  }

  lemma TickedOne(n: Node, alive: set<string>, now: int, todo: set<string>, name: string)
    requires name in todo && name in n.local
    ensures var l := TickedLocal(n.local, alive, now, todo);
            TickedLocal(n.local, alive, now, todo - {name})
            == if Expires(n.local[name], name in alive, now) then l - {name}
               else if name in alive then l[name := n.local[name].(stamp := now)] else l
    ensures var c := TickedCache(n, alive, now, todo);
            TickedCache(n, alive, now, todo - {name})
            == if Expires(n.local[name], name in alive, now) && name in c then c[name := c[name] - {n.id}] else c
  {
  }

  function Trimmed(results: map<string, Result>): map<string, Result> {
    if |results| > MAX_RESULTS then map[] else results
  }

  predicate Usable(results: map<string, Result>, name: string, now: int) {
    name in results && now - results[name].stamp < FIFTEEN_SECONDS
  }

  // ----- The code -----

  class RegistryLAN {
    const id: string
    const host: string
    var localServiceTable: map<string, Local>
    var serviceCache: Cache
    var serviceInfoCache: map<string, Result>

    ghost function Value(): Node
      reads this
    {
      Node(id, host, localServiceTable, serviceCache, serviceInfoCache)
    }

    constructor (id: string, host: string, record: map<string, Local>)
      ensures Value() == Node(id, host, record, map[], map[])
    {
      this.id, this.host := id, host;
      localServiceTable, serviceCache, serviceInfoCache := record, map[], map[];
    }

    /** The answers to a queryInLAN: with or without `*`, the local services that match. */
    method OnQuery(name: string) returns (replies: set<FoundMsg>)
      ensures replies == Replies(Value(), name)
    {
      replies := {};
      if STAR in name {
        var todo := localServiceTable.Keys;
        while todo != {}
          invariant todo <= localServiceTable.Keys
          invariant replies == set k | k in localServiceTable && k !in todo
                    && Glob(name, k) :: FoundMsg(k, id, localServiceTable[k].port)
          decreases |todo|
        {
          var k :| k in todo;
          todo := todo - {k};
          var ok := WildcardMatch(name, k);
          if ok {
            replies := replies + {FoundMsg(k, id, localServiceTable[k].port)};
          }
        }
      } else {
        forall k: string {
          ExactPattern(name, k);
        }
        if name in localServiceTable {
          replies := {FoundMsg(name, id, localServiceTable[name].port)};
        }
      }
    }

    method OnFoundMsg(msg: FoundMsg, from: string, now: int)
      modifies this
      ensures Value() == OnFound(old(Value()), msg, from, now)
    {
      var prvds := if msg.name in serviceCache then serviceCache[msg.name] else map[];
      serviceCache := serviceCache[msg.name := prvds[msg.id := Heard(now, Addr(from, msg.port))]];
    }

    /** walkProviders of getServiceInfos, for one service. */
    method Walk(name: string, prvds: map<string, Heard>, now: int) returns (left: map<string, Heard>, infos: set<Info>)
      ensures left == Recent(prvds, now)
      ensures forall i :: i in infos <==>
              i.name == name && i.id in prvds && Current(prvds[i.id], now)
              && i.addr == prvds[i.id].addr
    {
      left, infos := prvds, {};
      var todo := prvds.Keys;
      while todo != {}
        invariant todo <= prvds.Keys
        invariant left.Keys == set p | p in prvds && (p in todo || Current(prvds[p], now))
        invariant forall p :: p in left ==> left[p] == prvds[p]
        invariant forall i :: i in infos <==>
                  i.name == name && i.id in prvds && i.id !in todo
                  && Current(prvds[i.id], now) && i.addr == prvds[i.id].addr
        decreases |todo|
      {
        var p :| p in todo;
        todo := todo - {p};
        if now - prvds[p].stamp > FIVE_MINUTES {
          left := left - {p};
        } else {
          infos := infos + {Info(name, p, prvds[p].addr)};
        }
      }
    }

    /** getServiceInfos: exactly the matching providers heard of in the last five minutes. */
    method GetServiceInfos(name: string, now: int) returns (infos: set<Info>)
      modifies this
      ensures Value() == old(Value()).(cache := Swept(old(serviceCache), name, now))
      ensures forall i :: i in infos <==> Listed(i, old(serviceCache), name, now)
    {
      infos := {};
      ghost var before := serviceCache;
      if STAR in name {
        var todo := serviceCache.Keys;
        while todo != {}
          invariant todo <= before.Keys == serviceCache.Keys
          invariant forall k :: k in before ==>
                    serviceCache[k] == if k in todo then before[k] else Swept(before, name, now)[k]
          invariant forall i :: i in infos <==> i.name !in todo && Listed(i, before, name, now)
          invariant localServiceTable == old(localServiceTable) && serviceInfoCache == old(serviceInfoCache)
          decreases |todo|
        {
          var k :| k in todo;
          todo := todo - {k};
          var ok := WildcardMatch(name, k);
          if ok {
            var left, more := Walk(k, serviceCache[k], now);
            serviceCache := serviceCache[k := left];
            infos := infos + more;
          }
        }
      } else {
        forall k: string {
          ExactPattern(name, k);
        }
        if name in serviceCache {
          var left, more := Walk(name, serviceCache[name], now);
          serviceCache := serviceCache[name := left];
          infos := more;
        }
      }
      assert serviceCache == Swept(before, name, now);
    }

    /** delService. */
    method DelService(name: string)
      modifies this
      ensures Value() == Forget(old(Value()), name)
    {
      localServiceTable := localServiceTable - {name};
      if name in serviceCache {
        serviceCache := serviceCache[name := serviceCache[name] - {id}];
      }
    }

    method OnTicker(alive: set<string>, now: int)
      modifies this
      ensures Value() == Ticked(old(Value()), alive, now)
    {
      ghost var n := Value();
      var todo := localServiceTable.Keys;
      assert TickedCache(n, alive, now, todo) == n.cache;
      while todo != {}
        invariant todo <= n.local.Keys && serviceInfoCache == n.results
        invariant localServiceTable == TickedLocal(n.local, alive, now, todo)
        invariant serviceCache == TickedCache(n, alive, now, todo)
        decreases |todo|
      {
        var name :| name in todo;
        TickedOne(n, alive, now, todo, name);
        todo := todo - {name};
        var lsi := localServiceTable[name];
        if name !in alive {
          if now > lsi.stamp + FIVE_MINUTES {
            DelService(name);
          }
        } else {
          localServiceTable := localServiceTable[name := lsi.(stamp := now)];
        }
      }
    }

    /** The first half of queryServiceInLAN: a result less than fifteen seconds old is
        returned at once. */
    method Lookup(name: string, now: int) returns (hit: bool, infos: set<Info>)
      modifies this
      ensures Value() == old(Value()).(results := Trimmed(old(serviceInfoCache)))
      ensures hit <==> Usable(serviceInfoCache, name, now)
      ensures hit ==> infos == serviceInfoCache[name].infos
    {
      if |serviceInfoCache| > MAX_RESULTS {
        serviceInfoCache := map[];
      }
      if name in serviceInfoCache && now - serviceInfoCache[name].stamp < FIFTEEN_SECONDS {
        return true, serviceInfoCache[name].infos;
      }
      return false, {};
    }
  }
}
