/** The search of client.go `Discover`: rounds over the scopes, a table of services
  already tried, and a bound on how many connections are delivered.

  What each lookup returns and whether a dial succeeds comes from the world; so does the
  order in which the network's addresses are tried, which may drop some of them when
  providers are probed first. */
module Discovery {
  import opened Collections
  import R = Ranking

  /** One lookup result. */
  datatype Candidate = Candidate(publisher: string, service: string, provider: string, addr: string, up: bool)

  /** The key of the table of tried services. */
  function Key(c: Candidate): string {
    c.publisher + c.service + c.provider
  }

  /** What the lookups of one round return. */
  datatype Round = Round(inProcess: seq<Candidate>, anonymous: seq<Candidate>, directory: seq<Candidate>,
      lan: seq<Candidate>, wan: seq<Candidate>)

  type Ranking = seq<Candidate> -> seq<Candidate>

  datatype Config = Config(wanted: int, searchSelf: bool, process: bool, os: bool, lan: bool, wan: bool,
                           hasRegistry: bool, selfID: string, rank: Ranking)

  /** Shuffling and ranking invent nothing. */
  ghost predicate Picks(rank: Ranking) {
    forall cs :: multiset(rank(cs)) <= multiset(cs)
  }

  /** Without probing nothing is dropped either. */
  ghost predicate Shuffles(rank: Ranking) {
    forall cs :: multiset(rank(cs)) == multiset(cs)
  }

  datatype State = State(list: set<string>, tried: seq<Candidate>, delivered: seq<Candidate>)

  function Init(): State {
    State({}, [], [])
  }

  // ----- How much is wanted -----

  predicate HasWildcard(publisher: string, service: string, ids: seq<string>) {
    '*' in publisher || '*' in service || exists i :: 0 <= i < |ids| && '*' in ids[i]
  }

  function Wanted(publisher: string, service: string, ids: seq<string>): int {
    if HasWildcard(publisher, service, ids) then -1 else if ids == [] then 1 else |ids|
  }

  // ----- One round -----

  function Dialled(s: State, c: Candidate): State {
    s.(tried := s.tried + [c], delivered := if c.up then s.delivered + [c] else s.delivered)
  }

  function Try(s: State, c: Candidate): State {
    Dialled(s.(list := s.list + {Key(c)}), c)
  }

  /** The loops of findWithinOS: skip what is in the table, else enter it and dial. */
  function TryNew(s: State, cs: seq<Candidate>, wanted: int): State
    decreases |cs|
  {
    if cs == [] || |s.delivered| == wanted then s
    else TryNew(if Key(cs[0]) in s.list then s else Try(s, cs[0]), cs[1..], wanted)
  }

  function Labelled(c: Candidate, selfID: string): Candidate {
    if c.provider == selfID then c.(provider := "self") else c
  }

  /** getAddrs: what is not in the table, all of which is entered. */
  function GetAddrs(list: set<string>, cs: seq<Candidate>, selfID: string): (set<string>, seq<Candidate>)
    decreases |cs|
  {
    if cs == [] then (list, [])
    else
      var c := Labelled(cs[0], selfID);
      if Key(c) in list then GetAddrs(list, cs[1..], selfID)
      else
        var (more, addrs) := GetAddrs(list + {Key(c)}, cs[1..], selfID);
        (more, [c] + addrs)
  }

  /** connect. */
  function Connect(s: State, cs: seq<Candidate>, wanted: int): State
    decreases |cs|
  {
    if cs == [] || |s.delivered| == wanted then s else Connect(Dialled(s, cs[0]), cs[1..], wanted)
  }

  function SelectAndConnect(s: State, cs: seq<Candidate>, cfg: Config): State {
    var (list, addrs) := GetAddrs(s.list, cs, cfg.selfID);
    Connect(s.(list := list), cfg.rank(addrs), cfg.wanted)
  }

  function FindWithinOS(s: State, r: Round, cfg: Config): State {
    var a := if cfg.searchSelf && cfg.process then TryNew(s, r.inProcess, cfg.wanted) else s;
    var b := if cfg.searchSelf && cfg.os then TryNew(a, r.anonymous, cfg.wanted) else a;
    if cfg.os then TryNew(b, r.directory, cfg.wanted) else b
  }

  function FindNetwork(s: State, r: Round, cfg: Config): State {
    var a := if |s.delivered| != cfg.wanted && cfg.lan then SelectAndConnect(s, r.lan, cfg) else s;
    if |a.delivered| != cfg.wanted && cfg.wan && cfg.hasRegistry then SelectAndConnect(a, r.wan, cfg) else a
  }

  function FindAll(s: State, r: Round, cfg: Config): State {
    FindNetwork(FindWithinOS(s, r, cfg), r, cfg)
  }

  // ----- What every part of the search keeps -----

  ghost predicate Once(cs: seq<Candidate>) {
    forall i, j :: 0 <= i < j < |cs| ==> Key(cs[i]) != Key(cs[j])
  }

  /** The candidates that answer, in order. */
  function Ups(cs: seq<Candidate>): seq<Candidate> {
    if cs == [] then []
    else if cs[|cs| - 1].up then Ups(cs[..|cs| - 1]) + [cs[|cs| - 1]] else Ups(cs[..|cs| - 1])
  }

  ghost predicate Ok(s: State, wanted: int) {
    && Once(s.tried)
    && (forall i :: 0 <= i < |s.tried| ==> Key(s.tried[i]) in s.list)
    && s.delivered == Ups(s.tried)
    && (wanted >= 0 ==> |s.delivered| <= wanted)
  }

  lemma DialKeeps(s: State, c: Candidate, wanted: int)
    requires Ok(s, wanted) && |s.delivered| != wanted && Key(c) in s.list
    requires forall i :: 0 <= i < |s.tried| ==> Key(s.tried[i]) != Key(c)
    ensures Ok(Dialled(s, c), wanted)
  {
    assert (s.tried + [c])[..|s.tried|] == s.tried;
  }

  lemma {:induction false} TryNewKeeps(s: State, cs: seq<Candidate>, wanted: int)
    requires Ok(s, wanted)
    ensures Ok(TryNew(s, cs, wanted), wanted)
    decreases |cs|
  {
    if cs != [] && |s.delivered| != wanted {
      if Key(cs[0]) in s.list {
        TryNewKeeps(s, cs[1..], wanted);
      } else {
        DialKeeps(s.(list := s.list + {Key(cs[0])}), cs[0], wanted);
        TryNewKeeps(Try(s, cs[0]), cs[1..], wanted);
      }
    }
  }

  /** The addresses are new, and now in the table. */
  lemma {:induction false} GetAddrsNew(list: set<string>, cs: seq<Candidate>, selfID: string)
    ensures var (more, addrs) := GetAddrs(list, cs, selfID);
            && list <= more && Once(addrs)
            && (forall c :: c in addrs ==> Key(c) !in list && Key(c) in more)
    ensures var (more, addrs) := GetAddrs(list, cs, selfID);
            forall k :: k in more ==> k in list || exists c :: c in addrs && Key(c) == k
    decreases |cs|
  {
    if cs != [] {
      var c := Labelled(cs[0], selfID);
      if Key(c) in list {
        GetAddrsNew(list, cs[1..], selfID);
      } else {
        GetAddrsNew(list + {Key(c)}, cs[1..], selfID);
        var (more, addrs) := GetAddrs(list + {Key(c)}, cs[1..], selfID);
        var all := [c] + addrs;
        forall i, j | 0 <= i < j < |all| ensures Key(all[i]) != Key(all[j]) {
          assert all[j] in addrs;
          if i > 0 {
            assert all[i] == addrs[i - 1] && all[j] == addrs[j - 1];
          }
        }
        assert forall d :: d in all <==> d == c || d in addrs;
      }
    }
  }

  lemma {:induction false} OnceCounts(cs: seq<Candidate>, x: Candidate)
    requires Once(cs)
    ensures multiset(cs)[x] <= 1
  {
    if cs != [] {
      var init, last := cs[..|cs| - 1], cs[|cs| - 1];
      assert cs == init + [last];
      OnceCounts(init, x);
      if x == last {
        assert x !in init;
      }
    }
  }

  lemma TwiceCounts<T>(s: seq<T>, i: nat, j: nat)
    requires i < j < |s| && s[i] == s[j]
    ensures multiset(s)[s[i]] >= 2
  {
    assert s == s[..j] + [s[j]] + s[j + 1..];
    assert s[i] == s[..j][i];
  }

  /** A choice from candidates with distinct keys has distinct keys. */
  lemma PicksOnce(addrs: seq<Candidate>, picked: seq<Candidate>)
    requires Once(addrs) && multiset(picked) <= multiset(addrs)
    ensures Once(picked) && forall c :: c in picked ==> c in addrs
  {
    forall c | c in picked ensures c in addrs {
      assert c in multiset(picked);
    }
    forall i, j | 0 <= i < j < |picked| ensures Key(picked[i]) != Key(picked[j]) {
      assert picked[i] in addrs && picked[j] in addrs;
      if picked[i] == picked[j] {
        TwiceCounts(picked, i, j);
        OnceCounts(addrs, picked[i]);
      }
    }
  }

  lemma {:induction false} ConnectKeeps(s: State, cs: seq<Candidate>, wanted: int)
    requires Ok(s, wanted) && Once(cs)
    requires forall i, c :: 0 <= i < |s.tried| && c in cs ==> Key(s.tried[i]) != Key(c)
    requires forall c :: c in cs ==> Key(c) in s.list
    ensures Ok(Connect(s, cs, wanted), wanted)
    decreases |cs|
  {
    if cs != [] && |s.delivered| != wanted {
      DialKeeps(s, cs[0], wanted);
      var t := Dialled(s, cs[0]);
      forall i, c | 0 <= i < |t.tried| && c in cs[1..] ensures Key(t.tried[i]) != Key(c) {
        var j :| 0 <= j < |cs[1..]| && cs[1..][j] == c;
        assert cs[j + 1] == c;
      }
      ConnectKeeps(t, cs[1..], wanted);
    }
  }

  lemma SelectKeeps(s: State, cs: seq<Candidate>, cfg: Config)
    requires Ok(s, cfg.wanted) && Picks(cfg.rank)
    ensures Ok(SelectAndConnect(s, cs, cfg), cfg.wanted)
  {
    var (list, addrs) := GetAddrs(s.list, cs, cfg.selfID);
    GetAddrsNew(s.list, cs, cfg.selfID);
    PicksOnce(addrs, cfg.rank(addrs));
    ConnectKeeps(s.(list := list), cfg.rank(addrs), cfg.wanted);
  }

  lemma RoundKeeps(s: State, r: Round, cfg: Config)
    requires Ok(s, cfg.wanted) && Picks(cfg.rank)
    ensures Ok(FindAll(s, r, cfg), cfg.wanted)
  {
    var a := if cfg.searchSelf && cfg.process then TryNew(s, r.inProcess, cfg.wanted) else s;
    var b := if cfg.searchSelf && cfg.os then TryNew(a, r.anonymous, cfg.wanted) else a;
    TryNewKeeps(s, r.inProcess, cfg.wanted);
    TryNewKeeps(a, r.anonymous, cfg.wanted);
    TryNewKeeps(b, r.directory, cfg.wanted);
    var c := FindWithinOS(s, r, cfg);
    SelectKeeps(c, r.lan, cfg);
    var d := if |c.delivered| != cfg.wanted && cfg.lan then SelectAndConnect(c, r.lan, cfg) else c;
    SelectKeeps(d, r.wan, cfg);
  }

  // ----- All rounds -----

  /** Go's division truncates toward zero. */
  function GoDiv(a: int, b: int): int
    requires b > 0
  {
    if a >= 0 then a / b else -(-a / b)
  }

  /** The rounds to wait for, from the timeout in seconds and the interval in
      milliseconds. */
  function Timeout(seconds: int, intervalMS: int): int
    requires intervalMS > 0
  {
    GoDiv(seconds * 1000, intervalMS)
  }

  /** Waiting: the rounds that were given are used up. */
  datatype Outcome = Found | TimedOut | Waiting

  datatype Searched = Searched(s: State, used: nat, outcome: Outcome)

  function Search(s: State, rounds: seq<Round>, timeout: int, cfg: Config): Searched
    decreases |rounds|
  {
    if rounds == [] then Searched(s, 0, Waiting)
    else
      var t := FindAll(s, rounds[0], cfg);
      if t.delivered != [] then Searched(t, 1, Found)
      else if timeout == 0 then Searched(t, 1, TimedOut)
      else
        var more := Search(t, rounds[1..], timeout - 1, cfg);
        more.(used := more.used + 1)
  }

  lemma {:induction false} SearchKeeps(s: State, rounds: seq<Round>, timeout: int, cfg: Config)
    requires Ok(s, cfg.wanted) && Picks(cfg.rank)
    ensures Ok(Search(s, rounds, timeout, cfg).s, cfg.wanted)
    decreases |rounds|
  {
    if rounds != [] {
      RoundKeeps(s, rounds[0], cfg);
      SearchKeeps(FindAll(s, rounds[0], cfg), rounds[1..], timeout - 1, cfg);
    }
  }

  /** Never more than one connection, or as many as provider ids were given, unless
      there is a wildcard. */
  lemma DeliveriesBounded(publisher: string, service: string, ids: seq<string>, rounds: seq<Round>, timeout: int,
                          cfg: Config)
    requires Picks(cfg.rank) && cfg.wanted == Wanted(publisher, service, ids)
    requires !HasWildcard(publisher, service, ids)
    ensures |Search(Init(), rounds, timeout, cfg).s.delivered| <= if ids == [] then 1 else |ids|
  {
    SearchKeeps(Init(), rounds, timeout, cfg);
  }

  /** Across rounds and scopes no publisher, service and provider label is tried twice,
      and what is delivered is what was tried and answered. */
  lemma TriedOnce(rounds: seq<Round>, timeout: int, cfg: Config, i: nat, j: nat)
    requires Picks(cfg.rank) && cfg.wanted != 0
    requires i < j < |Search(Init(), rounds, timeout, cfg).s.tried|
    ensures var s := Search(Init(), rounds, timeout, cfg).s;
            && !SameService(s.tried[i], s.tried[j])
            && s.delivered == Ups(s.tried)
  {
    SearchKeeps(Init(), rounds, timeout, cfg);
  }

  predicate SameService(a: Candidate, b: Candidate) {
    a.publisher == b.publisher && a.service == b.service && a.provider == b.provider
  }

  /** With a timeout of T rounds the search times out after exactly T + 1 of them, if
      nothing is found before; a negative one never runs out. */
  lemma {:induction false} RoundsBounded(s: State, rounds: seq<Round>, timeout: int, cfg: Config)
    ensures var r := Search(s, rounds, timeout, cfg);
            && r.used <= |rounds|
            && (timeout >= 0 ==> r.used <= timeout + 1)
            && (r.outcome.TimedOut? ==> r.used == timeout + 1)
            && (r.outcome.Waiting? ==> r.used == |rounds| && (timeout >= 0 ==> r.used <= timeout))
    decreases |rounds|
  {
    if rounds != [] {
      RoundsBounded(FindAll(s, rounds[0], cfg), rounds[1..], timeout - 1, cfg);
    }
  }

  lemma QuotientZeroIff(a: nat, b: nat)
    requires b > 0
    ensures a / b >= 0 && (a / b == 0 <==> a < b)
  {
  }

  /** A timeout that is meant to wait forever does so exactly when it is at least the
      check interval: below that the division yields zero and there is one round. */
  lemma WaitsForeverIff(seconds: int, intervalMS: int)
    requires seconds < 0 && intervalMS >= 10
    ensures Timeout(seconds, intervalMS) < 0 <==> -seconds * 1000 >= intervalMS
    ensures Timeout(seconds, intervalMS) <= 0
  {
    QuotientZeroIff(-(seconds * 1000), intervalMS);
  }

  /** The default timeout with an interval above one second gives up at once. */
  lemma DefaultTimeoutGivesUp(rounds: seq<Round>, cfg: Config, intervalMS: int)
    requires intervalMS > 1000 && rounds != []
    ensures var r := Search(Init(), rounds, Timeout(-1, intervalMS), cfg); r.used == 1 && !r.outcome.Waiting?
  {
    WaitsForeverIff(-1, intervalMS);
  }

  // ----- What is looked at -----

  ghost predicate AllTried(s: State) {
    forall k :: k in s.list <==> exists c :: c in s.tried && Key(c) == k
  }

  /** On the way from s to t the candidates cs have been looked at: the key of each is in
      the table, and nothing else has been tried. */
  ghost predicate Looked(s: State, t: State, cs: seq<Candidate>) {
    && AllTried(t) && s.list <= t.list
    && (forall c :: c in cs ==> Key(c) in t.list)
    && (forall c :: c in t.tried ==> c in s.tried || c in cs)
  }

  lemma LookedChain(s: State, t: State, u: State, a: seq<Candidate>, b: seq<Candidate>)
    requires Looked(s, t, a) && Looked(t, u, b)
    ensures Looked(s, u, a + b)
  {
  }

  lemma {:induction false} TryNewLooks(s: State, cs: seq<Candidate>, wanted: int)
    requires wanted < 0 && AllTried(s)
    ensures Looked(s, TryNew(s, cs, wanted), cs)
    decreases |cs|
  {
    if cs != [] {
      var t := if Key(cs[0]) in s.list then s else Try(s, cs[0]);
      TryAllTried(s, cs[0]);
      TryNewLooks(t, cs[1..], wanted);
    }
  }

  lemma TryAllTried(s: State, c: Candidate)
    requires AllTried(s)
    ensures AllTried(Try(s, c))
  {
    var t := Try(s, c);
    assert c in t.tried;
    forall d | d in s.tried ensures d in t.tried {
    }
  }

  function LabelAll(cs: seq<Candidate>, selfID: string): seq<Candidate> {
    if cs == [] then [] else [Labelled(cs[0], selfID)] + LabelAll(cs[1..], selfID)
  }

  lemma {:induction false} GetAddrsLooks(list: set<string>, cs: seq<Candidate>, selfID: string)
    ensures var (more, addrs) := GetAddrs(list, cs, selfID);
            && list <= more
            && (forall c :: c in LabelAll(cs, selfID) ==> Key(c) in more)
            && (forall c :: c in addrs ==> c in LabelAll(cs, selfID))
    decreases |cs|
  {
    if cs != [] {
      var c := Labelled(cs[0], selfID);
      GetAddrsLooks(if Key(c) in list then list else list + {Key(c)}, cs[1..], selfID);
    }
  }

  lemma {:induction false} ConnectAll(s: State, cs: seq<Candidate>, wanted: int)
    requires wanted < 0
    ensures var t := Connect(s, cs, wanted); t.list == s.list && t.tried == s.tried + cs
    decreases |cs|
  {
    if cs != [] {
      ConnectAll(Dialled(s, cs[0]), cs[1..], wanted);
      assert s.tried + [cs[0]] + cs[1..] == s.tried + cs;
    }
  }

  lemma ShuffledMembers(rank: Ranking, cs: seq<Candidate>)
    requires Shuffles(rank)
    ensures forall c :: c in rank(cs) <==> c in cs
  {
    assert multiset(rank(cs)) == multiset(cs);
    forall c ensures c in rank(cs) <==> c in cs {
      assert c in rank(cs) <==> c in multiset(rank(cs));
      assert c in cs <==> c in multiset(cs);
    }
  }

  lemma SelectLooks(s: State, cs: seq<Candidate>, cfg: Config)
    requires cfg.wanted < 0 && AllTried(s) && Shuffles(cfg.rank)
    ensures Looked(s, SelectAndConnect(s, cs, cfg), LabelAll(cs, cfg.selfID))
  {
    var (list, addrs) := GetAddrs(s.list, cs, cfg.selfID);
    GetAddrsLooks(s.list, cs, cfg.selfID);
    GetAddrsNew(s.list, cs, cfg.selfID);
    ConnectAll(s.(list := list), cfg.rank(addrs), cfg.wanted);
    ShuffledMembers(cfg.rank, addrs);
    var t := SelectAndConnect(s, cs, cfg);
    forall k ensures k in t.list <==> exists c :: c in t.tried && Key(c) == k {
      if k in s.list {
        var c :| c in s.tried && Key(c) == k;
        assert c in t.tried;
      } else if k in list {
        var c :| c in addrs && Key(c) == k;
        assert c in t.tried;
      }
    }
  }

  /** What the lookups of one round offer, in the scopes searched, with the labels the
      table uses. */
  function OfferedOS(r: Round, cfg: Config): seq<Candidate> {
    (if cfg.searchSelf && cfg.process then r.inProcess else [])
    + (if cfg.searchSelf && cfg.os then r.anonymous else [])
    + (if cfg.os then r.directory else [])
  }

  function OfferedNetwork(r: Round, cfg: Config): seq<Candidate> {
    (if cfg.lan then LabelAll(r.lan, cfg.selfID) else [])
    + (if cfg.wan && cfg.hasRegistry then LabelAll(r.wan, cfg.selfID) else [])
  }

  function Offered(r: Round, cfg: Config): seq<Candidate> {
    OfferedOS(r, cfg) + OfferedNetwork(r, cfg)
  }

  lemma LookedNowhere(s: State)
    requires AllTried(s)
    ensures Looked(s, s, [])
  {
  }

  lemma OSLooks(s: State, r: Round, cfg: Config)
    requires cfg.wanted < 0 && AllTried(s)
    ensures Looked(s, FindWithinOS(s, r, cfg), OfferedOS(r, cfg))
  {
    var a := if cfg.searchSelf && cfg.process then TryNew(s, r.inProcess, cfg.wanted) else s;
    var b := if cfg.searchSelf && cfg.os then TryNew(a, r.anonymous, cfg.wanted) else a;
    var c := FindWithinOS(s, r, cfg);
    LookedNowhere(s);
    TryNewLooks(s, r.inProcess, cfg.wanted);
    LookedNowhere(a);
    TryNewLooks(a, r.anonymous, cfg.wanted);
    LookedNowhere(b);
    TryNewLooks(b, r.directory, cfg.wanted);
    var x := if cfg.searchSelf && cfg.process then r.inProcess else [];
    var y := if cfg.searchSelf && cfg.os then r.anonymous else [];
    LookedChain(s, a, b, x, y);
    LookedChain(s, b, c, x + y, if cfg.os then r.directory else []);
  }

  lemma NetworkLooks(s: State, r: Round, cfg: Config)
    requires cfg.wanted < 0 && AllTried(s) && Shuffles(cfg.rank)
    ensures Looked(s, FindNetwork(s, r, cfg), OfferedNetwork(r, cfg))
  {
    var a := if cfg.lan then SelectAndConnect(s, r.lan, cfg) else s;
    LookedNowhere(s);
    SelectLooks(s, r.lan, cfg);
    LookedNowhere(a);
    SelectLooks(a, r.wan, cfg);
    LookedChain(s, a, FindNetwork(s, r, cfg), if cfg.lan then LabelAll(r.lan, cfg.selfID) else [],
                if cfg.wan && cfg.hasRegistry then LabelAll(r.wan, cfg.selfID) else []);
  }

  lemma RoundLooks(s: State, r: Round, cfg: Config)
    requires cfg.wanted < 0 && AllTried(s) && Shuffles(cfg.rank)
    ensures Looked(s, FindAll(s, r, cfg), Offered(r, cfg))
  {
    OSLooks(s, r, cfg);
    NetworkLooks(FindWithinOS(s, r, cfg), r, cfg);
    LookedChain(s, FindWithinOS(s, r, cfg), FindAll(s, r, cfg), OfferedOS(r, cfg), OfferedNetwork(r, cfg));
  }

  /** Everything offered in these rounds. */
  function AllOffered(rounds: seq<Round>, cfg: Config): seq<Candidate> {
    if rounds == [] then [] else Offered(rounds[0], cfg) + AllOffered(rounds[1..], cfg)
  }

  lemma {:induction false} SearchLooks(s: State, rounds: seq<Round>, timeout: int, cfg: Config)
    requires cfg.wanted < 0 && AllTried(s) && Shuffles(cfg.rank)
    ensures var r := Search(s, rounds, timeout, cfg);
            r.used <= |rounds| && Looked(s, r.s, AllOffered(rounds[..r.used], cfg))
    decreases |rounds|
  {
    RoundsBounded(s, rounds, timeout, cfg);
    var r := Search(s, rounds, timeout, cfg);
    if rounds == [] {
      LookedNowhere(s);
    } else {
      var t := FindAll(s, rounds[0], cfg);
      RoundLooks(s, rounds[0], cfg);
      if t.delivered != [] || timeout == 0 {
        LookedNowhere(t);
        assert rounds[..1][1..] == [];
        LookedChain(s, t, t, Offered(rounds[0], cfg), []);
      } else {
        SearchLooks(t, rounds[1..], timeout - 1, cfg);
        assert rounds[..r.used][1..] == rounds[1..][..r.used - 1];
        LookedChain(s, t, r.s, Offered(rounds[0], cfg), AllOffered(rounds[1..][..r.used - 1], cfg));
      }
    }
  }

  /** Each of cs is tried itself, not merely one with the same key. */
  ghost predicate AllServicesTried(tried: seq<Candidate>, cs: seq<Candidate>) {
    forall c :: c in cs ==> exists t :: t in tried && SameService(t, c)
  }

  ghost predicate KeysTellApart(cs: seq<Candidate>) {
    forall a, b :: a in cs && b in cs && Key(a) == Key(b) ==> SameService(a, b)
  }

  /** In a search for everything without probing, through all its rounds and scopes, every
      service that a lookup offered is tried exactly when no two different ones share a
      key. */
  lemma EveryServiceTriedIff(rounds: seq<Round>, timeout: int, cfg: Config)
    requires cfg.wanted < 0 && Shuffles(cfg.rank)
    ensures var r := Search(Init(), rounds, timeout, cfg);
            r.used <= |rounds| &&
            var cs := AllOffered(rounds[..r.used], cfg);
            AllServicesTried(r.s.tried, cs) <==> KeysTellApart(cs)
  {
    var r := Search(Init(), rounds, timeout, cfg);
    SearchLooks(Init(), rounds, timeout, cfg);
    var cs := AllOffered(rounds[..r.used], cfg);
    assert Picks(cfg.rank);
    SearchKeeps(Init(), rounds, timeout, cfg);
    TriedIffApart(r.s, cs, cfg.wanted);
  }

  lemma TriedIffApart(s: State, cs: seq<Candidate>, wanted: int)
    requires Looked(Init(), s, cs) && Ok(s, wanted)
    ensures AllServicesTried(s.tried, cs) <==> KeysTellApart(cs)
  {
    if KeysTellApart(cs) {
      forall c | c in cs ensures exists t :: t in s.tried && SameService(t, c) {
        var t :| t in s.tried && Key(t) == Key(c);
        assert t in cs;
      }
    }
    if AllServicesTried(s.tried, cs) {
      forall a, b | a in cs && b in cs && Key(a) == Key(b) ensures SameService(a, b) {
        var t :| t in s.tried && SameService(t, a);
        var u :| u in s.tried && SameService(u, b);
        assert Key(t) == Key(u);
        OnceUnique(s.tried, t, u);
      }
    }
  }

  lemma OnceUnique(cs: seq<Candidate>, a: Candidate, b: Candidate)
    requires Once(cs) && a in cs && b in cs && Key(a) == Key(b)
    ensures a == b
  {
    var i :| 0 <= i < |cs| && cs[i] == a;
    var j :| 0 <= j < |cs| && cs[j] == b;
  }

  /** Two services that share a key: the key is a concatenation without a separator. */
  lemma KeysCollide(wanted: int, addr: string, up: bool)
    requires wanted < 0
    ensures var a, b := Candidate("ab", "c", "self", addr, up), Candidate("a", "bc", "self", addr, up);
            !SameService(a, b) && TryNew(Init(), [a, b], wanted).tried == [a]
  {
    var a, b := Candidate("ab", "c", "self", addr, up), Candidate("a", "bc", "self", addr, up);
    assert "ab" + "c" == "a" + "bc";
    assert Key(a) == Key(b);
    var s := Try(Init(), a);
    assert [a, b][1..] == [b];
    assert TryNew(s, [b], wanted) == TryNew(s, [b][1..], wanted);
  }

  // ----- When something is found -----

  /** Some key that is not in the table is first offered by a candidate that is up. */
  predicate AnyFreshUp(cs: seq<Candidate>, list: set<string>) {
    cs != [] &&
    if Key(cs[0]) in list then AnyFreshUp(cs[1..], list)
    else cs[0].up || AnyFreshUp(cs[1..], list + {Key(cs[0])})
  }

  /** The table with the keys of cs. */
  function Keyed(cs: seq<Candidate>, list: set<string>): set<string> {
    if cs == [] then list else Keyed(cs[1..], list + {Key(cs[0])})
  }

  lemma {:induction false} FreshConcat(a: seq<Candidate>, b: seq<Candidate>, list: set<string>)
    ensures AnyFreshUp(a + b, list) <==> AnyFreshUp(a, list) || AnyFreshUp(b, Keyed(a, list))
    ensures Keyed(a + b, list) == Keyed(b, Keyed(a, list))
  {
    if a == [] {
      assert a + b == b;
    } else {
      assert (a + b)[1..] == a[1..] + b;
      FreshConcat(a[1..], b, list + {Key(a[0])});
      if Key(a[0]) in list {
        assert list + {Key(a[0])} == list;
      }
    }
  }

  /** Between s, where nothing had been found, and t the candidates cs were looked at. */
  ghost predicate Finds(s: State, t: State, cs: seq<Candidate>) {
    if s.delivered != [] then t.delivered != []
    else (t.delivered != [] <==> AnyFreshUp(cs, s.list)) && (t.delivered == [] ==> t.list == Keyed(cs, s.list))
  }

  lemma FindsChain(s: State, t: State, u: State, a: seq<Candidate>, b: seq<Candidate>)
    requires Finds(s, t, a) && Finds(t, u, b)
    ensures Finds(s, u, a + b)
  {
    FreshConcat(a, b, s.list);
  }

  lemma {:induction false} TryNewFinds(s: State, cs: seq<Candidate>, wanted: int)
    requires wanted != 0
    ensures Finds(s, TryNew(s, cs, wanted), cs)
    decreases |cs|
  {
    if cs != [] && |s.delivered| != wanted {
      var t := if Key(cs[0]) in s.list then s else Try(s, cs[0]);
      TryNewFinds(t, cs[1..], wanted);
      if Key(cs[0]) in s.list {
        assert s.list + {Key(cs[0])} == s.list;
      }
    }
  }

  lemma {:induction false} GetAddrsFinds(list: set<string>, cs: seq<Candidate>, selfID: string)
    ensures var (more, addrs) := GetAddrs(list, cs, selfID);
            && more == Keyed(LabelAll(cs, selfID), list)
            && (AnyFreshUp(LabelAll(cs, selfID), list) <==> exists c :: c in addrs && c.up)
    decreases |cs|
  {
    if cs != [] {
      var c, all := Labelled(cs[0], selfID), LabelAll(cs, selfID);
      assert all[1..] == LabelAll(cs[1..], selfID);
      if Key(c) in list {
        assert list + {Key(c)} == list;
        GetAddrsFinds(list, cs[1..], selfID);
      } else {
        GetAddrsFinds(list + {Key(c)}, cs[1..], selfID);
        var rest := GetAddrs(list + {Key(c)}, cs[1..], selfID).1;
        assert forall d :: d in [c] + rest <==> d == c || d in rest;
      }
    }
  }

  lemma {:induction false} ConnectFinds(s: State, cs: seq<Candidate>, wanted: int)
    requires wanted != 0
    ensures var t := Connect(s, cs, wanted);
            t.list == s.list && (t.delivered != [] <==> s.delivered != [] || exists c :: c in cs && c.up)
    decreases |cs|
  {
    if cs != [] && |s.delivered| != wanted {
      ConnectFinds(Dialled(s, cs[0]), cs[1..], wanted);
      assert forall d :: d in cs <==> d == cs[0] || d in cs[1..];
    }
  }

  lemma SelectFinds(s: State, cs: seq<Candidate>, cfg: Config)
    requires cfg.wanted != 0 && Shuffles(cfg.rank)
    ensures Finds(s, SelectAndConnect(s, cs, cfg), LabelAll(cs, cfg.selfID))
  {
    var (list, addrs) := GetAddrs(s.list, cs, cfg.selfID);
    GetAddrsFinds(s.list, cs, cfg.selfID);
    ConnectFinds(s.(list := list), cfg.rank(addrs), cfg.wanted);
    ShuffledMembers(cfg.rank, addrs);
  }

  lemma OSFinds(s: State, r: Round, cfg: Config)
    requires cfg.wanted != 0
    ensures Finds(s, FindWithinOS(s, r, cfg), OfferedOS(r, cfg))
  {
    var a := if cfg.searchSelf && cfg.process then TryNew(s, r.inProcess, cfg.wanted) else s;
    var b := if cfg.searchSelf && cfg.os then TryNew(a, r.anonymous, cfg.wanted) else a;
    var c := FindWithinOS(s, r, cfg);
    TryNewFinds(s, r.inProcess, cfg.wanted);
    TryNewFinds(a, r.anonymous, cfg.wanted);
    TryNewFinds(b, r.directory, cfg.wanted);
    var x := if cfg.searchSelf && cfg.process then r.inProcess else [];
    var y := if cfg.searchSelf && cfg.os then r.anonymous else [];
    FindsChain(s, a, b, x, y);
    FindsChain(s, b, c, x + y, if cfg.os then r.directory else []);
  }

  lemma NetworkFinds(s: State, r: Round, cfg: Config)
    requires cfg.wanted != 0 && Shuffles(cfg.rank)
    ensures Finds(s, FindNetwork(s, r, cfg), OfferedNetwork(r, cfg))
  {
    var a := if |s.delivered| != cfg.wanted && cfg.lan then SelectAndConnect(s, r.lan, cfg) else s;
    SelectFinds(s, r.lan, cfg);
    SelectFinds(a, r.wan, cfg);
    FindsChain(s, a, FindNetwork(s, r, cfg), if cfg.lan then LabelAll(r.lan, cfg.selfID) else [],
               if cfg.wan && cfg.hasRegistry then LabelAll(r.wan, cfg.selfID) else []);
  }

  lemma RoundFinds(s: State, r: Round, cfg: Config)
    requires cfg.wanted != 0 && Shuffles(cfg.rank)
    ensures Finds(s, FindAll(s, r, cfg), Offered(r, cfg))
  {
    OSFinds(s, r, cfg);
    NetworkFinds(FindWithinOS(s, r, cfg), r, cfg);
    FindsChain(s, FindWithinOS(s, r, cfg), FindAll(s, r, cfg), OfferedOS(r, cfg), OfferedNetwork(r, cfg));
  }

  /** Round i comes before the timeout and offers something new that is up. */
  predicate FindsInRound(rounds: seq<Round>, i: nat, list: set<string>, timeout: int, cfg: Config) {
    i < |rounds| && (timeout < 0 || i <= timeout)
    && AnyFreshUp(Offered(rounds[i], cfg), Keyed(AllOffered(rounds[..i], cfg), list))
  }

  /** Without probing, a search finds something exactly when, in some round before the
      timeout, a key that no earlier lookup offered is first offered by a candidate that
      is up.  A candidate that was down when first offered does not count again. */
  lemma {:induction false} FoundIff(s: State, rounds: seq<Round>, timeout: int, cfg: Config)
    requires cfg.wanted != 0 && Shuffles(cfg.rank) && s.delivered == []
    ensures Search(s, rounds, timeout, cfg).outcome.Found?
            <==> exists i: nat :: FindsInRound(rounds, i, s.list, timeout, cfg)
    decreases |rounds|
  {
    if rounds != [] {
      var t := FindAll(s, rounds[0], cfg);
      RoundFinds(s, rounds[0], cfg);
      assert rounds[..0] == [];
      assert t.delivered != [] <==> FindsInRound(rounds, 0, s.list, timeout, cfg);
      if t.delivered == [] && timeout != 0 {
        FoundIff(t, rounds[1..], timeout - 1, cfg);
        forall j: nat | j > 0
          ensures FindsInRound(rounds, j, s.list, timeout, cfg)
                  <==> FindsInRound(rounds[1..], j - 1, t.list, timeout - 1, cfg)
        {
          if j < |rounds| {
            LaterRound(rounds, j - 1, s.list, t.list, cfg);
          }
        }
        var rest, left := rounds[1..], timeout - 1;
        if i: nat :| FindsInRound(rest, i, t.list, left, cfg) {
          assert FindsInRound(rounds, i + 1, s.list, timeout, cfg);
        }
      }
    }
  }

  lemma LaterRound(rounds: seq<Round>, i: nat, list: set<string>, later: set<string>, cfg: Config)
    requires i + 1 < |rounds| && later == Keyed(Offered(rounds[0], cfg), list)
    ensures Keyed(AllOffered(rounds[..i + 1], cfg), list) == Keyed(AllOffered(rounds[1..][..i], cfg), later)
  {
    assert rounds[..i + 1][1..] == rounds[1..][..i];
    FreshConcat(Offered(rounds[0], cfg), AllOffered(rounds[1..][..i], cfg), list);
  }

  // ----- What is not looked at again -----

  ghost predicate Known(cs: seq<Candidate>, list: set<string>, selfID: string) {
    forall c :: c in cs ==> Key(c) in list && Key(Labelled(c, selfID)) in list
  }

  ghost predicate NothingNew(r: Round, list: set<string>, selfID: string) {
    && Known(r.inProcess, list, selfID) && Known(r.anonymous, list, selfID) && Known(r.directory, list, selfID)
    && Known(r.lan, list, selfID) && Known(r.wan, list, selfID)
  }

  lemma {:induction false} TryNewIdle(s: State, cs: seq<Candidate>, cfg: Config)
    requires Known(cs, s.list, cfg.selfID)
    ensures TryNew(s, cs, cfg.wanted) == s
    decreases |cs|
  {
    if cs != [] {
      TryNewIdle(s, cs[1..], cfg);
    }
  }

  lemma {:induction false} GetAddrsIdle(list: set<string>, cs: seq<Candidate>, selfID: string)
    requires Known(cs, list, selfID)
    ensures GetAddrs(list, cs, selfID) == (list, [])
    decreases |cs|
  {
    if cs != [] {
      GetAddrsIdle(list, cs[1..], selfID);
    }
  }

  lemma SomethingIn<T>(s: seq<T>)
    requires s != []
    ensures exists x :: multiset(s)[x] > 0
  {
    assert s[0] in multiset(s);
  }

  lemma SelectIdle(s: State, cs: seq<Candidate>, cfg: Config)
    requires Known(cs, s.list, cfg.selfID) && Picks(cfg.rank)
    ensures SelectAndConnect(s, cs, cfg) == s
  {
    GetAddrsIdle(s.list, cs, cfg.selfID);
    var none: seq<Candidate> := [];
    assert multiset(cfg.rank(none)) <= multiset(none);
    if cfg.rank(none) != [] {
      SomethingIn(cfg.rank(none));
    }
  }

  /** A failed dial uses up its key: if later rounds offer only what has been tried, they
      find nothing, though it may be up by then. */
  lemma {:induction false} FailedIsFinal(s: State, rounds: seq<Round>, timeout: int, cfg: Config)
    requires Picks(cfg.rank) && s.delivered == []
    requires forall i :: 0 <= i < |rounds| ==> NothingNew(rounds[i], s.list, cfg.selfID)
    ensures var r := Search(s, rounds, timeout, cfg); r.s == s && !r.outcome.Found?
    decreases |rounds|
  {
    if rounds != [] {
      var r := rounds[0];
      TryNewIdle(s, r.inProcess, cfg);
      TryNewIdle(s, r.anonymous, cfg);
      TryNewIdle(s, r.directory, cfg);
      SelectIdle(s, r.lan, cfg);
      SelectIdle(s, r.wan, cfg);
      FailedIsFinal(s, rounds[1..], timeout - 1, cfg);
    }
  }

  // ----- The code -----

  class Discoverer {
    const cfg: Config
    var serviceList: set<string>
    var tried: seq<Candidate>
    var delivered: seq<Candidate>

    ghost function Value(): State
      reads this
    {
      State(serviceList, tried, delivered)
    }

    constructor (cfg: Config)
      ensures this.cfg == cfg && Value() == Init()
    {
      this.cfg := cfg;
      serviceList, tried, delivered := {}, [], [];
    }

    method AddToServiceList(c: Candidate) returns (added: bool)
      modifies `serviceList
      ensures added <==> Key(c) !in old(serviceList)
      ensures serviceList == old(serviceList) + {Key(c)}
    {
      added := Key(c) !in serviceList;
      serviceList := serviceList + {Key(c)};
    }

    method Dial(c: Candidate)
      modifies `tried, `delivered
      ensures tried == old(tried) + [c]
      ensures delivered == if c.up then old(delivered) + [c] else old(delivered)
    {
      tried := tried + [c];
      if c.up {
        delivered := delivered + [c];
      }
    }

    /** Each of the three loops of findWithinOS. */
    method TryEach(cs: seq<Candidate>)
      modifies this
      ensures Value() == TryNew(old(Value()), cs, cfg.wanted)
    {
      var i := 0;
      while i < |cs| && |delivered| != cfg.wanted
        invariant i <= |cs|
        invariant TryNew(Value(), cs[i..], cfg.wanted) == TryNew(old(Value()), cs, cfg.wanted)
      {
        ghost var list := serviceList;
        assert cs[i..][0] == cs[i] && cs[i..][1..] == cs[i + 1..];
        var added := AddToServiceList(cs[i]);
        if added {
          Dial(cs[i]);
        } else {
          assert serviceList == list;
        }
        i := i + 1;
      }
    }

    method SearchOS(r: Round)
      modifies this
      ensures Value() == FindWithinOS(old(Value()), r, cfg)
    {
      if cfg.searchSelf && cfg.process {
        TryEach(r.inProcess);
      }
      if cfg.os {
        if cfg.searchSelf {
          TryEach(r.anonymous);
        }
        TryEach(r.directory);
      }
    }

    method Addresses(cs: seq<Candidate>) returns (addrs: seq<Candidate>)
      modifies `serviceList
      ensures serviceList == GetAddrs(old(serviceList), cs, cfg.selfID).0
      ensures addrs == GetAddrs(old(serviceList), cs, cfg.selfID).1
    {
      addrs := [];
      ghost var all := GetAddrs(serviceList, cs, cfg.selfID);
      for i := 0 to |cs|
        invariant all.0 == GetAddrs(serviceList, cs[i..], cfg.selfID).0
        invariant all.1 == addrs + GetAddrs(serviceList, cs[i..], cfg.selfID).1
      {
        ghost var list := serviceList;
        assert cs[i..][0] == cs[i] && cs[i..][1..] == cs[i + 1..];
        var c := Labelled(cs[i], cfg.selfID);
        var added := AddToServiceList(c);
        if added {
          addrs := addrs + [c];
        } else {
          assert serviceList == list;
        }
      }
    }

    method TryNetwork(cs: seq<Candidate>)
      modifies this
      ensures Value() == SelectAndConnect(old(Value()), cs, cfg)
    {
      var unseen := Addresses(cs);
      var addrs := cfg.rank(unseen);
      ghost var s := Value();
      var i := 0;
      while i < |addrs| && |delivered| != cfg.wanted
        invariant i <= |addrs| && serviceList == s.list
        invariant Connect(Value(), addrs[i..], cfg.wanted) == Connect(s, addrs, cfg.wanted)
      {
        assert addrs[i..][0] == addrs[i] && addrs[i..][1..] == addrs[i + 1..];
        Dial(addrs[i]);
        i := i + 1;
      }
    }

    method SearchNetwork(r: Round)
      modifies this
      ensures Value() == FindNetwork(old(Value()), r, cfg)
    {
      if |delivered| != cfg.wanted && cfg.lan {
        TryNetwork(r.lan);
      }
      if |delivered| != cfg.wanted && cfg.wan && cfg.hasRegistry {
        TryNetwork(r.wan);
      }
    }

    /** The goroutine of Discover; `rounds` is what each round's lookups would return. */
    method Run(rounds: seq<Round>, discoverTimeout: int, checkIntervalMS: int) returns (used: nat, outcome: Outcome)
      requires checkIntervalMS >= 10 && delivered == [] && cfg.wanted != 0
      modifies this
      ensures Searched(Value(), used, outcome)
              == Search(old(Value()), rounds, Timeout(discoverTimeout, checkIntervalMS), cfg)
    {
      var timeout := Timeout(discoverTimeout, checkIntervalMS);
      used, outcome := 0, Waiting;
      while used < |rounds|
        invariant used <= |rounds| && delivered == []
        invariant var r := Search(Value(), rounds[used..], timeout, cfg);
                  Search(old(Value()), rounds, Timeout(discoverTimeout, checkIntervalMS), cfg)
                      == r.(used := used + r.used)
      {
        var round := rounds[used];
        SearchOS(round);
        if |delivered| == cfg.wanted {
          return used + 1, Found;
        }
        SearchNetwork(round);
        used := used + 1;
        if delivered != [] {
          return used, Found;
        }
        if timeout == 0 {
          return used, TimedOut;
        }
        timeout := timeout - 1;
      }
    }
  }

  // ----- The ranking is module Ranking's -----

  /** What probing a provider measures: its score and its latency; nothing if it fails. */
  type Probing = Candidate -> Option<(int, int)>

  function Answering(cs: seq<Candidate>, probe: Probing): (r: seq<Candidate>)
    ensures multiset(r) <= multiset(cs) && forall c :: c in r ==> probe(c).Some?
    ensures (forall c :: c in cs ==> probe(c).Some?) ==> r == cs
  {
    if cs == [] then []
    else
      var n := |cs| - 1;
      assert cs == cs[..n] + [cs[n]];
      if probe(cs[n]).Some? then Answering(cs[..n], probe) + [cs[n]] else Answering(cs[..n], probe)
  }

  function Measured(cs: seq<Candidate>, probe: Probing): (ps: seq<R.Provider>)
    requires forall c :: c in cs ==> probe(c).Some?
    ensures |ps| == |cs| && R.Arrivals(ps)
  {
    seq(|cs|, i requires 0 <= i < |cs| => R.Provider(cs[i].addr, probe(cs[i]).value.0, probe(cs[i]).value.1, i))
  }

  ghost predicate From(ps: seq<R.Provider>, n: nat) {
    forall p :: p in ps ==> p.arrival < n
  }

  function InOrder(cs: seq<Candidate>, ps: seq<R.Provider>): (r: seq<Candidate>)
    requires From(ps, |cs|)
    ensures |r| == |ps| && forall i :: 0 <= i < |r| ==> r[i] == cs[ps[i].arrival]
  {
    seq(|ps|, i requires 0 <= i < |ps| => assert ps[i] in ps; cs[ps[i].arrival])
  }

  function Except<T>(s: seq<T>, i: nat): seq<T>
    requires i < |s|
  {
    s[..i] + s[i + 1..]
  }

  lemma ExceptMultiset<T>(s: seq<T>, i: nat)
    requires i < |s|
    ensures multiset(Except(s, i)) == multiset(s) - multiset{s[i]} && s[i] in multiset(s)
    ensures |Except(s, i)| == |s| - 1 && forall x :: x in Except(s, i) ==> x in s
  {
    assert s == s[..i] + [s[i]] + s[i + 1..];
  }

  lemma InOrderWithout(cs: seq<Candidate>, ps: seq<R.Provider>, i: nat)
    requires From(ps, |cs|) && i < |ps|
    ensures From(Except(ps, i), |cs|)
    ensures multiset(InOrder(cs, ps)) == multiset(InOrder(cs, Except(ps, i))) + multiset{cs[ps[i].arrival]}
  {
    ExceptMultiset(ps, i);
    ExceptMultiset(InOrder(cs, ps), i);
    assert InOrder(cs, Except(ps, i)) == Except(InOrder(cs, ps), i);
  }

  lemma {:induction false} InOrderPermutes(cs: seq<Candidate>, ps: seq<R.Provider>, qs: seq<R.Provider>)
    requires From(ps, |cs|) && From(qs, |cs|) && multiset(ps) == multiset(qs)
    ensures multiset(InOrder(cs, ps)) == multiset(InOrder(cs, qs))
    decreases |ps|
  {
    if ps == [] {
      assert |multiset(qs)| == 0;
    } else {
      ExceptMultiset(ps, 0);
      var j := R.PositionOf(qs, ps[0]);
      ExceptMultiset(qs, j);
      InOrderWithout(cs, ps, 0);
      InOrderWithout(cs, qs, j);
      InOrderPermutes(cs, Except(ps, 0), Except(qs, j));
    }
  }

  lemma StagedKeeps(s: seq<R.Provider>, methods: seq<R.Method>)
    requires R.Arrivals(s)
    ensures multiset(R.Staged(s, methods, |methods|, false)) == multiset(s)
  {
    R.StagedIsRanked(s, methods, |methods|);
    assert methods[..|methods|] == methods;
    if methods != [] {
      R.BestHalfFirst(s, R.Staged(s, methods, |methods|, false), methods);
    }
  }

  lemma MeasuredFrom(cs: seq<Candidate>, probe: Probing, ps: seq<R.Provider>)
    requires (forall c :: c in cs ==> probe(c).Some?) && multiset(ps) == multiset(Measured(cs, probe))
    ensures From(ps, |cs|) && multiset(InOrder(cs, ps)) == multiset(cs)
  {
    var ms := Measured(cs, probe);
    R.Members(ps, ms);
    InOrderPermutes(cs, ps, ms);
    assert InOrder(cs, ms) == cs;
  }

  /** The order in which selectAndConnect dials: those that answered the probes, ranked. */
  function RankedOrder(cs: seq<Candidate>, methods: seq<R.Method>, probe: Probing): (r: seq<Candidate>)
    ensures multiset(r) <= multiset(cs)
    ensures (forall c :: c in cs ==> probe(c).Some?) ==> multiset(r) == multiset(cs)
  {
    var up := Answering(cs, probe);
    var ps := R.Staged(Measured(up, probe), methods, |methods|, false);
    StagedKeeps(Measured(up, probe), methods);
    MeasuredFrom(up, probe, ps);
    InOrder(up, ps)
  }

  function RankBy(methods: seq<R.Method>, probe: Probing): Ranking {
    cs => RankedOrder(cs, methods, probe)
  }

  /** So what the search assumes of a ranking holds of the one that the code uses, whatever
      the methods and whatever the probes measure; and when every probe is answered nothing
      is dropped. */
  lemma RankByPicks(methods: seq<R.Method>, probe: Probing)
    ensures Picks(RankBy(methods, probe))
    ensures (forall c :: probe(c).Some?) ==> Shuffles(RankBy(methods, probe))
  {
    var rank := RankBy(methods, probe);
    forall cs ensures multiset(rank(cs)) <= multiset(cs) {
      assert rank(cs) == RankedOrder(cs, methods, probe);
    }
    if forall c :: probe(c).Some? {
      forall cs ensures multiset(rank(cs)) == multiset(cs) {
        assert rank(cs) == RankedOrder(cs, methods, probe);
      }
    }
  }
}
