/** The record file of the root registry: one line per provider, written after every
  check and read back at the next start (registry.go).

  The file is a string of characters.  Reading it is `fmt.Fscanln` with four strings:
  skip blanks, take a word, four times, and then expect the end of the line. */
module Record {
  import opened Collections
  import opened Wildcard
  import opened Registry

  // ----- What Fscanln sees -----

  /** The white space of the fmt package's scanner. */
  predicate IsSpace(c: char) {
    var i := c as int;
    || 0x9 <= i <= 0xd || i == 0x20 || i == 0x85 || i == 0xa0 || i == 0x1680
    || 0x2000 <= i <= 0x200a || i == 0x2028 || i == 0x2029 || i == 0x202f || i == 0x205f || i == 0x3000
  }

  predicate Spaceless(s: string) {
    forall c :: c in s ==> !IsSpace(c)
  }

  predicate IsWord(s: string) {
    s != "" && Spaceless(s)
  }

  /** Blanks other than the newline. */
  function SkipBlanks(s: string): (r: string)
    ensures |r| <= |s|
    ensures r != "" && r[0] != '\n' ==> !IsSpace(r[0])
  {
    if s != "" && s[0] != '\n' && IsSpace(s[0]) then SkipBlanks(s[1..]) else s
  }

  function Token(s: string): (t: string)
    ensures Spaceless(t) && |t| <= |s|
  {
    if s == "" || IsSpace(s[0]) then "" else [s[0]] + Token(s[1..])
  }

  /** A word and what follows it; None at a newline or at the end of the file. */
  function ScanWord(s: string): (r: Option<(string, string)>)
    ensures r.Some? ==> IsWord(r.value.0) && |r.value.1| < |s|
  {
    var t := SkipBlanks(s);
    if t == "" || t[0] == '\n' then None else Some((Token(t), t[|Token(t)|..]))
  }

  /** Past the newline; None when anything but blanks comes before it. */
  function ScanEnd(s: string): (r: Option<string>)
    ensures r.Some? ==> |r.value| <= |s|
  {
    var t := SkipBlanks(s);
    if t == "" then Some("") else if t[0] == '\n' then Some(t[1..]) else None
  }

  function ScanWords(s: string, n: nat): (r: Option<(seq<string>, string)>)
    ensures r.Some? ==> |r.value.0| == n && |r.value.1| <= |s| - n
    ensures r.Some? ==> forall w :: w in r.value.0 ==> IsWord(w)
    decreases n
  {
    if n == 0 then Some(([], s))
    else match ScanWord(s)
      case None => None
      case Some(word) =>
        match ScanWords(word.1, n - 1)
        case None => None
        case Some(more) => Some(([word.0] + more.0, more.1))
  }

  /** fmt.Fscanln(f, &publisher, &service, &providerID, &addr). */
  function ScanLine(s: string): (r: Option<(ServiceInfo, string)>)
    ensures r.Some? ==> |r.value.1| < |s| && IsLine(r.value.0)
  {
    match ScanWords(s, 4)
    case None => None
    case Some(ws) =>
      match ScanEnd(ws.1)
      case None => None
      case Some(rest) => Some((ServiceInfo(ws.0[0], ws.0[1], ws.0[2], ws.0[3]), rest))
  }

  predicate IsLine(info: ServiceInfo) {
    IsWord(info.publisher) && IsWord(info.service) && IsWord(info.id) && IsWord(info.addr)
  }

  // ----- Writing and reading -----

  function Line(info: ServiceInfo): string {
    info.publisher + " " + info.service + " " + info.id + " " + info.addr + "\n"
  }

  function Lines(infos: seq<ServiceInfo>): string {
    if infos == [] then "" else Line(infos[0]) + Lines(infos[1..])
  }

  /** A trailing P in the file says that the provider is proxied. */
  function Parsed(addr: string, now: int): Provider
    requires addr != ""
  {
    if addr[|addr| - 1] == 'P' then Provider(now, addr[..|addr| - 1], true) else Provider(now, addr, false)
  }

  function Loaded(file: string, m: Table, now: int): Table
    decreases |file|
  {
    match ScanLine(file)
    case None => m
    case Some(line) =>
      var info := line.0;
      Loaded(line.1, Put(m, ServiceName(info.publisher, info.service), info.id, Parsed(info.addr, now)), now)
  }

  /** The writing loop of registryCheckSaver. */
  method WriteRecord(infos: seq<ServiceInfo>) returns (file: string)
    ensures file == Lines(infos)
  {
    file := "";
    for k := 0 to |infos|
      invariant Lines(infos) == file + Lines(infos[k..])
    {
      file := file + Line(infos[k]);
      assert infos[k..][1..] == infos[k + 1..];
    }
  }

  /** The reading loop of startRootRegistry. */
  method ReadRecord(file: string, now: int) returns (m: Table)
    ensures m == Loaded(file, map[], now)
  {
    m := map[];
    var f := file;
    while true
      invariant Loaded(f, m, now) == Loaded(file, map[], now)
      decreases |f|
    {
      var line := ScanLine(f);
      if line.None? {
        break;
      }
      var info := line.value.0;
      f := line.value.1;
      var name := ServiceName(info.publisher, info.service);
      var pmap := if name in m then m[name] else map[];
      var pinfo := Provider(now, info.addr, false);
      if info.addr[|info.addr| - 1] == 'P' {
        pinfo := Provider(now, info.addr[..|info.addr| - 1], true);
      }
      m := m[name := pmap[info.id := pinfo]];
    }
  }

  // ----- Reading what was written -----

  lemma {:induction false} TokenStops(w: string, rest: string)
    requires Spaceless(w) && rest != "" && IsSpace(rest[0])
    ensures Token(w + rest) == w
  {
    if w == "" {
      assert w + rest == rest;
    } else {
      TokenStops(w[1..], rest);
      assert (w + rest)[1..] == w[1..] + rest;
    }
  }

  lemma WordBack(w: string, rest: string)
    requires IsWord(w) && rest != "" && IsSpace(rest[0])
    ensures ScanWord(w + rest) == Some((w, rest))
    ensures ScanWord(" " + w + rest) == Some((w, rest))
  {
    var s := w + rest;
    assert !IsSpace(s[0]) by { assert s[0] == w[0]; }
    TokenStops(w, rest);
    assert s[|w|..] == rest;
    assert " " + w + rest == " " + s;
    assert (" " + s)[1..] == s;
  }

  /** Each word after a blank. */
  function Spaced(ws: seq<string>, rest: string): string {
    if ws == [] then rest else " " + ws[0] + Spaced(ws[1..], rest)
  }

  lemma {:induction false} WordsBack(ws: seq<string>, rest: string)
    requires forall w :: w in ws ==> IsWord(w)
    requires rest != "" && IsSpace(rest[0])
    ensures ScanWords(Spaced(ws, rest), |ws|) == Some((ws, rest))
    ensures ws != [] ==> ScanWords(ws[0] + Spaced(ws[1..], rest), |ws|) == Some((ws, rest))
  {
    if ws != [] {
      var more := Spaced(ws[1..], rest);
      assert more != "" && IsSpace(more[0]);
      WordsBack(ws[1..], rest);
      WordBack(ws[0], more);
      assert [ws[0]] + ws[1..] == ws;
    }
  }

  /** Four words in a row, with the blanks moved in front of the words. */
  lemma LineIsSpaced(info: ServiceInfo, rest: string)
    ensures Line(info) + rest == info.publisher + Spaced([info.service, info.id, info.addr], "\n" + rest)
  {
    var end := "\n" + rest;
    assert Spaced([info.addr], end) == " " + info.addr + end;
    assert [info.id, info.addr][1..] == [info.addr];
    assert Spaced([info.id, info.addr], end) == " " + info.id + Spaced([info.addr], end);
    assert [info.service, info.id, info.addr][1..] == [info.id, info.addr];
    assert Spaced([info.service, info.id, info.addr], end) == " " + info.service + Spaced([info.id, info.addr], end);
  }

  lemma LineBack(info: ServiceInfo, rest: string)
    requires IsLine(info)
    ensures ScanLine(Line(info) + rest) == Some((info, rest))
  {
    var end := "\n" + rest;
    var ws := [info.publisher, info.service, info.id, info.addr];
    LineIsSpaced(info, rest);
    assert ws[1..] == [info.service, info.id, info.addr];
    WordsBack(ws, end);
    assert end[1..] == rest;
  }

  predicate AreLines(infos: seq<ServiceInfo>) {
    forall k :: 0 <= k < |infos| ==> IsLine(infos[k])
  }

  function PutAll(infos: seq<ServiceInfo>, m: Table, now: int): Table
    requires AreLines(infos)
  {
    if infos == [] then m
    else
      var i := infos[0];
      PutAll(infos[1..], Put(m, ServiceName(i.publisher, i.service), i.id, Parsed(i.addr, now)), now)
  }

  lemma {:induction false} LinesBack(infos: seq<ServiceInfo>, m: Table, now: int)
    requires AreLines(infos)
    ensures Loaded(Lines(infos), m, now) == PutAll(infos, m, now)
  {
    if infos != [] {
      var i := infos[0];
      LineBack(i, Lines(infos[1..]));
      LinesBack(infos[1..], Put(m, ServiceName(i.publisher, i.service), i.id, Parsed(i.addr, now)), now);
    }
  }

  // ----- The round trip -----

  /** The record can carry this provider: its fields are words, and an address that is
      not proxied does not end in P. */
  predicate Savable(v: Visit) {
    && SplitName(v.service).Some?
    && IsWord(SplitName(v.service).value.0) && IsWord(SplitName(v.service).value.1) && IsWord(v.id)
    && IsWord(ShownAddr(v.info))
    && (!v.info.proxied ==> v.info.addr[|v.info.addr| - 1] != 'P')
  }

  ghost predicate AllSavable(m: Table) {
    forall v :: Due(v, m, "*") ==> Savable(v)
  }

  // What can be loaded.

  /** What a line of a record can say. */
  ghost predicate Clean(v: Visit) {
    && (exists a, b :: IsWord(a) && IsWord(b) && v.service == ServiceName(a, b))
    && IsWord(v.id)
    && Spaceless(v.info.addr)
    && (!v.info.proxied ==> v.info.addr != "" && v.info.addr[|v.info.addr| - 1] != 'P')
  }

  ghost predicate AllClean(m: Table) {
    forall n, p :: n in m && p in m[n] ==> Clean(Visit(n, p, m[n][p]))
  }

  lemma {:induction false} LoadedIsClean(file: string, m: Table, now: int)
    requires AllClean(m)
    ensures AllClean(Loaded(file, m, now))
    decreases |file|
  {
    if ScanLine(file).Some? {
      var i := ScanLine(file).value.0;
      assert Clean(Visit(ServiceName(i.publisher, i.service), i.id, Parsed(i.addr, now)));
      LoadedIsClean(ScanLine(file).value.1, Put(m, ServiceName(i.publisher, i.service), i.id, Parsed(i.addr, now)),
          now);
    }
  }

  lemma {:induction false} SplitLengths(a: string, b: string)
    ensures |Split(a + "_" + b, '_')| == |Split(a, '_')| + |Split(b, '_')|
  {
    var s := a + "_" + b;
    if a == "" {
      assert s[1..] == b;
    } else {
      SplitLengths(a[1..], b);
      assert s[1..] == a[1..] + "_" + b;
    }
  }

  /** A joined name comes apart into two, if not into the two it was made of, exactly
      when neither has an underscore. */
  lemma ComesApartIff(a: string, b: string)
    ensures SplitName(ServiceName(a, b)).Some? <==> '_' !in a && '_' !in b
  {
    SplitLengths(a, b);
    SplitJoins(a);
    SplitJoins(b);
    if '_' !in a && '_' !in b {
      NameRoundTrip(a, b);
    }
  }

  lemma CleanIsSavable(v: Visit)
    requires Clean(v) && SplitName(v.service).Some?
    ensures Savable(v)
  {
    var a, b :| IsWord(a) && IsWord(b) && v.service == ServiceName(a, b);
    ComesApartIff(a, b);
    NameRoundTrip(a, b);
  }

  /** No line of the record has an underscore in its publisher or service. */
  predicate NoUnderscores(file: string)
    decreases |file|
  {
    match ScanLine(file)
    case None => true
    case Some(line) => '_' !in line.0.publisher && '_' !in line.0.service && NoUnderscores(line.1)
  }

  ghost predicate NamesComeApart(m: Table) {
    forall n :: n in m ==> SplitName(n).Some?
  }

  lemma {:induction false} GoodNamesOnly(file: string, m: Table, now: int)
    requires NoUnderscores(file) && NamesComeApart(m)
    ensures NamesComeApart(Loaded(file, m, now))
    decreases |file|
  {
    if ScanLine(file).Some? {
      var i := ScanLine(file).value.0;
      ComesApartIff(i.publisher, i.service);
      GoodNamesOnly(ScanLine(file).value.1, Put(m, ServiceName(i.publisher, i.service), i.id, Parsed(i.addr, now)),
          now);
    }
  }

  /** What has been loaded is not unloaded by later lines, only replaced. */
  lemma {:induction false} StaysLoaded(file: string, m: Table, now: int, n: string, p: string)
    requires n in m && p in m[n]
    ensures n in Loaded(file, m, now) && p in Loaded(file, m, now)[n]
    decreases |file|
  {
    if ScanLine(file).Some? {
      var i := ScanLine(file).value.0;
      StaysLoaded(ScanLine(file).value.1, Put(m, ServiceName(i.publisher, i.service), i.id, Parsed(i.addr, now)), now,
          n, p);
    }
  }

  lemma {:induction false} BadNameLoaded(file: string, m: Table, now: int) returns (n: string, p: string)
    requires !NoUnderscores(file)
    ensures n in Loaded(file, m, now) && p in Loaded(file, m, now)[n] && n != "" && SplitName(n).None?
    decreases |file|
  {
    var i, rest := ScanLine(file).value.0, ScanLine(file).value.1;
    n, p := ServiceName(i.publisher, i.service), i.id;
    var t := Put(m, n, p, Parsed(i.addr, now));
    if '_' in i.publisher || '_' in i.service {
      ComesApartIff(i.publisher, i.service);
      StaysLoaded(rest, t, now, n, p);
    } else {
      n, p := BadNameLoaded(rest, t, now);
    }
  }

  /** Whatever the file holds, what is loaded from it can be shown and saved again if and
      only if no line has an underscore in its publisher or service.  The loader does
      not look, so a record with one makes the next check panic. */
  lemma LoadedIsSavableIff(file: string, now: int)
    ensures AllSavable(Loaded(file, map[], now)) <==> NoUnderscores(file)
    ensures Unshowable(Loaded(file, map[], now), "*") <==> !NoUnderscores(file)
  {
    var t := Loaded(file, map[], now);
    LoadedIsClean(file, map[], now);
    if NoUnderscores(file) {
      GoodNamesOnly(file, map[], now);
      forall v | Due(v, t, "*") ensures Savable(v) && MakeServiceInfo(v).Some? {
        CleanIsSavable(v);
      }
    } else {
      var n, p := BadNameLoaded(file, map[], now);
      var v := Visit(n, p, t[n][p]);
      StarMatchesAll(n);
      assert Due(v, t, "*") && !Savable(v) && MakeServiceInfo(v).None?;
    }
  }

  // What was saved is loaded.

  function Key(v: Visit): (string, string) { (v.service, v.id) }

  lemma SavedLine(v: Visit, now: int)
    requires Savable(v)
    ensures MakeServiceInfo(v).Some?
    ensures var i := MakeServiceInfo(v).value;
            && IsLine(i)
            && ServiceName(i.publisher, i.service) == v.service && i.id == v.id
            && Endpoint(Parsed(i.addr, now)) == Endpoint(v.info)
  {
    SplitNameJoins(v.service);
    if v.info.proxied {
      assert ShownAddr(v.info)[..|v.info.addr|] == v.info.addr;
    }
  }

  ghost predicate Adds(e: map<(string, string), (string, bool)>, t: map<(string, string), (string, bool)>,
                       visits: seq<Visit>) {
    && (forall k :: k in e ==> k in t || exists v :: v in visits && Key(v) == k)
    && (forall v :: v in visits ==> Key(v) in e && e[Key(v)] == Endpoint(v.info))
    && (forall k :: k in t && (forall v :: v in visits ==> Key(v) != k) ==> k in e && e[k] == t[k])
  }

  lemma AddsOne(e: map<(string, string), (string, bool)>, t: map<(string, string), (string, bool)>,
                t': map<(string, string), (string, bool)>, visits: seq<Visit>)
    requires visits != [] && VisitedOnce(visits)
    requires Key(visits[0]) in t' && IsExtended(t, t', Key(visits[0]), Endpoint(visits[0].info))
    requires Adds(e, t', visits[1..])
    ensures Adds(e, t, visits)
  {
    var v0, rest := visits[0], visits[1..];
    forall v | v in rest ensures Key(v) != Key(v0) {
      var i :| 0 <= i < |rest| && rest[i] == v;
      assert visits[i + 1] == v;
    }
    assert visits == [v0] + rest;
    assert v0 in visits;
    forall v | v in visits ensures v == v0 || v in rest {
    }
    forall v | v in rest ensures v in visits {
    }
  }

  lemma PutAllNext(infos: seq<ServiceInfo>, t: Table, now: int) returns (u: Table)
    requires infos != [] && IsLine(infos[0]) && AreLines(infos[1..])
    ensures u == Put(t, ServiceName(infos[0].publisher, infos[0].service), infos[0].id, Parsed(infos[0].addr, now))
    ensures AreLines(infos) && PutAll(infos, t, now) == PutAll(infos[1..], u, now)
  {
    assert forall k :: 0 < k < |infos| ==> infos[k] == infos[1..][k - 1];
    u := Put(t, ServiceName(infos[0].publisher, infos[0].service), infos[0].id, Parsed(infos[0].addr, now));
  }

  /** What the first line of a saved table puts into a loaded one. */
  lemma FirstPut(v: Visit, i: ServiceInfo, t: Table, now: int, u: Table)
    requires Savable(v) && MakeServiceInfo(v) == Some(i)
    requires u == Put(t, ServiceName(i.publisher, i.service), i.id, Parsed(i.addr, now))
    ensures Key(v) in Entries(u) && IsExtended(Entries(t), Entries(u), Key(v), Endpoint(v.info))
  {
    SavedLine(v, now);
    EntriesPut(t, v.service, v.id, Parsed(i.addr, now));
    EntriesAt(u, Key(v));
  }

  lemma {:induction false} SavedAreLines(visits: seq<Visit>, infos: seq<ServiceInfo>)
    requires Saves(visits, infos)
    ensures AreLines(infos)
  {
    forall k | 0 <= k < |infos| ensures IsLine(infos[k]) {
      assert visits[k] in visits;
      SavedLine(visits[k], 0);
    }
  }

  ghost predicate Saves(visits: seq<Visit>, infos: seq<ServiceInfo>) {
    VisitedOnce(visits) && Shows(visits, infos) && forall v :: v in visits ==> Savable(v)
  }

  lemma RestSaves(visits: seq<Visit>, infos: seq<ServiceInfo>)
    requires visits != [] && Saves(visits, infos)
    ensures Saves(visits[1..], infos[1..])
  {
    assert forall k :: 0 <= k < |visits| - 1 ==> visits[1..][k] == visits[k + 1];
  }

  lemma {:induction false} PutAllAdds(visits: seq<Visit>, infos: seq<ServiceInfo>, t: Table, now: int)
    returns (r: Table)
    requires Saves(visits, infos)
    ensures AreLines(infos) && r == PutAll(infos, t, now)
    ensures Adds(Entries(r), Entries(t), visits)
  {
    SavedAreLines(visits, infos);
    if visits == [] {
      r := t;
    } else {
      RestSaves(visits, infos);
      SavedAreLines(visits[1..], infos[1..]);
      var u := PutAllNext(infos, t, now);
      FirstPut(visits[0], infos[0], t, now, u);
      r := PutAllAdds(visits[1..], infos[1..], u, now);
      AddsOne(Entries(r), Entries(t), Entries(u), visits);
    }
  }

  lemma CoveredAt(visits: seq<Visit>, m: Table, k: (string, string))
    requires Covers(visits, m, "*")
    ensures k in Entries(m) <==> exists v :: v in visits && Key(v) == k
    ensures forall v :: v in visits && Key(v) == k && k in Entries(m) ==> Entries(m)[k] == Endpoint(v.info)
  {
    EntriesAt(m, k);
    StarMatchesAll(k.0);
    if k in Entries(m) {
      var v := Visit(k.0, k.1, m[k.0][k.1]);
      assert Due(v, m, "*");
      assert v in visits && Key(v) == k;
    }
  }

  lemma SameMap<K, V>(a: map<K, V>, b: map<K, V>)
    requires forall k :: k in a <==> k in b
    requires forall k :: k in a && k in b ==> a[k] == b[k]
    ensures a == b
  {
  }

  lemma CoversIsEntries(visits: seq<Visit>, m: Table, e: map<(string, string), (string, bool)>)
    requires Covers(visits, m, "*") && Adds(e, map[], visits)
    ensures e == Entries(m)
  {
    var want := Entries(m);
    forall k: (string, string)
      ensures k in e <==> k in want
      ensures k in e && k in want ==> e[k] == want[k]
    {
      CoveredAt(visits, m, k);
    }
    SameMap(e, want);
  }

  /** Reloading a record, whatever order it was written in, rebuilds the services,
      providers, addresses and proxied flags exactly when every provider in the
      table can be carried by a line. */
  lemma RecordRoundTrip(m: Table, infos: seq<ServiceInfo>, now: int)
    requires Lists(infos, m, "*")
    ensures Entries(Loaded(Lines(infos), map[], now)) == Entries(m) <==> AllSavable(m)
  {
    var t := Loaded(Lines(infos), map[], now);
    var visits :| Covers(visits, m, "*") && Shows(visits, infos);
    if AllSavable(m) {
      var _ := PutAllAdds(visits, infos, map[], now);
      LinesBack(infos, map[], now);
      CoversIsEntries(visits, m, Entries(t));
    }
    if Entries(t) == Entries(m) {
      LoadedIsClean(Lines(infos), map[], now);
      ShownMeansShowable(visits, infos, m, "*");
      forall v | Due(v, m, "*") ensures Savable(v) {
        EntriesAt(m, Key(v));
        EntriesAt(t, Key(v));
        assert Clean(Visit(v.service, v.id, t[v.service][v.id]));
        assert Clean(v);
        CleanIsSavable(v);
      }
    }
  }

  // ----- Tables it fails for -----

  /** checkNameConvention. */
  predicate NameOk(name: string) {
    forall c :: c in name ==> c != '_' && c != '/' && c != ' ' && c != '\n' && c != '\r' && c != '\t'
  }

  function One(name: string, addr: string): Table {
    map[name := map["i" := Provider(0, addr, false)]]
  }

  lemma OneIsLost(name: string, addr: string, infos: seq<ServiceInfo>, now: int)
    requires Lists(infos, One(name, addr), "*") && !Savable(Visit(name, "i", Provider(0, addr, false)))
    ensures Entries(Loaded(Lines(infos), map[], now)) != Entries(One(name, addr))
  {
    RecordRoundTrip(One(name, addr), infos, now);
    StarMatchesAll(name);
    assert Due(Visit(name, "i", Provider(0, addr, false)), One(name, addr), "*");
  }

  /** An address that is not proxied but ends in P, as one with a named port may, comes
      back as something else. */
  lemma TrailingPIsLost(addr: string, infos: seq<ServiceInfo>, now: int)
    requires addr != "" && addr[|addr| - 1] == 'P' && Lists(infos, One("p_s", addr), "*")
    ensures Entries(Loaded(Lines(infos), map[], now)) != Entries(One("p_s", addr))
  {
    OneIsLost("p_s", addr, infos, now);
  }

  /** The naming convention rules out less than the scanner takes for a blank. */
  lemma ConventionIsNotEnough()
    ensures NameOk("a\U{00A0}b") && !Spaceless("a\U{00A0}b")
  {
    assert IsSpace("a\U{00A0}b"[1]);
  }

  /** A name that obeys the convention but has a blank does not come back. */
  lemma BlankIsLost(name: string, infos: seq<ServiceInfo>, now: int)
    requires NameOk(name) && !Spaceless(name)
    requires Lists(infos, One(ServiceName("p", name), "h:1"), "*")
    ensures Entries(Loaded(Lines(infos), map[], now)) != Entries(One(ServiceName("p", name), "h:1"))
  {
    assert '_' !in "p";
    NameRoundTrip("p", name);
    OneIsLost(ServiceName("p", name), "h:1", infos, now);
  }
}
