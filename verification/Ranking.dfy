/** Ranking of probed providers (client.go, selectAndConnect): a stable sort of all of
  them by the first selection method, then of the better half by each later one.

  A provider carries its position of arrival as history, so that stability can be said:
  among equals the earlier arrival comes first. */
module Ranking {
  import opened Collections

  datatype Method = Capacity | Latency

  datatype Provider = Provider(addr: string, score: int, latency: int, arrival: nat)

  /** The comparison functions given to sort.SliceStable. */
  predicate Better(m: Method, x: Provider, y: Provider) {
    if m.Capacity? then x.score > y.score else x.latency < y.latency
  }

  /** By the first of ms, ties by the second, and so on, the last ties by arrival. */
  predicate Lex(ms: seq<Method>, x: Provider, y: Provider) {
    if ms == [] then x.arrival < y.arrival
    else Better(ms[0], x, y) || (!Better(ms[0], y, x) && Lex(ms[1..], x, y))
  }

  lemma {:induction false} LexTransitive(ms: seq<Method>, x: Provider, y: Provider, z: Provider)
    requires Lex(ms, x, y) && Lex(ms, y, z)
    ensures Lex(ms, x, z)
  {
    if ms != [] && !Better(ms[0], x, y) && !Better(ms[0], y, z) {
      LexTransitive(ms[1..], x, y, z);
    }
  }

  /** Exactly one of two providers that arrived at different positions comes first. */
  lemma {:induction false} LexTotal(ms: seq<Method>, x: Provider, y: Provider)
    requires x.arrival != y.arrival
    ensures Lex(ms, x, y) <==> !Lex(ms, y, x)
  {
    if ms != [] {
      LexTotal(ms[1..], x, y);
    }
  }

  ghost predicate Ordered(s: seq<Provider>, ms: seq<Method>) {
    forall p, q :: 0 <= p < q < |s| ==> Lex(ms, s[p], s[q])
  }

  // ----- A stable sort in place -----

  /** x moves in front of y. */
  lemma InsertOne(s: seq<Provider>, j: nat, i: nat, m: Method, ms: seq<Method>)
    requires 0 < j <= i < |s|
    requires Inserting(s, j, i, m, ms) && Better(m, s[j], s[j - 1])
    ensures Inserting(s[j := s[j - 1]][j - 1 := s[j]], j - 1, i, m, ms)
  {
  }

  /** s[..i + 1] is in order but for the element at j, which precedes those behind it
      and came after all others so far. */
  ghost predicate Inserting(s: seq<Provider>, j: nat, i: nat, m: Method, ms: seq<Method>)
    requires j <= i < |s|
  {
    && (forall p, q :: 0 <= p < q <= i && q != j && p != j ==> Lex([m] + ms, s[p], s[q]))
    && (forall q :: j < q <= i ==> Lex([m] + ms, s[j], s[q]))
    && (forall p :: 0 <= p <= i && p != j ==> Lex(ms, s[p], s[j]))
  }

  lemma Inserted(s: seq<Provider>, j: nat, i: nat, m: Method, ms: seq<Method>)
    requires j <= i < |s| && Inserting(s, j, i, m, ms)
    requires j > 0 ==> !Better(m, s[j], s[j - 1])
    ensures Ordered(s[..i + 1], [m] + ms)
  {
    assert ([m] + ms)[1..] == ms;
    forall p | 0 <= p < j ensures Lex([m] + ms, s[p], s[j]) {
      assert Lex([m] + ms, s[j - 1], s[j]);
      if p < j - 1 {
        LexTransitive([m] + ms, s[p], s[j - 1], s[j]);
      }
    }
  }

  lemma SwapKeepsMultiset<T>(s: seq<T>, i: nat, j: nat)
    requires i < |s| && j < |s|
    ensures multiset(s[i := s[j]][j := s[i]]) == multiset(s)
  {
  }

  /** sort.SliceStable on a[..hi]: what is in order by ms comes to be in order by m, with
      ties as they were. */
  method StableSort(a: array<Provider>, hi: nat, m: Method, ghost ms: seq<Method>)
    requires hi <= a.Length && Ordered(a[..hi], ms)
    modifies a
    ensures Ordered(a[..hi], [m] + ms)
    ensures multiset(a[..hi]) == multiset(old(a[..hi])) && a[hi..] == old(a[hi..])
  {
    ghost var was := a[..hi];
    for i := 0 to hi
      invariant Ordered(a[..i], [m] + ms)
      invariant multiset(a[..i]) == multiset(was[..i]) && a[i..] == old(a[i..])
    {
      InsertLast(a, i, m, ms, was);
    }
    assert was[..hi] == was;
  }

  lemma BeforeLast(s: seq<Provider>, t: seq<Provider>, i: nat, ms: seq<Method>)
    requires i < |t| && Ordered(t, ms) && |s| == i && multiset(s) == multiset(t[..i])
    ensures forall p :: 0 <= p < i ==> Lex(ms, s[p], t[i])
  {
    forall p | 0 <= p < i ensures Lex(ms, s[p], t[i]) {
      assert s[p] in multiset(t[..i]);
    }
  }

  method SwapBack(a: array<Provider>, j: nat)
    requires 0 < j < a.Length
    modifies a
    ensures a[..] == old(a[..])[j := old(a[j - 1])][j - 1 := old(a[j])]
  {
    a[j], a[j - 1] := a[j - 1], a[j];
  }

  lemma SwappedInFront(s: seq<Provider>, j: nat, i: nat)
    requires 0 < j <= i < |s|
    ensures var t := s[j := s[j - 1]][j - 1 := s[j]];
            multiset(t[..i + 1]) == multiset(s[..i + 1]) && t[i + 1..] == s[i + 1..]
  {
    var t, f := s[j := s[j - 1]][j - 1 := s[j]], s[..i + 1];
    SwapKeepsMultiset(f, j, j - 1);
    assert t[..i + 1] == f[j := f[j - 1]][j - 1 := f[j]];
  }

  lemma InsertingAtLast(s: seq<Provider>, was: seq<Provider>, i: nat, m: Method, ms: seq<Method>)
    requires i < |s| && i < |was| && Ordered(was, ms) && s[i] == was[i]
    requires Ordered(s[..i], [m] + ms) && multiset(s[..i]) == multiset(was[..i])
    ensures Inserting(s, i, i, m, ms) && multiset(s[..i + 1]) == multiset(was[..i + 1])
  {
    BeforeLast(s[..i], was, i, ms);
    assert s[..i + 1] == s[..i] + [s[i]] && was[..i + 1] == was[..i] + [was[i]];
    assert forall p :: 0 <= p < i ==> s[..i][p] == s[p];
  }

  method InsertLast(a: array<Provider>, i: nat, m: Method, ghost ms: seq<Method>, ghost was: seq<Provider>)
    requires i < a.Length && i < |was| && Ordered(was, ms) && a[i] == was[i]
    requires Ordered(a[..i], [m] + ms) && multiset(a[..i]) == multiset(was[..i])
    modifies a
    ensures Ordered(a[..i + 1], [m] + ms)
    ensures multiset(a[..i + 1]) == multiset(was[..i + 1]) && a[i + 1..] == old(a[i + 1..])
  {
    ghost var s := a[..];
    assert s[..i] == a[..i] && s[i + 1..] == old(a[i + 1..]);
    InsertingAtLast(s, was, i, m, ms);
    var j := i;
    while j > 0 && Better(m, a[j], a[j - 1])
      invariant 0 <= j <= i && a[..] == s && Inserting(s, j, i, m, ms)
      invariant multiset(s[..i + 1]) == multiset(was[..i + 1]) && s[i + 1..] == old(a[i + 1..])
    {
      InsertOne(s, j, i, m, ms);
      SwappedInFront(s, j, i);
      SwapBack(a, j);
      s := a[..];
      j := j - 1;
    }
    Inserted(s, j, i, m, ms);
    assert a[..i + 1] == s[..i + 1] && a[i + 1..] == s[i + 1..];
  }

  // ----- The staged ranking -----

  function Reversed(ms: seq<Method>): seq<Method> {
    if ms == [] then [] else [ms[|ms| - 1]] + Reversed(ms[..|ms| - 1])
  }

  /** u is all providers by the first method; of `now` the first half is that of u, by
      the last method, then each earlier one, then arrival; the rest is as in u. */
  ghost predicate RankedFrom(was: seq<Provider>, u: seq<Provider>, now: seq<Provider>, methods: seq<Method>)
    requires methods != []
  {
    var h := |was| / 2;
    && |was| == |u| == |now|
    && multiset(u) == multiset(was) && Ordered(u, [methods[0]])
    && (|methods| == 1 ==> now == u)
    && multiset(now[..h]) == multiset(u[..h]) && Ordered(now[..h], Reversed(methods))
    && now[h..] == u[h..]
  }

  ghost predicate Ranked(was: seq<Provider>, now: seq<Provider>, methods: seq<Method>) {
    if methods == [] then now == was else exists u :: RankedFrom(was, u, now, methods)
  }

  ghost predicate Arrivals(s: seq<Provider>) {
    forall i :: 0 <= i < |s| ==> s[i].arrival == i
  }

  lemma FirstStage(was: seq<Provider>, now: seq<Provider>, methods: seq<Method>)
    requires |methods| == 1 && Ordered(now, methods) && multiset(now) == multiset(was)
    ensures RankedFrom(was, now, now, methods)
  {
    assert |multiset(now)| == |multiset(was)|;
    assert methods == [methods[0]] && Reversed(methods[..0]) == [];
    assert Reversed(methods) == methods;
  }

  lemma LaterStage(was: seq<Provider>, u: seq<Provider>, before: seq<Provider>, now: seq<Provider>,
                   methods: seq<Method>, m: Method)
    requires methods != [] && RankedFrom(was, u, before, methods)
    requires var h := |was| / 2;
             && |now| == |was|
             && Ordered(now[..h], [m] + Reversed(methods)) && multiset(now[..h]) == multiset(before[..h])
                && now[h..] == before[h..]
    ensures RankedFrom(was, u, now, methods + [m])
  {
    assert (methods + [m])[..|methods|] == methods;
  }

  // ----- What a ranking is -----

  lemma PositionOf<T>(s: seq<T>, x: T) returns (i: nat)
    requires x in multiset(s)
    ensures i < |s| && s[i] == x
  {
    i :| i < |s| && s[i] == x;
  }

  lemma TailMultiset<T>(s: seq<T>)
    requires s != []
    ensures multiset(s[1..]) == multiset(s) - multiset{s[0]}
  {
    assert s == [s[0]] + s[1..];
  }

  lemma SameFirst(s: seq<Provider>, t: seq<Provider>, ms: seq<Method>)
    requires Ordered(s, ms) && Ordered(t, ms) && multiset(s) == multiset(t) && s != [] && t != []
    requires forall x, y :: x in s && y in s && x != y ==> x.arrival != y.arrival
    ensures s[0] == t[0]
  {
    assert s[0] in multiset(s) && t[0] in multiset(t);
    var i := PositionOf(t, s[0]);
    var j := PositionOf(s, t[0]);
    if s[0] != t[0] {
      assert s[j] in s;
      LexTotal(ms, s[0], t[0]);
    }
  }

  /** A strict order leaves no choice. */
  lemma {:induction false} OrderedIsUnique(s: seq<Provider>, t: seq<Provider>, ms: seq<Method>)
    requires Ordered(s, ms) && Ordered(t, ms) && multiset(s) == multiset(t)
    requires forall x, y :: x in s && y in s && x != y ==> x.arrival != y.arrival
    ensures s == t
  {
    if s == [] {
      assert |multiset(t)| == 0;
    } else {
      assert |multiset(s)| == |multiset(t)|;
      SameFirst(s, t, ms);
      TailMultiset(s);
      TailMultiset(t);
      assert forall x :: x in s[1..] ==> x in s;
      OrderedIsUnique(s[1..], t[1..], ms);
      assert s == [s[0]] + s[1..] && t == [t[0]] + t[1..];
    }
  }

  lemma DistinctArrivals(was: seq<Provider>, s: seq<Provider>)
    requires Arrivals(was) && forall x :: x in s ==> x in multiset(was)
    ensures forall x, y :: x in s && y in s && x != y ==> x.arrival != y.arrival
  {
    forall x, y | x in s && y in s && x.arrival == y.arrival ensures x == y {
      var i := PositionOf(was, x);
      var j := PositionOf(was, y);
    }
  }

  lemma Members<T>(s: seq<T>, t: seq<T>)
    requires multiset(s) == multiset(t)
    ensures forall x :: x in s ==> x in multiset(t)
    ensures forall x :: x in s <==> x in t
  {
    forall x ensures x in s <==> x in t {
      assert x in s <==> x in multiset(s);
      assert x in t <==> x in multiset(t);
    }
  }

  lemma SortedIsUnique(was: seq<Provider>, s: seq<Provider>, t: seq<Provider>, ms: seq<Method>)
    requires Arrivals(was) && multiset(s) <= multiset(was) && multiset(s) == multiset(t)
    requires Ordered(s, ms) && Ordered(t, ms)
    ensures s == t
  {
    forall x | x in s ensures x in multiset(was) {
      assert x in multiset(s);
    }
    DistinctArrivals(was, s);
    OrderedIsUnique(s, t, ms);
  }

  lemma FrontIsPart<T>(u: seq<T>, h: nat)
    requires h <= |u|
    ensures multiset(u[..h]) <= multiset(u)
  {
    assert u == u[..h] + u[h..];
  }

  lemma FrontIsUnique(was: seq<Provider>, u: seq<Provider>, s: seq<Provider>, t: seq<Provider>, ms: seq<Method>, h: nat)
    requires Arrivals(was) && h <= |u| && multiset(u) == multiset(was)
    requires multiset(s) == multiset(u[..h]) && multiset(t) == multiset(u[..h]) && Ordered(s, ms) && Ordered(t, ms)
    ensures s == t
  {
    FrontIsPart(u, h);
    SortedIsUnique(was, s, t, ms);
  }

  lemma RankedAlike(was: seq<Provider>, u: seq<Provider>, s: seq<Provider>, t: seq<Provider>, methods: seq<Method>)
    requires Arrivals(was) && methods != [] && RankedFrom(was, u, s, methods) && RankedFrom(was, u, t, methods)
    ensures s == t
  {
    var h := |was| / 2;
    FrontIsUnique(was, u, s[..h], t[..h], Reversed(methods), h);
    assert s == s[..h] + s[h..] && t == t[..h] + t[h..];
  }

  /** The order of arrival and the methods determine the result. */
  lemma RankingIsUnique(was: seq<Provider>, s: seq<Provider>, t: seq<Provider>, methods: seq<Method>)
    requires Arrivals(was) && Ranked(was, s, methods) && Ranked(was, t, methods)
    ensures s == t
  {
    if methods != [] {
      var u :| RankedFrom(was, u, s, methods);
      var v :| RankedFrom(was, v, t, methods);
      SortedIsUnique(was, u, v, [methods[0]]);
      RankedAlike(was, u, s, t, methods);
    }
  }

  lemma SameWhole<T>(s: seq<T>, u: seq<T>, h: nat)
    requires h <= |s| == |u| && multiset(s[..h]) == multiset(u[..h]) && s[h..] == u[h..]
    ensures multiset(s) == multiset(u)
  {
    assert s == s[..h] + s[h..] && u == u[..h] + u[h..];
  }

  /** No provider is lost or invented, the first half is a best half under the first
      method, and the rest is in order by that method. */
  lemma BestHalfFirst(was: seq<Provider>, now: seq<Provider>, methods: seq<Method>)
    requires Ranked(was, now, methods) && methods != []
    ensures multiset(now) == multiset(was)
    ensures var h := |was| / 2;
            && |now| == |was|
            && (forall x, y :: x in now[..h] && y in now[h..] ==> Lex([methods[0]], x, y))
            && Ordered(now[h..], [methods[0]])
  {
    var u :| RankedFrom(was, u, now, methods);
    var h := |was| / 2;
    SameWhole(now, u, h);
    HalvesApart(u, h, now[..h], [methods[0]]);
  }

  lemma HalvesApart(u: seq<Provider>, h: nat, front: seq<Provider>, ms: seq<Method>)
    requires h <= |u| && Ordered(u, ms) && multiset(front) == multiset(u[..h])
    ensures forall x, y :: x in front && y in u[h..] ==> Lex(ms, x, y)
    ensures Ordered(u[h..], ms)
  {
    Members(front, u[..h]);
    forall x, y | x in front && y in u[h..] ensures Lex(ms, x, y) {
      var i := PositionOf(u[..h], x);
      var j :| 0 <= j < |u[h..]| && u[h..][j] == y;
      assert u[i] == x && u[h + j] == y;
    }
  }

  // ----- As functions: what the code does, and what its documentation says -----

  /** Where x goes among the first k: behind everything that it is not better than. */
  function Slot(s: seq<Provider>, k: nat, x: Provider, m: Method): (j: nat)
    requires k <= |s|
    ensures j <= k && (j > 0 ==> !Better(m, x, s[j - 1]))
    ensures forall p :: j <= p < k ==> Better(m, x, s[p])
  {
    if k == 0 || !Better(m, x, s[k - 1]) then k else Slot(s, k - 1, x, m)
  }

  function InsertIn(s: seq<Provider>, x: Provider, m: Method): (r: seq<Provider>)
    ensures |r| == |s| + 1
  {
    var j := Slot(s, |s|, x, m);
    s[..j] + [x] + s[j..]
  }

  /** A stable sort of the first n. */
  function SortBy(s: seq<Provider>, n: nat, m: Method): (r: seq<Provider>)
    requires n <= |s|
    ensures |r| == n
  {
    if n == 0 then [] else InsertIn(SortBy(s, n - 1, m), s[n - 1], m)
  }

  function SortFront(s: seq<Provider>, h: nat, m: Method): (r: seq<Provider>)
    requires h <= |s|
    ensures |r| == |s|
  {
    SortBy(s[..h], h, m) + s[h..]
  }

  /** How many providers stage k sorts.  The documentation of the selection methods has
      each one select the better half of what the last one left; the code sorts half of
      all providers in every stage but the first. */
  function StageSize(n: nat, k: nat, documented: bool): (h: nat)
    ensures h <= n
  {
    if documented then n / Pow2(k) else if k == 0 then n else n / 2
  }

  /** After k stages. */
  function Staged(s: seq<Provider>, methods: seq<Method>, k: nat, documented: bool): (r: seq<Provider>)
    requires k <= |methods|
    ensures |r| == |s|
    decreases k
  {
    if k == 0 then s
    else SortFront(Staged(s, methods, k - 1, documented), StageSize(|s|, k - 1, documented), methods[k - 1])
  }

  lemma SplitMultiset<T>(s: seq<T>, j: nat, x: T)
    requires j <= |s|
    ensures multiset(s[..j] + [x] + s[j..]) == multiset(s) + multiset{x}
  {
    assert s == s[..j] + s[j..];
  }

  lemma NextMultiset<T>(s: seq<T>, n: nat)
    requires n < |s|
    ensures multiset(s[..n + 1]) == multiset(s[..n]) + multiset{s[n]}
  {
    assert s[..n + 1] == s[..n] + [s[n]];
  }

  lemma InsertInKeeps(s: seq<Provider>, x: Provider, m: Method)
    ensures multiset(InsertIn(s, x, m)) == multiset(s) + multiset{x}
  {
    SplitMultiset(s, Slot(s, |s|, x, m), x);
  }

  lemma SortByNext(s: seq<Provider>, n: nat, m: Method)
    requires n < |s|
    ensures multiset(SortBy(s, n + 1, m)) == multiset(SortBy(s, n, m)) + multiset{s[n]}
  {
    var t, x := SortBy(s, n, m), s[n];
    InsertInKeeps(t, x, m);
    assert SortBy(s, n + 1, m) == InsertIn(t, x, m);
  }

  lemma {:induction false} SortByKeeps(s: seq<Provider>, n: nat, m: Method)
    requires n <= |s|
    ensures multiset(SortBy(s, n, m)) == multiset(s[..n])
  {
    if n > 0 {
      SortByKeeps(s, n - 1, m);
      SortByNext(s, n - 1, m);
      NextMultiset(s, n - 1);
    }
  }

  /** An earlier arrival that x is not better than comes first, and so does all before it. */
  lemma BeforeSlot(s: seq<Provider>, x: Provider, m: Method, ms: seq<Method>, p: nat)
    requires Ordered(s, [m] + ms) && (forall y :: y in s ==> Lex(ms, y, x)) && p < Slot(s, |s|, x, m)
    ensures Lex([m] + ms, s[p], x)
  {
    var j := Slot(s, |s|, x, m);
    assert ([m] + ms)[1..] == ms && s[j - 1] in s;
    assert Lex([m] + ms, s[j - 1], x);
    if p < j - 1 {
      LexTransitive([m] + ms, s[p], s[j - 1], x);
    }
  }

  lemma InsertInOrdered(s: seq<Provider>, x: Provider, m: Method, ms: seq<Method>)
    requires Ordered(s, [m] + ms) && forall y :: y in s ==> Lex(ms, y, x)
    ensures Ordered(InsertIn(s, x, m), [m] + ms)
  {
    var j, r, all := Slot(s, |s|, x, m), InsertIn(s, x, m), [m] + ms;
    forall p, q | 0 <= p < q < |r| ensures Lex(all, r[p], r[q]) {
      if q == j {
        BeforeSlot(s, x, m, ms, p);
      } else if p == j {
        assert r[q] == s[q - 1];
      } else {
        assert r[p] == s[if p < j then p else p - 1] && r[q] == s[if q < j then q else q - 1];
      }
    }
  }

  lemma SortByOrderedNext(s: seq<Provider>, t: seq<Provider>, n: nat, m: Method, ms: seq<Method>)
    requires n < |s| && Ordered(s, ms) && t == SortBy(s, n, m) && Ordered(t, [m] + ms)
    ensures Ordered(SortBy(s, n + 1, m), [m] + ms)
  {
    SortByKeeps(s, n, m);
    BeforeLast(t, s, n, ms);
    InsertInOrdered(t, s[n], m, ms);
  }

  lemma {:induction false} SortByOrdered(s: seq<Provider>, n: nat, m: Method, ms: seq<Method>)
    requires n <= |s| && Ordered(s, ms)
    ensures Ordered(SortBy(s, n, m), [m] + ms)
  {
    if n > 0 {
      SortByOrdered(s, n - 1, m, ms);
      SortByOrderedNext(s, SortBy(s, n - 1, m), n - 1, m, ms);
    }
  }

  lemma FrontSorted(s: seq<Provider>, h: nat, m: Method, ms: seq<Method>)
    requires h <= |s| && Ordered(s[..h], ms)
    ensures var t := SortFront(s, h, m);
            && Ordered(t[..h], [m] + ms) && multiset(t[..h]) == multiset(s[..h]) && t[h..] == s[h..]
  {
    var f := s[..h];
    SortByKeeps(f, h, m);
    SortByOrdered(f, h, m, ms);
    assert f[..h] == f && SortFront(s, h, m)[..h] == SortBy(f, h, m);
  }

  /** The code's stages are a ranking. */
  lemma {:induction false} StagedIsRanked(was: seq<Provider>, methods: seq<Method>, k: nat)
    requires Arrivals(was) && k <= |methods|
    ensures Ranked(was, Staged(was, methods, k, false), methods[..k])
    decreases k
  {
    if k > 0 {
      StagedIsRanked(was, methods, k - 1);
      StageIsRanked(was, Staged(was, methods, k - 1, false), methods, k - 1);
    }
  }

  lemma StageIsRanked(was: seq<Provider>, before: seq<Provider>, methods: seq<Method>, k: nat)
    requires Arrivals(was) && k < |methods| && |before| == |was| && Ranked(was, before, methods[..k])
    ensures Ranked(was, SortFront(before, StageSize(|was|, k, false), methods[k]), methods[..k + 1])
  {
    var n, done, m := |was|, methods[..k], methods[k];
    assert methods[..k + 1] == done + [m];
    if k == 0 {
      assert before == was && was[..n] == was;
      var now := SortFront(was, n, m);
      FrontSorted(was, n, m, []);
      assert now[..n] == now && [m] + [] == done + [m];
      FirstStage(was, now, done + [m]);
    } else {
      var u :| RankedFrom(was, u, before, done);
      FrontSorted(before, n / 2, m, Reversed(done));
      LaterStage(was, u, before, SortFront(before, n / 2, m), done, m);
    }
  }

  method Rank(a: array<Provider>, methods: seq<Method>)
    requires Arrivals(a[..])
    modifies a
    ensures Ranked(old(a[..]), a[..], methods)
    ensures a[..] == Staged(old(a[..]), methods, |methods|, false)
  {
    var sorted := false;
    ghost var was, u := a[..], a[..];
    for k := 0 to |methods|
      invariant sorted <==> k > 0
      invariant if k == 0 then a[..] == was else RankedFrom(was, u, a[..], methods[..k])
    {
      ghost var before, done := a[..], methods[..k];
      assert methods[..k + 1] == done + [methods[k]];
      if !sorted {
        assert a[..a.Length] == was;
        StableSort(a, a.Length, methods[k], []);
        assert a[..a.Length] == a[..];
        u := a[..];
        FirstStage(was, u, methods[..k + 1]);
      } else {
        var hi := a.Length / 2;
        assert before[..hi] == a[..hi] && before[hi..] == a[hi..];
        StableSort(a, hi, methods[k], Reversed(done));
        assert a[..][..hi] == a[..hi] && a[..][hi..] == a[hi..];
        LaterStage(was, u, before, a[..], done, methods[k]);
      }
      sorted := true;
    }
    assert methods[..|methods|] == methods;
    StagedIsRanked(was, methods, |methods|);
    RankingIsUnique(was, a[..], Staged(was, methods, |methods|, false), methods);
  }

  // Where the two agree.

  lemma ShortFront(s: seq<Provider>, h: nat, m: Method)
    requires h <= |s| && h <= 1
    ensures SortFront(s, h, m) == s
  {
    if h == 1 {
      var f := s[..1];
      assert SortBy(f, 1, m) == InsertIn([], f[0], m) == [s[0]];
    }
    assert s == s[..h] + s[h..];
  }

  lemma StageSizesAgree(n: nat, k: nat)
    ensures k <= 1 ==> StageSize(n, k, true) == StageSize(n, k, false)
    ensures n <= 3 && k >= 1 ==> StageSize(n, k, true) <= 1 && StageSize(n, k, false) <= 1
    ensures n >= 4 && k >= 2 ==> StageSize(n, k, true) < n / 2
  {
    assert Pow2(1) == 2 * Pow2(0) && Pow2(0) == 1;
    if k >= 1 {
      Pow2AtLeast(k);
      QuotientShrinks(n, 2, Pow2(k));
    }
    if k >= 2 {
      assert Pow2(2) == 2 * Pow2(1);
      Pow2AtLeast(k);
      QuotientShrinks(n, 4, Pow2(k));
    }
  }

  lemma {:induction false} Pow2AtLeast(k: nat)
    ensures k >= 1 ==> Pow2(k) >= 2
    ensures k >= 2 ==> Pow2(k) >= 4
  {
    if k >= 1 {
      Pow2AtLeast(k - 1);
    }
  }

  lemma QuotientShrinks(n: nat, a: nat, b: nat)
    requires 0 < a <= b
    ensures n / b <= n / a
  {
    var x := n / b;
    MulGrows(a, b, x);
    QuotientAtLeast(n, a, x);
  }

  lemma {:induction false} StagesAgree(s: seq<Provider>, methods: seq<Method>, k: nat)
    requires k <= |methods| && (k <= 2 || |s| <= 3)
    ensures Staged(s, methods, k, true) == Staged(s, methods, k, false)
    decreases k
  {
    if k > 0 {
      StagesAgree(s, methods, k - 1);
      StageSizesAgree(|s|, k - 1);
      if k >= 3 {
        var before := Staged(s, methods, k - 1, true);
        ShortFront(before, StageSize(|s|, k - 1, true), methods[k - 1]);
        ShortFront(before, StageSize(|s|, k - 1, false), methods[k - 1]);
      }
    }
  }

  /** Providers that capacity orders as they arrived and latency the other way round. */
  function Opposed(n: nat): (s: seq<Provider>)
    ensures |s| == n && forall i :: 0 <= i < n ==> s[i] == Provider("", n - i, n - i, i)
  {
    seq(n, i requires 0 <= i < n => Provider("", n - i, n - i, i))
  }

  /** Capacity, then latency as often as needed, then capacity again. */
  function Alternating(m: nat): (ms: seq<Method>)
    requires m >= 3
    ensures |ms| == m && ms[0] == Capacity && ms[1] == Latency && ms[m - 1] == Capacity
  {
    seq(m, i requires 0 <= i < m => if i == 0 || i == m - 1 then Capacity else Latency)
  }

  /** The last of a sorted list is the one that everything else is better than. */
  lemma WorstIsLast(s: seq<Provider>, ms: seq<Method>, w: Provider)
    requires ms != [] && Ordered(s, ms) && w in s
    requires forall x :: x in s && x != w ==> Better(ms[0], x, w)
    ensures s[|s| - 1] == w
  {
    var i :| 0 <= i < |s| && s[i] == w;
    var last := s[|s| - 1];
    assert last in s;
    assert i < |s| - 1 ==> Lex(ms, s[i], last);
  }

  /** What comes first under the first method is, here, what arrived first. */
  lemma OpposedFront(n: nat, front: seq<Provider>, u: seq<Provider>, h: nat)
    requires 2 <= h <= n == |u| && Ordered(u, [Capacity]) && multiset(u) == multiset(Opposed(n))
    requires multiset(front) == multiset(u[..h])
    ensures Opposed(n)[0] in front && Opposed(n)[h - 1] in front
    ensures forall x :: x in front ==> x in Opposed(n)[..h]
  {
    var s := Opposed(n);
    assert Ordered(s, [Capacity]);
    forall x | x in u ensures x in multiset(s) {
      assert x in multiset(u);
    }
    SortedIsUnique(s, u, s, [Capacity]);
    Members(front, s[..h]);
    assert s[..h][0] == s[0] && s[..h][h - 1] == s[h - 1];
  }

  lemma CodePutsBack(n: nat, m: nat)
    requires n >= 4 && m >= 3
    ensures Staged(Opposed(n), Alternating(m), m, false)[n / 2 - 1] == Opposed(n)[n / 2 - 1]
  {
    var s, ms, h := Opposed(n), Alternating(m), n / 2;
    var now := Staged(s, ms, m, false);
    StagedIsRanked(s, ms, m);
    assert ms[..m] == ms;
    var u :| RankedFrom(s, u, now, ms);
    OpposedFront(n, now[..h], u, h);
    WorstIsLast(now[..h], Reversed(ms), s[h - 1]);
  }

  /** Stages that sort less than half leave the end of the first half alone. */
  lemma {:induction false} DocumentedKeeps(s: seq<Provider>, ms: seq<Method>, k: nat)
    requires |s| >= 4 && 2 <= k <= |ms|
    ensures Staged(s, ms, k, true)[|s| / 2 - 1] == Staged(s, ms, 2, true)[|s| / 2 - 1]
    decreases k
  {
    if k > 2 {
      DocumentedKeeps(s, ms, k - 1);
      StageSizesAgree(|s|, k - 1);
    }
  }

  lemma LatencyIsSecond(m: nat)
    requires m >= 3
    ensures Reversed(Alternating(m)[..2])[0] == Latency
  {
  }

  lemma TwoStagesReverse(n: nat, m: nat)
    requires n >= 4 && m >= 3
    ensures Staged(Opposed(n), Alternating(m), 2, false)[n / 2 - 1] == Opposed(n)[0]
  {
    var s, ms, h := Opposed(n), Alternating(m), n / 2;
    var now, two := Staged(s, ms, 2, false), ms[..2];
    StagedIsRanked(s, ms, 2);
    var u :| RankedFrom(s, u, now, two);
    OpposedFront(n, now[..h], u, h);
    LatencyIsSecond(m);
    WorstIsLast(now[..h], Reversed(two), s[0]);
  }

  lemma DocumentedDoesNot(n: nat, m: nat)
    requires n >= 4 && m >= 3
    ensures Staged(Opposed(n), Alternating(m), m, true)[n / 2 - 1] == Opposed(n)[0]
  {
    DocumentedKeeps(Opposed(n), Alternating(m), m);
    StagesAgree(Opposed(n), Alternating(m), 2);
    TwoStagesReverse(n, m);
  }

  /** Code and documentation rank every list of n providers alike under every choice of m
      methods exactly when there are at most two methods or at most three providers. */
  lemma DocumentedIff(n: nat, m: nat)
    ensures (forall s: seq<Provider>, ms: seq<Method> :: |s| == n && Arrivals(s) && |ms| == m
               ==> Staged(s, ms, m, true) == Staged(s, ms, m, false))
       <==> m <= 2 || n <= 3
  {
    if m <= 2 || n <= 3 {
      forall s: seq<Provider>, ms: seq<Method> | |s| == n && Arrivals(s) && |ms| == m
        ensures Staged(s, ms, m, true) == Staged(s, ms, m, false)
      {
        StagesAgree(s, ms, m);
      }
    } else {
      CodePutsBack(n, m);
      DocumentedDoesNot(n, m);
      assert Arrivals(Opposed(n));
      assert Staged(Opposed(n), Alternating(m), m, true) != Staged(Opposed(n), Alternating(m), m, false);
    }
  }
}
