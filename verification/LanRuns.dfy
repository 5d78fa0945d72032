/** The LAN protocol over a network that loses, repeats and reorders: nodes of module
  Lan, and the set of all packets ever sent, any of which may be received at any time,
  any number of times, or never. */
module LanRuns {
  import opened Collections
  import opened Wildcard
  import opened Lan

  datatype Packet = Query(name: string, from: nat) | Found(msg: FoundMsg, from: nat, to: nat)

  /** Where a call of queryServiceInLAN stands. */
  datatype Cmd =
    | Queued(name: string)
    | Delayed(name: string, since: int)
    | Compiled(name: string, infos: set<Info>, at: int)

  datatype Pending = Pending(n: nat, cmd: Cmd)

  /** What a call returned, and when that was compiled and cached. */
  datatype Answer = Answer(q: nat, n: nat, name: string, infos: set<Info>, compiledAt: int, cachedAt: int, at: int)

  datatype State = State(now: int, nodes: map<nat, Node>, net: set<Packet>, pending: map<nat, Pending>,
      asked: set<nat>, answers: set<Answer>)

  datatype Label =
    | Pass(ms: nat)
    | Register(n: nat, name: string, port: string)
    | Delete(n: nat, name: string)
    | TickerFires(n: nat, alive: set<string>)
    | Ask(n: nat, q: nat, name: string)
    | Broadcast(q: nat, ok: bool)
    | Compile(q: nat)
    | Store(q: nat)
    | RecvQuery(n: nat, from: nat, name: string)
    | RecvFound(n: nat, from: nat, msg: FoundMsg)

  function SetNode(s: State, n: nat, node: Node): State {
    s.(nodes := s.nodes[n := node])
  }

  function StepAsk(s: State, n: nat, q: nat, name: string): State
    requires n in s.nodes
  {
    var results := Trimmed(s.nodes[n].results);
    var t := SetNode(s, n, s.nodes[n].(results := results)).(asked := s.asked + {q});
    if Usable(results, name, s.now) then
      var r := results[name];
      t.(answers := s.answers + {Answer(q, n, name, r.infos, r.compiledAt, r.stamp, s.now)})
    else t.(pending := s.pending[q := Pending(n, Queued(name))])
  }

  /** A failed broadcast drops the query. */
  function StepBroadcast(s: State, q: nat, ok: bool): State
    requires q in s.pending && s.pending[q].cmd.Queued?
  {
    var p := s.pending[q];
    if !ok then s.(pending := s.pending - {q})
    else s.(net := s.net + {Query(p.cmd.name, p.n)},
        pending := s.pending[q := Pending(p.n, Delayed(p.cmd.name, s.now))])
  }

  ghost function Compilation(cache: Cache, name: string, now: int): set<Info> {
    set k, p | k in cache && Glob(name, k) && p in cache[k] && Current(cache[k][p], now) :: Info(k, p, cache[k][p].addr)
  }

  ghost function StepCompile(s: State, q: nat): State
    requires q in s.pending && s.pending[q].cmd.Delayed? && s.pending[q].n in s.nodes
  {
    var p := s.pending[q];
    var node := s.nodes[p.n];
    SetNode(s, p.n, node.(cache := Swept(node.cache, p.cmd.name, s.now)))
      .(pending := s.pending[q := Pending(p.n,
          Compiled(p.cmd.name, Compilation(node.cache, p.cmd.name, s.now), s.now))])
  }

  function StepStore(s: State, q: nat): State
    requires q in s.pending && s.pending[q].cmd.Compiled? && s.pending[q].n in s.nodes
  {
    var p := s.pending[q];
    var c, node := p.cmd, s.nodes[p.n];
    SetNode(s, p.n, node.(results := node.results[c.name := Result(s.now, c.infos, c.at)]))
      .(pending := s.pending - {q}, answers := s.answers + {Answer(q, p.n, c.name, c.infos, c.at, s.now, s.now)})
  }

  ghost function StepRecvQuery(s: State, n: nat, from: nat, name: string): State
    requires n in s.nodes
  {
    s.(net := s.net + set m | m in Replies(s.nodes[n], name) :: Found(m, n, from))
  }

  ghost function Step(s: State, l: Label): State {
    match l
    case Pass(ms) => s.(now := s.now + ms)
    case Register(n, name, port) =>
      if n !in s.nodes then s else SetNode(s, n, s.nodes[n].(local := s.nodes[n].local[name := Local(s.now, port)]))
    case Delete(n, name) => if n !in s.nodes then s else SetNode(s, n, Forget(s.nodes[n], name))
    case TickerFires(n, alive) => if n !in s.nodes then s else SetNode(s, n, Ticked(s.nodes[n], alive, s.now))
    case Ask(n, q, name) => if n !in s.nodes || q in s.asked then s else StepAsk(s, n, q, name)
    case Broadcast(q, ok) => if q in s.pending && s.pending[q].cmd.Queued? then StepBroadcast(s, q, ok) else s
    case Compile(q) =>
      if q in s.pending && s.pending[q].cmd.Delayed? && s.pending[q].n in s.nodes
          && s.now >= s.pending[q].cmd.since + DELAY
      then StepCompile(s, q) else s
    case Store(q) =>
      if q in s.pending && s.pending[q].cmd.Compiled? && s.pending[q].n in s.nodes then StepStore(s, q) else s
    case RecvQuery(n, from, name) =>
      if n in s.nodes && Query(name, from) in s.net then StepRecvQuery(s, n, from, name) else s
    case RecvFound(n, from, msg) =>
      if n in s.nodes && from in s.nodes && Found(msg, from, n) in s.net
      then SetNode(s, n, OnFound(s.nodes[n], msg, s.nodes[from].host, s.now)) else s
  }

  ghost function Run(s0: State, ls: seq<Label>): State {
    if ls == [] then s0 else Step(Run(s0, ls[..|ls| - 1]), ls[|ls| - 1])
  }

  /** Nodes may start with services from a record file, and with nothing else. */
  ghost predicate Starts(s: State) {
    && s.net == {} && s.pending == map[] && s.asked == {} && s.answers == {}
    && forall n :: n in s.nodes ==> s.nodes[n].cache == map[] && s.nodes[n].results == map[]
  }

  // ----- What is known, as claims -----

  /** Node n was told of this provider, not before `since`. */
  datatype Claim = Claim(n: nat, info: Info, since: int)

  ghost predicate NetIn(net: set<Packet>, R: iset<Packet>) {
    forall p :: p in net && p.Found? ==> p in R
  }

  ghost predicate CacheOf(n: nat, cache: Cache, B: iset<Claim>) {
    forall k, p :: k in cache && p in cache[k] ==> Claim(n, Info(k, p, cache[k][p].addr), cache[k][p].stamp) in B
  }

  ghost predicate CacheIn(nodes: map<nat, Node>, B: iset<Claim>) {
    forall n :: n in nodes ==> CacheOf(n, nodes[n].cache, B)
  }

  /** All of infos match, and were told within five minutes before `at`. */
  ghost predicate Backed(n: nat, name: string, infos: set<Info>, at: int, B: iset<Claim>) {
    forall i :: i in infos ==> Glob(name, i.name) && Claim(n, i, at - FIVE_MINUTES) in B
  }

  ghost predicate PendingIn(pending: map<nat, Pending>, now: int, B: iset<Claim>) {
    forall q :: q in pending && pending[q].cmd.Compiled?
      ==> pending[q].cmd.at <= now
          && Backed(pending[q].n, pending[q].cmd.name, pending[q].cmd.infos, pending[q].cmd.at, B)
  }

  ghost predicate ResultOk(n: nat, name: string, r: Result, now: int, B: iset<Claim>) {
    r.compiledAt <= r.stamp <= now && Backed(n, name, r.infos, r.compiledAt, B)
  }

  ghost predicate ResultsIn(nodes: map<nat, Node>, now: int, B: iset<Claim>) {
    forall n, k :: n in nodes && k in nodes[n].results ==> ResultOk(n, k, nodes[n].results[k], now, B)
  }

  ghost predicate AnswerOk(a: Answer, B: iset<Claim>) {
    && a.compiledAt <= a.cachedAt <= a.at && a.at - a.cachedAt < FIFTEEN_SECONDS
    && Backed(a.n, a.name, a.infos, a.compiledAt, B)
  }

  ghost predicate AnswersIn(answers: set<Answer>, B: iset<Claim>) {
    forall a :: a in answers ==> AnswerOk(a, B)
  }

  ghost predicate Inv(s: State, R: iset<Packet>, B: iset<Claim>) {
    NetIn(s.net, R) && CacheIn(s.nodes, B) && PendingIn(s.pending, s.now, B) && ResultsIn(s.nodes, s.now, B)
        && AnswersIn(s.answers, B)
  }

  /** Being told later implies being told not before any earlier time. */
  ghost predicate Closed(B: iset<Claim>) {
    forall c, t :: c in B && t <= c.since ==> c.(since := t) in B
  }

  /** The new packets and claims of a step are justified. */
  ghost predicate Covers(s: State, l: Label, R: iset<Packet>, B: iset<Claim>) {
    && (l.RecvQuery? && l.n in s.nodes && Query(l.name, l.from) in s.net
        ==> forall m :: m in Replies(s.nodes[l.n], l.name) ==> Found(m, l.n, l.from) in R)
    && (l.RecvFound? && l.from in s.nodes && Found(l.msg, l.from, l.n) in s.net
        ==> Claim(l.n, Info(l.msg.name, l.msg.id, Addr(s.nodes[l.from].host, l.msg.port)), s.now) in B)
  }

  // ----- One step -----

  lemma NodeChanges(s: State, n: nat, node: Node, R: iset<Packet>, B: iset<Claim>)
    requires Inv(s, R, B) && n in s.nodes
    requires node.results == s.nodes[n].results
    requires CacheOf(n, node.cache, B)
    ensures Inv(SetNode(s, n, node), R, B)
  {
  }

  lemma AskKeeps(s: State, n: nat, q: nat, name: string, R: iset<Packet>, B: iset<Claim>)
    requires Inv(s, R, B) && n in s.nodes
    ensures Inv(StepAsk(s, n, q, name), R, B)
  {
  }

  /** The compilation of a query is what the node's walk over its cache returns. */
  lemma CompilationIsListed(cache: Cache, name: string, now: int, i: Info)
    ensures i in Compilation(cache, name, now) <==> Listed(i, cache, name, now)
  {
  }

  lemma CompileKeeps(s: State, q: nat, R: iset<Packet>, B: iset<Claim>)
    requires Inv(s, R, B) && Closed(B)
    requires q in s.pending && s.pending[q].cmd.Delayed? && s.pending[q].n in s.nodes
    ensures Inv(StepCompile(s, q), R, B)
  {
    var p := s.pending[q];
    var node, name := s.nodes[p.n], p.cmd.name;
    NodeChanges(s, p.n, node.(cache := Swept(node.cache, name, s.now)), R, B);
    forall i | i in Compilation(node.cache, name, s.now)
      ensures Glob(name, i.name) && Claim(p.n, i, s.now - FIVE_MINUTES) in B
    {
      CompilationIsListed(node.cache, name, s.now, i);
      var h := node.cache[i.name][i.id];
      assert Claim(p.n, i, h.stamp) in B;
      assert Claim(p.n, i, h.stamp).(since := s.now - FIVE_MINUTES) in B;
    }
  }

  lemma StoreKeeps(s: State, q: nat, R: iset<Packet>, B: iset<Claim>)
    requires Inv(s, R, B)
    requires q in s.pending && s.pending[q].cmd.Compiled? && s.pending[q].n in s.nodes
    ensures Inv(StepStore(s, q), R, B)
  {
  }

  lemma StepKeeps(s: State, l: Label, R: iset<Packet>, B: iset<Claim>)
    requires Inv(s, R, B) && Closed(B) && Covers(s, l, R, B)
    ensures Inv(Step(s, l), R, B)
  {
    match l
    case Pass(ms) =>
    case Register(n, name, port) =>
      if n in s.nodes {
        NodeChanges(s, n, s.nodes[n].(local := s.nodes[n].local[name := Local(s.now, port)]), R, B);
      }
    case Delete(n, name) => if n in s.nodes { NodeChanges(s, n, Forget(s.nodes[n], name), R, B); }
    case TickerFires(n, alive) => if n in s.nodes { NodeChanges(s, n, Ticked(s.nodes[n], alive, s.now), R, B); }
    case Ask(n, q, name) => if n in s.nodes { AskKeeps(s, n, q, name, R, B); }
    case Broadcast(q, ok) =>
    case Compile(q) =>
      if q in s.pending && s.pending[q].cmd.Delayed? && s.pending[q].n in s.nodes {
        CompileKeeps(s, q, R, B);
      }
    case Store(q) =>
      if q in s.pending && s.pending[q].cmd.Compiled? && s.pending[q].n in s.nodes {
        StoreKeeps(s, q, R, B);
      }
    case RecvQuery(n, from, name) =>
    case RecvFound(n, from, msg) =>
      if n in s.nodes && from in s.nodes && Found(msg, from, n) in s.net {
        NodeChanges(s, n, OnFound(s.nodes[n], msg, s.nodes[from].host, s.now), R, B);
      }
  }

  // ----- Where claims come from -----

  /** At step i of the run node `from` answered a query of node `to`, which it had in
      hand, with a service that was in its local table under that port. */
  ghost predicate RepliedAt(s0: State, ls: seq<Label>, i: nat, p: Packet) {
    i < |ls| && p.Found? && ls[i].RecvQuery? && ls[i].n == p.from && ls[i].from == p.to &&
    var s := Run(s0, ls[..i]);
    p.from in s.nodes && Query(ls[i].name, p.to) in s.net && p.msg in Replies(s.nodes[p.from], ls[i].name)
  }

  /** At step j node c.n received a packet that had been sent so, naming that provider. */
  ghost predicate ToldAt(s0: State, ls: seq<Label>, j: nat, p: Packet, c: Claim) {
    j < |ls| && p.Found? && p.to == c.n && ls[j] == RecvFound(c.n, p.from, p.msg) &&
    var s := Run(s0, ls[..j]);
    p.from in s.nodes && c.info == Info(p.msg.name, p.msg.id, Addr(s.nodes[p.from].host, p.msg.port))
        && s.now >= c.since
    && exists i: nat :: i < j && RepliedAt(s0, ls, i, p)
  }

  ghost predicate WasReplied(s0: State, ls: seq<Label>, p: Packet) {
    exists i: nat :: RepliedAt(s0, ls, i, p)
  }

  ghost predicate WasTold(s0: State, ls: seq<Label>, c: Claim) {
    exists j: nat, p: Packet :: ToldAt(s0, ls, j, p, c)
  }

  ghost function Replied(s0: State, ls: seq<Label>): iset<Packet> {
    iset p | WasReplied(s0, ls, p)
  }

  ghost function Told(s0: State, ls: seq<Label>): iset<Claim> {
    iset c | WasTold(s0, ls, c)
  }

  lemma RepliedLonger(s0: State, ls: seq<Label>, l: Label, i: nat, p: Packet)
    requires RepliedAt(s0, ls, i, p)
    ensures RepliedAt(s0, ls + [l], i, p)
  {
    assert (ls + [l])[..i] == ls[..i];
  }

  lemma ToldLonger(s0: State, ls: seq<Label>, l: Label, j: nat, p: Packet, c: Claim)
    requires ToldAt(s0, ls, j, p, c)
    ensures ToldAt(s0, ls + [l], j, p, c)
  {
    assert (ls + [l])[..j] == ls[..j];
    var i: nat :| i < j && RepliedAt(s0, ls, i, p);
    RepliedLonger(s0, ls, l, i, p);
  }

  lemma Longer(s0: State, ls: seq<Label>, l: Label)
    ensures Replied(s0, ls) <= Replied(s0, ls + [l]) && Told(s0, ls) <= Told(s0, ls + [l])
  {
    forall p | p in Replied(s0, ls) ensures p in Replied(s0, ls + [l]) {
      var i: nat :| RepliedAt(s0, ls, i, p);
      RepliedLonger(s0, ls, l, i, p);
    }
    forall c | c in Told(s0, ls) ensures c in Told(s0, ls + [l]) {
      var j: nat, p: Packet :| ToldAt(s0, ls, j, p, c);
      ToldLonger(s0, ls, l, j, p, c);
    }
  }

  lemma ToldClosed(s0: State, ls: seq<Label>)
    ensures Closed(Told(s0, ls))
  {
    var B := Told(s0, ls);
    forall c, t | c in B && t <= c.since ensures c.(since := t) in B {
      var j: nat, p: Packet :| ToldAt(s0, ls, j, p, c);
      assert ToldAt(s0, ls, j, p, c.(since := t));
    }
  }

  lemma StepCovered(s0: State, ls: seq<Label>, l: Label)
    requires NetIn(Run(s0, ls).net, Replied(s0, ls))
    ensures Covers(Run(s0, ls), l, Replied(s0, ls + [l]), Told(s0, ls + [l]))
  {
    var s, all := Run(s0, ls), ls + [l];
    assert all[..|ls|] == ls;
    if l.RecvQuery? && l.n in s.nodes && Query(l.name, l.from) in s.net {
      forall m | m in Replies(s.nodes[l.n], l.name) ensures Found(m, l.n, l.from) in Replied(s0, all) {
        assert RepliedAt(s0, all, |ls|, Found(m, l.n, l.from));
      }
    }
    if l.RecvFound? && l.from in s.nodes && Found(l.msg, l.from, l.n) in s.net {
      var p := Found(l.msg, l.from, l.n);
      assert p in Replied(s0, ls);
      var i: nat :| RepliedAt(s0, ls, i, p);
      RepliedLonger(s0, ls, l, i, p);
      assert ToldAt(s0, all, |ls|, p,
             Claim(l.n, Info(l.msg.name, l.msg.id, Addr(s.nodes[l.from].host, l.msg.port)), s.now));
    }
  }

  lemma More(s: State, R: iset<Packet>, B: iset<Claim>, R2: iset<Packet>, B2: iset<Claim>)
    requires Inv(s, R, B) && R <= R2 && B <= B2
    ensures Inv(s, R2, B2)
  {
  }

  lemma {:induction false} RunKeeps(s0: State, ls: seq<Label>)
    requires Starts(s0)
    ensures Inv(Run(s0, ls), Replied(s0, ls), Told(s0, ls))
  {
    if ls != [] {
      var init, l := ls[..|ls| - 1], ls[|ls| - 1];
      RunKeeps(s0, init);
      assert init + [l] == ls;
      Longer(s0, init, l);
      More(Run(s0, init), Replied(s0, init), Told(s0, init), Replied(s0, ls), Told(s0, ls));
      StepCovered(s0, init, l);
      ToldClosed(s0, ls);
      StepKeeps(Run(s0, init), l, Replied(s0, ls), Told(s0, ls));
    }
  }

  // ----- What follows for every run -----

  /** Every returned entry matches the query and names a provider that, at an earlier
      step, answered this node while its local table held that service under that port.
      The answer arrived at most five minutes before the entry was compiled, and the
      result was returned less than fifteen seconds after it was cached; when compiling
      and caching happen at the same time, that makes five minutes and fifteen seconds. */
  lemma ReturnedWasAnnounced(s0: State, ls: seq<Label>, a: Answer, info: Info)
    returns (sent: nat, got: nat, provider: nat)
    requires Starts(s0) && a in Run(s0, ls).answers && info in a.infos
    ensures Glob(a.name, info.name)
    ensures sent < got < |ls|
    ensures ls[sent].RecvQuery? && ls[sent].n == provider && ls[sent].from == a.n
    ensures ls[got].RecvFound? && ls[got].n == a.n && ls[got].from == provider
    ensures var atReply, later := Run(s0, ls[..sent]), Run(s0, ls[..got]);
            && provider in atReply.nodes && provider in later.nodes
            && info.id == atReply.nodes[provider].id
            && info.name in atReply.nodes[provider].local
            && info.addr == Addr(later.nodes[provider].host, atReply.nodes[provider].local[info.name].port)
            && Glob(ls[sent].name, info.name)
            && later.now >= a.compiledAt - FIVE_MINUTES
            && a.at - later.now < FIVE_MINUTES + FIFTEEN_SECONDS + (a.cachedAt - a.compiledAt)
  {
    RunKeeps(s0, ls);
    var c := Claim(a.n, info, a.compiledAt - FIVE_MINUTES);
    assert AnswerOk(a, Told(s0, ls));
    assert c in Told(s0, ls);
    var j: nat, p: Packet :| ToldAt(s0, ls, j, p, c);
    var i: nat :| i < j && RepliedAt(s0, ls, i, p);
    sent, got, provider := i, j, p.from;
  }

  /** A query whose broadcast failed has been asked and is not pending. */
  ghost predicate Dropped(s: State, q: nat) {
    q in s.asked && q !in s.pending
  }

  ghost predicate Answered(answers: set<Answer>, q: nat) {
    exists a :: a in answers && a.q == q
  }

  lemma DroppedStays(s: State, l: Label, q: nat)
    requires Dropped(s, q) && !Answered(s.answers, q)
    ensures Dropped(Step(s, l), q) && !Answered(Step(s, l).answers, q)
  {
  }

  lemma {:induction false} DroppedForGood(s: State, q: nat, more: seq<Label>)
    requires Dropped(s, q) && !Answered(s.answers, q)
    ensures Dropped(Run(s, more), q) && !Answered(Run(s, more).answers, q)
  {
    if more != [] {
      DroppedForGood(s, q, more[..|more| - 1]);
      DroppedStays(Run(s, more[..|more| - 1]), more[|more| - 1], q);
    }
  }

  /** A failed broadcast leaves its query unanswered in every continuation. */
  lemma {:induction false} DroppedIsNeverAnswered(s: State, q: nat, more: seq<Label>)
    requires q in s.asked && q in s.pending && s.pending[q].cmd.Queued? && !Answered(s.answers, q)
    ensures !Answered(Run(Step(s, Broadcast(q, false)), more).answers, q)
    ensures Dropped(Run(Step(s, Broadcast(q, false)), more), q)
  {
    DroppedForGood(Step(s, Broadcast(q, false)), q, more);
  }

  // ----- Exactly which queries can be answered -----

  /** This step is the failed broadcast of q. */
  ghost predicate Drops(s: State, l: Label, q: nat) {
    l == Broadcast(q, false) && q in s.pending && s.pending[q].cmd.Queued?
  }

  ghost predicate DropsAt(s0: State, ls: seq<Label>, k: nat, q: nat) {
    k < |ls| && Drops(Run(s0, ls[..k]), ls[k], q)
  }

  ghost predicate WasDropped(s0: State, ls: seq<Label>, q: nat) {
    exists k: nat :: DropsAt(s0, ls, k, q)
  }

  ghost predicate AnsweredAfter(s: State, more: seq<Label>, q: nat) {
    Answered(Run(s, more).answers, q)
  }

  ghost predicate CanBeAnswered(s: State, q: nat) {
    exists more: seq<Label> :: AnsweredAfter(s, more, q)
  }

  /** A query that was asked is pending at a node that exists, or answered, or dropped. */
  ghost predicate Placed(s: State, q: nat, dropped: bool) {
    && (q in s.pending ==> q in s.asked && s.pending[q].n in s.nodes)
    && (q in s.asked ==> q in s.pending || Answered(s.answers, q) || dropped)
    && (dropped ==> q in s.asked && q !in s.pending)
  }

  lemma StepPlaces(s: State, l: Label, q: nat, dropped: bool)
    requires Placed(s, q, dropped)
    ensures Placed(Step(s, l), q, dropped || Drops(s, l, q))
  {
    var t := Step(s, l);
    if Answered(s.answers, q) {
      var a :| a in s.answers && a.q == q;
      assert a in t.answers;
    }
    if l.Store? && l.q == q && q in s.pending && s.pending[q].cmd.Compiled? && s.pending[q].n in s.nodes {
      StoreAnswers(s, q);
    }
    if l.Ask? && l.q == q && q !in s.asked && l.n in s.nodes && q !in t.pending {
      var r := Trimmed(s.nodes[l.n].results)[l.name];
      assert Answer(q, l.n, l.name, r.infos, r.compiledAt, r.stamp, s.now) in t.answers;
    }
  }

  lemma StoreAnswers(s: State, q: nat)
    requires q in s.pending && s.pending[q].cmd.Compiled? && s.pending[q].n in s.nodes
    ensures Answered(Step(s, Store(q)).answers, q)
  {
    var p := s.pending[q];
    assert Answer(q, p.n, p.cmd.name, p.cmd.infos, p.cmd.at, s.now, s.now) in Step(s, Store(q)).answers;
  }

  lemma DroppedLonger(s0: State, ls: seq<Label>, l: Label, q: nat)
    ensures WasDropped(s0, ls + [l], q) <==> WasDropped(s0, ls, q) || Drops(Run(s0, ls), l, q)
  {
    var all := ls + [l];
    assert all[..|ls|] == ls;
    if WasDropped(s0, ls, q) {
      var k: nat :| DropsAt(s0, ls, k, q);
      assert all[..k] == ls[..k];
      assert DropsAt(s0, all, k, q);
    }
    if Drops(Run(s0, ls), l, q) {
      assert DropsAt(s0, all, |ls|, q);
    }
    if WasDropped(s0, all, q) {
      var k: nat :| DropsAt(s0, all, k, q);
      if k < |ls| {
        assert all[..k] == ls[..k];
        assert DropsAt(s0, ls, k, q);
      }
    }
  }

  lemma {:induction false} RunPlaces(s0: State, ls: seq<Label>, q: nat)
    requires Starts(s0)
    ensures Placed(Run(s0, ls), q, WasDropped(s0, ls, q))
  {
    if ls != [] {
      var init, l := ls[..|ls| - 1], ls[|ls| - 1];
      assert init + [l] == ls;
      RunPlaces(s0, init, q);
      StepPlaces(Run(s0, init), l, q, WasDropped(s0, init, q));
      DroppedLonger(s0, init, l, q);
    }
  }

  lemma {:induction false} RunFirst(s: State, l: Label, more: seq<Label>)
    ensures Run(s, [l] + more) == Run(Step(s, l), more)
  {
    var all := [l] + more;
    if more == [] {
      assert all[..|all| - 1] == [];
    } else {
      RunFirst(s, l, more[..|more| - 1]);
      assert all[..|all| - 1] == [l] + more[..|more| - 1];
    }
  }

  ghost predicate AtNode(s: State, q: nat) {
    q in s.pending && s.pending[q].n in s.nodes
  }

  lemma CompiledIsAnswered(s: State, q: nat) returns (more: seq<Label>)
    requires AtNode(s, q) && s.pending[q].cmd.Compiled?
    ensures AnsweredAfter(s, more, q)
  {
    more := [Store(q)] + [];
    RunFirst(s, Store(q), []);
    StoreAnswers(s, q);
  }

  lemma DelayedIsAnswered(s: State, q: nat) returns (more: seq<Label>)
    requires AtNode(s, q) && s.pending[q].cmd.Delayed?
    ensures AnsweredAfter(s, more, q)
  {
    var due := s.pending[q].cmd.since + DELAY;
    var gap: nat := if s.now < due then due - s.now else 0;
    var t := Step(s, Pass(gap));
    var rest := CompiledIsAnswered(Step(t, Compile(q)), q);
    RunFirst(t, Compile(q), rest);
    more := [Pass(gap)] + ([Compile(q)] + rest);
    RunFirst(s, Pass(gap), [Compile(q)] + rest);
  }

  lemma PendingIsAnswered(s: State, q: nat) returns (more: seq<Label>)
    requires AtNode(s, q)
    ensures AnsweredAfter(s, more, q)
  {
    match s.pending[q].cmd
    case Queued(_) =>
      var rest := DelayedIsAnswered(Step(s, Broadcast(q, true)), q);
      more := [Broadcast(q, true)] + rest;
      RunFirst(s, Broadcast(q, true), rest);
    case Delayed(_, _) => more := DelayedIsAnswered(s, q);
    case Compiled(_, _, _) => more := CompiledIsAnswered(s, q);
  }

  /** In every run a query that was asked and not answered yet can be answered exactly
      while it is pending, and it is pending exactly when its broadcast has not failed. */
  lemma AnswerableIff(s0: State, ls: seq<Label>, q: nat)
    requires Starts(s0) && q in Run(s0, ls).asked && !Answered(Run(s0, ls).answers, q)
    ensures CanBeAnswered(Run(s0, ls), q) <==> q in Run(s0, ls).pending
    ensures CanBeAnswered(Run(s0, ls), q) <==> !WasDropped(s0, ls, q)
  {
    var s := Run(s0, ls);
    RunPlaces(s0, ls, q);
    if q in s.pending {
      var more := PendingIsAnswered(s, q);
      assert AnsweredAfter(s, more, q);
    } else {
      forall more: seq<Label> ensures !AnsweredAfter(s, more, q) {
        DroppedForGood(s, q, more);
      }
    }
  }
}
