/**
 One server as the program writes it: an object whose handlers and loops
 update its fields. Every method is proved against the step relation of
 module Protocol.

 The rest of the system is seen through `trace`, the sequence of all actions
 taken anywhere so far. Between two steps of this server's scout thread any
 other steps may happen, including steps of this server's own acceptor and
 learner threads (Environment). A message exchange either fails to be sent,
 loses its reply, or is answered by the acceptor it was sent to. Which of these
 happens, and which steps others take, is up to `env`, about which nothing is
 assumed; `outbox` is the sequence of messages handed to connections.
 */
module Server {
  import opened Common
  import opened Messages
  import opened Learner
  import opened Protocol
  import opened Runs
  import opened EveryRun
  import opened AcceptCount
  import opened Passes
  import Progress
  import Quorum
  import ServerList

  datatype ServerAddress = ServerAddress(ip: string, port: int)

  /** Two results of a call in progress: jump back to its start, and not over yet. */
  const RESTART := -4
  const RUNNING := -3

  datatype Outcome = Won | TooFew | StillCompeting

  /** `more` is a possible continuation of `acts` by steps of others. */
  predicate Interleaves(cfg: Config, acts: seq<Action>, more: seq<Action>, s: Id) {
    CanRun(cfg, acts + more) && forall a | a in more :: Foreign(a, s)
  }

  /** The run acts is possible and leads to st; stated so that it is unfolded only on demand. */
  ghost predicate Reached(cfg: Config, acts: seq<Action>, st: State) {
    forall b :: Opens(Runs, b) ==> CanRun(cfg, acts) && Run(cfg, acts) == st
  }

  /** Action a is possible in st and leads to st'. */
  ghost predicate Stepped(cfg: Config, st: State, a: Action, st': State) {
    forall b :: Opens(Steps, b) ==> Shape(cfg, st) && Enabled(cfg, st, a) && st' == Next(cfg, st, a)
  }

  ghost predicate HasServer(st: State, s: Id) {
    s in st.acceptors && s in st.scouts && s in st.learners
  }

  lemma ReachedServers(cfg: Config, acts: seq<Action>, st: State)
    requires Reached(cfg, acts, st)
    ensures forall s | s in cfg.servers :: HasServer(st, s)
  {
    assert Opens(Runs, true);
  }

  lemma Append(cfg: Config, acts: seq<Action>, st: State, a: Action)
    requires Reached(cfg, acts, st) && Enabled(cfg, st, a)
    ensures Shape(cfg, st) && Reached(cfg, acts + [a], Next(cfg, st, a))
  {
    assert Opens(Runs, true);
    assert (acts + [a])[..|acts|] == acts;
  }

  lemma Step(cfg: Config, st: State, a: Action)
    requires Shape(cfg, st) && Enabled(cfg, st, a)
    ensures Stepped(cfg, st, a, Next(cfg, st, a))
  {
  }

  /** The next state of the system. */
  method After(cfg: Config, ghost acts: seq<Action>, st: State, a: Action) returns (next: State)
    requires Reached(cfg, acts, st) && Enabled(cfg, st, a)
    ensures Reached(cfg, acts + [a], next) && Stepped(cfg, st, a, next)
  {
    Append(cfg, acts, st, a);
    Step(cfg, st, a);
    next := Next(cfg, st, a);
  }

  lemma {:induction false} InterleavingKeeps(cfg: Config, acts: seq<Action>, more: seq<Action>, s: Id)
    requires CanRun(cfg, acts) && Interleaves(cfg, acts, more, s) && s in cfg.servers
    ensures Run(cfg, acts + more).scouts[s] == Run(cfg, acts).scouts[s]
    ensures Run(cfg, acts).votes <= Run(cfg, acts + more).votes
    ensures Run(cfg, acts).learns <= Run(cfg, acts + more).learns
    decreases |more|
  {
    if more == [] {
      assert acts + more == acts;
    } else {
      var init, a := more[..|more| - 1], more[|more| - 1];
      assert (acts + more)[..|acts + more| - 1] == acts + init;
      assert a in more;
      InterleavingKeeps(cfg, acts, init, s);
      ForeignKeeps(cfg, Run(cfg, acts + init), a, s);
    }
  }

  /** What an answered or unanswered prepare message does, as seen by its scout. */
  lemma PrepareSeen(cfg: Config, st: State, s: Id, p: Id, answered: bool, st': State)
    requires Stepped(cfg, st, if answered then PrepareReply(s, p) else PrepareLost(s, p), st')
    requires HasServer(st, s) && HasServer(st, p)
    ensures s in st'.scouts
    ensures st'.scouts[s] == OnPromise(st.scouts[s], p,
              if answered then P1b(st.acceptors[p], st.scouts[s].number) else NO_REPLY)
  {
    assert Opens(Steps, true);
  }

  /** The same for an accept message; an agreeing reply stands for a vote. */
  lemma AcceptSeen(cfg: Config, st: State, s: Id, p: Id, answered: bool, st': State)
    requires Stepped(cfg, st, if answered then AcceptReply(s, p) else AcceptLost(s, p), st')
    requires HasServer(st, s) && HasServer(st, p)
    ensures s in st'.scouts && st.votes <= st'.votes
    ensures var sc := st.scouts[s];
            var m := if answered then P2b(st.acceptors[p], sc.number) else NO_REPLY;
            && st'.scouts[s] == OnAccepted(sc, p, m)
            && (m.agree != 0 ==> Vote(p, sc.number, sc.proposal) in st'.votes)
  {
    assert Opens(Steps, true);
  }

  /** The same call, in the same phase, with the same number and proposal. */
  predicate SameProposal(a: Scout, b: Scout) {
    && a.phase == b.phase && a.number == b.number && a.slotIn == b.slotIn
    && a.calls == b.calls && a.request == b.request && a.proposal == b.proposal && a.own == b.own
  }

  /** The same call, in the same phase, with the same number. */
  predicate SameCall(a: Scout, b: Scout) {
    a.phase == b.phase && a.number == b.number && a.slotIn == b.slotIn && a.calls == b.calls && a.request == b.request
  }

  /** What this server's other steps do to its scout, and to the commands handed to learners. */
  lemma LocalSeen(cfg: Config, st: State, a: Action, st': State)
    requires Stepped(cfg, st, a, st')
    requires a.BeginCall? || a.Abandon? || a.Retry? || a.Decide? || a.EndAccept?
    requires HasServer(st, a.s)
    ensures a.s in st'.scouts
    ensures a.Decide? || a.BeginCall? || a.Abandon? || a.Retry? ==>
              st'.learners == st.learners && st'.acceptors == st.acceptors
    ensures var sc, sc' := st.scouts[a.s], st'.scouts[a.s];
            match a
            case BeginCall(s, c, o) => sc' == BeginScout(sc, s, c, o)
            case Abandon(s) => sc' == sc.(phase := Idle)
            case Retry(s) => sc' == RetryScout(sc)
            case Decide(s, id) => sc' == DecideScout(sc, st.learners[s].decisions, id)
            case EndAccept(s) =>
              && sc' == AfterAccept(cfg, sc)
              && (AcceptResult(cfg, sc.active, |sc.accepts|) == 1 ==> sc.proposal in st'.learns)
  {
    assert Opens(Steps, true);
  }

  /** What the count of the accept phase is worth when no reply of the pass was lost. */
  lemma AcceptCountSeen(cfg: Config, acts: seq<Action>, st: State, s: Id)
    requires Reached(cfg, acts, st) && cfg.Valid() && InPhase(cfg, st, s, Accepting)
    requires CanRun(cfg, acts) && Counted(cfg, acts) && HandledOnce(cfg, acts)
    requires !Unheard(st, st.scouts[s].number)
    ensures var sc := st.scouts[s];
            && (sc.accepts == {} <==> !Voted(st, sc.number))
            && (cfg.Majority(|sc.accepts|) <==> Chosen(cfg, st, sc.number, sc.proposal))
  {
    assert Opens(Runs, true);
    AcceptCountIsExact(cfg, acts, s);
  }

  /** What is handed to the learners was accepted by a majority. */
  lemma LearnsSeen(cfg: Config, acts: seq<Action>, st: State, c: Command)
    requires Reached(cfg, acts, st) && c in st.learns
    ensures exists n :: Chosen(cfg, st, n, c)
  {
    assert Opens(Runs, true);
    RunVoted(cfg, acts);
    assert ChosenSomewhere(cfg, st, c);
  }

  /**
   In a settled environment a pass has the effect of its answered messages
   alone. Unfolded only where a proof opens it.
   */
  ghost predicate CalmPass(accept: bool, env: Env, k: nat, t0: nat, st0: State, st: State, s: Id, visited: set<Id>) {
    forall b :: Opens(Calms, b) ==>
      (Settled(env, k, t0) && s in st0.scouts && (accept || st0.scouts[s].promisers == {}) ==>
         if accept then Progress.Accepted(st0, st, s, visited) else Progress.Prepared(st0, st, s, visited))
  }

  lemma CalmBegins(accept: bool, env: Env, k: nat, t0: nat, st: State, s: Id)
    ensures CalmPass(accept, env, k, t0, st, st, s, {})
  {
    if s in st.scouts && st.scouts[s].promisers == {} { Progress.PreparedNothing(st, s); }
    if s in st.scouts { Progress.AcceptedNothing(st, s); }
  }

  lemma CalmSent(cfg: Config, accept: bool, env: Env, k: nat, t0: nat, t: nat, st0: State, st: State, st': State,
                 s: Id, p: Id, visited: set<Id>)
    requires CalmPass(accept, env, k, t0, st0, st, s, visited) && t0 <= t && p !in visited
    requires env.fate(k, p) != Unsent
    requires env.others(t) == [] ==> Stepped(cfg, st, StepFor(accept, env.fate(k, p), s, p), st')
    ensures CalmPass(accept, env, k, t0, st0, st', s, visited + {p})
  {
    assert Opens(Calms, true) && Opens(Steps, true);
    if Settled(env, k, t0) && s in st0.scouts && (accept || st0.scouts[s].promisers == {}) {
      assert env.fate(k, p) == Answered;
      if accept {
        Progress.AcceptedMore(cfg, st0, st, s, visited, p);
      } else {
        Progress.PreparedMore(cfg, st0, st, s, visited, p);
      }
    }
  }

  lemma CalmUnsent(accept: bool, env: Env, k: nat, t0: nat, t: nat, st0: State, st: State, st': State,
                   s: Id, visited: set<Id>)
    requires CalmPass(accept, env, k, t0, st0, st, s, visited) && t0 <= t
    requires env.others(t) == [] ==> st' == st
    ensures CalmPass(accept, env, k, t0, st0, st', s, visited)
  {
    assert Opens(Calms, true);
  }

  lemma CalmEnds(accept: bool, env: Env, k: nat, t0: nat, st0: State, st: State, s: Id, visited: set<Id>)
    requires CalmPass(accept, env, k, t0, st0, st, s, visited)
    requires Settled(env, k, t0) && s in st0.scouts && (accept || st0.scouts[s].promisers == {})
    ensures if accept then Progress.Accepted(st0, st, s, visited) else Progress.Prepared(st0, st, s, visited)
  {
    assert Opens(Calms, true);
  }

  /**
   What a pass changes: the moment, the run, the messages sent, the stubs, the
   other map of stubs, the state, and who was sent to.
   */
  datatype View = View(tick: nat, acts: seq<Action>, outbox: seq<Sent>, stubs: set<Id>, mates: set<Id>,
                       st: State, visited: set<Id>)

  /** The other map of stubs has lost those whose send failed so far. Unfolded only where a proof opens it. */
  ghost predicate MatesDropped(w: Sweep, rest: set<Id>, was: set<Id>, now: set<Id>) {
    forall b :: Opens(Mates, b) ==> rest <= w.all && now == was - (w.all - rest - Kept(w.env, w.k, w.all))
  }

  lemma MatesBegin(w: Sweep, mates: set<Id>)
    ensures MatesDropped(w, w.all, mates, mates)
  {
  }

  lemma MatesMore(w: Sweep, rest: set<Id>, was: set<Id>, now: set<Id>, p: Id)
    requires MatesDropped(w, rest, was, now) && p in rest
    ensures MatesDropped(w, rest - {p}, was, if w.env.fate(w.k, p) != Unsent then now else now - {p})
  {
    assert Opens(Mates, true);
  }

  lemma MatesEnd(w: Sweep, was: set<Id>, now: set<Id>)
    requires MatesDropped(w, {}, was, now)
    ensures now == was - (w.all - Kept(w.env, w.k, w.all))
  {
    assert Opens(Mates, true);
    assert w.all - {} == w.all;
  }

  /** The k-th pass of server s has got as far as `rest`. */
  ghost predicate Underway(accept: bool, env: Env, k: nat, s: Id, b: PassStart, rest: set<Id>, v: View) {
    && b.sweep.env == env && b.sweep.k == k && b.tick <= v.tick && b.acts <= v.acts
    && Swept(b.sweep, rest, v.visited, v.stubs, v.outbox)
    && Asked(accept, env, k, s, v.visited, v.acts, |b.acts|)
    && CalmPass(accept, env, k, b.tick, b.st, v.st, s, v.visited)
    && MatesDropped(b.sweep, rest, b.mates, v.mates)
  }

  /** One exchange: the step it took, if the message was sent, and that nothing else happened if others stayed put. */
  ghost predicate Exchange(cfg: Config, env: Env, a: Action, sent: bool, v: View, w: View) {
    && v.tick <= w.tick && v.acts <= w.acts
    && (sent ==> exists mid: seq<Action> :: v.acts <= mid && w.acts == mid + [a])
    && (env.others(v.tick) == [] ==> if sent then Stepped(cfg, v.st, a, w.st) else w.st == v.st)
  }

  lemma UnderwayBegins(accept: bool, env: Env, k: nat, s: Id, m: PaxosMsg, v: View)
    requires v.visited == {}
    ensures Underway(accept, env, k, s, PassStart(Sweep(env, k, v.stubs, m, v.outbox), v.mates, v.st, v.acts, v.tick), v.stubs, v)
  {
    SweepBegins(Sweep(env, k, v.stubs, m, v.outbox));
    MatesBegin(Sweep(env, k, v.stubs, m, v.outbox), v.mates);
    AskedBegins(accept, env, k, s, v.acts);
    CalmBegins(accept, env, k, v.tick, v.st, s);
  }

  /** An exchange with the next stub takes the pass one stub further. */
  lemma UnderwayOn(cfg: Config, accept: bool, env: Env, k: nat, s: Id, b: PassStart, rest: set<Id>, sent: bool, v: View, w: View)
    requires Underway(accept, env, k, s, b, rest, v) && rest != {}
    requires sent <==> env.fate(k, Least(rest)) != Unsent
    requires Exchange(cfg, env, StepFor(accept, env.fate(k, Least(rest)), s, Least(rest)), sent, v, w)
    requires w.visited == if sent then v.visited + {Least(rest)} else v.visited
    requires w.outbox == if sent then v.outbox + [Sent(Least(rest), b.sweep.msg)] else v.outbox
    requires w.stubs == if sent then v.stubs else v.stubs - {Least(rest)}
    requires w.mates == if sent then v.mates else v.mates - {Least(rest)}
    ensures Underway(accept, env, k, s, b, rest - {Least(rest)}, w)
    ensures |w.visited| == if sent then |v.visited| + 1 else |v.visited|
  {
    var p := Least(rest);
    SweepNext(b.sweep, rest, v.visited, v.stubs, v.outbox, p);
    MatesMore(b.sweep, rest, b.mates, v.mates, p);
    if sent {
      SweepSent(b.sweep, rest, v.visited, v.stubs, v.outbox);
      var a := StepFor(accept, env.fate(k, p), s, p);
      var mid: seq<Action> :| v.acts <= mid && w.acts == mid + [a];
      AskedNext(accept, env, k, s, v.visited, v.acts, |b.acts|, p, mid);
      CalmSent(cfg, accept, env, k, b.tick, v.tick, b.st, v.st, w.st, s, p, v.visited);
    } else {
      SweepFailed(b.sweep, rest, v.visited, v.stubs, v.outbox);
      AskedMore(accept, env, k, s, v.visited, v.acts, |b.acts|, w.acts);
      CalmUnsent(accept, env, k, b.tick, v.tick, b.st, v.st, w.st, s, v.visited);
    }
  }

  /**
   How a call of scout sc ends with result r, or starts again (RESTART): 0 only
   with too few stubs left; 1 with a command handed out, or with an own command
   of this order that met a partial reject or too few answers.
   */
  ghost predicate Ended(cfg: Config, sc: Scout, stubs: nat, learns: set<Command>, r: int, customerId: int, orderId: int) {
    && (r == RESTART ==> sc.phase == Preparing && sc == StartPrepare(sc))
    && (r == 0 || r == 1 ==> sc.phase == Idle)
    && (r == 0 ==> 2 * stubs <= cfg.numOfAcceptors)
    && (r == 1 && sc.own ==> sc.proposal.customerId == customerId && sc.proposal.orderId == orderId)
    && (r == 1 ==>
          var result := AcceptResult(cfg, sc.active, |sc.accepts|);
          if result == 1 then sc.proposal in learns else sc.own && result != 0)
  }

  /** The result of the phase 2 that a scout has just finished. */
  function ResultOf(cfg: Config, sc: Scout): int { AcceptResult(cfg, sc.active, |sc.accepts|) }

  /** What follows from the result of phase 2, for an own and for a reported command. */
  function AfterResult(own: bool, result: int): int {
    if result == 1 then 1
    else if own then (if result == 0 then RESTART else 1)
    else if result == -2 then 0 else RESTART
  }

  lemma AfterAcceptEnds(cfg: Config, sc: Scout, learns: set<Command>, customerId: int, orderId: int)
    requires sc.phase == Accepting && |sc.accepts| <= sc.active
    requires sc.own ==> sc.proposal.customerId == customerId && sc.proposal.orderId == orderId
    requires var res := AcceptResult(cfg, sc.active, |sc.accepts|); res == 1 ==> sc.proposal in learns
    ensures var res := AcceptResult(cfg, sc.active, |sc.accepts|);
            && Ended(cfg, AfterAccept(cfg, sc), sc.active, learns, AfterResult(sc.own, res), customerId, orderId)
            && (AfterResult(sc.own, res) != RESTART ==> ResultOf(cfg, AfterAccept(cfg, sc)) == res)
  {
    AcceptResultMeans(cfg, sc.active, |sc.accepts|);
  }

  lemma EndedStays(cfg: Config, sc: Scout, stubs: nat, stubs': nat, learns: set<Command>, learns': set<Command>,
                   r: int, customerId: int, orderId: int)
    requires Ended(cfg, sc, stubs, learns, r, customerId, orderId) && (r == 0 ==> stubs' <= stubs)
    requires r == 1 && AcceptResult(cfg, sc.active, |sc.accepts|) == 1 ==> sc.proposal in learns'
    ensures Ended(cfg, sc, stubs', learns', r, customerId, orderId)
  {
  }

  /** Of these stubs only some whose send failed in the passes k0 .. k1 - 1 are gone. Unfolded only where a proof opens it. */
  ghost predicate Dropped(env: Env, k0: nat, k1: nat, stubs: set<Id>, left: set<Id>) {
    forall b :: Opens(Drops, b) ==> k0 <= k1 && KeptOver(env, k0, k1, stubs) <= left <= stubs
  }

  lemma DroppedMeans(env: Env, k0: nat, k1: nat, stubs: set<Id>, left: set<Id>)
    requires Dropped(env, k0, k1, stubs, left)
    ensures k0 <= k1 && KeptOver(env, k0, k1, stubs) <= left <= stubs
  {
    assert Opens(Drops, true);
  }

  lemma DroppedThen(env: Env, k0: nat, k1: nat, k2: nat, stubs: set<Id>, mid: set<Id>, left: set<Id>)
    requires Dropped(env, k0, k1, stubs, mid) && Dropped(env, k1, k2, mid, left)
    ensures Dropped(env, k0, k2, stubs, left)
  {
    assert Opens(Drops, true);
    KeptOverCompose(env, k0, k1, k2, stubs, mid, left);
  }

  lemma DroppedNone(env: Env, k: nat, stubs: set<Id>)
    ensures Dropped(env, k, k, stubs, stubs)
  {
    KeptOverNone(env, k, stubs);
  }

  lemma DroppedOver(env: Env, k0: nat, k1: nat, stubs: set<Id>)
    requires k0 <= k1
    ensures Dropped(env, k0, k1, stubs, KeptOver(env, k0, k1, stubs))
  {
  }

  /** A pass over one map of stubs drops from the other only what failed in it. */
  lemma DropOne(env: Env, k: nat, stubs: set<Id>, others: set<Id>)
    ensures Dropped(env, k, k + 1, stubs, stubs - (others - Kept(env, k, others)))
    ensures Dropped(env, k, k + 1, stubs, Kept(env, k, stubs))
  {
  }

  lemma CountsIn(a: set<Id>, b: set<Id>)
    requires a <= b
    ensures |a| <= |b|
  {
    Quorum.SubsetSize(a, b);
  }

  /** A pass that all of live answered won, or it was the first and the next number will overtake all of live. */
  ghost predicate PassDone(cfg: Config, st: State, s: Id, round: nat, live: set<Id>) {
    && s in st.scouts && 2 * st.scouts[s].active > cfg.numOfAcceptors
    && (2 * st.scouts[s].promisedNum > cfg.numOfAcceptors ==> Progress.Ready(cfg, st, s, live))
    && (2 * st.scouts[s].promisedNum <= cfg.numOfAcceptors ==>
          && round == 0 && st.scouts[s].highest >= st.scouts[s].number
          && forall p | p in live :: p in st.acceptors && st.acceptors[p].promised <= st.scouts[s].highest)
  }

  lemma RetriedOvertakes(st: State, st': State, s: Id, live: set<Id>)
    requires s in st.scouts && s in st'.scouts && st.scouts[s].phase == Preparing
    requires st'.scouts[s] == RetryScout(st.scouts[s]) && st'.acceptors == st.acceptors
    requires st.scouts[s].highest >= st.scouts[s].number
    requires forall p | p in live :: p in st.acceptors && st.acceptors[p].promised <= st.scouts[s].highest
    ensures Progress.Overtakes(st', s, live)
  {
  }

  /** What is known after a pass in a settled environment: it won, or the next number will overtake all of live. */
  lemma CalmPassDone(cfg: Config, env: Env, k0: nat, t0: nat, k: nat, t: nat, all: set<Id>, stubs: set<Id>, round: nat,
                     st: State, st': State, s: Id)
    requires Settled(env, k0, t0) && k0 <= k && t0 <= t && HasServer(st, s) && s in cfg.servers
    requires var live := Kept(env, k0, all);
             && 2 * |live| > cfg.numOfAcceptors && stubs <= st.acceptors.Keys && st.scouts[s].phase == Preparing
             && stubs == (if round == 0 then all else live) && (round == 0 ==> k == k0)
             && (if round == 0 then st.scouts[s] == StartPrepare(st.scouts[s])
                 else round == 1 && Progress.Overtakes(st, s, live))
             && (Settled(env, k, t) && st.scouts[s].promisers == {} ==> Progress.Prepared(st, st', s, Kept(env, k, stubs)))
    ensures var live := Kept(env, k0, all);
            Kept(env, k, stubs) == live && PassDone(cfg, st', s, round, live)
  {
    var live := Kept(env, k0, all);
    SettledLater(env, k0, t0, k, t);
    KeptAgain(env, k0, t0, k, all);
    if round == 0 {
      Progress.FirstPass(cfg, st, st', s, live);
    } else {
      Progress.SecondPass(cfg, st, st', s, live);
    }
  }

  /** What a pass is doing, for its proof: its sweep, and where and when it started. */
  datatype PassStart = PassStart(sweep: Sweep, mates: set<Id>, st: State, acts: seq<Action>, tick: nat)

  lemma OneMore(s: set<Id>, p: Id)
    requires p !in s
    ensures |s + {p}| == |s| + 1
  {
  }

  lemma OnPromiseKeeps(sc: Scout, p: Id, m: PaxosMsg)
    ensures OnPromise(sc, p, m).number == sc.number && OnPromise(sc, p, m).slotIn == sc.slotIn
  {
  }

  /** What the other threads and servers do next: `wanted`, if it is possible. */
  method AnyInterleaving(cfg: Config, acts: seq<Action>, st: State, s: Id, wanted: seq<Action>)
    returns (more: seq<Action>, next: State)
    requires Reached(cfg, acts, st) && s in cfg.servers
    ensures Interleaves(cfg, acts, wanted, s) ==> more == wanted
    ensures wanted == [] ==> next == st
    ensures Reached(cfg, acts + more, next) && HasServer(st, s) && HasServer(next, s)
    ensures next.scouts[s] == st.scouts[s] && st.votes <= next.votes && st.learns <= next.learns
  {
    assert Opens(Runs, true);
    assert acts + [] == acts;
    assert Interleaves(cfg, acts, [], s);
    more := if Interleaves(cfg, acts, wanted, s) then wanted else [];
    InterleavingKeeps(cfg, acts, more, s);
    next := Run(cfg, acts + more);
  }

  /** cs and fs are what the drain loop appends for slots lo..k-1. */
  ghost predicate Drained(d: map<int, Command>, lo: int, k: int, c: Command, cs: seq<Command>, fs: seq<Line>) {
    && lo <= k && |cs| == |fs| == k - lo
    && (forall i | lo <= i < k :: i in d)
    && (forall j | 0 <= j < |cs| :: cs[j] == d[lo + j])
    && (forall j | 0 <= j < |fs| :: fs[j] == Line(lo + j, c))
  }

  lemma DrainStep(d: map<int, Command>, lo: int, k: int, c: Command, cs: seq<Command>, fs: seq<Line>)
    requires Drained(d, lo, k, c, cs, fs) && k in d
    ensures Drained(d, lo, k + 1, c, cs + [d[k]], fs + [Line(k, c)])
    ensures (set i | i in d && i >= k + 1) < (set i | i in d && i >= k)
  {
    Shrinks(d, k);
    forall j | 0 <= j < |cs| + 1 ensures (cs + [d[k]])[j] == d[lo + j] {
      if j < |cs| { assert cs[j] == d[lo + j]; }
    }
  }

  lemma Shrinks(d: map<int, Command>, k: int)
    requires k in d
    ensures (set i | i in d && i >= k + 1) < (set i | i in d && i >= k)
  {
    var above, after := set i | i in d && i >= k, set i | i in d && i >= k + 1;
    assert k in above && k !in after && after <= above;
  }

  lemma DrainDone(l: LearnerState, c: Command, k: int, cs: seq<Command>, fs: seq<Line>)
    requires var d := l.decisions[c.slot := c]; Drained(d, l.slotOut, k, c, cs, fs) && k !in d
    ensures LearnOne(l, c) == LearnerState(l.decisions[c.slot := c], k, l.printed + cs, l.file + fs)
  {
    var d, lo := l.decisions[c.slot := c], l.slotOut;
    FirstFreeUnique(d, lo, k);
    AppendedAre(d, lo, k, c, cs, fs);
  }

  lemma AppendedAre(d: map<int, Command>, lo: int, k: int, c: Command, cs: seq<Command>, fs: seq<Line>)
    requires Drained(d, lo, k, c, cs, fs)
    ensures cs == Committed(d, lo, k) && fs == Saved(lo, k, c)
  {
    var ds, gs := Committed(d, lo, k), Saved(lo, k, c);
    forall j | 0 <= j < k - lo ensures cs[j] == ds[j] {
      assert ds[(lo + j) - lo] == d[lo + j];
    }
    forall j | 0 <= j < k - lo ensures fs[j] == gs[j] {
      assert gs[(lo + j) - lo] == Line(lo + j, c);
    }
  }

  /** Before the server takes part in anything. */
  const EMPTY := State(map[], map[], map[], {}, {}, map[], {}, {})

  class LaptopFactory {
    // configuration
    var factoryId: Id
    var acceptorMap: map<Id, ServerAddress>
    var numOfAcceptors: nat
    const serverConfig: ServerList.ServerConfig   // what customers are told

    // scout and commander
    var proposalNumber: int
    var slotIn: int
    var scoutStubs: set<Id>          // keys of scout_acceptor_stub
    var commanderStubs: set<Id>      // keys of commander_learner_stub
    var scoutStubInit: bool
    var commanderStubInit: bool

    // acceptor
    var promisedProposalNumber: int
    var acceptedProposalNumber: int
    var acceptedValue: Command

    // learner
    var decisionMap: map<int, Command>
    var slotOut: int
    var printed: seq<Command>        // what Learn has printed
    var file: seq<Line>              // what it has saved, call by call of saveCommandToFile

    // everything that has happened in the system, and the state it has led to
    var trace: seq<Action>
    var sys: State

    // the environment, how far it has got, and what was sent to it
    const env: Env
    var pass: nat                    // passes over a stub map so far
    var tick: nat                    // moments at which others could move so far
    var outbox: seq<Sent>

    // ---------- abstraction ----------

    function Cfg(): Config
      reads `acceptorMap, `numOfAcceptors
    {
      Config(acceptorMap.Keys, numOfAcceptors)
    }

    function AcceptorPart(): Acceptor
      reads `promisedProposalNumber, `acceptedProposalNumber, `acceptedValue
    {
      Acceptor(promisedProposalNumber, acceptedProposalNumber, acceptedValue)
    }

    function LearnerPart(): LearnerState
      reads `decisionMap, `slotOut, `printed, `file
    {
      LearnerState(decisionMap, slotOut, printed, file)
    }

    /** The acceptor and learner fields are this server's part of the system state. */
    ghost predicate Base()
      reads this
    {
      && factoryId in acceptorMap
      && Reached(Cfg(), trace, sys)
      && HasServer(sys, factoryId)
      && (forall p | p in acceptorMap :: HasServer(sys, p))
      && sys.acceptors[factoryId] == AcceptorPart()
      && sys.learners[factoryId] == LearnerPart()
      && (forall p | p in scoutStubs :: p in acceptorMap)
      && (forall p | p in commanderStubs :: p in acceptorMap)
    }

    /** This server's scout in the system state (which holds one once the server has started). */
    function Me(): Scout
      reads `sys, `factoryId
    {
      if factoryId in sys.scouts then sys.scouts[factoryId] else INIT_SCOUT
    }

    ghost predicate Valid()
      reads this
    {
      Base() && Me().number == proposalNumber && Me().slotIn == slotIn
    }

    // ---------- configuration ----------

    constructor (env: Env)
      ensures acceptorMap == map[] && numOfAcceptors == 0 && NotStarted() && this.env == env
      ensures proposalNumber == 0 && slotIn == 1
      ensures promisedProposalNumber == -1 && acceptedProposalNumber == -1
      ensures decisionMap == map[] && slotOut == 1 && printed == [] && file == []
      ensures fresh(serverConfig) && serverConfig.servers == map[] && outbox == []
    {
      this.env := env;
      pass, tick, outbox := 0, 0, [];
      factoryId, acceptorMap, numOfAcceptors := 0, map[], 0;
      proposalNumber, slotIn := 0, 1;
      scoutStubs, commanderStubs, scoutStubInit, commanderStubInit := {}, {}, false, false;
      promisedProposalNumber, acceptedProposalNumber, acceptedValue := -1, -1, NO_COMMAND;
      decisionMap, slotOut, printed, file := map[], 1, [], [];
      trace, sys := [], EMPTY;
      serverConfig := new ServerList.ServerConfig();
    }

    ghost predicate NotStarted()
      reads this
    {
      && proposalNumber == 0 && slotIn == 1 && trace == [] && Cfg().Valid()
      && scoutStubs == {} && commanderStubs == {} && !scoutStubInit && !commanderStubInit
      && AcceptorPart() == INIT_ACCEPTOR && LearnerPart() == Learner.INIT
    }

    /** A peer configured twice raises the count but not the number of acceptors. */
    method AddAcceptor(id: Id, ip: string, port: int)
      requires NotStarted()
      modifies `acceptorMap, `numOfAcceptors, serverConfig
      ensures NotStarted()
      ensures acceptorMap == old(acceptorMap)[id := ServerAddress(ip, port)]
      ensures numOfAcceptors == old(numOfAcceptors) + 1
      ensures serverConfig.servers == if id in old(serverConfig.servers) then old(serverConfig.servers)
                                      else old(serverConfig.servers)[id := ServerList.ServerInfo(ip, port)]
    {
      assert acceptorMap[id := ServerAddress(ip, port)].Keys == acceptorMap.Keys + {id};
      acceptorMap := acceptorMap[id := ServerAddress(ip, port)];
      serverConfig.SetServer(id, ServerList.ServerInfo(ip, port));
      numOfAcceptors := numOfAcceptors + 1;
    }

    /** The start of ScoutThread: the server takes its place in the initial system state. */
    method Start(id: Id)
      requires NotStarted() && id in acceptorMap
      modifies `factoryId, `scoutStubInit, `commanderStubInit, `sys
      ensures Valid() && factoryId == id && Me().phase == Idle
    {
      factoryId := id;
      scoutStubInit := false;
      commanderStubInit := false;
      sys := Init(Cfg());
      assert CanRun(Cfg(), []) && Run(Cfg(), []) == sys;
    }

    // ---------- acceptor ----------

    /** EngineerThread with identity 2: one message; some phases are not answered. */
    method EngineerAcceptor(msg: PaxosMsg) returns (answered: bool, reply: PaxosMsg)
      modifies `promisedProposalNumber, `acceptedProposalNumber, `acceptedValue
      ensures msg.phase == 1 ==>
                && answered && reply == P1b(old(AcceptorPart()), msg.proposeNumber)
                && AcceptorPart() == PromiseTo(old(AcceptorPart()), msg.proposeNumber)
      ensures msg.phase == 1 && msg.proposeNumber > old(promisedProposalNumber) ==>
                && promisedProposalNumber == msg.proposeNumber
                && reply.phase == 2 && reply.agree == 1 && reply.proposeNumber == -1
                && reply.acceptedProposal == old(acceptedProposalNumber)
                && (old(acceptedProposalNumber) != -1 ==> reply.GetCommand() == old(acceptedValue))
      ensures msg.phase == 1 && msg.proposeNumber <= old(promisedProposalNumber) ==>
                && promisedProposalNumber == old(promisedProposalNumber)
                && reply.phase == 2 && reply.agree == 0 && reply.proposeNumber == promisedProposalNumber
                && reply.acceptedProposal == -1
      ensures msg.phase == 1 ==>
                acceptedProposalNumber == old(acceptedProposalNumber) && acceptedValue == old(acceptedValue)
      ensures msg.phase == 3 ==>
                && answered && reply == P2b(old(AcceptorPart()), msg.proposeNumber)
                && AcceptorPart() == AcceptAt(old(AcceptorPart()), msg.proposeNumber, msg.GetCommand())
      ensures msg.phase == 3 ==>
                && promisedProposalNumber == old(promisedProposalNumber)
                && reply.phase == 4
                && (if msg.proposeNumber == old(promisedProposalNumber)
                    then && reply.agree == 1 && acceptedProposalNumber == msg.proposeNumber
                         && acceptedValue == msg.GetCommand()
                    else && reply.agree == 0 && acceptedProposalNumber == old(acceptedProposalNumber)
                         && acceptedValue == old(acceptedValue))
      ensures msg.phase != 1 && msg.phase != 3 ==> !answered && AcceptorPart() == old(AcceptorPart())
    {
      answered, reply := false, NO_REPLY;
      if msg.phase == 1 {
        answered, reply := true, NewMsg(2);
        if msg.proposeNumber > promisedProposalNumber {
          promisedProposalNumber := msg.proposeNumber;
          reply := reply.(agree := 1);
          if acceptedProposalNumber != -1 {
            reply := reply.(acceptedProposal := acceptedProposalNumber);
            reply := reply.SetCommand(acceptedValue);
          }
        } else {
          reply := reply.(agree := 0);
          reply := reply.(proposeNumber := promisedProposalNumber);
        }
      } else if msg.phase == 3 {
        answered, reply := true, NewMsg(4);
        if msg.proposeNumber == promisedProposalNumber {
          reply := reply.(agree := 1);
          acceptedProposalNumber := msg.proposeNumber;
          acceptedValue := msg.GetCommand();
        } else {
          reply := reply.(agree := 0);
        }
      }
    }

    // ---------- learner ----------

    /** The drain loop ends: it is bounded by the stored slots at or above slotOut. */
    method Learn(cmd: Command)
      modifies `decisionMap, `slotOut, `printed, `file
      ensures LearnerPart() == LearnOne(old(LearnerPart()), cmd)
    {
      ghost var before := LearnerPart();
      ghost var cs: seq<Command>, fs: seq<Line> := [], [];
      decisionMap := decisionMap[cmd.slot := cmd];
      while slotOut in decisionMap
        invariant decisionMap == before.decisions[cmd.slot := cmd]
        invariant Drained(decisionMap, before.slotOut, slotOut, cmd, cs, fs)
        invariant printed == before.printed + cs && file == before.file + fs
        decreases set k | k in decisionMap && k >= slotOut
      {
        DrainStep(decisionMap, before.slotOut, slotOut, cmd, cs, fs);
        cs, fs := cs + [decisionMap[slotOut]], fs + [Line(slotOut, cmd)];
        printed := printed + [decisionMap[slotOut]];
        file := file + [Line(slotOut, cmd)];
        slotOut := slotOut + 1;
      }
      DrainDone(before, cmd, slotOut, cs, fs);
    }

    /** EngineerThread with identity 3: only learn messages have an effect. */
    method EngineerLearner(msg: PaxosMsg)
      modifies `decisionMap, `slotOut, `printed, `file
      ensures LearnerPart() == if msg.phase == 5 then LearnOne(old(LearnerPart()), msg.GetCommand()) else old(LearnerPart())
    {
      if msg.phase == 5 {
        Learn(msg.GetCommand());
      }
    }

    // ---------- the rest of the system ----------

    /** Bring the acceptor and learner fields up to the system state. */
    method Sync()
      requires factoryId in acceptorMap && Reached(Cfg(), trace, sys)
      requires forall p | p in scoutStubs :: p in acceptorMap
      requires forall p | p in commanderStubs :: p in acceptorMap
      modifies `promisedProposalNumber, `acceptedProposalNumber, `acceptedValue
      modifies `decisionMap, `slotOut, `printed, `file
      ensures Base()
    {
      ReachedServers(Cfg(), trace, sys);
      assert factoryId in Cfg().servers && HasServer(sys, factoryId);
      var a, l := sys.acceptors[factoryId], sys.learners[factoryId];
      promisedProposalNumber, acceptedProposalNumber, acceptedValue := a.promised, a.accepted, a.value;
      decisionMap, slotOut, printed, file := l.decisions, l.slotOut, l.printed, l.file;
    }

    /** Any steps of other threads and other servers. */
    method Environment()
      requires Base()
      modifies `trace, `sys, `tick
      modifies `promisedProposalNumber, `acceptedProposalNumber, `acceptedValue
      modifies `decisionMap, `slotOut, `printed, `file
      ensures Base() && Me() == old(Me()) && tick == old(tick) + 1
      ensures old(trace) <= trace
      ensures old(sys.votes) <= sys.votes && old(sys.learns) <= sys.learns
      ensures env.others(old(tick)) == [] ==> sys == old(sys)
    {
      var more, next := AnyInterleaving(Cfg(), trace, sys, factoryId, env.others(tick));
      tick, trace, sys := tick + 1, trace + more, next;
      Sync();
    }

    /** One step of this server's scout. */
    method Take(a: Action)
      requires Base() && Enabled(Cfg(), sys, a)
      modifies `trace, `sys
      modifies `promisedProposalNumber, `acceptedProposalNumber, `acceptedValue
      modifies `decisionMap, `slotOut, `printed, `file
      ensures Base() && trace == old(trace) + [a]
      ensures Stepped(Cfg(), old(sys), a, sys)
    {
      var cfg, st := Cfg(), sys;
      var next := After(cfg, trace, st, a);
      trace, sys := trace + [a], next;
      Sync();
    }

    // ---------- messages ----------

    /** p handles the 1a message; `answered` says whether its reply is read. */
    method PrepareAt(p: Id, m: PaxosMsg, answered: bool) returns (reply: PaxosMsg)
      requires Valid() && Me().phase == Preparing && p in acceptorMap && p !in Me().visited
      requires m.phase == 1 && m.proposeNumber == proposalNumber
      modifies `trace, `sys
      modifies `promisedProposalNumber, `acceptedProposalNumber, `acceptedValue
      modifies `decisionMap, `slotOut, `printed, `file
      ensures Valid() && Me() == OnPromise(old(Me()), p, reply)
      ensures var a := if answered then PrepareReply(factoryId, p) else PrepareLost(factoryId, p);
              trace == old(trace) + [a] && Stepped(Cfg(), old(sys), a, sys)
    {
      ghost var st := sys;
      if answered {
        assert HasServer(sys, p);
        reply := P1b(sys.acceptors[p], m.proposeNumber);
        Take(PrepareReply(factoryId, p));
      } else {
        reply := NO_REPLY;
        Take(PrepareLost(factoryId, p));
      }
      PrepareSeen(Cfg(), st, factoryId, p, answered, sys);
      OnPromiseKeeps(st.scouts[factoryId], p, reply);
    }

    /** p handles the 2a message; an agreeing reply stands for a vote of p. */
    method AcceptBy(p: Id, m: PaxosMsg, answered: bool) returns (reply: PaxosMsg)
      requires Valid() && Me().phase == Accepting && p in acceptorMap && p !in Me().visited
      requires m.phase == 3 && m.proposeNumber == proposalNumber && m.GetCommand() == Me().proposal
      modifies `trace, `sys
      modifies `promisedProposalNumber, `acceptedProposalNumber, `acceptedValue
      modifies `decisionMap, `slotOut, `printed, `file
      ensures Valid() && Me() == OnAccepted(old(Me()), p, reply)
      ensures old(sys.votes) <= sys.votes
      ensures reply.agree != 0 ==> Vote(p, proposalNumber, m.GetCommand()) in sys.votes
      ensures var a := if answered then AcceptReply(factoryId, p) else AcceptLost(factoryId, p);
              trace == old(trace) + [a] && Stepped(Cfg(), old(sys), a, sys)
    {
      ghost var st := sys;
      if answered {
        assert HasServer(sys, p);
        reply := P2b(sys.acceptors[p], m.proposeNumber);
        Take(AcceptReply(factoryId, p));
      } else {
        reply := NO_REPLY;
        Take(AcceptLost(factoryId, p));
      }
      AcceptSeen(Cfg(), st, factoryId, p, answered, sys);
    }

    /** sendPaxosMsg: the message goes out, or the environment lets the send fail. */
    method Send(p: Id, m: PaxosMsg) returns (ok: bool)
      modifies `outbox
      ensures ok <==> env.fate(pass, p) != Unsent
      ensures outbox == if ok then old(outbox) + [Sent(p, m)] else old(outbox)
    {
      ok := env.fate(pass, p) != Unsent;
      if ok {
        outbox := outbox + [Sent(p, m)];
      }
    }

    /** From now on more than half of the acceptors are up, among these stubs, the rest is down, and nobody else moves. */
    ghost predicate MostUp(stubs: set<Id>)
      reads this
    {
      Settled(env, pass, tick) && 2 * |Kept(env, pass, stubs)| > numOfAcceptors
    }

    /** The same, with more than half of the acceptors standing at this scout's number. */
    ghost predicate MostStand()
      reads this
    {
      && Settled(env, pass, tick)
      && 2 * |Progress.AtNumber(sys, Kept(env, pass, scoutStubs), proposalNumber)| > numOfAcceptors
    }

    ghost function Now(): View
      reads this
    {
      View(tick, trace, outbox, scoutStubs, commanderStubs, sys, Me().visited)
    }

    /**
     sendPaxosMsg(1a) and receivePaxosMsg on the stub of acceptor p. Other
     steps may come first; then the message cannot be sent, or its reply
     cannot be read, or p has handled it and the reply is p's.
     */
    method ExchangePrepare(p: Id, m: PaxosMsg) returns (sent: bool, reply: PaxosMsg)
      requires Valid() && Me().phase == Preparing && p in acceptorMap && p !in Me().visited
      requires m.phase == 1 && m.proposeNumber == proposalNumber
      modifies `trace, `sys, `tick, `outbox
      modifies `promisedProposalNumber, `acceptedProposalNumber, `acceptedValue
      modifies `decisionMap, `slotOut, `printed, `file
      ensures Valid() && tick > old(tick)
      ensures sent <==> env.fate(pass, p) != Unsent
      ensures outbox == if sent then old(outbox) + [Sent(p, m)] else old(outbox)
      ensures Me() == if sent then OnPromise(old(Me()), p, reply) else old(Me())
      ensures Exchange(Cfg(), env, StepFor(false, env.fate(pass, p), factoryId, p), sent, old(Now()), Now())
    {
      Environment();
      ghost var mid := trace;
      sent, reply := AskPrepare(p, m);
      assert old(trace) <= mid;
    }

    /** The exchange itself, with nobody else moving. */
    method AskPrepare(p: Id, m: PaxosMsg) returns (sent: bool, reply: PaxosMsg)
      requires Valid() && Me().phase == Preparing && p in acceptorMap && p !in Me().visited
      requires m.phase == 1 && m.proposeNumber == proposalNumber
      modifies `trace, `sys, `outbox
      modifies `promisedProposalNumber, `acceptedProposalNumber, `acceptedValue
      modifies `decisionMap, `slotOut, `printed, `file
      ensures Valid() && (sent <==> env.fate(pass, p) != Unsent)
      ensures outbox == if sent then old(outbox) + [Sent(p, m)] else old(outbox)
      ensures Me() == if sent then OnPromise(old(Me()), p, reply) else old(Me())
      ensures var a := StepFor(false, env.fate(pass, p), factoryId, p);
              if sent then trace == old(trace) + [a] && Stepped(Cfg(), old(sys), a, sys)
              else trace == old(trace) && sys == old(sys)
    {
      reply := NO_REPLY;
      sent := Send(p, m);
      if sent {
        reply := PrepareAt(p, m, env.fate(pass, p) == Answered);
      }
    }

    /** The same for a 2a message. */
    method ExchangeAccept(p: Id, m: PaxosMsg) returns (sent: bool, reply: PaxosMsg)
      requires Valid() && Me().phase == Accepting && p in acceptorMap && p !in Me().visited
      requires m.phase == 3 && m.proposeNumber == proposalNumber && m.GetCommand() == Me().proposal
      modifies `trace, `sys, `tick, `outbox
      modifies `promisedProposalNumber, `acceptedProposalNumber, `acceptedValue
      modifies `decisionMap, `slotOut, `printed, `file
      ensures Valid() && tick > old(tick)
      ensures sent <==> env.fate(pass, p) != Unsent
      ensures outbox == if sent then old(outbox) + [Sent(p, m)] else old(outbox)
      ensures Me() == if sent then OnAccepted(old(Me()), p, reply) else old(Me())
      ensures old(sys.votes) <= sys.votes
      ensures sent && reply.agree != 0 ==> Vote(p, proposalNumber, m.GetCommand()) in sys.votes
      ensures Exchange(Cfg(), env, StepFor(true, env.fate(pass, p), factoryId, p), sent, old(Now()), Now())
    {
      Environment();
      ghost var mid := trace;
      sent, reply := AskAccept(p, m);
      assert old(trace) <= mid;
    }

    /** The exchange itself, with nobody else moving. */
    method AskAccept(p: Id, m: PaxosMsg) returns (sent: bool, reply: PaxosMsg)
      requires Valid() && Me().phase == Accepting && p in acceptorMap && p !in Me().visited
      requires m.phase == 3 && m.proposeNumber == proposalNumber && m.GetCommand() == Me().proposal
      modifies `trace, `sys, `outbox
      modifies `promisedProposalNumber, `acceptedProposalNumber, `acceptedValue
      modifies `decisionMap, `slotOut, `printed, `file
      ensures Valid() && (sent <==> env.fate(pass, p) != Unsent)
      ensures outbox == if sent then old(outbox) + [Sent(p, m)] else old(outbox)
      ensures Me() == if sent then OnAccepted(old(Me()), p, reply) else old(Me())
      ensures old(sys.votes) <= sys.votes
      ensures sent && reply.agree != 0 ==> Vote(p, proposalNumber, m.GetCommand()) in sys.votes
      ensures var a := StepFor(true, env.fate(pass, p), factoryId, p);
              if sent then trace == old(trace) + [a] && Stepped(Cfg(), old(sys), a, sys)
              else trace == old(trace) && sys == old(sys)
    {
      reply := NO_REPLY;
      sent := Send(p, m);
      if sent {
        reply := AcceptBy(p, m, env.fate(pass, p) == Answered);
      }
    }

    /** Forget a peer whose connection failed, in both stub maps. */
    method DropPeer(p: Id)
      requires Valid()
      modifies `scoutStubs, `commanderStubs
      ensures Valid() && Me() == old(Me())
      ensures scoutStubs == old(scoutStubs) - {p} && commanderStubs == old(commanderStubs) - {p}
    {
      scoutStubs := scoutStubs - {p};
      commanderStubs := commanderStubs - {p};
    }

    // ---------- phase 2 ----------

    /** The acceptors counted so far were all sent to, and each has voted for the proposal. */
    ghost predicate AllVoted(cmd: Command)
      reads this
    {
      && Me().accepts <= Me().visited
      && (forall p | p in Me().accepts :: p in acceptorMap && Vote(p, proposalNumber, cmd) in sys.votes)
    }

    /** The pass has got as far as `rest`. */
    ghost predicate Going(accept: bool, b: PassStart, rest: set<Id>)
      reads this
    {
      Underway(accept, env, pass, factoryId, b, rest, Now())
    }

    /** The next stub of a pass is one of this server's stubs, not visited before. */
    lemma GoingNext(accept: bool, b: PassStart, rest: set<Id>)
      requires Base() && Going(accept, b, rest) && rest != {}
      ensures Least(rest) in scoutStubs && Least(rest) in acceptorMap && Least(rest) !in Me().visited
    {
      SweepNext(b.sweep, rest, Me().visited, scoutStubs, outbox, Least(rest));
    }

    lemma StubsKnown()
      requires Base()
      ensures scoutStubs <= sys.acceptors.Keys && factoryId in acceptorMap && HasServer(sys, factoryId)
    {
      forall p | p in scoutStubs ensures p in sys.acceptors { assert HasServer(sys, p); }
    }

    /** The end of a pass: what Going says when nothing is left. */
    method FinishPass(accept: bool, ghost b: PassStart)
      requires Valid() && Going(accept, b, {})
      modifies `pass
      ensures Valid() && Me() == old(Me()) && pass == old(pass) + 1
      ensures b.tick <= tick && b.acts <= trace
      ensures scoutStubs == Me().visited == Kept(env, old(pass), b.sweep.all)
      ensures commanderStubs == b.mates - (b.sweep.all - scoutStubs)
      ensures outbox == b.sweep.was + ToAll(scoutStubs, b.sweep.msg)
      ensures forall p | p in scoutStubs :: StepFor(accept, env.fate(old(pass), p), factoryId, p) in trace[|b.acts|..]
      ensures Settled(env, old(pass), b.tick) && factoryId in b.st.scouts && (accept || b.st.scouts[factoryId].promisers == {}) ==>
                if accept then Progress.Accepted(b.st, sys, factoryId, scoutStubs)
                else Progress.Prepared(b.st, sys, factoryId, scoutStubs)
    {
      GoingEnds(accept, b);
      if Settled(env, pass, b.tick) && factoryId in b.st.scouts && (accept || b.st.scouts[factoryId].promisers == {}) {
        CalmEnds(accept, env, pass, b.tick, b.st, sys, factoryId, Me().visited);
      }
      EndPass();
    }

    /** The pass is over. */
    method EndPass()
      requires Valid()
      modifies `pass
      ensures Valid() && Me() == old(Me()) && pass == old(pass) + 1
    {
      pass := pass + 1;
    }

    /** Where a pass begins. */
    ghost function Beginning(m: PaxosMsg): PassStart
      reads this
    {
      PassStart(Sweep(env, pass, scoutStubs, m, outbox), commanderStubs, sys, trace, tick)
    }

    lemma GoingBegins(accept: bool, m: PaxosMsg)
      requires Base() && Me().visited == {}
      ensures Going(accept, Beginning(m), scoutStubs)
    {
      UnderwayBegins(accept, env, pass, factoryId, m, Now());
    }

    /** One accept message; a failed stub is erased from both maps. */
    method AcceptOnce(p: Id, cmd: Command) returns (sent: bool, agreed: bool)
      requires Valid() && Me().phase == Accepting && Me().proposal == cmd && AllVoted(cmd)
      requires p in acceptorMap && p !in Me().visited
      modifies `trace, `sys, `scoutStubs, `commanderStubs, `tick, `outbox
      modifies `promisedProposalNumber, `acceptedProposalNumber, `acceptedValue
      modifies `decisionMap, `slotOut, `printed, `file
      ensures Valid() && SameProposal(Me(), old(Me())) && AllVoted(cmd) && tick >= old(tick)
      ensures sent <==> env.fate(pass, p) != Unsent
      ensures outbox == if sent then old(outbox) + [Sent(p, NewMsg(3).SetCommand(cmd).(proposeNumber := proposalNumber))]
                        else old(outbox)
      ensures Me().visited == if sent then old(Me()).visited + {p} else old(Me()).visited
      ensures Me().active == if sent then old(Me()).active + 1 else old(Me()).active
      ensures |Me().accepts| == if sent && agreed then |old(Me()).accepts| + 1 else |old(Me()).accepts|
      ensures scoutStubs == if sent then old(scoutStubs) else old(scoutStubs) - {p}
      ensures commanderStubs == if sent then old(commanderStubs) else old(commanderStubs) - {p}
      ensures Exchange(Cfg(), env, StepFor(true, env.fate(pass, p), factoryId, p), sent, old(Now()), Now())
    {
      ghost var accepts := Me().accepts;
      var p2aMsg := NewMsg(3).SetCommand(cmd).(proposeNumber := proposalNumber);
      var reply;
      sent, reply := ExchangeAccept(p, p2aMsg);
      agreed := reply.agree != 0;
      OneMore(accepts, p);
      if !sent {
        DropPeer(p);
      }
    }

    /** Part of the way through the loop, with its two counters. */
    ghost predicate Counting(b: PassStart, rest: set<Id>, cmd: Command, start: Scout, active: int, number: int)
      reads this
    {
      && Valid() && Me().phase == Accepting && Me().proposal == cmd && SameProposal(Me(), start) && AllVoted(cmd)
      && Going(true, b, rest) && active == Me().active == |Me().visited| && number == |Me().accepts|
    }

    /** One turn of the loop. */
    method AcceptTurn(p: Id, cmd: Command, ghost b: PassStart, ghost rest: set<Id>, ghost start: Scout,
                      active0: int, number0: int)
      returns (active: int, number: int)
      requires Counting(b, rest, cmd, start, active0, number0) && rest != {} && p == Least(rest)
      requires b.sweep.msg == NewMsg(3).SetCommand(cmd).(proposeNumber := proposalNumber)
      modifies `trace, `sys, `scoutStubs, `commanderStubs, `tick, `outbox
      modifies `promisedProposalNumber, `acceptedProposalNumber, `acceptedValue
      modifies `decisionMap, `slotOut, `printed, `file
      ensures Counting(b, rest - {p}, cmd, start, active, number)
    {
      active, number := active0, number0;
      GoingNext(true, b, rest);
      ghost var before := Now();
      var sent, agreed := AcceptOnce(p, cmd);
      UnderwayOn(Cfg(), true, env, pass, factoryId, b, rest, sent, before, Now());
      if sent {
        active := active + 1;
        if agreed {
          number := number + 1;
        }
      }
    }

    /** No number was used without a majority for it, and no accept message was handled twice. */
    ghost predicate CountedRun()
      reads this
    {
      Cfg().Valid() && CanRun(Cfg(), trace) && Counted(Cfg(), trace) && HandledOnce(Cfg(), trace)
    }

    /**
     What a pass did: the stubs that are left are those whose send succeeded,
     each of them was sent the message, in key order, and took the step that
     the fate of the message stands for; a dropped stub is dropped from both
     maps.
     */
    twostate predicate PassDoneBy(accept: bool, m: PaxosMsg)
      reads this
    {
      && pass == old(pass) + 1 && tick >= old(tick)
      && scoutStubs == Me().visited == Kept(env, old(pass), old(scoutStubs))
      && commanderStubs == old(commanderStubs) - (old(scoutStubs) - scoutStubs)
      && outbox == old(outbox) + ToAll(scoutStubs, m)
      && old(trace) <= trace
      && forall p | p in scoutStubs :: StepFor(accept, env.fate(old(pass), p), factoryId, p) in trace[|old(trace)|..]
    }

    /** The loop over the stubs, which erases failed ones from the map it iterates. */
    method AcceptPass(cmd: Command) returns (activeAcceptors: int, acceptNumber: int)
      requires Valid() && Me().phase == Accepting && Me().proposal == cmd
      requires Me().visited == {} && Me().active == 0 && Me().accepts == {}
      modifies `trace, `sys, `scoutStubs, `commanderStubs, `pass, `tick, `outbox
      modifies `promisedProposalNumber, `acceptedProposalNumber, `acceptedValue
      modifies `decisionMap, `slotOut, `printed, `file
      ensures Valid() && SameProposal(Me(), old(Me())) && AllVoted(cmd)
      ensures PassDoneBy(true, NewMsg(3).SetCommand(cmd).(proposeNumber := proposalNumber))
      ensures activeAcceptors == Me().active == |scoutStubs| && acceptNumber == |Me().accepts|
      ensures Settled(env, old(pass), old(tick)) ==> Progress.Accepted(old(sys), sys, factoryId, scoutStubs)
    {
      ghost var start := Me();
      ghost var b := Beginning(NewMsg(3).SetCommand(cmd).(proposeNumber := proposalNumber));
      GoingBegins(true, b.sweep.msg);
      activeAcceptors, acceptNumber := 0, 0;
      var rest := scoutStubs;
      while rest != {}
        invariant Counting(b, rest, cmd, start, activeAcceptors, acceptNumber)
        decreases rest
      {
        var p := First(rest);
        activeAcceptors, acceptNumber := AcceptTurn(p, cmd, b, rest, start, activeAcceptors, acceptNumber);
        rest := rest - {p};
      }
      FinishPass(true, b);
    }

    lemma GoingEnds(accept: bool, b: PassStart)
      requires Base() && Going(accept, b, {})
      ensures scoutStubs == Me().visited == Kept(env, pass, b.sweep.all)
      ensures outbox == b.sweep.was + ToAll(scoutStubs, b.sweep.msg)
      ensures commanderStubs == b.mates - (b.sweep.all - scoutStubs)
      ensures forall p | p in scoutStubs :: StepFor(accept, env.fate(pass, p), factoryId, p) in trace[|b.acts|..]
    {
      SweepEnds(b.sweep, Me().visited, scoutStubs, outbox);
      MatesEnd(b.sweep, b.mates, commanderStubs);
      AskedMeans(accept, env, pass, factoryId, Me().visited, trace, |b.acts|);
    }

    /** The result of phase 2 in numbers: too few stubs left comes before everything else. */
    ghost predicate CountedResult(r: int)
      reads this
    {
      && (r == -2 <==> 2 * |scoutStubs| <= numOfAcceptors)
      && (r == 0 <==> 2 * |scoutStubs| > numOfAcceptors && Me().accepts == {})
      && (r == 1 <==> 2 * |Me().accepts| > numOfAcceptors)
      && r in {1, 0, -1, -2}
    }

    /** What a result r says in a counted run when no reply of the pass was lost. */
    ghost predicate CountTells(cmd: Command, r: int)
      reads this
    {
      CountedRun() && !Unheard(sys, proposalNumber) ==>
        && (r == 0 ==> !Voted(sys, proposalNumber))
        && (r == 1 ==> Chosen(Cfg(), sys, proposalNumber, cmd))
        && (r == 0 || r == -1 ==> !Chosen(Cfg(), sys, proposalNumber, cmd))
    }

    /**
     1: accepted by a majority; 0: full reject; -1: part reject; -2: too few
     active acceptors. When no reply of the pass was lost, the result tells
     exactly who accepted.
     */
    method AcceptPhaseBrocasting(cmd: Command) returns (r: int)
      requires Valid() && Me().phase == Accepting && Me().proposal == cmd
      requires Me().visited == {} && Me().active == 0 && Me().accepts == {}
      modifies `trace, `sys, `scoutStubs, `commanderStubs, `pass, `tick, `outbox
      modifies `promisedProposalNumber, `acceptedProposalNumber, `acceptedValue
      modifies `decisionMap, `slotOut, `printed, `file
      ensures Valid() && SameProposal(Me(), old(Me()))
      ensures PassDoneBy(true, NewMsg(3).SetCommand(cmd).(proposeNumber := proposalNumber))
      ensures r == AcceptResult(Cfg(), Me().active, |Me().accepts|) && Me().active == |scoutStubs|
      ensures CountedResult(r)
      ensures Me().accepts <= scoutStubs && forall p | p in Me().accepts :: Vote(p, proposalNumber, cmd) in sys.votes
      ensures CountTells(cmd, r)
      ensures old(MostStand()) ==>
                r == 1
    {
      ghost var st := sys;
      var activeAcceptors, acceptNumber := AcceptPass(cmd);
      if activeAcceptors <= numOfAcceptors / 2 {
        r := -2;
      } else if acceptNumber == 0 {
        r := 0;
      } else if acceptNumber <= numOfAcceptors / 2 {
        r := -1;
      } else {
        r := 1;
      }
      CountsIn(Me().accepts, Me().visited);
      AcceptResultMeans(Cfg(), Me().active, |Me().accepts|);
      if CountedRun() && !Unheard(sys, proposalNumber) {
        AcceptCountSeen(Cfg(), trace, sys, factoryId);
      }
      if Settled(env, old(pass), old(tick)) &&
         2 * |Progress.AtNumber(st, scoutStubs, proposalNumber)| > numOfAcceptors
      {
        Progress.AcceptPassWins(Cfg(), st, sys, factoryId, scoutStubs);
      }
    }

    /** The pass over the learner stubs has got as far as `rest`. */
    ghost predicate Informing(s: Sweep, mates: set<Id>, rest: set<Id>, informed: set<Id>)
      reads this
    {
      && s.env == env && s.k == pass && Swept(s, rest, informed, commanderStubs, outbox)
      && MatesDropped(s, rest, mates, scoutStubs)
    }

    /** One learn message; a failed stub is erased from both maps. */
    method SendLearn(p: Id, cmd: Command) returns (sent: bool)
      requires Valid() && cmd in sys.learns
      modifies `trace, `sys, `scoutStubs, `commanderStubs, `tick, `outbox
      modifies `promisedProposalNumber, `acceptedProposalNumber, `acceptedValue
      modifies `decisionMap, `slotOut, `printed, `file
      ensures Valid() && old(trace) <= trace && Me() == old(Me()) && cmd in sys.learns && tick >= old(tick)
      ensures sent <==> env.fate(pass, p) != Unsent
      ensures outbox == if sent then old(outbox) + [Sent(p, NewMsg(5).SetCommand(cmd))] else old(outbox)
      ensures scoutStubs == if sent then old(scoutStubs) else old(scoutStubs) - {p}
      ensures commanderStubs == if sent then old(commanderStubs) else old(commanderStubs) - {p}
    {
      Environment();
      var paxosMsg := NewMsg(5).SetCommand(cmd);
      sent := Send(p, paxosMsg);
      if !sent {
        DropPeer(p);
      }
    }

    /** The loop over the stubs. */
    method SendLearns(cmd: Command)
      requires Valid() && cmd in sys.learns
      modifies `trace, `sys, `scoutStubs, `commanderStubs, `pass, `tick, `outbox
      modifies `promisedProposalNumber, `acceptedProposalNumber, `acceptedValue
      modifies `decisionMap, `slotOut, `printed, `file
      ensures Valid() && old(trace) <= trace && Me() == old(Me()) && cmd in sys.learns
      ensures pass == old(pass) + 1 && tick >= old(tick)
      ensures commanderStubs == Kept(env, old(pass), old(commanderStubs))
      ensures outbox == old(outbox) + ToAll(commanderStubs, NewMsg(5).SetCommand(cmd))
      ensures scoutStubs == old(scoutStubs) - (old(commanderStubs) - commanderStubs)
    {
      ghost var me, mates := Me(), scoutStubs;
      ghost var s := Sweep(env, pass, commanderStubs, NewMsg(5).SetCommand(cmd), outbox);
      SweepBegins(s);
      MatesBegin(s, mates);
      var rest := commanderStubs;
      ghost var informed := {};
      while rest != {}
        invariant Valid() && old(trace) <= trace && Me() == me && cmd in sys.learns && tick >= old(tick)
        invariant Informing(s, mates, rest, informed)
        decreases rest
      {
        var p := First(rest);
        ghost var stubs, sentBefore, others := commanderStubs, outbox, scoutStubs;
        var sent := SendLearn(p, cmd);
        MatesMore(s, rest, mates, others, p);
        if sent {
          SweepSent(s, rest, informed, stubs, sentBefore);
          informed := informed + {p};
        } else {
          SweepFailed(s, rest, informed, stubs, sentBefore);
        }
        rest := rest - {p};
      }
      SweepEnds(s, informed, commanderStubs, outbox);
      MatesEnd(s, mates, scoutStubs);
      EndPass();
    }

    /** The configured servers a connection for this identity succeeds to. */
    function Connected(identity: int): set<Id>
      reads `acceptorMap
    {
      set p | p in acceptorMap && env.connects(identity, p)
    }

    /** The learner stubs a broadcast starts with: connections are made once. */
    function LearnerStubs(): set<Id>
      reads this
    {
      if commanderStubInit then commanderStubs else Connected(3)
    }

    /**
     A learn message with the command, which a majority has accepted, goes out
     on every stub whose send succeeds; any other is erased from both maps.
     */
    method CommanderBrocasting(cmd: Command)
      requires Valid() && cmd in sys.learns
      modifies `trace, `sys, `scoutStubs, `commanderStubs, `commanderStubInit, `pass, `tick, `outbox
      modifies `promisedProposalNumber, `acceptedProposalNumber, `acceptedValue
      modifies `decisionMap, `slotOut, `printed, `file
      ensures Valid() && old(trace) <= trace && Me() == old(Me()) && cmd in sys.learns && commanderStubInit
      ensures exists n :: Chosen(Cfg(), sys, n, cmd)
      ensures pass == old(pass) + 1 && tick >= old(tick)
      ensures commanderStubs == Kept(env, old(pass), old(LearnerStubs()))
      ensures outbox == old(outbox) + ToAll(commanderStubs, NewMsg(5).SetCommand(cmd))
      ensures scoutStubs == old(scoutStubs) - (old(LearnerStubs()) - commanderStubs)
      ensures Dropped(env, old(pass), pass, old(scoutStubs), scoutStubs)
    {
      ghost var k, stubs, others := pass, scoutStubs, LearnerStubs();
      if !commanderStubInit {
        commanderStubs := Connect(3);
        commanderStubInit := true;
      }
      SendLearns(cmd);
      DropOne(env, k, stubs, others);
      LearnsSeen(Cfg(), trace, sys, cmd);
    }

    /** Connections are tried to every configured server, this one included. */
    method Connect(identity: int) returns (stubs: set<Id>)
      ensures stubs == Connected(identity)
    {
      stubs := {};
      var rest := acceptorMap.Keys;
      while rest != {}
        invariant rest <= acceptorMap.Keys
        invariant stubs == set p | p in acceptorMap.Keys - rest && env.connects(identity, p)
        decreases rest
      {
        var p := First(rest);
        if env.connects(identity, p) {
          stubs := stubs + {p};
        }
        rest := rest - {p};
      }
    }

    // ---------- phase 1 ----------

    /** The locals of ScoutBrocasting are those of this server's scout. */
    ghost predicate Locals(promisedNum: int, highest: int, best: int, cmd: Command, active: int)
      reads this
    {
      && Me().phase == Preparing && Me().promisedNum == promisedNum && Me().highest == highest
      && Me().best == best && Me().bestCmd == cmd && Me().active == active
    }

    /** One turn of the loop over the acceptor stubs. */
    method PrepareFrom(p: Id, ghost b: PassStart, ghost rest: set<Id>,
                       promisedNum0: int, highest0: int, best0: int, cmd0: Command, active0: int)
      returns (promisedNum: int, highest: int, best: int, cmd: Command, active: int)
      requires Valid() && Locals(promisedNum0, highest0, best0, cmd0, active0)
      requires Going(false, b, rest) && rest != {} && p == Least(rest)
      requires b.sweep.msg == NewMsg(1).(proposeNumber := proposalNumber)
      modifies `trace, `sys, `scoutStubs, `commanderStubs, `tick, `outbox
      modifies `promisedProposalNumber, `acceptedProposalNumber, `acceptedValue
      modifies `decisionMap, `slotOut, `printed, `file
      ensures Valid() && SameCall(Me(), old(Me())) && Locals(promisedNum, highest, best, cmd, active)
      ensures Going(false, b, rest - {p})
      ensures active - active0 == |Me().visited| - |old(Me()).visited|
    {
      GoingNext(false, b, rest);
      promisedNum, highest, best, cmd, active := promisedNum0, highest0, best0, cmd0, active0;
      ghost var before := Now();
      var p1aMsg := NewMsg(1).(proposeNumber := proposalNumber);
      var sent, p1bMsg := ExchangePrepare(p, p1aMsg);
      if !sent {
        DropPeer(p);
      } else {
        active := active + 1;
        highest := Max(highest, p1bMsg.proposeNumber);
        if p1bMsg.agree != 0 {
          promisedNum := promisedNum + 1;
          if p1bMsg.acceptedProposal > best {
            best := p1bMsg.acceptedProposal;
            cmd := p1bMsg.GetCommand();
          }
        }
      }
      UnderwayOn(Cfg(), false, env, pass, factoryId, b, rest, sent, before, Now());
    }

    /** One pass of the loop over the acceptor stubs. */
    method PreparePass(promisedNum0: int, highest0: int, best0: int, cmd0: Command, active0: int)
      returns (promisedNum: int, highest: int, best: int, cmd: Command, active: int)
      requires Valid() && Locals(promisedNum0, highest0, best0, cmd0, active0) && Me().visited == {}
      modifies `trace, `sys, `scoutStubs, `commanderStubs, `pass, `tick, `outbox
      modifies `promisedProposalNumber, `acceptedProposalNumber, `acceptedValue
      modifies `decisionMap, `slotOut, `printed, `file
      ensures Valid() && SameCall(Me(), old(Me())) && Locals(promisedNum, highest, best, cmd, active)
      ensures PassDoneBy(false, NewMsg(1).(proposeNumber := proposalNumber)) && active == active0 + |scoutStubs|
      ensures Settled(env, old(pass), old(tick)) && old(Me()).promisers == {} ==>
                Progress.Prepared(old(sys), sys, factoryId, scoutStubs)
    {
      ghost var start := Me();
      ghost var b := Beginning(NewMsg(1).(proposeNumber := proposalNumber));
      GoingBegins(false, b.sweep.msg);
      promisedNum, highest, best, cmd, active := promisedNum0, highest0, best0, cmd0, active0;
      var rest := scoutStubs;
      while rest != {}
        invariant Valid() && SameCall(Me(), start) && Going(false, b, rest)
        invariant Locals(promisedNum, highest, best, cmd, active)
        invariant active == active0 + |Me().visited|
        decreases rest
      {
        var p := First(rest);
        promisedNum, highest, best, cmd, active := PrepareFrom(p, b, rest, promisedNum, highest, best, cmd, active);
        rest := rest - {p};
      }
      FinishPass(false, b);
    }

    /**
     Where the prepare loop stands: k0 and all are the pass and the stubs it
     began with. In a settled environment with more than half of the acceptors
     up it is in its first round, or in its second with a number above all
     promises of those that are up.
     */
    ghost predicate Competing(k0: nat, t0: nat, all: set<Id>, round: nat)
      reads this
    {
      && pass == k0 + round && tick >= t0 && Me().visited == {}
      && scoutStubs == KeptOver(env, k0, pass, all) && (round == 0 ==> scoutStubs == all)
      && (Settled(env, k0, t0) && 2 * |Kept(env, k0, all)| > numOfAcceptors ==>
            if round == 0 then Me() == StartPrepare(Me())
            else round == 1 && scoutStubs == Kept(env, k0, all) && Progress.Overtakes(sys, factoryId, Kept(env, k0, all)))
    }

    /** One round: a pass, and what it means. */
    method PrepareTurn(ghost k0: nat, ghost t0: nat, ghost all: set<Id>, ghost round: nat,
                       promisedNum0: int, highest0: int, best0: int, cmd0: Command, active0: int)
      returns (promisedNum: int, highest: int, best: int, cmd: Command, active: int)
      requires Valid() && Locals(promisedNum0, highest0, best0, cmd0, active0) && Competing(k0, t0, all, round)
      requires active0 >= 0
      modifies `trace, `sys, `scoutStubs, `commanderStubs, `pass, `tick, `outbox
      modifies `promisedProposalNumber, `acceptedProposalNumber, `acceptedValue
      modifies `decisionMap, `slotOut, `printed, `file
      ensures Valid() && old(trace) <= trace && SameCall(Me(), old(Me()))
      ensures Locals(promisedNum, highest, best, cmd, active)
      ensures pass == k0 + round + 1 && tick >= t0 && Me().visited == scoutStubs && active == active0 + |scoutStubs|
      ensures scoutStubs == KeptOver(env, k0, pass, all)
      ensures Settled(env, k0, t0) && 2 * |Kept(env, k0, all)| > numOfAcceptors ==>
                PassDone(Cfg(), sys, factoryId, round, Kept(env, k0, all)) && scoutStubs == Kept(env, k0, all)
    {
      StubsKnown();
      ghost var st, k, t, stubs := sys, pass, tick, scoutStubs;
      promisedNum, highest, best, cmd, active := PreparePass(promisedNum0, highest0, best0, cmd0, active0);
      KeptOverMore(env, k0, k, all);
      if Settled(env, k0, t0) && 2 * |Kept(env, k0, all)| > numOfAcceptors {
        CalmPassDone(Cfg(), env, k0, t0, k, t, all, stubs, round, st, sys, factoryId);
      }
    }

    /**
     Compete for a number until a majority promises, or too few acceptors are
     active. A run may compete for ever; `rounds` bounds how much of it is
     followed.
     */
    method PrepareLoop(rounds: nat) returns (outcome: Outcome, best: int, cmd: Command)
      requires Valid() && Me().phase == Preparing && Me() == StartPrepare(Me())
      modifies `trace, `sys, `scoutStubs, `commanderStubs, `proposalNumber, `pass, `tick, `outbox
      modifies `promisedProposalNumber, `acceptedProposalNumber, `acceptedValue
      modifies `decisionMap, `slotOut, `printed, `file
      ensures Valid() && old(trace) <= trace && Me().phase == Preparing && Me().request == old(Me()).request
      ensures best == Me().best && cmd == Me().bestCmd
      ensures pass >= old(pass) && tick >= old(tick) && (outcome != StillCompeting ==> pass > old(pass))
      ensures scoutStubs == KeptOver(env, old(pass), pass, old(scoutStubs))
      ensures outcome != StillCompeting ==> Me().visited == scoutStubs
      ensures outcome == Won ==> MayDecide()
      ensures outcome == TooFew ==> 2 * Me().active <= numOfAcceptors && 2 * |scoutStubs| <= numOfAcceptors
      ensures outcome == StillCompeting ==>
                pass == old(pass) + rounds
      ensures old(MostUp(scoutStubs)) && rounds >= 2 ==>
                && outcome == Won && scoutStubs == Kept(env, old(pass), old(scoutStubs))
                && Progress.Ready(Cfg(), sys, factoryId, scoutStubs)
    {
      var promisedNum, highest, active := 0, -1, 0;
      best, cmd := -1, NO_COMMAND;
      ghost var request, k0, t0, all := Me().request, pass, tick, scoutStubs;
      KeptOverNone(env, pass, scoutStubs);
      var round := 0;
      outcome := StillCompeting;
      while outcome == StillCompeting && round < rounds
        invariant round <= rounds && active >= 0 && pass == k0 + round && tick >= t0
        invariant Valid() && old(trace) <= trace && Me().request == request
        invariant Locals(promisedNum, highest, best, cmd, active) && scoutStubs == KeptOver(env, k0, pass, all)
        invariant outcome == StillCompeting ==> Competing(k0, t0, all, round)
        invariant outcome != StillCompeting ==> round > 0 && Me().visited == scoutStubs
        invariant outcome == Won ==> MayDecide()
        invariant outcome == TooFew ==> 2 * active <= numOfAcceptors && 2 * |scoutStubs| <= numOfAcceptors
        invariant Settled(env, k0, t0) && 2 * |Kept(env, k0, all)| > numOfAcceptors ==>
                    && outcome != TooFew && (outcome == StillCompeting ==> round < 2)
                    && (outcome == Won ==> scoutStubs == Kept(env, k0, all) && Progress.Ready(Cfg(), sys, factoryId, scoutStubs))
      {
        outcome, promisedNum, highest, best, cmd, active :=
          CompeteOnce(k0, t0, all, round, promisedNum, highest, best, cmd, active);
        round := round + 1;
      }
    }

    /** One round of the loop, and where it goes from there. */
    method CompeteOnce(ghost k0: nat, ghost t0: nat, ghost all: set<Id>, ghost round: nat,
                       promisedNum0: int, highest0: int, best0: int, cmd0: Command, active0: int)
      returns (outcome: Outcome, promisedNum: int, highest: int, best: int, cmd: Command, active: int)
      requires Valid() && Locals(promisedNum0, highest0, best0, cmd0, active0) && Competing(k0, t0, all, round)
      requires active0 >= 0
      modifies `trace, `sys, `scoutStubs, `commanderStubs, `proposalNumber, `pass, `tick, `outbox
      modifies `promisedProposalNumber, `acceptedProposalNumber, `acceptedValue
      modifies `decisionMap, `slotOut, `printed, `file
      ensures Valid() && old(trace) <= trace && Me().request == old(Me()).request
      ensures Locals(promisedNum, highest, best, cmd, active) && active >= 0
      ensures outcome == StillCompeting ==> Competing(k0, t0, all, round + 1)
      ensures pass == k0 + round + 1 && tick >= t0 && scoutStubs == KeptOver(env, k0, pass, all)
      ensures outcome != StillCompeting ==> Me().visited == scoutStubs
      ensures outcome == Won ==> MayDecide()
      ensures outcome == TooFew ==> 2 * active <= numOfAcceptors && 2 * |scoutStubs| <= numOfAcceptors
      ensures Settled(env, k0, t0) && 2 * |Kept(env, k0, all)| > numOfAcceptors ==>
                && outcome != TooFew && (outcome == StillCompeting ==> round == 0)
                && (outcome == Won ==> scoutStubs == Kept(env, k0, all) && Progress.Ready(Cfg(), sys, factoryId, scoutStubs))
    {
      promisedNum, highest, best, cmd, active :=
        PrepareTurn(k0, t0, all, round, promisedNum0, highest0, best0, cmd0, active0);
      if active <= numOfAcceptors / 2 {
        outcome := TooFew;
      } else if promisedNum <= numOfAcceptors / 2 {
        NextRound(k0, t0, all, round, promisedNum, highest, best, cmd, active);
        outcome := StillCompeting;
      } else {
        outcome := Won;
      }
    }

    /** No majority: `continue` with a larger number. */
    method NextRound(ghost k0: nat, ghost t0: nat, ghost all: set<Id>, ghost round: nat,
                     ghost promisedNum: int, highest: int, ghost best: int, ghost cmd: Command, ghost active: int)
      requires Valid() && Locals(promisedNum, highest, best, cmd, active)
      requires 2 * active > numOfAcceptors && 2 * promisedNum <= numOfAcceptors
      requires pass == k0 + round + 1 && tick >= t0 && scoutStubs == KeptOver(env, k0, pass, all)
      requires Settled(env, k0, t0) && 2 * |Kept(env, k0, all)| > numOfAcceptors ==>
                 PassDone(Cfg(), sys, factoryId, round, Kept(env, k0, all)) && scoutStubs == Kept(env, k0, all)
      modifies `trace, `sys, `proposalNumber
      modifies `promisedProposalNumber, `acceptedProposalNumber, `acceptedValue
      modifies `decisionMap, `slotOut, `printed, `file
      ensures Valid() && old(trace) <= trace && Me().request == old(Me()).request
      ensures Locals(promisedNum, highest, best, cmd, active) && Competing(k0, t0, all, round + 1)
    {
      StubsKnown();
      ghost var live := Kept(env, k0, all);
      ghost var st := sys;
      TakeRetry(highest);
      if Settled(env, k0, t0) && 2 * |live| > numOfAcceptors {
        RetriedOvertakes(st, sys, factoryId, live);
      }
    }

    /** proposalNumber = highestProposlNum + 1, and the next round. */
    method TakeRetry(highest: int)
      requires Valid() && Enabled(Cfg(), sys, Retry(factoryId)) && Me().highest == highest
      modifies `trace, `sys, `proposalNumber
      modifies `promisedProposalNumber, `acceptedProposalNumber, `acceptedValue
      modifies `decisionMap, `slotOut, `printed, `file
      ensures Valid() && old(trace) <= trace && Me() == RetryScout(old(Me())) && proposalNumber == highest + 1
      ensures sys.acceptors == old(sys).acceptors
    {
      ghost var st := sys;
      Take(Retry(factoryId));
      LocalSeen(Cfg(), st, Retry(factoryId), sys);
      proposalNumber := highest + 1;
    }

    // ---------- a whole call ----------

    /** while slot_in is in decisionMap's keys, slot_in++ */
    method AdvanceSlotIn()
      requires Base()
      modifies `slotIn
      ensures Base() && slotIn == FirstFree(decisionMap, old(slotIn))
    {
      ghost var start := slotIn;
      while slotIn in decisionMap
        invariant Base() && FirstFree(decisionMap, slotIn) == FirstFree(decisionMap, start)
        decreases set k | k in decisionMap && k >= slotIn
      {
        Shrinks(decisionMap, slotIn);
        slotIn := slotIn + 1;
      }
    }

    /** Phase 2 is about to start with this proposal, for the call's request. */
    ghost predicate EntersPhase2(proposal: Command, own: bool, customerId: int, orderId: int)
      reads this
    {
      && Me().phase == Accepting && Me().proposal == proposal && Me().own == own
      && Me().visited == {} && Me().active == 0 && Me().accepts == {}
      && Me().request.customerId == customerId && Me().request.orderId == orderId
      && (own ==> proposal.customerId == customerId && proposal.orderId == orderId)
    }

    /** More than half of the acceptors are active, and more than half promised. */
    ghost predicate MayDecide()
      reads this
    {
      Me().phase == Preparing && 2 * Me().active > numOfAcceptors && 2 * Me().promisedNum > numOfAcceptors
    }

    lemma DecideEnabled()
      requires Base() && MayDecide()
      ensures forall id :: Enabled(Cfg(), sys, Decide(factoryId, id))
    {
      PassOutcome(Cfg(), sys, factoryId);
    }

    /** The clock-made identifier of the new command is arbitrary here. */
    method ProposeOwn(customerId: int, orderId: int) returns (proposal: Command)
      requires Valid() && MayDecide() && ProposesOwn(Me(), decisionMap)
      requires Me().request.customerId == customerId && Me().request.orderId == orderId
      modifies `trace, `sys, `slotIn
      modifies `promisedProposalNumber, `acceptedProposalNumber, `acceptedValue
      modifies `decisionMap, `slotOut, `printed, `file
      ensures sys.acceptors == old(sys).acceptors
      ensures Valid() && old(trace) <= trace && EntersPhase2(proposal, true, customerId, orderId)
      ensures proposal.customerId == customerId && proposal.orderId == orderId && proposal.slot == slotIn
      ensures decisionMap == old(decisionMap) && slotIn == FirstFree(decisionMap, old(slotIn))
    {
      ghost var st := sys;
      DecideEnabled();
      AdvanceSlotIn();
      var id: int := *;
      proposal := Command(slotIn, id, DEFAULT_IP, customerId, orderId);
      Take(Decide(factoryId, id));
      LocalSeen(Cfg(), st, Decide(factoryId, id), sys);
    }

    method ProposeReported(cmd: Command, customerId: int, orderId: int)
      requires Valid() && MayDecide() && !ProposesOwn(Me(), decisionMap)
      requires Me().request.customerId == customerId && Me().request.orderId == orderId && cmd == Me().bestCmd
      modifies `trace, `sys
      modifies `promisedProposalNumber, `acceptedProposalNumber, `acceptedValue
      modifies `decisionMap, `slotOut, `printed, `file
      ensures sys.acceptors == old(sys).acceptors
      ensures Valid() && old(trace) <= trace && EntersPhase2(cmd, false, customerId, orderId)
      ensures decisionMap == old(decisionMap)
    {
      ghost var st := sys;
      DecideEnabled();
      Take(Decide(factoryId, 0));
      LocalSeen(Cfg(), st, Decide(factoryId, 0), sys);
    }

    /** Propose the order in the first free slot, or the reported command. */
    method ChooseCommand(best: int, cmd: Command, customerId: int, orderId: int) returns (proposal: Command, own: bool)
      requires Valid() && best == Me().best && cmd == Me().bestCmd
      requires MayDecide() && Me().request.customerId == customerId && Me().request.orderId == orderId
      modifies `trace, `sys, `slotIn, `tick
      modifies `promisedProposalNumber, `acceptedProposalNumber, `acceptedValue
      modifies `decisionMap, `slotOut, `printed, `file
      ensures Valid() && old(trace) <= trace && EntersPhase2(proposal, own, customerId, orderId)
      ensures tick >= old(tick) && (env.others(old(tick)) == [] ==> sys.acceptors == old(sys).acceptors)
      ensures own <==> best == -1 || cmd.slot in decisionMap
      ensures !own ==> proposal == cmd
      ensures own ==> slotIn == FirstFree(decisionMap, old(slotIn))
      ensures own ==> proposal.customerId == customerId && proposal.orderId == orderId && proposal.slot == slotIn
    {
      Environment();
      if best == -1 || cmd.slot in decisionMap {
        own := true;
        proposal := ProposeOwn(customerId, orderId);
      } else {
        own := false;
        proposal := cmd;
        ProposeReported(cmd, customerId, orderId);
      }
    }

    /** Record the end of phase 2 in the scout's state. */
    method TakeEnd()
      requires Valid() && Me().phase == Accepting
      modifies `trace, `sys
      modifies `promisedProposalNumber, `acceptedProposalNumber, `acceptedValue
      modifies `decisionMap, `slotOut, `printed, `file
      ensures Valid() && old(trace) <= trace && Me() == AfterAccept(Cfg(), old(Me()))
      ensures AcceptResult(Cfg(), old(Me()).active, |old(Me()).accepts|) == 1 ==> old(Me()).proposal in sys.learns
    {
      ghost var st := sys;
      Take(EndAccept(factoryId));
      LocalSeen(Cfg(), st, EndAccept(factoryId), sys);
    }

    /** Begin, or give up, a call. */
    method TakeLocal(a: Action)
      requires Valid() && Enabled(Cfg(), sys, a) && (a.BeginCall? || a.Abandon?) && a.s == factoryId
      modifies `trace, `sys
      modifies `promisedProposalNumber, `acceptedProposalNumber, `acceptedValue
      modifies `decisionMap, `slotOut, `printed, `file
      ensures Valid() && old(trace) <= trace
      ensures Me() == if a.BeginCall? then BeginScout(old(Me()), factoryId, a.customerId, a.orderId)
                      else old(Me()).(phase := Idle)
    {
      ghost var st := sys;
      Take(a);
      LocalSeen(Cfg(), st, a, sys);
    }

    /** The call handles this order. */
    ghost predicate Handles(customerId: int, orderId: int)
      reads this
    {
      Me().request.customerId == customerId && Me().request.orderId == orderId
    }

    /** What is known of the scout when ScoutBrocasting returns r, or jumps back to its start (RESTART). */
    ghost predicate CallResult(r: int, customerId: int, orderId: int)
      reads this
    {
      Ended(Cfg(), Me(), |scoutStubs|, sys.learns, r, customerId, orderId)
    }

    /** Phase 2 of an own or a reported command, and what follows from its result. */
    method PhaseTwo(proposal: Command, own: bool, customerId: int, orderId: int) returns (r: int, ghost result: int)
      requires Valid() && EntersPhase2(proposal, own, customerId, orderId)
      modifies `trace, `sys, `scoutStubs, `commanderStubs, `commanderStubInit, `pass, `tick, `outbox
      modifies `promisedProposalNumber, `acceptedProposalNumber, `acceptedValue
      modifies `decisionMap, `slotOut, `printed, `file
      ensures Valid() && old(trace) <= trace && Handles(customerId, orderId)
      ensures CallResult(r, customerId, orderId) && r == AfterResult(own, result)
      ensures result in {1, 0, -1, -2}
      ensures result == 1 ==> r == 1 && Informed(proposal) && Me().proposal in sys.learns
      ensures result == 0 ==> r == RESTART
      ensures result == -1 ==> r == if own then 1 else RESTART
      ensures result == -2 ==> r == if own then 1 else 0
      ensures result != 1 ==> (result == -2 <==> 2 * |scoutStubs| <= numOfAcceptors)
      ensures r != RESTART ==> result == ResultOf(Cfg(), Me())
      ensures Dropped(env, old(pass), pass, old(scoutStubs), scoutStubs) && tick >= old(tick)
      ensures pass > old(pass)
      ensures old(MostStand()) ==>
                result == 1
    {
      var res := PutToVote(proposal);
      result := res;
      ghost var k, stubs := pass, scoutStubs;
      r := Conclude(proposal, own, res, customerId, orderId);
      DroppedThen(env, old(pass), k, pass, old(scoutStubs), stubs, scoutStubs);
    }

    /** The accept pass, as the call sees it. */
    method PutToVote(proposal: Command) returns (res: int)
      requires Valid() && Me().phase == Accepting && Me().proposal == proposal
      requires Me().visited == {} && Me().active == 0 && Me().accepts == {}
      modifies `trace, `sys, `scoutStubs, `commanderStubs, `pass, `tick, `outbox
      modifies `promisedProposalNumber, `acceptedProposalNumber, `acceptedValue
      modifies `decisionMap, `slotOut, `printed, `file
      ensures Valid() && old(trace) <= trace && SameProposal(Me(), old(Me()))
      ensures res == ResultOf(Cfg(), Me()) && res in {1, 0, -1, -2}
      ensures Me().active == |scoutStubs| && |Me().accepts| <= Me().active
      ensures res == -2 <==> 2 * |scoutStubs| <= numOfAcceptors
      ensures Dropped(env, old(pass), pass, old(scoutStubs), scoutStubs) && pass > old(pass) && tick >= old(tick)
      ensures old(MostStand()) ==> res == 1
    {
      res := AcceptPhaseBrocasting(proposal);
      DropOne(env, old(pass), old(scoutStubs), {});
      CountsIn(Me().accepts, scoutStubs);
    }

    /** What follows from the result of phase 2. */
    method Conclude(proposal: Command, own: bool, res: int, customerId: int, orderId: int) returns (r: int)
      requires Valid() && Me().phase == Accepting && Me().proposal == proposal && Me().own == own && Handles(customerId, orderId)
      requires own ==> proposal.customerId == customerId && proposal.orderId == orderId
      requires res == AcceptResult(Cfg(), Me().active, |Me().accepts|)
      requires Me().active == |scoutStubs| && |Me().accepts| <= Me().active
      modifies `trace, `sys, `scoutStubs, `commanderStubs, `commanderStubInit, `pass, `tick, `outbox
      modifies `promisedProposalNumber, `acceptedProposalNumber, `acceptedValue
      modifies `decisionMap, `slotOut, `printed, `file
      ensures Valid() && old(trace) <= trace && Handles(customerId, orderId) && tick >= old(tick)
      ensures CallResult(r, customerId, orderId) && r == AfterResult(own, res)
      ensures res == 1 ==> Informed(proposal) && Me().proposal in sys.learns
      ensures r != RESTART ==> res == ResultOf(Cfg(), Me())
      ensures pass >= old(pass) && (res != 1 ==> scoutStubs == old(scoutStubs))
      ensures Dropped(env, old(pass), pass, old(scoutStubs), scoutStubs)
    {
      ghost var sc := Me();
      DroppedNone(env, pass, scoutStubs);
      TakeEnd();
      AfterAcceptEnds(Cfg(), sc, sys.learns, customerId, orderId);
      if res == 1 {
        InformAll(proposal, customerId, orderId);
        r := 1;
      } else if own {
        r := if res == 0 then RESTART else 1;
      } else {
        r := if res == -2 then 0 else RESTART;
      }
    }

    /** The call's command goes out to the learners, which leaves its result at 1. */
    method InformAll(proposal: Command, customerId: int, orderId: int)
      requires Valid() && Handles(customerId, orderId) && CallResult(1, customerId, orderId)
      requires Me().proposal == proposal && proposal in sys.learns
      modifies `trace, `sys, `scoutStubs, `commanderStubs, `commanderStubInit, `pass, `tick, `outbox
      modifies `promisedProposalNumber, `acceptedProposalNumber, `acceptedValue
      modifies `decisionMap, `slotOut, `printed, `file
      ensures Valid() && old(trace) <= trace && Me() == old(Me()) && tick >= old(tick) && pass >= old(pass)
      ensures CallResult(1, customerId, orderId) && Informed(proposal) && proposal in sys.learns
      ensures Dropped(env, old(pass), pass, old(scoutStubs), scoutStubs)
    {
      ghost var stubs, learns := |scoutStubs|, sys.learns;
      CommanderBrocasting(proposal);
      EndedStays(Cfg(), Me(), stubs, |scoutStubs|, learns, sys.learns, 1, customerId, orderId);
    }

    /** The command is chosen, and the last messages that went out hand it to every learner stub that is left. */
    ghost predicate Informed(cmd: Command)
      reads this
    {
      && (exists n :: Chosen(Cfg(), sys, n, cmd))
      && exists was: seq<Sent> :: was <= outbox && outbox == was + ToAll(commanderStubs, NewMsg(5).SetCommand(cmd))
    }

    /** The prepare loop, and what its outcome means for the call. */
    method WinNumber(rounds: nat) returns (outcome: Outcome, best: int, cmd: Command)
      requires Valid() && Me().phase == Preparing && Me() == StartPrepare(Me())
      modifies `trace, `sys, `scoutStubs, `commanderStubs, `proposalNumber, `pass, `tick, `outbox
      modifies `promisedProposalNumber, `acceptedProposalNumber, `acceptedValue
      modifies `decisionMap, `slotOut, `printed, `file
      ensures Valid() && old(trace) <= trace && Me().phase == Preparing && Me().request == old(Me()).request
      ensures best == Me().best && cmd == Me().bestCmd
      ensures Dropped(env, old(pass), pass, old(scoutStubs), scoutStubs) && pass >= old(pass) && tick >= old(tick)
      ensures outcome == Won ==> MayDecide()
      ensures outcome == TooFew ==> 2 * Me().active <= numOfAcceptors && 2 * |scoutStubs| <= numOfAcceptors
      ensures outcome == StillCompeting ==> pass >= old(pass) + rounds
      ensures old(MostUp(scoutStubs)) && rounds >= 2 ==>
                outcome == Won && MostStand()
    {
      outcome, best, cmd := PrepareLoop(rounds);
      DroppedOver(env, old(pass), pass, old(scoutStubs));
      if Settled(env, old(pass), old(tick)) {
        SettledLater(env, old(pass), old(tick), pass, tick);
        KeptAgain(env, old(pass), old(tick), pass, old(scoutStubs));
      }
    }

    /** From label start_proposalNum_compete to the end of the call, or back to the label. */
    method Attempt(customerId: int, orderId: int, rounds: nat) returns (r: int)
      requires Valid() && Handles(customerId, orderId) && CallResult(RESTART, customerId, orderId)
      modifies `trace, `sys, `scoutStubs, `commanderStubs, `commanderStubInit, `pass, `tick, `outbox
      modifies `proposalNumber, `slotIn
      modifies `promisedProposalNumber, `acceptedProposalNumber, `acceptedValue
      modifies `decisionMap, `slotOut, `printed, `file
      ensures Valid() && old(trace) <= trace && Handles(customerId, orderId)
      ensures (r == 0 || r == 1 || r == RESTART || r == RUNNING) && CallResult(r, customerId, orderId)
      ensures r == RESTART ==> 2 * |scoutStubs| > numOfAcceptors
      ensures Dropped(env, old(pass), pass, old(scoutStubs), scoutStubs) && tick >= old(tick)
      ensures pass >= old(pass) && (r == RESTART ==> pass > old(pass))
      ensures r == RUNNING ==> pass >= old(pass) + rounds
      ensures old(MostUp(scoutStubs)) && rounds >= 2 ==>
                r == 1 && Me().proposal in sys.learns
    {
      var outcome, best, cmd := WinNumber(rounds);
      if outcome == TooFew {
        GiveUp(customerId, orderId);
        r := 0;
      } else if outcome == StillCompeting {
        r := RUNNING;
      } else {
        ghost var k, stubs := pass, scoutStubs;
        r := FinishAttempt(best, cmd, customerId, orderId);
        DroppedThen(env, old(pass), k, pass, old(scoutStubs), stubs, scoutStubs);
      }
    }

    /** Too few active acceptors. */
    method GiveUp(ghost customerId: int, ghost orderId: int)
      requires Valid() && Me().phase == Preparing && Handles(customerId, orderId)
      requires 2 * Me().active <= numOfAcceptors && 2 * |scoutStubs| <= numOfAcceptors
      modifies `trace, `sys
      modifies `promisedProposalNumber, `acceptedProposalNumber, `acceptedValue
      modifies `decisionMap, `slotOut, `printed, `file
      ensures Valid() && old(trace) <= trace && Handles(customerId, orderId) && CallResult(0, customerId, orderId)
    {
      PassOutcome(Cfg(), sys, factoryId);
      TakeLocal(Abandon(factoryId));
    }

    /** A won prepare phase goes on to phase 2. */
    method FinishAttempt(best: int, cmd: Command, customerId: int, orderId: int) returns (r: int)
      requires Valid() && MayDecide() && best == Me().best && cmd == Me().bestCmd
      requires Me().request.customerId == customerId && Me().request.orderId == orderId
      modifies `trace, `sys, `scoutStubs, `commanderStubs, `commanderStubInit, `slotIn, `pass, `tick, `outbox
      modifies `promisedProposalNumber, `acceptedProposalNumber, `acceptedValue
      modifies `decisionMap, `slotOut, `printed, `file
      ensures Valid() && old(trace) <= trace && Handles(customerId, orderId)
      ensures (r == 0 || r == 1 || r == RESTART) && CallResult(r, customerId, orderId)
      ensures r == RESTART ==> 2 * |scoutStubs| > numOfAcceptors
      ensures Dropped(env, old(pass), pass, old(scoutStubs), scoutStubs) && tick >= old(tick) && pass > old(pass)
      ensures old(MostStand()) ==>
                r == 1 && Me().proposal in sys.learns
    {
      ghost var st, t, k := sys, tick, pass;
      var proposal, own := ChooseCommand(best, cmd, customerId, orderId);
      if Settled(env, k, t) {
        SettledLater(env, k, t, k, tick);
        assert Progress.AtNumber(sys, Kept(env, k, scoutStubs), proposalNumber)
            == Progress.AtNumber(st, Kept(env, k, scoutStubs), proposalNumber);
      }
      ghost var result;
      r, result := PhaseTwo(proposal, own, customerId, orderId);
    }

    /** The acceptor stubs a call starts with: connections are made once. */
    function AcceptorStubs(): set<Id>
      reads this
    {
      if scoutStubInit then scoutStubs else Connected(2)
    }

    /** Connections are set up before the first call. */
    method StartCall(customerId: int, orderId: int)
      requires Valid() && Me().phase == Idle
      modifies `trace, `sys, `scoutStubs, `scoutStubInit
      modifies `promisedProposalNumber, `acceptedProposalNumber, `acceptedValue
      modifies `decisionMap, `slotOut, `printed, `file
      ensures Valid() && old(trace) <= trace && Handles(customerId, orderId)
      ensures CallResult(RESTART, customerId, orderId)
      ensures scoutStubs == old(AcceptorStubs()) && scoutStubInit
    {
      if !scoutStubInit {
        scoutStubs := Connect(2);
        scoutStubInit := true;
      }
      TakeLocal(BeginCall(factoryId, customerId, orderId));
    }

    /**
     One customer order. 1: the call is over; 0: too few acceptors are active;
     RUNNING: the call is not over after the rounds that are followed. A result
     of 1 does not say that the order itself was decided. With more than half
     of the acceptors up, the others down, and nobody else moving, the call
     ends with 1 and its command chosen.
     */
    method ScoutBrocasting(customerId: int, orderId: int, rounds: nat) returns (r: int)
      requires Valid() && Me().phase == Idle
      modifies `trace, `sys, `scoutStubs, `commanderStubs, `scoutStubInit, `commanderStubInit, `pass, `tick, `outbox
      modifies `proposalNumber, `slotIn
      modifies `promisedProposalNumber, `acceptedProposalNumber, `acceptedValue
      modifies `decisionMap, `slotOut, `printed, `file
      ensures Valid() && old(trace) <= trace && Handles(customerId, orderId)
      ensures (r == 0 || r == 1 || r == RUNNING) && CallResult(r, customerId, orderId)
      ensures Dropped(env, old(pass), pass, old(AcceptorStubs()), scoutStubs) && scoutStubInit
      ensures r == RUNNING ==> pass >= old(pass) + rounds
      ensures old(MostUp(AcceptorStubs())) && rounds >= 2 ==>
                r == 1 && Me().proposal in sys.learns
    {
      StartCall(customerId, orderId);
      r := Attempts(customerId, orderId, rounds);
    }

    /** The jumps back to label start_proposalNum_compete. */
    method Attempts(customerId: int, orderId: int, rounds: nat) returns (r: int)
      requires Valid() && Handles(customerId, orderId) && CallResult(RESTART, customerId, orderId)
      modifies `trace, `sys, `scoutStubs, `commanderStubs, `commanderStubInit, `pass, `tick, `outbox
      modifies `proposalNumber, `slotIn
      modifies `promisedProposalNumber, `acceptedProposalNumber, `acceptedValue
      modifies `decisionMap, `slotOut, `printed, `file
      ensures Valid() && old(trace) <= trace && Handles(customerId, orderId)
      ensures (r == 0 || r == 1 || r == RUNNING) && CallResult(r, customerId, orderId)
      ensures Dropped(env, old(pass), pass, old(scoutStubs), scoutStubs)
      ensures r == RUNNING ==> pass >= old(pass) + rounds
      ensures old(MostUp(scoutStubs)) && rounds >= 2 ==>
                r == 1 && Me().proposal in sys.learns
    {
      DroppedNone(env, pass, scoutStubs);
      r := RESTART;
      var attempt := 0;
      while r == RESTART && attempt < rounds
        invariant Valid() && old(trace) <= trace && Handles(customerId, orderId)
        invariant (r == 0 || r == 1 || r == RESTART || r == RUNNING) && CallResult(r, customerId, orderId)
        invariant Dropped(env, old(pass), pass, old(scoutStubs), scoutStubs)
        invariant pass >= old(pass) + (if r == RESTART then attempt else if r == RUNNING then rounds else 0)
        invariant attempt == 0 ==> r == RESTART && pass == old(pass) && tick == old(tick) && scoutStubs == old(scoutStubs)
                                   && numOfAcceptors == old(numOfAcceptors)
        invariant attempt > 0 && old(MostUp(scoutStubs)) && rounds >= 2 ==>
                    r == 1 && Me().proposal in sys.learns
      {
        ghost var k, stubs := pass, scoutStubs;
        r := Attempt(customerId, orderId, rounds);
        DroppedThen(env, old(pass), k, pass, old(scoutStubs), stubs, scoutStubs);
        attempt := attempt + 1;
      }
      if r == RESTART {
        r := RUNNING;
      }
    }
  }
}
