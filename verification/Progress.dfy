/**
 A scout that runs alone, with more than half of the acceptors alive, needs at
 most two prepare rounds and one accept phase, whatever the acceptors have
 promised before: after a failed round the highest number it was told, plus
 one, lies above every promise of a live acceptor.

 The rounds are given twice: as a relation between the states before and after
 a pass (Prepared, Accepted), which the loops of module Server use, and as a
 function of the order in which the acceptors are visited.
 */
module Progress {
  import opened Messages
  import opened Protocol
  import Quorum

  // ---------- what an answered pass does ----------

  /** The scout's counters after k answered messages. */
  predicate Counts(sc: Scout, sc': Scout, k: nat) {
    && sc'.number == sc.number && sc'.phase == sc.phase
    && sc'.active == sc.active + k
    && sc'.highest >= sc.highest
    && (sc'.highest >= sc.number || sc'.promisedNum == sc.promisedNum + k)
    && sc'.promisedNum - sc.promisedNum == |sc'.promisers| - |sc.promisers|
    && sc'.promisers <= sc'.visited
  }

  /** What those messages do to the acceptors in visited, each of which got one. */
  ghost predicate Acceptors(st: State, st': State, s: Id, visited: set<Id>)
    requires s in st.scouts && s in st'.scouts
  {
    var n := st.scouts[s].number;
    && st'.acceptors.Keys == st.acceptors.Keys
    && st'.scouts[s].visited == st.scouts[s].visited + visited
    && (forall p | p in st.acceptors && p !in visited :: st'.acceptors[p] == st.acceptors[p])
    && (forall p | p in st.acceptors && p in visited ::
          st'.acceptors[p].promised == n || st'.acceptors[p].promised <= st'.scouts[s].highest)
    && (forall p | p in st'.scouts[s].promisers ::
          p in st.scouts[s].promisers || (p in visited && p in st.acceptors && st'.acceptors[p].promised == n))
  }

  /** Acceptors that stand below the number all promise it. */
  ghost predicate LowPromise(st: State, st': State, s: Id, visited: set<Id>)
    requires s in st.scouts && s in st'.scouts
  {
    (forall p | p in visited :: p in st.acceptors && st.acceptors[p].promised < st.scouts[s].number) ==>
      st'.scouts[s].promisedNum == st.scouts[s].promisedNum + |visited|
  }

  /** The state after the scout was answered by visited, and nobody else moved. */
  ghost predicate Prepared(st: State, st': State, s: Id, visited: set<Id>) {
    && s in st.scouts && s in st'.scouts
    && Counts(st.scouts[s], st'.scouts[s], |visited|)
    && Acceptors(st, st', s, visited)
    && LowPromise(st, st', s, visited)
  }

  lemma PreparedNothing(st: State, s: Id)
    requires s in st.scouts && st.scouts[s].promisers <= st.scouts[s].visited
    ensures Prepared(st, st, s, {})
  {
  }

  lemma OneReply(sc: Scout, a: Acceptor, p: Id)
    requires sc.promisers <= sc.visited && p !in sc.visited
    ensures var sc' := OnPromise(sc, p, P1b(a, sc.number));
            && Counts(sc, sc', 1) && sc'.visited == sc.visited + {p}
            && (if a.promised < sc.number
                then sc'.promisedNum == sc.promisedNum + 1 && sc'.promisers == sc.promisers + {p}
                else sc'.promisers == sc.promisers && a.promised <= sc'.highest)
  {
    assert |sc.promisers + {p}| == |sc.promisers| + 1;
    assert P1b(a, sc.number).proposeNumber == if sc.number > a.promised then -1 else a.promised;
  }

  lemma OneVisit(cfg: Config, st: State, s: Id, p: Id)
    requires Shape(cfg, st) && Enabled(cfg, st, PrepareReply(s, p))
    requires st.scouts[s].promisers <= st.scouts[s].visited
    ensures var st' := Next(cfg, st, PrepareReply(s, p));
            && Counts(st.scouts[s], st'.scouts[s], 1) && Acceptors(st, st', s, {p})
            && (st.acceptors[p].promised < st.scouts[s].number ==>
                  st'.scouts[s].promisedNum == st.scouts[s].promisedNum + 1)
  {
    var sc, a := st.scouts[s], st.acceptors[p];
    OneReply(sc, a, p);
    assert Next(cfg, st, PrepareReply(s, p)).acceptors == st.acceptors[p := PromiseTo(a, sc.number)];
    assert Next(cfg, st, PrepareReply(s, p)).scouts[s] == OnPromise(sc, p, P1b(a, sc.number));
  }

  lemma VisitsCompose(st: State, mid: State, st': State, s: Id, a: set<Id>, b: set<Id>)
    requires s in st.scouts && s in mid.scouts && s in st'.scouts
    requires a !! b && mid.scouts[s].number == st.scouts[s].number
    requires mid.scouts[s].highest <= st'.scouts[s].highest
    requires Acceptors(st, mid, s, a) && Acceptors(mid, st', s, b)
    ensures Acceptors(st, st', s, a + b)
  {
  }

  lemma CountsCompose(a: Scout, b: Scout, c: Scout, j: nat, k: nat)
    requires Counts(a, b, j) && Counts(b, c, k)
    ensures Counts(a, c, j + k)
  {
  }

  /** One more acceptor is visited and answers. */
  lemma PreparedMore(cfg: Config, st: State, mid: State, s: Id, visited: set<Id>, p: Id)
    requires Prepared(st, mid, s, visited) && Shape(cfg, mid) && Enabled(cfg, mid, PrepareReply(s, p))
    requires p !in visited && p in st.acceptors
    ensures Prepared(st, Next(cfg, mid, PrepareReply(s, p)), s, visited + {p})
  {
    var st' := Next(cfg, mid, PrepareReply(s, p));
    OneVisit(cfg, mid, s, p);
    CountsCompose(st.scouts[s], mid.scouts[s], st'.scouts[s], |visited|, 1);
    VisitsCompose(st, mid, st', s, visited, {p});
    assert |visited + {p}| == |visited| + 1;
    LowMore(st, mid, st', s, visited, p);
  }

  lemma LowMore(st: State, mid: State, st': State, s: Id, visited: set<Id>, p: Id)
    requires s in st.scouts && s in mid.scouts && s in st'.scouts && p !in visited && p in st.acceptors
    requires LowPromise(st, mid, s, visited) && Acceptors(st, mid, s, visited)
    requires mid.scouts[s].number == st.scouts[s].number
    requires mid.acceptors[p].promised < mid.scouts[s].number ==>
               st'.scouts[s].promisedNum == mid.scouts[s].promisedNum + 1
    ensures LowPromise(st, st', s, visited + {p})
  {
    if forall q | q in visited + {p} :: q in st.acceptors && st.acceptors[q].promised < st.scouts[s].number {
      assert forall q | q in visited :: q in visited + {p};
      assert p in visited + {p} && |visited + {p}| == |visited| + 1;
    }
  }

  // ---------- two rounds suffice ----------

  /** The acceptors of live that stand at number n. */
  function AtNumber(st: State, live: set<Id>, n: int): set<Id> {
    set p | p in live && p in st.acceptors && st.acceptors[p].promised == n
  }

  /**
   The scout may decide with live acceptors answering: more than half of the
   configured number promised its number, and stand at it.
   */
  ghost predicate Ready(cfg: Config, st: State, s: Id, live: set<Id>) {
    && s in st.scouts && st.scouts[s].phase == Preparing
    && 2 * st.scouts[s].active > cfg.numOfAcceptors && 2 * st.scouts[s].promisedNum > cfg.numOfAcceptors
    && 2 * |st.scouts[s].promisers| > cfg.numOfAcceptors
    && 2 * |AtNumber(st, live, st.scouts[s].number)| > cfg.numOfAcceptors
  }

  /** The scout is in the first round of a call. */
  ghost predicate JustStarted(cfg: Config, st: State, s: Id) {
    InPhase(cfg, st, s, Preparing) && st.scouts[s] == StartPrepare(st.scouts[s])
  }

  /** Every live acceptor stands below the number, for which nobody was counted yet. */
  ghost predicate Overtakes(st: State, s: Id, live: set<Id>) {
    && s in st.scouts && st.scouts[s].phase == Preparing
    && st.scouts[s].promisers == {} && st.scouts[s].visited == {}
    && forall p | p in live :: p in st.acceptors && st.acceptors[p].promised < st.scouts[s].number
  }

  lemma PromisersStand(st: State, st': State, s: Id, live: set<Id>)
    requires Prepared(st, st', s, live) && st.scouts[s].promisers == {}
    ensures |st'.scouts[s].promisers| <= |AtNumber(st', live, st'.scouts[s].number)|
    ensures |st'.scouts[s].promisers| == st'.scouts[s].promisedNum - st.scouts[s].promisedNum
  {
    forall p | p in st'.scouts[s].promisers ensures p in AtNumber(st', live, st'.scouts[s].number) {
      assert p in live && p in st.acceptors;
    }
    Quorum.SubsetSize(st'.scouts[s].promisers, AtNumber(st', live, st'.scouts[s].number));
  }

  /** The first pass: either it wins, or the next number overtakes every live acceptor. */
  lemma FirstPass(cfg: Config, st: State, st': State, s: Id, live: set<Id>)
    requires JustStarted(cfg, st, s) && Prepared(st, st', s, live)
    requires live <= st.acceptors.Keys && 2 * |live| > cfg.numOfAcceptors
    ensures st'.scouts[s].phase == Preparing && 2 * st'.scouts[s].active > cfg.numOfAcceptors
    ensures 2 * st'.scouts[s].promisedNum > cfg.numOfAcceptors ==> Ready(cfg, st', s, live)
    ensures 2 * st'.scouts[s].promisedNum <= cfg.numOfAcceptors ==>
              && st'.scouts[s].highest >= st'.scouts[s].number
              && forall p | p in live :: p in st'.acceptors && st'.acceptors[p].promised <= st'.scouts[s].highest
  {
    PromisersStand(st, st', s, live);
  }

  lemma RetryOvertakes(cfg: Config, st: State, s: Id, live: set<Id>)
    requires Shape(cfg, st) && Enabled(cfg, st, Retry(s))
    requires st.scouts[s].highest >= st.scouts[s].number
    requires forall p | p in live :: p in st.acceptors && st.acceptors[p].promised <= st.scouts[s].highest
    ensures Overtakes(Next(cfg, st, Retry(s)), s, live)
  {
  }

  /** A pass in which every live acceptor stands below the number wins. */
  lemma SecondPass(cfg: Config, st: State, st': State, s: Id, live: set<Id>)
    requires Overtakes(st, s, live) && Prepared(st, st', s, live) && 2 * |live| > cfg.numOfAcceptors
    ensures Ready(cfg, st', s, live)
  {
    PromisersStand(st, st', s, live);
  }

  // ---------- the accept pass ----------

  /** The state after the scout's accept messages to visited were answered, and nobody else moved. */
  ghost predicate Accepted(st: State, st': State, s: Id, visited: set<Id>) {
    && s in st.scouts && s in st'.scouts
    && st'.acceptors.Keys == st.acceptors.Keys
    && (forall p | p in st.acceptors :: st'.acceptors[p].promised == st.acceptors[p].promised)
    && var sc, sc' := st.scouts[s], st'.scouts[s];
    && sc'.phase == sc.phase && sc'.number == sc.number && sc'.proposal == sc.proposal
    && sc'.active == sc.active + |visited| && sc'.visited == sc.visited + visited
    && AtNumber(st, visited, sc.number) <= sc'.accepts
  }

  lemma AcceptedNothing(st: State, s: Id)
    requires s in st.scouts
    ensures Accepted(st, st, s, {})
  {
  }

  lemma OneAccept(cfg: Config, st: State, s: Id, p: Id)
    requires Shape(cfg, st) && Enabled(cfg, st, AcceptReply(s, p))
    ensures var sc, st' := st.scouts[s], Next(cfg, st, AcceptReply(s, p));
            var sc' := st'.scouts[s];
            && sc'.phase == sc.phase && sc'.proposal == sc.proposal && sc'.number == sc.number
            && sc'.active == sc.active + 1 && sc'.visited == sc.visited + {p}
            && sc.accepts <= sc'.accepts && (st.acceptors[p].promised == sc.number ==> p in sc'.accepts)
            && st'.acceptors.Keys == st.acceptors.Keys
            && forall q | q in st.acceptors :: st'.acceptors[q].promised == st.acceptors[q].promised
  {
  }

  lemma AcceptedMore(cfg: Config, st: State, mid: State, s: Id, visited: set<Id>, p: Id)
    requires Accepted(st, mid, s, visited) && Shape(cfg, mid) && Enabled(cfg, mid, AcceptReply(s, p))
    requires p !in visited
    ensures Accepted(st, Next(cfg, mid, AcceptReply(s, p)), s, visited + {p})
  {
    OneAccept(cfg, mid, s, p);
    assert |visited + {p}| == |visited| + 1;
    var n := st.scouts[s].number;
    forall q | q in AtNumber(st, visited + {p}, n) ensures q in Next(cfg, mid, AcceptReply(s, p)).scouts[s].accepts {
      if q != p { assert q in AtNumber(st, visited, n); }
    }
  }

  /** With more than half of the acceptors answering and standing at the number, the pass succeeds. */
  lemma AcceptPassWins(cfg: Config, st: State, st': State, s: Id, live: set<Id>)
    requires Accepted(st, st', s, live) && st.scouts[s].active == 0
    requires 2 * |AtNumber(st, live, st.scouts[s].number)| > cfg.numOfAcceptors
    ensures 2 * |st'.scouts[s].accepts| > cfg.numOfAcceptors && 2 * st'.scouts[s].active > cfg.numOfAcceptors
    ensures AcceptResult(cfg, st'.scouts[s].active, |st'.scouts[s].accepts|) == 1
  {
    var at := AtNumber(st, live, st.scouts[s].number);
    Quorum.SubsetSize(at, st'.scouts[s].accepts);
    Quorum.SubsetSize(at, live);
  }

  /** Entering phase 2 moves no acceptor. */
  lemma DecideKeepsStanding(cfg: Config, st: State, s: Id, id: int, live: set<Id>)
    requires Shape(cfg, st) && Enabled(cfg, st, Decide(s, id))
    ensures var st' := Next(cfg, st, Decide(s, id));
            && st'.scouts[s].number == st.scouts[s].number && st'.scouts[s].active == 0
            && AtNumber(st', live, st'.scouts[s].number) == AtNumber(st, live, st.scouts[s].number)
  {
  }

  // ---------- the same for given visiting orders ----------

  /** An order in which a loop visits the acceptors of live, each of them once. */
  ghost predicate Visits(live: set<Id>, order: seq<Id>) {
    && (forall p | p in order :: p in live)
    && (forall p | p in live :: p in order)
    && (forall i, j | 0 <= i < j < |order| :: order[i] != order[j])
  }

  ghost predicate Unvisited(cfg: Config, sc: Scout, order: seq<Id>) {
    && (forall p | p in order :: p in cfg.servers && p !in sc.visited)
    && (forall i, j | 0 <= i < j < |order| :: order[i] != order[j])
  }

  /** One pass of the prepare loop, every message answered. */
  ghost function PrepareRound(cfg: Config, st: State, s: Id, order: seq<Id>): (r: State)
    requires Shape(cfg, st) && InPhase(cfg, st, s, Preparing) && Unvisited(cfg, st.scouts[s], order)
    ensures Shape(cfg, r) && InPhase(cfg, r, s, Preparing)
    decreases |order|
  {
    if order == [] then st
    else PrepareRound(cfg, Next(cfg, st, PrepareReply(s, order[0])), s, order[1..])
  }

  /** One pass of the accept loop, every message answered. */
  ghost function AcceptRound(cfg: Config, st: State, s: Id, order: seq<Id>): (r: State)
    requires Shape(cfg, st) && InPhase(cfg, st, s, Accepting) && Unvisited(cfg, st.scouts[s], order)
    ensures Shape(cfg, r) && InPhase(cfg, r, s, Accepting)
    decreases |order|
  {
    if order == [] then st
    else AcceptRound(cfg, Next(cfg, st, AcceptReply(s, order[0])), s, order[1..])
  }

  function Elements(order: seq<Id>): set<Id> { set p | p in order }

  lemma FirstElement(done: set<Id>, order: seq<Id>)
    requires order != [] && done !! Elements(order)
    requires forall i, j | 0 <= i < j < |order| :: order[i] != order[j]
    ensures order[0] !in done && done + {order[0]} !! Elements(order[1..])
    ensures done + Elements(order) == (done + {order[0]}) + Elements(order[1..])
  {
    assert order == [order[0]] + order[1..];
    assert order[0] in Elements(order);
    forall p | p in order[1..] ensures p in order && p != order[0] {
      var i :| 0 <= i < |order[1..]| && order[1..][i] == p;
      assert order[i + 1] == p;
    }
  }

  lemma PrepareRoundStep(cfg: Config, st: State, s: Id, order: seq<Id>)
    requires order != [] && Shape(cfg, st) && InPhase(cfg, st, s, Preparing) && Unvisited(cfg, st.scouts[s], order)
    ensures Enabled(cfg, st, PrepareReply(s, order[0]))
    ensures var next := Next(cfg, st, PrepareReply(s, order[0]));
            && Shape(cfg, next) && InPhase(cfg, next, s, Preparing) && Unvisited(cfg, next.scouts[s], order[1..])
            && PrepareRound(cfg, st, s, order) == PrepareRound(cfg, next, s, order[1..])
  {
  }

  lemma AcceptRoundStep(cfg: Config, st: State, s: Id, order: seq<Id>)
    requires order != [] && Shape(cfg, st) && InPhase(cfg, st, s, Accepting) && Unvisited(cfg, st.scouts[s], order)
    ensures Enabled(cfg, st, AcceptReply(s, order[0]))
    ensures var next := Next(cfg, st, AcceptReply(s, order[0]));
            && Shape(cfg, next) && InPhase(cfg, next, s, Accepting) && Unvisited(cfg, next.scouts[s], order[1..])
            && AcceptRound(cfg, st, s, order) == AcceptRound(cfg, next, s, order[1..])
  {
  }

  lemma {:induction false} RoundPrepares(cfg: Config, st: State, mid: State, s: Id, done: set<Id>, order: seq<Id>)
    requires Prepared(st, mid, s, done) && done !! Elements(order) && st.acceptors.Keys == cfg.servers
    requires Shape(cfg, mid) && InPhase(cfg, mid, s, Preparing) && Unvisited(cfg, mid.scouts[s], order)
    ensures Prepared(st, PrepareRound(cfg, mid, s, order), s, done + Elements(order))
    decreases |order|
  {
    if order == [] {
      assert done + Elements(order) == done;
    } else {
      PrepareRoundStep(cfg, mid, s, order);
      var next := Next(cfg, mid, PrepareReply(s, order[0]));
      FirstElement(done, order);
      PreparedMore(cfg, st, mid, s, done, order[0]);
      RoundPrepares(cfg, st, next, s, done + {order[0]}, order[1..]);
    }
  }

  lemma {:induction false} RoundAccepts(cfg: Config, st: State, mid: State, s: Id, done: set<Id>, order: seq<Id>)
    requires Accepted(st, mid, s, done) && done !! Elements(order)
    requires Shape(cfg, mid) && InPhase(cfg, mid, s, Accepting) && Unvisited(cfg, mid.scouts[s], order)
    ensures Accepted(st, AcceptRound(cfg, mid, s, order), s, done + Elements(order))
    decreases |order|
  {
    if order == [] {
      assert done + Elements(order) == done;
    } else {
      AcceptRoundStep(cfg, mid, s, order);
      var next := Next(cfg, mid, AcceptReply(s, order[0]));
      FirstElement(done, order);
      AcceptedMore(cfg, st, mid, s, done, order[0]);
      RoundAccepts(cfg, st, next, s, done + {order[0]}, order[1..]);
    }
  }

  /** What one fully answered pass over live does to the counters and the acceptors. */
  lemma PrepareRoundEffect(cfg: Config, st: State, s: Id, live: set<Id>, order: seq<Id>)
    requires Shape(cfg, st) && InPhase(cfg, st, s, Preparing) && Unvisited(cfg, st.scouts[s], order)
    requires Visits(live, order) && st.scouts[s].promisers <= st.scouts[s].visited
    ensures Prepared(st, PrepareRound(cfg, st, s, order), s, live)
  {
    PreparedNothing(st, s);
    RoundPrepares(cfg, st, st, s, {}, order);
    assert {} + Elements(order) == live;
  }

  /** The state in which the scout leaves the prepare loop, for given visiting orders of its two rounds. */
  ghost function Deciding(cfg: Config, st: State, s: Id, live: set<Id>, first: seq<Id>, second: seq<Id>): (r: State)
    requires Shape(cfg, st) && JustStarted(cfg, st, s) && live <= cfg.servers
    requires Visits(live, first) && Visits(live, second)
    ensures Shape(cfg, r) && InPhase(cfg, r, s, Preparing)
  {
    var one := PrepareRound(cfg, st, s, first);
    if Enabled(cfg, one, Retry(s)) then PrepareRound(cfg, Next(cfg, one, Retry(s)), s, second) else one
  }

  /**
   After a failed round in which all of live answered, the number it retries
   with lies above every promise of live.
   */
  lemma FailedRoundShows(cfg: Config, st: State, s: Id, live: set<Id>, first: seq<Id>)
    requires Shape(cfg, st) && JustStarted(cfg, st, s) && live <= cfg.servers && Visits(live, first)
    requires 2 * |live| > cfg.numOfAcceptors
    requires 2 * PrepareRound(cfg, st, s, first).scouts[s].promisedNum <= cfg.numOfAcceptors
    ensures var one := PrepareRound(cfg, st, s, first);
            Enabled(cfg, one, Retry(s)) && Overtakes(Next(cfg, one, Retry(s)), s, live)
  {
    var one := PrepareRound(cfg, st, s, first);
    PrepareRoundEffect(cfg, st, s, live, first);
    FirstPass(cfg, st, one, s, live);
    RetryOvertakes(cfg, one, s, live);
  }

  /**
   Two rounds suffice: from any promises, with more than half of the
   configured acceptors answering, the scout leaves the prepare loop with a
   genuine majority for its number, held by acceptors that still stand at it.
   */
  lemma TwoRoundsSuffice(cfg: Config, st: State, s: Id, live: set<Id>, first: seq<Id>, second: seq<Id>)
    requires Shape(cfg, st) && JustStarted(cfg, st, s) && live <= cfg.servers
    requires Visits(live, first) && Visits(live, second) && 2 * |live| > cfg.numOfAcceptors
    ensures Ready(cfg, Deciding(cfg, st, s, live, first, second), s, live)
  {
    var one := PrepareRound(cfg, st, s, first);
    PrepareRoundEffect(cfg, st, s, live, first);
    FirstPass(cfg, st, one, s, live);
    if 2 * one.scouts[s].promisedNum <= cfg.numOfAcceptors {
      FailedRoundShows(cfg, st, s, live, first);
      var two := Next(cfg, one, Retry(s));
      PrepareRoundEffect(cfg, two, s, live, second);
      SecondPass(cfg, two, PrepareRound(cfg, two, s, second), s, live);
    }
  }

  lemma ResultIsOne(cfg: Config, e: State, s: Id)
    requires Shape(cfg, e) && Enabled(cfg, e, EndAccept(s))
    requires AcceptResult(cfg, e.scouts[s].active, |e.scouts[s].accepts|) == 1
    ensures e.scouts[s].proposal in Next(cfg, e, EndAccept(s)).learns
    ensures Next(cfg, e, EndAccept(s)).scouts[s].phase == Idle
  {
  }

  lemma AcceptRoundSucceeds(cfg: Config, r: State, s: Id, live: set<Id>, third: seq<Id>, id: int)
    requires Shape(cfg, r) && InPhase(cfg, r, s, Preparing) && Ready(cfg, r, s, live)
    requires live <= cfg.servers && Visits(live, third)
    ensures Enabled(cfg, r, Decide(s, id))
    ensures var e := AcceptRound(cfg, Next(cfg, r, Decide(s, id)), s, third);
            && AcceptResult(cfg, e.scouts[s].active, |e.scouts[s].accepts|) == 1
            && e.scouts[s].proposal in Next(cfg, e, EndAccept(s)).learns
            && Next(cfg, e, EndAccept(s)).scouts[s].phase == Idle
  {
    var d := Next(cfg, r, Decide(s, id));
    DecideKeepsStanding(cfg, r, s, id, live);
    AcceptedNothing(d, s);
    RoundAccepts(cfg, d, d, s, {}, third);
    assert {} + Elements(third) == live;
    AcceptPassWins(cfg, d, AcceptRound(cfg, d, s, third), s, live);
    ResultIsOne(cfg, AcceptRound(cfg, d, s, third), s);
  }

  /**
   A call of a scout that runs alone, with more than half of the configured
   acceptors answering, ends after at most two prepare rounds with its command
   handed to the learners.
   */
  lemma SoloCallSucceeds(cfg: Config, st: State, s: Id, live: set<Id>,
                         first: seq<Id>, second: seq<Id>, third: seq<Id>, id: int)
    requires Shape(cfg, st) && JustStarted(cfg, st, s) && live <= cfg.servers
    requires Visits(live, first) && Visits(live, second) && Visits(live, third)
    requires 2 * |live| > cfg.numOfAcceptors
    ensures var r := Deciding(cfg, st, s, live, first, second);
            && Enabled(cfg, r, Decide(s, id))
            && (var e := AcceptRound(cfg, Next(cfg, r, Decide(s, id)), s, third);
                && AcceptResult(cfg, e.scouts[s].active, |e.scouts[s].accepts|) == 1
                && e.scouts[s].proposal in Next(cfg, e, EndAccept(s)).learns
                && Next(cfg, e, EndAccept(s)).scouts[s].phase == Idle)
  {
    TwoRoundsSuffice(cfg, st, s, live, first, second);
    AcceptRoundSucceeds(cfg, Deciding(cfg, st, s, live, first, second), s, live, third, id);
  }
}
