/**
 Runs of the program as written that go wrong: one for each of the two
 hypotheses of safety, meeting the other one, and one for the hypothesis of
 at-most-once, meeting both. All three keep to the discipline of the
 connections, so they are runs the program can make; in the first two every
 message is answered.
 */
module LiteralRuns {
  import opened Common
  import opened Messages
  import opened Learner
  import opened Protocol
  import opened Connections
  import opened AcceptCount

  const THREE := Config({1, 2, 3}, 3)

  /** Two servers hold different commands in one slot. */
  ghost predicate Disagree(st: State, a: Id, b: Id, k: int) {
    && a in st.learners && b in st.learners
    && k in st.learners[a].decisions && k in st.learners[b].decisions
    && st.learners[a].decisions[k] != st.learners[b].decisions[k]
  }

  // ---------- one step at a time ----------

  /** A run, and where it has got to. */
  datatype Scene = Scene(acts: seq<Action>, st: State, wires: Wires)

  /** Which hypotheses the run has met. */
  datatype Met = Met(counted: bool, slotSafe: bool)

  ghost predicate At(x: Scene, f: Met) {
    && Shape(THREE, x.st)
    && (forall b :: Open(b) ==>
          && CanRun(THREE, x.acts) && Run(THREE, x.acts) == x.st
          && WiresOf(THREE, x.acts) == x.wires && Conforms(THREE, x.acts)
          && (f.counted ==> Counted(THREE, x.acts)) && (f.slotSafe ==> SlotSafe(THREE, x.acts)))
  }

  lemma Start(f: Met) returns (x: Scene)
    ensures x == Scene([], Init(THREE), NO_WIRES) && At(x, f)
  {
    x := Scene([], Init(THREE), NO_WIRES);
  }

  lemma Conclude(x: Scene, f: Met)
    requires At(x, f)
    ensures CanRun(THREE, x.acts) && Run(THREE, x.acts) == x.st && Conforms(THREE, x.acts)
    ensures WiresOf(THREE, x.acts) == x.wires
    ensures (f.counted ==> Counted(THREE, x.acts)) && (f.slotSafe ==> SlotSafe(THREE, x.acts))
  {
    assert Open(true);
  }

  lemma Do(x: Scene, f: Met, a: Action) returns (y: Scene)
    requires At(x, f) && Enabled(THREE, x.st, a) && Allowed(THREE, x.st, x.wires, a)
    requires a.Decide? && f.counted ==> CountGuard(THREE, x.st.scouts[a.s])
    requires a.Decide? && f.slotSafe ==> SlotGuard(x.st.scouts[a.s], x.st.learners[a.s])
    ensures y == Scene(x.acts + [a], Next(THREE, x.st, a), NextWires(THREE, x.st, x.wires, a))
    ensures At(y, f)
  {
    y := Scene(x.acts + [a], Next(THREE, x.st, a), NextWires(THREE, x.st, x.wires, a));
    NextShape(THREE, x.st, a);
    Snoc(x, f, a);
  }

  lemma Snoc(x: Scene, f: Met, a: Action)
    requires At(x, f) && Enabled(THREE, x.st, a) && Allowed(THREE, x.st, x.wires, a)
    requires a.Decide? && f.counted ==> CountGuard(THREE, x.st.scouts[a.s])
    requires a.Decide? && f.slotSafe ==> SlotGuard(x.st.scouts[a.s], x.st.learners[a.s])
    ensures CanRun(THREE, x.acts + [a]) && Run(THREE, x.acts + [a]) == Next(THREE, x.st, a)
    ensures WiresOf(THREE, x.acts + [a]) == NextWires(THREE, x.st, x.wires, a) && Conforms(THREE, x.acts + [a])
    ensures f.counted ==> Counted(THREE, x.acts + [a])
    ensures f.slotSafe ==> SlotSafe(THREE, x.acts + [a])
  {
    Conclude(x, f);
    assert Open(true);
    assert (x.acts + [a])[..|x.acts|] == x.acts;
  }

  /** Only scout s has moved. */
  ghost predicate Moved(x: Scene, y: Scene, s: Id, sc: Scout) {
    && s in x.st.scouts && y.st.scouts == x.st.scouts[s := sc]
    && y.st.acceptors == x.st.acceptors && y.st.learners == x.st.learners
    && y.st.lost == x.st.lost && y.st.votes == x.st.votes && y.st.proposals == x.st.proposals
    && y.wires == x.wires
  }

  lemma Begin(x: Scene, f: Met, s: Id, c: int, o: int) returns (y: Scene)
    requires At(x, f) && InPhase(THREE, x.st, s, Idle)
    ensures At(y, f) && Moved(x, y, s, BeginScout(x.st.scouts[s], s, c, o))
  {
    y := Do(x, f, BeginCall(s, c, o));
  }

  /** Acceptor p has promised the number or a higher one, and refuses. */
  lemma Refuse(x: Scene, f: Met, s: Id, p: Id) returns (y: Scene)
    requires At(x, f) && InPhase(THREE, x.st, s, Preparing) && p in THREE.servers
    requires p !in x.st.scouts[s].visited && NextStub(THREE, x.st.scouts[s], x.wires, s, p)
    requires x.st.scouts[s].number <= x.st.acceptors[p].promised
    ensures At(y, f)
    ensures var sc := x.st.scouts[s];
            Moved(x, y, s, sc.(visited := sc.visited + {p}, active := sc.active + 1,
                               highest := Max(sc.highest, x.st.acceptors[p].promised)))
  {
    y := Do(x, f, PrepareReply(s, p));
    assert y.st.acceptors == x.st.acceptors;
  }

  /** What the scout makes of a promise of acceptor a at p. */
  function Heard(sc: Scout, p: Id, a: Acceptor): Scout {
    var told := a.accepted != -1 && a.accepted > sc.best;
    sc.(visited := sc.visited + {p}, active := sc.active + 1, highest := Max(sc.highest, -1),
        promisedNum := sc.promisedNum + 1, promisers := sc.promisers + {p},
        best := if told then a.accepted else sc.best, bestCmd := if told then a.value else sc.bestCmd)
  }

  lemma HeardIs(sc: Scout, p: Id, a: Acceptor)
    requires sc.number > a.promised && -1 <= sc.best && a.value.clientIp == DEFAULT_IP
    ensures OnPromise(sc, p, P1b(a, sc.number)) == Heard(sc, p, a)
  {
  }

  /** Acceptor p promises the number and reports what it accepted. */
  lemma Promise(x: Scene, f: Met, s: Id, p: Id) returns (y: Scene)
    requires At(x, f) && InPhase(THREE, x.st, s, Preparing) && p in THREE.servers
    requires p !in x.st.scouts[s].visited && NextStub(THREE, x.st.scouts[s], x.wires, s, p)
    requires x.st.scouts[s].number > x.st.acceptors[p].promised
    requires -1 <= x.st.scouts[s].best && x.st.acceptors[p].value.clientIp == DEFAULT_IP
    ensures At(y, f)
    ensures var sc, a := x.st.scouts[s], x.st.acceptors[p];
            && y.st == x.st.(acceptors := x.st.acceptors[p := a.(promised := sc.number)],
                             scouts := x.st.scouts[s := Heard(sc, p, a)])
            && y.wires == x.wires
  {
    HeardIs(x.st.scouts[s], p, x.st.acceptors[p]);
    y := Do(x, f, PrepareReply(s, p));
  }

  /** No promise majority: a larger number. */
  lemma Again(x: Scene, f: Met, s: Id) returns (y: Scene)
    requires At(x, f) && Enabled(THREE, x.st, Retry(s)) && PassDone(THREE, x.st.scouts[s], x.wires, s)
    ensures At(y, f) && Moved(x, y, s, RetryScout(x.st.scouts[s]))
  {
    y := Do(x, f, Retry(s));
  }

  /** The scout enters phase 2. */
  lemma Propose(x: Scene, f: Met, s: Id, id: int) returns (y: Scene)
    requires At(x, f) && Enabled(THREE, x.st, Decide(s, id)) && PassDone(THREE, x.st.scouts[s], x.wires, s)
    requires f.counted ==> CountGuard(THREE, x.st.scouts[s])
    requires f.slotSafe ==> SlotGuard(x.st.scouts[s], x.st.learners[s])
    ensures At(y, f) && y.wires == x.wires
    ensures var sc := DecideScout(x.st.scouts[s], x.st.learners[s].decisions, id);
            && y.st.scouts == x.st.scouts[s := sc]
            && y.st.proposals == x.st.proposals + {Proposal(sc.number, sc.proposal)}
    ensures y.st.acceptors == x.st.acceptors && y.st.learners == x.st.learners
    ensures y.st.lost == x.st.lost && y.st.votes == x.st.votes
  {
    y := Do(x, f, Decide(s, id));
  }

  /** Acceptor p stands at the number and accepts. */
  lemma Accept(x: Scene, f: Met, s: Id, p: Id) returns (y: Scene)
    requires At(x, f) && InPhase(THREE, x.st, s, Accepting) && p in THREE.servers
    requires p !in x.st.scouts[s].visited && NextStub(THREE, x.st.scouts[s], x.wires, s, p)
    requires x.st.acceptors[p].promised == x.st.scouts[s].number
    ensures At(y, f) && y.wires == x.wires
    ensures var sc := x.st.scouts[s];
            && y.st.acceptors == x.st.acceptors[p := Acceptor(sc.number, sc.number, sc.proposal)]
            && y.st.scouts == x.st.scouts[s := AgreedBy(sc, p)]
            && y.st.learners == x.st.learners && y.st.lost == x.st.lost && y.st.proposals == x.st.proposals
            && y.st.learns == x.st.learns
  {
    y := Do(x, f, AcceptReply(s, p));
  }

  /** Acceptor p has promised another number and refuses. */
  lemma Reject(x: Scene, f: Met, s: Id, p: Id) returns (y: Scene)
    requires At(x, f) && InPhase(THREE, x.st, s, Accepting) && p in THREE.servers
    requires p !in x.st.scouts[s].visited && NextStub(THREE, x.st.scouts[s], x.wires, s, p)
    requires x.st.acceptors[p].promised != x.st.scouts[s].number
    ensures At(y, f)
    ensures var sc := x.st.scouts[s];
            Moved(x, y, s, sc.(visited := sc.visited + {p}, active := sc.active + 1))
  {
    y := Do(x, f, AcceptReply(s, p));
    assert y.st.acceptors == x.st.acceptors;
  }

  /** A majority accepted: the command goes out to the learners. */
  lemma HandOut(x: Scene, f: Met, s: Id) returns (y: Scene)
    requires At(x, f) && InPhase(THREE, x.st, s, Accepting) && PassDone(THREE, x.st.scouts[s], x.wires, s)
    requires THREE.Majority(x.st.scouts[s].active) && THREE.Majority(|x.st.scouts[s].accepts|)
    ensures At(y, f)
    ensures var sc := x.st.scouts[s];
            && y.st == x.st.(scouts := x.st.scouts[s := sc.(phase := Idle)], learns := x.st.learns + {sc.proposal})
            && y.wires == x.wires.(sent := x.wires.sent[s := SentBy(x.wires, s) + [sc.proposal]])
  {
    y := Do(x, f, EndAccept(s));
  }

  /** Learner l handles the first message of commander s. */
  lemma Learns(x: Scene, f: Met, s: Id, l: Id, c: Command) returns (y: Scene)
    requires At(x, f) && Enabled(THREE, x.st, Deliver(l, c))
    requires s in THREE.servers && SentBy(x.wires, s) == [c]
    ensures At(y, f)
    ensures y.st == x.st.(learners := x.st.learners[l := LearnOne(x.st.learners[l], c)])
    ensures y.wires == x.wires.(handled := x.wires.handled + {Receipt(l, c)})
  {
    assert SentBy(x.wires, s)[0] == c;
    assert NextFrom(x.wires, s, l, c);
    y := Do(x, f, Deliver(l, c));
  }

  // ---------- whole passes, with all three acceptors ----------

  /** Every acceptor has promised v. */
  predicate AllPromised(st: State, v: int) {
    forall p | p in THREE.servers :: p in st.acceptors && st.acceptors[p].promised == v
  }

  /** The scout is refused by all and takes the next number. */
  lemma RefusedByAll(x: Scene, f: Met, s: Id, v: int) returns (y: Scene)
    requires At(x, f) && InPhase(THREE, x.st, s, Preparing) && (forall q :: Link(s, q) !in x.wires.closed)
    requires x.st.scouts[s] == StartPrepare(x.st.scouts[s])
    requires AllPromised(x.st, v) && 0 <= v && x.st.scouts[s].number <= v
    ensures At(y, f)
    ensures Moved(x, y, s, x.st.scouts[s].(number := v + 1, active := 3, highest := v))
  {
    y := Refuse(x, f, s, 1);
    y := Refuse(y, f, s, 2);
    y := Refuse(y, f, s, 3);
    y := Again(y, f, s);
    assert y.st.scouts == x.st.scouts[s := x.st.scouts[s].(number := v + 1, active := 3, highest := v)];
  }

  function AgreedBy(sc: Scout, p: Id): Scout {
    sc.(visited := sc.visited + {p}, active := sc.active + 1, accepts := sc.accepts + {p})
  }

  lemma CountedThrice(sc: Scout)
    requires sc.visited == {} && sc.accepts == {} && sc.active == 0
    ensures AgreedBy(AgreedBy(AgreedBy(sc, 1), 2), 3) == sc.(visited := {1, 2, 3}, active := 3, accepts := {1, 2, 3})
  {
  }

  /** The scout's messages of phase 2 are all answered with agreement. */
  lemma VotedByAll(x: Scene, f: Met, s: Id) returns (y: Scene)
    requires At(x, f) && InPhase(THREE, x.st, s, Accepting) && (forall q :: Link(s, q) !in x.wires.closed)
    requires AllPromised(x.st, x.st.scouts[s].number)
    requires x.st.scouts[s].visited == {} && x.st.scouts[s].accepts == {} && x.st.scouts[s].active == 0
    ensures At(y, f) && y.wires == x.wires
    ensures var sc := x.st.scouts[s];
            && (forall p | p in THREE.servers :: y.st.acceptors[p] == Acceptor(sc.number, sc.number, sc.proposal))
            && (forall t | t in THREE.servers && t != s :: y.st.scouts[t] == x.st.scouts[t])
            && y.st.scouts[s] == sc.(visited := {1, 2, 3}, active := 3, accepts := {1, 2, 3})
            && y.st.learners == x.st.learners && y.st.learns == x.st.learns
  {
    y := Accept(x, f, s, 1);
    y := Accept(y, f, s, 2);
    y := Accept(y, f, s, 3);
    CountedThrice(x.st.scouts[s]);
  }

  lemma AcceptedByAll(x: Scene, f: Met, s: Id) returns (y: Scene)
    requires At(x, f) && InPhase(THREE, x.st, s, Accepting) && (forall q :: Link(s, q) !in x.wires.closed)
    requires AllPromised(x.st, x.st.scouts[s].number)
    requires x.st.scouts[s].visited == {} && x.st.scouts[s].accepts == {} && x.st.scouts[s].active == 0
    ensures At(y, f)
    ensures var sc := x.st.scouts[s];
            && (forall p | p in THREE.servers :: y.st.acceptors[p] == Acceptor(sc.number, sc.number, sc.proposal))
            && (forall t | t in THREE.servers && t != s :: y.st.scouts[t] == x.st.scouts[t])
            && y.st.scouts[s] == sc.(phase := Idle, visited := {1, 2, 3}, active := 3, accepts := {1, 2, 3})
            && y.st.learns == x.st.learns + {sc.proposal} && y.st.learners == x.st.learners
            && y.wires == x.wires.(sent := x.wires.sent[s := SentBy(x.wires, s) + [sc.proposal]])
  {
    y := VotedByAll(x, f, s);
    assert |y.st.scouts[s].accepts| == 3;
    y := HandOut(y, f, s);
  }

  lemma HeardThrice(sc: Scout, a: Acceptor)
    requires sc.visited == {} && sc.promisers == {} && sc.promisedNum == 0
    requires sc.best == -1 && -1 <= sc.highest && -1 <= a.accepted
    requires a.accepted == -1 ==> a.value == sc.bestCmd
    ensures Heard(Heard(Heard(sc, 1, a), 2, a), 3, a)
            == sc.(visited := {1, 2, 3}, active := sc.active + 3, promisedNum := 3, promisers := {1, 2, 3},
                   best := a.accepted, bestCmd := a.value)
  {
  }

  /** The scout is promised by all, each of which accepted `a` or nothing before. */
  lemma PromisedByAll(x: Scene, f: Met, s: Id, a: Acceptor) returns (y: Scene)
    requires At(x, f) && InPhase(THREE, x.st, s, Preparing) && x.wires.closed == {}
    requires x.st.scouts[s].visited == {} && x.st.scouts[s].promisers == {} && x.st.scouts[s].promisedNum == 0
    requires x.st.scouts[s].best == -1 && -1 <= x.st.scouts[s].highest && -1 <= a.accepted
    requires forall p | p in THREE.servers :: x.st.acceptors[p] == a
    requires a.promised < x.st.scouts[s].number && a.value.clientIp == DEFAULT_IP
    requires a.accepted == -1 ==> a.value == x.st.scouts[s].bestCmd
    ensures At(y, f) && y.wires == x.wires
    ensures var sc := x.st.scouts[s];
            && (forall p | p in THREE.servers :: y.st.acceptors[p] == a.(promised := sc.number))
            && (forall t | t in THREE.servers && t != s :: y.st.scouts[t] == x.st.scouts[t])
            && y.st.scouts[s] == sc.(visited := {1, 2, 3}, active := sc.active + 3, promisedNum := 3,
                                     promisers := {1, 2, 3}, best := a.accepted, bestCmd := a.value)
            && y.st.learners == x.st.learners && y.st.lost == x.st.lost && y.st.votes == x.st.votes
  {
    y := Promise(x, f, s, 1);
    y := Promise(y, f, s, 2);
    y := Promise(y, f, s, 3);
    HeardThrice(x.st.scouts[s], a);
  }

  /** A whole order: promised and accepted by all, in slot k. */
  lemma ChosenByAll(x: Scene, f: Met, s: Id, a: Acceptor, id: int, k: int) returns (y: Scene)
    requires At(x, f) && InPhase(THREE, x.st, s, Preparing) && x.wires.closed == {}
    requires x.st.scouts[s].visited == {} && x.st.scouts[s].promisers == {} && x.st.scouts[s].promisedNum == 0
    requires x.st.scouts[s].best == -1 && -1 <= x.st.scouts[s].highest && -1 <= a.accepted
    requires forall p | p in THREE.servers :: x.st.acceptors[p] == a
    requires a.promised < x.st.scouts[s].number && a.value.clientIp == DEFAULT_IP
    requires a.accepted == -1 ==> a.value == x.st.scouts[s].bestCmd
    requires a.accepted == -1 || a.value.slot in x.st.learners[s].decisions
    requires f.slotSafe ==> a.accepted == -1 || a.value.slot < x.st.learners[s].slotOut
    requires FirstFree(x.st.learners[s].decisions, x.st.scouts[s].slotIn) == k
    ensures At(y, f)
    ensures var sc := x.st.scouts[s];
            var c := Command(k, id, DEFAULT_IP, sc.request.customerId, sc.request.orderId);
            && (forall p | p in THREE.servers :: y.st.acceptors[p] == Acceptor(sc.number, sc.number, c))
            && (forall t | t in THREE.servers && t != s :: y.st.scouts[t] == x.st.scouts[t])
            && c in y.st.learns && y.st.learners == x.st.learners
            && y.wires == x.wires.(sent := x.wires.sent[s := SentBy(x.wires, s) + [c]])
  {
    y := PromisedByAll(x, f, s, a);
    assert |y.st.scouts[s].promisers| == 3;
    y := Propose(y, f, s, id);
    y := AcceptedByAll(y, f, s);
  }

  // ---------- a later slot learned before an earlier one ----------

  const X := Command(1, 100, DEFAULT_IP, 7, 70)
  const Z := Command(2, 200, DEFAULT_IP, 8, 80)
  const W := Command(1, 300, DEFAULT_IP, 9, 90)

  const COUNTED := Met(true, false)

  /** Server 1 gets X chosen in slot 1; server 2 learns it. */
  lemma SlotRunFirst() returns (x: Scene)
    ensures At(x, COUNTED) && x.wires.closed == {}
    ensures forall p | p in THREE.servers :: x.st.acceptors[p] == Acceptor(0, 0, X)
    ensures x.st.scouts[2] == x.st.scouts[3] == INIT_SCOUT
    ensures x.st.learners[2].decisions == map[1 := X] && x.st.learners[3] == Learner.INIT
    ensures x.wires.sent == map[1 := [X]]
  {
    x := Start(COUNTED);
    x := Begin(x, COUNTED, 1, 7, 70);
    FirstFreeUnique(map[], 1, 1);
    x := ChosenByAll(x, COUNTED, 1, INIT_ACCEPTOR, 100, 1);
    x := Learns(x, COUNTED, 1, 2, X);
  }

  /** Server 2 gets Z chosen in slot 2; server 3 learns Z from server 2 before X from server 1. */
  lemma SlotRunSecond() returns (x: Scene)
    ensures At(x, COUNTED) && x.wires.closed == {}
    ensures forall p | p in THREE.servers :: x.st.acceptors[p] == Acceptor(1, 1, Z)
    ensures x.st.scouts[3] == INIT_SCOUT
    ensures x.st.learners[2].decisions == map[1 := X] && x.st.learners[3].decisions == map[2 := Z]
    ensures SentBy(x.wires, 3) == []
  {
    x := SlotRunFirst();
    x := Begin(x, COUNTED, 2, 8, 80);
    x := RefusedByAll(x, COUNTED, 2, 0);
    FirstFreeUnique(map[1 := X], 1, 2);
    x := ChosenByAll(x, COUNTED, 2, Acceptor(0, 0, X), 200, 2);
    x := Learns(x, COUNTED, 2, 3, Z);
  }

  /** Server 3, which has learned slot 2 before slot 1, gets W chosen in slot 1. */
  lemma SlotRunThird() returns (x: Scene)
    ensures At(x, COUNTED) && W in x.st.learns && SentBy(x.wires, 3) == [W] && x.wires.closed == {}
    ensures x.st.learners[2].decisions == map[1 := X] && x.st.learners[3].decisions == map[2 := Z]
  {
    x := SlotRunSecond();
    x := Begin(x, COUNTED, 3, 9, 90);
    x := RefusedByAll(x, COUNTED, 3, 1);
    FirstFreeUnique(map[2 := Z], 1, 1);
    x := ChosenByAll(x, COUNTED, 3, Acceptor(1, 1, Z), 300, 1);
  }

  /** Without the slot hypothesis an already decided slot is filled again. */
  lemma SlotHypothesisNeeded() returns (acts: seq<Action>)
    ensures THREE.Valid() && CanRun(THREE, acts) && Conforms(THREE, acts) && Counted(THREE, acts)
    ensures WiresOf(THREE, acts).closed == {}
    ensures Disagree(Run(THREE, acts), 2, 3, 1)
  {
    var x := SlotRunThird();
    x := Learns(x, COUNTED, 3, 3, W);
    Conclude(x, COUNTED);
    acts := x.acts;
  }

  // ---------- promises for different numbers added together ----------

  const U := Command(1, 301, DEFAULT_IP, 9, 90)
  const Y := Command(1, 201, DEFAULT_IP, 7, 70)

  const SLOT_SAFE := Met(false, true)

  /** An acceptor that has promised n and accepted nothing. */
  function Fresh(n: int): Acceptor { Acceptor(n, -1, NO_COMMAND) }

  /** A preparing scout that has been told of no accepted command. */
  predicate Untold(sc: Scout, s: Id, order: int, number: int, active: nat, promisedNum: nat) {
    && sc.phase == Preparing && sc.best == -1 && sc.slotIn == 1 && sc.number == number && 0 <= sc.highest <= number
    && sc.active == active && sc.promisedNum == promisedNum && sc.request == Request(s, 0, order, 10 * order)
  }

  /** Scout 1 is promised 0 by acceptor 1, scout 2 by the other two. */
  lemma CountRunBegin() returns (x: Scene)
    ensures At(x, SLOT_SAFE) && x.wires == NO_WIRES && x.st.learners == Init(THREE).learners
    ensures forall p | p in THREE.servers :: x.st.acceptors[p] == Fresh(0)
    ensures x.st.scouts[1] == Heard(BeginScout(INIT_SCOUT, 1, 7, 70), 1, INIT_ACCEPTOR)
    ensures x.st.scouts[3] == INIT_SCOUT
  {
    x := Start(SLOT_SAFE);
    x := Begin(x, SLOT_SAFE, 1, 7, 70);
    x := Begin(x, SLOT_SAFE, 2, 8, 80);
    x := Promise(x, SLOT_SAFE, 1, 1);
    x := Refuse(x, SLOT_SAFE, 2, 1);
    x := Promise(x, SLOT_SAFE, 2, 2);
    x := Promise(x, SLOT_SAFE, 2, 3);
  }

  /** The others refuse scout 1, which takes number 1 and keeps its one promise for 0 in the count. */
  lemma CountRunRetry() returns (x: Scene)
    ensures At(x, SLOT_SAFE) && x.wires == NO_WIRES && x.st.learners == Init(THREE).learners
    ensures forall p | p in THREE.servers :: x.st.acceptors[p] == Fresh(0)
    ensures Untold(x.st.scouts[1], 1, 7, 1, 3, 1) && x.st.scouts[1].visited == {}
    ensures x.st.scouts[3] == INIT_SCOUT
  {
    x := CountRunBegin();
    x := Refuse(x, SLOT_SAFE, 1, 2);
    x := Refuse(x, SLOT_SAFE, 1, 3);
    x := Again(x, SLOT_SAFE, 1);
  }

  /** Scout 3 is refused for 0 and takes number 1; acceptor 1 promises 1 to scout 1. */
  lemma CountRunBothAtOne() returns (x: Scene)
    ensures At(x, SLOT_SAFE) && x.wires == NO_WIRES && x.st.learners == Init(THREE).learners
    ensures x.st.acceptors[1] == Fresh(1) && x.st.acceptors[2] == x.st.acceptors[3] == Fresh(0)
    ensures Untold(x.st.scouts[1], 1, 7, 1, 4, 2) && x.st.scouts[1].visited == {1}
    ensures Untold(x.st.scouts[3], 3, 9, 1, 3, 0) && x.st.scouts[3].visited == {}
  {
    x := CountRunRetry();
    x := Begin(x, SLOT_SAFE, 3, 9, 90);
    x := RefusedByAll(x, SLOT_SAFE, 3, 0);
    x := Promise(x, SLOT_SAFE, 1, 1);
  }

  /** Acceptors 2 and 3 promise 1 to scout 3. */
  lemma CountRunSplit() returns (x: Scene)
    ensures At(x, SLOT_SAFE) && x.wires == NO_WIRES && x.st.learners == Init(THREE).learners
    ensures forall p | p in THREE.servers :: x.st.acceptors[p] == Fresh(1)
    ensures Untold(x.st.scouts[1], 1, 7, 1, 4, 2) && x.st.scouts[1].visited == {1}
    ensures Untold(x.st.scouts[3], 3, 9, 1, 6, 2) && x.st.scouts[3].visited == {1, 2, 3}
  {
    x := CountRunBothAtOne();
    x := Refuse(x, SLOT_SAFE, 3, 1);
    x := Promise(x, SLOT_SAFE, 3, 2);
    x := Promise(x, SLOT_SAFE, 3, 3);
  }

  /** Acceptors 2 and 3 refuse scout 1, which still counts two promises. */
  lemma CountRunMixed() returns (x: Scene)
    ensures At(x, SLOT_SAFE) && x.wires == NO_WIRES && x.st.learners == Init(THREE).learners
    ensures forall p | p in THREE.servers :: x.st.acceptors[p] == Fresh(1)
    ensures Untold(x.st.scouts[1], 1, 7, 1, 6, 2) && x.st.scouts[1].visited == {1, 2, 3}
    ensures Untold(x.st.scouts[3], 3, 9, 1, 6, 2) && x.st.scouts[3].visited == {1, 2, 3}
  {
    x := CountRunSplit();
    x := Refuse(x, SLOT_SAFE, 1, 2);
    x := Refuse(x, SLOT_SAFE, 1, 3);
  }

  /** Both count two promises and propose with number 1. */
  lemma CountRunPropose() returns (x: Scene)
    ensures At(x, SLOT_SAFE) && x.wires == NO_WIRES && x.st.learners == Init(THREE).learners
    ensures AllPromised(x.st, 1)
    ensures forall s | s == 1 || s == 3 ::
              var sc := x.st.scouts[s];
              && sc.phase == Accepting && sc.number == 1 && sc.visited == {} && sc.accepts == {} && sc.active == 0
              && sc.proposal == if s == 1 then Y else U
  {
    x := CountRunMixed();
    FirstFreeUnique(map[], 1, 1);
    x := Propose(x, SLOT_SAFE, 3, 301);
    x := Propose(x, SLOT_SAFE, 1, 201);
  }

  /** All acceptors stand at 1 and accept both proposals. */
  lemma CountRunChosen() returns (x: Scene)
    ensures At(x, SLOT_SAFE) && x.st.learners == Init(THREE).learners && Y in x.st.learns && U in x.st.learns
    ensures SentBy(x.wires, 1) == [Y] && SentBy(x.wires, 3) == [U] && x.wires.closed == {}
  {
    x := CountRunPropose();
    x := AcceptedByAll(x, SLOT_SAFE, 3);
    x := AcceptedByAll(x, SLOT_SAFE, 1);
  }

  /** Without the count hypothesis two servers end with different commands in slot 1. */
  lemma CountHypothesisNeeded() returns (acts: seq<Action>)
    ensures THREE.Valid() && CanRun(THREE, acts) && Conforms(THREE, acts) && SlotSafe(THREE, acts)
    ensures WiresOf(THREE, acts).closed == {}
    ensures Disagree(Run(THREE, acts), 1, 2, 1)
  {
    var x := CountRunChosen();
    FirstFreeUnique(map[], 1, 1);
    x := Learns(x, SLOT_SAFE, 1, 1, Y);
    x := Learns(x, SLOT_SAFE, 3, 2, U);
    Conclude(x, SLOT_SAFE);
    acts := x.acts;
  }

  // ---------- an own command dropped after a reply was lost ----------

  const X2 := Command(2, 101, DEFAULT_IP, 7, 70)

  const BOTH := Met(true, true)

  /** The message to p is accepted there, but its reply is not read. */
  lemma AcceptUnheard(x: Scene, f: Met, s: Id, p: Id) returns (y: Scene)
    requires At(x, f) && InPhase(THREE, x.st, s, Accepting) && p in THREE.servers
    requires p !in x.st.scouts[s].visited && NextStub(THREE, x.st.scouts[s], x.wires, s, p)
    requires var sc := x.st.scouts[s];
             && Proposal(sc.number, sc.proposal) in x.st.proposals && x.st.acceptors[p].promised == sc.number
             && Vote(p, sc.number, sc.proposal) !in x.st.votes
    ensures At(y, f)
    ensures var sc := x.st.scouts[s];
            && y.st.acceptors == x.st.acceptors[p := Acceptor(sc.number, sc.number, sc.proposal)]
            && y.st.scouts == x.st.scouts[s := sc.(visited := sc.visited + {p}, active := sc.active + 1)]
            && y.st.learners == x.st.learners && y.st.proposals == x.st.proposals
            && y.wires == x.wires.(closed := x.wires.closed + {Link(s, p)})
  {
    var sc := x.st.scouts[s];
    y := Do(x, f, AcceptLost(s, p));
    y := Do(y, f, StrayAccept(p, sc.number, sc.proposal));
  }

  /** Nobody counted agreed: the scout starts its call's order again. */
  lemma FullReject(x: Scene, f: Met, s: Id) returns (y: Scene)
    requires At(x, f) && InPhase(THREE, x.st, s, Accepting) && PassDone(THREE, x.st.scouts[s], x.wires, s)
    requires THREE.Majority(x.st.scouts[s].active) && x.st.scouts[s].accepts == {}
    ensures At(y, f) && Moved(x, y, s, StartPrepare(x.st.scouts[s]))
  {
    y := Do(x, f, EndAccept(s));
  }

  /** Scout 1 is in its only call, for order 70 of customer 7. */
  predicate OnlyCall(sc: Scout) {
    sc.calls == 1 && sc.request == Request(1, 0, 7, 70)
  }

  /** Acceptor 1 accepts X, and scout 1 does not hear of it. */
  lemma LostRunFirst() returns (x: Scene)
    ensures At(x, BOTH) && x.wires == Wires({Link(1, 1)}, map[], {}) && x.st.learners == Init(THREE).learners
    ensures x.st.acceptors[1] == Acceptor(0, 0, X) && x.st.acceptors[2] == x.st.acceptors[3] == Fresh(0)
    ensures x.st.scouts[2] == INIT_SCOUT
    ensures var sc := x.st.scouts[1];
            && OnlyCall(sc) && sc.phase == Accepting && sc.own && sc.number == 0 && sc.slotIn == 1
            && sc.visited == {1} && sc.active == 1 && sc.accepts == {}
  {
    x := Start(BOTH);
    x := Begin(x, BOTH, 1, 7, 70);
    x := PromisedByAll(x, BOTH, 1, INIT_ACCEPTOR);
    assert |x.st.scouts[1].promisers| == 3;
    FirstFreeUnique(map[], 1, 1);
    x := Propose(x, BOTH, 1, 100);
    x := AcceptUnheard(x, BOTH, 1, 1);
  }

  /** Scout 2 is refused for 0, takes number 1, and is told of X. */
  lemma LostRunSecond() returns (x: Scene)
    ensures At(x, BOTH) && x.wires == Wires({Link(1, 1)}, map[], {}) && x.st.learners == Init(THREE).learners
    ensures x.st.acceptors[1] == Acceptor(1, 0, X) && x.st.acceptors[2] == x.st.acceptors[3] == Fresh(1)
    ensures var sc := x.st.scouts[2];
            && sc.phase == Preparing && sc.number == 1 && sc.best == 0 && sc.bestCmd == X && sc.active == 6
            && sc.promisedNum == 3 && sc.promisers == {1, 2, 3} && sc.visited == {1, 2, 3}
            && sc.calls == 1 && sc.request == Request(2, 0, 9, 90)
    ensures var sc := x.st.scouts[1];
            && OnlyCall(sc) && sc.phase == Accepting && sc.own && sc.number == 0 && sc.slotIn == 1
            && sc.visited == {1} && sc.active == 1 && sc.accepts == {}
  {
    x := LostRunFirst();
    x := Begin(x, BOTH, 2, 9, 90);
    x := RefusedByAll(x, BOTH, 2, 0);
    x := Promise(x, BOTH, 2, 1);
    x := Promise(x, BOTH, 2, 2);
    x := Promise(x, BOTH, 2, 3);
  }

  /** The other two refuse X, so scout 1 counts no agreement and starts again. */
  lemma LostRunThird() returns (x: Scene)
    ensures At(x, BOTH) && x.wires == Wires({Link(1, 1)}, map[], {}) && x.st.learners == Init(THREE).learners
    ensures AllPromised(x.st, 1)
    ensures var sc := x.st.scouts[2];
            && sc.phase == Preparing && sc.number == 1 && sc.best == 0 && sc.bestCmd == X && sc.active == 6
            && sc.promisedNum == 3 && sc.promisers == {1, 2, 3} && sc.visited == {1, 2, 3}
            && sc.calls == 1 && sc.request == Request(2, 0, 9, 90)
    ensures var sc := x.st.scouts[1];
            OnlyCall(sc) && sc.phase == Preparing && sc == StartPrepare(sc) && sc.number == 0 && sc.slotIn == 1
  {
    x := LostRunSecond();
    x := Reject(x, BOTH, 1, 2);
    x := Reject(x, BOTH, 1, 3);
    x := FullReject(x, BOTH, 1);
  }

  /** Scout 2 has X chosen, and server 1 learns it in slot 1. */
  lemma LostRunFourth() returns (x: Scene)
    ensures At(x, BOTH) && x.wires.closed == {Link(1, 1)} && SentBy(x.wires, 1) == []
    ensures forall p | p in THREE.servers :: x.st.acceptors[p] == Acceptor(1, 1, X)
    ensures x.st.learners[1].decisions == map[1 := X] && x.st.learners[1].slotOut == 2
    ensures x.st.scouts[2].calls == 1 && x.st.scouts[2].request == Request(2, 0, 9, 90)
    ensures var sc := x.st.scouts[1];
            OnlyCall(sc) && sc.phase == Preparing && sc == StartPrepare(sc) && sc.number == 0 && sc.slotIn == 1
  {
    x := LostRunThird();
    assert |x.st.scouts[2].promisers| == 3;
    x := Propose(x, BOTH, 2, 0);
    x := AcceptedByAll(x, BOTH, 2);
    FirstFreeUnique(map[1 := X], 1, 2);
    x := Learns(x, BOTH, 2, 1, X);
  }

  /** Without its stub of acceptor 1, scout 1 is refused by the others and takes number 2. */
  lemma LostRunFifth() returns (x: Scene)
    ensures At(x, BOTH) && x.wires.closed == {Link(1, 1)} && SentBy(x.wires, 1) == []
    ensures x.st.acceptors[2] == x.st.acceptors[3] == Acceptor(1, 1, X)
    ensures x.st.learners[1].decisions == map[1 := X] && x.st.learners[1].slotOut == 2
    ensures x.st.scouts[2].calls == 1 && x.st.scouts[2].request == Request(2, 0, 9, 90)
    ensures var sc := x.st.scouts[1];
            && OnlyCall(sc) && sc == StartPrepare(sc).(number := 2, active := 2, highest := 1) && sc.slotIn == 1
  {
    x := LostRunFourth();
    x := Refuse(x, BOTH, 1, 2);
    x := Refuse(x, BOTH, 1, 3);
    x := Again(x, BOTH, 1);
  }

  /** They promise it and tell of X, which is learned: scout 1 proposes its order again, in slot 2. */
  lemma LostRunSixth() returns (x: Scene)
    ensures At(x, BOTH) && x.wires.closed == {Link(1, 1)} && SentBy(x.wires, 1) == []
    ensures x.st.acceptors[2].promised == x.st.acceptors[3].promised == 2
    ensures x.st.learners[1].decisions == map[1 := X] && x.st.learners[1].slotOut == 2
    ensures x.st.scouts[2].calls == 1 && x.st.scouts[2].request == Request(2, 0, 9, 90)
    ensures var sc := x.st.scouts[1];
            && OnlyCall(sc) && sc.phase == Accepting && sc.number == 2 && sc.proposal == X2
            && sc.visited == {} && sc.accepts == {} && sc.active == 0
  {
    x := LostRunFifth();
    x := Promise(x, BOTH, 1, 2);
    x := Promise(x, BOTH, 1, 3);
    assert x.st.scouts[1].promisers == {2, 3} && |{2, 3}| == 2;
    FirstFreeUnique(map[1 := X], 1, 2);
    x := Propose(x, BOTH, 1, 101);
  }

  /** Both accept it, and it goes out to the learners. */
  lemma LostRunSeventh() returns (x: Scene)
    ensures At(x, BOTH) && x.wires.closed == {Link(1, 1)} && SentBy(x.wires, 1) == [X2] && X2 in x.st.learns
    ensures x.st.learners[1].decisions == map[1 := X] && x.st.learners[1].slotOut == 2
    ensures OnlyCall(x.st.scouts[1])
    ensures x.st.scouts[2].calls == 1 && x.st.scouts[2].request == Request(2, 0, 9, 90)
  {
    x := LostRunSixth();
    x := Accept(x, BOTH, 1, 2);
    x := Accept(x, BOTH, 1, 3);
    assert x.st.scouts[1].accepts == {2, 3} && |{2, 3}| == 2;
    x := HandOut(x, BOTH, 1);
  }

  /**
   When an own command is dropped although one reply was not read, one order
   can fill two slots, in a run that meets both safety hypotheses and loses no
   other message: server 1 handles its only call, for order 70 of customer 7,
   and ends with that order in slots 1 and 2.
   */
  lemma ReliabilityNeeded() returns (acts: seq<Action>)
    ensures THREE.Valid() && CanRun(THREE, acts) && Conforms(THREE, acts)
    ensures Guarded(THREE, acts) && HandledOnce(THREE, acts)
    ensures WiresOf(THREE, acts).closed == {Link(1, 1)}
    ensures var st := Run(THREE, acts);
            && OnlyCall(st.scouts[1]) && st.scouts[2].calls == 1 && st.scouts[2].request == Request(2, 0, 9, 90)
            && 1 in st.learners[1].decisions && st.learners[1].decisions[1] == X
            && 2 in st.learners[1].decisions && st.learners[1].decisions[2] == X2
  {
    var x := LostRunSeventh();
    x := Learns(x, BOTH, 1, 1, X2);
    Conclude(x, BOTH);
    acts := x.acts;
    ConformingHandledOnce(THREE, acts);
  }
}
