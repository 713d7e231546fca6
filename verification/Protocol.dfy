/**
 The whole system as a state machine: every server is an acceptor, a scout
 (with its commander) and a learner. One action is one atomic handler, or one
 local step of a scout; any interleaving of actions is a run.

 The steps are those of the program as written: the prepare loop carries its
 promise counter, its count of active acceptors, its highest number and its
 best reported command from round to round, a retry uses the highest number
 seen in a reply plus one, a reported command counts as finished as soon as
 its slot holds a decision, and an own command takes the first free slot.

 Beside the program's variables the state keeps history: who promised the
 number a scout is using (promisers), who accepted what (votes), the commands
 proposed (proposals), the accept messages whose reply was never read (lost),
 the commands handed to learners (learns), and for each number the prepare
 phase that won it (wins).
 */
module Protocol {
  import opened Messages
  import opened Learner

  type Id = int

  /**
   The servers, and the count each one compares majorities with. The count is
   raised for every configured peer, so a peer configured twice makes it larger
   than the number of servers.
   */
  datatype Config = Config(servers: set<Id>, numOfAcceptors: nat) {
    ghost predicate Valid() { |servers| <= numOfAcceptors }

    predicate Majority(k: int) { k > numOfAcceptors / 2 }
  }

  /** One customer order handled by one call of ScoutBrocasting. */
  datatype Request = Request(server: Id, call: nat, customerId: int, orderId: int)

  /** One acceptor, for the whole log: a promise and the last accepted command. */
  datatype Acceptor = Acceptor(promised: int, accepted: int, value: Command)

  datatype Phase = Idle | Preparing | Accepting

  datatype Scout = Scout(
    phase: Phase,
    number: int,              // proposalNumber; kept from call to call
    slotIn: int,              // kept from call to call
    calls: nat,
    request: Request,
    visited: set<Id>,         // stubs the running loop has sent to
    active: nat,
    promisedNum: nat,
    highest: int,
    best: int,                // acceptor_acceptedProposal
    bestCmd: Command,
    promisers: set<Id>,       // history: who promised `number` since it was chosen
    proposal: Command,
    own: bool,
    accepts: set<Id>)         // accept_number counts these

  datatype Vote = Vote(acceptor: Id, number: int, cmd: Command)

  datatype Proposal = Proposal(number: int, cmd: Command)

  /** History of a won prepare phase; parent is the highest accepted number it was told, or -1. */
  datatype Win = Win(quorum: set<Id>, parent: int, cmd: Command, request: Request)

  datatype State = State(
    acceptors: map<Id, Acceptor>,
    scouts: map<Id, Scout>,
    learners: map<Id, LearnerState>,
    votes: set<Vote>,
    proposals: set<Proposal>,
    wins: map<int, Win>,
    lost: set<Vote>,
    learns: set<Command>)

  datatype Action =
    | BeginCall(s: Id, customerId: int, orderId: int)
    | PrepareReply(s: Id, p: Id)            // 1a sent, handled, 1b received
    | PrepareLost(s: Id, p: Id)             // 1a sent, the reply never arrives
    | Abandon(s: Id)                        // too few active acceptors: return 0
    | Retry(s: Id)                          // no majority: continue with a larger number
    | Decide(s: Id, commandId: int)         // majority: choose the command, enter phase 2
    | AcceptReply(s: Id, p: Id)             // 2a sent, handled, 2b received
    | AcceptLost(s: Id, p: Id)
    | EndAccept(s: Id)                      // evaluate the result of phase 2
    | StrayPrepare(p: Id, n: int)           // an acceptor handles a 1a nobody waits for
    | StrayAccept(p: Id, n: int, c: Command)
    | Deliver(l: Id, c: Command)            // a learner handles a phase-5 message

  // ---------- initial state ----------

  const NO_REQUEST := Request(0, 0, -1, -1)

  const INIT_ACCEPTOR := Acceptor(-1, -1, NO_COMMAND)

  const INIT_SCOUT := Scout(Idle, 0, 1, 0, NO_REQUEST, {}, 0, 0, -1, -1, NO_COMMAND, {}, NO_COMMAND, false, {})

  function Init(cfg: Config): State {
    State(map s | s in cfg.servers :: INIT_ACCEPTOR,
          map s | s in cfg.servers :: INIT_SCOUT,
          map s | s in cfg.servers :: Learner.INIT,
          {}, {}, map[], {}, {})
  }

  // ---------- the acceptor's handlers ----------

  function PromiseTo(a: Acceptor, n: int): Acceptor {
    if n > a.promised then a.(promised := n) else a
  }

  function P1b(a: Acceptor, n: int): PaxosMsg {
    if n > a.promised then
      var m := NewMsg(2).(agree := 1);
      if a.accepted != -1 then m.(acceptedProposal := a.accepted).SetCommand(a.value) else m
    else
      NewMsg(2).(agree := 0, proposeNumber := a.promised)
  }

  function AcceptAt(a: Acceptor, n: int, c: Command): Acceptor {
    if n == a.promised then a.(accepted := n, value := c) else a
  }

  function P2b(a: Acceptor, n: int): PaxosMsg {
    NewMsg(4).(agree := if n == a.promised then 1 else 0)
  }

  // ---------- the scout's local steps ----------

  function Max(a: int, b: int): int { if a < b then b else a }

  /** The locals of ScoutBrocasting at label start_proposalNum_compete. */
  function StartPrepare(sc: Scout): Scout {
    sc.(phase := Preparing, visited := {}, active := 0, promisedNum := 0, highest := -1,
        best := -1, bestCmd := NO_COMMAND, promisers := {})
  }

  function BeginScout(sc: Scout, s: Id, customerId: int, orderId: int): Scout {
    StartPrepare(sc.(request := Request(s, sc.calls, customerId, orderId), calls := sc.calls + 1))
  }

  /** What the prepare loop does with the reply m of acceptor p. */
  function OnPromise(sc: Scout, p: Id, m: PaxosMsg): Scout {
    var heard := sc.(visited := sc.visited + {p}, active := sc.active + 1,
                     highest := Max(sc.highest, m.proposeNumber));
    if m.agree == 0 then heard
    else
      var counted := heard.(promisedNum := sc.promisedNum + 1, promisers := sc.promisers + {p});
      if m.acceptedProposal > sc.best
      then counted.(best := m.acceptedProposal, bestCmd := m.GetCommand())
      else counted
  }

  /** `continue`: only the number changes; all counters are carried into the next round. */
  function RetryScout(sc: Scout): Scout {
    sc.(number := sc.highest + 1, visited := {},
        promisers := if sc.highest + 1 == sc.number then sc.promisers else {})
  }

  /** The choice between an own command and the reported one. */
  predicate ProposesOwn(sc: Scout, d: map<int, Command>) {
    sc.best == -1 || sc.bestCmd.slot in d
  }

  function DecideScout(sc: Scout, d: map<int, Command>, commandId: int): Scout {
    if ProposesOwn(sc, d) then
      var k := FirstFree(d, sc.slotIn);
      sc.(phase := Accepting, visited := {}, active := 0, accepts := {}, own := true, slotIn := k,
          proposal := Command(k, commandId, DEFAULT_IP, sc.request.customerId, sc.request.orderId))
    else
      sc.(phase := Accepting, visited := {}, active := 0, accepts := {}, own := false, proposal := sc.bestCmd)
  }

  function OnAccepted(sc: Scout, p: Id, m: PaxosMsg): Scout {
    var heard := sc.(visited := sc.visited + {p}, active := sc.active + 1);
    if m.agree == 0 then heard else heard.(accepts := sc.accepts + {p})
  }

  /** The result of AcceptPhaseBrocasting. */
  function AcceptResult(cfg: Config, active: int, accepted: int): int {
    if !cfg.Majority(active) then -2
    else if accepted == 0 then 0
    else if !cfg.Majority(accepted) then -1
    else 1
  }

  /** What ScoutBrocasting does with that result: learn, restart, or end the call. */
  function AfterAccept(cfg: Config, sc: Scout): Scout {
    var r := AcceptResult(cfg, sc.active, |sc.accepts|);
    if r == 0 || (r == -1 && !sc.own) then StartPrepare(sc) else sc.(phase := Idle)
  }

  // ---------- the step relation ----------

  ghost predicate Shape(cfg: Config, st: State) {
    st.acceptors.Keys == cfg.servers && st.scouts.Keys == cfg.servers && st.learners.Keys == cfg.servers
  }

  predicate InPhase(cfg: Config, st: State, s: Id, ph: Phase) {
    s in cfg.servers && s in st.scouts && st.scouts[s].phase == ph
  }

  predicate Enabled(cfg: Config, st: State, a: Action) {
    match a
    case BeginCall(s, _, _) => InPhase(cfg, st, s, Idle)
    case PrepareReply(s, p) => InPhase(cfg, st, s, Preparing) && p in cfg.servers && p !in st.scouts[s].visited
    case PrepareLost(s, p) => InPhase(cfg, st, s, Preparing) && p in cfg.servers && p !in st.scouts[s].visited
    case Abandon(s) => InPhase(cfg, st, s, Preparing) && !cfg.Majority(st.scouts[s].active)
    case Retry(s) => InPhase(cfg, st, s, Preparing) && cfg.Majority(st.scouts[s].active) &&
                     !cfg.Majority(st.scouts[s].promisedNum)
    case Decide(s, _) => InPhase(cfg, st, s, Preparing) && cfg.Majority(st.scouts[s].active) &&
                         cfg.Majority(st.scouts[s].promisedNum)
    case AcceptReply(s, p) => InPhase(cfg, st, s, Accepting) && p in cfg.servers && p !in st.scouts[s].visited
    case AcceptLost(s, p) => InPhase(cfg, st, s, Accepting) && p in cfg.servers && p !in st.scouts[s].visited
    case EndAccept(s) => InPhase(cfg, st, s, Accepting)
    case StrayPrepare(p, _) => p in cfg.servers
    case StrayAccept(p, n, c) => p in cfg.servers && Proposal(n, c) in st.proposals
    case Deliver(l, c) => l in cfg.servers && c in st.learns
  }

  function SetScout(st: State, s: Id, sc: Scout): State {
    st.(scouts := st.scouts[s := sc])
  }

  function PromiseStep(st: State, p: Id, n: int): State
    requires p in st.acceptors
  {
    st.(acceptors := st.acceptors[p := PromiseTo(st.acceptors[p], n)])
  }

  function VoteStep(st: State, p: Id, n: int, c: Command): State
    requires p in st.acceptors
  {
    st.(acceptors := st.acceptors[p := AcceptAt(st.acceptors[p], n, c)],
        votes := if n == st.acceptors[p].promised then st.votes + {Vote(p, n, c)} else st.votes)
  }

  /** The request a command serves: this call's for an own command, the parent's for a reported one. */
  function RequestOf(st: State, sc: Scout, d: map<int, Command>): Request {
    if ProposesOwn(sc, d) then sc.request
    else if sc.best in st.wins then st.wins[sc.best].request else NO_REQUEST
  }

  function DecideStep(st: State, s: Id, commandId: int): State
    requires s in st.scouts && s in st.learners
  {
    var sc := st.scouts[s];
    var d := st.learners[s].decisions;
    var sc' := DecideScout(sc, d, commandId);
    st.(scouts := st.scouts[s := sc'],
        proposals := st.proposals + {Proposal(sc.number, sc'.proposal)},
        wins := st.wins[sc.number := Win(sc.promisers, sc.best, sc'.proposal, RequestOf(st, sc, d))])
  }

  function EndAcceptStep(cfg: Config, st: State, s: Id): State
    requires s in st.scouts
  {
    var sc := st.scouts[s];
    SetScout(st, s, AfterAccept(cfg, sc))
    .(learns := if AcceptResult(cfg, sc.active, |sc.accepts|) == 1
                then st.learns + {sc.proposal} else st.learns)
  }

  function Next(cfg: Config, st: State, a: Action): State
    requires Shape(cfg, st) && Enabled(cfg, st, a)
  {
    match a
    case BeginCall(s, c, o) => SetScout(st, s, BeginScout(st.scouts[s], s, c, o))
    case PrepareReply(s, p) =>
      var sc := st.scouts[s];
      SetScout(PromiseStep(st, p, sc.number), s, OnPromise(sc, p, P1b(st.acceptors[p], sc.number)))
    case PrepareLost(s, p) => SetScout(st, s, OnPromise(st.scouts[s], p, NO_REPLY))
    case Abandon(s) => SetScout(st, s, st.scouts[s].(phase := Idle))
    case Retry(s) => SetScout(st, s, RetryScout(st.scouts[s]))
    case Decide(s, id) => DecideStep(st, s, id)
    case AcceptReply(s, p) =>
      var sc := st.scouts[s];
      SetScout(VoteStep(st, p, sc.number, sc.proposal), s, OnAccepted(sc, p, P2b(st.acceptors[p], sc.number)))
    case AcceptLost(s, p) =>
      var sc := st.scouts[s];
      SetScout(st, s, OnAccepted(sc, p, NO_REPLY)).(lost := st.lost + {Vote(p, sc.number, sc.proposal)})
    case EndAccept(s) => EndAcceptStep(cfg, st, s)
    case StrayPrepare(p, n) => PromiseStep(st, p, n)
    case StrayAccept(p, n, c) => VoteStep(st, p, n, c)
    case Deliver(l, c) => st.(learners := st.learners[l := LearnOne(st.learners[l], c)])
  }

  lemma NextShape(cfg: Config, st: State, a: Action)
    requires Shape(cfg, st) && Enabled(cfg, st, a)
    ensures Shape(cfg, Next(cfg, st, a))
  {
  }

  // ---------- what the tests mean, in numbers ----------

  /** More than half is enough, and no less is. */
  lemma MajorityMeans(cfg: Config, k: int)
    ensures cfg.Majority(k) <==> 2 * k > cfg.numOfAcceptors
  {
  }

  /** After a pass exactly one of the three ways on is open, and which one is a matter of the two counts. */
  lemma PassOutcome(cfg: Config, st: State, s: Id)
    requires InPhase(cfg, st, s, Preparing)
    ensures var active, promised, n := st.scouts[s].active, st.scouts[s].promisedNum, cfg.numOfAcceptors;
            && (Enabled(cfg, st, Abandon(s)) <==> 2 * active <= n)
            && (Enabled(cfg, st, Retry(s)) <==> 2 * active > n && 2 * promised <= n)
            && (forall id :: Enabled(cfg, st, Decide(s, id)) <==> 2 * active > n && 2 * promised > n)
  {
  }

  /** The result of phase 2: too few answers come before everything else. */
  lemma AcceptResultMeans(cfg: Config, active: int, accepted: int)
    requires 0 <= accepted <= active
    ensures var r, n := AcceptResult(cfg, active, accepted), cfg.numOfAcceptors;
            && (r == -2 <==> 2 * active <= n)
            && (r == 0 <==> 2 * active > n && accepted == 0)
            && (r == -1 <==> 2 * active > n && 0 < 2 * accepted <= n)
            && (r == 1 <==> 2 * accepted > n)
            && r in {1, 0, -1, -2}
  {
  }

  // ---------- runs ----------

  /** The state a sequence of actions leads to, if every action is possible when it is taken. */
  function Run(cfg: Config, acts: seq<Action>): (st: State)
    requires CanRun(cfg, acts)
    ensures Shape(cfg, st)
    decreases |acts|, 1
  {
    if acts == [] then Init(cfg)
    else Next(cfg, Run(cfg, acts[..|acts| - 1]), acts[|acts| - 1])
  }

  predicate CanRun(cfg: Config, acts: seq<Action>)
    decreases |acts|, 0
  {
    acts == [] ||
    (CanRun(cfg, acts[..|acts| - 1]) && Enabled(cfg, Run(cfg, acts[..|acts| - 1]), acts[|acts| - 1]))
  }

  // ---------- the two hypotheses of safety ----------

  /** A majority promised the very number the scout is about to use. */
  predicate CountGuard(cfg: Config, sc: Scout) {
    cfg.Majority(|sc.promisers|)
  }

  /** A reported command is passed over only when every slot up to its own is learned. */
  predicate SlotGuard(sc: Scout, l: LearnerState) {
    sc.best != -1 && ProposesOwn(sc, l.decisions) ==> sc.bestCmd.slot < l.slotOut
  }

  /** A Decide step is taken only under CountGuard. */
  predicate Guard(cfg: Config, st: State, a: Action)
    requires Enabled(cfg, st, a) && Shape(cfg, st)
  {
    a.Decide? ==> CountGuard(cfg, st.scouts[a.s])
  }

  /** Every Decide step of the run had a majority for its own number. */
  ghost predicate Counted(cfg: Config, acts: seq<Action>)
    requires CanRun(cfg, acts)
  {
    if acts == [] then true
    else
      var st, a := Run(cfg, acts[..|acts| - 1]), acts[|acts| - 1];
      Counted(cfg, acts[..|acts| - 1]) && (a.Decide? ==> CountGuard(cfg, st.scouts[a.s]))
  }

  /** Every Decide step of the run passed over a reported command only when it was safe to. */
  ghost predicate SlotSafe(cfg: Config, acts: seq<Action>)
    requires CanRun(cfg, acts)
  {
    if acts == [] then true
    else
      var st, a := Run(cfg, acts[..|acts| - 1]), acts[|acts| - 1];
      SlotSafe(cfg, acts[..|acts| - 1]) && (a.Decide? ==> SlotGuard(st.scouts[a.s], st.learners[a.s]))
  }

  ghost predicate Guarded(cfg: Config, acts: seq<Action>)
    requires CanRun(cfg, acts)
  {
    Counted(cfg, acts) && SlotSafe(cfg, acts)
  }

  // ---------- decided ----------

  function Voters(cfg: Config, st: State, n: int, c: Command): set<Id> {
    set p | p in cfg.servers && Vote(p, n, c) in st.votes
  }

  /** A strict majority of the acceptors accepted c at number n. */
  predicate Chosen(cfg: Config, st: State, n: int, c: Command) {
    cfg.Majority(|Voters(cfg, st, n, c)|)
  }
}
