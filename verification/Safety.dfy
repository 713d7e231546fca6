/**
 Safety of the multi-slot protocol.

 An acceptor keeps a single promise and a single accepted command for the
 whole log, so agreement does not follow slot by slot. It follows from three
 facts about the numbers that win a prepare phase: each number is won once;
 the chosen numbers lie on one chain of parents; and along that chain a slot
 either keeps its command or rises. The first two (Inv) need only that every
 winner had a majority for its own number. The third (Rising) also needs that
 reported commands are passed over only when it is safe to.
 */
module Safety {
  import opened Messages
  import opened Learner
  import opened Protocol
  import opened Runs
  import opened EveryRun
  import Quorum

  // ---------- the invariant ----------

  ghost predicate AcceptorsOk(cfg: Config, st: State) {
    forall p | p in st.acceptors ::
      var a := st.acceptors[p];
      && -1 <= a.accepted <= a.promised
      && (a.accepted != -1 ==> Vote(p, a.accepted, a.value) in st.votes)
  }

  /** Every vote is for the command of the one win of its number. */
  ghost predicate VotesOk(cfg: Config, st: State) {
    forall v | v in st.votes ::
      && v.acceptor in cfg.servers
      && v.number in st.wins && v.cmd == st.wins[v.number].cmd
      && v.acceptor in st.acceptors && v.number <= st.acceptors[v.acceptor].accepted
  }

  ghost predicate ProposalsOk(cfg: Config, st: State) {
    forall q | q in st.proposals :: q.number in st.wins && q.cmd == st.wins[q.number].cmd
  }

  /** No acceptor of qs has accepted, or will ever accept, a number strictly between lo and hi. */
  ghost predicate Blocked(st: State, qs: set<Id>, lo: int, hi: int) {
    && (forall p | p in qs :: p in st.acceptors && hi <= st.acceptors[p].promised)
    && (forall v | v in st.votes && v.acceptor in qs :: !(lo < v.number < hi))
  }

  ghost predicate WinOk(cfg: Config, st: State, n: int, w: Win) {
    && 0 <= n
    && w.quorum <= cfg.servers && cfg.Majority(|w.quorum|)
    && Blocked(st, w.quorum, w.parent, n)
    && (w.parent == -1 || (w.parent in st.wins && 0 <= w.parent < n))
  }

  ghost predicate WinsOk(cfg: Config, st: State) {
    forall n | n in st.wins :: WinOk(cfg, st, n, st.wins[n])
  }

  ghost predicate PreparingOk(cfg: Config, st: State, sc: Scout) {
    && sc.promisers <= cfg.servers
    && Blocked(st, sc.promisers, sc.best, sc.number)
    && (sc.best != -1 ==>
          && sc.best in st.wins && sc.bestCmd == st.wins[sc.best].cmd
          && (forall p | p in sc.promisers && p in st.wins[sc.best].quorum :: sc.best < sc.number))
    && (sc.number in st.wins ==> sc.promisers !! st.wins[sc.number].quorum)
  }

  ghost predicate AcceptingOk(cfg: Config, st: State, sc: Scout) {
    Proposal(sc.number, sc.proposal) in st.proposals
  }

  ghost predicate ScoutOk(cfg: Config, st: State, sc: Scout) {
    && 0 <= sc.number && -1 <= sc.highest && -1 <= sc.best
    && (sc.phase == Preparing ==> PreparingOk(cfg, st, sc))
    && (sc.phase == Accepting ==> AcceptingOk(cfg, st, sc))
  }

  ghost predicate ScoutsOk(cfg: Config, st: State) {
    forall s | s in st.scouts :: ScoutOk(cfg, st, st.scouts[s])
  }

  /** An acceptor promises a number once, so scouts using one number share no promiser. */
  ghost predicate Apart(a: Scout, b: Scout) {
    a.phase == Preparing && b.phase == Preparing && a.number == b.number ==> a.promisers !! b.promisers
  }

  ghost predicate ScoutsApart(cfg: Config, st: State) {
    forall s, t | s in st.scouts && t in st.scouts && s != t :: Apart(st.scouts[s], st.scouts[t])
  }

  ghost predicate HistoryOk(cfg: Config, st: State) {
    AcceptorsOk(cfg, st) && VotesOk(cfg, st) && ProposalsOk(cfg, st) && WinsOk(cfg, st)
  }

  ghost predicate Inv(cfg: Config, st: State) {
    Shape(cfg, st) && HistoryOk(cfg, st) && ScoutsOk(cfg, st) && ScoutsApart(cfg, st)
  }

  lemma InitInv(cfg: Config)
    ensures Inv(cfg, Init(cfg))
  {
  }

  // ---------- each kind of step keeps it ----------

  /** Acceptors and history are the same in both states. */
  ghost predicate SameHistory(st: State, st': State) {
    && st'.acceptors == st.acceptors && st'.votes == st.votes
    && st'.proposals == st.proposals && st'.wins == st.wins
  }

  lemma ScoutFrame(cfg: Config, st: State, st': State, sc: Scout)
    requires SameHistory(st, st') && ScoutOk(cfg, st, sc)
    ensures ScoutOk(cfg, st', sc)
  {
  }

  lemma HistoryFrame(cfg: Config, st: State, st': State)
    requires SameHistory(st, st') && HistoryOk(cfg, st)
    ensures HistoryOk(cfg, st')
  {
    forall n | n in st'.wins ensures WinOk(cfg, st', n, st'.wins[n]) {
      assert WinOk(cfg, st, n, st.wins[n]);
    }
  }

  /** A step that touches one scout only, beside learners and what is handed to them. */
  lemma ScoutStepInv(cfg: Config, st: State, st': State, s: Id, sc: Scout)
    requires Inv(cfg, st) && Shape(cfg, st') && s in cfg.servers
    requires SameHistory(st, st') && st'.scouts == st.scouts[s := sc]
    requires ScoutOk(cfg, st, sc)
    requires forall t | t in st.scouts && t != s :: Apart(sc, st.scouts[t])
    ensures Inv(cfg, st')
  {
    HistoryFrame(cfg, st, st');
    ScoutsUpdated(cfg, st, st', s, sc);
  }

  lemma ScoutsUpdated(cfg: Config, st: State, st': State, s: Id, sc: Scout)
    requires SameHistory(st, st') && st'.scouts == st.scouts[s := sc]
    requires ScoutsOk(cfg, st) && ScoutsApart(cfg, st)
    requires ScoutOk(cfg, st, sc)
    requires forall t | t in st.scouts && t != s :: Apart(sc, st.scouts[t])
    ensures ScoutsOk(cfg, st') && ScoutsApart(cfg, st')
  {
    forall t | t in st'.scouts ensures ScoutOk(cfg, st', st'.scouts[t]) {
      ScoutFrame(cfg, st, st', st'.scouts[t]);
    }
    forall t, u | t in st'.scouts && u in st'.scouts && t != u ensures Apart(st'.scouts[t], st'.scouts[u]) {
      if t == s {
        assert Apart(sc, st.scouts[u]);
      } else if u == s {
        assert Apart(sc, st.scouts[t]);
      } else {
        assert Apart(st.scouts[t], st.scouts[u]);
      }
    }
  }

  lemma BlockedByPromise(st: State, p: Id, n: int, qs: set<Id>, lo: int, hi: int)
    requires p in st.acceptors && Blocked(st, qs, lo, hi)
    ensures Blocked(PromiseStep(st, p, n), qs, lo, hi)
  {
  }

  lemma PromiseStepHistory(cfg: Config, st: State, p: Id, n: int)
    requires p in st.acceptors && HistoryOk(cfg, st)
    ensures HistoryOk(cfg, PromiseStep(st, p, n))
  {
    var st' := PromiseStep(st, p, n);
    forall m | m in st'.wins ensures WinOk(cfg, st', m, st'.wins[m]) {
      assert WinOk(cfg, st, m, st.wins[m]);
      BlockedByPromise(st, p, n, st.wins[m].quorum, st.wins[m].parent, m);
    }
  }

  lemma PromiseStepScout(cfg: Config, st: State, p: Id, n: int, sc: Scout)
    requires p in st.acceptors && ScoutOk(cfg, st, sc)
    ensures ScoutOk(cfg, PromiseStep(st, p, n), sc)
  {
    if sc.phase == Preparing { BlockedByPromise(st, p, n, sc.promisers, sc.best, sc.number); }
  }

  lemma PromiseStepInv(cfg: Config, st: State, p: Id, n: int)
    requires Inv(cfg, st) && p in cfg.servers
    ensures Inv(cfg, PromiseStep(st, p, n))
  {
    PromiseStepHistory(cfg, st, p, n);
    forall s | s in st.scouts ensures ScoutOk(cfg, PromiseStep(st, p, n), st.scouts[s]) {
      PromiseStepScout(cfg, st, p, n, st.scouts[s]);
    }
  }

  /** The step the whole argument rests on: a vote is cast only at the current promise. */
  lemma BlockedKept(cfg: Config, st: State, p: Id, n: int, c: Command, qs: set<Id>, lo: int, hi: int)
    requires p in st.acceptors && Blocked(st, qs, lo, hi)
    ensures Blocked(VoteStep(st, p, n, c), qs, lo, hi)
  {
  }

  lemma VoteStepVotes(cfg: Config, st: State, p: Id, n: int, c: Command)
    requires p in cfg.servers && p in st.acceptors && Proposal(n, c) in st.proposals
    requires AcceptorsOk(cfg, st) && VotesOk(cfg, st) && ProposalsOk(cfg, st)
    ensures AcceptorsOk(cfg, VoteStep(st, p, n, c)) && VotesOk(cfg, VoteStep(st, p, n, c))
    ensures ProposalsOk(cfg, VoteStep(st, p, n, c))
  {
  }

  lemma VoteStepWins(cfg: Config, st: State, p: Id, n: int, c: Command)
    requires p in st.acceptors && WinsOk(cfg, st)
    ensures WinsOk(cfg, VoteStep(st, p, n, c))
  {
    var st' := VoteStep(st, p, n, c);
    forall m | m in st'.wins ensures WinOk(cfg, st', m, st'.wins[m]) {
      assert WinOk(cfg, st, m, st.wins[m]);
      BlockedKept(cfg, st, p, n, c, st.wins[m].quorum, st.wins[m].parent, m);
    }
  }

  lemma VoteStepScout(cfg: Config, st: State, p: Id, n: int, c: Command, sc: Scout)
    requires p in st.acceptors && ScoutOk(cfg, st, sc)
    ensures ScoutOk(cfg, VoteStep(st, p, n, c), sc)
  {
    if sc.phase == Preparing { BlockedKept(cfg, st, p, n, c, sc.promisers, sc.best, sc.number); }
  }

  lemma VoteStepInv(cfg: Config, st: State, p: Id, n: int, c: Command)
    requires Inv(cfg, st) && p in cfg.servers && Proposal(n, c) in st.proposals
    ensures Inv(cfg, VoteStep(st, p, n, c))
  {
    assert WinOk(cfg, st, n, st.wins[n]);
    VoteStepVotes(cfg, st, p, n, c);
    VoteStepWins(cfg, st, p, n, c);
    forall s | s in st.scouts ensures ScoutOk(cfg, VoteStep(st, p, n, c), st.scouts[s]) {
      VoteStepScout(cfg, st, p, n, c, st.scouts[s]);
    }
  }

  /** The scout after one answered prepare message. */
  lemma ReplyScoutOk(cfg: Config, st: State, s: Id, p: Id)
    requires Inv(cfg, st) && Enabled(cfg, st, PrepareReply(s, p))
    ensures var sc := st.scouts[s];
            ScoutOk(cfg, PromiseStep(st, p, sc.number), OnPromise(sc, p, P1b(st.acceptors[p], sc.number)))
  {
    var sc := st.scouts[s];
    PromiseStepScout(cfg, st, p, sc.number, sc);
    if sc.number > st.acceptors[p].promised { PromiseHeard(cfg, st, sc, p); }
  }

  /** An acceptor that promises the number now has promised it to no other scout. */
  lemma ReplyApart(cfg: Config, st: State, s: Id, p: Id, t: Scout)
    requires Enabled(cfg, st, PrepareReply(s, p)) && p in st.acceptors && ScoutOk(cfg, st, t) && Apart(st.scouts[s], t)
    ensures Apart(OnPromise(st.scouts[s], p, P1b(st.acceptors[p], st.scouts[s].number)), t)
  {
  }

  lemma PrepareReplyInv(cfg: Config, st: State, s: Id, p: Id)
    requires Inv(cfg, st) && Enabled(cfg, st, PrepareReply(s, p))
    ensures Inv(cfg, Next(cfg, st, PrepareReply(s, p)))
  {
    var sc := st.scouts[s];
    var mid := PromiseStep(st, p, sc.number);
    var sc' := OnPromise(sc, p, P1b(st.acceptors[p], sc.number));
    PromiseStepInv(cfg, st, p, sc.number);
    ReplyScoutOk(cfg, st, s, p);
    forall t | t in st.scouts && t != s ensures Apart(sc', st.scouts[t]) {
      ReplyApart(cfg, st, s, p, st.scouts[t]);
    }
    ScoutStepInv(cfg, mid, SetScout(mid, s, sc'), s, sc');
  }

  lemma PromiseHeard(cfg: Config, st: State, sc: Scout, p: Id)
    requires HistoryOk(cfg, st) && p in cfg.servers && p in st.acceptors
    requires sc.phase == Preparing && ScoutOk(cfg, st, sc)
    requires sc.number > st.acceptors[p].promised
    ensures PreparingOk(cfg, PromiseStep(st, p, sc.number), OnPromise(sc, p, P1b(st.acceptors[p], sc.number)))
  {
    var a := st.acceptors[p];
    var mid := PromiseStep(st, p, sc.number);
    var sc' := OnPromise(sc, p, P1b(a, sc.number));
    if sc.number in st.wins {
      assert WinOk(cfg, st, sc.number, st.wins[sc.number]);
    }
    if sc'.best != -1 {
      assert sc'.best in st.wins && sc'.bestCmd == st.wins[sc'.best].cmd;
      assert WinOk(cfg, st, sc'.best, st.wins[sc'.best]);
      forall q | q in sc'.promisers && q in st.wins[sc'.best].quorum ensures sc'.best < sc'.number {
      }
    }
  }

  lemma AcceptReplyInv(cfg: Config, st: State, s: Id, p: Id)
    requires Inv(cfg, st) && Enabled(cfg, st, AcceptReply(s, p))
    ensures Inv(cfg, Next(cfg, st, AcceptReply(s, p)))
  {
    var sc := st.scouts[s];
    assert ScoutOk(cfg, st, sc);
    var mid := VoteStep(st, p, sc.number, sc.proposal);
    VoteStepInv(cfg, st, p, sc.number, sc.proposal);
    var sc' := OnAccepted(sc, p, P2b(st.acceptors[p], sc.number));
    assert ScoutOk(cfg, mid, sc');
    ScoutStepInv(cfg, mid, SetScout(mid, s, sc'), s, sc');
  }

  // ---------- winning a number ----------

  /**
   One winner per number: a scout that decides with a majority for its number
   finds the number unused, although numbers are not unique to a server.
   */
  lemma FreshNumber(cfg: Config, st: State, s: Id)
    requires cfg.Valid() && Inv(cfg, st) && InPhase(cfg, st, s, Preparing)
    requires CountGuard(cfg, st.scouts[s])
    ensures st.scouts[s].number !in st.wins
  {
    var sc := st.scouts[s];
    assert ScoutOk(cfg, st, sc);
    if sc.number in st.wins {
      assert WinOk(cfg, st, sc.number, st.wins[sc.number]);
      Quorum.MajoritiesMeet(cfg.servers, cfg.numOfAcceptors, sc.promisers, st.wins[sc.number].quorum);
    }
  }

  /** The free slot lies above everything below slotOut, in whatever order commands were learned. */
  lemma FreeSlotAbove(l: LearnerState, slotIn: int)
    requires WellFormed(l) && 1 <= slotIn
    ensures FirstFree(l.decisions, slotIn) >= l.slotOut
  {
    var k := FirstFree(l.decisions, slotIn);
    assert !(1 <= k < l.slotOut);
  }

  /**
   The program's test at an own proposal is right exactly when the guard
   holds: the slot it takes lies above the reported command's slot if and only
   if every slot up to that one is learned. Module Slots states it of the
   states of every run.
   */
  lemma SlotRisesIff(l: LearnerState, slotIn: int, reported: Command)
    requires WellFormed(l) && 1 <= slotIn && 1 <= reported.slot
    requires forall k :: 1 <= k < slotIn ==> k in l.decisions
    ensures FirstFree(l.decisions, slotIn) > reported.slot <==> reported.slot < l.slotOut
  {
    FreeSlotAbove(l, slotIn);
    var k := FirstFree(l.decisions, slotIn);
    if k > reported.slot {
      assert forall i :: 1 <= i < k ==> i in l.decisions;
      assert !(l.slotOut <= reported.slot);
    }
  }

  lemma WinAdded(cfg: Config, st: State, s: Id, id: int)
    requires cfg.Valid() && Inv(cfg, st) && Enabled(cfg, st, Decide(s, id)) && CountGuard(cfg, st.scouts[s])
    ensures var st' := Next(cfg, st, Decide(s, id));
            var n := st.scouts[s].number;
            WinOk(cfg, st', n, st'.wins[n])
  {
    var sc := st.scouts[s];
    assert ScoutOk(cfg, st, sc);
    FreshNumber(cfg, st, s);
    if sc.best != -1 {
      var w := st.wins[sc.best];
      assert WinOk(cfg, st, sc.best, w);
      Quorum.MajoritiesMeet(cfg.servers, cfg.numOfAcceptors, sc.promisers, w.quorum);
      assert sc.best < sc.number;
    }
  }

  lemma OtherScoutAtDecide(cfg: Config, st: State, s: Id, id: int, t: Scout)
    requires Inv(cfg, st) && Enabled(cfg, st, Decide(s, id))
    requires st.scouts[s].number !in st.wins && ScoutOk(cfg, st, t) && Apart(st.scouts[s], t)
    ensures ScoutOk(cfg, Next(cfg, st, Decide(s, id)), t)
  {
  }

  lemma WinsAtDecide(cfg: Config, st: State, s: Id, id: int)
    requires cfg.Valid() && Inv(cfg, st) && Enabled(cfg, st, Decide(s, id))
    requires CountGuard(cfg, st.scouts[s])
    ensures WinsOk(cfg, Next(cfg, st, Decide(s, id)))
  {
    var st' := Next(cfg, st, Decide(s, id));
    FreshNumber(cfg, st, s);
    WinAdded(cfg, st, s, id);
    forall m | m in st'.wins ensures WinOk(cfg, st', m, st'.wins[m]) {
      if m != st.scouts[s].number { assert WinOk(cfg, st, m, st.wins[m]); }
    }
  }

  lemma ScoutsAtDecide(cfg: Config, st: State, s: Id, id: int)
    requires cfg.Valid() && Inv(cfg, st) && Enabled(cfg, st, Decide(s, id))
    requires CountGuard(cfg, st.scouts[s])
    ensures ScoutsOk(cfg, Next(cfg, st, Decide(s, id)))
  {
    var sc := st.scouts[s];
    var st' := Next(cfg, st, Decide(s, id));
    FreshNumber(cfg, st, s);
    forall t | t in st'.scouts && t != s ensures ScoutOk(cfg, st', st'.scouts[t]) {
      assert Apart(sc, st.scouts[t]);
      OtherScoutAtDecide(cfg, st, s, id, st.scouts[t]);
    }
  }

  lemma HistoryAtDecide(cfg: Config, st: State, s: Id, id: int)
    requires Shape(cfg, st) && Enabled(cfg, st, Decide(s, id)) && st.scouts[s].number !in st.wins
    requires AcceptorsOk(cfg, st) && VotesOk(cfg, st) && ProposalsOk(cfg, st)
    ensures var st' := Next(cfg, st, Decide(s, id));
            AcceptorsOk(cfg, st') && VotesOk(cfg, st') && ProposalsOk(cfg, st')
  {
  }

  lemma ApartAtDecide(cfg: Config, st: State, s: Id, id: int)
    requires Shape(cfg, st) && Enabled(cfg, st, Decide(s, id)) && ScoutsApart(cfg, st)
    ensures ScoutsApart(cfg, Next(cfg, st, Decide(s, id)))
  {
    var st' := Next(cfg, st, Decide(s, id));
    forall t, u | t in st'.scouts && u in st'.scouts && t != u ensures Apart(st'.scouts[t], st'.scouts[u]) {
      assert Apart(st.scouts[t], st.scouts[u]);
    }
  }

  /** A scout that enters phase 2 with a majority for its number keeps the invariant. */
  lemma DecideInv(cfg: Config, st: State, s: Id, id: int)
    requires cfg.Valid() && Inv(cfg, st) && Enabled(cfg, st, Decide(s, id)) && CountGuard(cfg, st.scouts[s])
    ensures Inv(cfg, Next(cfg, st, Decide(s, id)))
  {
    NextShape(cfg, st, Decide(s, id));
    FreshNumber(cfg, st, s);
    WinsAtDecide(cfg, st, s, id);
    ScoutsAtDecide(cfg, st, s, id);
    HistoryAtDecide(cfg, st, s, id);
    ApartAtDecide(cfg, st, s, id);
  }

  /** Steps that change one scout and no acceptor, vote, proposal or win. */
  predicate ScoutOnly(a: Action) {
    a.BeginCall? || a.PrepareLost? || a.Abandon? || a.Retry? || a.AcceptLost? || a.EndAccept?
  }

  lemma ScoutOnlyInv(cfg: Config, st: State, a: Action)
    requires Inv(cfg, st) && ScoutOnly(a) && Enabled(cfg, st, a)
    ensures Inv(cfg, Next(cfg, st, a))
  {
    var sc, sc' := st.scouts[a.s], Next(cfg, st, a).scouts[a.s];
    assert ScoutOk(cfg, st, sc);
    NextShape(cfg, st, a);
    ScoutOnlyFrame(cfg, st, a);
    ScoutOnlyKeeps(cfg, st, a);
    forall t | t in st.scouts && t != a.s ensures Apart(sc', st.scouts[t]) {
      assert Apart(sc, st.scouts[t]);
    }
    ScoutStepInv(cfg, st, Next(cfg, st, a), a.s, sc');
  }

  lemma ScoutOnlyFrame(cfg: Config, st: State, a: Action)
    requires Shape(cfg, st) && ScoutOnly(a) && Enabled(cfg, st, a)
    ensures SameHistory(st, Next(cfg, st, a))
    ensures Next(cfg, st, a).scouts == st.scouts[a.s := Next(cfg, st, a).scouts[a.s]]
  {
  }

  lemma ScoutOnlyKeeps(cfg: Config, st: State, a: Action)
    requires Shape(cfg, st) && ScoutOnly(a) && Enabled(cfg, st, a) && ScoutOk(cfg, st, st.scouts[a.s])
    ensures var sc, sc' := st.scouts[a.s], Next(cfg, st, a).scouts[a.s];
            && ScoutOk(cfg, st, sc')
            && (sc'.phase == Preparing ==>
                  sc'.promisers == {} || (sc.phase == Preparing && sc'.promisers == sc.promisers && sc'.number == sc.number))
  {
  }

  lemma DeliverInv(cfg: Config, st: State, l: Id, c: Command)
    requires Inv(cfg, st) && Enabled(cfg, st, Deliver(l, c))
    ensures Inv(cfg, Next(cfg, st, Deliver(l, c)))
  {
    var st' := Next(cfg, st, Deliver(l, c));
    HistoryFrame(cfg, st, st');
    forall t | t in st.scouts ensures ScoutOk(cfg, st', st.scouts[t]) {
      ScoutFrame(cfg, st, st', st.scouts[t]);
    }
  }

  lemma NextInv(cfg: Config, st: State, a: Action)
    requires cfg.Valid() && Inv(cfg, st) && Enabled(cfg, st, a) && Guard(cfg, st, a)
    ensures Inv(cfg, Next(cfg, st, a))
  {
    if ScoutOnly(a) {
      ScoutOnlyInv(cfg, st, a);
    } else {
      match a
      case PrepareReply(s, p) => PrepareReplyInv(cfg, st, s, p);
      case Decide(s, id) => DecideInv(cfg, st, s, id);
      case AcceptReply(s, p) => AcceptReplyInv(cfg, st, s, p);
      case StrayPrepare(p, n) => PromiseStepInv(cfg, st, p, n);
      case StrayAccept(p, n, c) => VoteStepInv(cfg, st, p, n, c);
      case Deliver(l, c) => DeliverInv(cfg, st, l, c);
    }
  }

  /** In every run whose winners had a majority for their own number. */
  lemma {:induction false} RunInv(cfg: Config, acts: seq<Action>)
    requires cfg.Valid() && CanRun(cfg, acts) && Counted(cfg, acts)
    ensures Inv(cfg, Run(cfg, acts))
  {
    if acts == [] {
      InitInv(cfg);
    } else {
      RunInv(cfg, acts[..|acts| - 1]);
      NextInv(cfg, Run(cfg, acts[..|acts| - 1]), acts[|acts| - 1]);
    }
  }

  // ---------- the chain ----------

  /** m is n, or an ancestor of n along parents. */
  ghost predicate Ancestor(st: State, m: int, n: int)
    decreases n
  {
    m == n || (n in st.wins && 0 <= st.wins[n].parent < n && Ancestor(st, m, st.wins[n].parent))
  }

  /** A quorum read is final: nothing strictly between a winner and its parent is ever chosen. */
  lemma NothingBetween(cfg: Config, st: State, n: int, m: int, c: Command)
    requires cfg.Valid() && Inv(cfg, st) && n in st.wins && st.wins[n].parent < m < n
    ensures !Chosen(cfg, st, m, c)
  {
    var w := st.wins[n];
    assert WinOk(cfg, st, n, w);
    var vs := Voters(cfg, st, m, c);
    if cfg.Majority(|vs|) {
      Quorum.MajoritiesMeet(cfg.servers, cfg.numOfAcceptors, vs, w.quorum);
      assert false;
    }
  }

  /** Every chosen number below a winning number is an ancestor of it. */
  lemma {:induction false} ChosenOnChain(cfg: Config, st: State, m: int, c: Command, n: int)
    requires cfg.Valid() && Inv(cfg, st) && n in st.wins && m in st.wins && m <= n
    requires Chosen(cfg, st, m, c)
    ensures Ancestor(st, m, n)
    decreases n
  {
    assert WinOk(cfg, st, n, st.wins[n]) && WinOk(cfg, st, m, st.wins[m]);
    var a := st.wins[n].parent;
    if m < n {
      if a < m { NothingBetween(cfg, st, n, m, c); }
      ChosenOnChain(cfg, st, m, c, a);
    }
  }

  // ---------- slots along the chain ----------

  /** From a parent to its child: the same command for the same request, or a higher slot. */
  predicate Follows(parent: Win, child: Win) {
    || (child.cmd == parent.cmd && child.request == parent.request)
    || child.cmd.slot > parent.cmd.slot
  }

  ghost predicate Rising(st: State) {
    forall n | n in st.wins && st.wins[n].parent in st.wins :: Follows(st.wins[st.wins[n].parent], st.wins[n])
  }

  /** A Decide step under the slot guard makes a win that follows its parent. */
  lemma NewWinFollows(cfg: Config, st: State, s: Id, id: int)
    requires Inv(cfg, st) && Enabled(cfg, st, Decide(s, id)) && SlotGuard(st.scouts[s], st.learners[s])
    requires WellFormed(st.learners[s]) && SlotCounterOk(st.scouts[s], st.learners[s])
    ensures var sc := st.scouts[s];
            sc.best in st.wins ==> Follows(st.wins[sc.best], Next(cfg, st, Decide(s, id)).wins[sc.number])
  {
    assert ScoutOk(cfg, st, st.scouts[s]);
    if st.scouts[s].best in st.wins {
      assert WinOk(cfg, st, st.scouts[s].best, st.wins[st.scouts[s].best]);
      FreeSlotAbove(st.learners[s], st.scouts[s].slotIn);
    }
  }

  lemma DecideRises(cfg: Config, st: State, s: Id, id: int)
    requires cfg.Valid() && Inv(cfg, st) && Rising(st) && Enabled(cfg, st, Decide(s, id))
    requires CountGuard(cfg, st.scouts[s]) && SlotGuard(st.scouts[s], st.learners[s])
    requires WellFormed(st.learners[s]) && SlotCounterOk(st.scouts[s], st.learners[s])
    ensures Rising(Next(cfg, st, Decide(s, id)))
  {
    var st' := Next(cfg, st, Decide(s, id));
    FreshNumber(cfg, st, s);
    WinAdded(cfg, st, s, id);
    NewWinFollows(cfg, st, s, id);
    forall n | n in st'.wins && st'.wins[n].parent in st'.wins ensures Follows(st'.wins[st'.wins[n].parent], st'.wins[n]) {
      if n != st.scouts[s].number { assert WinOk(cfg, st, n, st.wins[n]); }
    }
  }

  lemma WinsOnlyAtDecide(cfg: Config, st: State, a: Action)
    requires Shape(cfg, st) && Enabled(cfg, st, a) && !a.Decide?
    ensures Next(cfg, st, a).wins == st.wins
  {
  }

  lemma {:induction false} RunRising(cfg: Config, acts: seq<Action>)
    requires cfg.Valid() && CanRun(cfg, acts) && Guarded(cfg, acts)
    ensures Rising(Run(cfg, acts))
  {
    if acts != [] {
      var init, a := acts[..|acts| - 1], acts[|acts| - 1];
      RunRising(cfg, init);
      if a.Decide? {
        RunInv(cfg, init);
        RunLearner(cfg, init, a.s);
        RunSlotCounter(cfg, init, a.s);
        DecideRises(cfg, Run(cfg, init), a.s, a.commandId);
      } else {
        WinsOnlyAtDecide(cfg, Run(cfg, init), a);
      }
    }
  }

  /** Along the chain a slot keeps its command and request, or it rises. */
  lemma {:induction false} SlotsRise(cfg: Config, st: State, m: int, n: int)
    requires Inv(cfg, st) && Rising(st) && m in st.wins && n in st.wins && Ancestor(st, m, n)
    ensures Follows(st.wins[m], st.wins[n])
    decreases n
  {
    assert WinOk(cfg, st, n, st.wins[n]);
    if m != n {
      SlotsRise(cfg, st, m, st.wins[n].parent);
    }
  }

  // ---------- agreement ----------

  lemma ChosenIsWon(cfg: Config, st: State, n: int, c: Command)
    requires Inv(cfg, st) && Chosen(cfg, st, n, c)
    ensures n in st.wins && st.wins[n].cmd == c
  {
    assert Voters(cfg, st, n, c) != {};
    var p :| p in Voters(cfg, st, n, c);
  }

  lemma ChosenAgree(cfg: Config, st: State, m: int, c: Command, n: int, d: Command)
    requires cfg.Valid() && Inv(cfg, st) && Rising(st)
    requires Chosen(cfg, st, m, c) && Chosen(cfg, st, n, d) && c.slot == d.slot
    ensures c == d && st.wins[m].request == st.wins[n].request
    ensures m in st.wins && n in st.wins
  {
    ChosenIsWon(cfg, st, m, c);
    ChosenIsWon(cfg, st, n, d);
    if m <= n {
      ChosenOnChain(cfg, st, m, c, n);
      SlotsRise(cfg, st, m, n);
    } else {
      ChosenOnChain(cfg, st, n, d, m);
      SlotsRise(cfg, st, n, m);
    }
  }

  lemma LearnsAgree(cfg: Config, st: State, c: Command, d: Command)
    requires cfg.Valid() && Inv(cfg, st) && Rising(st) && LearnsOk(cfg, st)
    requires c in st.learns && d in st.learns && c.slot == d.slot
    ensures c == d
  {
    assert ChosenSomewhere(cfg, st, c) && ChosenSomewhere(cfg, st, d);
    var m :| Chosen(cfg, st, m, c);
    var n :| Chosen(cfg, st, n, d);
    ChosenAgree(cfg, st, m, c, n, d);
  }
}
