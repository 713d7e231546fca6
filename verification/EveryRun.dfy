/** What holds in every run of the program, whatever its steps: no hypothesis is used. */
module EveryRun {
  import opened Messages
  import opened Learner
  import opened Protocol
  import opened Runs
  import Quorum

  // ---------- chosen commands ----------

  /** Chosen stays chosen: votes are never taken back. */
  lemma ChosenStays(cfg: Config, st: State, st': State, n: int, c: Command)
    requires st.votes <= st'.votes
    requires Chosen(cfg, st, n, c)
    ensures Chosen(cfg, st', n, c)
  {
    Quorum.SubsetSize(Voters(cfg, st, n, c), Voters(cfg, st', n, c));
  }

  ghost predicate ChosenSomewhere(cfg: Config, st: State, c: Command) {
    exists n :: Chosen(cfg, st, n, c)
  }

  /** Each acceptor a scout has counted in phase 2 has voted for its proposal. */
  ghost predicate CountedVoted(cfg: Config, st: State, sc: Scout) {
    sc.phase == Accepting ==>
      forall p | p in sc.accepts :: p in cfg.servers && Vote(p, sc.number, sc.proposal) in st.votes
  }

  ghost predicate LearnsOk(cfg: Config, st: State) {
    forall c | c in st.learns :: ChosenSomewhere(cfg, st, c)
  }

  ghost predicate VotedOk(cfg: Config, st: State) {
    LearnsOk(cfg, st) && forall s | s in st.scouts :: CountedVoted(cfg, st, st.scouts[s])
  }

  lemma NextCountedVoted(cfg: Config, st: State, a: Action, s: Id)
    requires Shape(cfg, st) && Enabled(cfg, st, a) && s in cfg.servers && CountedVoted(cfg, st, st.scouts[s])
    ensures CountedVoted(cfg, Next(cfg, st, a), Next(cfg, st, a).scouts[s])
  {
  }

  lemma MajorityAccepted(cfg: Config, st: State, sc: Scout)
    requires sc.phase == Accepting && CountedVoted(cfg, st, sc) && cfg.Majority(|sc.accepts|)
    ensures Chosen(cfg, st, sc.number, sc.proposal)
  {
    forall p | p in sc.accepts ensures p in Voters(cfg, st, sc.number, sc.proposal) {
      assert Vote(p, sc.number, sc.proposal) in st.votes;
    }
    Quorum.SubsetSize(sc.accepts, Voters(cfg, st, sc.number, sc.proposal));
  }

  /** Where a command newly handed to the learners comes from. */
  lemma NewLearn(cfg: Config, st: State, a: Action, c: Command)
    requires Shape(cfg, st) && Enabled(cfg, st, a) && c in Next(cfg, st, a).learns && c !in st.learns
    ensures a.EndAccept? && c == st.scouts[a.s].proposal && cfg.Majority(|st.scouts[a.s].accepts|)
  {
  }

  /** A command is handed to the learners only when a majority accepted it. */
  lemma NextLearns(cfg: Config, st: State, a: Action)
    requires Shape(cfg, st) && Enabled(cfg, st, a) && VotedOk(cfg, st)
    ensures LearnsOk(cfg, Next(cfg, st, a))
  {
    var st' := Next(cfg, st, a);
    NextExtends(cfg, st, a);
    forall c | c in st'.learns ensures ChosenSomewhere(cfg, st', c) {
      if c in st.learns {
        var n :| Chosen(cfg, st, n, c);
        ChosenStays(cfg, st, st', n, c);
      } else {
        NewLearn(cfg, st, a, c);
        MajorityAccepted(cfg, st, st.scouts[a.s]);
        ChosenStays(cfg, st, st', st.scouts[a.s].number, c);
      }
    }
  }

  lemma {:induction false} RunVoted(cfg: Config, acts: seq<Action>)
    requires CanRun(cfg, acts)
    ensures VotedOk(cfg, Run(cfg, acts))
  {
    if acts != [] {
      var st, a := Run(cfg, acts[..|acts| - 1]), acts[|acts| - 1];
      RunVoted(cfg, acts[..|acts| - 1]);
      NextVoted(cfg, st, a);
    }
  }

  lemma NextVoted(cfg: Config, st: State, a: Action)
    requires Shape(cfg, st) && Enabled(cfg, st, a) && VotedOk(cfg, st)
    ensures VotedOk(cfg, Next(cfg, st, a))
  {
    NextLearns(cfg, st, a);
    forall s | s in Next(cfg, st, a).scouts ensures CountedVoted(cfg, Next(cfg, st, a), Next(cfg, st, a).scouts[s]) {
      NextCountedVoted(cfg, st, a, s);
    }
  }

  // ---------- learners ----------

  /** A learner holds and has committed only commands that were handed out. */
  ghost predicate LearnerOk(st: State, l: LearnerState) {
    && WellFormed(l)
    && (forall k | k in l.decisions :: l.decisions[k] in st.learns)
    && (forall c | c in l.printed :: c in st.learns)
  }

  lemma LearnerKept(st: State, l: LearnerState, c: Command)
    requires LearnerOk(st, l) && c in st.learns
    ensures LearnerOk(st, LearnOne(l, c))
  {
    LearnKeepsWellFormed(l, c);
    var r := LearnOne(l, c);
    forall i | 0 <= i < |r.printed| ensures r.printed[i] in st.learns {
      assert r.printed[i] == if i < |l.printed| then l.printed[i] else r.decisions[i + 1];
    }
  }

  lemma NextLearner(cfg: Config, st: State, a: Action, l: Id)
    requires Shape(cfg, st) && Enabled(cfg, st, a) && l in cfg.servers && LearnerOk(st, st.learners[l])
    ensures LearnerOk(Next(cfg, st, a), Next(cfg, st, a).learners[l])
  {
    NextExtends(cfg, st, a);
    if a.Deliver? && a.l == l {
      LearnerKept(st, st.learners[l], a.c);
    }
  }

  lemma {:induction false} RunLearner(cfg: Config, acts: seq<Action>, l: Id)
    requires CanRun(cfg, acts) && l in cfg.servers
    ensures LearnerOk(Run(cfg, acts), Run(cfg, acts).learners[l])
  {
    if acts != [] {
      RunLearner(cfg, acts[..|acts| - 1], l);
      NextLearner(cfg, Run(cfg, acts[..|acts| - 1]), acts[|acts| - 1], l);
    }
  }

  /** Learned implies chosen: every stored or committed command was accepted by a majority at one number. */
  lemma LearnedIsChosen(cfg: Config, acts: seq<Action>, a: Id, c: Command)
    requires CanRun(cfg, acts) && a in cfg.servers
    requires c in Run(cfg, acts).learners[a].printed ||
             (c.slot in Run(cfg, acts).learners[a].decisions && Run(cfg, acts).learners[a].decisions[c.slot] == c)
    ensures exists n :: Chosen(cfg, Run(cfg, acts), n, c)
  {
    RunVoted(cfg, acts);
    RunLearner(cfg, acts, a);
    assert ChosenSomewhere(cfg, Run(cfg, acts), c);
  }

  // ---------- the slot counter ----------

  /** Every slot below slot_in holds a decision at this server. */
  ghost predicate SlotCounterOk(sc: Scout, l: LearnerState) {
    1 <= sc.slotIn && forall k :: 1 <= k < sc.slotIn ==> k in l.decisions
  }

  lemma NextSlotCounter(cfg: Config, st: State, a: Action, s: Id)
    requires Shape(cfg, st) && Enabled(cfg, st, a) && s in cfg.servers
    requires SlotCounterOk(st.scouts[s], st.learners[s])
    ensures SlotCounterOk(Next(cfg, st, a).scouts[s], Next(cfg, st, a).learners[s])
  {
  }

  lemma {:induction false} RunSlotCounter(cfg: Config, acts: seq<Action>, s: Id)
    requires CanRun(cfg, acts) && s in cfg.servers
    ensures SlotCounterOk(Run(cfg, acts).scouts[s], Run(cfg, acts).learners[s])
  {
    if acts != [] {
      RunSlotCounter(cfg, acts[..|acts| - 1], s);
      NextSlotCounter(cfg, Run(cfg, acts[..|acts| - 1]), acts[|acts| - 1], s);
    }
  }

  // ---------- the promise counter ----------

  /** Who promised the number in use stands at it or above, and was counted. */
  ghost predicate CounterOk(st: State, sc: Scout) {
    sc.phase == Preparing ==>
      && |sc.promisers| <= sc.promisedNum
      && forall p | p in sc.promisers :: p in st.acceptors && sc.number <= st.acceptors[p].promised
  }

  /** The counter holds promises for the number in use only. */
  predicate Exact(sc: Scout) { sc.promisedNum == |sc.promisers| }

  /** A retry that carries promises for one number over to another. */
  predicate Mixes(sc: Scout) { sc.promisedNum > 0 && sc.highest + 1 != sc.number }

  /** The actions that set the counters of scout s to zero, when it goes on preparing after them. */
  predicate Restarts(a: Action, s: Id) { (a.BeginCall? || a.EndAccept?) && a.s == s }

  lemma CounterReply(sc: Scout, a: Acceptor, p: Id)
    requires |sc.promisers| <= sc.promisedNum && (p in sc.promisers ==> sc.number <= a.promised)
    ensures var sc' := OnPromise(sc, p, P1b(a, sc.number));
            && |sc'.promisers| <= sc'.promisedNum && (Exact(sc') <==> Exact(sc))
  {
    if sc.number > a.promised {
      assert |sc.promisers + {p}| == |sc.promisers| + 1;
    }
  }

  /** What a step of scout s does to its counter, beside an answered prepare message. */
  lemma OwnCounter(cfg: Config, st: State, a: Action, s: Id)
    requires Shape(cfg, st) && Enabled(cfg, st, a) && s in cfg.servers && CounterOk(st, st.scouts[s])
    requires !Foreign(a, s) && !a.PrepareReply?
    ensures var sc, sc' := st.scouts[s], Next(cfg, st, a).scouts[s];
            && (sc'.phase == Preparing ==> |sc'.promisers| <= sc'.promisedNum)
            && (sc'.phase == Preparing ==> sc'.promisers == {} || (sc'.promisers == sc.promisers && sc'.number == sc.number))
            && (sc'.phase == Preparing ==>
                  if Restarts(a, s) then Exact(sc')
                  else sc.phase == Preparing && (Exact(sc') <==> Exact(sc) && (a == Retry(s) ==> !Mixes(sc))))
  {
  }

  /** One step keeps the counter at or above the genuine count, and says when the two part. */
  lemma NextCounter(cfg: Config, st: State, a: Action, s: Id)
    requires Shape(cfg, st) && Enabled(cfg, st, a) && s in cfg.servers && CounterOk(st, st.scouts[s])
    ensures var sc, sc' := st.scouts[s], Next(cfg, st, a).scouts[s];
            && CounterOk(Next(cfg, st, a), sc')
            && (sc'.phase == Preparing ==>
                  if Restarts(a, s) then Exact(sc')
                  else sc.phase == Preparing && (Exact(sc') <==> Exact(sc) && (a == Retry(s) ==> !Mixes(sc))))
  {
    PromisesGrow(cfg, st, a);
    if Foreign(a, s) {
      ForeignKeeps(cfg, st, a, s);
    } else if a.PrepareReply? {
      CounterReply(st.scouts[s], st.acceptors[a.p], a.p);
    } else {
      OwnCounter(cfg, st, a, s);
    }
  }

  lemma PromisesGrow(cfg: Config, st: State, a: Action)
    requires Shape(cfg, st) && Enabled(cfg, st, a)
    ensures forall p | p in st.acceptors ::
              p in Next(cfg, st, a).acceptors && st.acceptors[p].promised <= Next(cfg, st, a).acceptors[p].promised
  {
  }

  /** No retry of the attempt that scout s is in has mixed promises for different numbers. */
  ghost predicate CleanAttempt(cfg: Config, acts: seq<Action>, s: Id)
    requires CanRun(cfg, acts) && s in cfg.servers
  {
    acts == [] ||
    var init, a := acts[..|acts| - 1], acts[|acts| - 1];
    Restarts(a, s) || (CleanAttempt(cfg, init, s) && (a == Retry(s) ==> !Mixes(Run(cfg, init).scouts[s])))
  }

  /**
   The program's promise counter never falls short of the genuine count, and
   equals it exactly while no retry of the attempt carried a promise over to
   another number.
   */
  lemma {:induction false} PromiseCounterExact(cfg: Config, acts: seq<Action>, s: Id)
    requires CanRun(cfg, acts) && s in cfg.servers
    ensures var sc := Run(cfg, acts).scouts[s];
            && CounterOk(Run(cfg, acts), sc)
            && (sc.phase == Preparing ==> (sc.promisedNum == |sc.promisers| <==> CleanAttempt(cfg, acts, s)))
  {
    if acts != [] {
      PromiseCounterExact(cfg, acts[..|acts| - 1], s);
      NextCounter(cfg, Run(cfg, acts[..|acts| - 1]), acts[|acts| - 1], s);
    }
  }

  /** In a clean attempt the program's majority test is the genuine one; in any attempt it is implied by it. */
  lemma CountGuardIff(cfg: Config, acts: seq<Action>, s: Id)
    requires CanRun(cfg, acts) && InPhase(cfg, Run(cfg, acts), s, Preparing)
    ensures var sc := Run(cfg, acts).scouts[s];
            && (CountGuard(cfg, sc) ==> cfg.Majority(sc.promisedNum))
            && (CleanAttempt(cfg, acts, s) ==> (CountGuard(cfg, sc) <==> cfg.Majority(sc.promisedNum)))
  {
    PromiseCounterExact(cfg, acts, s);
  }

  /** Every Decide step of the run was taken in a clean attempt. */
  ghost predicate CleanDecides(cfg: Config, acts: seq<Action>)
    requires CanRun(cfg, acts)
  {
    if acts == [] then true
    else
      var init, a := acts[..|acts| - 1], acts[|acts| - 1];
      CleanDecides(cfg, init) && (a.Decide? ==> CleanAttempt(cfg, init, a.s))
  }

  /** A condition on the program's own variables that makes a run counted. */
  lemma {:induction false} CleanIsCounted(cfg: Config, acts: seq<Action>)
    requires CanRun(cfg, acts) && CleanDecides(cfg, acts)
    ensures Counted(cfg, acts)
  {
    if acts != [] {
      var init, a := acts[..|acts| - 1], acts[|acts| - 1];
      CleanIsCounted(cfg, init);
      if a.Decide? { CountGuardIff(cfg, init, a.s); }
    }
  }
}
