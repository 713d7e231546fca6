/** What safety means for whole runs: any number of servers, any interleaving. */
module Agreement {
  import opened Messages
  import opened Learner
  import opened Protocol
  import opened Runs
  import opened EveryRun
  import opened Safety

  // ---------- slot agreement and the replicated log ----------

  lemma LearnsOfRunAgree(cfg: Config, acts: seq<Action>)
    requires cfg.Valid() && CanRun(cfg, acts) && Guarded(cfg, acts)
    ensures forall c, d | c in Run(cfg, acts).learns && d in Run(cfg, acts).learns && c.slot == d.slot :: c == d
  {
    RunInv(cfg, acts);
    RunRising(cfg, acts);
    RunVoted(cfg, acts);
    var st := Run(cfg, acts);
    forall c, d | c in st.learns && d in st.learns && c.slot == d.slot ensures c == d {
      LearnsAgree(cfg, st, c, d);
    }
  }

  /**
   In every state of every guarded run, two servers that hold a decision for a
   slot hold the same command there.
   */
  lemma SlotAgreement(cfg: Config, acts: seq<Action>, a: Id, b: Id, k: int)
    requires cfg.Valid() && CanRun(cfg, acts) && Guarded(cfg, acts)
    requires a in cfg.servers && b in cfg.servers
    requires k in Run(cfg, acts).learners[a].decisions && k in Run(cfg, acts).learners[b].decisions
    ensures Run(cfg, acts).learners[a].decisions[k] == Run(cfg, acts).learners[b].decisions[k]
  {
    RunLearner(cfg, acts, a);
    RunLearner(cfg, acts, b);
    LearnsOfRunAgree(cfg, acts);
    var st := Run(cfg, acts);
    assert st.learners[a].decisions[k].slot == k && st.learners[b].decisions[k].slot == k;
  }

  /** The committed logs of any two servers: one is a prefix of the other. */
  lemma LogPrefix(cfg: Config, acts: seq<Action>, a: Id, b: Id)
    requires cfg.Valid() && CanRun(cfg, acts) && Guarded(cfg, acts)
    requires a in cfg.servers && b in cfg.servers
    ensures var x, y := Run(cfg, acts).learners[a].printed, Run(cfg, acts).learners[b].printed;
            x <= y || y <= x
  {
    RunLearner(cfg, acts, a);
    RunLearner(cfg, acts, b);
    LearnsOfRunAgree(cfg, acts);
    var st := Run(cfg, acts);
    var x, y := st.learners[a].printed, st.learners[b].printed;
    forall i | 0 <= i < |x| && i < |y| ensures x[i] == y[i] {
      assert x[i] in st.learns && y[i] in st.learns && x[i].slot == y[i].slot;
    }
  }

  /** No log ever loses or changes an entry, guarded or not. */
  lemma LogsGrow(cfg: Config, acts: seq<Action>, i: nat, a: Id)
    requires CanRun(cfg, acts) && i <= |acts| && a in cfg.servers
    ensures Before(cfg, acts, i).learners[a].printed <= Run(cfg, acts).learners[a].printed
  {
    RunExtends(cfg, acts, i);
  }

  // ---------- winners ----------

  /** Two prepare phases of one run never win the same number, on whatever servers. */
  lemma OneWinnerPerNumber(cfg: Config, acts: seq<Action>, i: nat, j: nat)
    requires cfg.Valid() && CanRun(cfg, acts) && Counted(cfg, acts)
    requires i < j < |acts| && acts[i].Decide? && acts[j].Decide?
    ensures NumberAt(cfg, acts, i) != NumberAt(cfg, acts, j)
  {
    WonFromThenOn(cfg, acts, i, j);
    FreshAtDecide(cfg, acts, j);
  }

  /** After a Decide action its number counts as won. */
  lemma WonFromThenOn(cfg: Config, acts: seq<Action>, i: nat, j: nat)
    requires CanRun(cfg, acts) && i < j <= |acts| && acts[i].Decide?
    ensures NumberAt(cfg, acts, i) in Before(cfg, acts, j).wins
  {
    StepAt(cfg, acts, i);
    LaterExtends(cfg, acts, i + 1, j);
    assert NumberAt(cfg, acts, i) in Before(cfg, acts, i + 1).wins.Keys;
  }

  /** A Decide action of a counted run finds its number not won before. */
  lemma FreshAtDecide(cfg: Config, acts: seq<Action>, j: nat)
    requires cfg.Valid() && CanRun(cfg, acts) && Counted(cfg, acts) && j < |acts| && acts[j].Decide?
    ensures NumberAt(cfg, acts, j) !in Before(cfg, acts, j).wins
  {
    StepAt(cfg, acts, j);
    RunInv(cfg, acts[..j]);
    FreshNumber(cfg, Before(cfg, acts, j), acts[j].s);
  }

  /** All acceptors that ever accepted a number accepted the same command at it. */
  lemma OneCommandPerNumber(cfg: Config, acts: seq<Action>, v: Vote, w: Vote)
    requires cfg.Valid() && CanRun(cfg, acts) && Counted(cfg, acts)
    requires v in Run(cfg, acts).votes && w in Run(cfg, acts).votes && v.number == w.number
    ensures v.cmd == w.cmd
  {
    RunInv(cfg, acts);
  }

  /** A recorded win is never rewritten in a counted run. */
  lemma {:induction false} WinsStay(cfg: Config, acts: seq<Action>, i: nat, n: int)
    requires cfg.Valid() && CanRun(cfg, acts) && Counted(cfg, acts) && i <= |acts|
    requires CanRun(cfg, acts[..i]) && n in Run(cfg, acts[..i]).wins
    ensures n in Run(cfg, acts).wins && Run(cfg, acts).wins[n] == Run(cfg, acts[..i]).wins[n]
    decreases |acts|
  {
    if i == |acts| {
      assert acts[..i] == acts;
    } else {
      var init, a := acts[..|acts| - 1], acts[|acts| - 1];
      assert init[..i] == acts[..i];
      WinsStay(cfg, init, i, n);
      RunInv(cfg, init);
      NextKeepsWin(cfg, Run(cfg, init), a, n);
    }
  }

  lemma NextKeepsWin(cfg: Config, st: State, a: Action, n: int)
    requires cfg.Valid() && Inv(cfg, st) && Enabled(cfg, st, a) && Guard(cfg, st, a) && n in st.wins
    ensures n in Next(cfg, st, a).wins && Next(cfg, st, a).wins[n] == st.wins[n]
  {
    if a.Decide? {
      FreshNumber(cfg, st, a.s);
    }
  }

  /**
   A quorum read is final. If a scout enters phase 2 with number n after being
   told a as the highest accepted number, then no number strictly between a
   and n is chosen, neither then nor in any later state of the run.
   */
  lemma QuorumReadIsFinal(cfg: Config, acts: seq<Action>, i: nat, m: int, c: Command)
    requires cfg.Valid() && CanRun(cfg, acts) && Counted(cfg, acts)
    requires i < |acts| && acts[i].Decide?
    requires ParentAt(cfg, acts, i) < m < NumberAt(cfg, acts, i)
    ensures !Chosen(cfg, Run(cfg, acts), m, c)
  {
    StepAt(cfg, acts, i);
    var n := NumberAt(cfg, acts, i);
    WinsStay(cfg, acts, i + 1, n);
    RunInv(cfg, acts);
    NothingBetween(cfg, Run(cfg, acts), n, m, c);
  }

  /** Of two chosen numbers of a run the smaller is an ancestor of the larger. */
  lemma ChosenFormOneChain(cfg: Config, acts: seq<Action>, m: int, c: Command, n: int, d: Command)
    requires cfg.Valid() && CanRun(cfg, acts) && Counted(cfg, acts) && m <= n
    requires Chosen(cfg, Run(cfg, acts), m, c) && Chosen(cfg, Run(cfg, acts), n, d)
    ensures Ancestor(Run(cfg, acts), m, n)
  {
    RunInv(cfg, acts);
    var st := Run(cfg, acts);
    ChosenIsWon(cfg, st, m, c);
    ChosenIsWon(cfg, st, n, d);
    ChosenOnChain(cfg, st, m, c, n);
  }

  /** Chosen commands in the order of their numbers: the same command, or a higher slot. */
  lemma ChosenSlotsRise(cfg: Config, acts: seq<Action>, m: int, c: Command, n: int, d: Command)
    requires cfg.Valid() && CanRun(cfg, acts) && Guarded(cfg, acts) && m <= n
    requires Chosen(cfg, Run(cfg, acts), m, c) && Chosen(cfg, Run(cfg, acts), n, d)
    ensures c == d || c.slot < d.slot
  {
    ChosenFormOneChain(cfg, acts, m, c, n, d);
    RunInv(cfg, acts);
    RunRising(cfg, acts);
    ChosenIsWon(cfg, Run(cfg, acts), m, c);
    ChosenIsWon(cfg, Run(cfg, acts), n, d);
    SlotsRise(cfg, Run(cfg, acts), m, n);
  }
}
