/** What the recovery file of a server is worth, in every run of the system. */
module Recovery {
  import opened Common
  import opened Messages
  import opened Learner
  import opened Protocol
  import opened Runs
  import opened EveryRun
  import opened Safety
  import opened Agreement
  import Provenance
  import opened LogFile

  predicate LineFits(x: Line) {
    && IsInt32(x.key) && IsInt32(x.cmd.slot) && IsInt32(x.cmd.commandId)
    && IsInt32(x.cmd.customerId) && IsInt32(x.cmd.orderId)
  }

  /** Every saved line can be printed and read back: no run ever makes an address with a blank. */
  lemma LinesPrintable(cfg: Config, acts: seq<Action>, a: Id)
    requires CanRun(cfg, acts) && a in cfg.servers
    requires forall x | x in Run(cfg, acts).learners[a].file :: LineFits(x)
    ensures forall x | x in Run(cfg, acts).learners[a].file :: Printable(x)
  {
    forall x | x in Run(cfg, acts).learners[a].file ensures Printable(x) {
      SavedIp(cfg, acts, a, x);
    }
  }

  lemma SavedIp(cfg: Config, acts: seq<Action>, a: Id, x: Line)
    requires CanRun(cfg, acts) && a in cfg.servers && x in Run(cfg, acts).learners[a].file
    ensures x.cmd.clientIp == DEFAULT_IP
  {
    SavedIsPresent(Run(cfg, acts), a, x);
    Provenance.PresentIsBuilt(cfg, acts, x.cmd);
    Provenance.BuiltCarriesDefaultIp(cfg, acts, x.cmd);
  }

  lemma SavedIsPresent(st: State, a: Id, x: Line)
    requires a in st.learners && x in st.learners[a].file
    ensures Provenance.Present(st, x.cmd)
  {
    assert Provenance.InLearner(st.learners[a], x.cmd);
  }

  /**
   In every run, guarded or not: the file a server wrote parses to exactly the
   lines it saved, and loading it restores the server's decisions below its
   slotOut if and only if every line was saved with the command of its slot.
   */
  lemma RecoveryInRun(cfg: Config, acts: seq<Action>, a: Id)
    requires CanRun(cfg, acts) && a in cfg.servers
    requires forall x | x in Run(cfg, acts).learners[a].file :: LineFits(x)
    ensures var l := Run(cfg, acts).learners[a];
            && WellFormed(l)
            && Records(FileText(l.file)) == l.file
            && (MapOf(Records(FileText(l.file))) == CommittedMap(l) <==> FileFaithful(l))
  {
    RunLearner(cfg, acts, a);
    LinesPrintable(cfg, acts, a);
    RecoveryExact(Run(cfg, acts).learners[a]);
  }

  /** This action brings server a a command that fills the gap in front of a stored one. */
  predicate GapFiller(st: State, x: Action, a: Id)
    requires a in st.learners
  {
    x.Deliver? && x.l == a && FillsGap(st.learners[a], x.c)
  }

  /** No action of the run filled a gap at server a. */
  ghost predicate NoGapFilled(cfg: Config, acts: seq<Action>, a: Id)
    requires CanRun(cfg, acts) && a in cfg.servers
  {
    if acts == [] then true
    else
      var st, x := Run(cfg, acts[..|acts| - 1]), acts[|acts| - 1];
      NoGapFilled(cfg, acts[..|acts| - 1], a) && !GapFiller(st, x, a)
  }

  /** A delivered command agrees with what the learner holds. */
  lemma DeliveredAgrees(cfg: Config, acts: seq<Action>, a: Id, c: Command)
    requires cfg.Valid() && CanRun(cfg, acts) && Guarded(cfg, acts)
    requires a in cfg.servers && c in Run(cfg, acts).learns
    ensures var l := Run(cfg, acts).learners[a];
            WellFormed(l) && (c.slot in l.decisions ==> l.decisions[c.slot] == c)
  {
    RunLearner(cfg, acts, a);
    LearnsOfRunAgree(cfg, acts);
  }

  /** The file after one more action is faithful if it was and the action fills no gap. */
  lemma FaithfulStep(cfg: Config, st: State, x: Action, a: Id)
    requires Shape(cfg, st) && Enabled(cfg, st, x) && a in cfg.servers && WellFormed(st.learners[a])
    requires x.Deliver? && x.l == a ==>
               (x.c.slot in st.learners[a].decisions ==> st.learners[a].decisions[x.c.slot] == x.c)
    ensures FileFaithful(Next(cfg, st, x).learners[a]) <==>
            FileFaithful(st.learners[a]) && !GapFiller(st, x, a)
  {
    if x.Deliver? && x.l == a {
      if FileFaithful(st.learners[a]) {
        FileFaithfulStep(st.learners[a], x.c);
      } else {
        UnfaithfulStays(st.learners[a], x.c);
      }
    }
  }

  lemma FaithfulRunStep(cfg: Config, acts: seq<Action>, x: Action, a: Id)
    requires cfg.Valid() && CanRun(cfg, acts) && Guarded(cfg, acts) && a in cfg.servers
    requires Enabled(cfg, Run(cfg, acts), x)
    ensures FileFaithful(Next(cfg, Run(cfg, acts), x).learners[a]) <==>
            FileFaithful(Run(cfg, acts).learners[a]) && !GapFiller(Run(cfg, acts), x, a)
  {
    RunLearner(cfg, acts, a);
    if x.Deliver? { DeliveredAgrees(cfg, acts, a, x.c); }
    FaithfulStep(cfg, Run(cfg, acts), x, a);
  }

  /**
   In every guarded run a server's file holds the decided commands if and only
   if no learn message of the run filled a gap at that server.
   */
  lemma {:induction false} FileFaithfulInRun(cfg: Config, acts: seq<Action>, a: Id)
    requires cfg.Valid() && CanRun(cfg, acts) && Guarded(cfg, acts) && a in cfg.servers
    ensures FileFaithful(Run(cfg, acts).learners[a]) <==>
            NoGapFilled(cfg, acts, a)
  {
    if acts != [] {
      var n := |acts| - 1;
      var init := acts[..n];
      FileFaithfulInRun(cfg, init, a);
      FaithfulRunStep(cfg, init, acts[n], a);
    }
  }
}
