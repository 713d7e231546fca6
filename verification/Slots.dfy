/** When an own command takes a slot above the command that was reported to its scout, in any run. */
module Slots {
  import opened Messages
  import opened Learner
  import opened Protocol
  import opened Runs
  import opened EveryRun
  import opened Safety
  import Provenance

  /** Every command that is built has a slot of 1 or more. */
  lemma BuiltInSlot(cfg: Config, acts: seq<Action>, i: nat, c: Command)
    requires CanRun(cfg, acts) && i < |acts| && Provenance.Builds(Before(cfg, acts, i), acts[i], c)
    ensures 1 <= c.slot
  {
    PrefixRuns(cfg, acts, i);
    RunSlotCounter(cfg, acts[..i], acts[i].s);
  }

  /** A command reported to a preparing scout has a slot of 1 or more. */
  lemma ReportedSlot(cfg: Config, acts: seq<Action>, s: Id)
    requires CanRun(cfg, acts) && InPhase(cfg, Run(cfg, acts), s, Preparing) && Run(cfg, acts).scouts[s].best != -1
    ensures 1 <= Run(cfg, acts).scouts[s].bestCmd.slot
  {
    var st, c := Run(cfg, acts), Run(cfg, acts).scouts[s].bestCmd;
    assert Provenance.InScout(st.scouts[s], c);
    assert Provenance.Present(st, c);
    Provenance.PresentIsBuilt(cfg, acts, c);
    var i: nat :| i < |acts| && Provenance.BuiltAt(cfg, acts, i, c);
    BuiltInSlot(cfg, acts, i, c);
  }

  /**
   In every state of every run: the slot an own command would take lies above
   the slot of the reported command if and only if every slot up to that one
   is learned.
   */
  lemma FreeSlotRisesIff(cfg: Config, acts: seq<Action>, s: Id)
    requires CanRun(cfg, acts) && InPhase(cfg, Run(cfg, acts), s, Preparing) && Run(cfg, acts).scouts[s].best != -1
    ensures var sc, l := Run(cfg, acts).scouts[s], Run(cfg, acts).learners[s];
            FirstFree(l.decisions, sc.slotIn) > sc.bestCmd.slot <==> sc.bestCmd.slot < l.slotOut
  {
    var sc, l := Run(cfg, acts).scouts[s], Run(cfg, acts).learners[s];
    ReportedSlot(cfg, acts, s);
    RunLearner(cfg, acts, s);
    RunSlotCounter(cfg, acts, s);
    SlotRisesIff(l, sc.slotIn, sc.bestCmd);
  }

  /** The command a Decide action of the run proposes. */
  ghost function ProposedAt(cfg: Config, acts: seq<Action>, i: nat): Command
    requires CanRun(cfg, acts) && i < |acts| && acts[i].Decide?
  {
    Before(cfg, acts, i + 1).scouts[acts[i].s].proposal
  }

  /**
   At every Decide action of every run: SlotGuard holds if and only if the
   proposal is the reported command, or has a higher slot, or nothing was
   reported.
   */
  lemma SlotGuardIff(cfg: Config, acts: seq<Action>, i: nat)
    requires CanRun(cfg, acts) && i < |acts| && acts[i].Decide?
    ensures var sc, l := Before(cfg, acts, i).scouts[acts[i].s], Before(cfg, acts, i).learners[acts[i].s];
            SlotGuard(sc, l) <==>
              sc.best == -1
              || (!ProposesOwn(sc, l.decisions) && ProposedAt(cfg, acts, i) == sc.bestCmd)
              || ProposedAt(cfg, acts, i).slot > sc.bestCmd.slot
  {
    StepAt(cfg, acts, i);
    if Before(cfg, acts, i).scouts[acts[i].s].best != -1 {
      FreeSlotRisesIff(cfg, acts[..i], acts[i].s);
    }
  }
}
