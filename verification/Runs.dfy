/** Prefixes of runs: the state before each action, and what later states keep of it. */
module Runs {
  import opened Messages
  import opened Learner
  import opened Protocol

  // ---------- prefixes of runs ----------

  lemma {:induction false} PrefixRuns(cfg: Config, acts: seq<Action>, i: nat)
    requires CanRun(cfg, acts) && i <= |acts|
    ensures CanRun(cfg, acts[..i])
    ensures Counted(cfg, acts) ==> Counted(cfg, acts[..i])
    ensures SlotSafe(cfg, acts) ==> SlotSafe(cfg, acts[..i])
    decreases |acts|
  {
    if i == |acts| {
      assert acts[..i] == acts;
    } else {
      PrefixRuns(cfg, acts[..|acts| - 1], i);
      assert acts[..|acts| - 1][..i] == acts[..i];
    }
  }

  /** The state of a run before its i-th action. */
  ghost function Before(cfg: Config, acts: seq<Action>, i: nat): (st: State)
    requires CanRun(cfg, acts) && i <= |acts|
    ensures Shape(cfg, st)
    ensures i < |acts| ==> Enabled(cfg, st, acts[i])
  {
    PrefixRuns(cfg, acts, i);
    StepEnabled(cfg, acts, i);
    Run(cfg, acts[..i])
  }

  lemma StepEnabled(cfg: Config, acts: seq<Action>, i: nat)
    requires CanRun(cfg, acts) && i <= |acts|
    ensures CanRun(cfg, acts[..i])
    ensures i < |acts| ==> Enabled(cfg, Run(cfg, acts[..i]), acts[i])
  {
    PrefixRuns(cfg, acts, i);
    if i < |acts| {
      PrefixRuns(cfg, acts, i + 1);
      assert acts[..i + 1][..i] == acts[..i];
    }
  }

  /** The number a Decide action of the run was taken with. */
  ghost function NumberAt(cfg: Config, acts: seq<Action>, i: nat): int
    requires CanRun(cfg, acts) && i < |acts| && acts[i].Decide?
  {
    Before(cfg, acts, i).scouts[acts[i].s].number
  }

  /** The highest accepted number that scout had been told of. */
  ghost function ParentAt(cfg: Config, acts: seq<Action>, i: nat): int
    requires CanRun(cfg, acts) && i < |acts| && acts[i].Decide?
  {
    Before(cfg, acts, i).scouts[acts[i].s].best
  }

  /** What a later state keeps of an earlier one, in every run of the program. */
  ghost predicate Extends(st: State, st': State) {
    && st.votes <= st'.votes && st.proposals <= st'.proposals
    && st.lost <= st'.lost && st.learns <= st'.learns
    && st.wins.Keys <= st'.wins.Keys
    && (forall l | l in st.learners :: l in st'.learners &&
          st.learners[l].printed <= st'.learners[l].printed &&
          st.learners[l].file <= st'.learners[l].file)
    && (forall p | p in st.acceptors :: p in st'.acceptors && st.acceptors[p].promised <= st'.acceptors[p].promised)
  }

  lemma NextExtends(cfg: Config, st: State, a: Action)
    requires Shape(cfg, st) && Enabled(cfg, st, a)
    ensures Extends(st, Next(cfg, st, a))
  {
  }

  /** A step that leaves the scout of server s alone. */
  predicate Foreign(a: Action, s: Id) {
    !((a.BeginCall? || a.PrepareReply? || a.PrepareLost? || a.Abandon? || a.Retry? || a.Decide?
       || a.AcceptReply? || a.AcceptLost? || a.EndAccept?) && a.s == s)
  }

  lemma ForeignKeeps(cfg: Config, st: State, a: Action, s: Id)
    requires Shape(cfg, st) && Enabled(cfg, st, a) && Foreign(a, s) && s in cfg.servers
    ensures Next(cfg, st, a).scouts[s] == st.scouts[s]
    ensures st.votes <= Next(cfg, st, a).votes && st.learns <= Next(cfg, st, a).learns
  {
  }

  lemma {:induction false} RunExtends(cfg: Config, acts: seq<Action>, i: nat)
    requires CanRun(cfg, acts) && i <= |acts|
    ensures CanRun(cfg, acts[..i])
    ensures Extends(Run(cfg, acts[..i]), Run(cfg, acts))
    decreases |acts|
  {
    PrefixRuns(cfg, acts, i);
    if i == |acts| {
      assert acts[..i] == acts;
    } else {
      var init := acts[..|acts| - 1];
      RunExtends(cfg, init, i);
      assert init[..i] == acts[..i];
      NextExtends(cfg, Run(cfg, init), acts[|acts| - 1]);
      ExtendsTransitive(Run(cfg, acts[..i]), Run(cfg, init), Run(cfg, acts));
    }
  }

  lemma ExtendsTransitive(a: State, b: State, c: State)
    requires Extends(a, b) && Extends(b, c)
    ensures Extends(a, c)
  {
    forall l | l in a.learners ensures l in c.learners &&
      a.learners[l].printed <= c.learners[l].printed && a.learners[l].file <= c.learners[l].file
    {
      PrefixTransitive(a.learners[l].printed, b.learners[l].printed, c.learners[l].printed);
      PrefixTransitive(a.learners[l].file, b.learners[l].file, c.learners[l].file);
    }
  }

  lemma PrefixTransitive<T>(a: seq<T>, b: seq<T>, c: seq<T>)
    requires a <= b && b <= c
    ensures a <= c
  {
  }

  /** The i-th action of a run was possible, and guarded if the run is. */
  lemma StepAt(cfg: Config, acts: seq<Action>, i: nat)
    requires CanRun(cfg, acts) && i < |acts|
    ensures CanRun(cfg, acts[..i]) && CanRun(cfg, acts[..i + 1])
    ensures Enabled(cfg, Run(cfg, acts[..i]), acts[i])
    ensures Run(cfg, acts[..i + 1]) == Next(cfg, Run(cfg, acts[..i]), acts[i])
    ensures Counted(cfg, acts) ==> Counted(cfg, acts[..i]) && Guard(cfg, Run(cfg, acts[..i]), acts[i])
    ensures SlotSafe(cfg, acts) ==> SlotSafe(cfg, acts[..i])
  {
    PrefixRuns(cfg, acts, i);
    PrefixRuns(cfg, acts, i + 1);
    assert acts[..i + 1][..i] == acts[..i];
  }

  lemma LaterExtends(cfg: Config, acts: seq<Action>, i: nat, j: nat)
    requires CanRun(cfg, acts) && i <= j <= |acts|
    ensures Extends(Before(cfg, acts, i), Before(cfg, acts, j))
  {
    PrefixRuns(cfg, acts, i);
    PrefixRuns(cfg, acts, j);
    RunsExtend(cfg, acts, i, j);
  }

  lemma RunsExtend(cfg: Config, acts: seq<Action>, i: nat, j: nat)
    requires i <= j <= |acts| && CanRun(cfg, acts[..i]) && CanRun(cfg, acts[..j])
    ensures Extends(Run(cfg, acts[..i]), Run(cfg, acts[..j]))
  {
    assert acts[..j][..i] == acts[..i];
    RunExtends(cfg, acts[..j], i);
  }
}
