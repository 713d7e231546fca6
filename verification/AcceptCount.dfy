/**
 What the count of AcceptPhaseBrocasting is worth: an acceptor that accepted
 the proposal was counted, unless its reply was not read.
 */
module AcceptCount {
  import opened Messages
  import opened Protocol
  import opened EveryRun
  import opened Safety

  ghost predicate Voted(st: State, n: int) {
    exists v :: v in st.votes && v.number == n
  }

  /** Some accept message with number n was sent and its reply never read. */
  ghost predicate Unheard(st: State, n: int) {
    exists v :: v in st.lost && v.number == n
  }

  /** An accept message is handled once: with its reply, or late because its reply is not read. */
  ghost predicate HandledOnce(cfg: Config, acts: seq<Action>)
    requires CanRun(cfg, acts)
  {
    if acts == [] then true
    else
      var st, a := Run(cfg, acts[..|acts| - 1]), acts[|acts| - 1];
      HandledOnce(cfg, acts[..|acts| - 1]) && (a.StrayAccept? ==> Vote(a.p, a.n, a.c) in st.lost)
  }

  ghost predicate NumbersApart(st: State) {
    forall s, t | s in st.scouts && t in st.scouts && s != t &&
                  st.scouts[s].phase == Accepting && st.scouts[t].phase == Accepting ::
      st.scouts[s].number != st.scouts[t].number
  }

  /** Every vote at the scout's number was counted, or its reply was not read. */
  ghost predicate VotesCounted(st: State, sc: Scout) {
    sc.phase == Accepting ==>
      forall v | v in st.votes && v.number == sc.number :: v.acceptor in sc.accepts || v in st.lost
  }

  ghost predicate CountsOk(st: State) {
    NumbersApart(st) && forall s | s in st.scouts :: VotesCounted(st, st.scouts[s])
  }

  lemma DecideNumbersApart(cfg: Config, st: State, s: Id, id: int)
    requires Inv(cfg, st) && Enabled(cfg, st, Decide(s, id)) && NumbersApart(st)
    requires st.scouts[s].number !in st.wins
    ensures NumbersApart(Next(cfg, st, Decide(s, id)))
  {
    var st' := Next(cfg, st, Decide(s, id));
    forall t | t in st'.scouts && t != s && st'.scouts[t].phase == Accepting
      ensures st'.scouts[t].number != st'.scouts[s].number
    {
      assert ScoutOk(cfg, st, st.scouts[t]);
    }
  }

  lemma AcceptingStays(cfg: Config, st: State, a: Action, s: Id)
    requires Shape(cfg, st) && Enabled(cfg, st, a) && !a.Decide? && s in cfg.servers
    requires Next(cfg, st, a).scouts[s].phase == Accepting
    ensures st.scouts[s].phase == Accepting && Next(cfg, st, a).scouts[s].number == st.scouts[s].number
    ensures st.scouts[s].accepts <= Next(cfg, st, a).scouts[s].accepts
  {
  }

  lemma OtherNumbersApart(cfg: Config, st: State, a: Action)
    requires Shape(cfg, st) && Enabled(cfg, st, a) && !a.Decide? && NumbersApart(st)
    ensures NumbersApart(Next(cfg, st, a))
  {
    var st' := Next(cfg, st, a);
    forall s, t | s in st'.scouts && t in st'.scouts && s != t &&
                  st'.scouts[s].phase == Accepting && st'.scouts[t].phase == Accepting
      ensures st'.scouts[s].number != st'.scouts[t].number
    {
      AcceptingStays(cfg, st, a, s);
      AcceptingStays(cfg, st, a, t);
    }
  }

  /** Votes come from answered messages, which are counted, and from lost ones. */
  lemma NewVote(cfg: Config, st: State, a: Action, v: Vote)
    requires Shape(cfg, st) && Enabled(cfg, st, a)
    requires a.StrayAccept? ==> Vote(a.p, a.n, a.c) in st.lost
    requires v in Next(cfg, st, a).votes && v !in st.votes
    ensures v in st.lost ||
            (a.AcceptReply? && v.number == st.scouts[a.s].number && v.acceptor in Next(cfg, st, a).scouts[a.s].accepts)
  {
  }

  lemma LostStays(cfg: Config, st: State, a: Action)
    requires Shape(cfg, st) && Enabled(cfg, st, a)
    ensures st.lost <= Next(cfg, st, a).lost
  {
  }

  lemma NextCounted(cfg: Config, st: State, a: Action, s: Id)
    requires Shape(cfg, st) && Enabled(cfg, st, a) && !a.Decide? && s in cfg.servers && CountsOk(st)
    requires a.StrayAccept? ==> Vote(a.p, a.n, a.c) in st.lost
    ensures VotesCounted(Next(cfg, st, a), Next(cfg, st, a).scouts[s])
  {
    var st' := Next(cfg, st, a);
    var sc' := st'.scouts[s];
    LostStays(cfg, st, a);
    if sc'.phase == Accepting {
      AcceptingStays(cfg, st, a, s);
      forall v | v in st'.votes && v.number == sc'.number ensures v.acceptor in sc'.accepts || v in st'.lost {
        if v in st.votes {
          assert VotesCounted(st, st.scouts[s]);
        } else {
          NewVote(cfg, st, a, v);
        }
      }
    }
  }

  lemma DecideCounted(cfg: Config, st: State, s: Id, id: int, t: Id)
    requires Inv(cfg, st) && Enabled(cfg, st, Decide(s, id)) && t in cfg.servers && CountsOk(st)
    requires st.scouts[s].number !in st.wins
    ensures VotesCounted(Next(cfg, st, Decide(s, id)), Next(cfg, st, Decide(s, id)).scouts[t])
  {
    assert VotesCounted(st, st.scouts[t]);
  }

  lemma NextCountsOk(cfg: Config, st: State, a: Action)
    requires cfg.Valid() && Inv(cfg, st) && Enabled(cfg, st, a) && Guard(cfg, st, a) && CountsOk(st)
    requires a.StrayAccept? ==> Vote(a.p, a.n, a.c) in st.lost
    ensures CountsOk(Next(cfg, st, a))
  {
    var st' := Next(cfg, st, a);
    NextShape(cfg, st, a);
    if a.Decide? {
      FreshNumber(cfg, st, a.s);
      DecideNumbersApart(cfg, st, a.s, a.commandId);
      forall s | s in st'.scouts ensures VotesCounted(st', st'.scouts[s]) {
        DecideCounted(cfg, st, a.s, a.commandId, s);
      }
    } else {
      OtherNumbersApart(cfg, st, a);
      forall s | s in st'.scouts ensures VotesCounted(st', st'.scouts[s]) {
        NextCounted(cfg, st, a, s);
      }
    }
  }

  lemma {:induction false} RunCounts(cfg: Config, acts: seq<Action>)
    requires cfg.Valid() && CanRun(cfg, acts) && Counted(cfg, acts) && HandledOnce(cfg, acts)
    ensures CountsOk(Run(cfg, acts))
  {
    if acts != [] {
      var init := acts[..|acts| - 1];
      RunCounts(cfg, init);
      RunInv(cfg, init);
      NextCountsOk(cfg, Run(cfg, init), acts[|acts| - 1]);
    }
  }

  /** With every reply of the pass read, the acceptors counted are those that accepted. */
  lemma CountedAreVoters(cfg: Config, st: State, sc: Scout)
    requires sc.phase == Accepting && VotesCounted(st, sc) && CountedVoted(cfg, st, sc)
    requires !Unheard(st, sc.number)
    ensures Voters(cfg, st, sc.number, sc.proposal) == sc.accepts
    ensures sc.accepts == {} <==> !Voted(st, sc.number)
  {
    var vs := Voters(cfg, st, sc.number, sc.proposal);
    forall p | p in vs ensures p in sc.accepts {
      assert Vote(p, sc.number, sc.proposal) in st.votes;
    }
    forall p | p in sc.accepts ensures p in vs && Voted(st, sc.number) {
      assert Vote(p, sc.number, sc.proposal) in st.votes;
    }
    if Voted(st, sc.number) {
      var v :| v in st.votes && v.number == sc.number;
      assert v.acceptor in sc.accepts;
    }
    assert vs == sc.accepts;
  }

  /**
   When no accept reply of the pass was lost, the count is exact: the
   acceptors that accepted the proposal are the ones that were counted. So the
   pass is a full reject exactly when nobody accepted, and a success exactly
   when the command is chosen at that number. Losses in other passes do not
   matter.
   */
  lemma AcceptCountIsExact(cfg: Config, acts: seq<Action>, s: Id)
    requires cfg.Valid() && CanRun(cfg, acts) && Counted(cfg, acts) && HandledOnce(cfg, acts)
    requires InPhase(cfg, Run(cfg, acts), s, Accepting)
    requires !Unheard(Run(cfg, acts), Run(cfg, acts).scouts[s].number)
    ensures var st := Run(cfg, acts);
            var sc := st.scouts[s];
            && Voters(cfg, st, sc.number, sc.proposal) == sc.accepts
            && (sc.accepts == {} <==> !Voted(st, sc.number))
            && (cfg.Majority(|sc.accepts|) <==> Chosen(cfg, st, sc.number, sc.proposal))
  {
    RunCounts(cfg, acts);
    RunVoted(cfg, acts);
    CountedAreVoters(cfg, Run(cfg, acts), Run(cfg, acts).scouts[s]);
  }
}
