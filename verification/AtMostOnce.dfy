/**
 One customer order is decided in at most one slot, provided no scout drops an
 own command after a full reject some of whose replies it did not read: an own
 command is built anew only after a full reject, and a re-proposal keeps the
 slot. Replies lost anywhere else do no harm.
 */
module AtMostOnce {
  import opened Messages
  import opened Learner
  import opened Protocol
  import opened Runs
  import opened EveryRun
  import opened Safety
  import opened AcceptCount

  /** The scout's own command got no agreeing reply, so it will build a new one. */
  predicate Drops(cfg: Config, sc: Scout) {
    sc.own && AcceptResult(cfg, sc.active, |sc.accepts|) == 0
  }

  /** Whenever an own command was dropped, every acceptor it was sent to had been heard. */
  ghost predicate RejectsHeard(cfg: Config, acts: seq<Action>)
    requires CanRun(cfg, acts)
  {
    if acts == [] then true
    else
      var st, a := Run(cfg, acts[..|acts| - 1]), acts[|acts| - 1];
      && RejectsHeard(cfg, acts[..|acts| - 1])
      && (a.EndAccept? && Drops(cfg, st.scouts[a.s]) ==> !Unheard(st, st.scouts[a.s].number))
  }

  ghost predicate InUse(st: State, n: int) {
    exists s :: s in st.scouts && st.scouts[s].phase == Accepting && st.scouts[s].number == n
  }

  /** Number n was won for request r and has votes, or may still get some. */
  ghost predicate Live(st: State, n: int, r: Request) {
    n in st.wins && st.wins[n].request == r && (Voted(st, n) || InUse(st, n) || Unheard(st, n))
  }

  ghost predicate OneCommand(st: State) {
    forall r, m, n | Live(st, m, r) && Live(st, n, r) :: st.wins[m].cmd == st.wins[n].cmd
  }

  ghost predicate NoneLive(st: State, r: Request) {
    forall n :: !Live(st, n, r)
  }

  ghost predicate ScoutTracks(st: State, sc: Scout) {
    && (sc.phase == Preparing ==>
          && NoneLive(st, sc.request)
          && (sc.best != -1 ==> Voted(st, sc.best)))
    && (sc.phase == Accepting ==>
          if sc.own then
                && sc.number in st.wins && st.wins[sc.number].request == sc.request
                && (!Voted(st, sc.number) ==> forall n | Live(st, n, sc.request) :: n == sc.number)
              else NoneLive(st, sc.request))
  }

  /** Requests are named by server and call, and a call that has not begun has no commands. */
  ghost predicate RequestsOk(st: State) {
    && (forall n | n in st.wins ::
          var r := st.wins[n].request; r.server in st.scouts && r.call < st.scouts[r.server].calls)
    && (forall s | s in st.scouts && st.scouts[s].phase != Idle ::
          st.scouts[s].request.server == s && st.scouts[s].request.call + 1 == st.scouts[s].calls)
  }

  ghost predicate Once(st: State) {
    && OneCommand(st) && RequestsOk(st)
    && (forall s | s in st.scouts :: ScoutTracks(st, st.scouts[s]))
  }

  /** Fewer live numbers, the same votes. */
  ghost predicate Shrinks(st: State, st': State) {
    && st'.votes == st.votes && st'.lost == st.lost
    && (forall n, r | Live(st', n, r) :: Live(st, n, r) && st'.wins[n] == st.wins[n])
    && (forall n | n in st.wins :: n in st'.wins && st'.wins[n] == st.wins[n])
  }

  lemma TracksShrunk(st: State, st': State, sc: Scout)
    requires Shrinks(st, st') && ScoutTracks(st, sc)
    ensures ScoutTracks(st', sc)
  {
    assert forall n :: Voted(st', n) <==> Voted(st, n);
  }

  lemma OneCommandShrunk(st: State, st': State)
    requires Shrinks(st, st') && OneCommand(st)
    ensures OneCommand(st')
  {
  }

  // ---------- steps that leave phase 2 alone ----------

  /** Steps of acceptors and learners, and of scouts outside phase 2. */
  predicate Quiet(a: Action) {
    a.BeginCall? || a.PrepareReply? || a.PrepareLost? || a.Abandon? || a.Retry? || a.StrayPrepare? || a.Deliver?
  }

  lemma QuietShrinks(cfg: Config, st: State, a: Action)
    requires Shape(cfg, st) && Enabled(cfg, st, a) && Quiet(a)
    ensures Shrinks(st, Next(cfg, st, a))
  {
    var st' := Next(cfg, st, a);
    forall n | InUse(st', n) ensures InUse(st, n) {
      var s :| s in st'.scouts && st'.scouts[s].phase == Accepting && st'.scouts[s].number == n;
      assert s in st.scouts && st.scouts[s].phase == Accepting && st.scouts[s].number == n;
    }
  }

  lemma NewRequest(st: State, r: Request)
    requires RequestsOk(st) && r.server in st.scouts && st.scouts[r.server].calls <= r.call
    ensures NoneLive(st, r)
  {
  }

  lemma QuietScout(cfg: Config, st: State, a: Action, s: Id)
    requires Shape(cfg, st) && AcceptorsOk(cfg, st) && Enabled(cfg, st, a) && Quiet(a) && s in st.scouts
    requires RequestsOk(st) && ScoutTracks(st, st.scouts[s]) && -1 <= st.scouts[s].best
    ensures ScoutTracks(Next(cfg, st, a), Next(cfg, st, a).scouts[s])
  {
    var st' := Next(cfg, st, a);
    QuietShrinks(cfg, st, a);
    var sc, sc' := st.scouts[s], st'.scouts[s];
    TracksShrunk(st, st', sc);
    if a.BeginCall? && a.s == s {
      NewRequest(st, sc'.request);
    } else if a.PrepareReply? && a.s == s && sc'.best != sc.best {
      assert Vote(a.p, sc'.best, st.acceptors[a.p].value) in st'.votes;
    }
  }

  lemma QuietRequests(cfg: Config, st: State, a: Action)
    requires Shape(cfg, st) && Enabled(cfg, st, a) && Quiet(a) && RequestsOk(st)
    ensures RequestsOk(Next(cfg, st, a))
  {
  }

  lemma QuietOnce(cfg: Config, st: State, a: Action)
    requires Inv(cfg, st) && Enabled(cfg, st, a) && Once(st) && Quiet(a)
    ensures Once(Next(cfg, st, a))
  {
    QuietRequests(cfg, st, a);
    QuietShrinks(cfg, st, a);
    OneCommandShrunk(st, Next(cfg, st, a));
    forall s | s in Next(cfg, st, a).scouts ensures ScoutTracks(Next(cfg, st, a), Next(cfg, st, a).scouts[s]) {
      assert ScoutOk(cfg, st, st.scouts[s]);
      QuietScout(cfg, st, a, s);
    }
  }

  // ---------- votes ----------

  /** Accept messages: answered, lost, or handled late because they were lost. */
  predicate Voting(st: State, a: Action) {
    a.AcceptReply? || a.AcceptLost? || (a.StrayAccept? && Vote(a.p, a.n, a.c) in st.lost)
  }

  lemma VotingInUse(cfg: Config, st: State, a: Action, m: int)
    requires Shape(cfg, st) && Enabled(cfg, st, a) && Voting(st, a) && InUse(Next(cfg, st, a), m)
    ensures InUse(st, m)
  {
    var st' := Next(cfg, st, a);
    var t :| t in st'.scouts && st'.scouts[t].phase == Accepting && st'.scouts[t].number == m;
    assert st.scouts[t].phase == Accepting && st.scouts[t].number == m;
  }

  lemma VotingAdds(cfg: Config, st: State, a: Action, m: int)
    requires Shape(cfg, st) && Enabled(cfg, st, a) && Voting(st, a)
    requires Voted(Next(cfg, st, a), m) || Unheard(Next(cfg, st, a), m)
    ensures Voted(st, m) || Unheard(st, m) || InUse(st, m)
  {
    var st' := Next(cfg, st, a);
    if v :| v in st'.votes && v.number == m && v !in st.votes {
      if a.AcceptReply? { assert st.scouts[a.s].phase == Accepting && st.scouts[a.s].number == m; }
    } else if v :| v in st'.lost && v.number == m && v !in st.lost {
      assert st.scouts[a.s].phase == Accepting && st.scouts[a.s].number == m;
    }
  }

  /** Such a step may add votes, but only at a number that is live already. */
  lemma VotingLive(cfg: Config, st: State, a: Action)
    requires Shape(cfg, st) && Enabled(cfg, st, a) && Voting(st, a)
    ensures var st' := Next(cfg, st, a);
            && (forall m :: Voted(st, m) ==> Voted(st', m))
            && (forall m, r :: Live(st', m, r) ==> Live(st, m, r))
            && st'.wins == st.wins
  {
    var st' := Next(cfg, st, a);
    NextExtends(cfg, st, a);
    assert st'.wins == st.wins;
    forall m | Voted(st, m) ensures Voted(st', m) {
      var v :| v in st.votes && v.number == m;
      assert v in st'.votes;
    }
    forall m, r | Live(st', m, r) ensures Live(st, m, r) {
      if InUse(st', m) { VotingInUse(cfg, st, a, m); } else { VotingAdds(cfg, st, a, m); }
    }
  }

  /** No number becomes live, and votes stay. */
  lemma TracksVoted(st: State, st': State, sc: Scout, sc': Scout)
    requires ScoutTracks(st, sc)
    requires sc' == sc.(visited := sc'.visited, active := sc'.active, accepts := sc'.accepts)
    requires st'.wins == st.wins
    requires forall m :: Voted(st, m) ==> Voted(st', m)
    requires forall m, r :: Live(st', m, r) ==> Live(st, m, r)
    ensures ScoutTracks(st', sc')
  {
  }

  lemma VotingScout(cfg: Config, st: State, a: Action, t: Id)
    requires Shape(cfg, st) && Enabled(cfg, st, a) && Voting(st, a) && t in st.scouts
    ensures var sc, sc' := st.scouts[t], Next(cfg, st, a).scouts[t];
            sc' == sc.(visited := sc'.visited, active := sc'.active, accepts := sc'.accepts)
  {
  }

  lemma VotingRequests(cfg: Config, st: State, a: Action)
    requires Shape(cfg, st) && Enabled(cfg, st, a) && Voting(st, a) && RequestsOk(st)
    ensures RequestsOk(Next(cfg, st, a))
  {
    forall t | t in st.scouts ensures Next(cfg, st, a).scouts[t].request == st.scouts[t].request {
      VotingScout(cfg, st, a, t);
    }
  }

  lemma VotingOnce(cfg: Config, st: State, a: Action)
    requires Shape(cfg, st) && Enabled(cfg, st, a) && Voting(st, a) && Once(st)
    ensures Once(Next(cfg, st, a))
  {
    var st' := Next(cfg, st, a);
    VotingLive(cfg, st, a);
    VotingRequests(cfg, st, a);
    NextShape(cfg, st, a);
    forall t | t in st'.scouts ensures ScoutTracks(st', st'.scouts[t]) {
      VotingScout(cfg, st, a, t);
      TracksVoted(st, st', st.scouts[t], st'.scouts[t]);
    }
  }

  // ---------- entering and leaving phase 2 ----------

  lemma DecideLive(cfg: Config, st: State, s: Id, id: int)
    requires cfg.Valid() && Inv(cfg, st) && Enabled(cfg, st, Decide(s, id)) && CountGuard(cfg, st.scouts[s])
    ensures var st' := Next(cfg, st, Decide(s, id));
            var n := st.scouts[s].number;
            && n !in st.wins && !Voted(st', n)
            && (forall m, r :: Live(st', m, r) <==> Live(st, m, r) || (m == n && r == st'.wins[n].request))
            && (forall m | m in st.wins :: st'.wins[m] == st.wins[m])
            && st'.votes == st.votes && st'.lost == st.lost
  {
    var st' := Next(cfg, st, Decide(s, id));
    var n := st.scouts[s].number;
    FreshNumber(cfg, st, s);
    DecideInUse(cfg, st, s, id);
    assert forall m :: Voted(st', m) <==> Voted(st, m);
  }

  lemma DecideInUse(cfg: Config, st: State, s: Id, id: int)
    requires Shape(cfg, st) && Enabled(cfg, st, Decide(s, id))
    ensures forall m :: InUse(Next(cfg, st, Decide(s, id)), m) <==> InUse(st, m) || m == st.scouts[s].number
  {
    var st' := Next(cfg, st, Decide(s, id));
    var n := st.scouts[s].number;
    assert st'.scouts[s].phase == Accepting && st'.scouts[s].number == n;
    forall m ensures m != n ==> (InUse(st', m) <==> InUse(st, m)) {
      if m != n && InUse(st, m) {
        var t :| t in st.scouts && st.scouts[t].phase == Accepting && st.scouts[t].number == m;
        assert st'.scouts[t].phase == Accepting && st'.scouts[t].number == m;
      }
      if m != n && InUse(st', m) {
        var t :| t in st'.scouts && st'.scouts[t].phase == Accepting && st'.scouts[t].number == m;
        assert st.scouts[t].phase == Accepting && st.scouts[t].number == m;
      }
    }
  }

  /** One more live number n, for request r: a scout that serves another request, or finds n's parent live, keeps track. */
  lemma TracksNewWin(st: State, st': State, sc: Scout, n: int, r: Request)
    requires ScoutTracks(st, sc) && st'.votes == st.votes && st'.lost == st.lost
    requires n !in st.wins && (sc.phase == Accepting ==> sc.number in st.wins)
    requires forall m, q :: Live(st', m, q) <==> Live(st, m, q) || (m == n && q == r)
    requires forall m | m in st.wins :: m in st'.wins && st'.wins[m] == st.wins[m]
    requires sc.phase != Idle && r == sc.request ==> exists m :: Live(st, m, r) && Voted(st, m)
    ensures ScoutTracks(st', sc)
  {
    assert forall m :: Voted(st', m) <==> Voted(st, m);
    if sc.phase != Idle && r == sc.request {
      var m :| Live(st, m, r) && Voted(st, m);
    }
  }

  /** What a Decide step adds belongs to the scout's own request, or to the request of a voted parent. */
  lemma DecideRequest(cfg: Config, st: State, s: Id, id: int)
    requires cfg.Valid() && Inv(cfg, st) && Enabled(cfg, st, Decide(s, id)) && Once(st)
    ensures var sc := st.scouts[s];
            var d := st.learners[s].decisions;
            if ProposesOwn(sc, d) then RequestOf(st, sc, d) == sc.request
            else && sc.best in st.wins && Voted(st, sc.best)
                 && Live(st, sc.best, RequestOf(st, sc, d)) && RequestOf(st, sc, d) != sc.request
                 && sc.bestCmd == st.wins[sc.best].cmd
  {
    assert ScoutTracks(st, st.scouts[s]) && ScoutOk(cfg, st, st.scouts[s]);
  }

  lemma DecideOtherTracks(cfg: Config, st: State, s: Id, id: int, t: Id)
    requires cfg.Valid() && Inv(cfg, st) && Enabled(cfg, st, Decide(s, id)) && CountGuard(cfg, st.scouts[s])
    requires Once(st) && t in st.scouts && t != s
    ensures ScoutTracks(Next(cfg, st, Decide(s, id)), st.scouts[t])
  {
    var sc, d := st.scouts[s], st.learners[s].decisions;
    DecideLive(cfg, st, s, id);
    DecideRequest(cfg, st, s, id);
    assert ScoutTracks(st, st.scouts[t]) && ScoutOk(cfg, st, st.scouts[t]);
    TracksNewWin(st, Next(cfg, st, Decide(s, id)), st.scouts[t], sc.number, RequestOf(st, sc, d));
  }

  lemma TracksOwnWin(st: State, st': State, sc: Scout, sc': Scout, r: Request)
    requires ScoutTracks(st, sc) && sc.phase == Preparing && sc'.phase == Accepting
    requires sc'.number == sc.number && sc'.request == sc.request
    requires !Voted(st', sc.number) && sc.number in st'.wins && st'.wins[sc.number].request == r
    requires forall m, q :: Live(st', m, q) <==> Live(st, m, q) || (m == sc.number && q == r)
    requires sc'.own <==> r == sc.request
    ensures ScoutTracks(st', sc')
  {
    assert forall v | v in st'.votes :: v.number != sc.number;
  }

  lemma DecideOwnTracks(cfg: Config, st: State, s: Id, id: int)
    requires cfg.Valid() && Inv(cfg, st) && Enabled(cfg, st, Decide(s, id)) && CountGuard(cfg, st.scouts[s])
    requires Once(st)
    ensures ScoutTracks(Next(cfg, st, Decide(s, id)), Next(cfg, st, Decide(s, id)).scouts[s])
  {
    var st' := Next(cfg, st, Decide(s, id));
    var sc, d := st.scouts[s], st.learners[s].decisions;
    DecideLive(cfg, st, s, id);
    DecideRequest(cfg, st, s, id);
    assert ScoutTracks(st, sc);
    TracksOwnWin(st, st', sc, st'.scouts[s], RequestOf(st, sc, d));
  }

  lemma DecideOneCommand(cfg: Config, st: State, s: Id, id: int)
    requires cfg.Valid() && Inv(cfg, st) && Enabled(cfg, st, Decide(s, id)) && CountGuard(cfg, st.scouts[s])
    requires Once(st)
    ensures OneCommand(Next(cfg, st, Decide(s, id)))
  {
    DecideLive(cfg, st, s, id);
    DecideRequest(cfg, st, s, id);
    assert ScoutTracks(st, st.scouts[s]);
  }

  lemma DecideTracks(cfg: Config, st: State, s: Id, id: int, t: Id)
    requires cfg.Valid() && Inv(cfg, st) && Enabled(cfg, st, Decide(s, id)) && CountGuard(cfg, st.scouts[s])
    requires Once(st) && t in cfg.servers
    ensures ScoutTracks(Next(cfg, st, Decide(s, id)), Next(cfg, st, Decide(s, id)).scouts[t])
  {
    if t == s { DecideOwnTracks(cfg, st, s, id); } else { DecideOtherTracks(cfg, st, s, id, t); }
  }

  lemma DecideOnce(cfg: Config, st: State, s: Id, id: int)
    requires cfg.Valid() && Inv(cfg, st) && Enabled(cfg, st, Decide(s, id)) && CountGuard(cfg, st.scouts[s])
    requires Once(st)
    ensures Once(Next(cfg, st, Decide(s, id)))
  {
    var st' := Next(cfg, st, Decide(s, id));
    NextShape(cfg, st, Decide(s, id));
    forall t | t in st'.scouts ensures ScoutTracks(st', st'.scouts[t]) {
      DecideTracks(cfg, st, s, id, t);
    }
    DecideOneCommand(cfg, st, s, id);
    DecideRequest(cfg, st, s, id);
    DecideRequestsOk(cfg, st, s, id);
  }

  lemma DecideRequestsOk(cfg: Config, st: State, s: Id, id: int)
    requires Shape(cfg, st) && Enabled(cfg, st, Decide(s, id)) && RequestsOk(st)
    requires var sc, d := st.scouts[s], st.learners[s].decisions; ProposesOwn(sc, d) || sc.best in st.wins
    ensures RequestsOk(Next(cfg, st, Decide(s, id)))
  {
    var sc := st.scouts[s];
    var r := RequestOf(st, sc, st.learners[s].decisions);
    assert r.server in st.scouts && r.call < st.scouts[r.server].calls;
  }

  /** After a full reject with every acceptor heard, nobody accepted and nobody will. */
  lemma EndOnce(cfg: Config, st: State, s: Id)
    requires Shape(cfg, st) && Enabled(cfg, st, EndAccept(s)) && Once(st) && CountsOk(st)
    requires Drops(cfg, st.scouts[s]) ==> !Unheard(st, st.scouts[s].number)
    ensures Once(Next(cfg, st, EndAccept(s)))
  {
    var st' := Next(cfg, st, EndAccept(s));
    EndShrinks(cfg, st, s);
    OneCommandShrunk(st, st');
    EndRequests(cfg, st, s);
    forall t | t in st'.scouts ensures ScoutTracks(st', st'.scouts[t]) {
      if t != s { TracksShrunk(st, st', st.scouts[t]); } else { RestartTracks(cfg, st, s); }
    }
  }

  lemma EndRequests(cfg: Config, st: State, s: Id)
    requires Shape(cfg, st) && Enabled(cfg, st, EndAccept(s)) && RequestsOk(st)
    ensures RequestsOk(Next(cfg, st, EndAccept(s)))
  {
  }

  lemma EndShrinks(cfg: Config, st: State, s: Id)
    requires Shape(cfg, st) && Enabled(cfg, st, EndAccept(s)) && NumbersApart(st)
    ensures Shrinks(st, Next(cfg, st, EndAccept(s)))
    ensures !InUse(Next(cfg, st, EndAccept(s)), st.scouts[s].number)
  {
    var st' := Next(cfg, st, EndAccept(s));
    forall n | InUse(st', n) ensures InUse(st, n) && n != st.scouts[s].number {
      var t :| t in st'.scouts && st'.scouts[t].phase == Accepting && st'.scouts[t].number == n;
      assert t != s && st.scouts[t].phase == Accepting && st.scouts[t].number == n;
    }
  }

  /** An own command that is dropped with every acceptor heard leaves no vote and nothing unheard. */
  lemma DroppedIsDead(cfg: Config, st: State, s: Id)
    requires Shape(cfg, st) && Enabled(cfg, st, EndAccept(s)) && CountsOk(st)
    requires Drops(cfg, st.scouts[s]) && !Unheard(st, st.scouts[s].number)
    ensures !Voted(st, st.scouts[s].number)
  {
    var sc := st.scouts[s];
    assert VotesCounted(st, sc) && sc.accepts == {};
  }

  lemma RestartTracks(cfg: Config, st: State, s: Id)
    requires Shape(cfg, st) && Enabled(cfg, st, EndAccept(s)) && Once(st) && CountsOk(st)
    requires Drops(cfg, st.scouts[s]) ==> !Unheard(st, st.scouts[s].number)
    ensures ScoutTracks(Next(cfg, st, EndAccept(s)), Next(cfg, st, EndAccept(s)).scouts[s])
  {
    var sc := st.scouts[s];
    var st' := Next(cfg, st, EndAccept(s));
    EndShrinks(cfg, st, s);
    assert ScoutTracks(st, sc);
    if Drops(cfg, sc) {
      DroppedIsDead(cfg, st, s);
      assert !Voted(st', sc.number) && !Unheard(st', sc.number) && !InUse(st', sc.number);
    }
  }

  // ---------- runs ----------

  lemma NextOnce(cfg: Config, st: State, a: Action)
    requires cfg.Valid() && Inv(cfg, st) && Enabled(cfg, st, a) && Guard(cfg, st, a) && Once(st) && CountsOk(st)
    requires a.StrayAccept? ==> Vote(a.p, a.n, a.c) in st.lost
    requires a.EndAccept? && Drops(cfg, st.scouts[a.s]) ==> !Unheard(st, st.scouts[a.s].number)
    ensures Once(Next(cfg, st, a))
  {
    if Quiet(a) {
      QuietOnce(cfg, st, a);
    } else if a.Decide? {
      DecideOnce(cfg, st, a.s, a.commandId);
    } else if a.EndAccept? {
      EndOnce(cfg, st, a.s);
    } else {
      VotingOnce(cfg, st, a);
    }
  }

  lemma {:induction false} RunOnce(cfg: Config, acts: seq<Action>)
    requires cfg.Valid() && CanRun(cfg, acts) && Counted(cfg, acts)
    requires HandledOnce(cfg, acts) && RejectsHeard(cfg, acts)
    ensures Once(Run(cfg, acts))
  {
    if acts != [] {
      var init := acts[..|acts| - 1];
      RunOnce(cfg, init);
      RunInv(cfg, init);
      RunCounts(cfg, init);
      NextOnce(cfg, Run(cfg, init), acts[|acts| - 1]);
    }
  }

  /** Two chosen commands that serve the same order are the same command, in the same slot. */
  lemma OneCommandPerOrder(cfg: Config, acts: seq<Action>, m: int, c: Command, n: int, d: Command)
    requires cfg.Valid() && CanRun(cfg, acts) && Counted(cfg, acts)
    requires HandledOnce(cfg, acts) && RejectsHeard(cfg, acts)
    requires Chosen(cfg, Run(cfg, acts), m, c) && Chosen(cfg, Run(cfg, acts), n, d)
    ensures m in Run(cfg, acts).wins && n in Run(cfg, acts).wins
    ensures Run(cfg, acts).wins[m].request == Run(cfg, acts).wins[n].request ==> c == d
  {
    RunInv(cfg, acts);
    RunOnce(cfg, acts);
    var st := Run(cfg, acts);
    ChosenIsVoted(cfg, st, m, c);
    ChosenIsVoted(cfg, st, n, d);
    if st.wins[m].request == st.wins[n].request {
      assert Live(st, m, st.wins[m].request) && Live(st, n, st.wins[m].request);
    }
  }

  /**
   Decided slots and orders correspond one to one: with the slot guard as well,
   two chosen commands fill the same slot exactly when they serve the same
   order; and then they are the same command.
   */
  lemma OneSlotPerOrder(cfg: Config, acts: seq<Action>, m: int, c: Command, n: int, d: Command)
    requires cfg.Valid() && CanRun(cfg, acts) && Guarded(cfg, acts)
    requires HandledOnce(cfg, acts) && RejectsHeard(cfg, acts)
    requires Chosen(cfg, Run(cfg, acts), m, c) && Chosen(cfg, Run(cfg, acts), n, d)
    ensures m in Run(cfg, acts).wins && n in Run(cfg, acts).wins
    ensures Run(cfg, acts).wins[m].request == Run(cfg, acts).wins[n].request <==> c.slot == d.slot
    ensures c.slot == d.slot ==> c == d
  {
    OneCommandPerOrder(cfg, acts, m, c, n, d);
    RunInv(cfg, acts);
    RunRising(cfg, acts);
    if c.slot == d.slot {
      ChosenAgree(cfg, Run(cfg, acts), m, c, n, d);
    }
  }

  lemma ChosenIsVoted(cfg: Config, st: State, n: int, c: Command)
    requires Inv(cfg, st) && Chosen(cfg, st, n, c)
    ensures Voted(st, n) && n in st.wins && st.wins[n].cmd == c
  {
    ChosenIsWon(cfg, st, n, c);
    var p :| p in Voters(cfg, st, n, c);
    assert Vote(p, n, c) in st.votes;
  }
}
