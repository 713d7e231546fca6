/**
 Where commands come from, in every run of the program, guarded or not: a
 command that is proposed, accepted, reported, handed to the learners or
 stored was built, unchanged, by one Decide step for one customer order.
 */
module Provenance {
  import opened Messages
  import opened Learner
  import opened Protocol
  import opened Runs
  import Bytes
  import Common
  import Wire

  /** Action a, taken in st, builds command c for the order its scout is handling. */
  ghost predicate Builds(st: State, a: Action, c: Command) {
    && a.Decide? && a.s in st.scouts && a.s in st.learners
    && ProposesOwn(st.scouts[a.s], st.learners[a.s].decisions)
    && c == DecideScout(st.scouts[a.s], st.learners[a.s].decisions, a.commandId).proposal
  }

  ghost predicate Begun(acts: seq<Action>, s: Id, customerId: int, orderId: int) {
    BeginCall(s, customerId, orderId) in acts
  }

  /** Some step of the run built c, for an order that had begun before it. */
  ghost predicate Built(cfg: Config, acts: seq<Action>, c: Command)
    requires CanRun(cfg, acts)
  {
    exists i: nat :: i < |acts| && BuiltAt(cfg, acts, i, c)
  }

  ghost predicate BuiltAt(cfg: Config, acts: seq<Action>, i: nat, c: Command)
    requires CanRun(cfg, acts) && i < |acts|
  {
    && Builds(Before(cfg, acts, i), acts[i], c)
    && Begun(acts[..i], acts[i].s, c.customerId, c.orderId)
  }

  lemma BuiltStays(cfg: Config, acts: seq<Action>, c: Command)
    requires acts != [] && CanRun(cfg, acts) && Built(cfg, acts[..|acts| - 1], c)
    ensures Built(cfg, acts, c)
  {
    var init := acts[..|acts| - 1];
    var i: nat :| i < |init| && BuiltAt(cfg, init, i, c);
    assert init[..i] == acts[..i];
    assert BuiltAt(cfg, acts, i, c);
  }

  predicate InAcceptor(a: Acceptor, c: Command) { a.accepted != -1 && a.value == c }

  predicate InScout(sc: Scout, c: Command) {
    || (sc.phase == Preparing && sc.best != -1 && sc.bestCmd == c)
    || (sc.phase == Accepting && sc.proposal == c)
  }

  ghost predicate InLearner(l: LearnerState, c: Command) {
    || c in l.printed
    || (exists k | k in l.decisions :: l.decisions[k] == c)
    || (exists x | x in l.file :: x.cmd == c)
  }

  ghost predicate InHistory(st: State, c: Command) {
    || (exists q | q in st.proposals :: q.cmd == c)
    || (exists v | v in st.votes :: v.cmd == c)
    || c in st.learns
  }

  /** c is somewhere in the system. */
  ghost predicate Present(st: State, c: Command) {
    || InHistory(st, c)
    || (exists p | p in st.acceptors :: InAcceptor(st.acceptors[p], c))
    || (exists s | s in st.scouts :: InScout(st.scouts[s], c))
    || (exists l | l in st.learners :: InLearner(st.learners[l], c))
  }

  lemma ScoutPresent(cfg: Config, st: State, a: Action, s: Id, c: Command)
    requires Shape(cfg, st) && Enabled(cfg, st, a) && NumbersSane(st)
    requires s in cfg.servers && InScout(Next(cfg, st, a).scouts[s], c)
    ensures Present(st, c) || Builds(st, a, c)
  {
    if a.PrepareReply? && a.s == s && !InScout(st.scouts[s], c) {
      assert InAcceptor(st.acceptors[a.p], c);
    } else if InScout(st.scouts[s], c) {
    } else {
      assert a.Decide?;
    }
  }

  lemma AcceptorPresent(cfg: Config, st: State, a: Action, p: Id, c: Command)
    requires Shape(cfg, st) && Enabled(cfg, st, a)
    requires p in cfg.servers && InAcceptor(Next(cfg, st, a).acceptors[p], c)
    ensures Present(st, c)
  {
    if InAcceptor(st.acceptors[p], c) {
    } else if a.AcceptReply? {
      assert InScout(st.scouts[a.s], c);
    } else {
      assert a.StrayAccept?;
    }
  }

  lemma HistoryPresent(cfg: Config, st: State, a: Action, c: Command)
    requires Shape(cfg, st) && Enabled(cfg, st, a) && NumbersSane(st)
    requires InHistory(Next(cfg, st, a), c)
    ensures Present(st, c) || Builds(st, a, c)
  {
    if InHistory(st, c) {
    } else if a.Decide? {
      ScoutPresent(cfg, st, a, a.s, c);
    } else if a.AcceptReply? || a.EndAccept? {
      assert InScout(st.scouts[a.s], c);
    }
  }

  lemma LearnerPresent(cfg: Config, st: State, a: Action, l: Id, c: Command)
    requires Shape(cfg, st) && Enabled(cfg, st, a)
    requires l in cfg.servers && InLearner(Next(cfg, st, a).learners[l], c)
    ensures Present(st, c)
  {
    if InLearner(st.learners[l], c) {
    } else {
      DeliverPresent(st.learners[l], a.c, c);
      assert InHistory(st, c);
    }
  }

  lemma DeliverPresent(l: LearnerState, d: Command, c: Command)
    requires InLearner(LearnOne(l, d), c)
    ensures InLearner(l, c) || c == d
  {
    var r := LearnOne(l, d);
    if c in r.printed {
      var i :| 0 <= i < |r.printed| && r.printed[i] == c;
      if i < |l.printed| {
        assert l.printed[i] == c;
      } else {
        CommittedFrom(r.decisions, l.slotOut, r.slotOut, i - |l.printed|);
      }
    } else if x :| x in r.file && x.cmd == c {
      var i :| 0 <= i < |r.file| && r.file[i] == x;
      if i < |l.file| {
        assert l.file[i].cmd == c;
      } else {
        assert r.file[i].cmd == d by { SavedFrom(l.slotOut, r.slotOut, d, i - |l.file|); }
      }
    }
  }

  lemma SavedFrom(lo: int, hi: int, d: Command, i: int)
    requires lo <= hi && 0 <= i < hi - lo
    ensures Saved(lo, hi, d)[i].cmd == d
  {
    assert Saved(lo, hi, d)[(lo + i) - lo] == Line(lo + i, d);
  }

  lemma CommittedFrom(d: map<int, Command>, lo: int, hi: int, i: int)
    requires lo <= hi && (forall k :: lo <= k < hi ==> k in d) && 0 <= i < hi - lo
    ensures lo + i in d && Committed(d, lo, hi)[i] == d[lo + i]
  {
  }

  /** One step brings a command into the system only by building it. */
  lemma NextPresent(cfg: Config, st: State, a: Action, c: Command)
    requires Shape(cfg, st) && Enabled(cfg, st, a) && NumbersSane(st)
    requires Present(Next(cfg, st, a), c)
    ensures Present(st, c) || Builds(st, a, c)
  {
    var st' := Next(cfg, st, a);
    if InHistory(st', c) {
      HistoryPresent(cfg, st, a, c);
    } else if p :| p in st'.acceptors && InAcceptor(st'.acceptors[p], c) {
      AcceptorPresent(cfg, st, a, p, c);
    } else if s :| s in st'.scouts && InScout(st'.scouts[s], c) {
      ScoutPresent(cfg, st, a, s, c);
    } else {
      var l :| l in st'.learners && InLearner(st'.learners[l], c);
      LearnerPresent(cfg, st, a, l, c);
    }
  }

  /** -1 stands for "none" and no real number lies below it. */
  ghost predicate NumbersSane(st: State) {
    && (forall p | p in st.acceptors :: -1 <= st.acceptors[p].promised && -1 <= st.acceptors[p].accepted)
    && (forall s | s in st.scouts ::
          0 <= st.scouts[s].number && -1 <= st.scouts[s].highest && -1 <= st.scouts[s].best)
    && (forall q | q in st.proposals :: 0 <= q.number)
  }

  /** While a scout prepares, the order it handles is one it was handed. */
  ghost predicate Sane(acts: seq<Action>, st: State) {
    && NumbersSane(st)
    && (forall s | s in st.scouts && st.scouts[s].phase != Idle ::
          Begun(acts, s, st.scouts[s].request.customerId, st.scouts[s].request.orderId))
  }

  lemma NextSane(cfg: Config, acts: seq<Action>, st: State, a: Action)
    requires Shape(cfg, st) && Enabled(cfg, st, a) && Sane(acts, st)
    ensures Sane(acts + [a], Next(cfg, st, a))
  {
    NextNumbersSane(cfg, st, a);
    var st' := Next(cfg, st, a);
    forall s | s in st'.scouts && st'.scouts[s].phase != Idle
      ensures Begun(acts + [a], s, st'.scouts[s].request.customerId, st'.scouts[s].request.orderId)
    {
      NextRequest(cfg, st, a, s);
      if st.scouts[s].phase != Idle && st'.scouts[s].request == st.scouts[s].request {
        assert Begun(acts, s, st.scouts[s].request.customerId, st.scouts[s].request.orderId);
      } else {
        assert (acts + [a])[|acts|] == a;
      }
    }
  }

  lemma NextScoutSane(cfg: Config, st: State, a: Action, s: Id)
    requires Shape(cfg, st) && Enabled(cfg, st, a) && NumbersSane(st) && s in cfg.servers
    ensures var sc' := Next(cfg, st, a).scouts[s];
            0 <= sc'.number && -1 <= sc'.highest && -1 <= sc'.best
  {
  }

  lemma NextAcceptorSane(cfg: Config, st: State, a: Action, p: Id)
    requires Shape(cfg, st) && Enabled(cfg, st, a) && NumbersSane(st) && p in cfg.servers
    ensures -1 <= Next(cfg, st, a).acceptors[p].promised && -1 <= Next(cfg, st, a).acceptors[p].accepted
  {
  }

  lemma NextProposalsSane(cfg: Config, st: State, a: Action)
    requires Shape(cfg, st) && Enabled(cfg, st, a) && NumbersSane(st)
    ensures forall q | q in Next(cfg, st, a).proposals :: 0 <= q.number
  {
  }

  lemma NextNumbersSane(cfg: Config, st: State, a: Action)
    requires Shape(cfg, st) && Enabled(cfg, st, a) && NumbersSane(st)
    ensures NumbersSane(Next(cfg, st, a))
  {
    NextShape(cfg, st, a);
    NextProposalsSane(cfg, st, a);
    forall s | s in cfg.servers
      ensures var sc', p' := Next(cfg, st, a).scouts[s], Next(cfg, st, a).acceptors[s];
              && 0 <= sc'.number && -1 <= sc'.highest && -1 <= sc'.best
              && -1 <= p'.promised && -1 <= p'.accepted
    {
      NextScoutSane(cfg, st, a, s);
      NextAcceptorSane(cfg, st, a, s);
    }
  }

  lemma NextRequest(cfg: Config, st: State, a: Action, s: Id)
    requires Shape(cfg, st) && Enabled(cfg, st, a) && s in cfg.servers
    requires Next(cfg, st, a).scouts[s].phase != Idle
    ensures var r := Next(cfg, st, a).scouts[s].request;
            (st.scouts[s].phase != Idle && r == st.scouts[s].request) || a == BeginCall(s, r.customerId, r.orderId)
  {
  }

  lemma {:induction false} RunSane(cfg: Config, acts: seq<Action>)
    requires CanRun(cfg, acts)
    ensures Sane(acts, Run(cfg, acts))
  {
    if acts != [] {
      var init := acts[..|acts| - 1];
      RunSane(cfg, init);
      NextSane(cfg, init, Run(cfg, init), acts[|acts| - 1]);
      assert init + [acts[|acts| - 1]] == acts;
    }
  }

  /**
   Provenance, in every run: whatever command is proposed, accepted, reported
   to a scout, handed to the learners, stored or committed was built by one
   step of one scout for an order that scout had been given.
   */
  lemma {:induction false} PresentIsBuilt(cfg: Config, acts: seq<Action>, c: Command)
    requires CanRun(cfg, acts) && Present(Run(cfg, acts), c)
    ensures Built(cfg, acts, c)
  {
    if acts != [] {
      var init, a := acts[..|acts| - 1], acts[|acts| - 1];
      var st := Run(cfg, init);
      RunSane(cfg, init);
      NextPresent(cfg, st, a, c);
      if Present(st, c) {
        PresentIsBuilt(cfg, init, c);
        BuiltStays(cfg, acts, c);
      } else {
        assert acts[..|init|] == init;
        assert BuiltAt(cfg, acts, |init|, c);
      }
    }
  }

  /** A message some handler or loop can send in this state. */
  ghost predicate Sends(st: State, m: PaxosMsg) {
    || (exists s | s in st.scouts :: m == NewMsg(1).(proposeNumber := st.scouts[s].number))
    || (exists p, n | p in st.acceptors :: m == P1b(st.acceptors[p], n))
    || (exists s | s in st.scouts && st.scouts[s].phase == Accepting ::
          m == NewMsg(3).SetCommand(st.scouts[s].proposal).(proposeNumber := st.scouts[s].number))
    || (exists p, n | p in st.acceptors :: m == P2b(st.acceptors[p], n))
    || (exists c | c in st.learns :: m == NewMsg(5).SetCommand(c))
  }

  lemma BuiltCarriesDefaultIp(cfg: Config, acts: seq<Action>, c: Command)
    requires CanRun(cfg, acts) && Built(cfg, acts, c)
    ensures c.clientIp == DEFAULT_IP
  {
    var i: nat :| i < |acts| && BuiltAt(cfg, acts, i, c);
    assert Builds(Before(cfg, acts, i), acts[i], c);
  }

  lemma SentIsPresent(st: State, m: PaxosMsg)
    requires Sends(st, m) && m.clientIp != DEFAULT_IP
    ensures Present(st, m.GetCommand())
  {
    var c := m.GetCommand();
    if p, n :| p in st.acceptors && m == P1b(st.acceptors[p], n) {
      assert InAcceptor(st.acceptors[p], c);
    } else if s :| s in st.scouts && st.scouts[s].phase == Accepting &&
                   m == NewMsg(3).SetCommand(st.scouts[s].proposal).(proposeNumber := st.scouts[s].number) {
      assert c == st.scouts[s].proposal && InScout(st.scouts[s], c);
    } else if d :| d in st.learns && m == NewMsg(5).SetCommand(d) {
      assert c == d && InHistory(st, c);
    }
  }

  /** Every message of every run carries the default address, so every message has the default size. */
  lemma MessagesCarryDefaultIp(cfg: Config, acts: seq<Action>, m: PaxosMsg)
    requires CanRun(cfg, acts) && Sends(Run(cfg, acts), m)
    ensures m.clientIp == DEFAULT_IP
  {
    if m.clientIp != DEFAULT_IP {
      SentIsPresent(Run(cfg, acts), m);
      PresentIsBuilt(cfg, acts, m.GetCommand());
      BuiltCarriesDefaultIp(cfg, acts, m.GetCommand());
    }
  }

  lemma DefaultIpFits()
    ensures Bytes.Narrow(DEFAULT_IP) && Bytes.NulFree(DEFAULT_IP) && |DEFAULT_IP| == 15
  {
  }

  /** Message m was sent at some time of the run. */
  ghost predicate SentInRun(cfg: Config, acts: seq<Action>, m: PaxosMsg)
    requires CanRun(cfg, acts)
  {
    exists i: nat :: i <= |acts| && Sends(Before(cfg, acts, i), m)
  }

  lemma SentCarriesDefaultIp(cfg: Config, acts: seq<Action>, m: PaxosMsg)
    requires CanRun(cfg, acts) && SentInRun(cfg, acts, m)
    ensures m.clientIp == DEFAULT_IP
  {
    var i: nat :| i <= |acts| && Sends(Before(cfg, acts, i), m);
    PrefixRuns(cfg, acts, i);
    MessagesCarryDefaultIp(cfg, acts[..i], m);
  }

  /**
   Any messages sent at any times of a run, as long as their numbers fit a C
   int, come back unchanged through the fixed-size reads of the receiver.
   */
  lemma RunMessagesSurviveTheWire(cfg: Config, acts: seq<Action>, ms: seq<PaxosMsg>,
                                  more: seq<Bytes.byte>, rests: seq<seq<Bytes.byte>>)
    requires CanRun(cfg, acts) && forall m | m in ms :: SentInRun(cfg, acts, m) && Wire.IntsFit(m)
    requires |rests| == |ms| && Wire.Rests(rests)
    ensures forall m | m in ms :: Wire.Standard(m)
    ensures Wire.ReadMany(Wire.EncodeAll(ms) + more, rests) == Common.Some((ms, more))
  {
    forall m | m in ms ensures Wire.Standard(m) {
      SentCarriesDefaultIp(cfg, acts, m);
      DefaultIpFits();
    }
    Wire.StreamRoundTrip(ms, more, rests);
  }
}
