/**
 Which runs the program's connections allow. The protocol's steps let messages
 be lost and handled more freely than sockets do; a run conforms when it also
 keeps to the discipline of the connections:

 - a stub whose reply could not be read is closed and never used again;
 - a pass goes through the stubs in key order, and through all that are usable;
 - an accept message is handled once, with its reply or after its reply was lost;
 - one commander's learn messages reach one learner in the order they were sent.
 */
module Connections {
  import opened Messages
  import opened Learner
  import opened Protocol
  import opened AcceptCount

  datatype Link = Link(scout: Id, peer: Id)

  datatype Receipt = Receipt(learner: Id, cmd: Command)

  /** Closed connections, learn messages sent by each commander, and learn messages handled. */
  datatype Wires = Wires(closed: set<Link>, sent: map<Id, seq<Command>>, handled: set<Receipt>)

  const NO_WIRES := Wires({}, map[], {})

  function SentBy(w: Wires, s: Id): seq<Command> {
    if s in w.sent then w.sent[s] else []
  }

  function NextWires(cfg: Config, st: State, w: Wires, a: Action): Wires
    requires Shape(cfg, st) && Enabled(cfg, st, a)
  {
    match a
    case PrepareLost(s, p) => w.(closed := w.closed + {Link(s, p)})
    case AcceptLost(s, p) => w.(closed := w.closed + {Link(s, p)})
    case EndAccept(s) =>
      var sc := st.scouts[s];
      if AcceptResult(cfg, sc.active, |sc.accepts|) == 1
      then w.(sent := w.sent[s := SentBy(w, s) + [sc.proposal]]) else w
    case Deliver(l, c) => w.(handled := w.handled + {Receipt(l, c)})
    case _ => w
  }

  /** The stub of p is next in scout s's pass. */
  predicate NextStub(cfg: Config, sc: Scout, w: Wires, s: Id, p: Id) {
    Link(s, p) !in w.closed && forall q | q in cfg.servers && q < p && Link(s, q) !in w.closed :: q in sc.visited
  }

  predicate PassDone(cfg: Config, sc: Scout, w: Wires, s: Id) {
    forall q | q in cfg.servers && Link(s, q) !in w.closed :: q in sc.visited
  }

  /** Commander s sent c to learner l, which has handled everything s sent before. */
  ghost predicate NextFrom(w: Wires, s: Id, l: Id, c: Command) {
    exists k :: 0 <= k < |SentBy(w, s)| && SentBy(w, s)[k] == c &&
                forall j | 0 <= j < k :: Receipt(l, SentBy(w, s)[j]) in w.handled
  }

  ghost predicate Allowed(cfg: Config, st: State, w: Wires, a: Action)
    requires Shape(cfg, st) && Enabled(cfg, st, a)
  {
    match a
    case BeginCall(_, _, _) => true
    case PrepareReply(s, p) => NextStub(cfg, st.scouts[s], w, s, p)
    case PrepareLost(s, p) => NextStub(cfg, st.scouts[s], w, s, p)
    case AcceptReply(s, p) => NextStub(cfg, st.scouts[s], w, s, p)
    case AcceptLost(s, p) => NextStub(cfg, st.scouts[s], w, s, p)
    case Abandon(s) => PassDone(cfg, st.scouts[s], w, s)
    case Retry(s) => PassDone(cfg, st.scouts[s], w, s)
    case Decide(s, _) => PassDone(cfg, st.scouts[s], w, s)
    case EndAccept(s) => PassDone(cfg, st.scouts[s], w, s)
    case StrayPrepare(_, _) => false
    case StrayAccept(p, n, c) => Vote(p, n, c) in st.lost && Vote(p, n, c) !in st.votes
    case Deliver(l, c) => exists s :: s in cfg.servers && NextFrom(w, s, l, c)
  }

  function WiresOf(cfg: Config, acts: seq<Action>): Wires
    requires CanRun(cfg, acts)
  {
    if acts == [] then NO_WIRES
    else
      var init := acts[..|acts| - 1];
      NextWires(cfg, Run(cfg, init), WiresOf(cfg, init), acts[|acts| - 1])
  }

  ghost predicate Conforms(cfg: Config, acts: seq<Action>)
    requires CanRun(cfg, acts)
  {
    if acts == [] then true
    else
      var init := acts[..|acts| - 1];
      Conforms(cfg, init) && Allowed(cfg, Run(cfg, init), WiresOf(cfg, init), acts[|acts| - 1])
  }

  /** The connections see to it that an accept message is handled once. */
  lemma {:induction false} ConformingHandledOnce(cfg: Config, acts: seq<Action>)
    requires CanRun(cfg, acts) && Conforms(cfg, acts)
    ensures HandledOnce(cfg, acts)
  {
    if acts != [] {
      var init := acts[..|acts| - 1];
      ConformingHandledOnce(cfg, init);
      AllowedOnce(cfg, Run(cfg, init), WiresOf(cfg, init), acts[|acts| - 1]);
    }
  }

  lemma AllowedOnce(cfg: Config, st: State, w: Wires, a: Action)
    requires Shape(cfg, st) && Enabled(cfg, st, a) && Allowed(cfg, st, w, a)
    ensures a.StrayAccept? ==> Vote(a.p, a.n, a.c) in st.lost
  {
  }
}
