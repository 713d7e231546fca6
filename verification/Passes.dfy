/**
 The environment of one server's loops, and what a pass over a map of stubs
 does: every stub is sent to in key order, and a stub is dropped exactly when
 its send failed.
 */
module Passes {
  import opened Common
  import opened Messages
  import opened Protocol

  /** What becomes of a message: not sent, handled perhaps but its reply not read, or answered. */
  datatype Fate = Unsent | ReplyLost | Answered

  /**
   What the environment will do, whatever that is: which connections succeed
   (identity 2: acceptor, 3: learner), the fate of each message of each pass,
   and the steps that others take at each moment.
   */
  datatype Env = Env(
    connects: (int, Id) -> bool,
    fate: (nat, Id) -> Fate,
    others: nat -> seq<Action>)

  /** A message handed to a connection. */
  datatype Sent = Sent(peer: Id, msg: PaxosMsg)

  /** The stubs whose send in pass k succeeds. */
  function Kept(env: Env, k: nat, stubs: set<Id>): (r: set<Id>)
    ensures r <= stubs
  {
    set p | p in stubs && env.fate(k, p) != Unsent
  }

  /** The stubs whose sends succeed in all of the passes k0 .. k1 - 1. */
  ghost function KeptOver(env: Env, k0: nat, k1: nat, stubs: set<Id>): set<Id> {
    set p | p in stubs && forall k | k0 <= k < k1 :: env.fate(k, p) != Unsent
  }

  lemma KeptOverNone(env: Env, k0: nat, stubs: set<Id>)
    ensures KeptOver(env, k0, k0, stubs) == stubs
  {
  }

  lemma KeptOverMore(env: Env, k0: nat, k1: nat, stubs: set<Id>)
    requires k0 <= k1
    ensures Kept(env, k1, KeptOver(env, k0, k1, stubs)) == KeptOver(env, k0, k1 + 1, stubs)
  {
  }

  lemma KeptOverCompose(env: Env, k0: nat, k1: nat, k2: nat, stubs: set<Id>, mid: set<Id>, last: set<Id>)
    requires k0 <= k1 <= k2
    requires KeptOver(env, k0, k1, stubs) <= mid && KeptOver(env, k1, k2, mid) <= last
    ensures KeptOver(env, k0, k2, stubs) <= last
  {
    forall p | p in KeptOver(env, k0, k2, stubs) ensures p in last {
      assert p in KeptOver(env, k0, k1, stubs) && p in KeptOver(env, k1, k2, mid);
    }
  }

  /** One message to each of ps, in key order. */
  ghost function ToAll(ps: set<Id>, m: PaxosMsg): seq<Sent> {
    if ps == {} then [] else [Sent(Least(ps), m)] + ToAll(ps - {Least(ps)}, m)
  }

  /** A pass: the k-th, over all these stubs, with message msg, when `was` had been sent before. */
  datatype Sweep = Sweep(env: Env, k: nat, all: set<Id>, msg: PaxosMsg, was: seq<Sent>)

  /**
   Part of the way through a pass: the stubs in rest are still to come, those
   before them were sent to (visited) or dropped. Unfolded only where a proof opens it.
   */
  ghost predicate Swept(s: Sweep, rest: set<Id>, visited: set<Id>, stubs: set<Id>, outbox: seq<Sent>) {
    forall b :: Opens(Sweeps, b) ==>
      && rest <= s.all && visited == Kept(s.env, s.k, s.all - rest) && stubs == visited + rest
      && outbox + ToAll(Kept(s.env, s.k, rest), s.msg) == s.was + ToAll(Kept(s.env, s.k, s.all), s.msg)
  }

  lemma SweepBegins(s: Sweep)
    ensures Swept(s, s.all, {}, s.all, s.was)
  {
    assert Kept(s.env, s.k, s.all - s.all) == {};
  }

  lemma SweepNext(s: Sweep, rest: set<Id>, visited: set<Id>, stubs: set<Id>, outbox: seq<Sent>, p: Id)
    requires Swept(s, rest, visited, stubs, outbox) && p in rest
    ensures p in stubs && p !in visited && p in s.all
  {
    assert Opens(Sweeps, true);
  }

  lemma KeptRest(env: Env, k: nat, rest: set<Id>, m: PaxosMsg)
    requires rest != {}
    ensures var p := Least(rest);
            ToAll(Kept(env, k, rest), m) ==
              (if env.fate(k, p) != Unsent then [Sent(p, m)] else []) + ToAll(Kept(env, k, rest - {p}), m)
  {
    var p := Least(rest);
    var kept := Kept(env, k, rest);
    if env.fate(k, p) != Unsent {
      assert p in kept && Least(kept) == p;
      assert kept - {p} == Kept(env, k, rest - {p});
    } else {
      assert kept == Kept(env, k, rest - {p});
    }
  }

  lemma SweepSent(s: Sweep, rest: set<Id>, visited: set<Id>, stubs: set<Id>, outbox: seq<Sent>)
    requires Swept(s, rest, visited, stubs, outbox) && rest != {} && s.env.fate(s.k, Least(rest)) != Unsent
    ensures var p := Least(rest);
            && Swept(s, rest - {p}, visited + {p}, stubs, outbox + [Sent(p, s.msg)])
            && |visited + {p}| == |visited| + 1
  {
    assert Opens(Sweeps, true);
    var p := Least(rest);
    KeptRest(s.env, s.k, rest, s.msg);
    assert visited + {p} == Kept(s.env, s.k, s.all - (rest - {p}));
    assert stubs == (visited + {p}) + (rest - {p});
    Associative(outbox, [Sent(p, s.msg)], ToAll(Kept(s.env, s.k, rest - {p}), s.msg));
  }

  lemma SweepFailed(s: Sweep, rest: set<Id>, visited: set<Id>, stubs: set<Id>, outbox: seq<Sent>)
    requires Swept(s, rest, visited, stubs, outbox) && rest != {} && s.env.fate(s.k, Least(rest)) == Unsent
    ensures var p := Least(rest);
            Swept(s, rest - {p}, visited, stubs - {p}, outbox)
  {
    assert Opens(Sweeps, true);
    var p := Least(rest);
    KeptRest(s.env, s.k, rest, s.msg);
    assert visited == Kept(s.env, s.k, s.all - (rest - {p}));
    assert stubs - {p} == visited + (rest - {p});
    assert [] + ToAll(Kept(s.env, s.k, rest - {p}), s.msg) == ToAll(Kept(s.env, s.k, rest - {p}), s.msg);
  }

  lemma SweepEnds(s: Sweep, visited: set<Id>, stubs: set<Id>, outbox: seq<Sent>)
    requires Swept(s, {}, visited, stubs, outbox)
    ensures visited == stubs == Kept(s.env, s.k, s.all)
    ensures outbox == s.was + ToAll(Kept(s.env, s.k, s.all), s.msg)
  {
    assert Opens(Sweeps, true);
    assert s.all - {} == s.all;
    assert outbox + [] == outbox;
  }

  /** A pass reaches each peer at most once, and exactly those whose send succeeds. */
  lemma {:induction false} ToAllReaches(ps: set<Id>, m: PaxosMsg)
    ensures |ToAll(ps, m)| == |ps|
    ensures forall p :: p in ps <==> Sent(p, m) in ToAll(ps, m)
    ensures forall x | x in ToAll(ps, m) :: x.msg == m
  {
    if ps != {} {
      var k := Least(ps);
      ToAllReaches(ps - {k}, m);
      forall p ensures p in ps <==> Sent(p, m) in ToAll(ps, m) {
        assert p in ps <==> p == k || p in ps - {k};
      }
    }
  }

  // ---------- the steps taken in a pass ----------

  /** The step that a message of this fate stands for, once it is sent. */
  function StepFor(accept: bool, fate: Fate, s: Id, p: Id): Action {
    if accept then (if fate == Answered then AcceptReply(s, p) else AcceptLost(s, p))
    else if fate == Answered then PrepareReply(s, p) else PrepareLost(s, p)
  }

  /** From position n0 on, the run has the step of each visited peer. Unfolded only where a proof opens it. */
  ghost predicate Asked(accept: bool, env: Env, k: nat, s: Id, visited: set<Id>, acts: seq<Action>, n0: nat) {
    forall b :: Opens(Asks, b) ==>
      && n0 <= |acts|
      && forall p | p in visited :: StepFor(accept, env.fate(k, p), s, p) in acts[n0..]
  }

  lemma AskedBegins(accept: bool, env: Env, k: nat, s: Id, acts: seq<Action>)
    ensures Asked(accept, env, k, s, {}, acts, |acts|)
  {
  }

  lemma AskedMore(accept: bool, env: Env, k: nat, s: Id, visited: set<Id>, acts: seq<Action>, n0: nat, later: seq<Action>)
    requires Asked(accept, env, k, s, visited, acts, n0) && acts <= later
    ensures Asked(accept, env, k, s, visited, later, n0)
  {
    assert Opens(Asks, true);
    forall p | p in visited ensures StepFor(accept, env.fate(k, p), s, p) in later[n0..] {
      var a := StepFor(accept, env.fate(k, p), s, p);
      var i :| 0 <= i < |acts[n0..]| && acts[n0..][i] == a;
      assert later[n0..][i] == a;
    }
  }

  lemma AskedNext(accept: bool, env: Env, k: nat, s: Id, visited: set<Id>, acts: seq<Action>, n0: nat,
                  p: Id, mid: seq<Action>)
    requires Asked(accept, env, k, s, visited, acts, n0) && acts <= mid
    ensures Asked(accept, env, k, s, visited + {p}, mid + [StepFor(accept, env.fate(k, p), s, p)], n0)
  {
    var a := StepFor(accept, env.fate(k, p), s, p);
    var later := mid + [a];
    AskedMore(accept, env, k, s, visited, acts, n0, later);
    assert Opens(Asks, true);
    assert later[n0..][|mid| - n0] == a;
  }

  lemma AskedMeans(accept: bool, env: Env, k: nat, s: Id, visited: set<Id>, acts: seq<Action>, n0: nat)
    requires Asked(accept, env, k, s, visited, acts, n0)
    ensures n0 <= |acts| && forall p | p in visited :: StepFor(accept, env.fate(k, p), s, p) in acts[n0..]
  {
    assert Opens(Asks, true);
  }

  // ---------- a settled environment ----------

  /**
   From pass k0 and moment t0 on, each peer is up for good or down for good,
   no reply is lost, and nobody else moves.
   */
  ghost predicate Settled(env: Env, k0: nat, t0: nat) {
    && (forall k: nat, p | k >= k0 :: env.fate(k, p) == env.fate(k0, p) != ReplyLost)
    && (forall t: nat | t >= t0 :: env.others(t) == [])
  }

  lemma SettledLater(env: Env, k0: nat, t0: nat, k: nat, t: nat)
    requires Settled(env, k0, t0) && k0 <= k && t0 <= t
    ensures Settled(env, k, t)
  {
  }

  /** Stubs that survived one pass survive the next. */
  lemma KeptAgain(env: Env, k0: nat, t0: nat, k: nat, stubs: set<Id>)
    requires Settled(env, k0, t0) && k0 <= k
    ensures Kept(env, k, Kept(env, k0, stubs)) == Kept(env, k0, stubs)
  {
    forall p | p in Kept(env, k0, stubs) ensures p in Kept(env, k, Kept(env, k0, stubs)) {
      assert env.fate(k, p) == env.fate(k0, p);
    }
  }
}
