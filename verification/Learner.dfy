/**
 The learner: a buffer of decided commands, filled in any order, that feeds
 two append-only outputs in slot order.

 `printed` is what the learner commits (prints) for each slot; `file` is what
 it appends to the recovery file. The program prints the command stored for
 the slot but saves the command of the message that is being handled, and the
 model keeps that difference.
 */
module Learner {
  import opened Messages

  datatype Line = Line(key: int, cmd: Command)

  datatype LearnerState = LearnerState(
    decisions: map<int, Command>,
    slotOut: int,
    printed: seq<Command>,
    file: seq<Line>)

  const INIT := LearnerState(map[], 1, [], [])

  /** The first slot at or after k that holds no decision; what both slot counters run to. */
  function FirstFree(d: map<int, Command>, k: int): (r: int)
    ensures k <= r && r !in d
    ensures forall i :: k <= i < r ==> i in d
    decreases |set x | x in d && x >= k|
  {
    if k in d then
      assert (set x | x in d && x >= k) == (set x | x in d && x >= k + 1) + {k};
      FirstFree(d, k + 1)
    else k
  }

  /** The commands stored in slots lo..hi-1, in slot order. */
  function Committed(d: map<int, Command>, lo: int, hi: int): (r: seq<Command>)
    requires lo <= hi
    requires forall i :: lo <= i < hi ==> i in d
    ensures |r| == hi - lo
    ensures forall i :: lo <= i < hi ==> r[i - lo] == d[i]
  {
    seq(hi - lo, i requires 0 <= i < hi - lo => d[lo + i])
  }

  /** The lines one call appends for slots lo..hi-1 while handling command c. */
  function Saved(lo: int, hi: int, c: Command): (r: seq<Line>)
    requires lo <= hi
    ensures |r| == hi - lo
    ensures forall i :: lo <= i < hi ==> r[i - lo] == Line(i, c)
  {
    seq(hi - lo, i requires 0 <= i < hi - lo => Line(lo + i, c))
  }

  /** One learn message. */
  function LearnOne(l: LearnerState, c: Command): (r: LearnerState) {
    var d := l.decisions[c.slot := c];
    var k := FirstFree(d, l.slotOut);
    LearnerState(d, k,
                 l.printed + Committed(d, l.slotOut, k),
                 l.file + Saved(l.slotOut, k, c))
  }

  function LearnAll(ms: seq<Command>): LearnerState {
    if ms == [] then INIT
    else LearnOne(LearnAll(ms[..|ms| - 1]), ms[|ms| - 1])
  }

  // ---------- what every learner keeps ----------

  /**
   slotOut is the least slot from 1 on that holds no decision, every stored
   command carries the slot it is stored in, and both outputs hold exactly
   one entry for each of 1, 2, .., slotOut-1, in that order.
   */
  ghost predicate WellFormed(l: LearnerState) {
    && 1 <= l.slotOut && l.slotOut !in l.decisions
    && (forall k :: 1 <= k < l.slotOut ==> k in l.decisions)
    && (forall k | k in l.decisions :: l.decisions[k].slot == k)
    && |l.printed| == l.slotOut - 1
    && (forall i | 0 <= i < |l.printed| :: l.printed[i].slot == i + 1)
    && |l.file| == l.slotOut - 1
    && (forall i | 0 <= i < |l.file| :: l.file[i].key == i + 1)
  }

  lemma LearnKeepsWellFormed(l: LearnerState, c: Command)
    requires WellFormed(l)
    ensures WellFormed(LearnOne(l, c))
    ensures l.printed <= LearnOne(l, c).printed && l.file <= LearnOne(l, c).file
  {
    var r := LearnOne(l, c);
    forall i | 0 <= i < |r.printed| ensures r.printed[i].slot == i + 1 {
      if i >= |l.printed| {
        assert r.printed[i] == r.decisions[i + 1];
      }
    }
    forall i | 0 <= i < |r.file| ensures r.file[i].key == i + 1 {
      if i >= |l.file| {
        assert r.file[i] == Line(i + 1, c);
      }
    }
  }

  lemma {:induction false} LearnAllWellFormed(ms: seq<Command>)
    ensures WellFormed(LearnAll(ms))
  {
    if ms != [] {
      LearnAllWellFormed(ms[..|ms| - 1]);
      LearnKeepsWellFormed(LearnAll(ms[..|ms| - 1]), ms[|ms| - 1]);
    }
  }

  /** The drain loop is bounded by the number of stored slots at or above slotOut. */
  lemma {:induction false} DrainBound(d: map<int, Command>, k: int)
    ensures FirstFree(d, k) - k <= |set x | x in d && x >= k|
    decreases |set x | x in d && x >= k|
  {
    if k in d {
      assert (set x | x in d && x >= k) == (set x | x in d && x >= k + 1) + {k};
      DrainBound(d, k + 1);
    }
  }

  lemma {:induction false} FirstFreeUnique(d: map<int, Command>, k: int, r: int)
    requires k <= r && r !in d
    requires forall i :: k <= i < r ==> i in d
    ensures FirstFree(d, k) == r
  {
    var f := FirstFree(d, k);
    assert !(f < r) && !(r < f);
  }

  lemma LastStored(ms: seq<Command>, n: nat)
    requires |ms| == n + 1
    ensures LearnAll(ms).decisions == LearnAll(ms[..n]).decisions[ms[n].slot := ms[n]]
  {
  }

  /** The last message for a slot is the one that counts, whether or not earlier ones agreed with it. */
  lemma {:induction false} LastMessageCounts(ms: seq<Command>, i: nat)
    requires i < |ms| && forall j | i < j < |ms| :: ms[j].slot != ms[i].slot
    ensures ms[i].slot in LearnAll(ms).decisions && LearnAll(ms).decisions[ms[i].slot] == ms[i]
  {
    var n := |ms| - 1;
    LastStored(ms, n);
    if i < n {
      assert ms[..n][i] == ms[i];
      LastMessageCounts(ms[..n], i);
    }
  }

  /** A slot without a message stays empty. */
  lemma {:induction false} OnlyMessagesCount(ms: seq<Command>, k: int)
    requires forall i | 0 <= i < |ms| :: ms[i].slot != k
    ensures k !in LearnAll(ms).decisions
  {
    if ms != [] {
      var n := |ms| - 1;
      LastStored(ms, n);
      OnlyMessagesCount(ms[..n], k);
    }
  }

  // ---------- confluence ----------

  /** No two messages disagree about a slot. */
  ghost predicate Consistent(ms: seq<Command>) {
    forall c, d | c in ms && d in ms && c.slot == d.slot :: c == d
  }

  /** The buffer holds exactly the received commands, and committed what it holds. */
  ghost predicate Holds(l: LearnerState, ms: seq<Command>) {
    && (forall c | c in ms :: c.slot in l.decisions && l.decisions[c.slot] == c)
    && (forall k | k in l.decisions :: l.decisions[k] in ms)
    && (forall i | 0 <= i < |l.printed| :: i + 1 in l.decisions && l.printed[i] == l.decisions[i + 1])
  }

  lemma HoldsStep(l: LearnerState, ms: seq<Command>, c: Command)
    requires WellFormed(l) && Holds(l, ms)
    requires c.slot in l.decisions ==> l.decisions[c.slot] == c
    ensures Holds(LearnOne(l, c), ms + [c])
  {
    var r := LearnOne(l, c);
    forall i | 0 <= i < |r.printed| ensures i + 1 in r.decisions && r.printed[i] == r.decisions[i + 1] {
      if i < |l.printed| {
        assert r.printed[i] == l.printed[i];
      } else {
        assert r.printed[i] == r.decisions[i + 1];
      }
    }
    forall d | d in ms + [c] ensures d.slot in r.decisions && r.decisions[d.slot] == d {
      if d != c { assert d in ms; }
    }
    assert c in ms + [c];
  }

  /** A message agrees with what earlier, consistent messages stored. */
  lemma ConsistentNext(l: LearnerState, ms: seq<Command>, c: Command)
    requires WellFormed(l) && Holds(l, ms) && Consistent(ms + [c])
    ensures c.slot in l.decisions ==> l.decisions[c.slot] == c
    ensures Consistent(ms)
  {
    assert c in ms + [c];
    forall d | d in ms ensures d in ms + [c] { }
    if c.slot in l.decisions {
      assert l.decisions[c.slot] in ms + [c];
    }
  }

  lemma {:induction false} LearnAllHolds(ms: seq<Command>)
    requires Consistent(ms)
    ensures WellFormed(LearnAll(ms)) && Holds(LearnAll(ms), ms)
  {
    if ms != [] {
      var init, c := ms[..|ms| - 1], ms[|ms| - 1];
      assert init + [c] == ms;
      forall d | d in init ensures d in ms { }
      LearnAllHolds(init);
      ConsistentNext(LearnAll(init), init, c);
      LearnKeepsWellFormed(LearnAll(init), c);
      HoldsStep(LearnAll(init), init, c);
    }
  }

  /**
   Confluence: two servers that received the same commands, in any two orders
   and with any duplications, hold the same decisions, stand at the same slot
   and have committed the same log.
   */
  lemma Confluence(a: seq<Command>, b: seq<Command>)
    requires Consistent(a)
    requires forall c :: c in a <==> c in b
    ensures LearnAll(a).decisions == LearnAll(b).decisions
    ensures LearnAll(a).slotOut == LearnAll(b).slotOut
    ensures LearnAll(a).printed == LearnAll(b).printed
  {
    LearnAllHolds(a);
    LearnAllHolds(b);
    SameDecisions(LearnAll(a), a, LearnAll(b), b);
    SameLog(LearnAll(a), a, LearnAll(b), b);
  }

  lemma SameDecisions(x: LearnerState, a: seq<Command>, y: LearnerState, b: seq<Command>)
    requires WellFormed(x) && Holds(x, a) && WellFormed(y) && Holds(y, b)
    requires forall c :: c in a <==> c in b
    ensures x.decisions == y.decisions
  {
    Contained(x, a, y, b);
    Contained(y, b, x, a);
    SameMap(x.decisions, y.decisions);
  }

  lemma SameMap(d: map<int, Command>, e: map<int, Command>)
    requires forall k | k in d :: k in e && e[k] == d[k]
    requires forall k | k in e :: k in d
    ensures d == e
  {
    forall k | k in d ensures k in e && d[k] == e[k] { }
    forall k | k in e ensures k in d { }
  }

  lemma Contained(x: LearnerState, a: seq<Command>, y: LearnerState, b: seq<Command>)
    requires WellFormed(x) && Holds(x, a) && Holds(y, b)
    requires forall c | c in a :: c in b
    ensures forall k | k in x.decisions :: k in y.decisions && y.decisions[k] == x.decisions[k]
  {
    forall k | k in x.decisions ensures k in y.decisions && y.decisions[k] == x.decisions[k] {
      var c := x.decisions[k];
      assert c in b && c.slot == k;
    }
  }

  lemma SameLog(x: LearnerState, a: seq<Command>, y: LearnerState, b: seq<Command>)
    requires WellFormed(x) && Holds(x, a) && WellFormed(y) && Holds(y, b) && x.decisions == y.decisions
    ensures x.slotOut == y.slotOut && x.printed == y.printed
  {
    FirstFreeUnique(x.decisions, 1, x.slotOut);
    FirstFreeUnique(x.decisions, 1, y.slotOut);
  }

  // ---------- the recovery file, which saves the handled command ----------

  /** Every saved line carries the command stored for its slot. */
  ghost predicate FileFaithful(l: LearnerState) {
    forall i | 0 <= i < |l.file| :: i + 1 in l.decisions && l.file[i].cmd == l.decisions[i + 1]
  }

  /** The message fills the gap in front of an already stored command. */
  predicate FillsGap(l: LearnerState, c: Command) {
    c.slot == l.slotOut && l.slotOut + 1 in l.decisions
  }

  /** One call keeps the file faithful exactly when it does not fill a gap. */
  lemma FileFaithfulStep(l: LearnerState, c: Command)
    requires WellFormed(l) && FileFaithful(l)
    requires c.slot in l.decisions ==> l.decisions[c.slot] == c
    ensures FileFaithful(LearnOne(l, c)) <==> !FillsGap(l, c)
  {
    var r := LearnOne(l, c);
    LearnKeepsWellFormed(l, c);
    var n := |l.file|;
    if FillsGap(l, c) {
      assert l.slotOut in r.decisions && l.slotOut + 1 in r.decisions && r.slotOut > l.slotOut + 1;
      assert r.file[n + 1] == Line(l.slotOut + 1, c);
      assert r.decisions[n + 2].slot == n + 2;
    } else {
      assert l.slotOut !in r.decisions || l.slotOut + 1 !in r.decisions;
      assert r.slotOut <= l.slotOut + 1;
      forall i | 0 <= i < |r.file| ensures i + 1 in r.decisions && r.file[i].cmd == r.decisions[i + 1] {
        if i < n {
          assert r.file[i] == l.file[i];
        } else {
          assert r.file[i] == Line(i + 1, c);
          assert i + 1 == l.slotOut && l.slotOut in r.decisions;
        }
      }
    }
  }

  /** A line once wrong stays wrong: its slot is not the slot of the command in it. */
  lemma UnfaithfulStays(l: LearnerState, c: Command)
    requires WellFormed(l) && !FileFaithful(l)
    requires c.slot in l.decisions ==> l.decisions[c.slot] == c
    ensures !FileFaithful(LearnOne(l, c))
  {
    var r := LearnOne(l, c);
    var i :| 0 <= i < |l.file| && !(i + 1 in l.decisions && l.file[i].cmd == l.decisions[i + 1]);
    assert i + 1 in l.decisions;
    assert r.file[i] == l.file[i] && r.decisions[i + 1] == l.decisions[i + 1];
  }

  /**
   Over a whole history of consistent messages, the recovery file holds the
   decided commands if and only if no message ever filled a gap.
   */
  lemma {:induction false} FileFaithfulIff(ms: seq<Command>)
    requires Consistent(ms)
    ensures FileFaithful(LearnAll(ms)) <==>
            forall i | 0 <= i < |ms| :: !FillsGap(LearnAll(ms[..i]), ms[i])
  {
    if ms != [] {
      var n := |ms| - 1;
      var init, c := ms[..n], ms[n];
      assert init + [c] == ms;
      forall d | d in init ensures d in ms { }
      FileFaithfulIff(init);
      LearnAllHolds(init);
      var l := LearnAll(init);
      ConsistentNext(l, init, c);
      assert LearnAll(ms) == LearnOne(l, c);
      if FileFaithful(l) { FileFaithfulStep(l, c); } else { UnfaithfulStays(l, c); }
      PrefixesOf(ms, n);
    }
  }

  lemma PrefixesOf(ms: seq<Command>, n: nat)
    requires n <= |ms|
    ensures forall i | 0 <= i < n :: ms[..i] == ms[..n][..i] && ms[i] == ms[..n][i]
  {
  }

  lemma AfterTwo(c: Command, d: Command)
    ensures LearnAll([c, d]) == LearnOne(LearnOne(INIT, c), d)
  {
    assert [c, d][..1] == [c] && [c][..0] == [];
    assert LearnAll([c]) == LearnOne(INIT, c);
  }

  lemma InOrder(c1: Command, c2: Command)
    requires c1.slot == 1 && c2.slot == 2
    ensures LearnOne(LearnOne(INIT, c1), c2).file == [Line(1, c1), Line(2, c2)]
  {
    FirstFreeUnique(map[1 := c1], 1, 2);
    FirstFreeUnique(map[1 := c1, 2 := c2], 2, 3);
  }

  lemma Reordered(c1: Command, c2: Command)
    requires c1.slot == 1 && c2.slot == 2
    ensures LearnOne(LearnOne(INIT, c2), c1).file == [Line(1, c1), Line(2, c1)]
    ensures LearnOne(LearnOne(INIT, c2), c1).printed == [c1, c2]
  {
    FirstFreeUnique(map[2 := c2], 1, 1);
    FirstFreeUnique(map[2 := c2, 1 := c1], 1, 3);
  }

  /** Two messages in the wrong order are enough to save the wrong command. */
  lemma FileWrongAfterReorder(c1: Command, c2: Command)
    requires c1.slot == 1 && c2.slot == 2
    ensures LearnAll([c1, c2]).file == [Line(1, c1), Line(2, c2)]
    ensures LearnAll([c2, c1]).file == [Line(1, c1), Line(2, c1)]
    ensures LearnAll([c2, c1]).printed == [c1, c2]
  {
    AfterTwo(c1, c2);
    AfterTwo(c2, c1);
    InOrder(c1, c2);
    Reordered(c1, c2);
  }
}
