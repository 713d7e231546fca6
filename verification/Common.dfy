/** What several modules share: an option type, C ints, and the order of a std::map traversal. */
module Common {

  datatype Option<+T> = None | Some(value: T)

  predicate IsInt32(x: int) { -0x8000_0000 <= x < 0x8000_0000 }

  lemma Associative<T>(a: seq<T>, b: seq<T>, c: seq<T>)
    ensures (a + b) + c == a + (b + c)
  {
  }

  /**
   Always true. A statement that is written under `Open` is unfolded by the
   solver only where a proof mentions `Open`.
   */
  predicate Open(b: bool) { true }

  /** The same with one key for each kind of statement, so that opening one kind leaves the others closed. */
  datatype Kind = Runs | Steps | Sweeps | Asks | Calms | Mates | Drops

  predicate Opens(k: Kind, b: bool) { true }

  // ---------- traversing a std::map: ascending keys ----------

  lemma AnyOf<T>(s: set<T>) returns (x: T)
    requires s != {}
    ensures x in s
  {
    x :| x in s;
  }

  ghost predicate IsLeast(k: int, s: set<int>) {
    k in s && forall q | q in s :: k <= q
  }

  lemma {:induction false} HasLeast(s: set<int>)
    requires s != {}
    ensures exists k :: IsLeast(k, s)
  {
    var x := AnyOf(s);
    if s == {x} {
      assert IsLeast(x, s);
    } else {
      HasLeast(s - {x});
      var y :| IsLeast(y, s - {x});
      var least := if x < y then x else y;
      forall q | q in s ensures least <= q {
        assert q == x || q in s - {x};
      }
      assert IsLeast(least, s);
    }
  }

  ghost function Least(s: set<int>): (k: int)
    requires s != {}
    ensures k in s && forall q | q in s :: k <= q
  {
    HasLeast(s);
    var k :| IsLeast(k, s);
    k
  }

  /** The key a traversal of these keys visits first. */
  method First(s: set<int>) returns (k: int)
    requires s != {}
    ensures k == Least(s) && k in s
  {
    ghost var least := Least(s);
    k :| k in s && forall q | q in s :: k <= q;
  }
}
