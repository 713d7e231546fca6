/**
 The recovery file at character level: the printer that appends one line per
 committed slot, and the parser that reads the file back with formatted
 extraction (leading blanks skipped, signed decimals read greedily and
 rejected when they do not fit an int, words read up to the next blank).
 */
module LogFile {
  import opened Common
  import opened Messages
  import opened Learner

  // ---------- printing ----------

  function Digit(d: int): char
    requires 0 <= d < 10
  {
    ('0' as int + d) as char
  }

  function Digits(n: nat): (r: string)
    ensures r != [] && forall c | c in r :: '0' <= c <= '9'
  {
    if n < 10 then [Digit(n)] else Digits(n / 10) + [Digit(n % 10)]
  }

  function Decimal(x: int): string {
    if x < 0 then "-" + Digits(-x) else Digits(x)
  }

  /** One blank, one field, and what follows it. */
  function Field(text: string, after: string): string {
    " " + text + after
  }

  /** One call of saveCommandToFile. */
  function LineText(l: Line): string {
    Decimal(l.key) + Field(Decimal(l.cmd.slot), Field(Decimal(l.cmd.commandId), Field(l.cmd.clientIp,
      Field(Decimal(l.cmd.customerId), Field(Decimal(l.cmd.orderId), "\n")))))
  }

  function FileText(ls: seq<Line>): string {
    if ls == [] then [] else LineText(ls[0]) + FileText(ls[1..])
  }

  lemma {:induction false} FileTextAppend(ls: seq<Line>, l: Line)
    ensures FileText(ls + [l]) == FileText(ls) + LineText(l)
  {
    if ls == [] {
      assert ls + [l] == [l];
      assert [l][1..] == [];
      assert FileText([]) == [];
    } else {
      FileTextAppend(ls[1..], l);
      assert (ls + [l])[1..] == ls[1..] + [l];
      Associative(LineText(ls[0]), FileText(ls[1..]), LineText(l));
    }
  }

  /** The file as saveCommandToFile leaves it: opened in append mode, one line a call. */
  class RecoveryFile {
    var text: string
    ghost var lines: seq<Line>

    ghost predicate Valid()
      reads this
    {
      text == FileText(lines)
    }

    constructor ()
      ensures Valid() && lines == []
    {
      text, lines := "", [];
    }

    method SaveCommandToFile(slot: int, command: Command)
      requires Valid()
      modifies this
      ensures Valid() && lines == old(lines) + [Line(slot, command)]
      ensures text == old(text) + LineText(Line(slot, command))
    {
      FileTextAppend(lines, Line(slot, command));
      text := text + LineText(Line(slot, command));
      lines := lines + [Line(slot, command)];
    }
  }

  // ---------- parsing ----------

  predicate IsBlank(c: char) {
    c == ' ' || ('\t' <= c <= '\r')
  }

  predicate IsDigit(c: char) { '0' <= c <= '9' }

  function SkipBlanks(s: string): (r: string)
    ensures |r| <= |s|
  {
    if s != [] && IsBlank(s[0]) then SkipBlanks(s[1..]) else s
  }

  /** The longest run of digits at the front. */
  function DigitRun(s: string): (n: nat)
    ensures n <= |s| && forall i | 0 <= i < n :: IsDigit(s[i])
  {
    if s != [] && IsDigit(s[0]) then 1 + DigitRun(s[1..]) else 0
  }

  /** The longest run of non-blanks at the front. */
  function WordRun(s: string): (n: nat)
    ensures n <= |s|
  {
    if s != [] && !IsBlank(s[0]) then 1 + WordRun(s[1..]) else 0
  }

  function DigitValue(c: char): nat
    requires IsDigit(c)
  {
    c as int - '0' as int
  }

  function ValueOf(ds: string): nat
    requires forall c | c in ds :: IsDigit(c)
  {
    if ds == [] then 0
    else
      var last := ds[|ds| - 1];
      assert last in ds;
      10 * ValueOf(ds[..|ds| - 1]) + DigitValue(last)
  }

  /** file >> n, for an int n. */
  function ReadInt(s: string): (r: Option<(int, string)>)
    ensures r.Some? ==> |r.value.1| < |s|
  {
    var t := SkipBlanks(s);
    var signed := t != [] && (t[0] == '-' || t[0] == '+');
    var u := if signed then t[1..] else t;
    var n := DigitRun(u);
    if n == 0 then None
    else
      var v: int := ValueOf(u[..n]);
      var x := if signed && t[0] == '-' then -v else v;
      if IsInt32(x) then Some((x, u[n..])) else None
  }

  /** file >> w, for a string w. */
  function ReadWord(s: string): (r: Option<(string, string)>)
    ensures r.Some? ==> |r.value.1| < |s|
  {
    var t := SkipBlanks(s);
    var n := WordRun(t);
    if n == 0 then None else Some((t[..n], t[n..]))
  }

  /** The whole chain of extractions of one loop iteration. */
  function ReadRecord(s: string): (r: Option<(Line, string)>)
    ensures r.Some? ==> |r.value.1| < |s|
  {
    match ReadInt(s)
    case None => None
    case Some((key, s1)) =>
    match ReadInt(s1)
    case None => None
    case Some((slot, s2)) =>
    match ReadInt(s2)
    case None => None
    case Some((id, s3)) =>
    match ReadWord(s3)
    case None => None
    case Some((ip, s4)) =>
    match ReadInt(s4)
    case None => None
    case Some((customer, s5)) =>
    match ReadInt(s5)
    case None => None
    case Some((order, s6)) => Some((Line(key, Command(slot, id, ip, customer, order)), s6))
  }

  /** The records the loop reads before the first extraction that fails. */
  function Records(s: string): seq<Line>
    decreases |s|
  {
    match ReadRecord(s)
    case None => []
    case Some((l, rest)) => [l] + Records(rest)
  }

  /** The map those records fill, later records overwriting earlier ones. */
  function MapOf(ls: seq<Line>): map<int, Command> {
    if ls == [] then map[] else MapOf(ls[..|ls| - 1])[ls[|ls| - 1].key := ls[|ls| - 1].cmd]
  }

  lemma MapOfAppend(done: seq<Line>, l: Line)
    ensures MapOf(done + [l]) == MapOf(done)[l.key := l.cmd]
  {
    assert (done + [l])[..|done|] == done;
  }

  /** What the loop has read, followed by what it will read. */
  ghost predicate ReadSoFar(text: string, done: seq<Line>, rest: string) {
    done + Records(rest) == Records(text)
  }

  lemma ReadStep(text: string, done: seq<Line>, rest: string)
    requires ReadSoFar(text, done, rest)
    ensures match ReadRecord(rest)
            case None => done == Records(text)
            case Some((l, more)) => ReadSoFar(text, done + [l], more)
  {
    match ReadRecord(rest)
    case None => assert Records(rest) == [];
    case Some((l, more)) =>
      assert Records(rest) == [l] + Records(more);
      assert done + ([l] + Records(more)) == (done + [l]) + Records(more);
  }

  method LoadMapFromFile(text: string) returns (decisionMap: map<int, Command>)
    ensures decisionMap == MapOf(Records(text))
  {
    decisionMap := map[];
    var rest := text;
    ghost var done: seq<Line> := [];
    while true
      invariant decisionMap == MapOf(done)
      invariant ReadSoFar(text, done, rest)
      decreases |rest|
    {
      ReadStep(text, done, rest);
      var r := ReadRecord(rest);
      if r.None? {
        return;
      }
      decisionMap := decisionMap[r.value.0.key := r.value.0.cmd];
      MapOfAppend(done, r.value.0);
      done := done + [r.value.0];
      rest := r.value.1;
    }
  }

  // ---------- round trip ----------

  /** What the printer needs for the parser to find the same fields again. */
  predicate Printable(l: Line) {
    && IsInt32(l.key) && IsInt32(l.cmd.slot) && IsInt32(l.cmd.commandId)
    && IsInt32(l.cmd.customerId) && IsInt32(l.cmd.orderId)
    && l.cmd.clientIp != [] && (forall c | c in l.cmd.clientIp :: !IsBlank(c))
  }

  lemma {:induction false} DigitsValue(n: nat)
    ensures ValueOf(Digits(n)) == n
  {
    if n < 10 {
      assert [Digit(n)][..0] == [];
      assert ValueOf([]) == 0;
    } else {
      DigitsValue(n / 10);
      var ds := Digits(n / 10) + [Digit(n % 10)];
      assert ds[..|ds| - 1] == Digits(n / 10);
    }
  }

  lemma {:induction false} DigitRunStops(ds: string, rest: string)
    requires forall c | c in ds :: IsDigit(c)
    requires rest == [] || !IsDigit(rest[0])
    ensures DigitRun(ds + rest) == |ds|
  {
    if ds == [] {
      assert ds + rest == rest;
    } else {
      assert (ds + rest)[1..] == ds[1..] + rest;
      DigitRunStops(ds[1..], rest);
    }
  }

  lemma {:induction false} WordRunStops(w: string, rest: string)
    requires forall c | c in w :: !IsBlank(c)
    requires rest == [] || IsBlank(rest[0])
    ensures WordRun(w + rest) == |w|
  {
    if w == [] {
      assert w + rest == rest;
    } else {
      assert (w + rest)[1..] == w[1..] + rest;
      WordRunStops(w[1..], rest);
    }
  }

  // ---------- what the numerals are ----------

  const DIGITS := "0123456789"

  lemma DigitIs(d: int)
    requires 0 <= d < 10
    ensures Digit(d) == DIGITS[d] && DigitValue(DIGITS[d]) == d
  {
  }

  function Pow10(n: nat): nat { if n == 0 then 1 else 10 * Pow10(n - 1) }

  predicate AllDigits(s: string) { forall i | 0 <= i < |s| :: IsDigit(s[i]) }

  lemma ValueSnoc(s: string, n: nat)
    requires |s| == n + 1 && AllDigits(s)
    ensures (forall c | c in s :: IsDigit(c)) && (forall c | c in s[..n] :: IsDigit(c))
    ensures ValueOf(s) == 10 * ValueOf(s[..n]) + DigitValue(s[n])
  {
  }

  lemma Shift(x: int, p: int, y: int, d: int)
    ensures 10 * (x * p + y) + d == x * (10 * p) + (10 * y + d)
  {
  }

  /** The value of a run of digits is positional: each digit counts ten times what the one after it does. */
  lemma {:induction false} ValueIsPositional(a: string, b: string)
    requires AllDigits(a) && AllDigits(b)
    ensures AllDigits(a + b)
    ensures ValueOf(a + b) == ValueOf(a) * Pow10(|b|) + ValueOf(b)
    decreases |b|
  {
    if b == [] {
      assert a + b == a;
    } else {
      var n := |b| - 1;
      assert (a + b)[..|a| + n] == a + b[..n] && (a + b)[|a| + n] == b[n];
      ValueIsPositional(a, b[..n]);
      ValueSnoc(a + b, |a| + n);
      ValueSnoc(b, n);
      Shift(ValueOf(a), Pow10(n), ValueOf(b[..n]), DigitValue(b[n]));
    }
  }

  /** No leading zeros, and a sign for negative numbers only. */
  lemma {:induction false} DecimalCanonical(n: nat)
    ensures Digits(n)[0] == '0' <==> n == 0
    ensures Decimal(n) == Digits(n) && (n > 0 ==> var x: int := n; Decimal(-x) == "-" + Digits(n))
  {
    if n >= 10 { DecimalCanonical(n / 10); }
  }

  lemma OneDigit(d: int)
    requires 0 < d < 10
    ensures Decimal(d) == [DIGITS[d]] && Decimal(-d) == ['-', DIGITS[d]]
  {
  }

  /** One line, written out. */
  lemma LineExample()
    ensures LineText(Line(3, Command(4, -5, "ip", 6, 7))) == "3 4 -5 ip 6 7\n"
  {
    OneDigit(3);
    OneDigit(4);
    OneDigit(5);
    OneDigit(6);
    OneDigit(7);
  }

  // ---------- reading numbers that were not printed by the program ----------

  lemma {:induction false} SkipAllBlanks(g: string, s: string)
    requires (forall c | c in g :: IsBlank(c)) && (s == [] || !IsBlank(s[0]))
    ensures SkipBlanks(g + s) == s
  {
    if g == [] {
      assert g + s == s;
    } else {
      assert (g + s)[1..] == g[1..] + s;
      SkipAllBlanks(g[1..], s);
    }
  }

  /**
   file >> n after any blanks, with an optional sign and any digits, leading
   zeros included: the number if it fits an int, a failure if not, and reading
   stops right after the digits.
   */
  lemma ReadIntAccepts(g: string, sign: string, ds: string, rest: string)
    requires (forall c | c in g :: IsBlank(c)) && sign in {"", "+", "-"}
    requires ds != [] && (forall c | c in ds :: IsDigit(c)) && (rest == [] || !IsDigit(rest[0]))
    ensures var v: int := ValueOf(ds);
            var x := if sign == "-" then -v else v;
            ReadInt(g + (sign + (ds + rest))) == if IsInt32(x) then Some((x, rest)) else None
  {
    SignedRun(sign, ds, rest);
    SkipAllBlanks(g, sign + (ds + rest));
    DigitRunStops(ds, rest);
    ReadRun(g + (sign + (ds + rest)), sign + (ds + rest), sign, ds, rest);
  }

  lemma ReadRun(all: string, t: string, sign: string, ds: string, rest: string)
    requires SkipBlanks(all) == t && sign in {"", "+", "-"} && (forall c | c in ds :: IsDigit(c))
    requires ds != [] && DigitRun(ds + rest) == |ds| && (ds + rest)[..|ds|] == ds && (ds + rest)[|ds|..] == rest
    requires t != [] && if sign == "" then t == ds + rest && t[0] != '+' && t[0] != '-'
                        else t[0] == sign[0] && t[1..] == ds + rest
    ensures var v: int := ValueOf(ds);
            var x := if sign == "-" then -v else v;
            ReadInt(all) == if IsInt32(x) then Some((x, rest)) else None
  {
  }

  lemma SignedRun(sign: string, ds: string, rest: string)
    requires sign in {"", "+", "-"} && ds != [] && (forall c | c in ds :: IsDigit(c))
    ensures var t := sign + (ds + rest);
            && t != [] && !IsBlank(t[0])
            && (if sign == "" then t == ds + rest && t[0] != '+' && t[0] != '-'
                else t[0] == sign[0] && t[1..] == ds + rest)
            && (ds + rest)[..|ds|] == ds && (ds + rest)[|ds|..] == rest
  {
    assert ds[0] in ds;
  }

  /** Without a digit after the blanks and the sign, reading fails. */
  lemma ReadIntRefuses(g: string, sign: string, rest: string)
    requires (forall c | c in g :: IsBlank(c)) && sign in {"", "+", "-"}
    requires rest == [] || (!IsDigit(rest[0]) && !IsBlank(rest[0]) && rest[0] != '+' && rest[0] != '-')
    ensures ReadInt(g + (sign + rest)) == None
  {
    var t := sign + rest;
    SkipAllBlanks(g, t);
    assert sign != "" ==> t[1..] == rest;
    assert sign == "" ==> t == rest;
  }

  /** A gap before a field: nothing, or one blank. */
  predicate Gap(g: string) { g == [] || (|g| == 1 && IsBlank(g[0])) }

  lemma SkipGap(g: string, s: string)
    requires Gap(g) && s != [] && !IsBlank(s[0])
    ensures SkipBlanks(g + s) == s
  {
    if g == [] {
      assert g + s == s;
    } else {
      assert (g + s)[1..] == s;
    }
  }

  lemma IntRoundTrip(g: string, x: int, rest: string)
    requires Gap(g) && IsInt32(x)
    requires rest == [] || !IsDigit(rest[0])
    ensures ReadInt(g + (Decimal(x) + rest)) == Some((x, rest))
  {
    var ds := Digits(if x < 0 then -x else x);
    DigitsValue(if x < 0 then -x else x);
    DecimalFront(x, ds, rest);
    SkipGap(g, Decimal(x) + rest);
    DigitRunStops(ds, rest);
    SkippedInt(g + (Decimal(x) + rest), Decimal(x) + rest, ds, x, rest);
  }

  lemma DecimalFront(x: int, ds: string, rest: string)
    requires ds == Digits(if x < 0 then -x else x)
    ensures var s := Decimal(x) + rest;
            && s != [] && !IsBlank(s[0])
            && (if x < 0 then s[0] == '-' && s[1..] == ds + rest else s == ds + rest && IsDigit(s[0]))
  {
    assert ds[0] in ds;
    assert (['-'] + ds + rest)[1..] == ds + rest;
  }

  lemma SkippedInt(all: string, s: string, ds: string, x: int, rest: string)
    requires SkipBlanks(all) == s && s != [] && IsInt32(x)
    requires ds != [] && (forall c | c in ds :: IsDigit(c)) && ValueOf(ds) == if x < 0 then -x else x
    requires DigitRun(ds + rest) == |ds|
    requires if x < 0 then s[0] == '-' && s[1..] == ds + rest else s == ds + rest && IsDigit(s[0])
    ensures ReadInt(all) == Some((x, rest))
  {
    assert (ds + rest)[..|ds|] == ds;
    assert (ds + rest)[|ds|..] == rest;
  }

  lemma WordRoundTrip(g: string, w: string, rest: string)
    requires Gap(g) && w != [] && (forall c | c in w :: !IsBlank(c))
    requires rest == [] || IsBlank(rest[0])
    ensures ReadWord(g + (w + rest)) == Some((w, rest))
  {
    SkipGap(g, w + rest);
    WordRunStops(w, rest);
  }

  lemma FieldThen(text: string, after: string, more: string)
    ensures Field(text, after) + more == " " + (text + (after + more))
    ensures (Field(text, after) + more)[0] == ' '
  {
  }

  lemma RecordRoundTrip(g: string, l: Line, more: string)
    requires Gap(g) && Printable(l)
    ensures ReadRecord(g + (LineText(l) + more)) == Some((l, "\n" + more))
  {
    var c := l.cmd;
    var t5 := Field(Decimal(c.orderId), "\n");
    var t4 := Field(Decimal(c.customerId), t5);
    var t3 := Field(c.clientIp, t4);
    var t2 := Field(Decimal(c.commandId), t3);
    var t1 := Field(Decimal(c.slot), t2);
    FieldThen(Decimal(c.slot), t2, more);
    FieldThen(Decimal(c.commandId), t3, more);
    FieldThen(c.clientIp, t4, more);
    FieldThen(Decimal(c.customerId), t5, more);
    FieldThen(Decimal(c.orderId), "\n", more);
    Associative(Decimal(l.key), t1, more);
    FieldsRead(g, l, t1 + more, t2 + more, t3 + more, t4 + more, t5 + more, "\n" + more);
  }

  lemma FieldsRead(g: string, l: Line, s1: string, s2: string, s3: string, s4: string, s5: string, s6: string)
    requires Gap(g) && Printable(l)
    requires s1 == " " + (Decimal(l.cmd.slot) + s2) && s1[0] == ' '
    requires s2 == " " + (Decimal(l.cmd.commandId) + s3) && s2[0] == ' '
    requires s3 == " " + (l.cmd.clientIp + s4) && s3[0] == ' '
    requires s4 == " " + (Decimal(l.cmd.customerId) + s5) && s4[0] == ' '
    requires s5 == " " + (Decimal(l.cmd.orderId) + s6) && s5[0] == ' '
    requires s6 != [] && s6[0] == '\n'
    ensures ReadRecord(g + (Decimal(l.key) + s1)) == Some((l, s6))
  {
    IntRoundTrip(g, l.key, s1);
    IntRoundTrip(" ", l.cmd.slot, s2);
    IntRoundTrip(" ", l.cmd.commandId, s3);
    WordRoundTrip(" ", l.cmd.clientIp, s4);
    IntRoundTrip(" ", l.cmd.customerId, s5);
    IntRoundTrip(" ", l.cmd.orderId, s6);
  }

  lemma NothingLeft(g: string)
    requires Gap(g)
    ensures ReadRecord(g) == None
  {
    if g != [] { assert g[1..] == []; }
    assert SkipBlanks(g) == [];
  }

  /** Records(s) == ls, unfolded only where a proof mentions Open. */
  ghost predicate Reads(s: string, ls: seq<Line>) {
    forall b :: Open(b) ==> Records(s) == ls
  }

  lemma FirstRecord(g: string, l: Line, more: string, rest: seq<Line>)
    requires Gap(g) && Printable(l) && Reads("\n" + more, rest)
    ensures Reads(g + (LineText(l) + more), [l] + rest)
  {
    assert Open(true);
    RecordRoundTrip(g, l, more);
    RecordsCons(g + (LineText(l) + more), l, "\n" + more);
  }

  lemma RecordsCons(s: string, l: Line, more: string)
    requires ReadRecord(s) == Some((l, more))
    ensures Records(s) == [l] + Records(more)
  {
  }

  lemma NoRecords(g: string)
    requires Gap(g)
    ensures Reads(g + FileText([]), [])
  {
    assert g + FileText([]) == g;
    NothingLeft(g);
  }

  lemma {:induction false} FileReads(g: string, ls: seq<Line>)
    requires Gap(g) && forall i | 0 <= i < |ls| :: Printable(ls[i])
    ensures Reads(g + FileText(ls), ls)
    decreases |ls|
  {
    if ls == [] {
      NoRecords(g);
    } else {
      FileReads("\n", ls[1..]);
      FirstRecord(g, ls[0], FileText(ls[1..]), ls[1..]);
      assert ls == [ls[0]] + ls[1..];
    }
  }

  /** Parsing what was printed returns the printed records, line for line. */
  lemma FileRoundTrip(ls: seq<Line>)
    requires forall l | l in ls :: Printable(l)
    ensures Records(FileText(ls)) == ls
  {
    FileReads([], ls);
    assert [] + FileText(ls) == FileText(ls);
    assert Open(true);
  }

  /** The decisions of the committed slots. */
  ghost function CommittedMap(l: LearnerState): map<int, Command>
    requires WellFormed(l)
  {
    map k | 1 <= k < l.slotOut :: l.decisions[k]
  }

  /** A map that holds exactly the commands of ls, keyed 1, 2, .. in order. */
  ghost predicate Keyed(m: map<int, Command>, ls: seq<Line>) {
    && (forall k :: k in m <==> 1 <= k <= |ls|)
    && (forall i | 0 <= i < |ls| :: m[i + 1] == ls[i].cmd)
  }

  lemma {:induction false} MapOfKeyed(ls: seq<Line>)
    requires forall i | 0 <= i < |ls| :: ls[i].key == i + 1
    ensures Keyed(MapOf(ls), ls)
  {
    if ls != [] {
      MapOfKeyed(ls[..|ls| - 1]);
    }
  }

  lemma KeyedIffFaithful(l: LearnerState, m: map<int, Command>)
    requires WellFormed(l) && Keyed(m, l.file)
    ensures m == CommittedMap(l) <==> FileFaithful(l)
  {
    if m == CommittedMap(l) {
      forall i | 0 <= i < |l.file| ensures i + 1 in l.decisions && l.file[i].cmd == l.decisions[i + 1] {
        assert m[i + 1] == l.file[i].cmd;
      }
    }
    if FileFaithful(l) {
      forall k | k in m ensures k in CommittedMap(l) && m[k] == CommittedMap(l)[k] {
        assert l.file[k - 1].cmd == l.decisions[k - 1 + 1];
      }
    }
  }

  /**
   Recovery: loading the file a learner wrote restores exactly the decisions
   below its slotOut, if and only if every line was saved with the command of
   its own slot. (FileFaithfulIff says which histories do that.)
   */
  lemma RecoveryExact(l: LearnerState)
    requires WellFormed(l) && forall x | x in l.file :: Printable(x)
    ensures Records(FileText(l.file)) == l.file
    ensures MapOf(Records(FileText(l.file))) == CommittedMap(l) <==> FileFaithful(l)
  {
    FileRoundTrip(l.file);
    MapOfKeyed(l.file);
    KeyedIffFaithful(l, MapOf(l.file));
  }
}
