/** Bytes, the two byte orders, C strings and memcpy. */
module Bytes {
  import opened Common

  type byte = x: int | 0 <= x < 256

  predicate IsUint32(x: int) { 0 <= x < 0x1_0000_0000 }

  /** The bit pattern of a 32-bit int, as an unsigned number. */
  function Unsigned(x: int): int
    requires IsInt32(x)
    ensures IsUint32(Unsigned(x))
  {
    if x < 0 then x + 0x1_0000_0000 else x
  }

  function Signed(u: int): int
    requires IsUint32(u)
    ensures IsInt32(Signed(u))
  {
    if u >= 0x8000_0000 then u - 0x1_0000_0000 else u
  }

  /** The four bytes of htonl(u) in memory, on any host. */
  function Net(u: int): (b: seq<byte>)
    requires IsUint32(u)
    ensures |b| == 4
  {
    [u / 0x100_0000, u / 0x1_0000 % 256, u / 256 % 256, u % 256]
  }

  function FromNet(b: seq<byte>): (u: int)
    requires |b| == 4
    ensures IsUint32(u)
  {
    var b0: int, b1: int, b2: int, b3: int := b[0], b[1], b[2], b[3];
    b0 * 0x100_0000 + b1 * 0x1_0000 + b2 * 256 + b3
  }

  /** The four bytes of u copied without conversion, on a little- or big-endian host. */
  function Host(little: bool, u: int): (b: seq<byte>)
    requires IsUint32(u)
    ensures |b| == 4
  {
    var n := Net(u);
    if little then [n[3], n[2], n[1], n[0]] else n
  }

  function FromHost(little: bool, b: seq<byte>): (u: int)
    requires |b| == 4
    ensures IsUint32(u)
  {
    FromNet(if little then [b[3], b[2], b[1], b[0]] else b)
  }

  lemma NetRoundTrip(u: int)
    requires IsUint32(u)
    ensures FromNet(Net(u)) == u
  {
    var h := u / 256;
    assert u == h * 256 + u % 256;
    var g := h / 256;
    assert h == g * 256 + h % 256 && u / 0x1_0000 == g;
    assert g == g / 256 * 256 + g % 256 && u / 0x100_0000 == g / 256;
  }

  lemma HostRoundTrip(little: bool, u: int)
    requires IsUint32(u)
    ensures FromHost(little, Host(little, u)) == u
  {
    NetRoundTrip(u);
  }

  lemma SignRoundTrip(x: int)
    requires IsInt32(x)
    ensures Signed(Unsigned(x)) == x
  {
  }

  /** htonl of an int, and ntohl back into an int. */
  function NetInt(x: int): (b: seq<byte>)
    requires IsInt32(x)
    ensures |b| == 4
  {
    Net(Unsigned(x))
  }

  function FromNetInt(b: seq<byte>): (x: int)
    requires |b| == 4
    ensures IsInt32(x)
  {
    Signed(FromNet(b))
  }

  lemma NetIntRoundTrip(x: int)
    requires IsInt32(x)
    ensures FromNetInt(NetInt(x)) == x
  {
    NetRoundTrip(Unsigned(x));
  }

  // ---------- what the byte orders are ----------

  /** a comes before b at the first place where they differ, reading from the left. */
  ghost predicate Before(a: seq<byte>, b: seq<byte>)
    requires |a| == |b|
  {
    exists i :: 0 <= i < |a| && a[..i] == b[..i] && a[i] < b[i]
  }

  function Reverse(a: seq<byte>): (r: seq<byte>)
    ensures |r| == |a| && forall i | 0 <= i < |a| :: r[i] == a[|a| - 1 - i]
  {
    seq(|a|, i requires 0 <= i < |a| => a[|a| - 1 - i])
  }

  /**
   Network order: the numbers come in the order of their bytes read from the
   left. As there are as many 4-byte strings as numbers, this leaves htonl no choice.
   */
  lemma NetOrder(u: int, v: int)
    requires IsUint32(u) && IsUint32(v) && u < v
    ensures Before(Net(u), Net(v))
  {
    NetRoundTrip(u);
    NetRoundTrip(v);
    ReadInOrder(Net(u), Net(v));
  }

  lemma ReadInOrder(a: seq<byte>, b: seq<byte>)
    requires |a| == |b| == 4 && FromNet(a) < FromNet(b)
    ensures Before(a, b)
  {
    if a[0] != b[0] {
      assert a[..0] == b[..0] && a[0] < b[0];
    } else if a[1] != b[1] {
      assert a[..1] == b[..1] && a[1] < b[1];
    } else if a[2] != b[2] {
      assert a[..2] == b[..2] && a[2] < b[2];
    } else {
      assert a[..3] == b[..3] && a[3] < b[3];
    }
  }

  /** A big-endian host copies in network order, a little-endian one mirrors it. */
  lemma HostOrder(u: int, v: int)
    requires IsUint32(u) && IsUint32(v) && u < v
    ensures Before(Host(false, u), Host(false, v))
    ensures Before(Reverse(Host(true, u)), Reverse(Host(true, v)))
  {
    NetOrder(u, v);
    assert Reverse(Host(true, u)) == Net(u) && Reverse(Host(true, v)) == Net(v);
  }

  /**
   Ints in two's complement: among equal signs the bytes come in the order of
   the ints, negative ints come after the others, and -1 is all ones.
   */
  lemma NetIntOrder(x: int, y: int)
    requires IsInt32(x) && IsInt32(y) && x < y
    ensures if x < 0 <= y then Before(NetInt(y), NetInt(x)) else Before(NetInt(x), NetInt(y))
    ensures NetInt(-1) == [255, 255, 255, 255] && NetInt(0) == [0, 0, 0, 0] && NetInt(1) == [0, 0, 0, 1]
  {
    if x < 0 <= y { NetOrder(Unsigned(y), Unsigned(x)); } else { NetOrder(Unsigned(x), Unsigned(y)); }
  }

  // ---------- strings ----------

  /** Every character fits one byte. */
  predicate Narrow(s: string) { forall c | c in s :: c < 256 as char }

  function ToByte(s: string, i: nat): byte
    requires Narrow(s) && i < |s|
  {
    assert s[i] in s;
    s[i] as int
  }

  function ToBytes(s: string): (b: seq<byte>)
    requires Narrow(s)
    ensures |b| == |s|
  {
    seq(|s|, i requires 0 <= i < |s| => ToByte(s, i))
  }

  function ToString(b: seq<byte>): (s: string)
    ensures |s| == |b|
  {
    seq(|b|, i requires 0 <= i < |b| => b[i] as char)
  }

  /** The length of the C string that starts the bytes: up to the first NUL. */
  function CLength(b: seq<byte>): (n: nat)
    ensures n <= |b|
  {
    if b == [] || b[0] == 0 then 0 else 1 + CLength(b[1..])
  }

  /** std::string(temp), where temp holds the bytes and a terminating NUL. */
  function CString(b: seq<byte>): string {
    ToString(b[..CLength(b)])
  }

  predicate NulFree(s: string) { forall c | c in s :: c != 0 as char }

  lemma {:induction false} CLengthFull(b: seq<byte>)
    ensures CLength(b) == |b| <==> forall x | x in b :: x != 0
  {
    if b != [] {
      CLengthFull(b[1..]);
      assert b[0] in b;
      forall x | x in b ensures x == b[0] || x in b[1..] {
        var i :| 0 <= i < |b| && b[i] == x;
        if i > 0 { assert b[1..][i - 1] == x; }
      }
      forall x | x in b[1..] ensures x in b { }
    }
  }

  lemma CStringRoundTrip(s: string)
    requires Narrow(s)
    ensures CString(ToBytes(s)) == s <==> NulFree(s)
  {
    var b := ToBytes(s);
    CLengthFull(b);
    if NulFree(s) {
      forall x | x in b ensures x != 0 {
        var i :| 0 <= i < |b| && b[i] == x;
        assert s[i] in s;
      }
      assert b[..|b|] == b;
      assert ToString(b) == s;
    } else {
      var c :| c in s && c == 0 as char;
      var i :| 0 <= i < |s| && s[i] == c;
      assert b[i] in b && b[i] == 0;
      assert |CString(b)| < |s|;
    }
  }

  /** A string is copied character by character. */
  lemma BytesOfString(s: string, i: nat)
    requires Narrow(s) && i < |s|
    ensures |ToBytes(s)| == |s| && ToBytes(s)[i] == s[i] as int
  {
  }

  // ---------- memory ----------

  /** The contents of a buffer after src was copied to offset. */
  function Put(buffer: seq<byte>, offset: nat, src: seq<byte>): (r: seq<byte>)
    requires offset + |src| <= |buffer|
    ensures |r| == |buffer|
  {
    buffer[..offset] + src + buffer[offset + |src|..]
  }

  lemma PutNothing(buffer: seq<byte>, offset: nat)
    requires offset <= |buffer|
    ensures Put(buffer, offset, []) == buffer
  {
  }

  /** Copying two pieces one after the other is copying them together. */
  lemma PutPut(buffer: seq<byte>, offset: nat, a: seq<byte>, b: seq<byte>)
    requires offset + |a| + |b| <= |buffer|
    ensures Put(Put(buffer, offset, a), offset + |a|, b) == Put(buffer, offset, a + b)
  {
  }

  lemma PutThree(buffer: seq<byte>, offset: nat, a: seq<byte>, b: seq<byte>, c: seq<byte>)
    requires offset + |a| + |b| + |c| <= |buffer|
    ensures Put(Put(Put(buffer, offset, a), offset + |a|, b), offset + |a| + |b|, c)
            == Put(buffer, offset, a + b + c)
  {
    PutPut(buffer, offset, a, b);
    PutPut(buffer, offset, a + b, c);
  }

  /** Filling the whole of a buffer. */
  lemma PutAll(buffer: seq<byte>, src: seq<byte>)
    requires |src| == |buffer|
    ensures Put(buffer, 0, src) == src
  {
  }

  /** memcpy into a buffer: src at offset, everything else as it was. */
  method Copy(buffer: array<byte>, offset: nat, src: seq<byte>)
    requires offset + |src| <= buffer.Length
    modifies buffer
    ensures buffer[..] == Put(old(buffer[..]), offset, src)
  {
    var i := 0;
    while i < |src|
      invariant 0 <= i <= |src|
      invariant forall k | 0 <= k < buffer.Length :: buffer[k] ==
                  if offset <= k < offset + i then src[k - offset] else old(buffer[k])
    {
      buffer[offset + i] := src[i];
      i := i + 1;
    }
  }

  /** Three memcpy calls at an advancing pointer. */
  method CopyThree(buffer: array<byte>, offset: nat, a: seq<byte>, b: seq<byte>, c: seq<byte>)
    requires offset + |a| + |b| + |c| <= buffer.Length
    modifies buffer
    ensures buffer[..] == Put(old(buffer[..]), offset, a + b + c)
  {
    PutThree(buffer[..], offset, a, b, c);
    Copy(buffer, offset, a);
    Copy(buffer, offset + |a|, b);
    Copy(buffer, offset + |a| + |b|, c);
  }
}
