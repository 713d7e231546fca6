/**
 The server list sent to a customer: a count, then one variable-length record
 per server in key order. Counts, keys and the length prefix travel in network
 order; the address length and the port are copied as they lie in memory, so
 the two ends must share one byte order.
 */
module ServerList {
  import opened Common
  import opened Bytes
  import opened Socket

  datatype ServerInfo = ServerInfo(ipAddress: string, portNumber: int)

  /** ServerInfo::size */
  function InfoSize(s: ServerInfo): nat { 4 + |s.ipAddress| + 4 }

  predicate InfoFits(s: ServerInfo) {
    IsInt32(s.portNumber) && Narrow(s.ipAddress) && |s.ipAddress| < 0x1_0000_0000
  }

  /** What ServerInfo::Marshal writes on a host of the given byte order. */
  function EncodeInfo(little: bool, s: ServerInfo): (b: seq<byte>)
    requires InfoFits(s)
    ensures |b| == InfoSize(s)
  {
    Host(little, |s.ipAddress|) + ToBytes(s.ipAddress) + Host(little, Unsigned(s.portNumber))
  }

  /** What ServerInfo::Unmarshal reads; None when the length points outside the buffer. */
  function DecodeInfo(little: bool, b: seq<byte>): (r: Option<ServerInfo>)
  {
    if |b| < 4 then None
    else
      var n := FromHost(little, b[..4]);
      if 4 + n + 4 > |b| then None
      else Some(ServerInfo(CString(b[4..4 + n]), Signed(FromHost(little, b[4 + n..8 + n]))))
  }

  lemma InfoRoundTrip(little: bool, s: ServerInfo, more: seq<byte>)
    requires InfoFits(s)
    ensures DecodeInfo(little, EncodeInfo(little, s) + more) == Some(s) <==> NulFree(s.ipAddress)
  {
    var b := EncodeInfo(little, s) + more;
    var n := |s.ipAddress|;
    HostRoundTrip(little, n);
    HostRoundTrip(little, Unsigned(s.portNumber));
    SignRoundTrip(s.portNumber);
    assert b[..4] == Host(little, n);
    assert b[4..4 + n] == ToBytes(s.ipAddress);
    assert b[4 + n..8 + n] == Host(little, Unsigned(s.portNumber));
    CStringRoundTrip(s.ipAddress);
  }

  // ---------- maps in key order ----------

  type Servers = map<int, ServerInfo>

  /** One record of a std::map. */
  datatype Entry = Entry(key: int, info: ServerInfo)

  /** The records in the order the map is traversed: ascending keys. */
  ghost function Listing(m: Servers): (es: seq<Entry>)
    ensures |es| == |m|
    decreases |m|
  {
    if m == map[] then []
    else
      var k := Least(m.Keys);
      RemoveOne(m, k);
      [Entry(k, m[k])] + Listing(m - {k})
  }

  lemma RemoveOne(m: Servers, k: int)
    requires k in m
    ensures |m - {k}| == |m| - 1
  {
    assert (m - {k}).Keys == m.Keys - {k};
  }

  /** Inserting the records one after the other, later ones overwriting. */
  function Fill(m: Servers, es: seq<Entry>): Servers
    decreases |es|
  {
    if es == [] then m else Fill(m[es[0].key := es[0].info], es[1..])
  }

  lemma Merge(m0: Servers, m: Servers, k: int)
    requires k in m
    ensures m0[k := m[k]] + (m - {k}) == m0 + m
  {
  }

  /** Filling in a map's own records adds exactly that map. */
  lemma {:induction false} FillListing(m0: Servers, m: Servers)
    ensures Fill(m0, Listing(m)) == m0 + m
    decreases |m|
  {
    if m != map[] {
      var k := Least(m.Keys);
      RemoveOne(m, k);
      FillListing(m0[k := m[k]], m - {k});
      Merge(m0, m, k);
      assert Listing(m)[1..] == Listing(m - {k});
    } else {
      assert m0 + m == m0;
    }
  }

  predicate ServersFit(m: Servers) { forall k | k in m :: IsInt32(k) && InfoFits(m[k]) }

  predicate AllFit(m: Servers) {
    |m| < 0x8000_0000 && ServersFit(m)
  }

  predicate EntryFits(e: Entry) { IsInt32(e.key) && InfoFits(e.info) }

  predicate EntriesFit(es: seq<Entry>) { forall i | 0 <= i < |es| :: EntryFits(es[i]) }

  lemma {:induction false} ListingFits(m: Servers)
    requires ServersFit(m)
    ensures EntriesFit(Listing(m))
    ensures forall i | 0 <= i < |Listing(m)| :: Listing(m)[i].key in m && m[Listing(m)[i].key] == Listing(m)[i].info
    decreases |m|
  {
    if m != map[] {
      var k := Least(m.Keys);
      RemoveOne(m, k);
      ListingFits(m - {k});
    }
  }

  // ---------- the codec ----------

  function EntriesSize(es: seq<Entry>): nat {
    if es == [] then 0 else 4 + InfoSize(es[0].info) + EntriesSize(es[1..])
  }

  /** ServerConfig::size */
  ghost function ConfigSize(m: Servers): nat { 4 + EntriesSize(Listing(m)) }

  function EncodeEntry(little: bool, e: Entry): (b: seq<byte>)
    requires EntryFits(e)
    ensures |b| == 4 + InfoSize(e.info)
  {
    NetInt(e.key) + EncodeInfo(little, e.info)
  }

  function EncodeEntries(little: bool, es: seq<Entry>): (b: seq<byte>)
    requires EntriesFit(es)
    ensures |b| == EntriesSize(es)
  {
    if es == [] then []
    else
      EncodeEntry(little, es[0]) + EncodeEntries(little, es[1..])
  }

  /** What Marshal writes. */
  ghost function Encode(little: bool, m: Servers): (b: seq<byte>)
    requires AllFit(m)
    ensures |b| == ConfigSize(m)
  {
    ListingFits(m);
    NetInt(|m|) + EncodeEntries(little, Listing(m))
  }

  /** n records from the front of b, and what follows them. */
  function DecodeEntries(little: bool, b: seq<byte>, n: nat): Option<(seq<Entry>, seq<byte>)>
    decreases n
  {
    if n == 0 then Some(([], b))
    else if |b| < 4 then None
    else
      match DecodeInfo(little, b[4..])
      case None => None
      case Some(info) =>
        if 4 + InfoSize(info) > |b| then None
        else
          match DecodeEntries(little, b[4 + InfoSize(info)..], n - 1)
          case None => None
          case Some((es, more)) => Some(([Entry(FromNetInt(b[..4]), info)] + es, more))
  }

  /** What Unmarshal reads: the records, and the bytes it does not touch. */
  function Decode(little: bool, b: seq<byte>): Option<(seq<Entry>, seq<byte>)>
  {
    if |b| < 4 then None
    else
      var count := FromNetInt(b[..4]);
      DecodeEntries(little, b[4..], if count < 0 then 0 else count)
  }

  // ---------- the layout ----------

  /** One server's record: the length and the port as they lie in memory, the characters between them. */
  lemma InfoLayout(little: bool, s: ServerInfo)
    requires InfoFits(s)
    ensures var b, n := EncodeInfo(little, s), |s.ipAddress|;
            && |b| == 8 + n && b[0..4] == Host(little, n)
            && (forall i | 0 <= i < n :: b[4 + i] == s.ipAddress[i] as int)
            && b[4 + n..8 + n] == Host(little, Unsigned(s.portNumber))
  {
    var b, n := EncodeInfo(little, s), |s.ipAddress|;
    assert b[4 + n..] == Host(little, Unsigned(s.portNumber));
    forall i | 0 <= i < n ensures b[4 + i] == s.ipAddress[i] as int {
      BytesOfString(s.ipAddress, i);
    }
  }

  /** The first of the records: its key in network order, then the server, then the other records. */
  lemma EntriesLayout(little: bool, es: seq<Entry>)
    requires EntriesFit(es) && es != []
    ensures var b, n := EncodeEntries(little, es), InfoSize(es[0].info);
            && |b| >= 4 + n && b[0..4] == NetInt(es[0].key)
            && b[4..4 + n] == EncodeInfo(little, es[0].info)
            && b[4 + n..] == EncodeEntries(little, es[1..])
  {
  }

  /** The whole list: the number of servers in network order, then the records in key order. */
  lemma ConfigLayout(little: bool, m: Servers)
    requires AllFit(m)
    ensures ServersFit(m) && EntriesFit(Listing(m))
    ensures Encode(little, m)[0..4] == NetInt(|m|) && Encode(little, m)[4..] == EncodeEntries(little, Listing(m))
    ensures forall i, j | 0 <= i < j < |Listing(m)| :: Listing(m)[i].key < Listing(m)[j].key
    ensures forall e :: e in Listing(m) <==> e.key in m && m[e.key] == e.info
  {
    ListingFits(m);
    ListingAscends(m);
    ListingComplete(m);
  }

  lemma {:induction false} ListingComplete(m: Servers)
    ensures forall e :: e in Listing(m) <==> e.key in m && m[e.key] == e.info
    decreases |m|
  {
    if m != map[] {
      var k := Least(m.Keys);
      RemoveOne(m, k);
      ListingComplete(m - {k});
      forall e ensures e in Listing(m) <==> e.key in m && m[e.key] == e.info {
        assert e in Listing(m) <==> e == Entry(k, m[k]) || e in Listing(m - {k});
      }
    }
  }

  lemma {:induction false} ListingAscends(m: Servers)
    ensures forall i, j | 0 <= i < j < |Listing(m)| :: Listing(m)[i].key < Listing(m)[j].key
    decreases |m|
  {
    if m != map[] {
      var k := Least(m.Keys);
      RemoveOne(m, k);
      ListingAscends(m - {k});
      ListingComplete(m - {k});
      forall i, j | 0 <= i < j < |Listing(m)| ensures Listing(m)[i].key < Listing(m)[j].key {
        var rest := Listing(m - {k});
        assert Listing(m)[j] == rest[j - 1] && rest[j - 1] in rest;
        if i > 0 { assert Listing(m)[i] == rest[i - 1]; }
      }
    }
  }

  predicate NulFreeEntries(es: seq<Entry>) {
    forall i | 0 <= i < |es| :: NulFree(es[i].info.ipAddress)
  }

  /** b starts with the records es and goes on with more; unfolded only under Open. */
  ghost predicate Reads(little: bool, b: seq<byte>, es: seq<Entry>, more: seq<byte>) {
    forall q :: Open(q) ==> DecodeEntries(little, b, |es|) == Some((es, more))
  }

  lemma EntryRoundTrip(little: bool, e: Entry, tail: seq<byte>, es: seq<Entry>, more: seq<byte>)
    requires EntryFits(e) && NulFree(e.info.ipAddress) && Reads(little, tail, es, more)
    ensures Reads(little, EncodeEntry(little, e) + tail, [e] + es, more)
  {
    EntryParts(little, e, tail);
    assert Open(true);
  }

  lemma EntryParts(little: bool, e: Entry, tail: seq<byte>)
    requires EntryFits(e) && NulFree(e.info.ipAddress)
    ensures var b := EncodeEntry(little, e) + tail;
            && FromNetInt(b[..4]) == e.key && DecodeInfo(little, b[4..]) == Some(e.info)
            && b[4 + InfoSize(e.info)..] == tail
  {
    var b := EncodeEntry(little, e) + tail;
    assert b[..4] == NetInt(e.key) && b[4..] == EncodeInfo(little, e.info) + tail;
    NetIntRoundTrip(e.key);
    InfoRoundTrip(little, e.info, tail);
  }

  lemma {:induction false} EntriesRoundTrip(little: bool, es: seq<Entry>, more: seq<byte>)
    requires EntriesFit(es) && NulFreeEntries(es)
    ensures Reads(little, EncodeEntries(little, es) + more, es, more)
    decreases |es|
  {
    if es == [] {
      assert EncodeEntries(little, es) + more == more;
    } else {
      EntriesRoundTrip(little, es[1..], more);
      EntryRoundTrip(little, es[0], EncodeEntries(little, es[1..]) + more, es[1..], more);
      Associative(EncodeEntry(little, es[0]), EncodeEntries(little, es[1..]), more);
      assert es == [es[0]] + es[1..];
    }
  }

  /**
   Round trip: unmarshalling what was marshalled restores the map, for every
   finite map with NUL-free addresses, reading exactly the bytes written.
   */
  lemma ConfigRoundTrip(little: bool, m: Servers, more: seq<byte>)
    requires AllFit(m) && forall k | k in m :: NulFree(m[k].ipAddress)
    ensures Decode(little, Encode(little, m) + more) == Some((Listing(m), more))
    ensures Fill(map[], Listing(m)) == m
  {
    ListingFits(m);
    var es := Listing(m);
    assert forall i | 0 <= i < |es| :: NulFree(m[es[i].key].ipAddress);
    EntriesRoundTrip(little, es, more);
    assert Open(true);
    CountRoundTrip(little, |m|, EncodeEntries(little, es), more);
    FillListing(map[], m);
    assert map[] + m == m;
  }

  lemma CountRoundTrip(little: bool, n: nat, body: seq<byte>, more: seq<byte>)
    requires IsInt32(n)
    ensures Decode(little, NetInt(n) + body + more) == DecodeEntries(little, body + more, n)
  {
    var b := NetInt(n) + body + more;
    assert b[..4] == NetInt(n) && b[4..] == body + more;
    NetIntRoundTrip(n);
  }

  // ---------- the message object and its framing ----------

  /** ServerInfo::Marshal: three memcpy calls at an advancing pointer. */
  method MarshalInfo(buffer: array<byte>, offset: nat, little: bool, s: ServerInfo)
    requires InfoFits(s) && offset + InfoSize(s) <= buffer.Length
    modifies buffer
    ensures buffer[..] == Put(old(buffer[..]), offset, EncodeInfo(little, s))
  {
    var n := |s.ipAddress|;
    CopyThree(buffer, offset, Host(little, n), ToBytes(s.ipAddress), Host(little, Unsigned(s.portNumber)));
  }

  method MarshalEntry(buffer: array<byte>, offset: nat, little: bool, e: Entry)
    requires EntryFits(e) && offset + 4 + InfoSize(e.info) <= buffer.Length
    modifies buffer
    ensures buffer[..] == Put(old(buffer[..]), offset, EncodeEntry(little, e))
  {
    PutPut(buffer[..], offset, NetInt(e.key), EncodeInfo(little, e.info));
    Copy(buffer, offset, NetInt(e.key));
    MarshalInfo(buffer, offset + 4, little, e.info);
  }

  lemma ListingStep(m: Servers)
    requires m != map[] && ServersFit(m)
    ensures var k := Least(m.Keys);
            && |m - {k}| == |m| - 1
            && Listing(m) == [Entry(k, m[k])] + Listing(m - {k})
            && EntriesFit(Listing(m)) && EntriesFit(Listing(m - {k}))
  {
    var k := Least(m.Keys);
    RemoveOne(m, k);
    ListingFits(m);
    ListingFits(m - {k});
  }

  /** What one turn of the loop over the map moves from the rest to the bytes written. */
  lemma NextEntry(little: bool, done: seq<byte>, rest: Servers)
    requires rest != map[] && ServersFit(rest) && EntriesFit(Listing(rest))
    ensures var k := Least(rest.Keys);
            && |rest - {k}| == |rest| - 1
            && EntriesFit(Listing(rest - {k}))
            && done + EncodeEntry(little, Entry(k, rest[k])) + EncodeEntries(little, Listing(rest - {k}))
               == done + EncodeEntries(little, Listing(rest))
  {
    var k := Least(rest.Keys);
    ListingStep(rest);
    assert Listing(rest)[1..] == Listing(rest - {k});
    Associative(done, EncodeEntry(little, Entry(k, rest[k])), EncodeEntries(little, Listing(rest - {k})));
  }

  /**
   Part of the way through Marshal's loop: `done` is written and the records of
   `rest` are still to come. Unfolded only under Open.
   */
  ghost predicate Partly(little: bool, m: Servers, was: seq<byte>, start: nat, now: seq<byte>, done: seq<byte>, rest: Servers) {
    forall q :: Open(q) ==>
      && ServersFit(rest) && EntriesFit(Listing(rest)) && ServersFit(m) && EntriesFit(Listing(m))
      && done + EncodeEntries(little, Listing(rest)) == EncodeEntries(little, Listing(m))
      && start + EntriesSize(Listing(m)) <= |was|
      && now == Put(was, start, done)
  }

  lemma PartlyBefore(little: bool, m: Servers, was: seq<byte>, start: nat, now: seq<byte>, done: seq<byte>, rest: Servers)
    requires rest != map[] && Partly(little, m, was, start, now, done, rest)
    ensures var k := Least(rest.Keys);
            && EntryFits(Entry(k, rest[k])) && |rest - {k}| == |rest| - 1
            && start + |done| + 4 + InfoSize(rest[k]) <= |now|
  {
    assert Open(true);
    NextEntry(little, done, rest);
  }

  lemma PartlyAfter(little: bool, m: Servers, was: seq<byte>, start: nat, now: seq<byte>, done: seq<byte>, rest: Servers, after: seq<byte>)
    requires rest != map[] && Partly(little, m, was, start, now, done, rest)
    requires var k := Least(rest.Keys);
             && EntryFits(Entry(k, rest[k])) && start + |done| + 4 + InfoSize(rest[k]) <= |now|
             && after == Put(now, start + |done|, EncodeEntry(little, Entry(k, rest[k])))
    ensures var k := Least(rest.Keys);
            Partly(little, m, was, start, after, done + EncodeEntry(little, Entry(k, rest[k])), rest - {k})
  {
    assert Open(true);
    NextEntry(little, done, rest);
    var k := Least(rest.Keys);
    PutPut(was, start, done, EncodeEntry(little, Entry(k, rest[k])));
  }

  /** One turn of the loop. */
  method MarshalNext(buffer: array<byte>, offset: nat, little: bool, rest: Servers,
                     ghost m: Servers, ghost was: seq<byte>, ghost start: nat, ghost done: seq<byte>)
    returns (k: int)
    requires rest != map[] && Partly(little, m, was, start, buffer[..], done, rest)
    requires offset == start + |done|
    modifies buffer
    ensures k in rest && |rest - {k}| == |rest| - 1 && EntryFits(Entry(k, rest[k]))
    ensures Partly(little, m, was, start, buffer[..], done + EncodeEntry(little, Entry(k, rest[k])), rest - {k})
  {
    k := First(rest.Keys);
    ghost var now := buffer[..];
    PartlyBefore(little, m, was, start, now, done, rest);
    MarshalEntry(buffer, offset, little, Entry(k, rest[k]));
    PartlyAfter(little, m, was, start, now, done, rest, buffer[..]);
  }

  lemma MarshalBegins(little: bool, m: Servers, was: seq<byte>, start: nat)
    requires ServersFit(m) && EntriesFit(Listing(m)) && start + EntriesSize(Listing(m)) <= |was|
    ensures Partly(little, m, was, start, was, [], m)
  {
    PutNothing(was, start);
    assert [] + EncodeEntries(little, Listing(m)) == EncodeEntries(little, Listing(m));
  }

  lemma MarshalEnds(little: bool, m: Servers, was: seq<byte>, start: nat, now: seq<byte>, done: seq<byte>)
    requires Partly(little, m, was, start, now, done, map[])
    ensures ServersFit(m) && EntriesFit(Listing(m)) && start + EntriesSize(Listing(m)) <= |was|
    ensures now == Put(was, start, EncodeEntries(little, Listing(m)))
  {
    assert Open(true);
    assert done + [] == done;
  }

  /** The loop over the map. */
  method MarshalEntries(buffer: array<byte>, start: nat, little: bool, m: Servers)
    requires ServersFit(m) && EntriesFit(Listing(m)) && start + EntriesSize(Listing(m)) <= buffer.Length
    modifies buffer
    ensures buffer[..] == Put(old(buffer[..]), start, EncodeEntries(little, Listing(m)))
  {
    ghost var was, done := buffer[..], [];
    var rest, offset := m, start;
    MarshalBegins(little, m, was, start);
    while rest != map[]
      invariant Partly(little, m, was, start, buffer[..], done, rest)
      invariant offset == start + |done|
      decreases |rest|
    {
      var k := MarshalNext(buffer, offset, little, rest, m, was, start, done);
      done := done + EncodeEntry(little, Entry(k, rest[k]));
      offset := offset + 4 + InfoSize(rest[k]);
      rest := rest - {k};
    }
    MarshalEnds(little, m, was, start, buffer[..], done);
  }

  /**
   Part of the way through Unmarshal's loop: n records are still to be read
   from b into m. Unfolded only under Open.
   */
  ghost predicate Reading(little: bool, all: Option<(seq<Entry>, seq<byte>)>, was: Servers, b: seq<byte>, n: nat, m: Servers) {
    forall q :: Open(q) ==>
      var left := DecodeEntries(little, b, n);
      && (all.Some? <==> left.Some?)
      && (all.Some? ==> Fill(was, all.value.0) == Fill(m, left.value.0))
  }

  /** One turn of the loop. */
  lemma ReadingNext(little: bool, all: Option<(seq<Entry>, seq<byte>)>, was: Servers, b: seq<byte>, n: nat, m: Servers, info: ServerInfo)
    requires Reading(little, all, was, b, n, m)
    requires n > 0 && |b| >= 4 && DecodeInfo(little, b[4..]) == Some(info)
    ensures 4 + InfoSize(info) <= |b|
    ensures Reading(little, all, was, b[4 + InfoSize(info)..], n - 1, m[FromNetInt(b[..4]) := info])
  {
    assert Open(true);
    var later := DecodeEntries(little, b[4 + InfoSize(info)..], n - 1);
    if later.Some? {
      assert ([Entry(FromNetInt(b[..4]), info)] + later.value.0)[1..] == later.value.0;
    }
  }

  lemma ReadingFails(little: bool, all: Option<(seq<Entry>, seq<byte>)>, was: Servers, b: seq<byte>, n: nat, m: Servers)
    requires Reading(little, all, was, b, n, m) && n > 0
    requires |b| < 4 || DecodeInfo(little, b[4..]) == None
    ensures all == None
  {
    assert Open(true);
  }

  lemma ReadingEnds(little: bool, all: Option<(seq<Entry>, seq<byte>)>, was: Servers, b: seq<byte>, m: Servers)
    requires Reading(little, all, was, b, 0, m)
    ensures all.Some? && Fill(was, all.value.0) == m
  {
    assert Open(true);
  }

  /** The C++ message object, filled and emptied in place. */
  class ServerConfig {
    var servers: Servers

    constructor ()
      ensures servers == map[]
    {
      servers := map[];
    }

    /** std::map::insert: a server already listed stays as it is. */
    method SetServer(serverId: int, info: ServerInfo)
      modifies this
      ensures serverId in old(servers) ==> servers == old(servers)
      ensures serverId !in old(servers) ==> servers == old(servers)[serverId := info]
    {
      if serverId !in servers {
        servers := servers[serverId := info];
      }
    }

    method Size() returns (total: nat)
      ensures total == ConfigSize(servers)
    {
      total := 4;
      var rest := servers;
      while rest != map[]
        invariant total + EntriesSize(Listing(rest)) == ConfigSize(servers)
        decreases |rest|
      {
        var k := First(rest.Keys);
        RemoveOne(rest, k);
        assert Listing(rest)[1..] == Listing(rest - {k});
        total := total + 4 + InfoSize(rest[k]);
        rest := rest - {k};
      }
    }

    method Marshal(buffer: array<byte>, little: bool)
      requires AllFit(servers) && ConfigSize(servers) <= buffer.Length
      modifies buffer
      ensures buffer[..] == Put(old(buffer[..]), 0, Encode(little, servers))
    {
      Copy(buffer, 0, NetInt(|servers|));
      ListingFits(servers);
      PutPut(old(buffer[..]), 0, NetInt(|servers|), EncodeEntries(little, Listing(servers)));
      MarshalEntries(buffer, 4, little, servers);
    }

    /** Adds the records to what is there; false when one points outside the buffer. */
    method Unmarshal(buffer: array<byte>, little: bool) returns (ok: bool)
      requires 4 <= buffer.Length
      modifies this
      ensures ok <==> Decode(little, buffer[..]).Some?
      ensures ok ==> servers == Fill(old(servers), Decode(little, buffer[..]).value.0)
    {
      var b := buffer[..];
      var count := FromNetInt(b[..4]);
      var n := if count < 0 then 0 else count;
      ghost var all := DecodeEntries(little, b[4..], n);
      b := b[4..];
      var i := 0;
      while i < n
        invariant 0 <= i <= n
        invariant Reading(little, all, old(servers), b, n - i, servers)
      {
        if |b| < 4 {
          ReadingFails(little, all, old(servers), b, n - i, servers);
          return false;
        }
        var info := DecodeInfo(little, b[4..]);
        if info == None {
          ReadingFails(little, all, old(servers), b, n - i, servers);
          return false;
        }
        ReadingNext(little, all, old(servers), b, n - i, servers, info.value);
        servers := servers[FromNetInt(b[..4]) := info.value];
        b := b[4 + InfoSize(info.value)..];
        i := i + 1;
      }
      ReadingEnds(little, all, old(servers), b, servers);
      ok := true;
    }
  }

  /** A configuration that one frame can carry and C strings can hold. */
  predicate Sendable(m: Servers) {
    AllFit(m) && forall k | k in m :: NulFree(m[k].ipAddress)
  }

  /** The length in network order, then the records. */
  ghost function Frame(little: bool, m: Servers): seq<byte>
    requires AllFit(m) && IsUint32(ConfigSize(m))
  {
    Net(ConfigSize(m)) + Encode(little, m)
  }

  /** ServerStub::SendServerConfig; the result of the first send is ignored. */
  method SendServerConfig(c: Connection, config: ServerConfig, little: bool) returns (r: int)
    requires AllFit(config.servers) && IsUint32(ConfigSize(config.servers))
    modifies c`stream, c`closed, c`stalls
    ensures r == 0 || r == 1
    ensures c.reliable && !old(c.closed) ==>
              r == 1 && !c.closed && c.stream == old(c.stream) + Frame(little, config.servers)
  {
    Associative(c.stream, Net(ConfigSize(config.servers)), Encode(little, config.servers));
    var size := config.Size();
    var header := new byte[4];
    PutAll(header[..], Net(size));
    Copy(header, 0, Net(size));
    assert header[..4] == header[..];
    var first := c.Send(header, 4);
    var buffer := new byte[size];
    PutAll(buffer[..], Encode(little, config.servers));
    config.Marshal(buffer, little);
    assert buffer[..size] == buffer[..];
    r := c.Send(buffer, size);
  }

  /** The stream starts with a whole frame. */
  predicate FrameIn(s: seq<byte>) { 4 <= |s| && 4 + FromNet(s[..4]) <= |s| }

  function FrameSize(s: seq<byte>): nat
    requires FrameIn(s)
  {
    4 + FromNet(s[..4])
  }

  /** What the first frame says; None when its records point outside it. */
  function ReadFrame(little: bool, s: seq<byte>): Option<Servers>
    requires FrameIn(s)
  {
    match Decode(little, s[4..FrameSize(s)])
    case None => None
    case Some((es, more)) => Some(Fill(map[], es))
  }

  /**
   ClientStub::receiveServerConfig: a failed read leaves the configuration
   empty. After a failed header the code reads on with whatever length its
   buffer held.
   */
  method ReceiveServerConfig(c: Connection, little: bool) returns (config: ServerConfig)
    modifies c`stream, c`closed
    ensures fresh(config)
    ensures c.closed && !old(c.closed) ==> config.servers == map[]
    ensures !c.closed && !old(c.closed) ==>
              && FrameIn(old(c.stream))
              && c.stream == old(c.stream)[FrameSize(old(c.stream))..]
              && match ReadFrame(little, old(c.stream))
                 case Some(m) => config.servers == m
                 case None => true
    ensures c.reliable && !old(c.closed) && FrameIn(old(c.stream)) ==> !c.closed
  {
    config := new ServerConfig();
    var header := new byte[4];
    var r := c.Recv(header, 4);
    if r == 0 {
      var held: seq<byte> := *;
      if |held| == 4 { Copy(header, 0, held); }
    }
    var size := FromNet(header[..4]);
    var buffer := new byte[size];
    r := c.Recv(buffer, size);
    if r == 1 && size >= 4 {
      assert buffer[..] == buffer[..size] == old(c.stream)[4..][..size] == old(c.stream)[4..4 + size];
      var ok := config.Unmarshal(buffer, little);
    }
  }

  /** A frame is read back as the map it was made from, leaving what follows it. */
  lemma FrameRoundTrip(little: bool, m: Servers, more: seq<byte>)
    requires Sendable(m) && IsUint32(ConfigSize(m))
    ensures var s := Frame(little, m) + more;
            FrameIn(s) && s[FrameSize(s)..] == more && ReadFrame(little, s) == Some(m)
  {
    var s, body, size := Frame(little, m) + more, Encode(little, m), ConfigSize(m);
    assert s[..4] == Net(size);
    NetRoundTrip(size);
    assert s[4..4 + size] == body == body + [];
    assert s[4 + size..] == more;
    ConfigRoundTrip(little, m, []);
  }

  /** Through the length-prefixed framing, for any chunks, on hosts of one byte order. */
  method SendAndReceive(c: Connection, config: ServerConfig, little: bool) returns (copy: ServerConfig)
    requires Sendable(config.servers) && IsUint32(ConfigSize(config.servers))
    requires c.reliable && !c.closed
    requires c.stream == []
    modifies c`stream, c`closed, c`stalls
    ensures fresh(copy) && copy.servers == config.servers
    ensures c.stream == [] && !c.closed
  {
    ghost var m := config.servers;
    FrameRoundTrip(little, m, []);
    var r := SendServerConfig(c, config, little);
    assert c.stream == Frame(little, m) + [];
    copy := ReceiveServerConfig(c, little);
  }
}
