/**
  Building and reading RTCP datagrams: the packets of RFC 3550 (sections 6.1, 6.4.1 and 6.5), the picture loss
  indication of RFC 4585 (section 6.3.1) and the full intra request of RFC 5104 (section 4.3.1).
 */
module Rtcp {

  type Byte = x: int | 0 <= x < 256

  const SR := 200
  const SDES := 202
  const PSFB := 206
  const LEGACY_FIR := 192
  const PLI_FORMAT := 1
  const FIR_FORMAT := 4
  const PADDING_BIT := 32

  datatype Packet = Packet(format: int, kind: int, payload: seq<Byte>)

  datatype Keyframe = Pli | Fir

  // ------------------------------------------------------------------ numbers in network order

  function FromU16(hi: Byte, lo: Byte): (r: int)
    ensures 0 <= r < 0x1_0000
  {
    hi as int * 256 + lo as int
  }

  function U16(n: int): (r: seq<Byte>)
    requires 0 <= n < 0x1_0000
    ensures |r| == 2 && FromU16(r[0], r[1]) == n
  {
    [n / 256, n % 256]
  }

  /** The low 32 bits, also of a negative number. */
  function U32(n: int): (r: seq<Byte>)
    ensures |r| == 4
  {
    var m := n % 0x1_0000_0000;
    assert m / 0x1_0000 < 0x1_0000;
    U16(m / 0x1_0000) + U16(m % 0x1_0000)
  }

  lemma U32Value(n: int)
    ensures FromU32(U32(n)) == n % 0x1_0000_0000
  {
    var m := n % 0x1_0000_0000;
    assert (m / 0x1_0000) * 0x1_0000 + m % 0x1_0000 == m;
  }

  function FromU32(b: seq<Byte>): int
    requires |b| == 4
  {
    FromU16(b[0], b[1]) * 0x1_0000 + FromU16(b[2], b[3])
  }

  // ------------------------------------------------------------------ packets

  /** What the header can say: five bits of format, and a payload of whole words, at most 65535 of them. */
  predicate WellFormed(p: Packet) {
    0 <= p.format < 32 && 0 <= p.kind < 256 && |p.payload| % 4 == 0 && |p.payload| / 4 < 0x1_0000
  }

  function Encode(p: Packet): (r: seq<Byte>)
    requires WellFormed(p)
    ensures |r| == |p.payload| + 4
  {
    [128 + p.format, p.kind] + U16(|p.payload| / 4) + p.payload
  }

  function EncodeAll(ps: seq<Packet>): seq<Byte>
    requires forall k :: 0 <= k < |ps| ==> WellFormed(ps[k])
  {
    if ps == [] then [] else Encode(ps[0]) + EncodeAll(ps[1..])
  }

  /** A packet starts here, with a length the datagram covers. */
  predicate Starts(data: seq<Byte>) {
    4 <= |data| && data[0] / 64 == 2 && LengthOf(data) <= |data|
  }

  function LengthOf(data: seq<Byte>): int
    requires 4 <= |data|
  {
    (FromU16(data[2], data[3]) + 1) * 4
  }

  function FirstPacket(data: seq<Byte>): Packet
    requires Starts(data)
  {
    Packet(data[0] % 32, data[1], data[4..LengthOf(data)])
  }

  function Parse(data: seq<Byte>): seq<Packet>
    decreases |data|
  {
    if !Starts(data) then [] else [FirstPacket(data)] + Parse(data[LengthOf(data)..])
  }

  /** The packet that starts at an offset of the datagram, and where the next one starts. */
  lemma PacketAt(data: seq<Byte>, offset: nat, length: int)
    requires offset + 4 <= |data| && length == (FromU16(data[offset + 2], data[offset + 3]) + 1) * 4
    ensures Starts(data[offset..]) <==> data[offset] / 64 == 2 && offset + length <= |data|
    ensures Starts(data[offset..]) ==>
      Parse(data[offset..]) ==
        [Packet(data[offset] % 32, data[offset + 1], data[offset + 4..offset + length])] + Parse(data[offset + length..])
  {
    var here := data[offset..];
    assert LengthOf(here) == length;
    if Starts(here) {
      assert here[length..] == data[offset + length..];
      assert here[4..length] == data[offset + 4..offset + length];
    }
  }

  /** What the loop reads as the length of a packet at this offset. */
  function LengthAt(data: seq<Byte>, offset: nat): (r: nat)
    requires offset + 4 <= |data|
    ensures 4 <= r
  {
    (FromU16(data[offset + 2], data[offset + 3]) + 1) * 4
  }

  /** The packets up to this offset have been read. */
  predicate ReadUpTo(data: seq<Byte>, r: seq<Packet>, offset: nat, all: seq<Packet>) {
    offset <= |data| && r + Parse(data[offset..]) == all
  }

  predicate PacketHere(data: seq<Byte>, offset: nat) {
    offset + 4 <= |data| && data[offset] / 64 == 2 && offset + LengthAt(data, offset) <= |data|
  }

  function Cut(data: seq<Byte>, offset: nat): Packet
    requires PacketHere(data, offset)
  {
    Packet(data[offset] % 32, data[offset + 1], data[offset + 4..offset + LengthAt(data, offset)])
  }

  /** Reading on: what was read, the packet here, and what is left. */
  lemma ReadOn(data: seq<Byte>, r: seq<Packet>, offset: nat, all: seq<Packet>)
    requires PacketHere(data, offset) && ReadUpTo(data, r, offset, all)
    ensures ReadUpTo(data, r + [Cut(data, offset)], offset + LengthAt(data, offset), all)
  {
    PacketAt(data, offset, LengthAt(data, offset));
    Regrouped(r, Cut(data, offset), Parse(data[offset + LengthAt(data, offset)..]));
  }

  lemma ReadAll(data: seq<Byte>, r: seq<Packet>, offset: nat, all: seq<Packet>)
    requires ReadUpTo(data, r, offset, all) && !PacketHere(data, offset)
    ensures r == all
  {
    assert !Starts(data[offset..]);
  }

  lemma Regrouped(a: seq<Packet>, p: Packet, b: seq<Packet>)
    ensures a + ([p] + b) == (a + [p]) + b
  {
  }

  lemma NothingRead(data: seq<Byte>)
    ensures ReadUpTo(data, [], 0, Parse(data))
  {
    assert data[0..] == data;
  }

  /** iter_rtcp_packets(). */
  method Packets(data: seq<Byte>) returns (r: seq<Packet>)
    ensures r == Parse(data)
  {
    r := [];
    var offset: nat := 0;
    NothingRead(data);
    ghost var all := Parse(data);
    while offset + 4 <= |data|
      invariant ReadUpTo(data, r, offset, all)
      decreases |data| - offset
    {
      var length := LengthAt(data, offset);
      if data[offset] / 64 != 2 || length < 4 || offset + length > |data| {
        break;
      }
      ReadOn(data, r, offset, all);
      r := r + [Cut(data, offset)];
      offset := offset + length;
    }
    ReadAll(data, r, offset, all);
  }

  /** A packet in front of anything is read back, and what follows is read as if alone. */
  lemma ParseFirst(p: Packet, rest: seq<Byte>)
    requires WellFormed(p)
    ensures Parse(Encode(p) + rest) == [p] + Parse(rest)
  {
    var data := Encode(p) + rest;
    assert data[0] == 128 + p.format && data[1] == p.kind;
    assert data[2] == U16(|p.payload| / 4)[0] && data[3] == U16(|p.payload| / 4)[1];
    assert LengthOf(data) == |p.payload| + 4;
    assert data[4..LengthOf(data)] == p.payload;
    assert data[LengthOf(data)..] == rest;
  }

  lemma Joined(a: seq<Byte>, b: seq<Byte>, c: seq<Byte>)
    ensures (a + b) + c == a + (b + c)
  {
  }

  /** Parsing undoes building, for any list of packets, in front of anything. */
  lemma {:induction false} ParseUndoesEncode(ps: seq<Packet>, rest: seq<Byte>)
    requires forall k :: 0 <= k < |ps| ==> WellFormed(ps[k])
    ensures Parse(EncodeAll(ps) + rest) == ps + Parse(rest)
  {
    if ps == [] {
      assert EncodeAll(ps) + rest == rest;
    } else {
      var p, tail := ps[0], EncodeAll(ps[1..]);
      Joined(Encode(p), tail, rest);
      ParseFirst(p, tail + rest);
      ParseUndoesEncode(ps[1..], rest);
      HeadAndTail(ps, Parse(rest));
    }
  }

  lemma HeadAndTail(a: seq<Packet>, b: seq<Packet>)
    requires a != []
    ensures [a[0]] + (a[1..] + b) == a + b
  {
  }

  lemma ParseExactly(ps: seq<Packet>)
    requires forall k :: 0 <= k < |ps| ==> WellFormed(ps[k])
    ensures Parse(EncodeAll(ps)) == ps
  {
    ParseUndoesEncode(ps, []);
    assert EncodeAll(ps) + [] == EncodeAll(ps);
  }

  /** Equal, or equal but for the padding bit, which reading a packet drops. */
  predicate SameByte(built: Byte, sent: Byte) {
    built == sent || built + PADDING_BIT == sent
  }

  /** What was read, built again, is the datagram from its start on, but for padding bits. */
  lemma {:induction false} EncodeUndoesParse(data: seq<Byte>)
    ensures forall k :: 0 <= k < |Parse(data)| ==> WellFormed(Parse(data)[k])
    ensures var built := EncodeAll(Parse(data));
      && |built| <= |data| && forall i :: 0 <= i < |built| ==> SameByte(built[i], data[i])
    ensures !Starts(data[|EncodeAll(Parse(data))|..])
    decreases |data|
  {
    if Starts(data) {
      var n := LengthOf(data);
      var p, rest := FirstPacket(data), data[n..];
      EncodeUndoesParse(rest);
      HeaderAgain(data);
      var built, tail := Encode(p), EncodeAll(Parse(rest));
      assert EncodeAll(Parse(data)) == built + tail by {
        assert Parse(data)[1..] == Parse(rest);
      }
      forall i | 0 <= i < |built + tail|
        ensures SameByte((built + tail)[i], data[i])
      {
        if i >= n {
          assert rest[i - n] == data[i];
        }
      }
      assert data[|built + tail|..] == rest[|tail|..];
    } else {
      assert data[0..] == data;
    }
  }

  lemma U16Again(hi: Byte, lo: Byte)
    ensures U16(FromU16(hi, lo)) == [hi, lo]
  {
  }

  lemma HeaderAgain(data: seq<Byte>)
    requires Starts(data)
    ensures |Encode(FirstPacket(data))| == LengthOf(data)
    ensures forall i :: 0 <= i < LengthOf(data) ==> SameByte(Encode(FirstPacket(data))[i], data[i])
  {
    var n, p := LengthOf(data), FirstPacket(data);
    U16Again(data[2], data[3]);
    assert |p.payload| / 4 == FromU16(data[2], data[3]);
    assert Encode(p) == [128 + data[0] % 32, data[1]] + [data[2], data[3]] + data[4..n];
  }

  // ------------------------------------------------------------------ keyframe requests

  function RequestsIn(ps: seq<Packet>): seq<Keyframe> {
    if ps == [] then []
    else
      var p := ps[|ps| - 1];
      RequestsIn(ps[..|ps| - 1]) +
      if p.kind == PSFB && p.format == PLI_FORMAT then [Pli]
      else if (p.kind == PSFB && p.format == FIR_FORMAT) || p.kind == LEGACY_FIR then [Fir]
      else []
  }

  method KeyframeRequests(data: seq<Byte>) returns (requests: seq<Keyframe>)
    ensures requests == RequestsIn(Parse(data))
  {
    var ps := Packets(data);
    requests := [];
    var k := 0;
    while k < |ps|
      invariant 0 <= k <= |ps| && requests == RequestsIn(ps[..k])
    {
      assert ps[..k + 1][..k] == ps[..k];
      var p := ps[k];
      if p.kind == PSFB && p.format == PLI_FORMAT {
        requests := requests + [Pli];
      } else if p.kind == PSFB && p.format == FIR_FORMAT {
        requests := requests + [Fir];
      } else if p.kind == LEGACY_FIR {
        requests := requests + [Fir];
      }
      k := k + 1;
    }
    assert ps[..|ps|] == ps;
  }

  lemma {:induction false} RequestsDistribute(a: seq<Packet>, b: seq<Packet>)
    ensures RequestsIn(a + b) == RequestsIn(a) + RequestsIn(b)
  {
    if b == [] {
      assert a + b == a;
    } else {
      var n := |b| - 1;
      RequestsDistribute(a, b[..n]);
      assert (a + b)[..|a + b| - 1] == a + b[..n];
    }
  }

  /** The requests in a compound datagram are those of its parts, in order. */
  lemma RequestsOfCompound(ps: seq<Packet>, rest: seq<Byte>)
    requires forall k :: 0 <= k < |ps| ==> WellFormed(ps[k])
    ensures RequestsIn(Parse(EncodeAll(ps) + rest)) == RequestsIn(Parse(EncodeAll(ps))) + RequestsIn(Parse(rest))
  {
    ParseUndoesEncode(ps, rest);
    ParseExactly(ps);
    RequestsDistribute(ps, Parse(rest));
  }

  // ------------------------------------------------------------------ the builders

  function PliOf(sender: seq<Byte>, media: seq<Byte>): seq<Byte> {
    [128 + PLI_FORMAT, PSFB] + U16(2) + sender + media
  }

  function BuildPli(sender: int, media: int): seq<Byte> {
    PliOf(U32(sender), U32(media))
  }

  function FirOf(sender: seq<Byte>, zero: seq<Byte>, media: seq<Byte>, command: seq<Byte>): seq<Byte> {
    [128 + FIR_FORMAT, PSFB] + U16(4) + sender + zero + media + command
  }

  function BuildFir(sender: int, media: int, sequence: int): seq<Byte> {
    FirOf(U32(sender), U32(0), U32(media), U32((sequence % 256) * 0x100_0000))
  }

  function SrOf(media: seq<Byte>, clock: seq<Byte>, counts: seq<Byte>): seq<Byte> {
    [128, SR] + U16(6) + media + clock + counts
  }

  /** A sender report; the clock is a parameter. */
  function BuildSr(media: int, ntpSeconds: int, ntpFraction: int, rtpTime: int): seq<Byte> {
    SrOf(U32(media), U32(ntpSeconds) + U32(ntpFraction) + U32(rtpTime), U32(0) + U32(0))
  }

  function Zeros(n: nat): (r: seq<Byte>)
    ensures |r| == n && forall k :: 0 <= k < n ==> r[k] == 0
  {
    seq(n, _ => 0)
  }

  /** Other characters than ASCII are replaced, and what is longer than the length byte can say is cut. */
  function Ascii(cname: string): (r: seq<Byte>)
    ensures |r| == if |cname| < 255 then |cname| else 255
    ensures forall k :: 0 <= k < |r| ==> r[k] == if cname[k] as int < 128 then cname[k] as int else '?' as int
  {
    var n := if |cname| < 255 then |cname| else 255;
    seq(n, k requires 0 <= k < n => if cname[k] as int < 128 then cname[k] as int else '?' as int)
  }

  function Padding(n: nat): (r: nat)
    ensures r < 4 && (n + r) % 4 == 0
  {
    (4 - n % 4) % 4
  }

  function ToWords(body: seq<Byte>): (r: seq<Byte>)
    ensures |r| % 4 == 0 && |r| < |body| + 4 && body <= r
  {
    body + Zeros(Padding(|body|))
  }

  function Chunk(source: seq<Byte>, length: Byte, name: seq<Byte>): (r: seq<Byte>)
    ensures |r| == |source| + |name| + 3
  {
    source + [1, length] + name + [0]
  }

  function SdesBody(media: int, name: seq<Byte>): (r: seq<Byte>)
    requires |name| <= 255
    ensures |r| % 4 == 0 && |r| < 0x1_0000
  {
    ToWords(Chunk(U32(media), |name|, name))
  }

  function Described(body: seq<Byte>): seq<Byte>
    requires |body| % 4 == 0 && |body| < 0x1_0000
  {
    [128 + 1, SDES] + U16((|body| + 4) / 4 - 1) + body
  }

  function BuildSdes(media: int, cname: string): seq<Byte> {
    Described(SdesBody(media, Ascii(cname)))
  }

  /** Each builder makes one well-formed packet and nothing else. */
  lemma PliIsPacket(sender: seq<Byte>, media: seq<Byte>)
    requires |sender| == |media| == 4
    ensures var p := Packet(PLI_FORMAT, PSFB, sender + media); WellFormed(p) && PliOf(sender, media) == Encode(p)
  {
  }

  lemma FirIsPacket(sender: seq<Byte>, zero: seq<Byte>, media: seq<Byte>, command: seq<Byte>)
    requires |sender| == |zero| == |media| == |command| == 4
    ensures var p := Packet(FIR_FORMAT, PSFB, sender + zero + media + command);
      WellFormed(p) && FirOf(sender, zero, media, command) == Encode(p)
  {
  }

  lemma SrIsPacket(media: seq<Byte>, clock: seq<Byte>, counts: seq<Byte>)
    requires |media| == 4 && |clock| == 12 && |counts| == 8
    ensures var p := Packet(0, SR, media + clock + counts); WellFormed(p) && SrOf(media, clock, counts) == Encode(p)
  {
  }

  lemma SdesIsPacket(media: int, cname: string)
    ensures var p := Packet(1, SDES, SdesBody(media, Ascii(cname))); WellFormed(p) && BuildSdes(media, cname) == Encode(p)
  {
    HeaderedIsPacket(SdesBody(media, Ascii(cname)));
  }

  lemma HeaderedIsPacket(body: seq<Byte>)
    requires |body| % 4 == 0 && |body| < 0x1_0000
    ensures WellFormed(Packet(1, SDES, body))
    ensures Described(body) == Encode(Packet(1, SDES, body))
  {
    assert (|body| + 4) / 4 - 1 == |body| / 4;
  }

  lemma ParseOne(p: Packet)
    requires WellFormed(p)
    ensures Parse(Encode(p)) == [p]
  {
    ParseFirst(p, []);
    assert Encode(p) + [] == Encode(p);
  }

  /** A picture loss indication is read as one, and names the media source it was built for. */
  lemma PliRoundTrip(sender: int, media: int)
    ensures var ps := Parse(BuildPli(sender, media));
      && |ps| == 1 && RequestsIn(ps) == [Pli] && ps[0].kind == 206 && ps[0].format == 1 && |ps[0].payload| == 8
      && FromU32(ps[0].payload[..4]) == sender % 0x1_0000_0000 && FromU32(ps[0].payload[4..]) == media % 0x1_0000_0000
  {
    PliIsPacket(U32(sender), U32(media));
    var p := Packet(PLI_FORMAT, PSFB, U32(sender) + U32(media));
    U32Value(sender);
    U32Value(media);
    ParseOne(p);
    OneRequest(p);
    assert p.payload[..4] == U32(sender) && p.payload[4..] == U32(media);
  }

  lemma Shifted(n: int)
    requires 0 <= n < 256
    ensures var m := n * 0x100_0000;
      && m % 0x1_0000_0000 == m && m / 0x1_0000 == n * 256 && m % 0x1_0000 == 0
      && (n * 256) / 256 == n && (n * 256) % 256 == 0
  {
  }

  lemma TopByte(n: int)
    requires 0 <= n < 256
    ensures U32(n * 0x100_0000) == [n, 0, 0, 0]
  {
    Shifted(n);
    assert U32(n * 0x100_0000) == U16(n * 256) + U16(0);
  }

  lemma FirRoundTrip(sender: int, media: int, sequence: int)
    ensures var ps := Parse(BuildFir(sender, media, sequence));
      && |ps| == 1 && RequestsIn(ps) == [Fir] && ps[0].kind == 206 && ps[0].format == 4 && |ps[0].payload| == 16
      && FromU32(ps[0].payload[..4]) == sender % 0x1_0000_0000 && FromU32(ps[0].payload[4..8]) == 0
      && FromU32(ps[0].payload[8..12]) == media % 0x1_0000_0000
      && ps[0].payload[12] == sequence % 256 && ps[0].payload[13..] == [0, 0, 0]
  {
    TopByte(sequence % 256);
    U32Value(media);
    var command := U32((sequence % 256) * 0x100_0000);
    FirIsPacket(U32(sender), U32(0), U32(media), command);
    var p := Packet(FIR_FORMAT, PSFB, U32(sender) + U32(0) + U32(media) + command);
    ParseOne(p);
    OneRequest(p);
    U32Value(sender);
    U32Value(0);
    assert p.payload[..4] == U32(sender) && p.payload[4..8] == U32(0) && p.payload[8..12] == U32(media);
    assert forall k :: 0 <= k < 4 ==> p.payload[12 + k] == command[k];
  }

  /** What asks for a keyframe: the two payload-specific feedback messages, and the intra request of RFC 2032. */
  lemma OneRequest(p: Packet)
    ensures RequestsIn([p]) == [Pli] <==> p.kind == 206 && p.format == 1
    ensures RequestsIn([p]) == [Fir] <==> (p.kind == 206 && p.format == 4) || p.kind == 192
    ensures RequestsIn([p]) == [] || |RequestsIn([p])| == 1
  {
    assert [p][..0] == [];
    var r := if p.kind == 206 && p.format == 1 then [Pli]
             else if (p.kind == 206 && p.format == 4) || p.kind == 192 then [Fir] else [];
    assert RequestsIn([p]) == RequestsIn([]) + r == r;
  }

  lemma EncodeTwo(p: Packet, q: Packet)
    requires WellFormed(p) && WellFormed(q)
    ensures EncodeAll([p, q]) == Encode(p) + Encode(q)
  {
    assert [p, q][1..] == [q] && [q][1..] == [];
    assert EncodeAll([q]) == Encode(q) + EncodeAll([]);
  }

  /** A sender report says its source and the times it was built for, and counts no packets and no bytes. */
  lemma SrFields(media: int, ntpSeconds: int, ntpFraction: int, rtpTime: int)
    ensures var ps := Parse(BuildSr(media, ntpSeconds, ntpFraction, rtpTime));
      && |ps| == 1 && ps[0].kind == 200 && ps[0].format == 0 && |ps[0].payload| == 24
      && FromU32(ps[0].payload[..4]) == media % 0x1_0000_0000
      && FromU32(ps[0].payload[4..8]) == ntpSeconds % 0x1_0000_0000
      && FromU32(ps[0].payload[8..12]) == ntpFraction % 0x1_0000_0000
      && FromU32(ps[0].payload[12..16]) == rtpTime % 0x1_0000_0000
      && FromU32(ps[0].payload[16..20]) == 0 && FromU32(ps[0].payload[20..]) == 0
  {
    var clock, counts := U32(ntpSeconds) + U32(ntpFraction) + U32(rtpTime), U32(0) + U32(0);
    SrIsPacket(U32(media), clock, counts);
    var p := Packet(0, SR, U32(media) + clock + counts);
    ParseOne(p);
    U32Value(media);
    U32Value(ntpSeconds);
    U32Value(ntpFraction);
    U32Value(rtpTime);
    U32Value(0);
    Fields(U32(media), U32(ntpSeconds), U32(ntpFraction), U32(rtpTime), U32(0));
  }

  lemma Fields(a: seq<Byte>, b: seq<Byte>, c: seq<Byte>, d: seq<Byte>, e: seq<Byte>)
    requires |a| == |b| == |c| == |d| == |e| == 4
    ensures var all := a + (b + c + d) + (e + e);
      all[..4] == a && all[4..8] == b && all[8..12] == c && all[12..16] == d && all[16..20] == e && all[20..] == e
  {
    var all := a + (b + c + d) + (e + e);
    Field(a, b + c + d + (e + e), [], all, 0);
    Field(b, c + d + (e + e), a, all, 4);
    Field(c, d + (e + e), a + b, all, 8);
    Field(d, e + e, a + b + c, all, 12);
    Field(e, e, a + b + c + d, all, 16);
    Field(e, [], a + b + c + d + e, all, 20);
  }

  lemma Field(field: seq<Byte>, behind: seq<Byte>, before: seq<Byte>, all: seq<Byte>, at: nat)
    requires |field| == 4 && |before| == at && all == before + field + behind
    ensures all[at..at + 4] == field
  {
  }

  /**
    A sender report followed by a source description is exactly two packets, with no byte left over,
    whatever the length of the canonical name; and the name is found in it.
   */
  lemma SrAndSdes(media: int, ntpSeconds: int, ntpFraction: int, rtpTime: int, cname: string)
    ensures var data := BuildSr(media, ntpSeconds, ntpFraction, rtpTime) + BuildSdes(media, cname);
      var ps := Parse(data);
      && |ps| == 2 && WellFormed(ps[0]) && WellFormed(ps[1]) && EncodeAll(ps) == data && RequestsIn(ps) == []
      && ps[0].kind == SR && |ps[0].payload| == 24 && ps[1].kind == SDES && ps[1].payload == SdesBody(media, Ascii(cname))
  {
    var clock, counts := U32(ntpSeconds) + U32(ntpFraction) + U32(rtpTime), U32(0) + U32(0);
    SrIsPacket(U32(media), clock, counts);
    SdesIsPacket(media, cname);
    TwoPackets(Packet(0, SR, U32(media) + clock + counts), Packet(1, SDES, SdesBody(media, Ascii(cname))));
  }

  lemma TwoPackets(p: Packet, q: Packet)
    requires WellFormed(p) && WellFormed(q) && p.kind == SR && q.kind == SDES
    ensures Parse(Encode(p) + Encode(q)) == [p, q] && EncodeAll([p, q]) == Encode(p) + Encode(q) && RequestsIn([p, q]) == []
  {
    ParseFirst(p, Encode(q));
    ParseOne(q);
    assert [p] + [q] == [p, q];
    EncodeTwo(p, q);
    RequestsDistribute([p], [q]);
    OneRequest(p);
    OneRequest(q);
  }

  /** The description's chunk: its source, one CNAME item with its length, an end, and zeros to the next word. */
  lemma SdesChunk(media: int, name: seq<Byte>)
    requires |name| <= 255
    ensures var body := SdesBody(media, name); var n := |name|;
      && FromU32(body[..4]) == media % 0x1_0000_0000 && body[4] == 1 && body[5] == n && body[6..6 + n] == name
      && (forall k :: 6 + n <= k < |body| ==> body[k] == 0) && 6 + n < |body| <= 6 + n + 4
  {
    var body, n := SdesBody(media, name), |name|;
    U32Value(media);
    var start := Chunk(U32(media), n, name);
    assert body[..4] == start[..4] == U32(media);
    assert forall k :: 0 <= k < |start| ==> body[k] == start[k];
    assert start[6..6 + n] == name;
  }
}
