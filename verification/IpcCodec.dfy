/** The daemon's IPC frames: [u32 length][u16 type][payload], length = 2 + payload octets. */
module IpcCodec {
  import opened Bytes
  import opened Incremental
  import SpacePacket

  const COMMAND: word := 10
  const QUERY: word := 11
  const PACKET_SEND: word := 13

  datatype Frame = Frame(kind: word, payload: bytes)

  // 32-bit arithmetic.
  function LengthField(size: nat): nat {
    (2 + size % TWO_32) % TWO_32
  }

  function Encode(f: Frame): bytes {
    BigEndian(LengthField(|f.payload|), 4) + BigEndian(f.kind, 2) + f.payload
  }

  // Overrun: the 32-bit sum 4 + length wraps, so the size test passes, but the octets are not all there;
  // what the program does then is not defined.
  datatype Decoded = NotYet | Overrun | Got(frame: Frame, width: nat)

  function KindOf(s: bytes): word
    requires |s| == 2
  {
    var hi: int, lo: int := s[0], s[1];
    256 * hi + lo
  }

  function DecodeOne(s: bytes): Decoded {
    if |s| < 4 then NotYet
    else
      var length := Number(s[..4]);
      if length < 2 then NotYet
      else if |s| < (4 + length) % TWO_32 then NotYet
      else if |s| < 4 + length then Overrun
      else Got(Frame(KindOf(s[4..6]), s[6..4 + length]), 4 + length)
  }

  function Scan(s: bytes): Action<Frame> {
    match DecodeOne(s)
    case Got(f, n) => Emit(f, n)
    case _ => Wait
  }

  lemma ScanStable(s: bytes, t: bytes)
    ensures Stable(Scan, s, t)
  {
    if !Scan(s).Wait? {
      var n := Scan(s).width;
      assert (s + t)[..4] == s[..4] && (s + t)[4..6] == s[4..6] && (s + t)[6..n] == s[6..n];
    }
  }

  lemma ScanLawful()
    ensures Lawful(Scan)
  {
    forall s ensures Consumes(Scan, s) {}
    forall s, t ensures Stable(Scan, s, t) { ScanStable(s, t); }
  }

  // The frames and the undecodable rest of a whole stream.
  ghost function Frames(s: bytes): Parsed<Frame> {
    ScanLawful();
    Parse(Scan, s)
  }

  // Frames are taken off the front one by one.
  lemma FramesStep(s: bytes)
    ensures DecodeOne(s).Got? ==> 6 <= DecodeOne(s).width <= |s|
    ensures Frames(s) == match DecodeOne(s)
      case Got(f, n) => var p := Frames(s[n..]); p.(items := [f] + p.items)
      case _ => Parsed([], 0, s)
  {
    ScanLawful();
  }

  predicate IsHandled(f: Frame) {
    f.kind == COMMAND || f.kind == QUERY || f.kind == PACKET_SEND
  }

  function Handled(fs: seq<Frame>): seq<Frame> {
    if fs == [] then []
    else (if IsHandled(fs[0]) then [fs[0]] else []) + Handled(fs[1..])
  }

  lemma {:induction false} HandledAppend(a: seq<Frame>, b: seq<Frame>)
    ensures Handled(a + b) == Handled(a) + Handled(b)
  {
    hide IsHandled;
    if a == [] {
      assert a + b == b;
    } else {
      var h := if IsHandled(a[0]) then [a[0]] else [];
      assert (a + b)[1..] == a[1..] + b;
      HandledAppend(a[1..], b);
      Regrouped(h, Handled(a[1..]), Handled(b));
    }
  }

  // What any length field, type and following octets decode to.
  lemma DecodeParts(length: nat, kind: word, c: bytes)
    requires length < TWO_32
    ensures DecodeOne(BigEndian(length, 4) + BigEndian(kind, 2) + c)
      == if length < 2 then NotYet
         else if 2 + |c| < length then (if 6 + |c| < (4 + length) % TWO_32 then NotYet else Overrun)
         else Got(Frame(kind, c[..length - 2]), 4 + length)
  {
    NumberOf32(length);
    KindOfBigEndian(kind);
    var a, b := BigEndian(length, 4), BigEndian(kind, 2);
    hide BigEndian, Number, KindOf;
    ThreeParts(a, b, c);
    var s := a + b + c;
    assert length >= 2 && 4 + length <= |s| ==> s[6..4 + length] == s[6..][..length - 2];
  }

  // A frame on the wire, octet by octet: 2 + payload in four, the type in two, then the payload.
  lemma FrameLayout(f: Frame)
    requires |f.payload| + 2 < TWO_32
    ensures var n, kind: int := |f.payload| + 2, f.kind;
      Encode(f) == [n / 0x100_0000, n / 0x1_0000 % 256, n / 256 % 256, n % 256, kind / 256, kind % 256] + f.payload
  {
    hide BigEndian, LengthField;
    LengthIff(|f.payload|);
    Octets32(|f.payload| + 2);
    Octets16(f.kind);
    FirstOctets(|f.payload| + 2, f.kind);
    SixOctets(BigEndian(|f.payload| + 2, 4), BigEndian(f.kind, 2));
  }

  lemma FirstOctets(n: nat, kind: word)
    requires n < TWO_32
    ensures n / 0x100_0000 % 256 == n / 0x100_0000 && (kind as int) / 256 % 256 == (kind as int) / 256
  {
  }

  lemma SixOctets(a: bytes, b: bytes)
    requires |a| == 4 && |b| == 2
    ensures a + b == [a[0], a[1], a[2], a[3], b[0], b[1]]
  {
  }

  // Which frames are handed over, by the numbers of their types.
  lemma HandledKinds(fs: seq<Frame>, f: Frame)
    ensures f in Handled(fs) <==> f in fs && f.kind in {10, 11, 13}
  {
  }

  // A frame that is there as a whole is read back exactly when its length field does not overflow.
  lemma RoundTripExactly(f: Frame, rest: bytes)
    ensures DecodeOne(Encode(f) + rest) == Got(f, |Encode(f)|) <==> |f.payload| + 2 < TWO_32
    ensures |Encode(f)| == |f.payload| + 6
  {
    var n, length := |f.payload|, LengthField(|f.payload|);
    EncodedParts(f, rest);
    DecodeParts(length, f.kind, f.payload + rest);
    LengthIff(n);
    hide DecodeOne, Encode, LengthField;
    if n + 2 < TWO_32 {
      Halves(f.payload, rest);
    }
  }

  // The field says the payload's size exactly if it does not overflow; otherwise it says less.
  lemma LengthIff(n: nat)
    ensures if n + 2 < TWO_32 then LengthField(n) == n + 2 else LengthField(n) < n + 2
    ensures LengthField(n) < TWO_32
  {
    if n >= TWO_32 {
      assert n % TWO_32 < n;
    }
  }

  lemma EncodedParts(f: Frame, rest: bytes)
    ensures Encode(f) + rest
            == BigEndian(LengthField(|f.payload|), 4) + BigEndian(f.kind, 2) + (f.payload + rest)
    ensures |Encode(f)| == |f.payload| + 6
  {
    hide BigEndian;
    Regrouped(BigEndian(LengthField(|f.payload|), 4) + BigEndian(f.kind, 2), f.payload, rest);
  }

  lemma ThreeParts(a: bytes, b: bytes, c: bytes)
    ensures var s := a + b + c;
      s[..|a|] == a && s[|a|..|a| + |b|] == b && s[|a| + |b|..] == c
  {
  }

  lemma KindOfBigEndian(x: word)
    ensures KindOf(BigEndian(x, 2)) == x
  {
    Octets16(x);
  }

  function Wire(fs: seq<Frame>): bytes {
    if fs == [] then [] else Encode(fs[0]) + Wire(fs[1..])
  }

  predicate Sendable(f: Frame) {
    |f.payload| + 6 < TWO_32
  }

  lemma TakeFrame(f: Frame, rest: bytes)
    requires Sendable(f)
    ensures Frames(Encode(f) + rest) == Frames(rest).(items := [f] + Frames(rest).items)
  {
    ScanLawful();
    RoundTripExactly(f, rest);
    assert (Encode(f) + rest)[|Encode(f)|..] == rest;
  }

  lemma NothingWaits()
    ensures Scan([]).Wait?
  {
  }

  lemma UnfinishedWaits(next: Frame, k: nat)
    requires Sendable(next) && k < |Encode(next)|
    ensures DecodeOne(Encode(next)[..k]) == NotYet
  {
    RoundTripExactly(next, []);
    assert Encode(next) + [] == Encode(next);
    assert k >= 4 ==> Encode(next)[..k][..4] == Encode(next)[..4];
  }

  // It can also arrive in pieces exactly when 4 more than the length field does not overflow either.
  lemma SafeInPiecesIff(f: Frame)
    ensures Sendable(f) <==>
      (forall k | 0 <= k < |Encode(f)| :: DecodeOne(Encode(f)[..k]) == NotYet) && DecodeOne(Encode(f)) == Got(f, |Encode(f)|)
  {
    RoundTripExactly(f, []);
    assert Encode(f) + [] == Encode(f);
    if Sendable(f) {
      forall k | 0 <= k < |Encode(f)| ensures DecodeOne(Encode(f)[..k]) == NotYet {
        UnfinishedWaits(f, k);
      }
    } else if |f.payload| + 2 < TWO_32 {
      HeaderOverruns(f);
      assert DecodeOne(Encode(f)[..4]) != NotYet;
    }
  }

  // The first four octets alone already pass the size test.
  lemma HeaderOverruns(f: Frame)
    requires |f.payload| + 2 < TWO_32 <= |f.payload| + 6
    ensures |Encode(f)| >= 4 && DecodeOne(Encode(f)[..4]) == Overrun
  {
    var length := |f.payload| + 2;
    LengthIff(|f.payload|);
    NumberOf32(length);
    assert Encode(f)[..4] == BigEndian(length, 4);
    assert BigEndian(length, 4)[..4] == BigEndian(length, 4);
  }

  // Concatenated frames followed by something undecodable come out exactly.
  lemma {:induction false} DecodesExactly(fs: seq<Frame>, tail: bytes)
    requires forall f :: f in fs ==> Sendable(f)
    requires Scan(tail).Wait?
    ensures Frames(Wire(fs) + tail) == Parsed(fs, 0, tail)
    decreases |fs|
  {
    hide Encode, Frames, DecodeOne, Sendable;
    if fs == [] {
      FramesStep(tail);
      assert Wire(fs) + tail == tail;
    } else {
      var first, later := Encode(fs[0]), Wire(fs[1..]) + tail;
      DecodesExactly(fs[1..], tail);
      TakeFrame(fs[0], later);
      assert Wire(fs) + tail == first + later;
    }
  }

  // Under any chunking, a fresh session reads concatenated frames and the beginning of another
  // as exactly those frames, and keeps the unfinished one.
  lemma DecodesUnderAnyChunking(fs: seq<Frame>, next: Frame, k: nat, chunks: seq<bytes>)
    requires forall f :: f in fs ==> Sendable(f)
    requires Sendable(next) && k < |Encode(next)|
    requires Concat(chunks) == Wire(fs) + Encode(next)[..k]
    ensures Lawful(Scan)
    ensures FeedAll(Scan, Parsed([], 0, []), chunks) == Parsed(fs, 0, Encode(next)[..k])
  {
    ScanLawful();
    ChunkingInvariance(Scan, [], chunks);
    UnfinishedWaits(next, k);
    DecodesExactly(fs, Encode(next)[..k]);
    assert [] + Concat(chunks) == Wire(fs) + Encode(next)[..k];
  }

  // What a session gives its handler, read by read.
  ghost function HandedOver(inbox: bytes, chunks: seq<bytes>): seq<Frame>
    decreases |chunks|
  {
    if chunks == [] then []
    else Handled(Frames(inbox + chunks[0]).items) + HandedOver(Frames(inbox + chunks[0]).rest, chunks[1..])
  }

  // Reads in any pieces hand over the selection of the whole stream.
  lemma {:induction false} HandedOverIsHandled(inbox: bytes, chunks: seq<bytes>)
    requires Scan(inbox).Wait?
    ensures HandedOver(inbox, chunks) == Handled(Frames(inbox + Concat(chunks)).items)
    decreases |chunks|
  {
    ScanLawful();
    if chunks == [] {
      WaitingIsRest(Scan, inbox);
      assert inbox + Concat(chunks) == inbox;
    } else {
      var now, later := inbox + chunks[0], Concat(chunks[1..]);
      RestWaits(Scan, now);
      HandedOverIsHandled(Frames(now).rest, chunks[1..]);
      ParseSplit(Scan, now, later);
      hide Frames, Handled, Scan;
      Regrouped(inbox, chunks[0], later);
      HandledAppend(Frames(now).items, Frames(Frames(now).rest + later).items);
    }
  }

  lemma HandsOverExactly(fs: seq<Frame>, next: Frame, k: nat, chunks: seq<bytes>)
    requires forall f :: f in fs ==> Sendable(f)
    requires Sendable(next) && k < |Encode(next)|
    requires Concat(chunks) == Wire(fs) + Encode(next)[..k]
    ensures HandedOver([], chunks) == Handled(fs)
  {
    UnfinishedWaits(next, k);
    DecodesExactly(fs, Encode(next)[..k]);
    HandedOverIsHandled([], chunks);
    assert [] + Concat(chunks) == Wire(fs) + Encode(next)[..k];
  }

  /* Packet notifications. */

  function PackMeta(time: nat, m: SpacePacket.Meta, text: bytes): bytes {
    BigEndian(time, 8)
    + [m.version, m.kind, m.secondary, m.flags]
    + BigEndian(m.apid, 2) + BigEndian(m.sequence, 2) + BigEndian(m.length, 2)
    + [m.service, m.subservice]
    + BigEndian(|text| % 0x1_0000, 2) + text
  }

  // A notification, octet by octet.
  lemma MetaLayout(time: nat, m: SpacePacket.Meta, text: bytes)
    ensures var apid: int, count: int, length: int, size := m.apid, m.sequence, m.length, |text|;
      PackMeta(time, m, text) == BigEndian(time, 8)
        + [m.version, m.kind, m.secondary, m.flags, apid / 256, apid % 256, count / 256, count % 256, length / 256, length % 256,
           m.service, m.subservice, size / 256 % 256, size % 256]
        + text
  {
    Octets16(m.apid);
    Octets16(m.sequence);
    Octets16(m.length);
    Octets16(|text| % 0x1_0000);
    hide BigEndian;
    LowOctets(|text|);
    Fourteen(BigEndian(time, 8), [m.version, m.kind, m.secondary, m.flags], BigEndian(m.apid, 2), BigEndian(m.sequence, 2),
             BigEndian(m.length, 2), [m.service, m.subservice], BigEndian(|text| % 0x1_0000, 2), text);
  }

  lemma LowOctets(x: nat)
    ensures x % 0x1_0000 / 256 % 256 == x / 256 % 256 && x % 0x1_0000 % 256 == x % 256
  {
  }

  lemma Fourteen(t: bytes, h: bytes, a: bytes, b: bytes, c: bytes, s: bytes, n: bytes, text: bytes)
    requires |h| == 4 && |a| == 2 && |b| == 2 && |c| == 2 && |s| == 2 && |n| == 2
    ensures t + h + a + b + c + s + n + text
            == t + [h[0], h[1], h[2], h[3], a[0], a[1], b[0], b[1], c[0], c[1], s[0], s[1], n[0], n[1]] + text
  {
  }

  function UnpackMeta(p: bytes): Option<(nat, SpacePacket.Meta, bytes)> {
    if |p| < 22 then None
    else
      var size := KindOf(p[20..22]);
      if |p| < 22 + size then None
      else Some((Number(p[..8]),
                 SpacePacket.Meta(p[8], p[9], p[10], p[11], KindOf(p[12..14]), KindOf(p[14..16]), KindOf(p[16..18]),
                                  p[18], p[19]),
                 p[22..22 + size]))
  }

  // The size of the text travels in 16 bits: all other fields survive, and so does the text
  // exactly when it is shorter than 65536 octets.
  lemma MetaRoundTrip(time: nat, m: SpacePacket.Meta, text: bytes)
    requires time < TWO_32 * TWO_32
    ensures UnpackMeta(PackMeta(time, m, text)) == Some((time, m, text[..|text| % 0x1_0000]))
    ensures UnpackMeta(PackMeta(time, m, text)) == Some((time, m, text)) <==> |text| < 0x1_0000
  {
    var p := PackMeta(time, m, text);
    var size := |text| % 0x1_0000;
    Fits64(time);
    NumberOfBigEndian(time, 8);
    KindOfBigEndian(m.apid);
    KindOfBigEndian(m.sequence);
    KindOfBigEndian(m.length);
    KindOfBigEndian(size);
    assert p[..8] == BigEndian(time, 8);
    assert p[12..14] == BigEndian(m.apid, 2);
    assert p[14..16] == BigEndian(m.sequence, 2);
    assert p[16..18] == BigEndian(m.length, 2);
    assert p[20..22] == BigEndian(size, 2);
    assert p[22..22 + size] == text[..size];
    assert |text[..size]| == size;
    assert size == |text| ==> text[..size] == text;
  }
}
