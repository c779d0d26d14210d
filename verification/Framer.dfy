/** The CCSDS byte-stream framer and its resynchronisation. */
module Framer {
  import opened Bytes
  import opened SpacePacket
  import opened Incremental

  // One decision of the framing loop on the unread octets.
  function Scan(s: bytes): Action<bytes> {
    if |s| < HEADER_SIZE then Wait
    else
      match DeclaredSize(s)
      case None => Drop(1)
      case Some(total) =>
        if total < 7 || total > 65542 then assert false; Wait // no declared size is outside these bounds
        else if |s| < total then Wait
        else Emit(s[..total], total)
  }

  lemma ScanStable(s: bytes, t: bytes)
    ensures Stable(Scan, s, t)
  {
    if !Scan(s).Wait? {
      assert DeclaredSize(s + t) == DeclaredSize(s);
      if Scan(s).Emit? {
        assert (s + t)[..Scan(s).width] == s[..Scan(s).width];
      }
    }
  }

  lemma ScanLawful()
    ensures Lawful(Scan)
  {
    forall s ensures Consumes(Scan, s) {}
    forall s, t ensures Stable(Scan, s, t) { ScanStable(s, t); }
  }

  // The packets, error count and residue of a whole stream.
  ghost function Frames(s: bytes): Parsed<bytes> {
    ScanLawful();
    Parse(Scan, s)
  }

  lemma FramesSplit(s: bytes, t: bytes)
    ensures Frames(s + t) == Then(Frames(s), Frames(Frames(s).rest + t))
  {
    ScanLawful();
    ParseSplit(Scan, s, t);
  }

  class CcsdsFramer {
    var acc: bytes
    var framingErrors: nat

    ghost predicate Valid()
      reads this
    {
      Scan(acc).Wait?
    }

    constructor ()
      ensures Valid() && acc == [] && framingErrors == 0
    {
      acc, framingErrors := [], 0;
    }

    // Returns the packets handed to the callback, in order.
    method PushBytes(data: bytes) returns (packets: seq<bytes>)
      requires Valid()
      modifies this
      ensures Valid()
      ensures framingErrors >= old(framingErrors)
      ensures Frames(old(acc) + data) == Parsed(packets, framingErrors - old(framingErrors), acc)
    {
      packets := [];
      ScanLawful();
      if data == [] {
        assert acc + data == acc;
        return;
      }
      acc := acc + data;
      ghost var whole := Frames(acc);
      while true
        invariant framingErrors >= old(framingErrors)
        invariant whole == Then(Parsed(packets, framingErrors - old(framingErrors), acc), Frames(acc))
        decreases |acc|
      {
        if |acc| < 6 { return; }
        var declared := DeclaredSize(acc);
        if declared.None? {
          framingErrors := framingErrors + 1;
          acc := acc[1..];
          continue;
        }
        var total := declared.value;
        if total < 7 || total > 65542 {
          assert false;
        }
        if |acc| < total { return; }
        var packet := acc[..total];
        acc := acc[total..];
        packets := packets + [packet];
      }
    }
  }

  // Pushing a stream in any pieces, from any earlier state, is one parse of everything seen.
  lemma ChunksAreOneStream(seen: bytes, chunks: seq<bytes>)
    ensures Lawful(Scan)
    ensures FeedAll(Scan, Frames(seen), chunks) == Frames(seen + Concat(chunks))
  {
    ScanLawful();
    ChunkingInvariance(Scan, seen, chunks);
  }

  // A fresh framer that has read part of a stream, in any pieces, has some of its packets.
  lemma PartOfStream(s: bytes, chunks: seq<bytes>)
    requires Concat(chunks) <= s
    ensures Lawful(Scan)
    ensures var seen := FeedAll(Scan, Parsed([], 0, []), chunks);
      seen.drops <= Frames(s).drops && seen.items <= Frames(s).items && (Concat(chunks) == s ==> seen == Frames(s))
  {
    var part := Concat(chunks);
    ChunksAreOneStream([], chunks);
    assert Frames([]) == Parsed([], 0, []);
    assert [] + part == part && part + s[|part|..] == s;
    ItemsGrow(Scan, part, s[|part|..]);
  }

  // Between pushes fewer than one packet is held, and the explicit size check is dead code.
  lemma ResidueBound(s: bytes)
    ensures var rest := Frames(s).rest;
      |rest| <= 65541 && (|rest| < 6 || (rest[0] < 32 && DeclaredSize(rest).Some? && |rest| < DeclaredSize(rest).value))
    ensures DeclaredSize(s).Some? ==> 7 <= DeclaredSize(s).value <= 65542
  {
    ScanLawful();
    RestWaits(Scan, s);
  }

  ghost function TotalSize(packets: seq<bytes>): nat {
    |Concat(packets)|
  }

  // Every octet is in a packet, dropped, or still held; every packet is whole.
  lemma {:induction false} Accounting(s: bytes)
    ensures TotalSize(Frames(s).items) + Frames(s).drops + |Frames(s).rest| == |s|
    ensures forall p :: p in Frames(s).items ==> IsPacket(p)
    decreases |s|
  {
    ScanLawful();
    match Scan(s)
    case Wait =>
    case Drop(n) => Accounting(s[n..]);
    case Emit(p, n) =>
      Accounting(s[n..]);
      var later := Frames(s[n..]).items;
      assert ([p] + later)[1..] == later;
  }

  // Stream position just after packet `i`.
  ghost function EndOf(s: bytes, i: nat): nat
    requires i < |Frames(s).items|
    decreases |s|
  {
    ScanLawful();
    match Scan(s)
    case Drop(n) => n + EndOf(s[n..], i)
    case Emit(_, n) => if i == 0 then n else n + EndOf(s[n..], i - 1)
  }

  lemma {:induction false} EndAtLeastSeven(s: bytes, i: nat)
    requires i < |Frames(s).items|
    ensures EndOf(s, i) >= 7
    decreases |s|
  {
    ScanLawful();
    if Scan(s).Drop? {
      EndAtLeastSeven(s[1..], i);
    }
  }

  lemma FramesStep(s: bytes)
    ensures Consumes(Scan, s)
    ensures Frames(s) == match Scan(s)
      case Wait => Parsed([], 0, s)
      case Drop(n) => var p := Frames(s[n..]); p.(drops := p.drops + n)
      case Emit(x, n) => var p := Frames(s[n..]); p.(items := [x] + p.items)
  {
    ScanLawful();
  }

  lemma FramesEnd(s: bytes, i: nat)
    requires i < |Frames(s).items|
    ensures EndOf(s, i) == match Scan(s)
      case Drop(n) => n + EndOf(s[n..], i)
      case Emit(_, n) => if i == 0 then n else n + EndOf(s[n..], i - 1)
  {
  }

  // With the header in, the beginning of a stream decides what the whole does, unless it cuts a packet.
  lemma ScanPrefix(s: bytes, k: nat)
    requires 6 <= k <= |s|
    ensures Scan(s[..k]) == if Scan(s).Emit? && k < Scan(s).width then Wait else Scan(s)
  {
    assert DeclaredSize(s[..k]) == DeclaredSize(s);
    if Scan(s).Emit? && Scan(s).width <= k {
      assert s[..k][..Scan(s).width] == s[..Scan(s).width];
    }
  }

  // A packet is out as soon as its last octet is in, and not before.
  lemma {:induction false} EmittedOnLastOctet(s: bytes, k: nat, i: nat)
    requires k <= |s| && i < |Frames(s).items|
    ensures i < |Frames(s[..k]).items| <==> EndOf(s, i) <= k
    decreases |s|
  {
    EndAtLeastSeven(s, i);
    FramesStep(s);
    FramesEnd(s, i);
    FramesStep(s[..k]);
    hide Frames, EndOf;
    if k < 6 {
      assert Scan(s[..k]).Wait?;
    } else {
      ScanPrefix(s, k);
      var n := Scan(s).width;
      assert Scan(s).Drop? ==> n == 1;
      hide Scan, DeclaredSize;
      if n <= k {
        PrefixRest(s, n, k);
        if Scan(s).Drop? {
          EmittedOnLastOctet(s[n..], k - n, i);
        } else if i > 0 {
          EmittedOnLastOctet(s[n..], k - n, i - 1);
        }
      } else {
        assert Scan(s[..k]).Wait?;
      }
    }
  }

  lemma PrefixRest(s: bytes, n: nat, k: nat)
    requires n <= k <= |s|
    ensures s[..k][n..] == s[n..][..k - n]
  {
  }

  // Octets that can never start a version-0 header.
  predicate IsNoise(s: bytes) {
    forall i :: 0 <= i < |s| ==> s[i] >= 32
  }

  datatype Stretch = Stretch(noise: bytes, packet: bytes)

  predicate Recoverable(stretches: seq<Stretch>) {
    forall i :: 0 <= i < |stretches| ==> IsNoise(stretches[i].noise) && IsPacket(stretches[i].packet)
  }

  function Stream(stretches: seq<Stretch>): bytes {
    if stretches == [] then []
    else stretches[0].noise + stretches[0].packet + Stream(stretches[1..])
  }

  function Packets(stretches: seq<Stretch>): seq<bytes> {
    if stretches == [] then [] else [stretches[0].packet] + Packets(stretches[1..])
  }

  function NoiseSize(stretches: seq<Stretch>): nat {
    if stretches == [] then 0 else |stretches[0].noise| + NoiseSize(stretches[1..])
  }

  lemma {:induction false} SkipNoise(noise: bytes, s: bytes)
    requires IsNoise(noise) && |s| >= 5
    ensures Frames(noise + s) == Frames(s).(drops := |noise| + Frames(s).drops)
    decreases |noise|
  {
    if noise == [] {
      assert noise + s == s;
    } else {
      ScanLawful();
      SkipNoise(noise[1..], s);
      assert (noise + s)[1..] == noise[1..] + s;
      assert (noise + s)[0] == noise[0];
    }
  }

  lemma TakePacket(p: bytes, s: bytes)
    requires IsPacket(p)
    ensures Frames(p + s) == Frames(s).(items := [p] + Frames(s).items)
  {
    ScanLawful();
    assert DeclaredSize(p + s) == DeclaredSize(p);
    assert (p + s)[..|p|] == p && (p + s)[|p|..] == s;
  }

  // The last octets of a stream, too few for a header.
  function Held(tail: bytes): bytes {
    if |tail| < 5 then tail else tail[|tail| - 5..]
  }

  // Noise at the end of the stream: all but the last five octets are given up.
  lemma TrailingNoise(tail: bytes)
    requires IsNoise(tail)
    ensures Frames(tail) == Parsed([], |tail| - |Held(tail)|, Held(tail))
  {
    ScanLawful();
    if |tail| >= 5 {
      var keep := tail[|tail| - 5..];
      SkipNoise(tail[..|tail| - 5], keep);
      assert tail == tail[..|tail| - 5] + keep;
    }
  }

  lemma StretchFirst(noise: bytes, packet: bytes, later: bytes)
    requires IsNoise(noise) && IsPacket(packet)
    ensures var p := Frames(later);
      Frames(noise + (packet + later)) == Parsed([packet] + p.items, |noise| + p.drops, p.rest)
  {
    TakePacket(packet, later);
    SkipNoise(noise, packet + later);
  }

  // Recovery: noise between packets costs exactly its own octets and never a packet.
  lemma {:induction false} Recovery(stretches: seq<Stretch>, tail: bytes)
    requires Recoverable(stretches) && IsNoise(tail)
    ensures Frames(Stream(stretches) + tail)
            == Parsed(Packets(stretches), NoiseSize(stretches) + (|tail| - |Held(tail)|), Held(tail))
    decreases |stretches|
  {
    hide Frames, IsPacket, IsNoise, Held;
    if stretches == [] {
      assert Stream(stretches) + tail == tail;
      TrailingNoise(tail);
    } else {
      var noise, packet, later := stretches[0].noise, stretches[0].packet, Stream(stretches[1..]) + tail;
      Recovery(stretches[1..], tail);
      StretchFirst(noise, packet, later);
      assert Stream(stretches) + tail == noise + (packet + later);
    }
  }

  // The same under any chunking, for a fresh framer.
  lemma RecoveryUnderAnyChunking(stretches: seq<Stretch>, tail: bytes, chunks: seq<bytes>)
    requires Recoverable(stretches) && IsNoise(tail)
    requires Concat(chunks) == Stream(stretches) + tail
    ensures Lawful(Scan)
    ensures FeedAll(Scan, Parsed([], 0, []), chunks)
            == Parsed(Packets(stretches), NoiseSize(stretches) + (|tail| - |Held(tail)|), Held(tail))
  {
    ChunksAreOneStream([], chunks);
    Recovery(stretches, tail);
    assert [] + Concat(chunks) == Stream(stretches) + tail;
    assert Frames([]) == Parsed([], 0, []);
  }

  // Back-to-back packets, followed by the beginning of another, come out exactly.
  lemma {:induction false} ExactPackets(packets: seq<bytes>, tail: bytes)
    requires forall p :: p in packets ==> IsPacket(p)
    requires Scan(tail).Wait?
    ensures Frames(Concat(packets) + tail) == Parsed(packets, 0, tail)
    decreases |packets|
  {
    hide Frames, Scan, IsPacket;
    if packets == [] {
      FramesStep(tail);
      assert Concat(packets) + tail == tail;
    } else {
      ExactPackets(packets[1..], tail);
      TakePacket(packets[0], Concat(packets[1..]) + tail);
      assert Concat(packets) + tail == packets[0] + (Concat(packets[1..]) + tail);
    }
  }

  lemma NothingWaits()
    ensures Scan([]).Wait?
  {
  }

  lemma UnfinishedWaits(packet: bytes, k: nat)
    requires IsPacket(packet) && k < |packet|
    ensures Scan(packet[..k]).Wait?
  {
    assert k >= 6 ==> DeclaredSize(packet[..k]) == DeclaredSize(packet);
  }
}
