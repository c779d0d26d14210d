/** Structural inspection of CCSDS Space Packets: the 6-octet primary header of
    section 4.1.3 of CCSDS 133.0-B-2 and the router's `decode_meta` gate. */
module SpacePacket {
  import opened Bytes

  const HEADER_SIZE: nat := 6

  // The library's declaredPacketSize: the header must be complete and carry version 0;
  // the packet data length field holds the octet count of the data field minus one.
  function DeclaredSize(s: bytes): Option<nat> {
    if |s| < HEADER_SIZE || s[0] / 32 != 0 then None
    else Some(HEADER_SIZE + (256 * (s[4] as int) + s[5] as int + 1))
  }

  // A whole version-0 packet of exactly its declared length.
  predicate IsPacket(p: bytes) {
    DeclaredSize(p) == Some(|p|)
  }

  datatype Meta = Meta(version: byte, kind: byte, secondary: byte, flags: byte,
                       apid: word, sequence: word, length: word, service: byte, subservice: byte)

  // What the daemon learns from code and devices this model does not contain: the best-effort PUS
  // fields of a packet, the library's words for a bad header, the clock at the k-th received packet,
  // and how the operating system answers the n-th attempt to open the device.
  datatype Oracle = Oracle(pus: bytes -> (byte, byte), complaint: bytes -> string, clock: nat -> nat,
                           open: nat -> OpenResult)

  datatype OpenResult = Opened | OpenFailed(reason: string) | BaudFailed(reason: string)

  function PrimaryMeta(p: bytes, service: byte, subservice: byte): Meta
    requires |p| >= HEADER_SIZE
  {
    var b0: int, b1: int, b2: int, b3: int := p[0], p[1], p[2], p[3];
    Meta(b0 / 32, b0 / 16 % 2, b0 / 8 % 2, b2 / 64, 256 * (b0 % 8) + b1, 256 * (b2 % 64) + b3,
         256 * (p[4] as int) + p[5] as int, service, subservice)
  }

  // The six octets that carry these fields, by the layout of section 4.1.3 of CCSDS 133.0-B-2.
  function HeaderOctets(m: Meta): seq<int> {
    [32 * (m.version as int) + 16 * (m.kind as int) + 8 * (m.secondary as int) + (m.apid as int) / 256, (m.apid as int) % 256,
     64 * (m.flags as int) + (m.sequence as int) / 256, (m.sequence as int) % 256,
     (m.length as int) / 256, (m.length as int) % 256]
  }

  // The decoded fields are within their widths and account for every bit of the header.
  lemma HeaderRoundTrip(p: bytes, service: byte, subservice: byte)
    requires |p| >= HEADER_SIZE
    ensures var m := PrimaryMeta(p, service, subservice);
      && m.version < 8 && m.kind < 2 && m.secondary < 2 && m.apid < 2048 && m.flags < 4 && m.sequence < 16384
      && |HeaderOctets(m)| == HEADER_SIZE
      && forall i :: 0 <= i < HEADER_SIZE ==> HeaderOctets(m)[i] == p[i]
  {
    var m := PrimaryMeta(p, service, subservice);
    IdentificationBits(p[0], p[1]);
    var b2: int, b3: int := p[2], p[3];
    assert m.flags == b2 / 64 && m.sequence == 256 * (b2 % 64) + b3;
    assert HeaderOctets(m) == [p[0], p[1], p[2], p[3], p[4], p[5]];
  }

  lemma IdentificationBits(b0: int, b1: int)
    requires 0 <= b0 < 256 && 0 <= b1 < 256
    ensures 32 * (b0 / 32) + 16 * (b0 / 16 % 2) + 8 * (b0 / 8 % 2) + (256 * (b0 % 8) + b1) / 256 == b0
    ensures (256 * (b0 % 8) + b1) % 256 == b1
  {
    assert b0 / 16 == 2 * (b0 / 32) + b0 / 16 % 2;
    assert b0 / 8 == 2 * (b0 / 16) + b0 / 8 % 2;
    assert b0 == 8 * (b0 / 8) + b0 % 8;
  }

  function DecodeMeta(o: Oracle, p: bytes): Result<Meta> {
    match DeclaredSize(p)
    case None => Failure("inspect Space Packet: " + o.complaint(p))
    case Some(n) =>
      if n != |p| then Failure("Space Packet size does not match CCSDS Packet Data Length")
      else
        var m := PrimaryMeta(p, 0, 0);
        if m.secondary == 0 then Success(m)
        else Success(PrimaryMeta(p, o.pus(p).0, o.pus(p).1))
  }

  // The declared size by the header's own fields, whose octets HeaderRoundTrip fixes: version 0, and one
  // octet more than the length field says after the six of the header.
  lemma DeclaredByHeader(s: bytes, n: nat)
    ensures DeclaredSize(s) == Some(n)
            <==> |s| >= HEADER_SIZE && PrimaryMeta(s, 0, 0).version == 0 && n == 7 + PrimaryMeta(s, 0, 0).length
  {
    if |s| >= HEADER_SIZE {
      var b0: int := s[0];
      assert PrimaryMeta(s, 0, 0).version == b0 / 32;
    }
  }

  lemma GateIsStructural(o: Oracle, p: bytes)
    ensures DecodeMeta(o, p).Success? <==> IsPacket(p)
  {
  }

  // The gate lets exactly those through whose own header declares version 0 and their size, and returns
  // that header; service and subservice are zero without a secondary header.
  lemma GateByHeader(o: Oracle, p: bytes)
    ensures DecodeMeta(o, p).Success?
            <==> |p| >= HEADER_SIZE && PrimaryMeta(p, 0, 0).version == 0 && |p| == 7 + PrimaryMeta(p, 0, 0).length
    ensures DecodeMeta(o, p).Success? ==>
      var m := DecodeMeta(o, p).value;
      && HeaderOctets(m) == p[..HEADER_SIZE]
      && (m.service, m.subservice) == (if (p[0] as int) / 8 % 2 == 0 then (0, 0) else o.pus(p))
    ensures DecodeMeta(o, p).Failure? ==>
      DecodeMeta(o, p).error ==
        if |p| < HEADER_SIZE || PrimaryMeta(p, 0, 0).version != 0 then "inspect Space Packet: " + o.complaint(p)
        else "Space Packet size does not match CCSDS Packet Data Length"
  {
    DeclaredByHeader(p, |p|);
    if DecodeMeta(o, p).Success? {
      var m := DecodeMeta(o, p).value;
      HeaderRoundTrip(p, m.service, m.subservice);
      assert m == PrimaryMeta(p, m.service, m.subservice);
    }
  }
}
