/** The daemon's bookkeeping: link status, counters, a bounded ring of recent packets and
    the time each service was last seen. */
module History {
  import opened Bytes
  import opened SpacePacket
  import opened LinkModel

  datatype LinkStatus = Disconnected | Connected | Error

  // What is shown beside the status: the device name, or what went wrong.
  datatype Detail = Named(text: string) | Trouble(cause: Cause, reason: string)

  datatype Direction = TC | TM

  // `problem` is the decoder's complaint, if any; the record's summary line says the same.
  datatype PacketRecord = PacketRecord(time: nat, direction: Direction, apid: word, sequence: word,
                                       service: byte, subservice: byte, problem: Option<string>, raw: bytes)

  // The full history behind the bounded store.
  datatype Store = Store(status: LinkStatus, detail: Detail, records: seq<PacketRecord>,
                         txPackets: nat, txBytes: nat, decodeErrors: nat)

  const EmptyStore := Store(Disconnected, Named(""), [], 0, 0, 0)

  function Last<T>(s: seq<T>, n: nat): seq<T> {
    if |s| <= n then s else s[|s| - n..]
  }

  function Raws(records: seq<PacketRecord>): (r: seq<bytes>)
    ensures |r| == |records| && forall i :: 0 <= i < |r| ==> r[i] == records[i].raw
  {
    seq(|records|, i requires 0 <= i < |records| => records[i].raw)
  }

  // Record `i` is the latest of its service.
  ghost predicate IsLatest(records: seq<PacketRecord>, i: nat)
    requires i < |records|
  {
    forall j :: i < j < |records| ==> records[j].service != records[i].service
  }

  ghost predicate IsSeen(records: seq<PacketRecord>, v: byte) {
    exists i :: 0 <= i < |records| && records[i].service == v
  }

  // `services` holds the time of the latest record of each service, over the whole history.
  ghost predicate SeenOk(services: map<byte, nat>, records: seq<PacketRecord>) {
    && (forall v: byte :: v in services <==> IsSeen(records, v))
    && (forall i :: 0 <= i < |records| && IsLatest(records, i) ==>
          records[i].service in services && services[records[i].service] == records[i].time)
  }

  class StateStore {
    const cap: nat
    var status: LinkStatus
    var detail: Detail
    var rxPackets: nat
    var rxBytes: nat
    var txPackets: nat
    var txBytes: nat
    var decodeErrors: nat
    var services: map<byte, nat>
    var ring: seq<PacketRecord>
    ghost var records: seq<PacketRecord>   // every record ever stored

    ghost predicate Valid()
      reads this
    {
      && rxPackets == |records|
      && rxBytes == |Concat(Raws(records))|
      && ring == Last(records, cap)
      && SeenOk(services, records)
    }

    ghost function View(): Store
      reads this
    {
      Store(status, detail, records, txPackets, txBytes, decodeErrors)
    }

    constructor (cap: nat)
      ensures Valid() && View() == EmptyStore && this.cap == cap
    {
      this.cap := cap;
      status, detail := Disconnected, Named("");
      rxPackets, rxBytes, txPackets, txBytes, decodeErrors := 0, 0, 0, 0, 0;
      services, ring, records := map[], [], [];
    }

    method SetLink(status: LinkStatus, detail: Detail)
      requires Valid()
      modifies this
      ensures Valid() && View() == old(View()).(status := status, detail := detail)
    {
      this.status := status;
      this.detail := detail;
    }

    method OnPacket(rec: PacketRecord)
      requires Valid()
      modifies this
      ensures Valid() && View() == old(View()).(records := old(records) + [rec])
    {
      hide SeenOk, Concat, Last;
      SeenSnoc(services, records, rec);
      rxPackets := rxPackets + 1;
      rxBytes := rxBytes + |rec.raw|;
      services := services[rec.service := rec.time];
      PushRing(rec);
      LastSnoc(records, rec, cap);
      ConcatSnoc(Raws(records), rec.raw);
      assert Raws(records + [rec]) == Raws(records) + [rec.raw];
      records := records + [rec];
    }

    method PushRing(rec: PacketRecord)
      modifies `ring
      ensures ring == Last(old(ring) + [rec], cap)
    {
      ring := ring + [rec];
      while |ring| > cap
        invariant |ring| >= cap ==> Last(ring, cap) == Last(old(ring) + [rec], cap)
        invariant |ring| < cap ==> ring == old(ring) + [rec]
      {
        ring := ring[1..];
      }
    }

    method OnTx(size: nat)
      requires Valid()
      modifies this
      ensures Valid() && View() == old(View()).(txPackets := old(txPackets) + 1, txBytes := old(txBytes) + size)
    {
      hide SeenOk, Concat, Last;
      txPackets := txPackets + 1;
      txBytes := txBytes + size;
    }

    method OnDecodeError()
      requires Valid()
      modifies this
      ensures Valid() && View() == old(View()).(decodeErrors := old(decodeErrors) + 1)
    {
      decodeErrors := decodeErrors + 1;
    }

    // The most recent packets: a suffix of everything ever stored, however much was evicted.
    method LastPackets(n: nat) returns (r: seq<PacketRecord>)
      requires Valid()
      ensures r == Last(records, if n < cap then n else cap)
    {
      hide SeenOk, Concat;
      if n >= |ring| { return ring; }
      return ring[|ring| - n..];
    }
  }

  // Evicting as one goes keeps the end of the whole history.
  lemma LastSnoc<T>(s: seq<T>, x: T, n: nat)
    ensures Last(Last(s, n) + [x], n) == Last(s + [x], n)
  {
  }

  lemma SeenSnoc(services: map<byte, nat>, records: seq<PacketRecord>, rec: PacketRecord)
    requires SeenOk(services, records)
    ensures SeenOk(services[rec.service := rec.time], records + [rec])
  {
    var m, all := services[rec.service := rec.time], records + [rec];
    var last := |records|;
    assert all[last] == rec;
    forall v: byte ensures v in m <==> IsSeen(all, v) {
      if v != rec.service && IsSeen(records, v) {
        var i :| 0 <= i < |records| && records[i].service == v;
        assert all[i].service == v;
      }
    }
    forall i | 0 <= i < |all| && IsLatest(all, i)
      ensures all[i].service in m && m[all[i].service] == all[i].time
    {
      if i < last {
        assert all[last].service != all[i].service;
        assert forall j :: i < j < last ==> records[j].service == all[j].service;
        assert IsLatest(records, i);
      }
    }
  }
}
