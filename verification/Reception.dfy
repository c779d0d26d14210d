/** From the octets the device sends to what the daemon records and every client is told. */
module Reception {
  import opened Bytes
  import opened SpacePacket
  import opened Incremental
  import opened LinkModel
  import opened LinkHistory
  import opened History
  import opened Router
  import opened RouterInvariant
  import opened Outcomes
  import Framer
  import IpcCodec

  ghost predicate ArePackets(ps: seq<bytes>) {
    forall p :: p in ps ==> IsPacket(p)
  }

  // The header fields that the gate finds.
  function HeaderIn(o: Oracle, p: bytes): Meta {
    match DecodeMeta(o, p)
    case Success(m) => m
    case Failure(_) => Meta(0, 0, 0, 0, 0, 0, 0, 0, 0)
  }

  // The notifications some packets call for, one each, in order.
  function Announced(o: Oracle, ps: seq<bytes>): (r: seq<Notice>)
    ensures |r| == |ps| && forall i :: 0 <= i < |r| ==> r[i] == PacketRx(HeaderIn(o, ps[i]))
  {
    seq(|ps|, i requires 0 <= i < |ps| => PacketRx(HeaderIn(o, ps[i])))
  }

  // They carry the packets' own headers.
  lemma AnnouncedHeader(o: Oracle, p: bytes)
    requires IsPacket(p)
    ensures HeaderOctets(HeaderIn(o, p)) == p[..HEADER_SIZE]
  {
    GateByHeader(o, p);
    DeclaredByHeader(p, |p|);
  }

  // A record holds a packet, what its header says, and when it came.
  ghost predicate IsRecordOf(o: Oracle, r: PacketRecord, p: bytes, time: nat)
    requires |p| >= HEADER_SIZE
  {
    var b0: int, b2: int, m := p[0], p[2], HeaderIn(o, p);
    && r.raw == p && r.time == time && r.problem == None
    && r.direction == (if b0 / 16 % 2 == 1 then TC else TM)
    && r.apid == 256 * (b0 % 8) + p[1] && r.sequence == 256 * (b2 % 64) + p[3]
    && r.service == m.service && r.subservice == m.subservice
  }

  // `more` is `records` and one record for each of some packets, in order.
  ghost predicate Recorded(o: Oracle, records: seq<PacketRecord>, more: seq<PacketRecord>, ps: seq<bytes>) {
    && |more| == |records| + |ps| && more[..|records|] == records
    && forall i :: 0 <= i < |ps| ==>
         |ps[i]| >= HEADER_SIZE && IsRecordOf(o, more[|records| + i], ps[i], o.clock(|records| + i))
  }

  // From `d` to `t` some packets were recorded and announced to everybody; nothing else changed.
  ghost predicate Forwarded<K>(o: Oracle, d: Daemon<K>, t: Daemon<K>, ps: seq<bytes>) {
    && t == d.(store := d.store.(records := t.store.records), clients := t.clients)
    && Recorded(o, d.store.records, t.store.records, ps) && AllHear(d, t, Announced(o, ps))
  }

  lemma PacketTells<K>(o: Oracle, d: Daemon<K>, p: bytes)
    requires IsPacket(p)
    ensures Forwarded(o, d, OnPacket(o, d, p), [p])
  {
    GateIsStructural(o, p);
    assert Announced(o, [p]) == [PacketRx(DecodeMeta(o, p).value)];
    var rec := RecordOf(o, p, o.clock(|d.store.records|));
    assert IsRecordOf(o, rec, p, o.clock(|d.store.records|));
    hide DecodeMeta, IsPacket, RecordOf;
  }

  // What is not a whole packet, should it come to that: recorded as such, counted, and reported to everybody.
  lemma BadPacketTells<K>(o: Oracle, d: Daemon<K>, p: bytes)
    requires !IsPacket(p)
    ensures var t, why, n := OnPacket(o, d, p), DecodeMeta(o, p), |d.store.records|;
      && why.Failure?
      && t == d.(store := d.store.(records := d.store.records + [PacketRecord(o.clock(n), TM, 0, 0, 0, 0, Some(why.error), p)],
                                   decodeErrors := d.store.decodeErrors + 1),
                 clients := t.clients)
      && AllHear(d, t, [ErrorReport(BadReceived(why.error))])
  {
    GateIsStructural(o, p);
  }

  lemma RecordedTwice(o: Oracle, a: seq<PacketRecord>, b: seq<PacketRecord>, c: seq<PacketRecord>, ps: seq<bytes>, qs: seq<bytes>)
    requires Recorded(o, a, b, ps) && Recorded(o, b, c, qs)
    ensures Recorded(o, a, c, ps + qs)
  {
    hide IsRecordOf;
    forall i | 0 <= i < |ps + qs|
      ensures |(ps + qs)[i]| >= HEADER_SIZE && IsRecordOf(o, c[|a| + i], (ps + qs)[i], o.clock(|a| + i)) {
      if i < |ps| {
        assert c[|a| + i] == c[..|b|][|a| + i];
      } else {
        assert (ps + qs)[i] == qs[i - |ps|];
      }
    }
    assert c[..|a|] == c[..|b|][..|a|];
  }

  lemma ForwardedNothing<K>(o: Oracle, d: Daemon<K>)
    ensures Forwarded(o, d, d, [])
  {
    assert Announced(o, []) == [];
  }

  lemma ForwardedTwice<K>(o: Oracle, d: Daemon<K>, t: Daemon<K>, u: Daemon<K>, ps: seq<bytes>, qs: seq<bytes>)
    requires Forwarded(o, d, t, ps) && Forwarded(o, t, u, qs)
    ensures Forwarded(o, d, u, ps + qs)
  {
    hide Recorded, AllHear;
    RecordedTwice(o, d.store.records, t.store.records, u.store.records, ps, qs);
    HearTwice(d, t, u, Announced(o, ps), Announced(o, qs));
    assert Announced(o, ps) + Announced(o, qs) == Announced(o, ps + qs);
  }

  // Every packet is recorded and announced to everybody, in order; nothing else changes.
  lemma {:induction false} PacketsTell<K>(o: Oracle, d: Daemon<K>, ps: seq<bytes>)
    requires ArePackets(ps)
    ensures Forwarded(o, d, OnPackets(o, d, ps), ps)
    decreases |ps|
  {
    hide OnPacket, IsPacket, Forwarded;
    if ps == [] {
      ForwardedNothing(o, d);
    } else {
      var d1 := OnPacket(o, d, ps[0]);
      PacketTells(o, d, ps[0]);
      PacketsTell(o, d1, ps[1..]);
      ForwardedTwice(o, d, d1, OnPackets(o, d1, ps[1..]), [ps[0]], ps[1..]);
      assert ps == [ps[0]] + ps[1..];
    }
  }

  // The daemon took in exactly `data`: the framer parsed it after what it held, each packet that came out
  // is recorded, and nothing of the reception changed otherwise.
  ghost predicate Took<K>(o: Oracle, d: Daemon<K>, t: Daemon<K>, data: bytes) {
    var p := Framer.Frames(d.acc + data);
    && t.received == d.received + data && t.acc == p.rest && t.framingErrors == d.framingErrors + p.drops
    && Recorded(o, d.store.records, t.store.records, p.items)
  }

  // Octets handed up: exactly the packets they complete are recorded and announced to everybody.
  lemma ReceivedTells<K>(o: Oracle, d: Daemon<K>, data: bytes)
    ensures var t := OnUpcall(o, d, Received(data));
      && t.link == d.link && Took(o, d, t, data) && AllHear(d, t, Announced(o, Framer.Frames(d.acc + data).items))
  {
    Framer.Accounting(d.acc + data);
    hide Framer.Frames, Recorded, IsPacket;
    PacketsTell(o, Absorb(d, data), Framer.Frames(d.acc + data).items);
  }

  lemma TookNothing<K>(o: Oracle, d: Daemon<K>, t: Daemon<K>)
    requires ReceptionOk(d)
    requires t.received == d.received && t.acc == d.acc && t.framingErrors == d.framingErrors
    requires t.store.records == d.store.records
    ensures Framer.Frames(d.acc + []) == Parsed([], 0, d.acc) && Took(o, d, t, [])
  {
    Framer.ScanLawful();
    RestWaits(Framer.Scan, d.received);
    WaitingIsRest(Framer.Scan, d.acc);
    assert d.acc + [] == d.acc && d.received + [] == d.received;
  }

  lemma TookTwice<K>(o: Oracle, d: Daemon<K>, t: Daemon<K>, u: Daemon<K>, a: bytes, b: bytes)
    requires Took(o, d, t, a) && Took(o, t, u, b)
    ensures Took(o, d, u, a + b)
    ensures Framer.Frames(d.acc + (a + b)).items == Framer.Frames(d.acc + a).items + Framer.Frames(t.acc + b).items
  {
    Framer.FramesSplit(d.acc + a, b);
    hide Framer.Frames, Recorded;
    Regrouped(d.acc, a, b);
    Regrouped(d.received, a, b);
    RecordedTwice(o, d.store.records, t.store.records, u.store.records,
                  Framer.Frames(d.acc + a).items, Framer.Frames(t.acc + b).items);
  }

  /* What a client has heard of the reception */

  // The headers of the received packets that a log tells of.
  function HeardOf(log: seq<Notice>): seq<Meta> {
    if log == [] then []
    else HeardOf(log[..|log| - 1]) + if log[|log| - 1].PacketRx? then [log[|log| - 1].meta] else []
  }

  function Headers(o: Oracle, ps: seq<bytes>): (r: seq<Meta>)
    ensures |r| == |ps| && forall i :: 0 <= i < |r| ==> r[i] == HeaderIn(o, ps[i])
  {
    seq(|ps|, i requires 0 <= i < |ps| => HeaderIn(o, ps[i]))
  }

  lemma {:induction false} HeardOfOthers(log: seq<Notice>, ns: seq<Notice>)
    requires forall n :: n in ns ==> !n.PacketRx?
    ensures HeardOf(log + ns) == HeardOf(log)
    decreases |ns|
  {
    if ns == [] {
      assert log + ns == log;
    } else {
      var front := ns[..|ns| - 1];
      assert (log + ns)[..|log + ns| - 1] == log + front && ns[|ns| - 1] in ns;
      HeardOfOthers(log, front);
    }
  }

  lemma {:induction false} HeardOfAnnounced(o: Oracle, log: seq<Notice>, ps: seq<bytes>)
    ensures HeardOf(log + Announced(o, ps)) == HeardOf(log) + Headers(o, ps)
    decreases |ps|
  {
    var ns := Announced(o, ps);
    if ps == [] {
      assert log + ns == log && HeardOf(log) + Headers(o, ps) == HeardOf(log);
    } else {
      var n := |ps| - 1;
      HeardOfAnnounced(o, log, ps[..n]);
      assert (log + ns)[..|log + ns| - 1] == log + Announced(o, ps[..n]);
      assert Headers(o, ps) == Headers(o, ps[..n]) + [HeaderIn(o, ps[n])];
    }
  }

  // `who` is still there and has heard of exactly the packets that `data` completes.
  ghost predicate Hears<K>(o: Oracle, d: Daemon<K>, t: Daemon<K>, who: K, data: bytes) {
    who in d.clients ==>
      && who in t.clients
      && HeardOf(t.clients[who].sent) == HeardOf(d.clients[who].sent) + Headers(o, Framer.Frames(d.acc + data).items)
  }

  lemma HearsTwice<K>(o: Oracle, d: Daemon<K>, t: Daemon<K>, u: Daemon<K>, who: K, a: bytes, b: bytes)
    requires Took(o, d, t, a) && Took(o, t, u, b)
    requires Hears(o, d, t, who, a) && Hears(o, t, u, who, b)
    ensures Hears(o, d, u, who, a + b)
  {
    TookTwice(o, d, t, u, a, b);
    hide Took, HeardOf, Framer.Frames;
    var ps, qs := Framer.Frames(d.acc + a).items, Framer.Frames(t.acc + b).items;
    assert Headers(o, ps + qs) == Headers(o, ps) + Headers(o, qs);
    if who in d.clients {
      Regrouped(HeardOf(d.clients[who].sent), Headers(o, ps), Headers(o, qs));
    }
  }

  /* Inputs */

  // The octets a successful read of the present generation brings.
  function ReadBy<K>(d: Daemon<K>, i: Input<K>): bytes {
    if i.FromDevice? && i.event.Complete? && i.event.op.Read? && i.event.op.gen == d.link.generation && i.event.outcome.Ok?
    then i.event.outcome.data else []
  }

  ghost function ReadOctets<K>(o: Oracle, d: Daemon<K>, inputs: seq<Input<K>>): bytes
    requires CanServe(o, d, inputs)
    decreases |inputs|
  {
    if inputs == [] then [] else ReadBy(d, inputs[0]) + ReadOctets(o, Take(o, d, inputs[0]), inputs[1..])
  }

  // Nothing of the reception changes, and nobody hears of a received packet.
  ghost predicate Unheard<K>(d: Daemon<K>, t: Daemon<K>) {
    && t.received == d.received && t.acc == d.acc && t.framingErrors == d.framingErrors
    && t.store.records == d.store.records
    && forall k :: k in d.clients ==> k in t.clients && HeardOf(t.clients[k].sent) == HeardOf(d.clients[k].sent)
  }

  lemma UnheardTwice<K>(d: Daemon<K>, t: Daemon<K>, u: Daemon<K>)
    requires Unheard(d, t) && Unheard(t, u)
    ensures Unheard(d, u)
  {
  }

  lemma UnheardIfOthers<K>(d: Daemon<K>, t: Daemon<K>, ns: seq<Notice>)
    requires AllHear(d, t, ns) && forall n :: n in ns ==> !n.PacketRx?
    requires t == d.(link := t.link, store := t.store, clients := t.clients) && t.store.records == d.store.records
    ensures Unheard(d, t)
  {
    forall k | k in d.clients ensures k in t.clients && HeardOf(t.clients[k].sent) == HeardOf(d.clients[k].sent) {
      HeardOfOthers(d.clients[k].sent, ns);
    }
  }

  lemma UnheardIfOnly<K>(d: Daemon<K>, t: Daemon<K>, who: K, n: Notice)
    requires OnlyHears(d, t, who, n) && !n.PacketRx?
    ensures Unheard(d, t)
  {
    if who in d.clients {
      HeardOfOthers(d.clients[who].sent, [n]);
    }
  }

  lemma RequestUnheard<K>(o: Oracle, d: Daemon<K>, who: K, r: Request)
    requires DaemonOk(d)
    ensures Unheard(d, OnRequest(o, d, who, r))
  {
    var t := OnRequest(o, d, who, r);
    hide DaemonOk, Unheard, OnlyHears, AllHear, OnPacketSend, OnCommand;
    match r {
      case Route(packet) =>
        RoutedIff(o, d, who, packet);
        if IsPacket(packet) && d.link.isOpen {
          UnheardIfOthers(d, t, [PacketTx(DecodeMeta(o, packet).value)]);
        } else {
          UnheardIfOnly(d, t, who, ErrorReport(if IsPacket(packet) then LinkDown else BadPacket(DecodeMeta(o, packet).error)));
        }
      case Run(c) => CommandUnheard(o, d, who, c);
    }
  }

  lemma SaidByStartIsReports(endpoint: Endpoint, answer: OpenResult)
    ensures forall n :: n in SaidByStart(endpoint, answer) ==> n.LinkReport?
  {
  }

  lemma UnheardIfReported<K>(d: Daemon<K>, t: Daemon<K>, ns: seq<Notice>)
    requires Reported(d, t, ns) && forall n :: n in ns ==> n.LinkReport?
    ensures Unheard(d, t)
  {
    hide Unheard, AllHear;
    UnheardIfOthers(d, t, ns);
  }

  lemma UnheardSelf<K>(d: Daemon<K>)
    ensures Unheard(d, d)
  {
  }

  lemma CommandUnheard<K>(o: Oracle, d: Daemon<K>, who: K, c: Command)
    requires DaemonOk(d)
    ensures Unheard(d, OnCommand(o, d, who, c))
  {
    var t := OnCommand(o, d, who, c);
    UnheardSelf(d);
    if c.PastEnd? {
      assert t == d;
    }
    hide DaemonOk, Unheard, OnlyHears, Reported, Begun, OnCommand, SaidByStart;
    match c {
      case Connecting =>
        ConnectOutcome(o, d, who);
        SaidByStartIsReports(d.link.endpoint, o.open(d.link.generation + 1));
        if d.link.isOpen {
          UnheardIfOnly(d, t, who, LinkReport(d.store.status, d.store.detail));
        } else if !d.link.connecting {
          UnheardIfReported(d, t, SaidByStart(d.link.endpoint, o.open(d.link.generation + 1)));
        }
      case Disconnecting =>
        DisconnectCloses(o, d, who);
        UnheardIfReported(d, t, [LinkReport(Disconnected, Named(d.link.detail))]);
      case Reconnecting =>
        ReconnectOutcome(o, d, who);
        SaidByStartIsReports(d.link.endpoint, o.open(d.link.generation + 2));
        UnheardIfReported(d, t, [LinkReport(Disconnected, Named(d.link.detail))]
                                + SaidByStart(d.link.endpoint, o.open(d.link.generation + 2)));
      case PastEnd =>
      case _ =>
        QueryOutcome(o, d, who, c);
        QueryUnheard(d, t, who);
    }
  }

  lemma QueryUnheard<K>(d: Daemon<K>, t: Daemon<K>, who: K)
    requires exists n: Notice :: !n.PacketRx? && OnlyHears(d, t, who, n)
    ensures Unheard(d, t)
  {
    var n: Notice :| !n.PacketRx? && OnlyHears(d, t, who, n);
    UnheardIfOnly(d, t, who, n);
  }

  lemma {:induction false} RequestsUnheard<K>(o: Oracle, d: Daemon<K>, who: K, rs: seq<Request>)
    requires DaemonOk(d)
    ensures Unheard(d, OnRequests(o, d, who, rs))
    decreases |rs|
  {
    UnheardSelf(d);
    hide DaemonOk, Unheard, OnRequest;
    if rs != [] {
      var d1 := OnRequest(o, d, who, rs[0]);
      RequestUnheard(o, d, who, rs[0]);
      RequestOk(o, d, who, rs[0]);
      RequestsUnheard(o, d1, who, rs[1..]);
      UnheardTwice(d, d1, OnRequests(o, d1, who, rs[1..]));
    }
  }

  lemma RequestOk<K>(o: Oracle, d: Daemon<K>, who: K, r: Request)
    requires DaemonOk(d)
    ensures DaemonOk(OnRequest(o, d, who, r))
  {
    RequestsOk(o, d, who, [r]);
    assert [r][1..] == [];
    assert OnRequests(o, OnRequest(o, d, who, r), who, []) == OnRequest(o, d, who, r);
  }

  // A good read of the present generation, however few its octets.
  lemma ReadTells<K>(o: Oracle, d: Daemon<K>, data: bytes)
    requires ReceptionOk(d) && Read(d.link.generation) in d.link.pending
    ensures var t := LinkStep(o, d, Complete(Read(d.link.generation), Ok(data)));
      Took(o, d, t, data) && AllHear(d, t, Announced(o, Framer.Frames(d.acc + data).items))
  {
    var e := Complete(Read(d.link.generation), Ok(data));
    var m := Step(d.link, e).0;
    var d1 := d.(link := m);
    if data == [] {
      assert OnUpcalls(o, d1, []) == d1;
      TookNothing(o, d, d1);
      assert Announced(o, []) == [];
    } else {
      assert OnUpcalls(o, d1, [Received(data)]) == OnUpcall(o, d1, Received(data));
      ReceivedTells(o, d1, data);
      hide Framer.Frames, Recorded, OnUpcall;
    }
  }

  // Only such a read hands octets up.
  lemma NoOthersRead(l: Link, e: Event)
    requires Enabled(l, e)
    requires !(e.Complete? && e.op.Read? && e.op.gen == l.generation && e.outcome.Ok?)
    ensures forall up :: up in Step(l, e).1 ==> !up.Received?
  {
  }

  ghost predicate AllHearOf<K>(o: Oracle, d: Daemon<K>, t: Daemon<K>, i: Input<K>, data: bytes) {
    forall k :: k in d.clients && i != Gone(k) ==> Hears(o, d, t, k, data)
  }

  // One input: exactly the octets it reads are taken in, and everybody who stays hears of exactly the
  // packets they complete.
  lemma TakeTakes<K>(o: Oracle, d: Daemon<K>, i: Input<K>)
    requires DaemonOk(d) && CanTake(d, i)
    ensures Took(o, d, Take(o, d, i), ReadBy(d, i)) && AllHearOf(o, d, Take(o, d, i), i, ReadBy(d, i))
  {
    match i {
      case Accepted(_) => UnheardInput(o, d, Take(o, d, i), i);
      case Gone(_) => UnheardInput(o, d, Take(o, d, i), i);
      case FromClient(who, chunk) => ClientUnheard(o, d, who, chunk);
      case FromDevice(e) => DeviceTakes(o, d, e);
    }
  }

  // An input that reads nothing.
  lemma UnheardInput<K>(o: Oracle, d: Daemon<K>, t: Daemon<K>, i: Input<K>)
    requires ReceptionOk(d)
    requires t.received == d.received && t.acc == d.acc && t.framingErrors == d.framingErrors
    requires t.store.records == d.store.records
    requires forall k :: k in d.clients && i != Gone(k) ==> k in t.clients && HeardOf(t.clients[k].sent) == HeardOf(d.clients[k].sent)
    ensures Took(o, d, t, []) && AllHearOf(o, d, t, i, [])
  {
    TookNothing(o, d, t);
    hide Took, Framer.Frames;
    forall k | k in d.clients && i != Gone(k) ensures Hears(o, d, t, k, []) {
      assert Headers(o, []) == [] && HeardOf(d.clients[k].sent) + [] == HeardOf(d.clients[k].sent);
    }
  }

  lemma ClientUnheard<K>(o: Oracle, d: Daemon<K>, who: K, chunk: bytes)
    requires DaemonOk(d) && CanTake(d, FromClient(who, chunk))
    ensures var i := FromClient(who, chunk);
      Took(o, d, Take(o, d, i), []) && AllHearOf(o, d, Take(o, d, i), i, [])
  {
    var i := FromClient(who, chunk);
    var p := IpcCodec.Frames(d.clients[who].inbox + chunk);
    var d1 := d.(clients := d.clients[who := d.clients[who].(inbox := p.rest)]);
    assert DaemonOk(d1);
    RequestsUnheard(o, d1, who, RequestsOf(IpcCodec.Handled(p.items)));
    hide HistoryOk, ViewsAgree, TransmissionOk;
    UnheardInput(o, d, Take(o, d, i), i);
  }

  lemma DeviceTakes<K>(o: Oracle, d: Daemon<K>, e: Event)
    requires DaemonOk(d) && CanTake(d, FromDevice(e))
    ensures var i: Input<K> := FromDevice(e);
      Took(o, d, LinkStep(o, d, e), ReadBy(d, i)) && AllHearOf(o, d, LinkStep(o, d, e), i, ReadBy(d, i))
  {
    var i: Input<K>, t := FromDevice(e), LinkStep(o, d, e);
    if e.Complete? && e.op.Read? && e.op.gen == d.link.generation && e.outcome.Ok? {
      assert e == Complete(Read(d.link.generation), Ok(e.outcome.data));
      ReadTells(o, d, e.outcome.data);
      hide LinkStep, Took, DaemonOk, Framer.Frames;
      forall k | k in d.clients && i != Gone(k) ensures Hears(o, d, t, k, e.outcome.data) {
        HeardOfAnnounced(o, d.clients[k].sent, Framer.Frames(d.acc + e.outcome.data).items);
      }
    } else {
      NoOthersRead(d.link, e);
      StepReported(o, d, e);
      ReportedUnheard(d, t, Step(d.link, e).1);
      hide HistoryOk, ViewsAgree, TransmissionOk, LinkStep, Step, Enabled, Reported;
      UnheardInput(o, d, t, i);
    }
  }

  lemma ReportedUnheard<K>(d: Daemon<K>, t: Daemon<K>, ups: seq<Upcall>)
    requires forall up :: up in ups ==> !up.Received?
    requires Reported(d, t, SaidAll(ups))
    ensures Unheard(d, t)
  {
    UnheardIfReported(d, t, SaidAll(ups));
  }

  // Every run takes in exactly the octets that were read: the link never drops, repeats or reorders any.
  lemma {:induction false} RunTakes<K>(o: Oracle, d: Daemon<K>, inputs: seq<Input<K>>)
    requires DaemonOk(d) && CanServe(o, d, inputs)
    ensures Took(o, d, Serve(o, d, inputs), ReadOctets(o, d, inputs))
    decreases |inputs|
  {
    if inputs == [] {
      TookNothing(o, d, d);
    } else {
      var d1 := Take(o, d, inputs[0]);
      TakeTakes(o, d, inputs[0]);
      TakeOk(o, d, inputs[0]);
      hide DaemonOk, Took, Take, CanTake;
      RunTakes(o, d1, inputs[1..]);
      TookTwice(o, d, d1, Serve(o, d1, inputs[1..]), ReadBy(d, inputs[0]), ReadOctets(o, d1, inputs[1..]));
    }
  }

  // And every client that stays hears of exactly the packets these octets complete, in order.
  lemma {:induction false} RunTells<K>(o: Oracle, d: Daemon<K>, inputs: seq<Input<K>>, who: K)
    requires DaemonOk(d) && CanServe(o, d, inputs) && who in d.clients && Gone(who) !in inputs
    ensures Hears(o, d, Serve(o, d, inputs), who, ReadOctets(o, d, inputs))
    decreases |inputs|
  {
    if inputs == [] {
      UnheardInput(o, d, d, FromDevice(RunPosted));
    } else {
      var i, d1 := inputs[0], Take(o, d, inputs[0]);
      assert i in inputs;
      TakeTakes(o, d, i);
      TakeOk(o, d, i);
      RunTakes(o, d1, inputs[1..]);
      assert Hears(o, d, d1, who, ReadBy(d, i));
      hide DaemonOk, Took, Take, CanTake, HeardOf, Framer.Frames;
      RunTells(o, d1, inputs[1..], who);
      HearsTwice(o, d, d1, Serve(o, d1, inputs[1..]), who, ReadBy(d, i), ReadOctets(o, d1, inputs[1..]));
    }
  }

  // Exact reception from the start of the daemon: records, framing errors and residue are the parse of
  // all octets ever read from the device.
  lemma ExactReception<K>(o: Oracle, endpoint: Endpoint, inputs: seq<Input<K>>)
    requires CanServe(o, Boot(o, endpoint), inputs)
    ensures var t, octets := Serve(o, Boot(o, endpoint), inputs), ReadOctets(o, Boot(o, endpoint), inputs);
      t.received == octets && Framer.Frames(octets) == Parsed(Raws(t.store.records), t.framingErrors, t.acc)
  {
    BootOk<K>(o, endpoint);
    NothingReceivedYet<K>(o, endpoint);
    DaemonAlwaysOk(o, endpoint, inputs);
    RunTakes(o, Boot(o, endpoint), inputs);
    var octets := ReadOctets(o, Boot(o, endpoint), inputs);
    assert [] + octets == octets;
    hide HistoryOk, ViewsAgree, TransmissionOk, Boot, Serve, ReadOctets, CanServe, Recorded;
  }

  lemma NothingReceivedYet<K>(o: Oracle, endpoint: Endpoint)
    ensures Boot<K>(o, endpoint).received == []
  {
    BootOutcome<K>(o, endpoint);
    hide LinkStep, Begun, AllHear;
  }
}
