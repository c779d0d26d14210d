/** From the octets a client writes to the packets the device reads. */
module Delivery {
  import opened Bytes
  import opened SpacePacket
  import opened Incremental
  import opened LinkModel
  import opened LinkHistory
  import opened LinkProtocol
  import opened History
  import opened Router
  import opened RouterInvariant
  import opened Outcomes
  import Framer
  import IpcCodec

  lemma {:induction false} DataIsConcat(buffers: seq<Buffer>)
    ensures Data(buffers) == Concat(Payloads(buffers))
    decreases |buffers|
  {
    if buffers != [] {
      var n := |buffers| - 1;
      DataIsConcat(buffers[..n]);
      assert Payloads(buffers) == Payloads(buffers[..n]) + [buffers[n].data];
      ConcatSnoc(Payloads(buffers[..n]), buffers[n].data);
    }
  }

  /* What the device sees */

  lemma PrefixPart(a: bytes, w: bytes, b: bytes)
    requires a <= w <= a + b
    ensures w == a + b[..|w| - |a|]
  {
  }

  lemma AcceptedArePackets(x: Session, calls: seq<bytes>)
    requires SessionOk(x, calls) && forall p :: p in calls ==> IsPacket(p)
    ensures forall p :: p in Payloads(x.accepted) ==> IsPacket(p)
  {
    var all := Payloads(x.accepted);
    forall p | p in all ensures IsPacket(p) {
      var i :| 0 <= i < |all| && all[i] == p;
      assert x.accepted[i] in x.accepted;
    }
  }

  lemma DataOfFirst(x: Session, k: nat)
    requires k <= |x.accepted|
    ensures Data(x.accepted[..k]) == Concat(Payloads(x.accepted)[..k])
  {
    DataIsConcat(x.accepted[..k]);
    assert Payloads(x.accepted[..k]) == Payloads(x.accepted)[..k];
  }

  // Whatever clients send and however often the link fails and comes back: the octets of one
  // session are whole packets in the order they were accepted, and possibly the beginning of the next.
  lemma DeviceSeesWholePackets(x: Session, calls: seq<bytes>)
    requires SessionOk(x, calls) && forall p :: p in calls ==> IsPacket(p)
    ensures var seen := Framer.Frames(x.wire);
      seen.drops == 0 && seen.items <= Payloads(x.accepted) && |seen.items| >= x.completed
  {
    var c, all := x.completed, Payloads(x.accepted);
    AcceptedArePackets(x, calls);
    DataOfFirst(x, c);
    if c == |x.accepted| {
      WireIsPackets(all[..c], x.wire, []);
    } else {
      DataOfFirst(x, c + 1);
      PartOfNext(all, c, x.wire);
    }
  }

  // Whole packets and a part of the next one.
  lemma PartOfNext(all: seq<bytes>, c: nat, wire: bytes)
    requires c < |all| && forall p :: p in all ==> IsPacket(p)
    requires Concat(all[..c]) <= wire <= Concat(all[..c + 1])
    ensures var seen := Framer.Frames(wire);
      seen.drops == 0 && seen.items <= all && |seen.items| >= c
  {
    hide Concat, IsPacket, Framer.Frames, Framer.Scan;
    assert all[..c + 1] == all[..c] + [all[c]];
    ConcatSnoc(all[..c], all[c]);
    PrefixPart(Concat(all[..c]), wire, all[c]);
    var k := |wire| - |Concat(all[..c])|;
    if k < |all[c]| {
      Framer.UnfinishedWaits(all[c], k);
      WireIsPackets(all[..c], wire, all[c][..k]);
    } else {
      Framer.NothingWaits();
      WireIsPackets(all[..c + 1], wire, []);
    }
  }

  lemma WireIsPackets(packets: seq<bytes>, wire: bytes, tail: bytes)
    requires forall p :: p in packets ==> IsPacket(p)
    requires wire == Concat(packets) + tail && Framer.Scan(tail).Wait?
    ensures Framer.Frames(wire) == Parsed(packets, 0, tail)
  {
    Framer.ExactPackets(packets, tail);
  }

  // The same for every session of every reachable daemon, for any framer that started with the
  // session, at every moment and for every way the stream is cut.
  lemma DeviceNeverLosesFraming<K>(d: Daemon<K>, x: Session, chunks: seq<bytes>)
    requires DaemonOk(d) && x in d.link.past + [d.link.current] && Concat(chunks) <= x.wire
    ensures Lawful(Framer.Scan)
    ensures var seen := FeedAll(Framer.Scan, Parsed([], 0, []), chunks);
      seen.drops == 0 && seen.items <= Payloads(x.accepted)
  {
    SessionOfDaemon(d, x);
    DeviceSeesWholePackets(x, d.link.calls);
    Framer.PartOfStream(x.wire, chunks);
  }

  lemma SessionOfDaemon<K>(d: Daemon<K>, x: Session)
    requires DaemonOk(d) && x in d.link.past + [d.link.current]
    ensures SessionOk(x, d.link.calls) && forall p :: p in d.link.calls ==> IsPacket(p)
  {
  }

  /* Who sends what */

  datatype Sending<K> = Sending(who: K, packet: bytes)

  // The packets some frames ask to be sent.
  function PacketsIn(fs: seq<IpcCodec.Frame>): seq<bytes> {
    if fs == [] then []
    else
      (if fs[0].kind == IpcCodec.PACKET_SEND && IsPacket(fs[0].payload) then [fs[0].payload] else []) + PacketsIn(fs[1..])
  }

  function By<K>(who: K, packets: seq<bytes>): (r: seq<Sending<K>>)
    ensures |r| == |packets| && forall i :: 0 <= i < |r| ==> r[i] == Sending(who, packets[i])
  {
    seq(|packets|, i requires 0 <= i < |packets| => Sending(who, packets[i]))
  }

  function PacketsOf<K>(xs: seq<Sending<K>>): (r: seq<bytes>)
    ensures |r| == |xs| && forall i :: 0 <= i < |r| ==> r[i] == xs[i].packet
  {
    seq(|xs|, i requires 0 <= i < |xs| => xs[i].packet)
  }

  ghost function Of<K>(xs: seq<Sending<K>>, who: K): seq<bytes> {
    if xs == [] then [] else (if xs[0].who == who then [xs[0].packet] else []) + Of(xs[1..], who)
  }

  lemma {:induction false} OfAppend<K>(a: seq<Sending<K>>, b: seq<Sending<K>>, who: K)
    ensures Of(a + b, who) == Of(a, who) + Of(b, who)
    decreases |a|
  {
    if a == [] {
      assert a + b == b;
    } else {
      assert (a + b)[1..] == a[1..] + b;
      OfAppend(a[1..], b, who);
    }
  }

  lemma {:induction false} OfBy<K>(sender: K, packets: seq<bytes>, who: K)
    ensures Of(By(sender, packets), who) == if sender == who then packets else []
    decreases |packets|
  {
    if packets != [] {
      assert By(sender, packets)[1..] == By(sender, packets[1..]);
      OfBy(sender, packets[1..], who);
    }
  }

  lemma {:induction false} OneSender<K>(xs: seq<Sending<K>>, who: K)
    requires forall x :: x in xs ==> x.who == who
    ensures Of(xs, who) == PacketsOf(xs)
    decreases |xs|
  {
    if xs != [] {
      OneSender(xs[1..], who);
      assert PacketsOf(xs) == [xs[0].packet] + PacketsOf(xs[1..]);
    }
  }

  lemma {:induction false} PacketsInAppend(a: seq<IpcCodec.Frame>, b: seq<IpcCodec.Frame>)
    ensures PacketsIn(a + b) == PacketsIn(a) + PacketsIn(b)
    decreases |a|
  {
    hide IsPacket;
    if a == [] {
      assert a + b == b;
    } else {
      assert (a + b)[1..] == a[1..] + b;
      PacketsInAppend(a[1..], b);
    }
  }

  // The packets among some requests.
  function PacketsAsked(rs: seq<Request>): seq<bytes> {
    if rs == [] then []
    else (if rs[0].Route? && IsPacket(rs[0].packet) then [rs[0].packet] else []) + PacketsAsked(rs[1..])
  }

  lemma AskedFirst(rs: seq<Request>)
    ensures PacketsAsked(rs) == if rs == [] then [] else PacketsAsked([rs[0]]) + PacketsAsked(rs[1..])
  {
    hide IsPacket;
    if rs != [] {
      assert [rs[0]][1..] == [];
    }
  }

  lemma {:induction false} AskedByFrames(fs: seq<IpcCodec.Frame>)
    ensures PacketsAsked(RequestsOf(IpcCodec.Handled(fs))) == PacketsIn(fs)
    decreases |fs|
  {
    hide IsPacket, ParseCommand;
    if fs != [] {
      AskedByFrames(fs[1..]);
      var later := IpcCodec.Handled(fs[1..]);
      if IpcCodec.IsHandled(fs[0]) {
        assert IpcCodec.Handled(fs) == [fs[0]] + later;
        assert RequestsOf([fs[0]] + later)[1..] == RequestsOf(later);
      } else {
        assert IpcCodec.Handled(fs) == later;
      }
    }
  }

  // The frames that a read completes.
  ghost function Completed<K>(d: Daemon<K>, who: K, chunk: bytes): seq<IpcCodec.Frame>
    requires who in d.clients
  {
    IpcCodec.Frames(d.clients[who].inbox + chunk).items
  }

  ghost function SentBy<K>(d: Daemon<K>, i: Input<K>): seq<Sending<K>>
    requires CanTake(d, i)
  {
    if i.FromClient? then By(i.who, PacketsIn(Completed(d, i.who, i.chunk))) else []
  }

  // Everything clients ask to be sent, in the order the daemon hears of it.
  ghost function Sent<K>(o: Oracle, d: Daemon<K>, inputs: seq<Input<K>>): seq<Sending<K>>
    requires CanServe(o, d, inputs)
    decreases |inputs|
  {
    if inputs == [] then [] else SentBy(d, inputs[0]) + Sent(o, Take(o, d, inputs[0]), inputs[1..])
  }

  // The octets that arrive from one client.
  ghost function Arrived<K>(inputs: seq<Input<K>>, who: K): bytes {
    if inputs == [] then []
    else (if inputs[0].FromClient? && inputs[0].who == who then inputs[0].chunk else []) + Arrived(inputs[1..], who)
  }

  /* Inboxes */

  ghost predicate SameInboxes<K>(d: Daemon<K>, t: Daemon<K>) {
    t.clients.Keys == d.clients.Keys && forall k :: k in d.clients ==> t.clients[k].inbox == d.clients[k].inbox
  }

  lemma {:induction false} PacketsKeepInboxes<K>(o: Oracle, d: Daemon<K>, packets: seq<bytes>)
    ensures SameInboxes(d, OnPackets(o, d, packets))
    decreases |packets|
  {
    if packets != [] {
      PacketsKeepInboxes(o, OnPacket(o, d, packets[0]), packets[1..]);
    }
  }

  lemma LinkStepKeepsInboxes<K>(o: Oracle, d: Daemon<K>, e: Event)
    requires Enabled(d.link, e)
    ensures SameInboxes(d, LinkStep(o, d, e))
  {
    hide Step, Enabled;
    UpcallMatches(d.link, e);
    var (m, ups) := Step(d.link, e);
    var d1 := d.(link := m);
    if ups != [] {
      assert OnUpcalls(o, d1, ups) == OnUpcall(o, d1, ups[0]);
      if ups[0].Received? {
        PacketsKeepInboxes(o, Absorb(d1, ups[0].data), Framer.Frames(d1.acc + ups[0].data).items);
      }
    }
  }

  lemma RequestKeepsInboxes<K>(o: Oracle, d: Daemon<K>, who: K, r: Request)
    ensures SameInboxes(d, OnRequest(o, d, who, r))
  {
    hide LinkStep;
    match r {
      case Route(packet) => LinkStepKeepsInboxes(o, d, WriteBytes(packet));
      case Run(_) =>
        LinkStepKeepsInboxes(o, d, Stop);
        LinkStepKeepsInboxes(o, d, Start(NextAnswer(o, d.link)));
        var d1 := LinkStep(o, d, Stop);
        LinkStepKeepsInboxes(o, d1, Start(NextAnswer(o, d1.link)));
    }
  }

  lemma {:induction false} RequestsKeepInboxes<K>(o: Oracle, d: Daemon<K>, who: K, rs: seq<Request>)
    ensures SameInboxes(d, OnRequests(o, d, who, rs))
    decreases |rs|
  {
    hide OnRequest;
    if rs != [] {
      RequestKeepsInboxes(o, d, who, rs[0]);
      RequestsKeepInboxes(o, OnRequest(o, d, who, rs[0]), who, rs[1..]);
    }
  }

  ghost function InboxAfter<K>(d: Daemon<K>, i: Input<K>, k: K): bytes {
    if i == Accepted(k) || k !in d.clients then []
    else if i.FromClient? && i.who == k then IpcCodec.Frames(d.clients[k].inbox + i.chunk).rest
    else d.clients[k].inbox
  }

  // An input changes nobody's inbox but its sender's.
  lemma TakeInboxes<K>(o: Oracle, d: Daemon<K>, i: Input<K>)
    requires CanTake(d, i)
    ensures var t := Take(o, d, i);
      && (forall k :: k in t.clients <==> (k in d.clients && i != Gone(k)) || i == Accepted(k))
      && forall k :: k in t.clients ==> t.clients[k].inbox == InboxAfter(d, i, k)
  {
    match i {
      case FromClient(who, chunk) =>
        var p := IpcCodec.Frames(d.clients[who].inbox + chunk);
        RequestsKeepInboxes(o, d.(clients := d.clients[who := d.clients[who].(inbox := p.rest)]), who,
                            RequestsOf(IpcCodec.Handled(p.items)));
      case FromDevice(e) => LinkStepKeepsInboxes(o, d, e);
      case _ =>
    }
  }

  ghost predicate InboxesWait<K>(d: Daemon<K>) {
    forall k :: k in d.clients ==> IpcCodec.Scan(d.clients[k].inbox).Wait?
  }

  // In every run no inbox ever keeps a frame that could be handled.
  lemma {:induction false} InboxesAlwaysWait<K>(o: Oracle, d: Daemon<K>, inputs: seq<Input<K>>)
    requires CanServe(o, d, inputs) && InboxesWait(d)
    ensures InboxesWait(Serve(o, d, inputs))
    decreases |inputs|
  {
    if inputs != [] {
      InboxesWaitAfter(o, d, inputs[0]);
      InboxesAlwaysWait(o, Take(o, d, inputs[0]), inputs[1..]);
    }
  }

  lemma InboxesWaitAfter<K>(o: Oracle, d: Daemon<K>, i: Input<K>)
    requires CanTake(d, i) && InboxesWait(d)
    ensures InboxesWait(Take(o, d, i))
  {
    TakeInboxes(o, d, i);
    IpcCodec.ScanLawful();
    if i.FromClient? {
      RestWaits(IpcCodec.Scan, d.clients[i.who].inbox + i.chunk);
    }
    IpcCodec.NothingWaits();
    hide IpcCodec.Scan, IpcCodec.Frames, Take, CanTake;
    forall k | k in Take(o, d, i).clients ensures IpcCodec.Scan(Take(o, d, i).clients[k].inbox).Wait? {
      assert Take(o, d, i).clients[k].inbox == InboxAfter(d, i, k);
    }
  }

  // In every run, whatever else happens: what a client asks to be sent is what its octets say, however
  // they are cut, and the unfinished rest is kept.
  lemma {:induction false} SentIsArrived<K>(o: Oracle, d: Daemon<K>, inputs: seq<Input<K>>, who: K)
    requires CanServe(o, d, inputs) && who in d.clients && Gone(who) !in inputs
    requires IpcCodec.Scan(d.clients[who].inbox).Wait?
    ensures var t, p := Serve(o, d, inputs), IpcCodec.Frames(d.clients[who].inbox + Arrived(inputs, who));
      who in t.clients && t.clients[who].inbox == p.rest && Of(Sent(o, d, inputs), who) == PacketsIn(p.items)
    decreases |inputs|
  {
    var inbox := d.clients[who].inbox;
    IpcCodec.ScanLawful();
    if inputs == [] {
      WaitingIsRest(IpcCodec.Scan, inbox);
      assert inbox + Arrived(inputs, who) == inbox;
    } else {
      var i := inputs[0];
      var d1, later := Take(o, d, i), Arrived(inputs[1..], who);
      assert i in inputs;
      TakeInboxes(o, d, i);
      OfAppend(SentBy(d, i), Sent(o, d1, inputs[1..]), who);
      if i.FromClient? && i.who == who {
        RestWaits(IpcCodec.Scan, inbox + i.chunk);
        SentIsArrived(o, d1, inputs[1..], who);
        SentNow(inbox, i.chunk, later, who);
      } else {
        if i.FromClient? { OfBy(i.who, PacketsIn(Completed(d, i.who, i.chunk)), who); }
        SentIsArrived(o, d1, inputs[1..], who);
        assert Arrived(inputs, who) == later;
      }
    }
  }

  // A client's read, then the rest of its octets.
  lemma SentNow<K>(inbox: bytes, chunk: bytes, later: bytes, who: K)
    ensures var p := IpcCodec.Frames(inbox + chunk);
      var q, all := IpcCodec.Frames(p.rest + later), IpcCodec.Frames(inbox + (chunk + later));
      all.rest == q.rest && PacketsIn(all.items) == Of(By(who, PacketsIn(p.items)), who) + PacketsIn(q.items)
  {
    IpcCodec.ScanLawful();
    ParseSplit(IpcCodec.Scan, inbox + chunk, later);
    Regrouped(inbox, chunk, later);
    var p := IpcCodec.Frames(inbox + chunk);
    PacketsInAppend(p.items, IpcCodec.Frames(p.rest + later).items);
    OfBy(who, PacketsIn(p.items), who);
  }

  /* Exact delivery */

  predicate CyclesLink(r: Request) {
    r == Run(Disconnecting) || r == Run(Reconnecting)
  }

  // An input that cannot end the present session of an open link: no client cycles the link, and no
  // operation of the present generation fails. Anything else may happen.
  ghost predicate IsCalm<K>(d: Daemon<K>, i: Input<K>)
    requires CanTake(d, i)
  {
    match i
    case FromClient(who, chunk) =>
      forall r :: r in RequestsOf(IpcCodec.Handled(Completed(d, who, chunk))) ==> !CyclesLink(r)
    case FromDevice(e) => LinkProtocol.IsCalm(d.link, e)
    case _ => true
  }

  ghost predicate AllCalm<K>(o: Oracle, d: Daemon<K>, inputs: seq<Input<K>>)
    requires CanServe(o, d, inputs)
    decreases |inputs|
  {
    inputs == [] || (IsCalm(d, inputs[0]) && AllCalm(o, Take(o, d, inputs[0]), inputs[1..]))
  }

  // `m` is `l`, open and in the same session, with some packets added to the line.
  ghost predicate Joined(l: Link, m: Link, packets: seq<bytes>) {
    m.isOpen && m.past == l.past && Payloads(Lineup(m)) == Payloads(Lineup(l)) + packets
  }

  lemma JoinedNothing(l: Link)
    requires l.isOpen
    ensures Joined(l, l, [])
  {
    assert Payloads(Lineup(l)) + [] == Payloads(Lineup(l));
  }

  lemma PacketsOfAppend<K>(a: seq<Sending<K>>, b: seq<Sending<K>>)
    ensures PacketsOf(a + b) == PacketsOf(a) + PacketsOf(b)
  {
  }

  lemma JoinedTwice(l: Link, m: Link, n: Link, a: seq<bytes>, b: seq<bytes>)
    requires Joined(l, m, a) && Joined(m, n, b)
    ensures Joined(l, n, a + b)
  {
    Regrouped(Payloads(Lineup(l)), a, b);
  }

  lemma JoinedByWrite(l: Link, packet: bytes)
    requires l.isOpen && packet != []
    ensures Joined(l, DoWriteBytes(l, packet), [packet])
  {
    assert Lineup(DoWriteBytes(l, packet)) == Lineup(l) + [Buffer(|l.calls|, packet)];
  }

  // On an open link a request that does not cycle it adds its packet, if it has one, and nothing else.
  lemma RequestJoins<K>(o: Oracle, d: Daemon<K>, who: K, r: Request)
    requires d.link.isOpen && !CyclesLink(r)
    ensures Joined(d.link, OnRequest(o, d, who, r).link, PacketsAsked([r]))
  {
    JoinedNothing(d.link);
    match r {
      case Route(packet) =>
        RoutedIff(o, d, who, packet);
        if IsPacket(packet) { JoinedByWrite(d.link, packet); }
      case Run(_) =>
    }
  }

  lemma {:induction false} RequestsJoin<K>(o: Oracle, d: Daemon<K>, who: K, rs: seq<Request>)
    requires d.link.isOpen && forall r :: r in rs ==> !CyclesLink(r)
    ensures Joined(d.link, OnRequests(o, d, who, rs).link, PacketsAsked(rs))
    decreases |rs|
  {
    AskedFirst(rs);
    hide OnRequest, CyclesLink, PacketsAsked;
    if rs == [] {
      JoinedNothing(d.link);
    } else {
      var d1 := OnRequest(o, d, who, rs[0]);
      RequestJoins(o, d, who, rs[0]);
      OpenIfJoined(d.link, d1.link, PacketsAsked([rs[0]]));
      hide Joined;
      RequestsJoin(o, d1, who, rs[1..]);
      JoinedTwice(d.link, d1.link, OnRequests(o, d1, who, rs[1..]).link, PacketsAsked([rs[0]]), PacketsAsked(rs[1..]));
    }
  }

  lemma TakeJoins<K>(o: Oracle, d: Daemon<K>, i: Input<K>)
    requires DaemonOk(d) && d.link.isOpen && CanTake(d, i) && IsCalm(d, i)
    ensures Joined(d.link, Take(o, d, i).link, PacketsOf(SentBy(d, i)))
  {
    JoinedNothing(d.link);
    match i {
      case FromClient(who, chunk) =>
        var p := IpcCodec.Frames(d.clients[who].inbox + chunk);
        AskedByFrames(p.items);
        RequestsJoin(o, d.(clients := d.clients[who := d.clients[who].(inbox := p.rest)]), who,
                     RequestsOf(IpcCodec.Handled(p.items)));
        assert PacketsOf(SentBy(d, i)) == PacketsIn(p.items);
      case FromDevice(e) =>
        LinkProtocol.CalmStep(d.link, e);
        LinkStepOk(o, d, e);
        assert Lineup(d.link) + [] == Lineup(d.link);
      case _ =>
    }
  }

  lemma OpenIfJoined(l: Link, m: Link, packets: seq<bytes>)
    requires Joined(l, m, packets)
    ensures m.isOpen
  {
  }

  // While nobody ends the session, the line holds what it held and everything sent since, in order.
  lemma {:induction false} KeepsUp<K>(o: Oracle, d: Daemon<K>, inputs: seq<Input<K>>)
    requires DaemonOk(d) && d.link.isOpen && CanServe(o, d, inputs) && AllCalm(o, d, inputs)
    ensures Joined(d.link, Serve(o, d, inputs).link, PacketsOf(Sent(o, d, inputs)))
    decreases |inputs|
  {
    hide DaemonOk, Take, CanTake, IsCalm, SentBy, PacketsOf;
    if inputs == [] {
      JoinedNothing(d.link);
      assert PacketsOf<K>([]) == [];
    } else {
      var d1 := Take(o, d, inputs[0]);
      TakeJoins(o, d, inputs[0]);
      OpenIfJoined(d.link, d1.link, PacketsOf(SentBy(d, inputs[0])));
      TakeOk(o, d, inputs[0]);
      hide Joined;
      KeepsUp(o, d1, inputs[1..]);
      var now, later := SentBy(d, inputs[0]), Sent(o, d1, inputs[1..]);
      JoinedTwice(d.link, d1.link, Serve(o, d1, inputs[1..]).link, PacketsOf(now), PacketsOf(later));
      PacketsOfAppend(now, later);
    }
  }

  // From any reachable daemon with an open link, for any clients: at every moment until somebody ends
  // the session, the device has whole packets, in order, out of what was in line and what clients sent
  // since; when all writes completed it has exactly these.
  lemma ExactDelivery<K>(o: Oracle, d: Daemon<K>, inputs: seq<Input<K>>)
    requires DaemonOk(d) && d.link.isOpen && CanServe(o, d, inputs) && AllCalm(o, d, inputs)
    ensures var l, all := Serve(o, d, inputs).link, Payloads(Lineup(d.link)) + PacketsOf(Sent(o, d, inputs));
      && l.isOpen && l.past == d.link.past
      && Framer.Frames(l.current.wire).drops == 0 && Framer.Frames(l.current.wire).items <= all
      && (l.posted == [] && l.tx == [] ==> Framer.Frames(l.current.wire) == Parsed(all, 0, []))
  {
    KeepsUp(o, d, inputs);
    ServeOk(o, d, inputs);
    hide DaemonOk, Sent;
    LineupOnWire(Serve(o, d, inputs));
  }

  lemma AllCompleted(l: Link)
    requires HistoryOk(l) && l.isOpen && l.tx == []
    ensures l.current.wire == Concat(Payloads(l.current.accepted))
  {
    assert LinkHistory.Completed(l.current) == l.current.accepted;
    DataIsConcat(l.current.accepted);
  }

  lemma LineupOnWire<K>(d: Daemon<K>)
    requires DaemonOk(d) && d.link.isOpen
    ensures var l, all := d.link, Payloads(Lineup(d.link));
      && Framer.Frames(l.current.wire).drops == 0 && Framer.Frames(l.current.wire).items <= all
      && (l.posted == [] && l.tx == [] ==> Framer.Frames(l.current.wire) == Parsed(all, 0, []))
  {
    var l := d.link;
    hide DaemonOk, SessionOk, HistoryOk, Framer.Frames;
    LinkFacts(d);
    SessionOnWire(l);
    assert Payloads(Lineup(l)) == Payloads(l.current.accepted) + Payloads(l.posted);
  }

  lemma LinkFacts<K>(d: Daemon<K>)
    requires DaemonOk(d) && d.link.isOpen
    ensures SessionOk(d.link.current, d.link.calls) && forall p :: p in d.link.calls ==> IsPacket(p)
    ensures d.link.tx == [] ==> d.link.current.wire == Concat(Payloads(d.link.current.accepted))
  {
    if d.link.tx == [] { AllCompleted(d.link); }
  }

  lemma SessionOnWire(l: Link)
    requires SessionOk(l.current, l.calls) && forall p :: p in l.calls ==> IsPacket(p)
    ensures var wire, all := l.current.wire, Payloads(l.current.accepted);
      && Framer.Frames(wire).drops == 0 && Framer.Frames(wire).items <= all
      && (wire == Concat(all) ==> Framer.Frames(wire) == Parsed(all, 0, []))
  {
    var wire, all := l.current.wire, Payloads(l.current.accepted);
    DeviceSeesWholePackets(l.current, l.calls);
    AcceptedArePackets(l.current, l.calls);
    hide SessionOk, IsPacket, Payloads, Framer.Frames;
    if wire == Concat(all) {
      Framer.NothingWaits();
      assert Concat(all) + [] == wire;
      WireIsPackets(all, wire, []);
    }
  }

  // A part of some encoded frames decodes to the first of them.
  lemma DecodedPart(fs: seq<IpcCodec.Frame>, part: bytes)
    requires forall f :: f in fs ==> IpcCodec.Sendable(f)
    requires part <= IpcCodec.Wire(fs)
    ensures IpcCodec.Frames(part).items <= fs
    ensures part == IpcCodec.Wire(fs) ==> IpcCodec.Frames(part) == Parsed(fs, 0, [])
  {
    var all := IpcCodec.Wire(fs);
    IpcCodec.NothingWaits();
    IpcCodec.DecodesExactly(fs, []);
    assert all + [] == all && part + all[|part|..] == all;
    IpcCodec.ScanLawful();
    ItemsGrow(IpcCodec.Scan, part, all[|part|..]);
  }

  // One client's share: frames it writes to a daemon that has nothing unread from it, cut in any way,
  // contribute exactly their packets.
  lemma ClientShare<K>(o: Oracle, d: Daemon<K>, inputs: seq<Input<K>>, who: K, fs: seq<IpcCodec.Frame>)
    requires CanServe(o, d, inputs) && who in d.clients && d.clients[who].inbox == [] && Gone(who) !in inputs
    requires forall f :: f in fs ==> IpcCodec.Sendable(f)
    requires Arrived(inputs, who) <= IpcCodec.Wire(fs)
    ensures Of(Sent(o, d, inputs), who) <= PacketsIn(fs)
    ensures Arrived(inputs, who) == IpcCodec.Wire(fs) ==> Of(Sent(o, d, inputs), who) == PacketsIn(fs)
  {
    hide CanServe, Serve, Sent, IpcCodec.Scan, IpcCodec.Sendable, Arrived, IpcCodec.Frames, PacketsIn, Of, IpcCodec.Wire;
    IpcCodec.NothingWaits();
    SentIsArrived(o, d, inputs, who);
    var part := Arrived(inputs, who);
    assert [] + part == part;
    PacketsInPart(fs, part);
  }

  lemma PacketsInPart(fs: seq<IpcCodec.Frame>, part: bytes)
    requires forall f :: f in fs ==> IpcCodec.Sendable(f)
    requires part <= IpcCodec.Wire(fs)
    ensures var got := PacketsIn(IpcCodec.Frames(part).items);
      got <= PacketsIn(fs) && (part == IpcCodec.Wire(fs) ==> got == PacketsIn(fs))
  {
    hide IpcCodec.Sendable, IpcCodec.Frames, PacketsIn, IpcCodec.Wire;
    DecodedPart(fs, part);
    var got := IpcCodec.Frames(part).items;
    assert fs == got + fs[|got|..];
    PacketsInAppend(got, fs[|got|..]);
  }

  // End to end: a session that just opened, one client's frames cut in any way, nobody else's packets,
  // the device's octets read in any pieces. Once all octets arrived and all writes completed, a framer
  // has exactly the frames' packets, no error, and nothing left over.
  lemma EndToEnd<K>(o: Oracle, d: Daemon<K>, inputs: seq<Input<K>>, who: K, fs: seq<IpcCodec.Frame>, chunks: seq<bytes>)
    requires DaemonOk(d) && d.link.isOpen && Lineup(d.link) == []
    requires CanServe(o, d, inputs) && AllCalm(o, d, inputs)
    requires who in d.clients && d.clients[who].inbox == [] && Gone(who) !in inputs
    requires forall f :: f in fs ==> IpcCodec.Sendable(f)
    requires Arrived(inputs, who) == IpcCodec.Wire(fs) && forall x :: x in Sent(o, d, inputs) ==> x.who == who
    requires var l := Serve(o, d, inputs).link; l.posted == [] && l.tx == [] && Concat(chunks) == l.current.wire
    ensures Lawful(Framer.Scan)
    ensures FeedAll(Framer.Scan, Parsed([], 0, []), chunks) == Parsed(PacketsIn(fs), 0, [])
  {
    hide DaemonOk, CanServe, Serve, AllCalm, Sent, Of, PacketsOf, Arrived, PacketsIn, Framer.Scan, FeedAll, IpcCodec.Wire, IpcCodec.Sendable;
    ExactDeliveryToAnyFramer(o, d, inputs, chunks);
    ClientShare(o, d, inputs, who, fs);
    OneSender(Sent(o, d, inputs), who);
    assert Payloads([]) + PacketsIn(fs) == PacketsIn(fs);
  }

  // The device's octets since the session opened, in any pieces, for any start and any clients.
  lemma ExactDeliveryToAnyFramer<K>(o: Oracle, d: Daemon<K>, inputs: seq<Input<K>>, chunks: seq<bytes>)
    requires DaemonOk(d) && d.link.isOpen && CanServe(o, d, inputs) && AllCalm(o, d, inputs)
    requires var l := Serve(o, d, inputs).link; l.posted == [] && l.tx == [] && Concat(chunks) == l.current.wire
    ensures Lawful(Framer.Scan)
    ensures FeedAll(Framer.Scan, Parsed([], 0, []), chunks)
            == Parsed(Payloads(Lineup(d.link)) + PacketsOf(Sent(o, d, inputs)), 0, [])
  {
    hide DaemonOk, AllCalm, CanServe, Sent, PacketsOf;
    ExactDelivery(o, d, inputs);
    Framer.PartOfStream(Serve(o, d, inputs).link.current.wire, chunks);
  }

  /* Delivery can always be completed */

  // What the device does next when nothing goes wrong.
  function NextEvent(l: Link): Event {
    if l.posted != [] || l.tx == [] then RunPosted
    else if l.sent < |l.tx[0].data| then Transfer(|l.tx[0].data| - l.sent)
    else Complete(Write(l.generation, l.tx[0]), Ok([]))
  }

  function Unsent(l: Link): nat {
    if l.tx == [] || l.sent > |l.tx[0].data| then 0 else |l.tx[0].data| - l.sent
  }

  lemma NextEventHelps(l: Link)
    requires LifecycleOk(l) && l.isOpen && (l.posted != [] || l.tx != [])
    ensures Enabled(l, NextEvent(l)) && LinkProtocol.IsCalm(l, NextEvent(l))
    ensures var m := Step(l, NextEvent(l)).0;
      || |m.posted| < |l.posted|
      || (m.posted == l.posted && |m.tx| < |l.tx|)
      || (m.posted == l.posted && m.tx == l.tx && Unsent(m) < Unsent(l))
  {
  }

  // From every reachable daemon with an open link the writes can all complete, and then the device has
  // exactly what was in line.
  lemma {:induction false} CanFinish<K>(o: Oracle, d: Daemon<K>) returns (inputs: seq<Input<K>>)
    requires DaemonOk(d) && d.link.isOpen
    ensures CanServe(o, d, inputs) && AllCalm(o, d, inputs) && Sent(o, d, inputs) == []
    ensures var l := Serve(o, d, inputs).link;
      l.posted == [] && l.tx == [] && Framer.Frames(l.current.wire) == Parsed(Payloads(Lineup(d.link)), 0, [])
    decreases |d.link.posted|, |d.link.tx|, Unsent(d.link)
  {
    if d.link.posted == [] && d.link.tx == [] {
      inputs := [];
      LineupOnWire(d);
    } else {
      var i: Input<K> := FromDevice(NextEvent(d.link));
      NextEventHelps(d.link);
      LinkStepOk(o, d, i.event);
      TakeJoins(o, d, i);
      hide DaemonOk, Step, LinkStep, LinkProtocol.IsCalm;
      assert CanTake(d, i) && IsCalm(d, i) && SentBy(d, i) == [];
      var d1 := Take(o, d, i);
      var rest := CanFinish(o, d1);
      inputs := [i] + rest;
      assert inputs[1..] == rest;
    }
  }

  // A daemon with a device that answers gets there, with a client connected.
  lemma ReadyToDeliver<K>(o: Oracle, endpoint: Endpoint, who: K) returns (inputs: seq<Input<K>>)
    requires endpoint != Serial("") && (endpoint.Serial? ==> o.open(1) == Opened)
    ensures CanServe(o, Boot(o, endpoint), inputs)
    ensures var d := Serve(o, Boot(o, endpoint), inputs);
      DaemonOk(d) && d.link.isOpen && Lineup(d.link) == [] && who in d.clients && d.clients[who].inbox == []
  {
    var d0, i0: Input<K> := Boot<K>(o, endpoint), Accepted(who);
    StartedWith<K>(o, endpoint);
    hide DaemonOk, Boot, LinkStep, Lineup, Step, Take, Serve, CanServe, IsResolving;
    FirstClient(o, d0, who);
    var d1, rest: seq<Input<K>> := Take(o, d0, i0), [];
    ServeNothing(o, d1);
    if endpoint.Tcp? {
      rest := ConnectsOverTcp(o, d1, who);
    }
    ServeFirst(o, d0, i0, rest);
    inputs := [i0] + rest;
  }

  lemma FirstClient<K>(o: Oracle, d: Daemon<K>, who: K)
    requires DaemonOk(d) && d.clients == map[]
    ensures CanTake(d, Accepted(who))
    ensures var t := Take(o, d, Accepted(who));
      DaemonOk(t) && t.link == d.link && who in t.clients && t.clients[who].inbox == []
  {
    hide DaemonOk;
    TakeOk(o, d, Accepted(who));
  }

  lemma StartedWith<K>(o: Oracle, endpoint: Endpoint)
    requires endpoint != Serial("") && (endpoint.Serial? ==> o.open(1) == Opened)
    ensures var d := Boot<K>(o, endpoint);
      && DaemonOk(d) && d.clients == map[] && Lineup(d.link) == []
      && d.link.isOpen == endpoint.Serial? && (endpoint.Tcp? ==> IsResolving(d.link) && d.link.posted == [])
  {
    BootOk<K>(o, endpoint);
    var blank := Blank<K>(endpoint);
    var e := Start(NextAnswer(o, blank.link));
    LinkStepKeepsInboxes(o, blank, e);
    LinkOfStep(o, blank, e);
    hide DaemonOk, LinkStep;
  }

  predicate IsResolving(l: Link) {
    l.generation == 1 && l.pending == multiset{Resolve(1)}
  }

  lemma ConnectsOverTcp<K>(o: Oracle, d: Daemon<K>, who: K) returns (inputs: seq<Input<K>>)
    requires DaemonOk(d) && IsResolving(d.link) && d.link.posted == [] && who in d.clients && d.clients[who].inbox == []
    ensures CanServe(o, d, inputs)
    ensures var t := Serve(o, d, inputs);
      DaemonOk(t) && t.link.isOpen && Lineup(t.link) == [] && who in t.clients && t.clients[who].inbox == []
  {
    var resolved, connected := Complete(Resolve(1), Ok([])), Complete(Connect(1), Ok([]));
    hide DaemonOk, LinkStep, Take, Serve, CanServe, DoComplete, Lineup;
    ResolvedAndConnected(d.link);
    assert CanTake(d, FromDevice(resolved));
    StepWithClient(o, d, resolved, who);
    var d2 := Take(o, d, FromDevice(resolved));
    assert CanTake(d2, FromDevice(connected));
    StepWithClient(o, d2, connected, who);
    var d3 := Take(o, d2, FromDevice(connected));
    hide CanTake, Step, Enabled;
    ServeNothing(o, d3);
    ServeFirst(o, d2, FromDevice(connected), []);
    ServeFirst(o, d, FromDevice(resolved), [FromDevice(connected)] + []);
    inputs := [FromDevice(resolved)] + ([FromDevice(connected)] + []);
  }

  lemma ResolvedAndConnected(l: Link)
    requires IsResolving(l) && l.posted == []
    ensures var m := DoComplete(l, Resolve(1), Ok([])).0;
      Connect(1) in m.pending && DoComplete(m, Connect(1), Ok([])).0.isOpen
      && Lineup(DoComplete(m, Connect(1), Ok([])).0) == []
  {
  }

  lemma ServeNothing<K>(o: Oracle, d: Daemon<K>)
    ensures CanServe(o, d, []) && Serve(o, d, []) == d
  {
  }

  lemma ServeFirst<K>(o: Oracle, d: Daemon<K>, i: Input<K>, rest: seq<Input<K>>)
    requires CanTake(d, i) && CanServe(o, Take(o, d, i), rest)
    ensures CanServe(o, d, [i] + rest) && Serve(o, d, [i] + rest) == Serve(o, Take(o, d, i), rest)
  {
    assert ([i] + rest)[1..] == rest;
  }

  lemma StepWithClient<K>(o: Oracle, d: Daemon<K>, e: Event, who: K)
    requires DaemonOk(d) && CanTake(d, FromDevice(e)) && who in d.clients && d.clients[who].inbox == []
    ensures var t := Take(o, d, FromDevice(e));
      DaemonOk(t) && t.link == Step(d.link, e).0 && who in t.clients && t.clients[who].inbox == []
  {
    LinkStepOk(o, d, e);
    LinkStepKeepsInboxes(o, d, e);
  }
}
