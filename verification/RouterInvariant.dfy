/** What every reachable state of the daemon satisfies. */
module RouterInvariant {
  import opened Bytes
  import opened SpacePacket
  import opened Incremental
  import opened LinkModel
  import opened LinkHistory
  import opened History
  import opened Router
  import Framer
  import IpcCodec

  // The last link report in a session's log.
  function LatestReport(log: seq<Notice>): Option<Notice> {
    if log == [] then None
    else if log[|log| - 1].LinkReport? then Some(log[|log| - 1])
    else LatestReport(log[..|log| - 1])
  }

  // A session is greeted, then told the link state.
  predicate Greeted(log: seq<Notice>) {
    |log| >= 2 && log[0] == Hello && log[1].LinkReport?
  }

  ghost predicate AllGreeted<K>(d: Daemon<K>) {
    forall k :: k in d.clients ==> Greeted(d.clients[k].sent)
  }

  // The bookkeeping says Connected exactly when the device is open, and then names it.
  ghost predicate StoreAgrees<K>(d: Daemon<K>) {
    && (d.store.status == Connected <==> d.link.isOpen)
    && (d.store.status == Connected ==> d.store.detail == Named(EndpointText(d.link.endpoint)))
  }

  // The last thing every live session heard about the link is its present state and detail.
  ghost predicate AllTold<K>(d: Daemon<K>) {
    forall k :: k in d.clients ==> LatestReport(d.clients[k].sent) == Some(LinkReport(d.store.status, d.store.detail))
  }

  ghost predicate ViewsAgree<K>(d: Daemon<K>) {
    StoreAgrees(d) && AllGreeted(d) && AllTold(d)
  }

  // Everything the link ever handed up, over all its sessions, is one framed stream.
  ghost predicate ReceptionOk<K>(d: Daemon<K>) {
    && Framer.Frames(d.received) == Parsed(Raws(d.store.records), d.framingErrors, d.acc)
    && d.store.decodeErrors == 0
  }

  // The transmit counters count the calls on the link, and only whole packets get that far.
  ghost predicate TransmissionOk<K>(d: Daemon<K>) {
    && d.store.txPackets == |d.link.calls|
    && d.store.txBytes == |Concat(d.link.calls)|
    && (forall p :: p in d.link.calls ==> IsPacket(p))
  }

  ghost predicate DaemonOk<K>(d: Daemon<K>) {
    HistoryOk(d.link) && ViewsAgree(d) && ReceptionOk(d) && TransmissionOk(d)
  }

  /* Telling */

  lemma HeardSnoc(log: seq<Notice>, n: Notice)
    ensures LatestReport(log + [n]) == if n.LinkReport? then Some(n) else LatestReport(log)
    ensures Greeted(log) ==> Greeted(log + [n])
  {
    assert (log + [n])[..|log|] == log;
  }

  lemma BroadcastOther<K>(d: Daemon<K>, n: Notice)
    requires ViewsAgree(d) && !n.LinkReport?
    ensures ViewsAgree(Broadcast(d, n))
  {
    forall k | k in d.clients
      ensures LatestReport(Broadcast(d, n).clients[k].sent) == Some(Report(d.store))
      ensures Greeted(Broadcast(d, n).clients[k].sent)
    {
      HeardSnoc(d.clients[k].sent, n);
    }
  }

  lemma BroadcastReport<K>(d: Daemon<K>)
    requires AllGreeted(d) && StoreAgrees(d)
    ensures ViewsAgree(Broadcast(d, Report(d.store)))
  {
    var n := Report(d.store);
    forall k | k in d.clients
      ensures LatestReport(Broadcast(d, n).clients[k].sent) == Some(n)
      ensures Greeted(Broadcast(d, n).clients[k].sent)
    {
      HeardSnoc(d.clients[k].sent, n);
    }
  }

  lemma AnswerOk<K>(d: Daemon<K>, who: K, n: Notice)
    requires ViewsAgree(d) && (n.LinkReport? ==> n == Report(d.store))
    ensures ViewsAgree(Answer(d, who, n))
  {
    if who in d.clients {
      HeardSnoc(d.clients[who].sent, n);
    }
  }

  /* Receiving */

  lemma PacketOk<K>(o: Oracle, d: Daemon<K>, p: bytes)
    requires ViewsAgree(d) && IsPacket(p)
    ensures var t := OnPacket(o, d, p);
      && ViewsAgree(t)
      && t.link == d.link && t.acc == d.acc && t.framingErrors == d.framingErrors && t.received == d.received
      && t.store == d.store.(records := t.store.records)
      && Raws(t.store.records) == Raws(d.store.records) + [p]
  {
    GateIsStructural(o, p);
    var rec := RecordOf(o, p, o.clock(|d.store.records|));
    var s := d.store.(records := d.store.records + [rec]);
    assert Raws(s.records) == Raws(d.store.records) + [p];
    BroadcastOther(d.(store := s), PacketRx(DecodeMeta(o, p).value));
  }

  lemma {:induction false} PacketsOk<K>(o: Oracle, d: Daemon<K>, ps: seq<bytes>)
    requires ViewsAgree(d) && forall p :: p in ps ==> IsPacket(p)
    ensures var t := OnPackets(o, d, ps);
      && ViewsAgree(t)
      && t.link == d.link && t.acc == d.acc && t.framingErrors == d.framingErrors && t.received == d.received
      && t.store == d.store.(records := t.store.records)
      && Raws(t.store.records) == Raws(d.store.records) + ps
    decreases |ps|
  {
    if ps != [] {
      PacketOk(o, d, ps[0]);
      PacketsOk(o, OnPacket(o, d, ps[0]), ps[1..]);
      assert Raws(d.store.records) + [ps[0]] + ps[1..] == Raws(d.store.records) + ps;
    } else {
      assert Raws(d.store.records) + ps == Raws(d.store.records);
    }
  }

  lemma ReceivedOk<K>(o: Oracle, d: Daemon<K>, data: bytes)
    requires ViewsAgree(d) && ReceptionOk(d)
    ensures var t := OnUpcall(o, d, Received(data));
      && ViewsAgree(t) && ReceptionOk(t)
      && t.link == d.link && t.store == d.store.(records := t.store.records)
      && t.received == d.received + data
  {
    var p := Framer.Frames(d.acc + data);
    Framer.FramesSplit(d.received, data);
    assert Framer.Frames(d.received + data)
        == Parsed(Raws(d.store.records) + p.items, d.framingErrors + p.drops, p.rest);
    Framer.Accounting(d.acc + data);
    var d1 := Absorb(d, data);
    AbsorbKeepsViews(d, data);
    hide ViewsAgree, OnPackets;
    PacketsOk(o, d1, p.items);
  }

  lemma AbsorbKeepsViews<K>(d: Daemon<K>, data: bytes)
    requires ViewsAgree(d)
    ensures ViewsAgree(Absorb(d, data))
  {
  }

  /* Link steps */

  // At most one callback is made per step, and it says what the link then is.
  predicate Matches(l: Link, m: Link, ups: seq<Upcall>) {
    && |ups| <= 1
    && (ups == [] ==> m.isOpen == l.isOpen)
    && (ups != [] && ups[0].StateChanged? ==> m.isOpen == ups[0].isOpen)
    && (ups != [] && ups[0].Problem? ==> !m.isOpen)
    && (ups != [] && ups[0].Received? ==> m.isOpen == l.isOpen)
  }

  lemma StartMatches(l: Link, answer: OpenResult)
    ensures Matches(l, DoStart(l, answer).0, DoStart(l, answer).1) && DoStart(l, answer).0.calls == l.calls
  {
  }

  lemma CompleteMatches(l: Link, op: Op, outcome: Outcome)
    ensures var (m, ups) := DoComplete(l, op, outcome);
      Matches(l, m, ups) && m.calls == l.calls
  {
  }

  lemma UpcallMatches(l: Link, e: Event)
    requires Enabled(l, e)
    ensures Matches(l, Step(l, e).0, Step(l, e).1)
    ensures !e.WriteBytes? ==> Step(l, e).0.calls == l.calls
  {
    hide DoStart, DoComplete;
    match e {
      case Start(answer) => StartMatches(l, answer);
      case Complete(op, outcome) => CompleteMatches(l, op, outcome);
      case _ =>
    }
  }

  // An opening link names its endpoint.
  predicate NamesEndpoint(l: Link, m: Link, ups: seq<Upcall>) {
    m.endpoint == l.endpoint
    && forall up :: up in ups && up.StateChanged? && up.isOpen ==> up.detail == EndpointText(l.endpoint)
  }

  lemma UpcallNames(l: Link, e: Event)
    requires LifecycleOk(l) && Enabled(l, e)
    ensures NamesEndpoint(l, Step(l, e).0, Step(l, e).1)
  {
    hide LifecycleOk, DoComplete;
    match e {
      case Complete(op, outcome) => CompletionNames(l, op, outcome);
      case _ =>
    }
  }

  lemma CompletionNames(l: Link, op: Op, outcome: Outcome)
    requires LifecycleOk(l) && op in l.pending
    ensures NamesEndpoint(l, DoComplete(l, op, outcome).0, DoComplete(l, op, outcome).1)
  {
    if op.gen == l.generation && op.Connect? {
      ConnectIsAlone(l, op);
      assert l.detail == EndpointText(l.endpoint);
    }
    hide LifecycleOk, Unused;
  }

  lemma UpcallOk<K>(o: Oracle, d: Daemon<K>, m: Link, ups: seq<Upcall>)
    requires ViewsAgree(d) && ReceptionOk(d) && Matches(d.link, m, ups) && NamesEndpoint(d.link, m, ups)
    ensures var t := OnUpcalls(o, d.(link := m), ups);
      && ViewsAgree(t) && ReceptionOk(t) && t.link == m
      && t.store.txPackets == d.store.txPackets && t.store.txBytes == d.store.txBytes
      && (ups == [] ==> t == d.(link := m))
  {
    var d1 := d.(link := m);
    if ups != [] {
      assert OnUpcalls(o, d1, ups) == OnUpcall(o, d1, ups[0]);
      match ups[0] {
        case StateChanged(isOpen, detail) =>
          BroadcastReport(d1.(store := d.store.(status := if isOpen then Connected else Disconnected, detail := Named(detail))));
        case Problem(cause, reason) =>
          BroadcastReport(d1.(store := d.store.(status := Error, detail := Trouble(cause, reason))));
        case Received(data) =>
          assert ViewsAgree(d1);
          ReceivedOk(o, d1, data);
      }
    } else {
      assert ViewsAgree(d1);
    }
  }

  lemma TransmissionUntouched<K>(d: Daemon<K>, t: Daemon<K>)
    requires TransmissionOk(d) && t.link.calls == d.link.calls
    requires t.store.txPackets == d.store.txPackets && t.store.txBytes == d.store.txBytes
    ensures TransmissionOk(t)
  {
  }

  lemma LinkStepOk<K>(o: Oracle, d: Daemon<K>, e: Event)
    requires DaemonOk(d) && Enabled(d.link, e) && !e.WriteBytes?
    ensures DaemonOk(LinkStep(o, d, e))
    ensures LinkStep(o, d, e).link == Step(d.link, e).0
  {
    HistoryStep(d.link, e);
    UpcallMatches(d.link, e);
    UpcallNames(d.link, e);
    var (m, ups) := Step(d.link, e);
    hide HistoryOk, Step, Matches, NamesEndpoint;
    UpcallOk(o, d, m, ups);
    TransmissionUntouched(d, LinkStep(o, d, e));
  }

  /* Frames */

  lemma PacketSendOk<K>(o: Oracle, d: Daemon<K>, who: K, packet: bytes)
    requires DaemonOk(d)
    ensures DaemonOk(OnPacketSend(o, d, who, packet))
  {
    GateIsStructural(o, packet);
    match DecodeMeta(o, packet)
    case Failure(e) => AnswerOk(d, who, ErrorReport(BadPacket(e)));
    case Success(m) =>
      if !d.link.isOpen {
        AnswerOk(d, who, ErrorReport(LinkDown));
      } else {
        PacketSentOk(o, d, packet, m);
      }
  }

  lemma PacketSentOk<K>(o: Oracle, d: Daemon<K>, packet: bytes, m: Meta)
    requires DaemonOk(d) && IsPacket(packet)
    ensures var s := d.store.(txPackets := d.store.txPackets + 1, txBytes := d.store.txBytes + |packet|);
      && DaemonOk(Broadcast(LinkStep(o, d, WriteBytes(packet)).(store := s), PacketTx(m)))
      && LinkStep(o, d, WriteBytes(packet)) == d.(link := DoWriteBytes(d.link, packet))
  {
    var l := DoWriteBytes(d.link, packet);
    HistoryStep(d.link, WriteBytes(packet));
    assert OnUpcalls(o, d.(link := l), []) == d.(link := l);
    var s := d.store.(txPackets := d.store.txPackets + 1, txBytes := d.store.txBytes + |packet|);
    ConcatSnoc(d.link.calls, packet);
    assert Report(s) == Report(d.store);
    BroadcastOther(d.(link := l, store := s), PacketTx(m));
  }

  lemma CommandOk<K>(o: Oracle, d: Daemon<K>, who: K, c: Command)
    requires DaemonOk(d)
    ensures DaemonOk(OnCommand(o, d, who, c))
  {
    match c {
      case Malformed => AnswerOk(d, who, ErrorReport(BadPayload));
      case PastEnd =>
      case Connecting =>
        if d.link.isOpen {
          AnswerOk(d, who, Report(d.store));
        } else {
          LinkStepOk(o, d, Start(NextAnswer(o, d.link)));
        }
      case Disconnecting => LinkStepOk(o, d, Stop);
      case Reconnecting =>
        LinkStepOk(o, d, Stop);
        var d1 := LinkStep(o, d, Stop);
        LinkStepOk(o, d1, Start(NextAnswer(o, d1.link)));
      case Ping => AnswerOk(d, who, Pong);
      case Status => AnswerOk(d, who, Report(d.store));
      case Statistics => AnswerOk(d, who, StatsOf(d.store));
      case Other(text) => AnswerOk(d, who, ErrorReport(Unsupported(text)));
    }
  }

  lemma {:induction false} RequestsOk<K>(o: Oracle, d: Daemon<K>, who: K, rs: seq<Request>)
    requires DaemonOk(d)
    ensures DaemonOk(OnRequests(o, d, who, rs))
    decreases |rs|
  {
    if rs != [] {
      match rs[0] {
        case Route(packet) => PacketSendOk(o, d, who, packet);
        case Run(command) => CommandOk(o, d, who, command);
      }
      RequestsOk(o, OnRequest(o, d, who, rs[0]), who, rs[1..]);
    }
  }

  lemma AcceptedOk<K>(o: Oracle, d: Daemon<K>, who: K)
    requires DaemonOk(d) && who !in d.clients
    ensures DaemonOk(d.(clients := d.clients[who := Client([], [Hello, Report(d.store)])]))
  {
    assert LatestReport([Hello, Report(d.store)]) == Some(Report(d.store));
  }

  lemma TakeOk<K>(o: Oracle, d: Daemon<K>, i: Input<K>)
    requires DaemonOk(d) && CanTake(d, i)
    ensures DaemonOk(Take(o, d, i))
  {
    match i {
      case Accepted(who) => AcceptedOk(o, d, who);
      case Gone(who) =>
      case FromClient(who, chunk) =>
        var c := d.clients[who];
        var p := IpcCodec.Frames(c.inbox + chunk);
        var d1 := d.(clients := d.clients[who := c.(inbox := p.rest)]);
        assert DaemonOk(d1);
        RequestsOk(o, d1, who, RequestsOf(IpcCodec.Handled(p.items)));
      case FromDevice(e) => LinkStepOk(o, d, e);
    }
  }

  lemma BlankOk<K>(endpoint: Endpoint)
    ensures DaemonOk(Blank<K>(endpoint))
  {
    InitialOk(endpoint);
    Framer.ScanLawful();
    assert Raws([]) == [];
  }

  lemma BootOk<K>(o: Oracle, endpoint: Endpoint)
    ensures DaemonOk(Boot<K>(o, endpoint))
  {
    var d := Blank<K>(endpoint);
    BlankOk<K>(endpoint);
    hide DaemonOk, LinkStep, Blank, NextAnswer;
    LinkStepOk(o, d, Start(NextAnswer(o, d.link)));
  }

  lemma {:induction false} ServeOk<K>(o: Oracle, d: Daemon<K>, inputs: seq<Input<K>>)
    requires DaemonOk(d) && CanServe(o, d, inputs)
    ensures DaemonOk(Serve(o, d, inputs))
    decreases |inputs|
  {
    if inputs != [] {
      TakeOk(o, d, inputs[0]);
      ServeOk(o, Take(o, d, inputs[0]), inputs[1..]);
    }
  }

  // Every run of the daemon, whatever clients send and however the device behaves.
  lemma DaemonAlwaysOk<K>(o: Oracle, endpoint: Endpoint, inputs: seq<Input<K>>)
    requires CanServe(o, Boot(o, endpoint), inputs)
    ensures DaemonOk(Serve(o, Boot(o, endpoint), inputs))
  {
    BootOk<K>(o, endpoint);
    ServeOk(o, Boot(o, endpoint), inputs);
  }

  // Octets handed up by the link == octets in packets + framing errors + residue.
  lemma ReceptionAccounts<K>(d: Daemon<K>)
    requires ReceptionOk(d)
    ensures |d.received| == |Concat(Raws(d.store.records))| + d.framingErrors + |d.acc|
    ensures forall r :: r in d.store.records ==> IsPacket(r.raw)
    ensures |d.acc| <= 65541
  {
    Framer.Accounting(d.received);
    Framer.ResidueBound(d.received);
    forall r | r in d.store.records ensures IsPacket(r.raw) {
      var i :| 0 <= i < |d.store.records| && d.store.records[i] == r;
      assert Raws(d.store.records)[i] in Raws(d.store.records);
    }
  }

  lemma {:induction false} PacketsKeepLink<K>(o: Oracle, d: Daemon<K>, ps: seq<bytes>)
    ensures OnPackets(o, d, ps).link == d.link
    decreases |ps|
  {
    if ps != [] {
      PacketsKeepLink(o, OnPacket(o, d, ps[0]), ps[1..]);
    }
  }

  // Callbacks never reach back into the link.
  lemma LinkOfStep<K>(o: Oracle, d: Daemon<K>, e: Event)
    requires Enabled(d.link, e)
    ensures LinkStep(o, d, e).link == Step(d.link, e).0
  {
    UpcallMatches(d.link, e);
    var (m, ups) := Step(d.link, e);
    var d1 := d.(link := m);
    if ups != [] {
      assert OnUpcalls(o, d1, ups) == OnUpcall(o, d1, ups[0]);
      if ups[0].Received? {
        PacketsKeepLink(o, Absorb(d1, ups[0].data), Framer.Frames(d1.acc + ups[0].data).items);
      }
    }
  }
}
