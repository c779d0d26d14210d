/** The daemon process: the objects of App::run and the callbacks that join them. */
module Application {
  import opened Bytes
  import opened SpacePacket
  import opened Incremental
  import opened LinkModel
  import opened History
  import opened Router
  import opened Ipc
  import IpcCodec
  import DeviceLink
  import Framer

  class App {
    const link: DeviceLink.SerialLink
    const framer: Framer.CcsdsFramer
    const store: StateStore
    const ipc: IpcServer
    ghost var received: bytes   // octets handed up by the link so far

    ghost predicate Valid()
      reads this, link, framer, store, ipc
    {
      link.Valid() && framer.Valid() && store.Valid() && ipc.Valid()
    }

    ghost function View(): Daemon<IpcSession>
      reads this, link, framer, store, ipc, ipc.live
    {
      Daemon(link.View(), framer.acc, framer.framingErrors, received, store.View(), ipc.Clients())
    }

    constructor (endpoint: Endpoint)
      ensures Valid() && ipc.live == {} && store.cap == 2000
      ensures View() == Blank(endpoint)
    {
      link := new DeviceLink.SerialLink(endpoint);
      framer := new Framer.CcsdsFramer();
      store := new StateStore(2000);
      ipc := new IpcServer();
      received := [];
    }

    // Tells every client, and changes nothing else.
    method Broadcast(n: Notice)
      requires Valid()
      modifies ipc`sessions, ipc.live
      ensures Valid() && View() == Router.Broadcast(old(View()), n)
    {
      ipc.Broadcast(n);
    }

    method Answer(who: IpcSession, n: Notice)
      requires Valid() && who in ipc.live
      modifies who
      ensures Valid() && View() == Router.Answer(old(View()), who, n)
    {
      hide Concat, SeenOk, Framer.Scan;
      who.Send(n);
      assert ipc.Clients() == old(ipc.Clients())[who := Tell(old(who.View()), n)];
    }

    method OnPacket(o: Oracle, p: bytes)
      requires Valid()
      modifies store, ipc`sessions, ipc.live
      ensures Valid() && View() == Router.OnPacket(o, old(View()), p)
    {
      Remember(RecordOf(o, p, o.clock(store.rxPackets)));
      Announce(DecodeMeta(o, p));
    }

    method Remember(rec: PacketRecord)
      requires Valid()
      modifies store
      ensures Valid() && View() == Router.Remember(old(View()), rec)
    {
      store.OnPacket(rec);
      assert ipc.Clients() == old(ipc.Clients());
    }

    method Announce(decoded: Result<Meta>)
      requires Valid()
      modifies store, ipc`sessions, ipc.live
      ensures Valid() && View() == Router.Announce(old(View()), decoded)
    {
      match decoded
      case Success(m) =>
        Broadcast(PacketRx(m));
      case Failure(e) =>
        store.OnDecodeError();
        assert ipc.Clients() == old(ipc.Clients());
        Broadcast(ErrorReport(BadReceived(e)));
    }

    method OnBytes(o: Oracle, data: bytes)
      requires Valid()
      modifies `received, framer, store, ipc`sessions, ipc.live
      ensures Valid() && View() == OnUpcall(o, old(View()), Received(data))
    {
      var packets := Absorb(data);
      ForwardAll(o, packets);
    }

    method Absorb(data: bytes) returns (packets: seq<bytes>)
      requires Valid()
      modifies `received, framer
      ensures Valid()
      ensures packets == Framer.Frames(old(framer.acc) + data).items
      ensures View() == Router.Absorb(old(View()), data)
    {
      packets := framer.PushBytes(data);
      received := received + data;
      assert ipc.Clients() == old(ipc.Clients());
    }

    method ForwardAll(o: Oracle, packets: seq<bytes>)
      requires Valid()
      modifies store, ipc`sessions, ipc.live
      ensures Valid() && View() == OnPackets(o, old(View()), packets)
    {
      var i := 0;
      while i < |packets|
        invariant 0 <= i <= |packets|
        invariant Valid()
        invariant OnPackets(o, old(View()), packets) == OnPackets(o, View(), packets[i..])
      {
        OnPacket(o, packets[i]);
        i := i + 1;
      }
    }

    method SetLink(status: LinkStatus, detail: Detail)
      requires Valid()
      modifies store, ipc`sessions, ipc.live
      ensures Valid()
      ensures var s := old(store.View()).(status := status, detail := detail);
        View() == Router.Broadcast(old(View()).(store := s), Report(s))
    {
      store.SetLink(status, detail);
      assert ipc.Clients() == old(ipc.Clients());
      Broadcast(LinkReport(store.status, store.detail));
    }

    // The callbacks the link made, in order.
    method Dispatch(o: Oracle, ups: seq<Upcall>)
      requires Valid()
      modifies `received, framer, store, ipc`sessions, ipc.live
      ensures Valid() && View() == OnUpcalls(o, old(View()), ups)
    {
      var i := 0;
      while i < |ups|
        invariant 0 <= i <= |ups|
        invariant Valid()
        invariant OnUpcalls(o, old(View()), ups) == OnUpcalls(o, View(), ups[i..])
      {
        DispatchOne(o, ups[i]);
        i := i + 1;
      }
    }

    method DispatchOne(o: Oracle, up: Upcall)
      requires Valid()
      modifies `received, framer, store, ipc`sessions, ipc.live
      ensures Valid() && View() == OnUpcall(o, old(View()), up)
    {
      match up
      case StateChanged(isOpen, detail) => SetLink(if isOpen then Connected else Disconnected, Named(detail));
      case Problem(cause, reason) => SetLink(Error, Trouble(cause, reason));
      case Received(data) => OnBytes(o, data);
    }

    method StartLink(o: Oracle)
      requires Valid()
      modifies this, link, framer, store, ipc, ipc.live
      ensures Valid() && ipc.live == old(ipc.live)
      ensures View() == LinkStep(o, old(View()), Start(NextAnswer(o, old(View()).link)))
    {
      ghost var e := Start(NextAnswer(o, View().link));
      var answer := o.open(link.generation + 1);
      assert e == Start(answer);
      StartWith(o, answer);
    }

    method StartWith(o: Oracle, answer: OpenResult)
      requires Valid()
      modifies this, link, framer, store, ipc, ipc.live
      ensures Valid() && ipc.live == old(ipc.live)
      ensures View() == LinkStep(o, old(View()), Start(answer))
    {
      var ups := link.Start(answer);
      assert ipc.Clients() == old(ipc.Clients());
      Dispatch(o, ups);
    }

    method StopLink(o: Oracle)
      requires Valid()
      modifies this, link, framer, store, ipc, ipc.live
      ensures Valid() && ipc.live == old(ipc.live)
      ensures View() == LinkStep(o, old(View()), Stop)
    {
      var ups := link.Stop();
      assert ipc.Clients() == old(ipc.Clients());
      Dispatch(o, ups);
    }

    method WriteToLink(packet: bytes)
      requires Valid()
      modifies link, store
      ensures Valid()
      ensures View() == old(View()).(link := DoWriteBytes(old(link.View()), packet),
                                     store := old(store.View()).(txPackets := old(store.txPackets) + 1,
                                                                 txBytes := old(store.txBytes) + |packet|))
    {
      link.WriteBytes(packet);
      store.OnTx(|packet|);
      assert ipc.Clients() == old(ipc.Clients());
    }

    method SendPacket(o: Oracle, who: IpcSession, packet: bytes)
      requires Valid() && who in ipc.live
      modifies this, link, framer, store, ipc, ipc.live
      ensures Valid() && ipc.live == old(ipc.live)
      ensures View() == OnPacketSend(o, old(View()), who, packet)
    {
      hide LinkStep, DecodeMeta, DoWriteBytes;
      match DecodeMeta(o, packet)
      case Failure(e) => Answer(who, ErrorReport(BadPacket(e)));
      case Success(m) =>
        if !link.isOpen {
          Answer(who, ErrorReport(LinkDown));
          return;
        }
        WriteToLink(packet);
        Broadcast(PacketTx(m));
        WriteHasNoUpcalls(o, old(View()), packet);
    }

    lemma WriteHasNoUpcalls(o: Oracle, d: Daemon<IpcSession>, packet: bytes)
      ensures LinkStep(o, d, WriteBytes(packet)) == d.(link := DoWriteBytes(d.link, packet))
    {
      assert OnUpcalls(o, d.(link := DoWriteBytes(d.link, packet)), []) == d.(link := DoWriteBytes(d.link, packet));
    }

    method RunCommand(o: Oracle, who: IpcSession, command: Command)
      requires Valid() && who in ipc.live && !command.PastEnd?
      modifies this, link, framer, store, ipc, ipc.live
      ensures Valid() && ipc.live == old(ipc.live)
      ensures View() == OnCommand(o, old(View()), who, command)
    {
      match command
      case Malformed => Answer(who, ErrorReport(BadPayload));
      case Connecting =>
        if link.isOpen {
          Answer(who, LinkReport(store.status, store.detail));
        } else {
          StartLink(o);
        }
      case Disconnecting => StopLink(o);
      case Reconnecting =>
        StopLink(o);
        StartLink(o);
      case Ping => Answer(who, Pong);
      case Status => Answer(who, LinkReport(store.status, store.detail));
      case Statistics =>
        Answer(who, Stats(store.rxPackets, store.rxBytes, store.txPackets, store.txBytes, store.decodeErrors));
      case Other(text) => Answer(who, ErrorReport(Unsupported(text)));
    }

    method HandleFrame(o: Oracle, who: IpcSession, f: IpcCodec.Frame)
      requires Valid() && who in ipc.live && RequestOf(f) != Run(PastEnd)
      modifies this, link, framer, store, ipc, ipc.live
      ensures Valid() && ipc.live == old(ipc.live)
      ensures View() == OnRequest(o, old(View()), who, RequestOf(f))
    {
      if f.kind == IpcCodec.PACKET_SEND {
        SendPacket(o, who, f.payload);
      } else {
        RunCommand(o, who, ParseCommand(f.payload));
      }
    }

    method HandleFrames(o: Oracle, who: IpcSession, fs: seq<IpcCodec.Frame>)
      requires Valid() && who in ipc.live && Run(PastEnd) !in RequestsOf(fs)
      modifies this, link, framer, store, ipc, ipc.live
      ensures Valid() && ipc.live == old(ipc.live)
      ensures View() == OnRequests(o, old(View()), who, RequestsOf(fs))
    {
      var i := 0;
      ghost var rs := RequestsOf(fs);
      while i < |fs|
        invariant 0 <= i <= |fs|
        invariant Valid() && ipc.live == old(ipc.live)
        invariant OnRequests(o, old(View()), who, rs) == OnRequests(o, View(), who, rs[i..])
      {
        assert rs[i] in rs;
        HandleFrame(o, who, fs[i]);
        i := i + 1;
      }
    }

    /* What the environment does */

    method OnAccept() returns (who: IpcSession)
      requires Valid()
      modifies ipc
      ensures Valid() && fresh(who)
      ensures View() == old(View()).(clients := old(ipc.Clients())[who := Client([], [Hello, Report(old(store.View()))])])
    {
      hide Concat, SeenOk, Framer.Scan;
      who := ipc.Accept();
      who.Send(LinkReport(store.status, store.detail));
      assert who.View() == Client([], [Hello, Report(store.View())]);
      assert ipc.Clients() == old(ipc.Clients())[who := who.View()];
    }

    method OnClientGone(o: Oracle, who: IpcSession)
      requires Valid()
      modifies ipc
      ensures Valid() && View() == Take(o, old(View()), Gone(who))
    {
      ipc.Release(who);
      assert ipc.Clients() == old(ipc.Clients()) - {who};
    }

    method OnClientRead(o: Oracle, who: IpcSession, chunk: bytes)
      requires Valid() && who in ipc.live && CanTake(View(), FromClient(who, chunk))
      modifies this, link, framer, store, ipc, ipc.live
      ensures Valid() && ipc.live == old(ipc.live)
      ensures View() == Take(o, old(View()), FromClient(who, chunk))
    {
      ghost var c := who.View();
      var frames := who.OnRead(chunk);
      ghost var p := IpcCodec.Frames(c.inbox + chunk);
      assert ipc.Clients() == old(ipc.Clients())[who := c.(inbox := p.rest)];
      HandleFrames(o, who, frames);
    }

    // The callbacks of one completion handler.
    method Finish(o: Oracle, ghost d: Daemon<IpcSession>, ghost e: Event, ups: seq<Upcall>)
      requires Valid() && Enabled(d.link, e) && CanTake(d, FromDevice(e))
      requires (View().link, ups) == Step(d.link, e) && View() == d.(link := View().link)
      modifies `received, framer, store, ipc`sessions, ipc.live
      ensures Valid() && View() == Take(o, d, FromDevice(e))
    {
      Dispatch(o, ups);
    }

    method OnDeviceResolved(o: Oracle, gen: nat, outcome: Outcome)
      requires Valid() && Resolve(gen) in link.pending
      modifies this, link, framer, store, ipc, ipc.live
      ensures Valid() && View() == Take(o, old(View()), FromDevice(Complete(Resolve(gen), outcome)))
    {
      ghost var d := View();
      var ups := link.OnResolved(gen, outcome);
      assert ipc.Clients() == old(ipc.Clients());
      Finish(o, d, Complete(Resolve(gen), outcome), ups);
    }

    method OnDeviceConnected(o: Oracle, gen: nat, outcome: Outcome)
      requires Valid() && Connect(gen) in link.pending
      modifies this, link, framer, store, ipc, ipc.live
      ensures Valid() && View() == Take(o, old(View()), FromDevice(Complete(Connect(gen), outcome)))
    {
      ghost var d := View();
      var ups := link.OnConnected(gen, outcome);
      assert ipc.Clients() == old(ipc.Clients());
      Finish(o, d, Complete(Connect(gen), outcome), ups);
    }

    method OnDeviceRead(o: Oracle, gen: nat, outcome: Outcome)
      requires Valid() && Read(gen) in link.pending
      modifies this, link, framer, store, ipc, ipc.live
      ensures Valid() && View() == Take(o, old(View()), FromDevice(Complete(Read(gen), outcome)))
    {
      ghost var d := View();
      var ups := link.OnRead(gen, outcome);
      assert ipc.Clients() == old(ipc.Clients());
      Finish(o, d, Complete(Read(gen), outcome), ups);
    }

    method OnDeviceWritten(o: Oracle, gen: nat, buffer: Buffer, outcome: Outcome)
      requires Valid() && Enabled(link.View(), Complete(Write(gen, buffer), outcome))
      modifies this, link, framer, store, ipc, ipc.live
      ensures Valid() && View() == Take(o, old(View()), FromDevice(Complete(Write(gen, buffer), outcome)))
    {
      ghost var d := View();
      var ups := link.OnWritten(gen, buffer, outcome);
      assert ipc.Clients() == old(ipc.Clients());
      Finish(o, d, Complete(Write(gen, buffer), outcome), ups);
    }

    method OnPostedWrite(o: Oracle, buffer: Buffer)
      requires Valid() && link.posted != [] && buffer == link.posted[0]
      modifies this, link, framer, store, ipc, ipc.live
      ensures Valid() && View() == Take(o, old(View()), FromDevice(RunPosted))
    {
      ghost var d := View();
      link.RunPosted(buffer);
      assert ipc.Clients() == old(ipc.Clients());
      Finish(o, d, RunPosted, []);
    }

    // The device takes more octets of the write in progress.
    ghost method OnDeviceTransfer(o: Oracle, count: nat)
      requires Valid() && Enabled(link.View(), Transfer(count))
      modifies link
      ensures Valid() && View() == Take(o, old(View()), FromDevice(Transfer(count)))
    {
      link.Transfer(count);
      assert ipc.Clients() == old(ipc.Clients());
    }

    // The part of run() before the event loop.
    method Begin(o: Oracle)
      requires Valid() && View() == Blank(link.endpoint)
      modifies this, link, framer, store, ipc, ipc.live
      ensures Valid() && View() == Boot(o, link.endpoint)
    {
      SetLink(Disconnected, Named(""));
      assert View() == old(View());
      if link.endpoint != Serial("") { StartLink(o); }
    }
  }
}
