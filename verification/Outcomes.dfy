/** What becomes of each command and each callback: how the link stands afterwards, and who hears what. */
module Outcomes {
  import opened Bytes
  import opened SpacePacket
  import opened Incremental
  import opened LinkModel
  import opened LinkHistory
  import opened History
  import opened Router
  import opened RouterInvariant
  import IpcCodec

  // Every client is sent `ns`, and no inbox changes.
  ghost predicate AllHear<K>(d: Daemon<K>, t: Daemon<K>, ns: seq<Notice>) {
    && t.clients.Keys == d.clients.Keys
    && forall k :: k in d.clients ==> t.clients[k] == Client(d.clients[k].inbox, d.clients[k].sent + ns)
  }

  // One client is sent `n`; nothing else changes anywhere.
  ghost predicate OnlyHears<K>(d: Daemon<K>, t: Daemon<K>, who: K, n: Notice) {
    && t == d.(clients := t.clients) && t.clients.Keys == d.clients.Keys
    && forall k :: k in d.clients ==>
         t.clients[k] == if k == who then Client(d.clients[k].inbox, d.clients[k].sent + [n]) else d.clients[k]
  }

  lemma HearTwice<K>(d: Daemon<K>, t: Daemon<K>, u: Daemon<K>, a: seq<Notice>, b: seq<Notice>)
    requires AllHear(d, t, a) && AllHear(t, u, b)
    ensures AllHear(d, u, a + b)
  {
    forall k | k in d.clients ensures u.clients[k].sent == d.clients[k].sent + (a + b) {
      Regrouped(d.clients[k].sent, a, b);
    }
  }

  /* Callbacks */

  // What clients are told when the link calls back.
  function Said(up: Upcall): Notice
    requires !up.Received?
  {
    match up
    case StateChanged(isOpen, name) => LinkReport(if isOpen then Connected else Disconnected, Named(name))
    case Problem(cause, reason) => LinkReport(Error, Trouble(cause, reason))
  }

  // The bookkeeping after the last of some link reports.
  function StoreAfter(s: Store, ns: seq<Notice>): Store {
    if ns == [] || !ns[|ns| - 1].LinkReport? then s
    else s.(status := ns[|ns| - 1].status, detail := ns[|ns| - 1].detail)
  }

  // The bookkeeping and every log take exactly `ns`; of the rest only the link may have changed.
  ghost predicate Reported<K>(d: Daemon<K>, t: Daemon<K>, ns: seq<Notice>) {
    t == d.(link := t.link, store := StoreAfter(d.store, ns), clients := t.clients) && AllHear(d, t, ns)
  }

  function SaidAll(ups: seq<Upcall>): (r: seq<Notice>)
    requires forall up :: up in ups ==> !up.Received?
    ensures |r| == |ups| && forall i :: 0 <= i < |r| ==> r[i] == Said(ups[i])
  {
    seq(|ups|, i requires 0 <= i < |ups| => assert ups[i] in ups; Said(ups[i]))
  }

  lemma NothingSaid<K>(d: Daemon<K>, t: Daemon<K>)
    requires t == d.(link := t.link)
    ensures Reported(d, t, [])
  {
  }

  lemma CallbackReported<K>(o: Oracle, d: Daemon<K>, up: Upcall)
    requires !up.Received?
    ensures Reported(d, OnUpcall(o, d, up), [Said(up)])
  {
  }

  // A step of the link that hands no octets up reports exactly what its callback says.
  lemma StepReported<K>(o: Oracle, d: Daemon<K>, e: Event)
    requires Enabled(d.link, e) && forall up :: up in Step(d.link, e).1 ==> !up.Received?
    ensures LinkStep(o, d, e).link == Step(d.link, e).0
    ensures Reported(d, LinkStep(o, d, e), SaidAll(Step(d.link, e).1))
  {
    LinkOfStep(o, d, e);
    UpcallMatches(d.link, e);
    var (m, ups) := Step(d.link, e);
    var d1 := d.(link := m);
    hide Step, Enabled;
    if ups == [] {
      assert SaidAll(ups) == [];
      NothingSaid(d, d1);
    } else {
      assert ups[0] in ups && ups == [ups[0]] && SaidAll(ups) == [Said(ups[0])];
      assert OnUpcalls(o, d1, ups) == OnUpcall(o, d1, ups[0]);
      CallbackReported(o, d1, ups[0]);
    }
  }

  /* Packets to the device */

  // A client's packet is posted to the link, counted, and announced to everybody with its decoded fields,
  // exactly when it is one whole packet and the device is open; otherwise only that client hears why not.
  lemma RoutedIff<K>(o: Oracle, d: Daemon<K>, who: K, packet: bytes)
    ensures var t, l := OnPacketSend(o, d, who, packet), d.link;
      if IsPacket(packet) && l.isOpen
      then t == d.(link := l.(calls := l.calls + [packet], posted := l.posted + [Buffer(|l.calls|, packet)]),
                   store := d.store.(txPackets := d.store.txPackets + 1, txBytes := d.store.txBytes + |packet|),
                   clients := t.clients)
           && AllHear(d, t, [PacketTx(DecodeMeta(o, packet).value)])
      else OnlyHears(d, t, who,
             ErrorReport(if IsPacket(packet) then LinkDown else BadPacket(DecodeMeta(o, packet).error)))
  {
    GateIsStructural(o, packet);
    if IsPacket(packet) && d.link.isOpen {
      var l := DoWriteBytes(d.link, packet);
      assert OnUpcalls(o, d.(link := l), []) == d.(link := l);
    }
  }

  /* Commands that act on the link */

  // What an attempt to open the device comes to at once.
  function StatusAfterStart(endpoint: Endpoint, answer: OpenResult): LinkStatus {
    match endpoint
    case Tcp(_) => Disconnected
    case Serial(path) => if path != "" && answer.Opened? then Connected else Error
  }

  // The operations of the new generation that are outstanding then, ...
  function IssuedByStart(endpoint: Endpoint, answer: OpenResult, g: nat): set<Op> {
    match StatusAfterStart(endpoint, answer)
    case Disconnected => {Resolve(g)}
    case Connected => {Read(g)}
    case Error => {}
  }

  // ... and what is said.
  function SaidByStart(endpoint: Endpoint, answer: OpenResult): seq<Notice> {
    match endpoint
    case Tcp(_) => []
    case Serial(path) =>
      if path == "" then [LinkReport(Error, Trouble(NoPort, ""))]
      else
        match answer
        case OpenFailed(reason) => [LinkReport(Error, Trouble(SerialOpen, reason))]
        case BaudFailed(reason) => [LinkReport(Error, Trouble(SerialBaud, reason))]
        case Opened => [LinkReport(Connected, Named(path))]
  }

  // The link `m`, `n` generations after `l`: open in a fresh session, connecting, or closed.
  ghost predicate Begun(l: Link, m: Link, answer: OpenResult, n: nat) {
    var status := StatusAfterStart(l.endpoint, answer);
    && m.endpoint == l.endpoint && m.generation == l.generation + n && m.tx == []
    && m.posted == l.posted && m.calls == l.calls
    && (m.isOpen <==> status == Connected) && (m.connecting <==> status == Disconnected)
    && (m.isOpen ==> m.current == Session([], 0, []) && m.past == l.past + [l.current])
    && (forall op :: op in m.pending && op.gen == m.generation <==> op in IssuedByStart(l.endpoint, answer, m.generation))
  }

  lemma StartBegins(l: Link, answer: OpenResult)
    requires LifecycleOk(l) && !l.isOpen && !l.connecting
    ensures Begun(l, DoStart(l, answer).0, answer, 1)
    ensures forall up :: up in DoStart(l, answer).1 ==> !up.Received?
    ensures SaidAll(DoStart(l, answer).1) == SaidByStart(l.endpoint, answer)
  {
    assert forall op :: op in l.pending ==> op.gen <= l.generation;
    hide LifecycleOk, Unused;
    var ups := DoStart(l, answer).1;
    assert SaidAll(ups) == if ups == [] then [] else [Said(ups[0])];
  }

  // CONNECT: with an open link only the asker hears, namely the present state; a link that is connecting
  // goes on; a closed one is started, and every client hears what came of it at once.
  lemma ConnectOutcome<K>(o: Oracle, d: Daemon<K>, who: K)
    requires DaemonOk(d)
    ensures var t, answer := OnCommand(o, d, who, Connecting), o.open(d.link.generation + 1);
      if d.link.isOpen then OnlyHears(d, t, who, LinkReport(d.store.status, d.store.detail))
      else if d.link.connecting then t == d
      else Begun(d.link, t.link, answer, 1) && Reported(d, t, SaidByStart(d.link.endpoint, answer))
  {
    hide HistoryOk, ViewsAgree, ReceptionOk, TransmissionOk;
    if !d.link.isOpen {
      HistoryAndViews(d);
      var answer := NextAnswer(o, d.link);
      if d.link.connecting {
        assert DoStart(d.link, answer) == (d.link, []);
        assert OnUpcalls(o, d.(link := d.link), []) == d;
      } else {
        StartedStep(o, d, answer);
      }
    }
  }

  lemma HistoryAndViews<K>(d: Daemon<K>)
    requires DaemonOk(d)
    ensures LifecycleOk(d.link) && AllTold(d)
  {
  }

  lemma StartedStep<K>(o: Oracle, d: Daemon<K>, answer: OpenResult)
    requires LifecycleOk(d.link) && !d.link.isOpen && !d.link.connecting
    ensures var t := LinkStep(o, d, Start(answer));
      Begun(d.link, t.link, answer, 1) && Reported(d, t, SaidByStart(d.link.endpoint, answer))
  {
    hide LifecycleOk, LinkStep, Begun, Reported, DoStart, SaidByStart;
    StartBegins(d.link, answer);
    StepReported(o, d, Start(answer));
  }

  // The link after a stop: closed, nothing queued, and nothing outstanding that could still be heard.
  ghost predicate IsClosedAndQuiet(l: Link) {
    !l.isOpen && !l.connecting && l.tx == [] && Unused(l.pending, l.generation)
  }

  lemma StoppedStep<K>(o: Oracle, d: Daemon<K>)
    requires LifecycleOk(d.link)
    ensures var t := LinkStep(o, d, Stop);
      && t.link == DoStop(d.link).0 && LifecycleOk(t.link) && IsClosedAndQuiet(t.link)
      && Reported(d, t, [LinkReport(Disconnected, Named(d.link.detail))])
  {
    LifecycleStop(d.link);
    var up := StateChanged(false, d.link.detail);
    assert SaidAll([up]) == [Said(up)];
    hide LifecycleOk, LinkStep, Reported, Unused;
    StepReported(o, d, Stop);
  }

  // DISCONNECT closes the link, leaves nothing outstanding that could still be heard, and says so.
  lemma DisconnectCloses<K>(o: Oracle, d: Daemon<K>, who: K)
    requires DaemonOk(d)
    ensures var t := OnCommand(o, d, who, Disconnecting);
      && IsClosedAndQuiet(t.link) && t.link.posted == d.link.posted && t.store.status == Disconnected
      && Reported(d, t, [LinkReport(Disconnected, Named(d.link.detail))])
  {
    hide DaemonOk, LinkStep, LifecycleOk, Unused;
    HistoryAndViews(d);
    StoppedStep(o, d);
  }

  // RECONNECT from any state, with any device: nothing issued earlier can still be heard, and every
  // client hears of the stop and of what came of the start.
  lemma ReconnectOutcome<K>(o: Oracle, d: Daemon<K>, who: K)
    requires DaemonOk(d)
    ensures var t, answer := OnCommand(o, d, who, Reconnecting), o.open(d.link.generation + 2);
      && Begun(d.link, t.link, answer, 2) && t.store.status == StatusAfterStart(d.link.endpoint, answer)
      && Reported(d, t, [LinkReport(Disconnected, Named(d.link.detail))] + SaidByStart(d.link.endpoint, answer))
  {
    hide DaemonOk, LinkStep, LifecycleOk, Unused, Reported, Begun;
    HistoryAndViews(d);
    StoppedStep(o, d);
    var d1 := LinkStep(o, d, Stop);
    var answer := NextAnswer(o, d1.link);
    StartedStep(o, d1, answer);
    var t := LinkStep(o, d1, Start(answer));
    BegunAfterStop(d.link, t.link, answer);
    var stopped, started := [LinkReport(Disconnected, Named(d.link.detail))], SaidByStart(d.link.endpoint, answer);
    ReportedTwice(d, d1, t, stopped, started);
    StatusReported(d, t, stopped + started);
  }

  lemma BegunAfterStop(l: Link, m: Link, answer: OpenResult)
    requires Begun(DoStop(l).0, m, answer, 1)
    ensures Begun(l, m, answer, 2)
  {
  }

  lemma ReportedTwice<K>(d: Daemon<K>, t: Daemon<K>, u: Daemon<K>, a: seq<Notice>, b: seq<Notice>)
    requires Reported(d, t, a) && Reported(t, u, b)
    requires b == [] || b[|b| - 1].LinkReport?
    ensures Reported(d, u, a + b)
  {
    HearTwice(d, t, u, a, b);
    hide AllHear;
    if b == [] { assert a + b == a; }
  }

  lemma StatusReported<K>(d: Daemon<K>, t: Daemon<K>, ns: seq<Notice>)
    requires Reported(d, t, ns) && ns != [] && ns[|ns| - 1].LinkReport?
    ensures t.store.status == ns[|ns| - 1].status
  {
  }

  // Starting the daemon opens the device if one is configured, and does nothing else.
  lemma BootOutcome<K>(o: Oracle, endpoint: Endpoint)
    ensures var d, t := Blank<K>(endpoint), Boot<K>(o, endpoint);
      && d.link.generation == 0 && d.store.status == Disconnected && d.clients == map[]
      && if endpoint == Serial("") then t == d
         else Begun(d.link, t.link, o.open(1), 1) && Reported(d, t, SaidByStart(endpoint, o.open(1)))
  {
    var d := Blank<K>(endpoint);
    InitialOk(endpoint);
    assert LifecycleOk(d.link);
    hide LifecycleOk, HistoryOk, LinkStep, Begun, Reported;
    if endpoint != Serial("") {
      StartedStep(o, d, NextAnswer(o, d.link));
    }
  }

  /* Completions */

  // What a failure is put down to.
  function CauseOf(endpoint: Endpoint, op: Op): Cause {
    match op
    case Resolve(_) => TcpResolve
    case Connect(_) => TcpConnect
    case Read(_) => if endpoint.Tcp? then TcpRead else SerialRead
    case Write(_, _) => DeviceWrite
  }

  // A completion of an earlier generation is only taken off the list; nobody hears of it.
  lemma StaleOutcome<K>(o: Oracle, d: Daemon<K>, op: Op, outcome: Outcome)
    requires op in d.link.pending && op.gen != d.link.generation
    ensures LinkStep(o, d, Complete(op, outcome)) == d.(link := d.link.(pending := d.link.pending - multiset{op}))
  {
    var m := d.link.(pending := d.link.pending - multiset{op});
    assert OnUpcalls(o, d.(link := m), []) == d.(link := m);
  }

  // A failure closes the link, keeps its generation and what else is outstanding, and everybody hears the
  // cause and the reason.
  lemma FailureOutcome<K>(o: Oracle, d: Daemon<K>, op: Op, reason: string)
    requires op in d.link.pending && op.gen == d.link.generation
    ensures var t, l := LinkStep(o, d, Complete(op, Failed(reason))), d.link;
      && t.link == l.(isOpen := false, connecting := false, tx := [], sent := 0, dropped := l.dropped + Ids(l.tx),
                      pending := l.pending - multiset{op})
      && Reported(d, t, [LinkReport(Error, Trouble(CauseOf(l.endpoint, op), reason))])
  {
    var e, up := Complete(op, Failed(reason)), Problem(CauseOf(d.link.endpoint, op), reason);
    assert Step(d.link, e).1 == [up] && SaidAll([up]) == [Said(up)];
    StepReported(o, d, e);
    hide LinkStep, Reported;
  }

  // A connection attempt goes on from resolving to connecting, unheard, and then opens the link in a fresh
  // session, and everybody hears the endpoint.
  lemma ConnectionOutcome<K>(o: Oracle, d: Daemon<K>, op: Op, data: bytes)
    requires LifecycleOk(d.link) && op in d.link.pending && op.gen == d.link.generation && (op.Resolve? || op.Connect?)
    ensures var t, l := LinkStep(o, d, Complete(op, Ok(data))), d.link;
      && l.connecting
      && if op.Resolve?
         then t == d.(link := l.(pending := l.pending - multiset{op} + multiset{Connect(l.generation)}))
         else t.link == l.(isOpen := true, connecting := false, past := l.past + [l.current], current := Session([], 0, []),
                           pending := l.pending - multiset{op} + multiset{Read(l.generation)})
              && Reported(d, t, [LinkReport(Connected, Named(EndpointText(l.endpoint)))])
  {
    ConnectIsAlone(d.link, op);
    var e := Complete(op, Ok(data));
    assert d.link.detail == EndpointText(d.link.endpoint);
    hide LifecycleOk, Unused;
    if op.Resolve? {
      var m := d.link.(pending := d.link.pending - multiset{op} + multiset{Connect(d.link.generation)});
      assert OnUpcalls(o, d.(link := m), []) == d.(link := m);
    } else {
      var up := StateChanged(true, d.link.detail);
      assert SaidAll([up]) == [Said(up)];
      StepReported(o, d, e);
      hide LinkStep, Reported;
    }
  }

  // A posted write run on a closed link loses its payload, and nobody hears of it.
  lemma ClosedDropOutcome<K>(o: Oracle, d: Daemon<K>)
    requires d.link.posted != [] && !d.link.isOpen
    ensures var l := d.link;
      LinkStep(o, d, RunPosted) == d.(link := l.(posted := l.posted[1..], dropped := l.dropped + {l.posted[0].id}))
  {
    var l := d.link;
    var m := l.(posted := l.posted[1..], dropped := l.dropped + {l.posted[0].id});
    assert OnUpcalls(o, d.(link := m), []) == d.(link := m);
  }

  /* Commands that only ask */

  lemma QueryOutcome<K>(o: Oracle, d: Daemon<K>, who: K, c: Command)
    requires DaemonOk(d) && !(c.Connecting? || c.Disconnecting? || c.Reconnecting? || c.PastEnd?)
    ensures OnlyHears(d, OnCommand(o, d, who, c), who,
      match c
      case Ping => Pong
      case Status => LinkReport(d.store.status, d.store.detail)
      case Statistics =>
        Stats(|d.store.records|, |Concat(Raws(d.store.records))|, |d.link.calls|, |Concat(d.link.calls)|, 0)
      case Malformed => ErrorReport(BadPayload)
      case Other(text) => ErrorReport(Unsupported(text)))
  {
    hide HistoryOk, ViewsAgree;
  }

  // The octets spell the word, in letters of either case.
  predicate Spells(text: bytes, word: string) {
    |text| == |word|
    && forall i :: 0 <= i < |text| ==>
         text[i] == word[i] as int || ('A' <= word[i] <= 'Z' && text[i] == word[i] as int + 32)
  }

  lemma UpperSpells(text: bytes, word: string)
    requires forall i :: 0 <= i < |word| ==> 'A' <= word[i] <= 'Z'
    ensures Upper(text) == word <==> Spells(text, word)
  {
    if Upper(text) == word {
      forall i | 0 <= i < |text|
        ensures text[i] == word[i] as int || text[i] == word[i] as int + 32 {
        assert Upper(text)[i] == word[i];
      }
    }
  }

  // Each command is known by its word.
  lemma CommandsByWord(text: bytes)
    ensures var c := CommandWord(Upper(text));
      && (c.Connecting? <==> Spells(text, "CONNECT"))
      && (c.Disconnecting? <==> Spells(text, "DISCONNECT"))
      && (c.Reconnecting? <==> Spells(text, "RECONNECT"))
      && (c.Ping? <==> Spells(text, "PING"))
      && (c.Status? <==> Spells(text, "STATUS"))
      && (c.Statistics? <==> Spells(text, "STATS"))
      && !c.Malformed? && !c.PastEnd?
  {
    UpperSpells(text, "CONNECT");
    UpperSpells(text, "DISCONNECT");
    UpperSpells(text, "RECONNECT");
    UpperSpells(text, "PING");
    UpperSpells(text, "STATUS");
    UpperSpells(text, "STATS");
    hide Spells, Upper;
  }

  // A packed command string arrives whole and is compared in upper case.
  lemma PackedCommand(text: bytes)
    requires |text| < TWO_32
    ensures ParseCommand(BigEndian(|text|, 4) + text) == CommandWord(Upper(text))
  {
    UnpackedExactly(|text|, text);
    assert text[..|text|] == text;
    hide BigEndian, CommandWord, Upper, Unpack;
  }

  // Whatever the size field says: the text is taken if it is all there, and the payload refused if not, or
  // if it has no size field, except where the size test wraps.
  lemma UnpackedExactly(size: nat, rest: bytes)
    requires size < TWO_32
    ensures var u := Unpack(BigEndian(size, 4) + rest);
      if size <= |rest| then u == Text(rest[..size]) else if 4 + size < TWO_32 then u == Refused else !u.Text?
    ensures |rest| < 4 ==> Unpack(rest) == Refused
  {
    NumberOf32(size);
    hide Number, BigEndian, Unpack;
    UnpackParts(size, BigEndian(size, 4), rest);
  }

  lemma UnpackParts(size: nat, field: bytes, rest: bytes)
    requires |field| == 4 && Number(field) == size < TWO_32
    ensures var u := Unpack(field + rest);
      if size <= |rest| then u == Text(rest[..size]) else if 4 + size < TWO_32 then u == Refused else !u.Text?
    ensures |rest| < 4 ==> Unpack(rest) == Refused
  {
    hide Number;
    Halves(field, rest);
    if size <= |rest| {
      assert (field + rest)[4..4 + size] == rest[..size];
    }
  }

  /* Frames */

  // What a client's frames do, by the numbers of their types.
  ghost function ServeFrames<K>(o: Oracle, d: Daemon<K>, who: K, fs: seq<IpcCodec.Frame>): Daemon<K>
    decreases |fs|
  {
    if fs == [] then d
    else
      var f := fs[0];
      var t := if f.kind == 13 then OnPacketSend(o, d, who, f.payload)
               else if f.kind == 10 || f.kind == 11 then OnCommand(o, d, who, ParseCommand(f.payload))
               else d;
      ServeFrames(o, t, who, fs[1..])
  }

  lemma {:induction false} ServedInOrder<K>(o: Oracle, d: Daemon<K>, who: K, fs: seq<IpcCodec.Frame>)
    ensures OnRequests(o, d, who, RequestsOf(IpcCodec.Handled(fs))) == ServeFrames(o, d, who, fs)
    decreases |fs|
  {
    hide OnCommand, OnPacketSend, ParseCommand;
    if fs != [] {
      var f, later := fs[0], IpcCodec.Handled(fs[1..]);
      if IpcCodec.IsHandled(f) {
        assert IpcCodec.Handled(fs) == [f] + later;
        assert RequestsOf([f] + later)[1..] == RequestsOf(later);
        ServedInOrder(o, OnRequest(o, d, who, RequestOf(f)), who, fs[1..]);
      } else {
        assert IpcCodec.Handled(fs) == later;
        ServedInOrder(o, d, who, fs[1..]);
      }
    }
  }

  // A read serves exactly the frames it completes, in order, and keeps the rest.
  lemma FramesAreServed<K>(o: Oracle, d: Daemon<K>, who: K, chunk: bytes)
    requires CanTake(d, FromClient(who, chunk))
    ensures var c := d.clients[who];
      var p := IpcCodec.Frames(c.inbox + chunk);
      Take(o, d, FromClient(who, chunk)) == ServeFrames(o, d.(clients := d.clients[who := c.(inbox := p.rest)]), who, p.items)
  {
    var c := d.clients[who];
    var p := IpcCodec.Frames(c.inbox + chunk);
    ServedInOrder(o, d.(clients := d.clients[who := c.(inbox := p.rest)]), who, p.items);
  }

  // A client that sends a command as a frame has it run.
  lemma CommandByFrame<K>(o: Oracle, d: Daemon<K>, who: K, kind: word, text: bytes)
    requires who in d.clients && d.clients[who].inbox == [] && (kind == 10 || kind == 11) && |text| + 10 < TWO_32
    ensures var i := FromClient(who, IpcCodec.Encode(IpcCodec.Frame(kind, BigEndian(|text|, 4) + text)));
      CanTake(d, i) && Take(o, d, i) == OnCommand(o, d, who, CommandWord(Upper(text)))
  {
    hide BigEndian, OnCommand, ParseCommand, CommandWord, Upper, IpcCodec.Encode, Take, CanTake;
    var f := IpcCodec.Frame(kind, BigEndian(|text|, 4) + text);
    PackedCommand(text);
    CommandsByWord(text);
    OneFrameServed(o, d, who, f);
  }

  lemma OneFrameServed<K>(o: Oracle, d: Daemon<K>, who: K, f: IpcCodec.Frame)
    requires who in d.clients && d.clients[who].inbox == []
    requires IpcCodec.Sendable(f) && IpcCodec.IsHandled(f) && RequestOf(f) != Run(PastEnd)
    ensures var i := FromClient(who, IpcCodec.Encode(f));
      CanTake(d, i) && Take(o, d, i) == OnRequest(o, d, who, RequestOf(f))
  {
    hide IpcCodec.Encode, IpcCodec.DecodeOne, IpcCodec.Frames, IpcCodec.Sendable, RequestOf, OnRequest;
    var chunk := IpcCodec.Encode(f);
    OneFrame(f);
    OneRequest(f);
    assert [] + chunk == chunk;
    var d1 := d.(clients := d.clients[who := d.clients[who].(inbox := [])]);
    assert d1 == d;
    assert [RequestOf(f)][1..] == [];
    assert OnRequests(o, OnRequest(o, d, who, RequestOf(f)), who, []) == OnRequest(o, d, who, RequestOf(f));
  }

  lemma OneRequest(f: IpcCodec.Frame)
    requires IpcCodec.IsHandled(f)
    ensures RequestsOf(IpcCodec.Handled([f])) == [RequestOf(f)]
  {
    assert [f][1..] == [];
    assert IpcCodec.Handled([f]) == [f];
  }

  lemma OneFrame(f: IpcCodec.Frame)
    requires IpcCodec.Sendable(f)
    ensures IpcCodec.Frames(IpcCodec.Encode(f)) == Parsed([f], 0, []) && !IpcCodec.DecodeOne([]).Overrun?
  {
    IpcCodec.NothingWaits();
    IpcCodec.DecodesExactly([f], []);
    assert [f][1..] == [] && IpcCodec.Wire([f]) + [] == IpcCodec.Encode(f);
  }
}
