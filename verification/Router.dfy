/** The daemon's wiring: how link callbacks, received packets and client frames change the link,
    the framer, the bookkeeping and what every client is told. Clients are named by `K`. */
module Router {
  import opened Bytes
  import opened SpacePacket
  import opened LinkModel
  import opened LinkHistory
  import opened History
  import Framer
  import IpcCodec

  datatype Refusal = BadPacket(error: string) | LinkDown | BadPayload | Unsupported(command: string) | BadReceived(error: string)

  // Frames sent to clients, before packing.
  datatype Notice =
    | Hello
    | LinkReport(status: LinkStatus, detail: Detail)
    | PacketRx(meta: Meta)
    | PacketTx(meta: Meta)
    | ErrorReport(why: Refusal)
    | Pong
    | Stats(rxPackets: nat, rxBytes: nat, txPackets: nat, txBytes: nat, decodeErrors: nat)

  datatype Client = Client(inbox: bytes, sent: seq<Notice>)

  datatype Daemon<K> = Daemon(link: Link, acc: bytes, framingErrors: nat, received: bytes,
                              store: Store, clients: map<K, Client>)

  /* Telling clients */

  function Tell(c: Client, n: Notice): Client {
    c.(sent := c.sent + [n])
  }

  function Broadcast<K>(d: Daemon<K>, n: Notice): Daemon<K> {
    d.(clients := map k | k in d.clients :: Tell(d.clients[k], n))
  }

  function Answer<K>(d: Daemon<K>, who: K, n: Notice): Daemon<K> {
    if who in d.clients then d.(clients := d.clients[who := Tell(d.clients[who], n)]) else d
  }

  function Report(s: Store): Notice {
    LinkReport(s.status, s.detail)
  }

  /* Callbacks from the link */

  function RecordOf(o: Oracle, p: bytes, time: nat): PacketRecord {
    match DecodeMeta(o, p)
    case Success(m) =>
      PacketRecord(time, if m.kind == 1 then TC else TM, m.apid, m.sequence, m.service, m.subservice, None, p)
    case Failure(e) => PacketRecord(time, TM, 0, 0, 0, 0, Some(e), p)
  }

  function Remember<K>(d: Daemon<K>, rec: PacketRecord): Daemon<K> {
    d.(store := d.store.(records := d.store.records + [rec]))
  }

  function Announce<K>(d: Daemon<K>, decoded: Result<Meta>): Daemon<K> {
    match decoded
    case Success(m) => Broadcast(d, PacketRx(m))
    case Failure(e) =>
      Broadcast(d.(store := d.store.(decodeErrors := d.store.decodeErrors + 1)), ErrorReport(BadReceived(e)))
  }

  function OnPacket<K>(o: Oracle, d: Daemon<K>, p: bytes): Daemon<K> {
    Announce(Remember(d, RecordOf(o, p, o.clock(|d.store.records|))), DecodeMeta(o, p))
  }

  function OnPackets<K>(o: Oracle, d: Daemon<K>, packets: seq<bytes>): Daemon<K>
    decreases |packets|
  {
    if packets == [] then d else OnPackets(o, OnPacket(o, d, packets[0]), packets[1..])
  }

  // The framer takes octets in.
  ghost function Absorb<K>(d: Daemon<K>, data: bytes): Daemon<K> {
    var p := Framer.Frames(d.acc + data);
    d.(acc := p.rest, framingErrors := d.framingErrors + p.drops, received := d.received + data)
  }

  ghost function OnUpcall<K>(o: Oracle, d: Daemon<K>, up: Upcall): Daemon<K> {
    match up
    case StateChanged(isOpen, detail) =>
      var s := d.store.(status := if isOpen then Connected else Disconnected, detail := Named(detail));
      Broadcast(d.(store := s), Report(s))
    case Problem(cause, reason) =>
      var s := d.store.(status := Error, detail := Trouble(cause, reason));
      Broadcast(d.(store := s), Report(s))
    case Received(data) =>
      OnPackets(o, Absorb(d, data), Framer.Frames(d.acc + data).items)
  }

  ghost function OnUpcalls<K>(o: Oracle, d: Daemon<K>, ups: seq<Upcall>): Daemon<K>
    decreases |ups|
  {
    if ups == [] then d else OnUpcalls(o, OnUpcall(o, d, ups[0]), ups[1..])
  }

  // One step of the link together with the callbacks it makes.
  ghost function LinkStep<K>(o: Oracle, d: Daemon<K>, e: Event): Daemon<K>
    requires Enabled(d.link, e)
  {
    var (l, ups) := Step(d.link, e);
    OnUpcalls(o, d.(link := l), ups)
  }

  // How the operating system answers the next attempt to open the device.
  function NextAnswer(o: Oracle, l: Link): OpenResult {
    o.open(l.generation + 1)
  }

  /* Frames from clients */

  // PastEnd: see Unpack.
  datatype Command = Malformed | PastEnd | Connecting | Disconnecting | Reconnecting | Ping | Status | Statistics | Other(text: string)

  function Upper(text: bytes): string {
    seq(|text|, i requires 0 <= i < |text| =>
      if 97 <= text[i] <= 122 then (text[i] - 32) as char else text[i] as char)
  }

  function CommandWord(word: string): Command {
    if word == "CONNECT" then Connecting
    else if word == "DISCONNECT" then Disconnecting
    else if word == "RECONNECT" then Reconnecting
    else if word == "PING" then Ping
    else if word == "STATUS" then Status
    else if word == "STATS" then Statistics
    else Other(word)
  }

  // Beyond: the 32-bit sum 4 + size wraps, so the size test passes, but the octets are not all there;
  // what the program does then is not defined.
  datatype Unpacked = Refused | Beyond | Text(text: bytes)

  function Unpack(payload: bytes): Unpacked {
    if |payload| < 4 then Refused
    else
      var size := Number(payload[..4]);
      if |payload| < (4 + size) % TWO_32 then Refused
      else if |payload| < 4 + size then Beyond
      else Text(payload[4..4 + size])
  }

  function ParseCommand(payload: bytes): Command {
    match Unpack(payload)
    case Refused => Malformed
    case Beyond => PastEnd
    case Text(text) => CommandWord(Upper(text))
  }

  ghost function OnPacketSend<K>(o: Oracle, d: Daemon<K>, who: K, packet: bytes): Daemon<K> {
    match DecodeMeta(o, packet)
    case Failure(e) => Answer(d, who, ErrorReport(BadPacket(e)))
    case Success(m) =>
      if !d.link.isOpen then Answer(d, who, ErrorReport(LinkDown))
      else
        var s := d.store.(txPackets := d.store.txPackets + 1, txBytes := d.store.txBytes + |packet|);
        Broadcast(LinkStep(o, d, WriteBytes(packet)).(store := s), PacketTx(m))
  }

  function StatsOf(s: Store): Notice {
    Stats(|s.records|, |Concat(Raws(s.records))|, s.txPackets, s.txBytes, s.decodeErrors)
  }

  ghost function OnCommand<K>(o: Oracle, d: Daemon<K>, who: K, c: Command): Daemon<K> {
    match c
    case Malformed => Answer(d, who, ErrorReport(BadPayload))
    case PastEnd => d
    case Connecting =>
      if d.link.isOpen then Answer(d, who, Report(d.store))
      else LinkStep(o, d, Start(NextAnswer(o, d.link)))
    case Disconnecting => LinkStep(o, d, Stop)
    case Reconnecting =>
      var d1 := LinkStep(o, d, Stop);
      LinkStep(o, d1, Start(NextAnswer(o, d1.link)))
    case Ping => Answer(d, who, Pong)
    case Status => Answer(d, who, Report(d.store))
    case Statistics => Answer(d, who, StatsOf(d.store))
    case Other(text) => Answer(d, who, ErrorReport(Unsupported(text)))
  }

  // What a frame asks for.
  datatype Request = Route(packet: bytes) | Run(command: Command)

  function RequestOf(f: IpcCodec.Frame): Request {
    if f.kind == IpcCodec.PACKET_SEND then Route(f.payload) else Run(ParseCommand(f.payload))
  }

  function RequestsOf(fs: seq<IpcCodec.Frame>): (r: seq<Request>)
    ensures |r| == |fs| && forall i :: 0 <= i < |r| ==> r[i] == RequestOf(fs[i])
  {
    seq(|fs|, i requires 0 <= i < |fs| => RequestOf(fs[i]))
  }

  ghost function OnRequest<K>(o: Oracle, d: Daemon<K>, who: K, r: Request): Daemon<K> {
    match r
    case Route(packet) => OnPacketSend(o, d, who, packet)
    case Run(command) => OnCommand(o, d, who, command)
  }

  ghost function OnRequests<K>(o: Oracle, d: Daemon<K>, who: K, rs: seq<Request>): Daemon<K>
    decreases |rs|
  {
    if rs == [] then d else OnRequests(o, OnRequest(o, d, who, rs[0]), who, rs[1..])
  }

  /* The daemon as a state machine */

  datatype Input<K> =
    | Accepted(who: K)
    | Gone(who: K)
    | FromClient(who: K, chunk: bytes)
    | FromDevice(event: Event)

  // Clients may send anything on which the program's behaviour is defined.
  ghost predicate CanTake<K>(d: Daemon<K>, i: Input<K>) {
    match i
    case Accepted(who) => who !in d.clients
    case Gone(who) => true
    case FromClient(who, chunk) =>
      && who in d.clients
      && var p := IpcCodec.Frames(d.clients[who].inbox + chunk);
         !IpcCodec.DecodeOne(p.rest).Overrun? && Run(PastEnd) !in RequestsOf(IpcCodec.Handled(p.items))
    case FromDevice(e) => (e.RunPosted? || e.Transfer? || e.Complete?) && Enabled(d.link, e)
  }

  ghost function Take<K>(o: Oracle, d: Daemon<K>, i: Input<K>): Daemon<K>
    requires CanTake(d, i)
  {
    match i
    case Accepted(who) => d.(clients := d.clients[who := Client([], [Hello, Report(d.store)])])
    case Gone(who) => d.(clients := d.clients - {who})
    case FromClient(who, chunk) =>
      var c := d.clients[who];
      var p := IpcCodec.Frames(c.inbox + chunk);
      OnRequests(o, d.(clients := d.clients[who := c.(inbox := p.rest)]), who, RequestsOf(IpcCodec.Handled(p.items)))
    case FromDevice(e) => LinkStep(o, d, e)
  }

  function Blank<K>(endpoint: Endpoint): Daemon<K> {
    Daemon(Initial(endpoint), [], 0, [], EmptyStore, map[])
  }

  // The daemon once it has started: it opens the device by itself if one is configured.
  ghost function Boot<K>(o: Oracle, endpoint: Endpoint): Daemon<K> {
    var d := Blank<K>(endpoint);
    if endpoint == Serial("") then d else LinkStep(o, d, Start(NextAnswer(o, d.link)))
  }

  ghost predicate CanServe<K>(o: Oracle, d: Daemon<K>, inputs: seq<Input<K>>)
    decreases |inputs|
  {
    inputs == [] || (CanTake(d, inputs[0]) && CanServe(o, Take(o, d, inputs[0]), inputs[1..]))
  }

  ghost function Serve<K>(o: Oracle, d: Daemon<K>, inputs: seq<Input<K>>): Daemon<K>
    requires CanServe(o, d, inputs)
    decreases |inputs|
  {
    if inputs == [] then d else Serve(o, Take(o, d, inputs[0]), inputs[1..])
  }
}
