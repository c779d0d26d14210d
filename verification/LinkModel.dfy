/** The device link as a state machine: the C++ fields of SerialLink, the operations it has
    outstanding in the I/O library, and the history of what was written. The environment may
    complete any outstanding operation, in any order, with success or failure. */
module LinkModel {
  import opened Bytes
  import opened SpacePacket

  // One shared byte vector; `id` says which write_bytes call allocated it.
  datatype Buffer = Buffer(id: nat, data: bytes)

  datatype Op =
    | Resolve(gen: nat)
    | Connect(gen: nat)
    | Read(gen: nat)
    | Write(gen: nat, buffer: Buffer)

  datatype Outcome = Ok(data: bytes) | Failed(reason: string)

  // What went wrong; the message shown to a user starts with these words.
  datatype Cause = NoPort | SerialOpen | SerialBaud | TcpResolve | TcpConnect | TcpRead | SerialRead | DeviceWrite

  // Callbacks into the application, in the order they are made.
  datatype Upcall = StateChanged(isOpen: bool, detail: string) | Problem(cause: Cause, reason: string) | Received(data: bytes)

  datatype Endpoint = Tcp(uri: string) | Serial(path: string)

  // One period during which the device was open: the buffers queued in it, how many of them
  // completed, and the octets the device took.
  datatype Session = Session(accepted: seq<Buffer>, completed: nat, wire: bytes)

  datatype Link = Link(
    endpoint: Endpoint,
    // the object's own fields
    isOpen: bool, connecting: bool, generation: nat, detail: string, tx: seq<Buffer>,
    // operations and posted writes held by the I/O library, and octets of the front buffer already taken
    pending: multiset<Op>, posted: seq<Buffer>, sent: nat,
    // history
    calls: seq<bytes>, dropped: set<nat>, past: seq<Session>, current: Session)

  datatype Event =
    | Start(answer: OpenResult)
    | Stop
    | WriteBytes(data: bytes)
    | RunPosted
    | Transfer(count: nat)
    | Complete(op: Op, outcome: Outcome)

  function Initial(endpoint: Endpoint): Link {
    Link(endpoint, false, false, 0, "", [], multiset{}, [], 0, [], {}, [], Session([], 0, []))
  }

  function Ids(buffers: seq<Buffer>): set<nat> {
    set b | b in buffers :: b.id
  }

  /* Steps */

  function Close(s: Link): Link {
    s.(isOpen := false, connecting := false, tx := [], sent := 0, dropped := s.dropped + Ids(s.tx))
  }

  function Fail(s: Link, cause: Cause, reason: string): (Link, seq<Upcall>) {
    (Close(s), [Problem(cause, reason)])
  }

  function Open(s: Link): (Link, seq<Upcall>) {
    (s.(isOpen := true, connecting := false, pending := s.pending + multiset{Read(s.generation)},
        past := s.past + [s.current], current := Session([], 0, [])),
     [StateChanged(true, s.detail)])
  }

  function DoStart(s: Link, answer: OpenResult): (Link, seq<Upcall>) {
    if s.isOpen || s.connecting then (s, [])
    else
      var begun := s.(generation := s.generation + 1);
      match s.endpoint
      case Tcp(uri) =>
        (begun.(connecting := true, detail := uri, pending := s.pending + multiset{Resolve(begun.generation)}), [])
      case Serial(path) =>
        if path == "" then (begun, [Problem(NoPort, "")])
        else
          match answer
          case OpenFailed(reason) => (begun, [Problem(SerialOpen, reason)])
          case BaudFailed(reason) => (begun, [Problem(SerialBaud, reason)])
          case Opened => Open(begun.(detail := path))
  }

  function DoStop(s: Link): (Link, seq<Upcall>) {
    (Close(s).(generation := s.generation + 1), [StateChanged(false, s.detail)])
  }

  function DoWriteBytes(s: Link, data: bytes): Link {
    if data == [] then s
    else s.(calls := s.calls + [data], posted := s.posted + [Buffer(|s.calls|, data)])
  }

  // The front buffer, if there is one, goes to the device.
  function StartWrite(s: Link): Link {
    if !s.isOpen || s.tx == [] then s
    else s.(pending := s.pending + multiset{Write(s.generation, s.tx[0])}, sent := 0)
  }

  function DoRunPosted(s: Link): Link
    requires s.posted != []
  {
    var b := s.posted[0];
    var s1 := s.(posted := s.posted[1..]);
    if !s.isOpen then s1.(dropped := s.dropped + {b.id})
    else
      var s2 := s1.(tx := s.tx + [b], current := s.current.(accepted := s.current.accepted + [b]));
      if s.tx == [] then StartWrite(s2) else s2
  }

  function DoTransfer(s: Link, count: nat): Link
    requires s.tx != [] && s.sent + count <= |s.tx[0].data|
  {
    s.(sent := s.sent + count,
       current := s.current.(wire := s.current.wire + s.tx[0].data[s.sent..s.sent + count]))
  }

  function DoComplete(s: Link, op: Op, outcome: Outcome): (Link, seq<Upcall>) {
    var s1 := s.(pending := s.pending - multiset{op});
    if op.gen != s.generation then (s1, [])
    else
      match op
      case Resolve(g) =>
        if outcome.Failed? then Fail(s1, TcpResolve, outcome.reason)
        else (s1.(pending := s1.pending + multiset{Connect(g)}), [])
      case Connect(g) =>
        if outcome.Failed? then Fail(s1, TcpConnect, outcome.reason)
        else Open(s1)
      case Read(g) =>
        if outcome.Failed? then
          Fail(s1, if s.endpoint.Tcp? then TcpRead else SerialRead, outcome.reason)
        else
          (if s.isOpen then s1.(pending := s1.pending + multiset{Read(g)}) else s1,
           if outcome.data != [] then [Received(outcome.data)] else [])
      case Write(g, _) =>
        if outcome.Failed? then Fail(s1, DeviceWrite, outcome.reason)
        else if s.tx == [] then (s1, [])
        else
          (StartWrite(s1.(tx := s.tx[1..], sent := 0,
                          current := s.current.(completed := s.current.completed + 1))), [])
  }

  // What the environment can do next. A write on an open device succeeds only once the device has
  // taken the whole buffer, and it takes octets of the outstanding write only.
  predicate Enabled(s: Link, e: Event) {
    match e
    case RunPosted => s.posted != []
    case Transfer(n) =>
      && s.isOpen && s.tx != [] && 0 < n && s.sent + n <= |s.tx[0].data|
      && Write(s.generation, s.tx[0]) in s.pending
    case Complete(op, outcome) =>
      && op in s.pending
      && (op.Write? && op.gen == s.generation && s.isOpen && outcome.Ok? ==> s.sent == |op.buffer.data|)
    case _ => true
  }

  function Step(s: Link, e: Event): (Link, seq<Upcall>)
    requires Enabled(s, e)
  {
    match e
    case Start(answer) => DoStart(s, answer)
    case Stop => DoStop(s)
    case WriteBytes(data) => (DoWriteBytes(s, data), [])
    case RunPosted => (DoRunPosted(s), [])
    case Transfer(n) => (DoTransfer(s, n), [])
    case Complete(op, outcome) => DoComplete(s, op, outcome)
  }

  predicate CanRun(s: Link, es: seq<Event>)
    decreases |es|
  {
    es == [] || (Enabled(s, es[0]) && CanRun(Step(s, es[0]).0, es[1..]))
  }

  // Final state and the observable trace of a run.
  function Run(s: Link, es: seq<Event>): (Link, seq<Upcall>)
    requires CanRun(s, es)
    decreases |es|
  {
    if es == [] then (s, [])
    else
      var (s1, ups) := Step(s, es[0]);
      var (s2, more) := Run(s1, es[1..]);
      (s2, ups + more)
  }

  /* Outstanding operations */

  // Nothing of generation `g` is outstanding.
  ghost predicate Unused(pending: multiset<Op>, g: nat) {
    forall op :: op in pending ==> op.gen < g
  }

  ghost predicate ReadsOk(s: Link) {
    && s.pending[Read(s.generation)] <= 1
    && (s.isOpen ==> s.pending[Read(s.generation)] == 1)
    && (s.connecting ==> s.pending[Read(s.generation)] == 0)
  }

  ghost predicate ConnectsOk(s: Link) {
    s.pending[Resolve(s.generation)] + s.pending[Connect(s.generation)] == if s.connecting then 1 else 0
  }

  // At most one write of the current generation is outstanding; on an open link it is the
  // front of the queue, and it is there exactly when the queue is not empty.
  ghost predicate WritesOk(s: Link) {
    && (forall b :: s.pending[Write(s.generation, b)] <= 1)
    && (forall b, c :: Write(s.generation, b) in s.pending && Write(s.generation, c) in s.pending ==> b == c)
    && (s.isOpen ==> forall b :: Write(s.generation, b) in s.pending <==> s.tx != [] && b == s.tx[0])
    && (s.connecting ==> forall b :: Write(s.generation, b) !in s.pending)
  }

  // The device as users see it.
  function EndpointText(endpoint: Endpoint): string {
    match endpoint
    case Tcp(uri) => uri
    case Serial(path) => path
  }

  ghost predicate FieldsOk(s: Link) {
    && (s.isOpen || s.connecting ==> s.detail == EndpointText(s.endpoint))
    && !(s.isOpen && s.connecting)
    && (s.connecting ==> s.endpoint.Tcp?)
    && (!s.isOpen ==> s.tx == [])
    && (if s.tx == [] then s.sent == 0 else s.sent <= |s.tx[0].data|)
  }

  ghost predicate LifecycleOk(s: Link) {
    Unused(s.pending, s.generation + 1) && FieldsOk(s) && ReadsOk(s) && ConnectsOk(s) && WritesOk(s)
  }

  lemma OpenOk(s: Link)
    requires Unused(s.pending, s.generation) && s.tx == [] && s.sent == 0 && s.detail == EndpointText(s.endpoint)
    ensures LifecycleOk(Open(s).0)
  {
  }

  lemma BeginOk(s: Link, op: Op)
    requires Unused(s.pending, s.generation) && s.tx == [] && s.sent == 0 && !s.isOpen && s.endpoint.Tcp?
    requires s.detail == EndpointText(s.endpoint) && (op == Resolve(s.generation) || op == Connect(s.generation))
    ensures LifecycleOk(s.(connecting := true, pending := s.pending + multiset{op}))
  {
  }

  lemma IdleOk(s: Link)
    requires Unused(s.pending, s.generation) && s.tx == [] && s.sent == 0 && !s.isOpen && !s.connecting
    ensures LifecycleOk(s)
  {
  }

  lemma LifecycleStart(s: Link, answer: OpenResult)
    requires LifecycleOk(s)
    ensures LifecycleOk(DoStart(s, answer).0)
  {
    hide ReadsOk, ConnectsOk, WritesOk;
    if !s.isOpen && !s.connecting {
      var begun := s.(generation := s.generation + 1);
      match s.endpoint {
        case Tcp(uri) =>
          BeginOk(begun.(detail := uri), Resolve(begun.generation));
        case Serial(path) =>
          if path != "" && answer.Opened? {
            OpenOk(begun.(detail := path));
          } else {
            IdleOk(begun);
          }
      }
    }
  }

  lemma LifecycleStop(s: Link)
    requires LifecycleOk(s)
    ensures LifecycleOk(DoStop(s).0)
    ensures Unused(DoStop(s).0.pending, DoStop(s).0.generation)
  {
    IdleOk(DoStop(s).0);
  }

  lemma LifecycleRunPosted(s: Link)
    requires LifecycleOk(s) && s.posted != []
    ensures LifecycleOk(DoRunPosted(s))
  {
    if s.isOpen && s.tx == [] {
      assert forall b :: Write(s.generation, b) !in s.pending;
    }
  }

  // The one connect operation of an attempt is the only thing outstanding.
  lemma ConnectIsAlone(s: Link, op: Op)
    requires LifecycleOk(s) && op in s.pending && op.gen == s.generation && (op.Resolve? || op.Connect?)
    ensures s.connecting && Unused(s.pending - multiset{op}, s.generation)
  {
    assert s.connecting;
    var rest := s.pending - multiset{op};
    forall other | other in rest ensures other.gen < s.generation {
      assert other in s.pending && rest[other] <= s.pending[other];
    }
  }

  lemma LifecycleConnecting(s: Link, op: Op, outcome: Outcome)
    requires LifecycleOk(s) && op in s.pending && op.gen == s.generation && (op.Resolve? || op.Connect?)
    ensures LifecycleOk(DoComplete(s, op, outcome).0)
  {
    ConnectIsAlone(s, op);
    var s1 := s.(pending := s.pending - multiset{op});
    if outcome.Failed? {
      IdleOk(Close(s1));
    } else if op.Resolve? {
      BeginOk(s1, Connect(s.generation));
    } else {
      OpenOk(s1);
    }
  }

  // Closing after a failed read or write leaves at most the other one outstanding.
  lemma LifecycleFail(s: Link, op: Op)
    requires LifecycleOk(s) && op in s.pending && op.gen == s.generation && (op.Read? || op.Write?)
    ensures LifecycleOk(Close(s.(pending := s.pending - multiset{op})))
  {
    assert !s.connecting;
    var rest := s.pending - multiset{op};
    assert forall other :: other in rest ==> other in s.pending;
    assert forall other :: rest[other] <= s.pending[other];
  }

  lemma LifecycleRead(s: Link, op: Op, data: bytes)
    requires LifecycleOk(s) && op in s.pending && op == Read(s.generation)
    ensures LifecycleOk(DoComplete(s, op, Ok(data)).0)
  {
    var t := DoComplete(s, op, Ok(data)).0;
    assert !s.connecting;
    assert forall b :: t.pending[Write(s.generation, b)] == s.pending[Write(s.generation, b)];
  }

  lemma LifecycleWrite(s: Link, op: Op, data: bytes)
    requires LifecycleOk(s) && op in s.pending && op.gen == s.generation && op.Write?
    ensures LifecycleOk(DoComplete(s, op, Ok(data)).0)
  {
    var rest, b := s.pending - multiset{op}, op.buffer;
    assert !s.connecting;
    assert s.pending[op] == 1 && op == Write(s.generation, b);
    assert forall c :: Write(s.generation, c) in rest ==> Write(s.generation, c) in s.pending && c == b;
    assert op !in rest;
    assert forall c :: Write(s.generation, c) !in rest;
  }

  lemma LifecycleComplete(s: Link, op: Op, outcome: Outcome)
    requires LifecycleOk(s) && Enabled(s, Complete(op, outcome))
    ensures LifecycleOk(DoComplete(s, op, outcome).0)
  {
    if op.gen != s.generation {
      StaleCompletion(s, op);
    } else if op.Resolve? || op.Connect? {
      LifecycleConnecting(s, op, outcome);
    } else if outcome.Failed? {
      LifecycleFail(s, op);
    } else if op.Read? {
      LifecycleRead(s, op, outcome.data);
    } else {
      LifecycleWrite(s, op, outcome.data);
    }
  }

  lemma StaleCompletion(s: Link, op: Op)
    requires LifecycleOk(s) && op.gen != s.generation
    ensures LifecycleOk(s.(pending := s.pending - multiset{op}))
  {
    var rest := s.pending - multiset{op};
    assert forall other :: other in rest ==> other in s.pending;
    assert forall other: Op :: other.gen == s.generation ==> rest[other] == s.pending[other];
  }

  lemma LifecycleStep(s: Link, e: Event)
    requires LifecycleOk(s) && Enabled(s, e)
    ensures LifecycleOk(Step(s, e).0)
  {
    match e {
      case Start(answer) => LifecycleStart(s, answer);
      case Stop => LifecycleStop(s);
      case RunPosted => LifecycleRunPosted(s);
      case Complete(op, outcome) => LifecycleComplete(s, op, outcome);
      case _ =>
    }
  }

  // The protocol invariant holds in every state of every run.
  lemma {:induction false} LifecycleAlways(s: Link, es: seq<Event>)
    requires LifecycleOk(s) && CanRun(s, es)
    ensures LifecycleOk(Run(s, es).0)
    decreases |es|
  {
    if es != [] {
      LifecycleStep(s, es[0]);
      LifecycleAlways(Step(s, es[0]).0, es[1..]);
    }
  }
}
