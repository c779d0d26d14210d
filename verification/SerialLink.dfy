/** The device link as the daemon runs it. Each method is one call or one completion handler;
    callbacks into the application are returned in the order they are made. */
module DeviceLink {
  import opened Bytes
  import opened SpacePacket
  import opened LinkModel

  class SerialLink {
    const endpoint: Endpoint
    var isOpen: bool
    var connecting: bool
    var generation: nat
    var detail: string
    var txQueue: seq<Buffer>
    var issued: nat   // names the next shared byte vector

    // Held by the I/O library and the device.
    ghost var pending: multiset<Op>
    ghost var posted: seq<Buffer>
    ghost var sent: nat

    // History.
    ghost var calls: seq<bytes>
    ghost var dropped: set<nat>
    ghost var past: seq<Session>
    ghost var current: Session

    ghost predicate Valid()
      reads this
    {
      issued == |calls|
    }

    ghost function View(): Link
      reads this
    {
      Link(endpoint, isOpen, connecting, generation, detail, txQueue, pending, posted, sent,
           calls, dropped, past, current)
    }

    constructor (endpoint: Endpoint)
      ensures Valid() && View() == Initial(endpoint)
    {
      this.endpoint := endpoint;
      isOpen, connecting, generation, detail, txQueue, issued := false, false, 0, "", [], 0;
      pending, posted, sent := multiset{}, [], 0;
      calls, dropped, past, current := [], {}, [], Session([], 0, []);
    }

    method Start(answer: OpenResult) returns (ups: seq<Upcall>)
      requires Valid()
      modifies this
      ensures Valid() && (View(), ups) == DoStart(old(View()), answer)
    {
      ups := [];
      if isOpen || connecting { return; }
      generation := generation + 1;
      connecting := true;
      if endpoint.Tcp? {
        detail := endpoint.uri;
        pending := pending + multiset{Resolve(generation)};
        return;
      }
      var path := endpoint.path;
      if path == "" {
        connecting := false;
        return [Problem(NoPort, "")];
      }
      if answer.OpenFailed? {
        connecting := false;
        return [Problem(SerialOpen, answer.reason)];
      }
      if answer.BaudFailed? {
        connecting := false;
        return [Problem(SerialBaud, answer.reason)];
      }
      detail := path;
      ups := BecomeOpen();
    }

    // The last lines of a successful serial open and of a successful connect.
    method BecomeOpen() returns (ups: seq<Upcall>)
      requires Valid()
      modifies this
      ensures Valid() && (View(), ups) == Open(old(View()))
    {
      connecting := false;
      isOpen := true;
      past, current := past + [current], Session([], 0, []);
      ups := [StateChanged(true, detail)];
      DoRead(generation);
    }

    method Stop() returns (ups: seq<Upcall>)
      requires Valid()
      modifies this
      ensures Valid() && (View(), ups) == DoStop(old(View()))
    {
      generation := generation + 1;
      isOpen := false;
      connecting := false;
      dropped := dropped + Ids(txQueue);
      txQueue := [];
      sent := 0;
      ups := [StateChanged(false, detail)];
    }

    method WriteBytes(data: bytes)
      requires Valid()
      modifies this
      ensures Valid() && View() == DoWriteBytes(old(View()), data)
    {
      if data == [] { return; }
      var buffer := Buffer(issued, data);
      issued := issued + 1;
      calls := calls + [data];
      posted := posted + [buffer];
    }

    // The posted half of WriteBytes.
    method RunPosted(buffer: Buffer)
      requires Valid() && posted != [] && buffer == posted[0]
      modifies this
      ensures Valid() && View() == DoRunPosted(old(View()))
    {
      posted := posted[1..];
      if !isOpen {
        dropped := dropped + {buffer.id};
        return;
      }
      var idle := txQueue == [];
      txQueue := txQueue + [buffer];
      current := current.(accepted := current.accepted + [buffer]);
      if idle { DoWrite(generation); }
    }

    method DoWrite(gen: nat)
      requires Valid()
      modifies this
      ensures Valid() && View() == if gen == old(generation) then StartWrite(old(View())) else old(View())
    {
      if gen != generation || !isOpen || txQueue == [] { return; }
      pending := pending + multiset{Write(gen, txQueue[0])};
      sent := 0;
    }

    method DoRead(gen: nat)
      requires Valid()
      modifies this
      ensures Valid()
      ensures View() == if gen != old(generation) || !old(isOpen) then old(View())
                        else old(View()).(pending := old(pending) + multiset{Read(gen)})
    {
      if gen != generation || !isOpen { return; }
      pending := pending + multiset{Read(gen)};
    }

    method HandleIoError(cause: Cause, reason: string, gen: nat) returns (ups: seq<Upcall>)
      requires Valid()
      modifies this
      ensures Valid()
      ensures (View(), ups) == if gen == old(generation) then Fail(old(View()), cause, reason) else (old(View()), [])
    {
      if gen != generation { return []; }
      isOpen := false;
      connecting := false;
      dropped := dropped + Ids(txQueue);
      txQueue := [];
      sent := 0;
      ups := [Problem(cause, reason)];
    }

    method OnResolved(gen: nat, outcome: Outcome) returns (ups: seq<Upcall>)
      requires Valid() && Resolve(gen) in pending
      modifies this
      ensures Valid() && (View(), ups) == DoComplete(old(View()), Resolve(gen), outcome)
    {
      pending := pending - multiset{Resolve(gen)};
      ups := [];
      if gen != generation { return; }
      if outcome.Failed? {
        ups := HandleIoError(TcpResolve, outcome.reason, gen);
        return;
      }
      pending := pending + multiset{Connect(gen)};
    }

    method OnConnected(gen: nat, outcome: Outcome) returns (ups: seq<Upcall>)
      requires Valid() && Connect(gen) in pending
      modifies this
      ensures Valid() && (View(), ups) == DoComplete(old(View()), Connect(gen), outcome)
    {
      pending := pending - multiset{Connect(gen)};
      ups := [];
      if gen != generation { return; }
      if outcome.Failed? {
        ups := HandleIoError(TcpConnect, outcome.reason, gen);
        return;
      }
      ups := BecomeOpen();
    }

    method OnRead(gen: nat, outcome: Outcome) returns (ups: seq<Upcall>)
      requires Valid() && Read(gen) in pending
      modifies this
      ensures Valid() && (View(), ups) == DoComplete(old(View()), Read(gen), outcome)
    {
      pending := pending - multiset{Read(gen)};
      ups := [];
      if gen != generation { return; }
      if outcome.Failed? {
        ups := HandleIoError(if endpoint.Tcp? then TcpRead else SerialRead, outcome.reason, gen);
        return;
      }
      if outcome.data != [] { ups := [Received(outcome.data)]; }
      DoRead(gen);
    }

    method OnWritten(gen: nat, buffer: Buffer, outcome: Outcome) returns (ups: seq<Upcall>)
      requires Valid() && Write(gen, buffer) in pending
      modifies this
      ensures Valid() && (View(), ups) == DoComplete(old(View()), Write(gen, buffer), outcome)
    {
      pending := pending - multiset{Write(gen, buffer)};
      ups := [];
      if gen != generation { return; }
      if outcome.Failed? {
        ups := HandleIoError(DeviceWrite, outcome.reason, gen);
        return;
      }
      NextWrite(gen);
    }

    method NextWrite(gen: nat)
      requires Valid() && gen == generation
      modifies this
      ensures Valid()
      ensures var s := old(View());
        View() == if s.tx == [] then s
                  else StartWrite(s.(tx := s.tx[1..], sent := 0,
                                     current := s.current.(completed := s.current.completed + 1)))
    {
      if txQueue != [] {
        txQueue := txQueue[1..];
        sent := 0;
        current := current.(completed := current.completed + 1);
      }
      DoWrite(gen);
    }

    // The device takes more octets of the write in progress.
    ghost method Transfer(count: nat)
      requires Valid() && txQueue != [] && sent + count <= |txQueue[0].data|
      modifies this
      ensures Valid() && View() == DoTransfer(old(View()), count)
    {
      current := current.(wire := current.wire + txQueue[0].data[sent..sent + count]);
      sent := sent + count;
    }
  }
}
