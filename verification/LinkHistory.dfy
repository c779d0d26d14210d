/** What becomes of the buffers handed to write_bytes, over whole runs of the device link. */
module LinkHistory {
  import opened Bytes
  import opened SpacePacket
  import opened LinkModel

  function Completed(x: Session): seq<Buffer> {
    if x.completed <= |x.accepted| then x.accepted[..x.completed] else x.accepted
  }

  function DoneIn(sessions: seq<Session>): seq<Buffer> {
    if sessions == [] then [] else DoneIn(sessions[..|sessions| - 1]) + Completed(sessions[|sessions| - 1])
  }

  // Every buffer whose write completed, oldest first.
  function Done(s: Link): seq<Buffer> {
    DoneIn(s.past) + Completed(s.current)
  }

  // Every buffer that is not lost: written, queued, or posted and not yet run.
  function Flow(s: Link): seq<Buffer> {
    Done(s) + s.tx + s.posted
  }

  function Data(buffers: seq<Buffer>): bytes {
    if buffers == [] then [] else Data(buffers[..|buffers| - 1]) + buffers[|buffers| - 1].data
  }

  // In the order of the calls, each call at most once.
  ghost predicate Rising(buffers: seq<Buffer>) {
    forall i, j :: 0 <= i < j < |buffers| ==> buffers[i].id < buffers[j].id
  }

  ghost predicate Faithful(buffers: seq<Buffer>, calls: seq<bytes>) {
    forall b :: b in buffers ==> b.id < |calls| && b.data == calls[b.id]
  }

  // The device took the completed buffers and possibly a part of the next one, nothing else.
  ghost predicate SessionOk(x: Session, calls: seq<bytes>) {
    && x.completed <= |x.accepted|
    && Rising(x.accepted) && Faithful(x.accepted, calls)
    && Data(x.accepted[..x.completed]) <= x.wire
    && x.wire <= Data(x.accepted[..if x.completed < |x.accepted| then x.completed + 1 else x.completed])
  }

  ghost predicate SessionsOk(s: Link) {
    && (forall x :: x in s.past ==> SessionOk(x, s.calls))
    && SessionOk(s.current, s.calls)
  }

  // The octets of the front buffer that the device already has.
  function Taken(s: Link): bytes {
    if s.tx == [] || s.sent > |s.tx[0].data| then [] else s.tx[0].data[..s.sent]
  }

  ghost predicate CurrentOk(s: Link) {
    s.isOpen ==>
      && s.current.accepted == Completed(s.current) + s.tx
      && s.current.wire == Data(Completed(s.current)) + Taken(s)
  }

  // The buffers still known and the ones lost are together exactly the calls, none counted twice.
  ghost predicate Ledger(flow: seq<Buffer>, lost: set<nat>, calls: seq<bytes>) {
    && Rising(flow) && Faithful(flow, calls)
    && Ids(flow) !! lost
    && (forall i :: i in Ids(flow) + lost <==> 0 <= i < |calls|)
  }

  ghost predicate RecordsOk(s: Link) {
    Ledger(Flow(s), s.dropped, s.calls) && SessionsOk(s) && CurrentOk(s)
  }

  ghost predicate HistoryOk(s: Link) {
    LifecycleOk(s) && RecordsOk(s)
  }

  lemma IdsAppend(a: seq<Buffer>, b: seq<Buffer>)
    ensures Ids(a + b) == Ids(a) + Ids(b)
  {
    assert forall i :: i in Ids(a) + Ids(b) ==> exists x :: x in a + b && x.id == i;
  }

  lemma DataSnoc(buffers: seq<Buffer>, b: Buffer)
    ensures Data(buffers + [b]) == Data(buffers) + b.data
  {
    assert (buffers + [b])[..|buffers|] == buffers;
  }

  lemma LedgerExtend(flow: seq<Buffer>, lost: set<nat>, calls: seq<bytes>, data: bytes)
    requires Ledger(flow, lost, calls)
    ensures Ledger(flow + [Buffer(|calls|, data)], lost, calls + [data])
  {
    var b := Buffer(|calls|, data);
    IdsAppend(flow, [b]);
    assert b in [b] && Ids([b]) == {b.id};
    forall x | x in flow ensures x.id < |calls| && x.data == (calls + [data])[x.id] {
      assert x.id in Ids(flow);
    }
    assert |calls| !in Ids(flow) + lost;
    hide Ids;
  }

  lemma RisingLose(a: seq<Buffer>, gone: seq<Buffer>, c: seq<Buffer>)
    requires Rising(a + gone + c)
    ensures Rising(a + c) && Ids(a + c) !! Ids(gone)
  {
    var all := a + gone + c;
    assert forall i :: 0 <= i < |a + c| ==> (a + c)[i] == all[if i < |a| then i else i + |gone|];
    assert forall i :: 0 <= i < |gone| ==> gone[i] == all[|a| + i];
    forall m, n | 0 <= m < |a + c| && 0 <= n < |gone| ensures (a + c)[m].id != gone[n].id {
      if m < |a| {
        assert all[m].id < all[|a| + n].id;
      } else {
        assert all[|a| + n].id < all[m + |gone|].id;
      }
    }
  }

  lemma LedgerLose(a: seq<Buffer>, gone: seq<Buffer>, c: seq<Buffer>, lost: set<nat>, calls: seq<bytes>)
    requires Ledger(a + gone + c, lost, calls)
    ensures Ledger(a + c, lost + Ids(gone), calls)
  {
    RisingLose(a, gone, c);
    IdsAppend(a + gone, c);
    IdsAppend(a, gone);
    IdsAppend(a, c);
    assert Ids(a + c) + (lost + Ids(gone)) == Ids(a + gone + c) + lost;
    assert forall b :: b in a + c ==> b in a + gone + c;
  }

  lemma FaithfulLater(buffers: seq<Buffer>, calls: seq<bytes>, data: bytes)
    requires Faithful(buffers, calls)
    ensures Faithful(buffers, calls + [data])
  {
  }

  lemma HistoryWriteBytes(s: Link, data: bytes)
    requires HistoryOk(s)
    ensures HistoryOk(DoWriteBytes(s, data))
  {
    var t := DoWriteBytes(s, data);
    if data != [] {
      LedgerExtend(Flow(s), s.dropped, s.calls, data);
      assert Flow(t) == Flow(s) + [Buffer(|s.calls|, data)];
      FaithfulLater(s.current.accepted, s.calls, data);
      forall x | x in s.past ensures SessionOk(x, t.calls) {
        FaithfulLater(x.accepted, s.calls, data);
      }
    }
  }

  // Dropping the first posted buffer of a closed link.
  lemma HistorySkip(s: Link)
    requires HistoryOk(s) && s.posted != [] && !s.isOpen
    ensures HistoryOk(DoRunPosted(s))
  {
    var t, b := DoRunPosted(s), s.posted[0];
    assert Flow(s) == Done(s) + [b] + t.posted;
    assert Flow(t) == Done(s) + t.posted;
    assert b in [b] && Ids([b]) == {b.id};
    LedgerLose(Done(s), [b], t.posted, s.dropped, s.calls);
  }

  lemma SessionAccept(x: Session, b: Buffer, calls: seq<bytes>)
    requires SessionOk(x, calls)
    requires Rising(x.accepted + [b]) && Faithful(x.accepted + [b], calls)
    ensures SessionOk(x.(accepted := x.accepted + [b]), calls)
  {
    var y := x.(accepted := x.accepted + [b]);
    assert y.accepted[..y.completed] == x.accepted[..x.completed];
    if x.completed < |x.accepted| {
      assert y.accepted[..x.completed + 1] == x.accepted[..x.completed + 1];
    } else {
      DataSnoc(x.accepted[..x.completed], b);
      assert y.accepted[..x.completed + 1] == x.accepted[..x.completed] + [b];
    }
  }

  lemma FlowAccept(s: Link, t: Link, b: Buffer)
    requires s.posted == [b] + t.posted && t.tx == s.tx + [b] && t.past == s.past
    requires Completed(t.current) == Completed(s.current)
    ensures Flow(t) == Flow(s)
  {
  }

  lemma RecordsFrom(s: Link, t: Link)
    requires RecordsOk(s) && Flow(t) == Flow(s)
    requires t.calls == s.calls && t.dropped == s.dropped && t.past == s.past
    requires SessionOk(t.current, t.calls) && CurrentOk(t)
    ensures RecordsOk(t)
  {
  }

  lemma RisingPart(a: seq<Buffer>, part: seq<Buffer>, c: seq<Buffer>, calls: seq<bytes>)
    requires Rising(a + part + c) && Faithful(a + part + c, calls)
    ensures Rising(part) && Faithful(part, calls)
  {
    var all := a + part + c;
    assert forall i :: 0 <= i < |part| ==> part[i] == all[|a| + i];
  }

  lemma Regroup(d: seq<Buffer>, c: seq<Buffer>, q: seq<Buffer>, b: Buffer, rest: seq<Buffer>)
    ensures d + c + q + ([b] + rest) == d + (c + q + [b]) + rest
  {
  }

  // Accepted buffers are a stretch of the flow, so they are in order and faithful.
  lemma AcceptedInFlow(s: Link, b: Buffer, rest: seq<Buffer>)
    requires RecordsOk(s) && s.isOpen && s.posted == [b] + rest
    ensures Rising(s.current.accepted + [b]) && Faithful(s.current.accepted + [b], s.calls)
  {
    Regroup(DoneIn(s.past), Completed(s.current), s.tx, b, rest);
    RisingPart(DoneIn(s.past), s.current.accepted + [b], rest, s.calls);
  }

  lemma RecordsAccept(s: Link, t: Link, b: Buffer)
    requires RecordsOk(s) && s.isOpen && t.isOpen && s.posted == [b] + t.posted && t.tx == s.tx + [b]
    requires t.current == s.current.(accepted := s.current.accepted + [b])
    requires t.calls == s.calls && t.dropped == s.dropped && t.past == s.past
    requires if s.tx == [] then t.sent == 0 else t.sent == s.sent
    ensures RecordsOk(t)
  {
    hide Ledger, Rising, Faithful, Data, DoneIn, Flow;
    AcceptedInFlow(s, b, t.posted);
    SessionAccept(s.current, b, s.calls);
    assert Completed(t.current) == Completed(s.current);
    FlowAccept(s, t, b);
    assert Taken(t) == Taken(s);
    RecordsFrom(s, t);
  }

  lemma RecordsTransfer(s: Link, n: nat)
    requires RecordsOk(s) && s.isOpen && s.tx != [] && s.sent + n <= |s.tx[0].data|
    ensures RecordsOk(DoTransfer(s, n))
  {
    hide Ledger, Rising, Faithful, Data, DoneIn;
    var t, front := DoTransfer(s, n), s.tx[0].data;
    var more := front[s.sent..s.sent + n];
    assert front[..s.sent] + more == front[..s.sent + n];
    SessionTransfer(s.current, front[..s.sent], more, s.calls);
    assert Completed(t.current) == Completed(s.current);
    RecordsFrom(s, t);
  }

  lemma SessionTransfer(x: Session, taken: bytes, more: bytes, calls: seq<bytes>)
    requires SessionOk(x, calls) && x.completed < |x.accepted|
    requires taken + more <= x.accepted[x.completed].data
    requires x.wire == Data(x.accepted[..x.completed]) + taken
    ensures SessionOk(x.(wire := x.wire + more), calls)
    ensures x.wire + more == Data(x.accepted[..x.completed]) + (taken + more)
  {
    hide Rising, Faithful;
    var done, next := x.accepted[..x.completed], x.accepted[x.completed];
    assert x.accepted[..x.completed + 1] == done + [next];
    DataSnoc(done, next);
    hide Data;
    Regrouped(Data(done), taken, more);
  }

  // Closing loses the queue; the session keeps its octets.
  lemma HistoryClose(s: Link, t: Link)
    requires HistoryOk(s)
    requires LifecycleOk(t) && !t.isOpen
    requires t.past == s.past && t.current == s.current && t.calls == s.calls && t.posted == s.posted
    requires t.tx == [] && t.dropped == s.dropped + Ids(s.tx)
    ensures HistoryOk(t)
  {
    assert Flow(t) == Done(s) + s.posted;
    LedgerLose(Done(s), s.tx, s.posted, s.dropped, s.calls);
  }

  lemma HistoryOpen(s: Link, t: Link)
    requires HistoryOk(s) && !s.isOpen
    requires LifecycleOk(t) && t.isOpen
    requires t.past == s.past + [s.current] && t.current == Session([], 0, [])
    requires t.calls == s.calls && t.posted == s.posted && t.tx == [] && t.dropped == s.dropped
    ensures HistoryOk(t)
  {
    assert t.past[..|s.past|] == s.past;
    assert Done(t) == Done(s);
    assert Flow(t) == Flow(s);
  }

  lemma SessionComplete(x: Session, calls: seq<bytes>)
    requires SessionOk(x, calls) && x.completed < |x.accepted|
    requires x.wire == Data(x.accepted[..x.completed]) + x.accepted[x.completed].data
    ensures SessionOk(x.(completed := x.completed + 1), calls)
    ensures x.wire == Data(x.accepted[..x.completed + 1])
  {
    var k := x.completed;
    DataSnoc(x.accepted[..k], x.accepted[k]);
    assert x.accepted[..k + 1] == x.accepted[..k] + [x.accepted[k]];
    if k + 1 < |x.accepted| {
      DataSnoc(x.accepted[..k + 1], x.accepted[k + 1]);
      assert x.accepted[..k + 2] == x.accepted[..k + 1] + [x.accepted[k + 1]];
    }
  }

  lemma FlowWritten(s: Link, t: Link, b: Buffer)
    requires s.tx == [b] + t.tx && t.past == s.past && t.posted == s.posted
    requires Completed(t.current) == Completed(s.current) + [b]
    ensures Flow(t) == Flow(s)
  {
  }

  lemma RecordsWritten(s: Link, t: Link, b: Buffer)
    requires RecordsOk(s) && s.isOpen && t.isOpen && s.tx == [b] + t.tx && s.sent == |b.data| && t.sent == 0
    requires t.current == s.current.(completed := s.current.completed + 1)
    requires t.calls == s.calls && t.dropped == s.dropped && t.past == s.past && t.posted == s.posted
    ensures RecordsOk(t)
  {
    hide Ledger, Rising, Faithful, Data, DoneIn, Flow;
    var x, y := s.current, t.current;
    assert Taken(s) == b.data;
    assert x.accepted[x.completed] == b;
    SessionComplete(x, s.calls);
    assert Completed(y) == Completed(x) + [b];
    FlowWritten(s, t, b);
    assert Taken(t) == [];
    RecordsFrom(s, t);
  }

  // A step that touches neither the queue nor the history.
  lemma HistoryUntouched(s: Link, t: Link)
    requires HistoryOk(s) && LifecycleOk(t)
    requires t.isOpen == s.isOpen && t.tx == s.tx && t.sent == s.sent && t.posted == s.posted
    requires t.calls == s.calls && t.dropped == s.dropped && t.past == s.past && t.current == s.current
    ensures HistoryOk(t)
  {
    assert Flow(t) == Flow(s);
  }

  lemma HistoryWritten(s: Link, op: Op, data: bytes)
    requires HistoryOk(s) && Enabled(s, Complete(op, Ok(data)))
    requires op.gen == s.generation && op.Write? && s.isOpen
    ensures RecordsOk(DoComplete(s, op, Ok(data)).0)
  {
    hide RecordsOk;
    assert op == Write(s.generation, op.buffer);
    RecordsWritten(s, DoComplete(s, op, Ok(data)).0, s.tx[0]);
  }

  lemma HistoryConnected(s: Link, op: Op, data: bytes)
    requires HistoryOk(s) && op in s.pending && op.gen == s.generation && op.Connect?
    requires LifecycleOk(DoComplete(s, op, Ok(data)).0)
    ensures HistoryOk(DoComplete(s, op, Ok(data)).0)
  {
    hide RecordsOk;
    ConnectIsAlone(s, op);
    HistoryOpen(s, DoComplete(s, op, Ok(data)).0);
  }

  lemma HistoryFailed(s: Link, op: Op, reason: string)
    requires HistoryOk(s) && op in s.pending && op.gen == s.generation
    requires LifecycleOk(DoComplete(s, op, Failed(reason)).0)
    ensures HistoryOk(DoComplete(s, op, Failed(reason)).0)
  {
    hide HistoryOk, LifecycleOk;
    HistoryClose(s, DoComplete(s, op, Failed(reason)).0);
  }

  lemma HistoryComplete(s: Link, op: Op, outcome: Outcome)
    requires HistoryOk(s) && Enabled(s, Complete(op, outcome))
    ensures HistoryOk(DoComplete(s, op, outcome).0)
  {
    hide RecordsOk, ReadsOk, ConnectsOk, WritesOk;
    var t := DoComplete(s, op, outcome).0;
    LifecycleComplete(s, op, outcome);
    if op.gen != s.generation {
      HistoryUntouched(s, t);
    } else if outcome.Failed? {
      HistoryFailed(s, op, outcome.reason);
    } else if op.Connect? {
      HistoryConnected(s, op, outcome.data);
    } else if op.Write? && s.isOpen {
      HistoryWritten(s, op, outcome.data);
    } else {
      HistoryUntouched(s, t);
    }
  }

  lemma HistoryStart(s: Link, answer: OpenResult)
    requires HistoryOk(s)
    ensures HistoryOk(DoStart(s, answer).0)
  {
    var t := DoStart(s, answer).0;
    LifecycleStart(s, answer);
    if t.isOpen && !s.isOpen {
      HistoryOpen(s, t);
    } else {
      HistoryUntouched(s, t);
    }
  }

  lemma HistoryRunPosted(s: Link)
    requires HistoryOk(s) && s.posted != []
    ensures HistoryOk(DoRunPosted(s))
  {
    hide Ledger, SessionsOk, CurrentOk, LifecycleOk;
    LifecycleRunPosted(s);
    if s.isOpen { RecordsAccept(s, DoRunPosted(s), s.posted[0]); } else { HistorySkip(s); }
  }

  lemma HistoryStop(s: Link)
    requires HistoryOk(s)
    ensures HistoryOk(DoStop(s).0)
  {
    LifecycleStop(s);
    HistoryClose(s, DoStop(s).0);
  }

  lemma HistoryTransfer(s: Link, n: nat)
    requires HistoryOk(s) && Enabled(s, Transfer(n))
    ensures HistoryOk(DoTransfer(s, n))
  {
    RecordsTransfer(s, n);
  }

  lemma HistoryStep(s: Link, e: Event)
    requires HistoryOk(s) && Enabled(s, e)
    ensures HistoryOk(Step(s, e).0)
  {
    hide HistoryOk, DoStart, DoStop, DoWriteBytes, DoRunPosted, DoTransfer, DoComplete;
    match e {
      case Start(answer) => HistoryStart(s, answer);
      case Stop => HistoryStop(s);
      case WriteBytes(data) => HistoryWriteBytes(s, data);
      case RunPosted => HistoryRunPosted(s);
      case Transfer(n) => HistoryTransfer(s, n);
      case Complete(op, outcome) => HistoryComplete(s, op, outcome);
    }
  }

  lemma {:induction false} HistoryAlways(s: Link, es: seq<Event>)
    requires HistoryOk(s) && CanRun(s, es)
    ensures HistoryOk(Run(s, es).0)
    decreases |es|
  {
    if es != [] {
      HistoryStep(s, es[0]);
      HistoryAlways(Step(s, es[0]).0, es[1..]);
    }
  }

  lemma InitialOk(endpoint: Endpoint)
    ensures HistoryOk(Initial(endpoint))
  {
    assert Flow(Initial(endpoint)) == [];
  }
}
