/** Whole-run properties of the device link. */
module LinkProtocol {
  import opened Bytes
  import opened SpacePacket
  import opened LinkModel
  import opened LinkHistory

  // Every run of a link keeps the lifecycle and the records of what was written.
  lemma InvariantOfEveryRun(endpoint: Endpoint, es: seq<Event>)
    requires CanRun(Initial(endpoint), es)
    ensures HistoryOk(Run(Initial(endpoint), es).0)
  {
    InitialOk(endpoint);
    HistoryAlways(Initial(endpoint), es);
  }

  /* Conservation */

  lemma IdsSnoc(front: seq<Buffer>, last: Buffer)
    requires Rising(front + [last])
    ensures Ids(front + [last]) == Ids(front) + {last.id}
    ensures Rising(front) && last.id !in Ids(front)
  {
    IdsAppend(front, [last]);
    assert last in [last] && Ids([last]) == {last.id};
    var all := front + [last];
    assert forall i :: 0 <= i < |front| ==> front[i] == all[i] && all[i].id < all[|front|].id;
  }

  lemma {:induction false} RisingIdsCount(buffers: seq<Buffer>)
    requires Rising(buffers)
    ensures |Ids(buffers)| == |buffers|
  {
    if buffers != [] {
      var front, last := buffers[..|buffers| - 1], buffers[|buffers| - 1];
      assert buffers == front + [last];
      IdsSnoc(front, last);
      RisingIdsCount(front);
    }
  }

  lemma {:induction false} InitialSegmentCount(n: nat, xs: set<nat>)
    requires forall i :: i in xs <==> 0 <= i < n
    ensures |xs| == n
  {
    if n != 0 {
      InitialSegmentCount(n - 1, xs - {n - 1});
    } else {
      assert xs == {};
    }
  }

  lemma LedgerCount(flow: seq<Buffer>, lost: set<nat>, calls: seq<bytes>)
    requires Ledger(flow, lost, calls)
    ensures |calls| == |flow| + |lost|
  {
    RisingIdsCount(flow);
    InitialSegmentCount(|calls|, Ids(flow) + lost);
  }

  // Calls == completed + queued + still posted + dropped, and the completed ones are the calls
  // at strictly increasing positions.
  lemma EveryCallAccounted(s: Link)
    requires Ledger(Flow(s), s.dropped, s.calls)
    ensures |s.calls| == |Done(s)| + |s.tx| + |s.posted| + |s.dropped|
    ensures Rising(Done(s)) && Faithful(Done(s), s.calls)
  {
    var done := Done(s);
    LedgerCount(Flow(s), s.dropped, s.calls);
    assert Flow(s) == [] + done + (s.tx + s.posted);
    RisingPart([], done, s.tx + s.posted, s.calls);
  }

  /* Stale completions */

  predicate IsStale(s: Link, e: Event) {
    e.Complete? && e.op.gen != s.generation
  }

  // The same events without the completions that arrive after their generation has passed.
  function Prune(s: Link, es: seq<Event>): seq<Event>
    requires CanRun(s, es)
    decreases |es|
  {
    if es == [] then []
    else
      var later := Prune(Step(s, es[0]).0, es[1..]);
      if IsStale(s, es[0]) then later else [es[0]] + later
  }

  // Equal up to operations that `t` still has outstanding and `s` has not.
  ghost predicate Twins(s: Link, t: Link) {
    t == s.(pending := t.pending) && s.pending <= t.pending
  }

  lemma TwinFail(s: Link, t: Link, op: Op, reason: string)
    requires Twins(s, t) && op in s.pending && op.gen == s.generation
    ensures Twins(DoComplete(s, op, Failed(reason)).0, DoComplete(t, op, Failed(reason)).0)
    ensures DoComplete(s, op, Failed(reason)).1 == DoComplete(t, op, Failed(reason)).1
  {
  }

  lemma TwinWritten(s: Link, t: Link, op: Op, data: bytes)
    requires Twins(s, t) && op in s.pending && op.gen == s.generation && op.Write?
    ensures Twins(DoComplete(s, op, Ok(data)).0, DoComplete(t, op, Ok(data)).0)
    ensures DoComplete(s, op, Ok(data)).1 == DoComplete(t, op, Ok(data)).1
  {
    var s1, t1 := s.(pending := s.pending - multiset{op}), t.(pending := t.pending - multiset{op});
    if s.tx != [] {
      var c := s.current.(completed := s.current.completed + 1);
      TwinStartWrite(s1.(tx := s.tx[1..], sent := 0, current := c), t1.(tx := s.tx[1..], sent := 0, current := c));
    }
  }

  lemma TwinComplete(s: Link, t: Link, op: Op, outcome: Outcome)
    requires Twins(s, t) && op in s.pending && op.gen == s.generation
    ensures Twins(DoComplete(s, op, outcome).0, DoComplete(t, op, outcome).0)
    ensures DoComplete(s, op, outcome).1 == DoComplete(t, op, outcome).1
  {
    match outcome {
      case Failed(reason) => TwinFail(s, t, op, reason);
      case Ok(data) => if op.Write? { TwinWritten(s, t, op, data); }
    }
  }

  lemma TwinStartWrite(s: Link, t: Link)
    requires Twins(s, t)
    ensures Twins(StartWrite(s), StartWrite(t))
  {
  }

  lemma TwinRunPosted(s: Link, t: Link)
    requires Twins(s, t) && s.posted != []
    ensures Twins(DoRunPosted(s), DoRunPosted(t))
  {
  }

  lemma TwinStart(s: Link, t: Link, answer: OpenResult)
    requires Twins(s, t)
    ensures Twins(DoStart(s, answer).0, DoStart(t, answer).0) && DoStart(s, answer).1 == DoStart(t, answer).1
  {
  }

  lemma TwinEnabled(s: Link, t: Link, e: Event)
    requires Twins(s, t) && Enabled(s, e)
    ensures Enabled(t, e)
  {
  }

  lemma TwinStep(s: Link, t: Link, e: Event)
    requires Twins(s, t) && Enabled(s, e) && !IsStale(s, e)
    ensures Enabled(t, e)
    ensures Twins(Step(s, e).0, Step(t, e).0) && Step(s, e).1 == Step(t, e).1
  {
    TwinEnabled(s, t, e);
    hide DoComplete, DoRunPosted, DoStart;
    match e {
      case Start(answer) => TwinStart(s, t, answer);
      case Complete(op, outcome) => TwinComplete(s, t, op, outcome);
      case RunPosted => TwinRunPosted(s, t);
      case _ =>
    }
  }

  // Delivering a stale completion changes nothing but the set of outstanding operations, so every
  // run shows exactly what the run without those completions shows.
  lemma {:induction false} StaleCompletionsAreInvisible(s: Link, t: Link, es: seq<Event>)
    requires CanRun(s, es) && Twins(s, t)
    ensures CanRun(t, Prune(s, es))
    ensures Run(s, es).1 == Run(t, Prune(s, es)).1
    ensures Twins(Run(s, es).0, Run(t, Prune(s, es)).0)
    decreases |es|
  {
    if es != [] {
      var s1 := Step(s, es[0]).0;
      if IsStale(s, es[0]) {
        assert Step(s, es[0]).1 == [];
        StaleCompletionsAreInvisible(s1, t, es[1..]);
      } else {
        TwinStep(s, t, es[0]);
        StaleCompletionsAreInvisible(s1, Step(t, es[0]).0, es[1..]);
        var later := Prune(s1, es[1..]);
        assert Prune(s, es) == [es[0]] + later && ([es[0]] + later)[1..] == later;
      }
    }
  }

  /* Silence after closing */

  // Nobody asks for the link to be opened or closed.
  ghost predicate NoCommands(es: seq<Event>) {
    forall e :: e in es ==> !e.Start? && !e.Stop?
  }

  ghost predicate IsClosed(s: Link) {
    !s.isOpen && !s.connecting
  }

  lemma {:induction false} QuietRun(s: Link, es: seq<Event>)
    requires HistoryOk(s) && IsClosed(s) && Unused(s.pending, s.generation)
    requires CanRun(s, es) && NoCommands(es)
    ensures Run(s, es).1 == [] && IsClosed(Run(s, es).0)
    decreases |es|
  {
    if es != [] {
      assert es[0] in es;
      HistoryStep(s, es[0]);
      var s1 := Step(s, es[0]).0;
      assert forall op :: op in s1.pending ==> op in s.pending;
      QuietRun(s1, es[1..]);
    }
  }

  // DISCONNECT silences the link for good: nothing is reported until the next start.
  lemma StopSilences(s: Link, es: seq<Event>)
    requires HistoryOk(s) && CanRun(DoStop(s).0, es) && NoCommands(es)
    ensures Run(DoStop(s).0, es).1 == [] && !Run(DoStop(s).0, es).0.isOpen
  {
    HistoryStep(s, Stop);
    QuietRun(DoStop(s).0, es);
  }

  // An I/O error need not silence it, because the generation stays. A closed link is silent in
  // every continuation exactly when no operation of its generation is left over.
  lemma SilentIff(s: Link)
    requires HistoryOk(s) && IsClosed(s)
    ensures (forall es :: CanRun(s, es) && NoCommands(es) ==> Run(s, es).1 == [])
            <==> Unused(s.pending, s.generation)
  {
    if Unused(s.pending, s.generation) {
      forall es | CanRun(s, es) && NoCommands(es) ensures Run(s, es).1 == [] {
        QuietRun(s, es);
      }
    } else {
      var op :| op in s.pending && op.gen >= s.generation;
      LeftoverSpeaks(s, op);
    }
  }

  lemma LeftoverSpeaks(s: Link, op: Op)
    requires HistoryOk(s) && op in s.pending && op.gen >= s.generation
    ensures exists es :: CanRun(s, es) && NoCommands(es) && Run(s, es).1 != []
  {
    var e := Complete(op, Failed(""));
    assert Enabled(s, e);
    var s1 := Step(s, e).0;
    var es := [e];
    assert es[1..] == [] && CanRun(s1, []);
    assert CanRun(s, es) && NoCommands(es);
    assert Run(s1, []) == (s1, []);
    assert Run(s, es).1 == Step(s, e).1 + [];
    assert Step(s, e).1 != [];
  }

  // What a failed operation leaves outstanding of its generation.
  lemma LeftAfterFailure(s: Link, op: Op)
    requires LifecycleOk(s) && (s.isOpen || s.connecting) && op in s.pending && op.gen == s.generation
    ensures Unused(s.pending - multiset{op}, s.generation) <==> s.connecting || (op.Read? && s.tx == [])
  {
    if s.connecting {
      ConnectingIsAlone(s, op);
    } else if op.Write? {
      assert Read(s.generation) in s.pending - multiset{op};
    } else if s.tx != [] {
      assert Write(s.generation, s.tx[0]) in s.pending - multiset{op};
    } else {
      OnlyTheRead(s, op);
    }
  }

  lemma ConnectingIsAlone(s: Link, op: Op)
    requires LifecycleOk(s) && s.connecting && op in s.pending && op.gen == s.generation
    ensures Unused(s.pending - multiset{op}, s.generation)
  {
    ConnectIsAlone(s, op);
  }

  lemma OnlyTheRead(s: Link, op: Op)
    requires LifecycleOk(s) && s.isOpen && s.tx == [] && op in s.pending && op.gen == s.generation
    ensures Unused(s.pending - multiset{op}, s.generation)
  {
    forall other | other in s.pending && other.gen == s.generation ensures other == Read(s.generation) {
      assert !other.Write?;
    }
    var rest := s.pending - multiset{op};
    assert forall other :: other in rest ==> other in s.pending;
    assert op == Read(s.generation) && op !in rest;
  }

  lemma AfterFailure(s: Link, op: Op, reason: string)
    requires HistoryOk(s) && op in s.pending && op.gen == s.generation
    ensures var t := DoComplete(s, op, Failed(reason)).0;
      HistoryOk(t) && IsClosed(t) && t.generation == s.generation && t.pending == s.pending - multiset{op}
  {
    HistoryStep(s, Complete(op, Failed(reason)));
    hide HistoryOk;
  }

  // A failure silences the link, whatever happens until somebody starts or stops it, if and only if it
  // ends a connection attempt or a read with nothing queued.
  lemma FailureSilencesIff(s: Link, op: Op, reason: string)
    requires HistoryOk(s) && (s.isOpen || s.connecting) && op in s.pending && op.gen == s.generation
    ensures var t := DoComplete(s, op, Failed(reason)).0;
      (forall es :: CanRun(t, es) && NoCommands(es) ==> Run(t, es).1 == [])
      <==> s.connecting || (op.Read? && s.tx == [])
  {
    LeftAfterFailure(s, op);
    hide HistoryOk, DoComplete, Unused, IsClosed, Run, CanRun, NoCommands;
    AfterFailure(s, op, reason);
    SilentIff(DoComplete(s, op, Failed(reason)).0);
  }

  lemma {:induction false} DeafRun(s: Link, es: seq<Event>, data: bytes)
    requires HistoryOk(s) && IsClosed(s) && Read(s.generation) !in s.pending
    requires CanRun(s, es) && NoCommands(es)
    ensures Received(data) !in Run(s, es).1
    decreases |es|
  {
    if es != [] {
      assert es[0] in es;
      HistoryStep(s, es[0]);
      DeafStep(s, es[0]);
      DeafRun(Step(s, es[0]).0, es[1..], data);
    }
  }

  lemma DeafStep(s: Link, e: Event)
    requires LifecycleOk(s) && IsClosed(s) && Read(s.generation) !in s.pending
    requires Enabled(s, e) && !e.Start? && !e.Stop?
    ensures var (t, ups) := Step(s, e);
      IsClosed(t) && t.generation == s.generation && Read(t.generation) !in t.pending && forall data :: Received(data) !in ups
  {
    if e.Complete? && e.op.gen == s.generation {
      assert !e.op.Resolve? && !e.op.Connect? by {
        assert s.pending[Resolve(s.generation)] == 0 && s.pending[Connect(s.generation)] == 0;
      }
    }
  }

  // After a failure on an open link octets, any octets, can still be handed up, although it is closed, if
  // and only if what failed was a write.
  lemma OctetsAfterFailureIff(s: Link, op: Op, reason: string, data: bytes)
    requires HistoryOk(s) && s.isOpen && op in s.pending && op.gen == s.generation && data != []
    ensures var t := DoComplete(s, op, Failed(reason)).0;
      (exists es :: CanRun(t, es) && NoCommands(es) && Received(data) in Run(t, es).1) <==> op.Write?
  {
    var t := DoComplete(s, op, Failed(reason)).0;
    ReadOrWrite(s, op);
    hide HistoryOk, DoComplete, IsClosed, Run, CanRun, NoCommands;
    AfterFailure(s, op, reason);
    if op.Write? {
      LeftoverReadSpeaks(t, data);
    } else {
      forall es | CanRun(t, es) && NoCommands(es) ensures Received(data) !in Run(t, es).1 {
        DeafRun(t, es, data);
      }
    }
  }

  lemma ReadOrWrite(s: Link, op: Op)
    requires LifecycleOk(s) && s.isOpen && op in s.pending && op.gen == s.generation
    ensures s.pending[Read(s.generation)] == 1 && (op.Write? || op == Read(s.generation))
  {
    assert s.pending[Resolve(s.generation)] == 0 && s.pending[Connect(s.generation)] == 0;
  }

  lemma LeftoverReadSpeaks(t: Link, data: bytes)
    requires Read(t.generation) in t.pending && data != []
    ensures exists es :: CanRun(t, es) && NoCommands(es) && Received(data) in Run(t, es).1
  {
    var e := Complete(Read(t.generation), Ok(data));
    RunCons(t, e, []);
    var es := [e] + [];
    assert Run(t, es).1[0] == Received(data);
    assert CanRun(t, es) && NoCommands(es) && Received(data) in Run(t, es).1;
  }

  lemma RunCons(s: Link, e: Event, es: seq<Event>)
    requires Enabled(s, e) && CanRun(Step(s, e).0, es)
    ensures CanRun(s, [e] + es)
    ensures Run(s, [e] + es) == (Run(Step(s, e).0, es).0, Step(s, e).1 + Run(Step(s, e).0, es).1)
  {
    assert ([e] + es)[1..] == es;
  }

  /* What stays in line for the device */

  // The buffers of the current session and the posted ones, in order.
  function Lineup(s: Link): seq<Buffer> {
    s.current.accepted + s.posted
  }

  function Payloads(buffers: seq<Buffer>): (r: seq<bytes>)
    ensures |r| == |buffers| && forall i :: 0 <= i < |r| ==> r[i] == buffers[i].data
  {
    seq(|buffers|, i requires 0 <= i < |buffers| => buffers[i].data)
  }

  // An event that cannot end the session of an open link: no stop, and no failure of its generation.
  predicate IsCalm(s: Link, e: Event) {
    !e.Stop? && !(e.Complete? && e.outcome.Failed? && e.op.gen == s.generation)
  }

  predicate AllCalm(s: Link, es: seq<Event>)
    requires CanRun(s, es)
    decreases |es|
  {
    es == [] || (IsCalm(s, es[0]) && AllCalm(Step(s, es[0]).0, es[1..]))
  }

  function Issued(s: Link, e: Event): seq<Buffer> {
    if e.WriteBytes? && e.data != [] then [Buffer(|s.calls|, e.data)] else []
  }

  // The buffers of the calls from the n-th on.
  function Later(calls: seq<bytes>, n: nat): seq<Buffer>
    requires n <= |calls|
  {
    seq(|calls| - n, i requires 0 <= i < |calls| - n => Buffer(n + i, calls[n + i]))
  }

  lemma CalmComplete(s: Link, op: Op, outcome: Outcome)
    requires LifecycleOk(s) && s.isOpen && op in s.pending && IsCalm(s, Complete(op, outcome))
    ensures var t := DoComplete(s, op, outcome).0;
      t.isOpen && t.current.accepted == s.current.accepted && t.posted == s.posted && t.calls == s.calls && t.past == s.past
      && t.generation == s.generation
  {
    if op.gen == s.generation && (op.Resolve? || op.Connect?) {
      ConnectIsAlone(s, op);
    }
  }

  lemma CalmStep(s: Link, e: Event)
    requires LifecycleOk(s) && s.isOpen && Enabled(s, e) && IsCalm(s, e)
    ensures var t := Step(s, e).0;
      && t.isOpen && t.past == s.past && t.generation == s.generation
      && Lineup(t) == Lineup(s) + Issued(s, e) && t.calls == s.calls + Payloads(Issued(s, e))
  {
    assert Lineup(s) + [] == Lineup(s) && s.calls + Payloads([]) == s.calls;
    hide LifecycleOk, DoComplete, DoStop, DoRunPosted;
    match e {
      case RunPosted => CalmRunPosted(s);
      case WriteBytes(data) => CalmWriteBytes(s, data);
      case Complete(op, outcome) => CalmComplete(s, op, outcome);
      case _ =>
    }
  }

  lemma CalmRunPosted(s: Link)
    requires s.isOpen && s.posted != []
    ensures var t := DoRunPosted(s);
      t.isOpen && t.past == s.past && t.generation == s.generation && Lineup(t) == Lineup(s) && t.calls == s.calls
  {
    assert s.posted == [s.posted[0]] + s.posted[1..];
  }

  lemma CalmWriteBytes(s: Link, data: bytes)
    ensures var t, issued := DoWriteBytes(s, data), Issued(s, WriteBytes(data));
      && t == s.(calls := t.calls, posted := t.posted)
      && Lineup(t) == Lineup(s) + issued && t.calls == s.calls + Payloads(issued)
  {
  }

  lemma LaterSplit(calls: seq<bytes>, issued: seq<Buffer>, all: seq<bytes>)
    requires calls + Payloads(issued) <= all
    requires |issued| <= 1 && forall b :: b in issued ==> b.id == |calls|
    ensures Later(all, |calls|) == issued + Later(all, |calls| + |issued|)
  {
    if issued != [] {
      assert issued[0] in issued && all[|calls|] == Payloads(issued)[0];
    }
  }

  // While the link stays in its session nothing leaves the line, and every call joins it.
  lemma {:induction false} CalmRun(s: Link, es: seq<Event>)
    requires LifecycleOk(s) && s.isOpen && CanRun(s, es) && AllCalm(s, es)
    ensures var t := Run(s, es).0;
      && t.isOpen && t.past == s.past && s.calls <= t.calls
      && Lineup(t) == Lineup(s) + Later(t.calls, |s.calls|)
    decreases |es|
  {
    if es != [] {
      var e := es[0];
      var s1 := Step(s, e).0;
      LifecycleStep(s, e);
      CalmStep(s, e);
      hide LifecycleOk, Step, Enabled, Lineup, IsCalm;
      CalmRun(s1, es[1..]);
      LaterSplit(s.calls, Issued(s, e), Run(s1, es[1..]).0.calls);
      Regrouped(Lineup(s), Issued(s, e), Later(Run(s1, es[1..]).0.calls, |s1.calls|));
    }
  }

  // A session gets exactly what is posted when it opens, and what is handed over later, in order.
  lemma SessionGetsWhatIsPosted(s: Link, e: Event, es: seq<Event>)
    requires LifecycleOk(s) && !s.isOpen && Enabled(s, e) && Step(s, e).0.isOpen
    requires CanRun(Step(s, e).0, es) && AllCalm(Step(s, e).0, es)
    ensures var t := Run(Step(s, e).0, es).0;
      s.calls <= t.calls && t.isOpen && Lineup(t) == s.posted + Later(t.calls, |s.calls|)
  {
    LifecycleStep(s, e);
    OpensFresh(s, e);
    hide LifecycleOk, Step, Enabled, Lineup;
    CalmRun(Step(s, e).0, es);
  }

  lemma OpensFresh(s: Link, e: Event)
    requires !s.isOpen && Enabled(s, e) && Step(s, e).0.isOpen
    ensures Lineup(Step(s, e).0) == s.posted && Step(s, e).0.calls == s.calls
  {
    assert [] + s.posted == s.posted;
  }

  lemma {:induction false} DroppedGrows(s: Link, es: seq<Event>)
    requires CanRun(s, es)
    ensures s.dropped <= Run(s, es).0.dropped
    decreases |es|
  {
    if es != [] {
      DroppedGrows(Step(s, es[0]).0, es[1..]);
    }
  }

  lemma PostedAreCalls(s: Link)
    requires HistoryOk(s)
    ensures forall b :: b in s.posted ==> b.id < |s.calls|
  {
    assert forall b :: b in s.posted ==> b in Flow(s);
  }

  function Cycled(s: Link): Link {
    DoStart(DoStop(s).0, Opened).0
  }

  // A serial link is stopped and started again. The payloads of the old session that the new one gets are
  // exactly those whose write was still posted at the stop, and none if and only if there were none; what
  // was queued is lost. So what decides is not whether the device was open when a payload was handed over.
  lemma PostedWriteCrossesReconnect(s: Link, es: seq<Event>)
    requires HistoryOk(s) && s.isOpen && s.endpoint.Serial? && s.endpoint.path != ""
    requires CanRun(Cycled(s), es) && AllCalm(Cycled(s), es)
    ensures var t := Run(Cycled(s), es).0;
      && s.calls <= t.calls && Lineup(t) == s.posted + Later(t.calls, |s.calls|)
      && (forall b: Buffer :: b.id < |s.calls| ==> (b in Lineup(t) <==> b in s.posted))
      && ((forall b :: b in Lineup(t) ==> b.id >= |s.calls|) <==> s.posted == [])
      && Ids(s.tx) <= t.dropped
  {
    LifecycleStop(s);
    assert Step(DoStop(s).0, Start(Opened)).0 == Cycled(s);
    SessionGetsWhatIsPosted(DoStop(s).0, Start(Opened), es);
    DroppedGrows(Cycled(s), es);
    PostedAreCalls(s);
    var t := Run(Cycled(s), es).0;
    hide Run, CanRun, AllCalm, HistoryOk, Lineup;
    assert forall b :: b in Lineup(t) ==> b in s.posted || b in Later(t.calls, |s.calls|);
    if s.posted != [] {
      assert s.posted[0] in Lineup(t);
    }
  }
}
