/** The simulator: the I/O thread, the dispatch task and the transmit task, joined by two ring
    queues and interleaved one memory access at a time. */
module Pipeline {
  import opened Bytes
  import opened Ring
  import opened Dispatch

  // Where the dispatch task is in answering a telecommand.
  datatype Stage = AtAcceptance | AtStart | AtReport | AtCompletion | AtEnd

  datatype Task =
    | Waiting                                              // in pop_blocking
    | Busy(tc: Telecommand, stage: Stage)
    | Pushing(tc: Telecommand, stage: Stage, tm: bytes)    // in push_blocking; `stage` comes next

  // `inbox` holds the telecommands the I/O thread has still to push.
  datatype Pipe = Pipe(inbox: seq<Telecommand>, tcs: Ring<Telecommand>, task: Task, tmSeq: word, tms: Ring<bytes>)

  datatype Move =
    | Io(tcAct: Act<Telecommand>)
    | DispatchPop(tcAct: Act<Telecommand>)
    | Build
    | DispatchPush(tmAct: Act<bytes>)
    | Transmit(tmAct: Act<bytes>)

  predicate IsPush<T>(a: Act<T>) {
    a.LoadHead? || a.SeeTail? || a.WriteSlot? || a.PublishHead?
  }

  function ReplyAt(tc: Telecommand, stage: Stage): Option<Reply> {
    match stage
    case AtAcceptance => if WantsAcceptance(tc) then Some(Acceptance) else None
    case AtStart => if WantsStart(tc) then Some(Started) else None
    case AtReport => Some(Report)
    case AtCompletion => if WantsCompletion(tc) then Some(Completion) else None
    case AtEnd => None
  }

  function Following(tc: Telecommand, stage: Stage): Stage {
    match stage
    case AtAcceptance => if Supported(tc) then AtStart else AtEnd
    case AtStart => AtReport
    case AtReport => AtCompletion
    case AtCompletion => AtEnd
    case AtEnd => AtEnd
  }

  predicate CanMove(p: Pipe, m: Move) {
    match m
    case Io(a) => IsPush(a) && Can(p.tcs, a) && (a.LoadHead? ==> p.inbox != [] && a.item == p.inbox[0])
    case DispatchPop(a) => !IsPush(a) && Can(p.tcs, a) && p.task.Waiting?
    case Build => p.task.Busy?
    case DispatchPush(a) => IsPush(a) && Can(p.tms, a) && p.task.Pushing? && (a.LoadHead? ==> a.item == p.task.tm)
    case Transmit(a) => !IsPush(a) && Can(p.tms, a)
  }

  // A reply that cannot be built is skipped.
  function Replied(sim: Simulator, tc: Telecommand, r: Reply, next: Stage, tmSeq: word): Task {
    var tm := sim.build(AttemptFor(sim, tc, r, tmSeq));
    if tm == [] then Busy(tc, next) else Pushing(tc, next, tm)
  }

  // One test-and-build of the task's loop body.
  function DoBuild(sim: Simulator, p: Pipe): Pipe
    requires p.task.Busy?
  {
    var tc, next := p.task.tc, Following(p.task.tc, p.task.stage);
    if p.task.stage.AtEnd? then p.(task := Waiting, tmSeq := p.tmSeq % SEQUENCE_MODULUS)
    else
      match ReplyAt(tc, p.task.stage)
      case None => p.(task := Busy(tc, next))
      case Some(r) => p.(tmSeq := (p.tmSeq + 1) % 0x1_0000, task := Replied(sim, tc, r, next, p.tmSeq))
  }

  function Make(sim: Simulator, p: Pipe, m: Move): Pipe
    requires |p.tcs.buf| > 0 && |p.tms.buf| > 0 && CanMove(p, m)
  {
    match m
    case Io(a) =>
      p.(tcs := Do(p.tcs, a), inbox := if a.PublishHead? && p.inbox != [] then p.inbox[1..] else p.inbox)
    case DispatchPop(a) =>
      p.(tcs := Do(p.tcs, a), task := if a.PublishTail? then Busy(p.tcs.consumer.item, AtAcceptance) else p.task)
    case Build => DoBuild(sim, p)
    case DispatchPush(a) =>
      p.(tms := Do(p.tms, a), task := if a.PublishHead? then Busy(p.task.tc, p.task.stage) else p.task)
    case Transmit(a) => p.(tms := Do(p.tms, a))
  }

  // Every telecommand of the run, in arrival order.
  function All(p: Pipe): seq<Telecommand> {
    p.tcs.pushed + p.inbox
  }

  function PlanAt(tc: Telecommand, stage: Stage): seq<Reply> {
    match stage
    case AtAcceptance => Plan(tc)
    case AtStart => PlanStart(tc)
    case AtReport => PlanReport(tc)
    case AtCompletion => PlanCompletion(tc)
    case AtEnd => []
  }

  // Telemetry the current telecommand will still bring.
  function Coming(sim: Simulator, task: Task, tmSeq: word): seq<bytes> {
    match task
    case Waiting => []
    case Busy(tc, stage) => Todo(sim, tc, PlanAt(tc, stage), tmSeq)
    case Pushing(tc, stage, tm) => [tm] + Todo(sim, tc, PlanAt(tc, stage), tmSeq)
  }

  // The counter is where the replies made so far leave it.
  ghost predicate SequenceOk(task: Task, tmSeq: word, popped: seq<Telecommand>) {
    match task
    case Waiting => tmSeq == SequenceAfterAll(popped, FIRST_SEQUENCE) && tmSeq < SEQUENCE_MODULUS
    case _ =>
      var n := |popped|;
      && n > 0 && task.tc == popped[n - 1]
      && SequenceAfterAll(popped[..n - 1], FIRST_SEQUENCE) < SEQUENCE_MODULUS
      && tmSeq + |PlanAt(task.tc, task.stage)| == SequenceAfterAll(popped[..n - 1], FIRST_SEQUENCE) + |Plan(task.tc)|
  }

  // What was queued and what is coming answers the telecommands taken.
  ghost predicate TaskOk(sim: Simulator, task: Task, tmSeq: word, popped: seq<Telecommand>, queued: seq<bytes>) {
    && SequenceOk(task, tmSeq, popped)
    && queued + Coming(sim, task, tmSeq) == AnswersToAll(sim, popped, FIRST_SEQUENCE)
  }

  // Each thread's position in its queue operation fits what it is doing.
  ghost predicate ThreadsOk(p: Pipe) {
    && (!p.tcs.producer.NotPushing? ==> p.inbox != [] && p.tcs.producer.item == p.inbox[0])
    && (!p.tcs.consumer.NotPopping? ==> p.task.Waiting?)
    && (!p.tms.producer.NotPushing? ==> p.task.Pushing? && p.tms.producer.item == p.task.tm)
  }

  ghost predicate PipeOk(sim: Simulator, p: Pipe) {
    && RingOk(p.tcs) && RingOk(p.tms) && ThreadsOk(p)
    && TaskOk(sim, p.task, p.tmSeq, p.tcs.popped, p.tms.pushed)
  }

  function Begin(arrivals: seq<Telecommand>, tcBuf: seq<Telecommand>, tmBuf: seq<bytes>): Pipe {
    Pipe(arrivals, Empty(tcBuf), Waiting, FIRST_SEQUENCE, Empty(tmBuf))
  }

  lemma BeginOk(sim: Simulator, arrivals: seq<Telecommand>, tcBuf: seq<Telecommand>, tmBuf: seq<bytes>)
    requires |tcBuf| >= 2 && |tmBuf| >= 2
    ensures PipeOk(sim, Begin(arrivals, tcBuf, tmBuf)) && All(Begin(arrivals, tcBuf, tmBuf)) == arrivals
  {
    EmptyOk(tcBuf);
    EmptyOk(tmBuf);
  }

  lemma IoOk(sim: Simulator, p: Pipe, a: Act<Telecommand>)
    requires PipeOk(sim, p) && CanMove(p, Io(a))
    ensures PipeOk(sim, Make(sim, p, Io(a))) && All(Make(sim, p, Io(a))) == All(p)
  {
    hide TaskOk, RingOk;
    DoOk(p.tcs, a);
    if a.PublishHead? {
      assert p.inbox == [p.inbox[0]] + p.inbox[1..];
    }
  }

  // A popped telecommand brings all its answers.
  lemma TaskTakes(sim: Simulator, tmSeq: word, popped: seq<Telecommand>, queued: seq<bytes>, tc: Telecommand)
    requires TaskOk(sim, Waiting, tmSeq, popped, queued)
    ensures TaskOk(sim, Busy(tc, AtAcceptance), tmSeq, popped + [tc], queued)
  {
    hide AnswersToAll, SequenceAfterAll, SequenceAfter, Built, AttemptsFor, Plan;
    AnswersSnoc(sim, popped, tc, FIRST_SEQUENCE);
    assert (popped + [tc])[..|popped|] == popped;
  }

  lemma PopOk(sim: Simulator, p: Pipe, a: Act<Telecommand>)
    requires PipeOk(sim, p) && CanMove(p, DispatchPop(a))
    ensures PipeOk(sim, Make(sim, p, DispatchPop(a))) && All(Make(sim, p, DispatchPop(a))) == All(p)
  {
    DoOk(p.tcs, a);
    if a.PublishTail? {
      TaskTakes(sim, p.tmSeq, p.tcs.popped, p.tms.pushed, p.tcs.consumer.item);
    }
  }

  // Building performs the next reply of the plan, if one is due here.
  lemma PlanStep(tc: Telecommand, stage: Stage)
    requires !stage.AtEnd?
    ensures PlanAt(tc, stage) == match ReplyAt(tc, stage)
      case None => PlanAt(tc, Following(tc, stage))
      case Some(r) => [r] + PlanAt(tc, Following(tc, stage))
  {
    if stage.AtCompletion? && WantsCompletion(tc) {
      assert [Completion] + [] == [Completion];
    }
  }

  lemma TaskEnds(sim: Simulator, tc: Telecommand, tmSeq: word, popped: seq<Telecommand>, queued: seq<bytes>)
    requires TaskOk(sim, Busy(tc, AtEnd), tmSeq, popped, queued)
    ensures TaskOk(sim, Waiting, tmSeq % SEQUENCE_MODULUS, popped, queued)
  {
    hide SequenceAfterAll, Built, AttemptsFor, Plan, AnswersToAll;
    var before := popped[..|popped| - 1];
    assert popped == before + [tc];
    NothingToDo(sim, tc, tmSeq);
    assert Answers(sim, tc, SequenceAfterAll(before, FIRST_SEQUENCE)) == Todo(sim, tc, Plan(tc), SequenceAfterAll(before, FIRST_SEQUENCE));
    hide Todo, Answers;
    AnswersSnoc(sim, before, tc, FIRST_SEQUENCE);
  }

  lemma ReplyComes(sim: Simulator, tc: Telecommand, stage: Stage, r: Reply, tmSeq: word)
    requires !stage.AtEnd? && ReplyAt(tc, stage) == Some(r)
    ensures Coming(sim, Replied(sim, tc, r, Following(tc, stage), tmSeq), (tmSeq + 1) % 0x1_0000)
            == Todo(sim, tc, PlanAt(tc, stage), tmSeq)
  {
    var plan := PlanAt(tc, Following(tc, stage));
    PlanStep(tc, stage);
    DoFirst(sim, tc, r, plan, tmSeq, []);
    BuiltOne(sim, AttemptFor(sim, tc, r, tmSeq));
    var rest := Todo(sim, tc, plan, (tmSeq + 1) % 0x1_0000);
    assert [] + Todo(sim, tc, [r] + plan, tmSeq) == Todo(sim, tc, [r] + plan, tmSeq);
    assert [] + rest == rest;
  }

  lemma TaskReplies(sim: Simulator, tc: Telecommand, stage: Stage, r: Reply, tmSeq: word, popped: seq<Telecommand>, queued: seq<bytes>)
    requires TaskOk(sim, Busy(tc, stage), tmSeq, popped, queued) && !stage.AtEnd? && ReplyAt(tc, stage) == Some(r)
    ensures TaskOk(sim, Replied(sim, tc, r, Following(tc, stage), tmSeq), (tmSeq + 1) % 0x1_0000, popped, queued)
  {
    ReplyComes(sim, tc, stage, r, tmSeq);
    SequenceReplies(tc, stage, r, tmSeq, popped, Replied(sim, tc, r, Following(tc, stage), tmSeq));
  }

  lemma SequenceReplies(tc: Telecommand, stage: Stage, r: Reply, tmSeq: word, popped: seq<Telecommand>, after: Task)
    requires SequenceOk(Busy(tc, stage), tmSeq, popped) && !stage.AtEnd? && ReplyAt(tc, stage) == Some(r)
    requires !after.Waiting? && after.tc == tc && after.stage == Following(tc, stage)
    ensures SequenceOk(after, (tmSeq + 1) % 0x1_0000, popped)
  {
    PlanStep(tc, stage);
    assert |PlanAt(tc, stage)| == 1 + |PlanAt(tc, Following(tc, stage))|;
    assert |Plan(tc)| <= 4;
    hide PlanAt, Plan, SequenceAfterAll, Following, ReplyAt;
  }

  lemma TaskQueues(sim: Simulator, tc: Telecommand, stage: Stage, tm: bytes, tmSeq: word, popped: seq<Telecommand>, queued: seq<bytes>)
    requires TaskOk(sim, Pushing(tc, stage, tm), tmSeq, popped, queued)
    ensures TaskOk(sim, Busy(tc, stage), tmSeq, popped, queued + [tm])
  {
    hide Todo, AnswersToAll, SequenceAfterAll, PlanAt, Plan;
    var rest := Todo(sim, tc, PlanAt(tc, stage), tmSeq);
    assert queued + [tm] + rest == queued + ([tm] + rest);
  }

  lemma TaskSkips(sim: Simulator, tc: Telecommand, stage: Stage, tmSeq: word, popped: seq<Telecommand>, queued: seq<bytes>)
    requires TaskOk(sim, Busy(tc, stage), tmSeq, popped, queued) && !stage.AtEnd? && ReplyAt(tc, stage) == None
    ensures TaskOk(sim, Busy(tc, Following(tc, stage)), tmSeq, popped, queued)
  {
    PlanStep(tc, stage);
  }

  // While the task is building, it is in neither queue.
  lemma TaskChanges(sim: Simulator, p: Pipe, task: Task, tmSeq: word)
    requires PipeOk(sim, p) && p.task.Busy? && TaskOk(sim, task, tmSeq, p.tcs.popped, p.tms.pushed)
    ensures PipeOk(sim, p.(task := task, tmSeq := tmSeq))
  {
  }

  lemma BuildKeepsTask(sim: Simulator, tc: Telecommand, stage: Stage, p: Pipe)
    requires p.task == Busy(tc, stage) && TaskOk(sim, Busy(tc, stage), p.tmSeq, p.tcs.popped, p.tms.pushed)
    ensures var t := DoBuild(sim, p);
      t == p.(task := t.task, tmSeq := t.tmSeq) && TaskOk(sim, t.task, t.tmSeq, p.tcs.popped, p.tms.pushed)
  {
    hide TaskOk, Replied, Following;
    if stage.AtEnd? {
      TaskEnds(sim, tc, p.tmSeq, p.tcs.popped, p.tms.pushed);
    } else if ReplyAt(tc, stage).Some? {
      TaskReplies(sim, tc, stage, ReplyAt(tc, stage).value, p.tmSeq, p.tcs.popped, p.tms.pushed);
    } else {
      TaskSkips(sim, tc, stage, p.tmSeq, p.tcs.popped, p.tms.pushed);
    }
  }

  lemma BuildOk(sim: Simulator, p: Pipe)
    requires PipeOk(sim, p) && p.task.Busy?
    ensures PipeOk(sim, DoBuild(sim, p))
  {
    hide TaskOk, RingOk, ThreadsOk, DoBuild;
    BuildKeepsTask(sim, p.task.tc, p.task.stage, p);
    TaskChanges(sim, p, DoBuild(sim, p).task, DoBuild(sim, p).tmSeq);
  }

  lemma BuiltOne(sim: Simulator, a: Attempt)
    ensures Built(sim, [a]) == if sim.build(a) == [] then [] else [sim.build(a)]
  {
    assert [a][1..] == [];
  }

  lemma PushOk(sim: Simulator, p: Pipe, a: Act<bytes>)
    requires PipeOk(sim, p) && CanMove(p, DispatchPush(a))
    ensures PipeOk(sim, Make(sim, p, DispatchPush(a)))
  {
    DoOk(p.tms, a);
    if a.PublishHead? {
      TaskQueues(sim, p.task.tc, p.task.stage, p.task.tm, p.tmSeq, p.tcs.popped, p.tms.pushed);
    }
  }

  lemma TransmitOk(sim: Simulator, p: Pipe, a: Act<bytes>)
    requires PipeOk(sim, p) && CanMove(p, Transmit(a))
    ensures PipeOk(sim, Make(sim, p, Transmit(a)))
  {
    DoOk(p.tms, a);
  }

  lemma MakeOk(sim: Simulator, p: Pipe, m: Move)
    requires PipeOk(sim, p) && CanMove(p, m)
    ensures PipeOk(sim, Make(sim, p, m)) && All(Make(sim, p, m)) == All(p)
  {
    match m {
      case Io(a) => IoOk(sim, p, a);
      case DispatchPop(a) => PopOk(sim, p, a);
      case Build => BuildOk(sim, p);
      case DispatchPush(a) => PushOk(sim, p, a);
      case Transmit(a) => TransmitOk(sim, p, a);
    }
  }

  ghost predicate CanPlay(sim: Simulator, p: Pipe, ms: seq<Move>)
    decreases |ms|
  {
    ms == [] || (|p.tcs.buf| > 0 && |p.tms.buf| > 0 && CanMove(p, ms[0]) && CanPlay(sim, Make(sim, p, ms[0]), ms[1..]))
  }

  ghost function Play(sim: Simulator, p: Pipe, ms: seq<Move>): Pipe
    requires CanPlay(sim, p, ms)
    decreases |ms|
  {
    if ms == [] then p else Play(sim, Make(sim, p, ms[0]), ms[1..])
  }

  lemma {:induction false} PlayOk(sim: Simulator, p: Pipe, ms: seq<Move>)
    requires PipeOk(sim, p) && CanPlay(sim, p, ms)
    ensures PipeOk(sim, Play(sim, p, ms)) && All(Play(sim, p, ms)) == All(p)
    decreases |ms|
  {
    if ms != [] {
      MakeOk(sim, p, ms[0]);
      PlayOk(sim, Make(sim, p, ms[0]), ms[1..]);
    }
  }

  lemma {:induction false} AnswersAppend(sim: Simulator, a: seq<Telecommand>, b: seq<Telecommand>, sequence: word)
    ensures AnswersToAll(sim, a + b, sequence)
            == AnswersToAll(sim, a, sequence) + AnswersToAll(sim, b, SequenceAfterAll(a, sequence))
    decreases |a|
  {
    if a == [] {
      assert a + b == b;
    } else {
      assert (a + b)[1..] == a[1..] + b;
      AnswersAppend(sim, a[1..], b, SequenceAfter(a[0], sequence));
    }
  }

  lemma OutputIsPrefix(sim: Simulator, p: Pipe)
    requires PipeOk(sim, p)
    ensures p.tms.popped <= AnswersToAll(sim, All(p), FIRST_SEQUENCE)
  {
    var done := p.tcs.popped;
    var rest := All(p)[|done|..];
    assert All(p) == done + rest && p.tms.popped <= p.tms.pushed;
    hide RingOk, ThreadsOk, SequenceOk, Coming, AnswersToAll, SequenceAfterAll;
    AnswersAppend(sim, done, rest, FIRST_SEQUENCE);
    assert p.tms.popped <= p.tms.pushed <= p.tms.pushed + Coming(sim, p.task, p.tmSeq);
  }

  // Whatever the interleaving and however stale the loads, the transmit task has popped a prefix of
  // the answers to the telecommands in their order of arrival.
  lemma Deterministic(sim: Simulator, arrivals: seq<Telecommand>, tcBuf: seq<Telecommand>, tmBuf: seq<bytes>, ms: seq<Move>)
    requires |tcBuf| >= 2 && |tmBuf| >= 2 && CanPlay(sim, Begin(arrivals, tcBuf, tmBuf), ms)
    ensures Play(sim, Begin(arrivals, tcBuf, tmBuf), ms).tms.popped <= AnswersToAll(sim, arrivals, FIRST_SEQUENCE)
  {
    var p := Begin(arrivals, tcBuf, tmBuf);
    BeginOk(sim, arrivals, tcBuf, tmBuf);
    PlayOk(sim, p, ms);
    OutputIsPrefix(sim, Play(sim, p, ms));
  }

  // So the output is what could be built of the telemetry the telecommands demand, report by report, with
  // counts that go on from 100.
  lemma OutputIsDemanded(sim: Simulator, arrivals: seq<Telecommand>, tcBuf: seq<Telecommand>, tmBuf: seq<bytes>, ms: seq<Move>)
    requires |tcBuf| >= 2 && |tmBuf| >= 2 && CanPlay(sim, Begin(arrivals, tcBuf, tmBuf), ms)
    ensures exists attempts: seq<Attempt> ::
      && Play(sim, Begin(arrivals, tcBuf, tmBuf), ms).tms.popped <= Built(sim, attempts)
      && |attempts| == |DemandedByAll(sim, arrivals)|
      && forall j :: 0 <= j < |attempts| ==>
           TmOf(attempts[j]) == DemandedByAll(sim, arrivals)[j] && attempts[j].sequence % 0x4000 == (100 + j) % 0x4000
  {
    Deterministic(sim, arrivals, tcBuf, tmBuf, ms);
    hide CanPlay, Play, Begin, Built, AttemptsForAll, DemandedByAll, AnswersToAll, TmOf;
    AnswersAreBuilt(sim, arrivals, FIRST_SEQUENCE);
    RunIsDemanded(sim, arrivals, FIRST_SEQUENCE);
    var attempts := AttemptsForAll(sim, arrivals, FIRST_SEQUENCE);
    forall j | 0 <= j < |attempts| ensures attempts[j].sequence % 0x4000 == (100 + j) % 0x4000 {
      SequenceOfRun(sim, arrivals, FIRST_SEQUENCE, j);
    }
  }

  /* Drain */

  function StageWork(stage: Stage): nat {
    match stage
    case AtAcceptance => 29
    case AtStart => 22
    case AtReport => 15
    case AtCompletion => 8
    case AtEnd => 1
  }

  function TaskWork(t: Task): nat {
    match t
    case Waiting => 0
    case Busy(_, stage) => StageWork(stage)
    case Pushing(_, stage, _) => StageWork(stage) + 6
  }

  function PushProgress<T>(p: Producer<T>): nat {
    match p
    case MayWrite(_, _) => 1
    case Written(_, _) => 2
    case _ => 0
  }

  function PopProgress<T>(c: Consumer<T>): nat {
    match c
    case MayRead(_) => 1
    case Taken(_, _) => 2
    case _ => 0
  }

  // Steps still needed if no try fails.
  ghost function Work(p: Pipe): int {
    35 * |p.inbox| - PushProgress(p.tcs.producer)
    + 32 * (|p.tcs.pushed| - |p.tcs.popped|) - PopProgress(p.tcs.consumer)
    + TaskWork(p.task) - PushProgress(p.tms.producer)
    + 3 * (|p.tms.pushed| - |p.tms.popped|) - PopProgress(p.tms.consumer)
  }

  // The loads that begin a try, and those that end it in failure, are the spinning.
  predicate IsSpin(p: Pipe, m: Move) {
    match m
    case Io(a) => a.LoadHead? || (a.SeeTail? && |p.tcs.buf| > 0 && Can(p.tcs, a) && Do(p.tcs, a).producer.NotPushing?)
    case DispatchPop(a) => a.LoadTail? || (a.SeeHead? && |p.tcs.buf| > 0 && Can(p.tcs, a) && Do(p.tcs, a).consumer.NotPopping?)
    case Build => false
    case DispatchPush(a) => a.LoadHead? || (a.SeeTail? && |p.tms.buf| > 0 && Can(p.tms, a) && Do(p.tms, a).producer.NotPushing?)
    case Transmit(a) => a.LoadTail? || (a.SeeHead? && |p.tms.buf| > 0 && Can(p.tms, a) && Do(p.tms, a).consumer.NotPopping?)
  }

  lemma PushFalls<T>(q: Ring<T>, a: Act<T>)
    requires |q.buf| > 0 && Can(q, a) && IsPush(a)
    ensures var r := Do(q, a);
      && r.popped == q.popped && r.consumer == q.consumer
      && (a.LoadHead? ==> r.pushed == q.pushed && PushProgress(r.producer) == PushProgress(q.producer) == 0)
      && (a.SeeTail? ==> r.pushed == q.pushed && PushProgress(q.producer) == 0
                         && PushProgress(r.producer) == if r.producer.NotPushing? then 0 else 1)
      && (a.WriteSlot? ==> r.pushed == q.pushed && PushProgress(q.producer) == 1 && PushProgress(r.producer) == 2)
      && (a.PublishHead? ==> |r.pushed| == |q.pushed| + 1 && PushProgress(q.producer) == 2 && PushProgress(r.producer) == 0)
  {
  }

  lemma PopFalls<T>(q: Ring<T>, a: Act<T>)
    requires |q.buf| > 0 && Can(q, a) && !IsPush(a)
    ensures var r := Do(q, a);
      && r.pushed == q.pushed && r.producer == q.producer
      && (a.LoadTail? ==> r.popped == q.popped && PopProgress(r.consumer) == PopProgress(q.consumer) == 0)
      && (a.SeeHead? ==> r.popped == q.popped && PopProgress(q.consumer) == 0
                         && PopProgress(r.consumer) == if r.consumer.NotPopping? then 0 else 1)
      && (a.ReadSlot? ==> r.popped == q.popped && PopProgress(q.consumer) == 1 && PopProgress(r.consumer) == 2)
      && (a.PublishTail? ==> |r.popped| == |q.popped| + 1 && PopProgress(q.consumer) == 2 && PopProgress(r.consumer) == 0)
  {
  }

  // Spinning leaves the work as it is; every other step reduces it.
  lemma WorkFalls(sim: Simulator, p: Pipe, m: Move)
    requires PipeOk(sim, p) && CanMove(p, m)
    ensures if IsSpin(p, m) then Work(Make(sim, p, m)) == Work(p) else Work(Make(sim, p, m)) < Work(p)
  {
    match m {
      case Io(a) => PushFalls(p.tcs, a);
      case DispatchPop(a) => PopFalls(p.tcs, a);
      case Build => BuildFalls(sim, p);
      case DispatchPush(a) => PushFalls(p.tms, a);
      case Transmit(a) => PopFalls(p.tms, a);
    }
  }

  lemma BuildFalls(sim: Simulator, p: Pipe)
    requires p.task.Busy?
    ensures Work(DoBuild(sim, p)) < Work(p)
  {
  }

  lemma WorkIsNatural(sim: Simulator, p: Pipe)
    requires PipeOk(sim, p)
    ensures Work(p) >= 0
    ensures Work(p) == 0 ==> p.inbox == [] && p.tcs.popped == p.tcs.pushed && p.task.Waiting? && p.tms.popped == p.tms.pushed
  {
  }

  // Nothing is left to do exactly when the transmit task has popped every answer.
  lemma DrainedOutput(sim: Simulator, p: Pipe)
    requires PipeOk(sim, p) && Work(p) == 0
    ensures p.tms.popped == AnswersToAll(sim, All(p), FIRST_SEQUENCE)
    ensures Contents(p.tcs) == [] && Contents(p.tms) == []
  {
    WorkIsNatural(sim, p);
    assert All(p) == p.tcs.popped;
  }

  function StepsTaken(sim: Simulator, p: Pipe, ms: seq<Move>): nat
    requires CanPlay(sim, p, ms)
    decreases |ms|
  {
    if ms == [] then 0
    else (if IsSpin(p, ms[0]) then 0 else 1) + StepsTaken(sim, Make(sim, p, ms[0]), ms[1..])
  }

  // A run takes at most Work(p) steps that are not spinning.
  lemma {:induction false} BoundedSteps(sim: Simulator, p: Pipe, ms: seq<Move>)
    requires PipeOk(sim, p) && CanPlay(sim, p, ms)
    ensures StepsTaken(sim, p, ms) + Work(Play(sim, p, ms)) <= Work(p)
    ensures 0 <= Work(Play(sim, p, ms))
    decreases |ms|
  {
    if ms != [] {
      MakeOk(sim, p, ms[0]);
      WorkFalls(sim, p, ms[0]);
      BoundedSteps(sim, Make(sim, p, ms[0]), ms[1..]);
    } else {
      WorkIsNatural(sim, p);
    }
  }

  /* Deadlock freedom */

  // One or two moves of one thread that get work done.
  ghost predicate GetsOn(sim: Simulator, p: Pipe, ms: seq<Move>) {
    1 <= |ms| <= 2 && CanPlay(sim, p, ms) && Work(Play(sim, p, ms)) < Work(p)
  }

  lemma OneMove(sim: Simulator, p: Pipe, m: Move)
    requires PipeOk(sim, p) && CanMove(p, m) && !IsSpin(p, m)
    ensures GetsOn(sim, p, [m])
  {
    WorkFalls(sim, p, m);
    assert [m][1..] == [];
    assert Play(sim, Make(sim, p, m), []) == Make(sim, p, m);
  }

  lemma TwoMoves(sim: Simulator, p: Pipe, m: Move, l: Move)
    requires PipeOk(sim, p) && CanMove(p, m) && CanMove(Make(sim, p, m), l) && !IsSpin(Make(sim, p, m), l)
    ensures GetsOn(sim, p, [m, l])
  {
    MakeOk(sim, p, m);
    WorkFalls(sim, p, m);
    var q := Make(sim, p, m);
    OneMove(sim, q, l);
    assert [m, l][1..] == [l];
    assert Play(sim, p, [m, l]) == Play(sim, q, [l]);
  }

  // The move a producer needs next when there is room, and a consumer when there is something.
  function NextPush<T>(q: Ring<T>, x: T): Act<T> {
    match q.producer
    case NotPushing => LoadHead(x)
    case HaveHead(_, _) => SeeTail(|q.popped|)
    case MayWrite(_, _) => WriteSlot
    case Written(_, _) => PublishHead
  }

  function NextPop<T>(q: Ring<T>): Act<T> {
    match q.consumer
    case NotPopping => LoadTail
    case HaveTail(_) => SeeHead(|q.pushed|)
    case MayRead(_) => ReadSlot
    case Taken(_, _) => PublishTail
  }

  lemma PopSucceeds<T>(q: Ring<T>)
    requires RingOk(q) && |q.popped| < |q.pushed|
    ensures Can(q, NextPop(q))
    ensures q.consumer.HaveTail? ==> !Do(q, NextPop(q)).consumer.NotPopping?
    ensures q.consumer.NotPopping? ==> Do(q, LoadTail) == q.(consumer := HaveTail(q.tail))
  {
    if q.consumer.HaveTail? {
      SeeHeadMeaning(q, |q.pushed|);
    }
  }

  lemma PushSucceeds<T>(q: Ring<T>, x: T)
    requires RingOk(q) && |q.popped| == |q.pushed|
    ensures Can(q, NextPush(q, x))
    ensures q.producer.HaveHead? ==> !Do(q, NextPush(q, x)).producer.NotPushing?
  {
    if q.producer.HaveHead? {
      SeeTailMeaning(q, |q.popped|);
    }
  }

  lemma TransmitGetsOn(sim: Simulator, p: Pipe) returns (ms: seq<Move>)
    requires PipeOk(sim, p) && |p.tms.popped| < |p.tms.pushed|
    ensures GetsOn(sim, p, ms)
  {
    var m := Transmit(NextPop(p.tms));
    PopSucceeds(p.tms);
    if p.tms.consumer.NotPopping? {
      MakeOk(sim, p, m);
      var q := Make(sim, p, m);
      PopSucceeds(q.tms);
      ms := [m, Transmit(NextPop(q.tms))];
      TwoMoves(sim, p, m, Transmit(NextPop(q.tms)));
    } else {
      ms := [m];
      OneMove(sim, p, m);
    }
  }

  lemma PopGetsOn(sim: Simulator, p: Pipe) returns (ms: seq<Move>)
    requires PipeOk(sim, p) && p.task.Waiting? && |p.tcs.popped| < |p.tcs.pushed|
    ensures GetsOn(sim, p, ms)
  {
    var m := DispatchPop(NextPop(p.tcs));
    PopSucceeds(p.tcs);
    if p.tcs.consumer.NotPopping? {
      MakeOk(sim, p, m);
      var q := Make(sim, p, m);
      PopSucceeds(q.tcs);
      ms := [m, DispatchPop(NextPop(q.tcs))];
      TwoMoves(sim, p, m, DispatchPop(NextPop(q.tcs)));
    } else {
      ms := [m];
      OneMove(sim, p, m);
    }
  }

  lemma PushGetsOn(sim: Simulator, p: Pipe) returns (ms: seq<Move>)
    requires PipeOk(sim, p) && p.task.Pushing? && |p.tms.popped| == |p.tms.pushed|
    ensures GetsOn(sim, p, ms)
  {
    var x := p.task.tm;
    var m := DispatchPush(NextPush(p.tms, x));
    PushSucceeds(p.tms, x);
    if p.tms.producer.NotPushing? {
      MakeOk(sim, p, m);
      var q := Make(sim, p, m);
      PushSucceeds(q.tms, x);
      ms := [m, DispatchPush(NextPush(q.tms, x))];
      TwoMoves(sim, p, m, DispatchPush(NextPush(q.tms, x)));
    } else {
      ms := [m];
      OneMove(sim, p, m);
    }
  }

  lemma IoGetsOn(sim: Simulator, p: Pipe) returns (ms: seq<Move>)
    requires PipeOk(sim, p) && p.inbox != [] && |p.tcs.popped| == |p.tcs.pushed|
    ensures GetsOn(sim, p, ms)
  {
    var x := p.inbox[0];
    var m := Io(NextPush(p.tcs, x));
    PushSucceeds(p.tcs, x);
    if p.tcs.producer.NotPushing? {
      MakeOk(sim, p, m);
      var q := Make(sim, p, m);
      PushSucceeds(q.tcs, x);
      ms := [m, Io(NextPush(q.tcs, x))];
      TwoMoves(sim, p, m, Io(NextPush(q.tcs, x)));
    } else {
      ms := [m];
      OneMove(sim, p, m);
    }
  }

  // No reachable state with work left is stuck: some thread gets on within two moves.
  lemma NeverStuck(sim: Simulator, p: Pipe) returns (ms: seq<Move>)
    requires PipeOk(sim, p) && Work(p) > 0
    ensures GetsOn(sim, p, ms)
  {
    if |p.tms.popped| < |p.tms.pushed| {
      ms := TransmitGetsOn(sim, p);
    } else if p.task.Busy? {
      ms := [Build];
      OneMove(sim, p, Build);
    } else if p.task.Pushing? {
      ms := PushGetsOn(sim, p);
    } else if |p.tcs.popped| < |p.tcs.pushed| {
      ms := PopGetsOn(sim, p);
    } else {
      ms := IoGetsOn(sim, p);
    }
  }

  // A run can get no further exactly when no work is left, and then every answer has been popped and both
  // queues are empty: whatever the interleaving, a run that gets on whenever it can ends there.
  lemma MaximalRunsDrain(sim: Simulator, arrivals: seq<Telecommand>, tcBuf: seq<Telecommand>, tmBuf: seq<bytes>, ms: seq<Move>)
    requires |tcBuf| >= 2 && |tmBuf| >= 2 && CanPlay(sim, Begin(arrivals, tcBuf, tmBuf), ms)
    ensures var p := Play(sim, Begin(arrivals, tcBuf, tmBuf), ms);
      var ended := forall more :: !GetsOn(sim, p, more);
      && (ended <==> Work(p) == 0)
      && (ended ==> p.tms.popped == AnswersToAll(sim, arrivals, FIRST_SEQUENCE))
      && (ended ==> Contents(p.tcs) == [] && Contents(p.tms) == [])
  {
    BeginOk(sim, arrivals, tcBuf, tmBuf);
    hide PipeOk, Work, GetsOn, Begin, Contents;
    PlayOk(sim, Begin(arrivals, tcBuf, tmBuf), ms);
    var p := Play(sim, Begin(arrivals, tcBuf, tmBuf), ms);
    WorkIsNatural(sim, p);
    if Work(p) == 0 {
      DrainedOutput(sim, p);
      forall more ensures !GetsOn(sim, p, more) {
        NoWorkNoMoves(sim, p, more);
      }
    } else {
      var more := NeverStuck(sim, p);
    }
  }

  lemma NoWorkNoMoves(sim: Simulator, p: Pipe, more: seq<Move>)
    requires PipeOk(sim, p) && Work(p) == 0
    ensures !GetsOn(sim, p, more)
  {
    if GetsOn(sim, p, more) {
      BoundedSteps(sim, p, more);
      assert false;
    }
  }

  lemma {:induction false} PlayAppend(sim: Simulator, p: Pipe, a: seq<Move>, b: seq<Move>)
    requires CanPlay(sim, p, a) && CanPlay(sim, Play(sim, p, a), b)
    ensures CanPlay(sim, p, a + b) && Play(sim, p, a + b) == Play(sim, Play(sim, p, a), b)
    decreases |a|
  {
    if a == [] {
      assert a + b == b;
    } else {
      assert (a + b)[1..] == a[1..] + b;
      PlayAppend(sim, Make(sim, p, a[0]), a[1..], b);
    }
  }

  // From every reachable state the pipeline can be run until every answer has been popped.
  lemma {:induction false} CanAlwaysDrain(sim: Simulator, p: Pipe) returns (ms: seq<Move>)
    requires PipeOk(sim, p)
    ensures CanPlay(sim, p, ms)
    ensures Play(sim, p, ms).tms.popped == AnswersToAll(sim, All(p), FIRST_SEQUENCE)
    ensures Work(Play(sim, p, ms)) == 0
    decreases Work(p)
  {
    WorkIsNatural(sim, p);
    if Work(p) == 0 {
      ms := [];
      DrainedOutput(sim, p);
    } else {
      var first := NeverStuck(sim, p);
      PlayOk(sim, p, first);
      var rest := CanAlwaysDrain(sim, Play(sim, p, first));
      PlayAppend(sim, p, first, rest);
      ms := first + rest;
    }
  }
}
