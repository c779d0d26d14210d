/** The simulator's answer to one telecommand: PUS request verification and a housekeeping report. */
module Dispatch {
  import opened Bytes

  const SVC_VERIFY: byte := 1
  const SVC_HK: byte := 3
  const SUB_VERIFY_ACCEPT_OK: byte := 1
  const SUB_VERIFY_ACCEPT_FAIL: byte := 2
  const SUB_VERIFY_START_OK: byte := 3
  const SUB_VERIFY_COMPLETE_OK: byte := 7
  const SUB_HK_REPORT: byte := 25
  const SUB_HK_REQUEST: byte := 27
  const SUB_SYS_HK_REQUEST: byte := 128
  const SUB_SYS_HK_REPORT: byte := 129
  const FIRST_SEQUENCE: nat := 100
  const SEQUENCE_MODULUS: nat := 0x4000

  datatype Telecommand = Telecommand(service: byte, subservice: byte, ack: byte, source: word, requestId: bytes)

  // The arguments of one call of build_tm.
  datatype Attempt = Attempt(sequence: word, service: byte, subtype: byte, destination: word, payload: bytes)

  // What is not modelled: the telemetry builder, whose empty answer means failure, and the fixed
  // contents of the two reports.
  datatype Simulator = Simulator(build: Attempt -> bytes, heartbeat: bytes, snapshot: bytes)

  predicate WantsAcceptance(tc: Telecommand) { (tc.ack as int) / 8 % 2 == 1 }
  predicate WantsStart(tc: Telecommand) { (tc.ack as int) / 4 % 2 == 1 }
  predicate WantsCompletion(tc: Telecommand) { (tc.ack as int) % 2 == 1 }

  predicate Supported(tc: Telecommand) {
    tc.service == SVC_HK && (tc.subservice == SUB_HK_REQUEST || tc.subservice == SUB_SYS_HK_REQUEST)
  }

  function Success(tc: Telecommand): bytes {
    tc.requestId
  }

  function FailureReport(tc: Telecommand, code: word): bytes {
    tc.requestId + BigEndian(code, 2) + BigEndian(0, 2)
  }

  /* What a telecommand must be answered with */

  datatype Reply = Acceptance | Started | Report | Completion

  function PlanCompletion(tc: Telecommand): seq<Reply> {
    if WantsCompletion(tc) then [Completion] else []
  }

  function PlanReport(tc: Telecommand): seq<Reply> {
    [Report] + PlanCompletion(tc)
  }

  function PlanStart(tc: Telecommand): seq<Reply> {
    if WantsStart(tc) then [Started] + PlanReport(tc) else PlanReport(tc)
  }

  function PlanRest(tc: Telecommand): seq<Reply> {
    if Supported(tc) then PlanStart(tc) else []
  }

  function Plan(tc: Telecommand): seq<Reply> {
    if WantsAcceptance(tc) then [Acceptance] + PlanRest(tc) else PlanRest(tc)
  }

  function AttemptFor(sim: Simulator, tc: Telecommand, r: Reply, sequence: word): Attempt {
    match r
    case Acceptance =>
      if Supported(tc) then Attempt(sequence, SVC_VERIFY, SUB_VERIFY_ACCEPT_OK, tc.source, Success(tc))
      else Attempt(sequence, SVC_VERIFY, SUB_VERIFY_ACCEPT_FAIL, tc.source, FailureReport(tc, 1))
    case Started => Attempt(sequence, SVC_VERIFY, SUB_VERIFY_START_OK, tc.source, Success(tc))
    case Report =>
      if tc.subservice == SUB_HK_REQUEST then Attempt(sequence, SVC_HK, SUB_HK_REPORT, tc.source, sim.heartbeat)
      else Attempt(sequence, SVC_HK, SUB_SYS_HK_REPORT, tc.source, tc.requestId + sim.snapshot)
    case Completion => Attempt(sequence, SVC_VERIFY, SUB_VERIFY_COMPLETE_OK, tc.source, Success(tc))
  }

  // Consecutive sequence counts, in the 16-bit arithmetic of the counter.
  function AttemptsFor(sim: Simulator, tc: Telecommand, plan: seq<Reply>, sequence: word): (r: seq<Attempt>)
    ensures |r| == |plan|
    decreases |plan|
  {
    if plan == [] then []
    else [AttemptFor(sim, tc, plan[0], sequence)] + AttemptsFor(sim, tc, plan[1..], (sequence + 1) % 0x1_0000)
  }

  // The telemetry that could be built, in order.
  function Built(sim: Simulator, attempts: seq<Attempt>): seq<bytes> {
    if attempts == [] then []
    else (if sim.build(attempts[0]) != [] then [sim.build(attempts[0])] else []) + Built(sim, attempts[1..])
  }

  function Answers(sim: Simulator, tc: Telecommand, sequence: word): seq<bytes> {
    Built(sim, AttemptsFor(sim, tc, Plan(tc), sequence))
  }

  function SequenceAfter(tc: Telecommand, sequence: word): word {
    (sequence + |Plan(tc)|) % SEQUENCE_MODULUS
  }

  /* The answers to a whole list */

  function AnswersToAll(sim: Simulator, tcs: seq<Telecommand>, sequence: word): seq<bytes>
    decreases |tcs|
  {
    if tcs == [] then []
    else Answers(sim, tcs[0], sequence) + AnswersToAll(sim, tcs[1..], SequenceAfter(tcs[0], sequence))
  }

  function SequenceAfterAll(tcs: seq<Telecommand>, sequence: word): word
    decreases |tcs|
  {
    if tcs == [] then sequence else SequenceAfterAll(tcs[1..], SequenceAfter(tcs[0], sequence))
  }

  // The first reply of a plan, then the others.
  lemma FirstReply(sim: Simulator, tc: Telecommand, plan: seq<Reply>, sequence: word)
    requires plan != []
    ensures Built(sim, AttemptsFor(sim, tc, plan, sequence))
            == Built(sim, [AttemptFor(sim, tc, plan[0], sequence)])
               + Built(sim, AttemptsFor(sim, tc, plan[1..], (sequence + 1) % 0x1_0000))
  {
    var a := AttemptFor(sim, tc, plan[0], sequence);
    assert [a][1..] == [];
    assert Built(sim, [a]) == (if sim.build(a) != [] then [sim.build(a)] else []) + [];
  }

  function Todo(sim: Simulator, tc: Telecommand, plan: seq<Reply>, sequence: word): seq<bytes> {
    Built(sim, AttemptsFor(sim, tc, plan, sequence))
  }

  lemma DoFirst(sim: Simulator, tc: Telecommand, r: Reply, plan: seq<Reply>, sequence: word, queued: seq<bytes>)
    ensures queued + Todo(sim, tc, [r] + plan, sequence)
            == queued + Built(sim, [AttemptFor(sim, tc, r, sequence)]) + Todo(sim, tc, plan, (sequence + 1) % 0x1_0000)
  {
    FirstReply(sim, tc, [r] + plan, sequence);
    assert ([r] + plan)[1..] == plan;
  }

  lemma {:induction false} AnswersSnoc(sim: Simulator, tcs: seq<Telecommand>, tc: Telecommand, sequence: word)
    ensures AnswersToAll(sim, tcs + [tc], sequence)
            == AnswersToAll(sim, tcs, sequence) + Answers(sim, tc, SequenceAfterAll(tcs, sequence))
    ensures SequenceAfterAll(tcs + [tc], sequence) == SequenceAfter(tc, SequenceAfterAll(tcs, sequence))
    decreases |tcs|
  {
    if tcs != [] {
      assert (tcs + [tc])[1..] == tcs[1..] + [tc];
      AnswersSnoc(sim, tcs[1..], tc, SequenceAfter(tcs[0], sequence));
    } else {
      assert (tcs + [tc])[1..] == [];
    }
  }

  function AttemptsForAll(sim: Simulator, tcs: seq<Telecommand>, sequence: word): seq<Attempt>
    decreases |tcs|
  {
    if tcs == [] then []
    else AttemptsFor(sim, tcs[0], Plan(tcs[0]), sequence) + AttemptsForAll(sim, tcs[1..], SequenceAfter(tcs[0], sequence))
  }

  /* The dispatch task, as written */

  method BuildTm(sim: Simulator, a: Attempt) returns (tm: seq<bytes>)
    ensures tm == Built(sim, [a])
  {
    var packet := sim.build(a);
    tm := if packet != [] then [packet] else [];
  }

  // One round of the task's loop: the telemetry it queues and the counter it leaves.
  method DispatchOne(sim: Simulator, tc: Telecommand, start: word) returns (queued: seq<bytes>, next: word)
    ensures queued == Answers(sim, tc, start)
    ensures start < SEQUENCE_MODULUS ==> next == SequenceAfter(tc, start)
  {
    var tmSeq := start;
    queued := [];
    var supported := Supported(tc);
    if WantsAcceptance(tc) {
      DoFirst(sim, tc, Acceptance, PlanRest(tc), tmSeq, queued);
      var a := if supported
        then Attempt(tmSeq, SVC_VERIFY, SUB_VERIFY_ACCEPT_OK, tc.source, Success(tc))
        else Attempt(tmSeq, SVC_VERIFY, SUB_VERIFY_ACCEPT_FAIL, tc.source, FailureReport(tc, 1));
      var tm := BuildTm(sim, a);
      tmSeq := (tmSeq + 1) % 0x1_0000;
      queued := queued + tm;
    }
    assert Answers(sim, tc, start) == queued + Todo(sim, tc, PlanRest(tc), tmSeq);
    if !supported {
      next := tmSeq % SEQUENCE_MODULUS;
      return;
    }
    var rest;
    rest, next := DispatchSupported(sim, tc, tmSeq);
    queued := queued + rest;
  }

  lemma NothingToDo(sim: Simulator, tc: Telecommand, sequence: word)
    ensures Todo(sim, tc, [], sequence) == []
  {
  }

  method DispatchSupported(sim: Simulator, tc: Telecommand, start: word) returns (queued: seq<bytes>, next: word)
    requires Supported(tc)
    ensures queued == Todo(sim, tc, PlanStart(tc), start)
    ensures start + 4 < 0x1_0000 ==> next == (start + |PlanStart(tc)|) % SEQUENCE_MODULUS
  {
    hide Todo, Built, AttemptsFor, Success;
    var tmSeq := start;
    queued := [];
    if WantsStart(tc) {
      DoFirst(sim, tc, Started, PlanReport(tc), tmSeq, queued);
      var tm := BuildTm(sim, Attempt(tmSeq, SVC_VERIFY, SUB_VERIFY_START_OK, tc.source, Success(tc)));
      tmSeq := (tmSeq + 1) % 0x1_0000;
      queued := queued + tm;
    }
    assert Todo(sim, tc, PlanStart(tc), start) == queued + Todo(sim, tc, PlanReport(tc), tmSeq);
    DoFirst(sim, tc, Report, PlanCompletion(tc), tmSeq, queued);
    var report := if tc.subservice == SUB_HK_REQUEST
      then Attempt(tmSeq, SVC_HK, SUB_HK_REPORT, tc.source, sim.heartbeat)
      else Attempt(tmSeq, SVC_HK, SUB_SYS_HK_REPORT, tc.source, tc.requestId + sim.snapshot);
    var reply := BuildTm(sim, report);
    tmSeq := (tmSeq + 1) % 0x1_0000;
    queued := queued + reply;
    assert Todo(sim, tc, PlanStart(tc), start) == queued + Todo(sim, tc, PlanCompletion(tc), tmSeq);
    if WantsCompletion(tc) {
      DoFirst(sim, tc, Completion, [], tmSeq, queued);
      assert [Completion] + [] == PlanCompletion(tc);
      var done := BuildTm(sim, Attempt(tmSeq, SVC_VERIFY, SUB_VERIFY_COMPLETE_OK, tc.source, Success(tc)));
      tmSeq := (tmSeq + 1) % 0x1_0000;
      queued := queued + done;
    }
    NothingToDo(sim, tc, tmSeq);
    next := tmSeq % SEQUENCE_MODULUS;
  }

  /* Verification protocol */

  lemma {:induction false} AttemptAt(sim: Simulator, tc: Telecommand, plan: seq<Reply>, sequence: word, i: nat)
    requires i < |plan| && sequence + |plan| <= 0x1_0000
    ensures AttemptsFor(sim, tc, plan, sequence)[i] == AttemptFor(sim, tc, plan[i], sequence + i)
    decreases |plan|
  {
    hide AttemptFor;
    if i > 0 {
      AttemptAt(sim, tc, plan[1..], sequence + 1, i - 1);
    }
  }

  predicate Due(tc: Telecommand, r: Reply) {
    match r
    case Acceptance => WantsAcceptance(tc)
    case Started => Supported(tc) && WantsStart(tc)
    case Report => Supported(tc)
    case Completion => Supported(tc) && WantsCompletion(tc)
  }

  // Each reply exactly when it is due, at most once, in protocol order.
  lemma PlanShape(tc: Telecommand)
    ensures forall r :: r in Plan(tc) <==> Due(tc, r)
    ensures forall j, k :: 0 <= j < k < |Plan(tc)| ==> Rank(Plan(tc)[j]) < Rank(Plan(tc)[k])
    ensures !Supported(tc) ==> |Plan(tc)| <= 1
  {
    assert forall r :: r in PlanCompletion(tc) <==> r == Completion && WantsCompletion(tc);
    assert forall r :: r in PlanReport(tc) <==> r == Report || r in PlanCompletion(tc);
    assert forall r :: r in PlanStart(tc) <==> (r == Started && WantsStart(tc)) || r in PlanReport(tc);
  }

  /* The protocol in numbers */

  // A telemetry report: service, subtype, destination, application data.
  datatype Tm = Tm(service: int, subtype: int, destination: word, payload: bytes)

  // What section 6.1 of ECSS-E-ST-70-41C and the housekeeping service demand for a telecommand: TM[1,1] or
  // TM[1,2] for flag 8, and for a supported request TM[1,3] for flag 4, then TM[3,25] for TC[3,27] or TM[3,129]
  // for TC[3,128], then TM[1,7] for flag 1.
  function Demanded(sim: Simulator, tc: Telecommand): seq<Tm> {
    var flags: int, id, dest := tc.ack, tc.requestId, tc.source;
    var supported := tc.service == 3 && (tc.subservice == 27 || tc.subservice == 128);
    (if flags / 8 % 2 == 0 then [] else if supported then [Tm(1, 1, dest, id)] else [Tm(1, 2, dest, id + [0, 1, 0, 0])])
    + if !supported then []
      else
        (if flags / 4 % 2 == 0 then [] else [Tm(1, 3, dest, id)])
        + (if tc.subservice == 27 then [Tm(3, 25, dest, sim.heartbeat)] else [Tm(3, 129, dest, id + sim.snapshot)])
        + if flags % 2 == 0 then [] else [Tm(1, 7, dest, id)]
  }

  function TmOf(a: Attempt): Tm {
    Tm(a.service, a.subtype, a.destination, a.payload)
  }

  // One round builds exactly what is demanded, in order, with consecutive counts.
  lemma RoundIsDemanded(sim: Simulator, tc: Telecommand, start: word)
    requires start < SEQUENCE_MODULUS
    ensures var all := AttemptsFor(sim, tc, Plan(tc), start);
      && |all| == |Demanded(sim, tc)|
      && forall i :: 0 <= i < |all| ==> TmOf(all[i]) == Demanded(sim, tc)[i] && all[i].sequence == start + i
  {
    var all := AttemptsFor(sim, tc, Plan(tc), start);
    FailureBytes();
    PlanIsDemanded(sim, tc);
    hide Plan, AttemptFor, Demanded, AttemptsFor;
    forall i | 0 <= i < |all| ensures TmOf(all[i]) == Demanded(sim, tc)[i] && all[i].sequence == start + i {
      RoundCount(sim, tc, start, i);
      AttemptAt(sim, tc, Plan(tc), start, i);
      DestinationAndCountAside(sim, tc, Plan(tc)[i], start + i);
    }
  }

  lemma DestinationAndCountAside(sim: Simulator, tc: Telecommand, r: Reply, sequence: word)
    ensures TmOf(AttemptFor(sim, tc, r, sequence)) == TmOf(AttemptFor(sim, tc, r, 0))
  {
  }

  lemma PlanIsDemanded(sim: Simulator, tc: Telecommand)
    ensures |Plan(tc)| == |Demanded(sim, tc)| <= 4
    ensures forall i :: 0 <= i < |Plan(tc)| ==> TmOf(AttemptFor(sim, tc, Plan(tc)[i], 0)) == Demanded(sim, tc)[i]
  {
    FailureBytes();
  }

  function DemandedByAll(sim: Simulator, tcs: seq<Telecommand>): seq<Tm> {
    if tcs == [] then [] else Demanded(sim, tcs[0]) + DemandedByAll(sim, tcs[1..])
  }

  // A whole run builds exactly what its telecommands demand, in order.
  lemma {:induction false} RunIsDemanded(sim: Simulator, tcs: seq<Telecommand>, start: word)
    requires start < SEQUENCE_MODULUS
    ensures var all := AttemptsForAll(sim, tcs, start);
      |all| == |DemandedByAll(sim, tcs)| && forall j :: 0 <= j < |all| ==> TmOf(all[j]) == DemandedByAll(sim, tcs)[j]
    decreases |tcs|
  {
    if tcs != [] {
      RoundIsDemanded(sim, tcs[0], start);
      RunIsDemanded(sim, tcs[1..], SequenceAfter(tcs[0], start));
      hide Demanded, AttemptsFor, SequenceAfter, TmOf, Plan;
    }
  }

  // The telemetry of a run is what could be built of it, ...
  lemma {:induction false} AnswersAreBuilt(sim: Simulator, tcs: seq<Telecommand>, start: word)
    ensures AnswersToAll(sim, tcs, start) == Built(sim, AttemptsForAll(sim, tcs, start))
    decreases |tcs|
  {
    if tcs != [] {
      var next := SequenceAfter(tcs[0], start);
      AnswersAreBuilt(sim, tcs[1..], next);
      BuiltAppend(sim, AttemptsFor(sim, tcs[0], Plan(tcs[0]), start), AttemptsForAll(sim, tcs[1..], next));
    }
  }

  // ... and if everything can be built, it is one packet per attempt, in order.
  lemma {:induction false} BuiltAll(sim: Simulator, a: seq<Attempt>)
    requires forall x :: x in a ==> sim.build(x) != []
    ensures |Built(sim, a)| == |a| && forall j :: 0 <= j < |a| ==> Built(sim, a)[j] == sim.build(a[j])
    decreases |a|
  {
    if a != [] {
      BuiltAll(sim, a[1..]);
    }
  }

  // Every verification report names the request; the only answer to an unsupported request is an
  // acceptance failure with its code.
  lemma VerificationNamesRequest(sim: Simulator, tc: Telecommand, start: word, i: nat)
    requires start < SEQUENCE_MODULUS && i < |Plan(tc)|
    ensures var a := AttemptsFor(sim, tc, Plan(tc), start)[i];
      && a.sequence == start + i && a.destination == tc.source
      && (a.service == SVC_VERIFY ==> tc.requestId <= a.payload)
      && (!Supported(tc) ==> a.subtype == SUB_VERIFY_ACCEPT_FAIL && a.payload == tc.requestId + [0, 1, 0, 0])
  {
    AttemptAt(sim, tc, Plan(tc), start, i);
    FailureBytes();
  }

  lemma FailureBytes()
    ensures BigEndian(1, 2) == [0, 1] && BigEndian(0, 2) == [0, 0]
  {
    assert BigEndian(1, 2) == BigEndian(0, 1) + [1] && BigEndian(0, 1) == BigEndian(0, 0) + [0];
    assert BigEndian(0, 2) == BigEndian(0, 1) + [0];
  }

  function Rank(r: Reply): nat {
    match r
    case Acceptance => 0
    case Started => 1
    case Report => 2
    case Completion => 3
  }

  // Over a whole run the j-th attempt uses the j-th count after the first, modulo 2^14, and is at
  // most two beyond the 14-bit range.
  lemma {:induction false} SequenceOfRun(sim: Simulator, tcs: seq<Telecommand>, start: word, j: nat)
    requires start < SEQUENCE_MODULUS && j < |AttemptsForAll(sim, tcs, start)|
    ensures var raw := AttemptsForAll(sim, tcs, start)[j].sequence;
      raw % SEQUENCE_MODULUS == (start + j) % SEQUENCE_MODULUS && raw <= 0x4002
    decreases |tcs|
  {
    FirstRound(sim, tcs, start, j);
    var n := |Plan(tcs[0])|;
    hide Plan, AttemptsFor, SequenceAfter, AttemptsForAll;
    if j < n {
      RoundCount(sim, tcs[0], start, j);
    } else {
      SequenceOfRun(sim, tcs[1..], SequenceAfter(tcs[0], start), j - n);
      NextCount(tcs[0], start, n, j);
    }
  }

  lemma FirstRound(sim: Simulator, tcs: seq<Telecommand>, start: word, j: nat)
    requires j < |AttemptsForAll(sim, tcs, start)|
    ensures tcs != [] && var n, later := |Plan(tcs[0])|, AttemptsForAll(sim, tcs[1..], SequenceAfter(tcs[0], start));
      AttemptsForAll(sim, tcs, start)[j] == if j < n then AttemptsFor(sim, tcs[0], Plan(tcs[0]), start)[j] else later[j - n]
  {
    hide Plan, AttemptsFor, SequenceAfter;
  }

  lemma RoundCount(sim: Simulator, tc: Telecommand, start: word, j: nat)
    requires start < SEQUENCE_MODULUS && j < |Plan(tc)|
    ensures AttemptsFor(sim, tc, Plan(tc), start)[j].sequence == start + j <= 0x4002
  {
    AttemptAt(sim, tc, Plan(tc), start, j);
  }

  lemma NextCount(tc: Telecommand, start: word, n: nat, j: nat)
    requires n == |Plan(tc)| && n <= j
    ensures (SequenceAfter(tc, start) + (j - n)) % SEQUENCE_MODULUS == (start + j) % SEQUENCE_MODULUS
  {
    ModShift(start + n, j - n);
  }

  lemma ModShift(a: nat, b: nat)
    ensures (a % SEQUENCE_MODULUS + b) % SEQUENCE_MODULUS == (a + b) % SEQUENCE_MODULUS
  {
  }

  // All counts of a round are within the 14-bit range exactly when the round ends within it; no round that
  // starts below 0x3FFD leaves it.
  lemma OutOfRangeIff(sim: Simulator, tc: Telecommand, start: word)
    requires start < SEQUENCE_MODULUS
    ensures (forall i | 0 <= i < |Plan(tc)| :: AttemptsFor(sim, tc, Plan(tc), start)[i].sequence < SEQUENCE_MODULUS)
            <==> start + |Plan(tc)| <= SEQUENCE_MODULUS
    ensures start < 0x3FFD ==> start + |Plan(tc)| <= SEQUENCE_MODULUS
  {
    var n := |Plan(tc)|;
    assert n <= 4;
    forall i | 0 <= i < n ensures AttemptsFor(sim, tc, Plan(tc), start)[i].sequence == start + i {
      RoundCount(sim, tc, start, i);
    }
    hide Plan, AttemptsFor;
    if start + n > SEQUENCE_MODULUS {
      assert AttemptsFor(sim, tc, Plan(tc), start)[n - 1].sequence == start + (n - 1);
    }
  }

  lemma {:induction false} BuiltAppend(sim: Simulator, a: seq<Attempt>, b: seq<Attempt>)
    ensures Built(sim, a + b) == Built(sim, a) + Built(sim, b)
    decreases |a|
  {
    if a == [] {
      assert a + b == b;
    } else {
      assert (a + b)[1..] == a[1..] + b;
      BuiltAppend(sim, a[1..], b);
    }
  }

  lemma {:induction false} BuiltNone(sim: Simulator, a: seq<Attempt>)
    requires forall x :: x in a ==> sim.build(x) == []
    ensures Built(sim, a) == []
    decreases |a|
  {
    if a != [] {
      BuiltNone(sim, a[1..]);
    }
  }

  // With any builder that refuses counts beyond 14 bits, a round queues exactly what it would queue of the
  // replies whose counts fit.
  lemma OnlyFittingCountsSurvive(sim: Simulator, tc: Telecommand, start: word)
    requires start < SEQUENCE_MODULUS
    requires forall a: Attempt :: a.sequence >= SEQUENCE_MODULUS ==> sim.build(a) == []
    ensures var all, fit := AttemptsFor(sim, tc, Plan(tc), start), SEQUENCE_MODULUS - start;
      Answers(sim, tc, start) == Built(sim, if |all| <= fit then all else all[..fit])
  {
    var all, fit := AttemptsFor(sim, tc, Plan(tc), start), SEQUENCE_MODULUS - start;
    if |all| > fit {
      forall x | x in all[fit..] ensures sim.build(x) == [] {
        var i :| 0 <= i < |all| - fit && all[fit..][i] == x;
        RoundCount(sim, tc, start, fit + i);
      }
      BuiltNone(sim, all[fit..]);
      BuiltAppend(sim, all[..fit], all[fit..]);
      assert all == all[..fit] + all[fit..];
    }
  }

  // If the builder fails exactly on counts beyond 14 bits, a round queues its whole plan if and only if it
  // ends within the range.
  lemma LostAtWrapAround(sim: Simulator, tc: Telecommand, start: word)
    requires start < SEQUENCE_MODULUS
    requires forall a :: sim.build(a) == [] <==> a.sequence >= SEQUENCE_MODULUS
    ensures |Answers(sim, tc, start)| == |Plan(tc)| <==> start + |Plan(tc)| <= SEQUENCE_MODULUS
  {
    BuiltCount(sim, tc, Plan(tc), start);
  }

  lemma {:induction false} BuiltCount(sim: Simulator, tc: Telecommand, plan: seq<Reply>, start: word)
    requires start + |plan| <= 0x1_0000 - 1
    requires forall a :: sim.build(a) == [] <==> a.sequence >= SEQUENCE_MODULUS
    ensures var n := |Built(sim, AttemptsFor(sim, tc, plan, start))|;
      n <= |plan| && (n == |plan| <==> plan == [] || start + |plan| <= SEQUENCE_MODULUS)
    decreases |plan|
  {
    if plan != [] {
      BuiltCount(sim, tc, plan[1..], start + 1);
      var all := AttemptsFor(sim, tc, plan, start);
      assert all[1..] == AttemptsFor(sim, tc, plan[1..], start + 1);
      assert all[0].sequence == start;
    }
  }
}
