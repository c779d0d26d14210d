/** The single-producer single-consumer ring queue, one memory access per step. Each side loads
    its own index, then the other side's, then touches the slot, then publishes. The load of the
    other side's index may be stale: it returns any value that side has published since the
    value last seen. */
module Ring {

  datatype Producer<+T> =
    | NotPushing
    | HaveHead(item: T, h: nat)      // own index loaded
    | MayWrite(item: T, h: nat)      // found room
    | Written(item: T, h: nat)       // slot written, not yet published

  datatype Consumer<+T> =
    | NotPopping
    | HaveTail(t: nat)
    | MayRead(t: nat)
    | Taken(t: nat, item: T)

  // `pushed` and `popped` are the published pushes and pops; `seenPops` and `seenPushes` are how
  // many of them the other side has seen.
  datatype Ring<T> = Ring(buf: seq<T>, head: nat, tail: nat, producer: Producer<T>, consumer: Consumer<T>,
                          pushed: seq<T>, popped: seq<T>, seenPops: nat, seenPushes: nat)

  function Empty<T>(buf: seq<T>): Ring<T> {
    Ring(buf, 0, 0, NotPushing, NotPopping, [], [], 0, 0)
  }

  function Next(i: nat, n: nat): nat
    requires n > 0
  {
    (i + 1) % n
  }

  // The index published by the k-th advance of either side.
  function Slot(k: nat, n: nat): (r: nat)
    requires n > 0
    ensures r < n
  {
    if k == 0 then 0 else Next(Slot(k - 1, n), n)
  }

  datatype Act<+T> =
    | LoadHead(item: T)
    | SeeTail(pops: nat)
    | WriteSlot
    | PublishHead
    | LoadTail
    | SeeHead(pushes: nat)
    | ReadSlot
    | PublishTail

  predicate Can<T>(q: Ring<T>, a: Act<T>) {
    match a
    case LoadHead(_) => q.producer.NotPushing?
    case SeeTail(k) => q.producer.HaveHead? && q.seenPops <= k <= |q.popped|
    case WriteSlot => q.producer.MayWrite? && q.producer.h < |q.buf|
    case PublishHead => q.producer.Written?
    case LoadTail => q.consumer.NotPopping?
    case SeeHead(k) => q.consumer.HaveTail? && q.seenPushes <= k <= |q.pushed|
    case ReadSlot => q.consumer.MayRead? && q.consumer.t < |q.buf|
    case PublishTail => q.consumer.Taken?
  }

  function Do<T>(q: Ring<T>, a: Act<T>): Ring<T>
    requires |q.buf| > 0 && Can(q, a)
  {
    var n := |q.buf|;
    match a
    case LoadHead(x) => q.(producer := HaveHead(x, q.head))
    case SeeTail(k) =>
      var p := q.producer;
      q.(seenPops := k, producer := if Next(p.h, n) == Slot(k, n) then NotPushing else MayWrite(p.item, p.h))
    case WriteSlot =>
      q.(buf := q.buf[q.producer.h := q.producer.item], producer := Written(q.producer.item, q.producer.h))
    case PublishHead =>
      q.(head := Next(q.producer.h, n), pushed := q.pushed + [q.producer.item], producer := NotPushing)
    case LoadTail => q.(consumer := HaveTail(q.tail))
    case SeeHead(k) =>
      var t := q.consumer.t;
      q.(seenPushes := k, consumer := if t == Slot(k, n) then NotPopping else MayRead(t))
    case ReadSlot => q.(consumer := Taken(q.consumer.t, q.buf[q.consumer.t]))
    case PublishTail =>
      q.(tail := Next(q.consumer.t, n), popped := q.popped + [q.consumer.item], consumer := NotPopping)
  }

  /* Indices */

  lemma NextIs(i: nat, n: nat)
    requires i < n
    ensures Next(i, n) == if i + 1 == n then 0 else i + 1
  {
  }

  // Up to one lap ahead, the slot is found by wrapping once.
  lemma {:induction false} SlotAhead(a: nat, d: nat, n: nat)
    requires d <= n && n > 0
    ensures Slot(a + d, n) == if Slot(a, n) + d < n then Slot(a, n) + d else Slot(a, n) + d - n
    decreases d
  {
    if d > 0 {
      SlotAhead(a, d - 1, n);
      NextIs(Slot(a + d - 1, n), n);
    }
  }

  // Two counts less than a lap apart share a slot only if they are equal; a whole lap apart they do.
  lemma SlotsDiffer(a: nat, b: nat, n: nat)
    requires a <= b <= a + n && n > 0
    ensures Slot(a, n) == Slot(b, n) <==> a == b || b == a + n
  {
    SlotAhead(a, b - a, n);
  }

  /* The invariant */

  ghost predicate CountsOk<T>(q: Ring<T>)
    requires |q.buf| >= 2
  {
    && |q.popped| <= q.seenPushes <= |q.pushed|
    && q.seenPops <= |q.popped|
    && |q.pushed| - q.seenPops <= |q.buf| - 1
    && q.head == Slot(|q.pushed|, |q.buf|) && q.tail == Slot(|q.popped|, |q.buf|)
  }

  // What is between the two counts is in the buffer, and what left it left in order.
  ghost predicate SlotsOk<T>(q: Ring<T>)
    requires |q.buf| >= 2
  {
    && q.popped <= q.pushed
    && (forall i :: |q.popped| <= i < |q.pushed| ==> q.buf[Slot(i, |q.buf|)] == q.pushed[i])
  }

  ghost predicate ProducerOk<T>(q: Ring<T>) {
    match q.producer
    case NotPushing => true
    case HaveHead(_, h) => h == q.head
    case MayWrite(_, h) => h == q.head && |q.pushed| - q.seenPops < |q.buf| - 1
    case Written(x, h) => h == q.head && |q.pushed| - q.seenPops < |q.buf| - 1 && h < |q.buf| && q.buf[h] == x
  }

  ghost predicate ConsumerOk<T>(q: Ring<T>) {
    match q.consumer
    case NotPopping => true
    case HaveTail(t) => t == q.tail
    case MayRead(t) => t == q.tail && |q.popped| < q.seenPushes
    case Taken(t, x) => t == q.tail && |q.popped| < q.seenPushes <= |q.pushed| && x == q.pushed[|q.popped|]
  }

  ghost predicate RingOk<T>(q: Ring<T>) {
    |q.buf| >= 2 && CountsOk(q) && SlotsOk(q) && ProducerOk(q) && ConsumerOk(q)
  }

  // The items in the queue, oldest first.
  function Contents<T>(q: Ring<T>): seq<T> {
    if |q.popped| <= |q.pushed| then q.pushed[|q.popped|..] else []
  }

  lemma EmptyOk<T>(buf: seq<T>)
    requires |buf| >= 2
    ensures RingOk(Empty(buf))
  {
  }

  lemma WriteKeepsSlots<T>(q: Ring<T>)
    requires RingOk(q) && q.producer.MayWrite?
    ensures SlotsOk(Do(q, WriteSlot)) && ConsumerOk(Do(q, WriteSlot))
  {
    var n, c, p := |q.buf|, |q.popped|, |q.pushed|;
    forall i | c <= i < p ensures Slot(i, n) != q.producer.h {
      SlotsDiffer(i, p, n);
    }
  }

  lemma PublishHeadOk<T>(q: Ring<T>)
    requires RingOk(q) && q.producer.Written?
    ensures RingOk(Do(q, PublishHead))
  {
  }

  lemma PublishTailOk<T>(q: Ring<T>)
    requires RingOk(q) && q.consumer.Taken?
    ensures RingOk(Do(q, PublishTail))
  {
    assert q.popped + [q.consumer.item] <= q.pushed;
  }

  lemma PushContents<T>(q: Ring<T>)
    requires RingOk(q) && q.producer.Written?
    ensures Contents(Do(q, PublishHead)) == Contents(q) + [q.producer.item]
  {
  }

  lemma PopContents<T>(q: Ring<T>)
    requires RingOk(q) && q.consumer.Taken?
    ensures [q.consumer.item] + Contents(Do(q, PublishTail)) == Contents(q)
  {
  }

  // A push is refused exactly when the queue is full as far as the producer can see.
  lemma SeeTailMeaning<T>(q: Ring<T>, k: nat)
    requires RingOk(q) && Can(q, SeeTail(k))
    ensures Do(q, SeeTail(k)).producer.NotPushing? <==> |q.pushed| - k == |q.buf| - 1
    ensures RingOk(Do(q, SeeTail(k)))
  {
    var p := |q.pushed|;
    assert Next(q.producer.h, |q.buf|) == Slot(p + 1, |q.buf|);
    SlotsDiffer(k, p + 1, |q.buf|);
  }

  // A pop is refused exactly when the queue is empty as far as the consumer can see.
  lemma SeeHeadMeaning<T>(q: Ring<T>, k: nat)
    requires RingOk(q) && Can(q, SeeHead(k))
    ensures Do(q, SeeHead(k)).consumer.NotPopping? <==> k == |q.popped|
    ensures RingOk(Do(q, SeeHead(k)))
  {
    SlotsDiffer(|q.popped|, k, |q.buf|);
  }

  lemma DoOk<T>(q: Ring<T>, a: Act<T>)
    requires RingOk(q) && Can(q, a)
    ensures RingOk(Do(q, a)) && |Do(q, a).buf| == |q.buf|
  {
    match a {
      case SeeTail(k) => SeeTailMeaning(q, k);
      case WriteSlot => WriteKeepsSlots(q);
      case PublishHead => PublishHeadOk(q);
      case SeeHead(k) => SeeHeadMeaning(q, k);
      case PublishTail => PublishTailOk(q);
      case _ =>
    }
  }

  predicate CanAll<T>(q: Ring<T>, acts: seq<Act<T>>)
    decreases |acts|
  {
    acts == [] || (|q.buf| > 0 && Can(q, acts[0]) && CanAll(Do(q, acts[0]), acts[1..]))
  }

  function DoAll<T>(q: Ring<T>, acts: seq<Act<T>>): Ring<T>
    requires CanAll(q, acts)
    decreases |acts|
  {
    if acts == [] then q else DoAll(Do(q, acts[0]), acts[1..])
  }

  // Linearizable under every interleaving and every stale load: the published pops followed by the
  // contents are the published pushes, at most n - 1 items are held, and each is in its slot.
  lemma {:induction false} QueueAlways<T>(q: Ring<T>, acts: seq<Act<T>>)
    requires RingOk(q) && CanAll(q, acts)
    ensures var r := DoAll(q, acts);
      && RingOk(r) && |r.buf| == |q.buf| > 0
      && r.popped + Contents(r) == r.pushed
      && |Contents(r)| <= |r.buf| - 1
      && InSlots(r)
    decreases |acts|
  {
    hide RingOk, Contents, InSlots, Do, Can;
    if acts == [] {
      ContentsOk(q);
    } else {
      DoOk(q, acts[0]);
      QueueAlways(Do(q, acts[0]), acts[1..]);
    }
  }

  ghost predicate InSlots<T>(q: Ring<T>)
    requires |q.buf| > 0
  {
    forall i :: 0 <= i < |Contents(q)| ==> q.buf[Slot(|q.popped| + i, |q.buf|)] == Contents(q)[i]
  }

  lemma ContentsOk<T>(q: Ring<T>)
    requires RingOk(q)
    ensures q.popped + Contents(q) == q.pushed && |Contents(q)| <= |q.buf| - 1 && InSlots(q)
  {
    forall i | 0 <= i < |Contents(q)| ensures q.buf[Slot(|q.popped| + i, |q.buf|)] == Contents(q)[i] {
      assert Contents(q)[i] == q.pushed[|q.popped| + i];
    }
  }

  // The two sides are never at the same slot.
  lemma NeverTheSameSlot<T>(q: Ring<T>)
    requires RingOk(q)
    requires q.producer.MayWrite? || q.producer.Written?
    requires q.consumer.MayRead? || q.consumer.Taken?
    ensures q.producer.h != q.consumer.t
  {
    SlotsDiffer(|q.popped|, |q.pushed|, |q.buf|);
  }
}
