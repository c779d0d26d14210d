/** The ring queue as an object. A try that nobody interrupts is one burst of the atomic steps,
    with fresh loads. */
module Queues {
  import opened Ring

  ghost function PushBurst<T>(q: Ring<T>, x: T): Ring<T>
    requires RingOk(q) && q.producer.NotPushing?
  {
    DoOk(q, LoadHead(x));
    var q1 := Do(q, LoadHead(x));
    DoOk(q1, SeeTail(|q.popped|));
    var q2 := Do(q1, SeeTail(|q.popped|));
    if q2.producer.NotPushing? then q2
    else
      DoOk(q2, WriteSlot);
      Do(Do(q2, WriteSlot), PublishHead)
  }

  ghost function PopBurst<T>(q: Ring<T>): Ring<T>
    requires RingOk(q) && q.consumer.NotPopping?
  {
    DoOk(q, LoadTail);
    var q1 := Do(q, LoadTail);
    DoOk(q1, SeeHead(|q.pushed|));
    var q2 := Do(q1, SeeHead(|q.pushed|));
    if q2.consumer.NotPopping? then q2
    else
      DoOk(q2, ReadSlot);
      Do(Do(q2, ReadSlot), PublishTail)
  }

  // An undisturbed push fails exactly on a full queue; otherwise it appends.
  lemma PushBurstMeaning<T>(q: Ring<T>, x: T)
    requires RingOk(q) && q.producer.NotPushing?
    ensures var r, ok := PushBurst(q, x), |Contents(q)| < |q.buf| - 1;
      && RingOk(r) && (ok <==> Next(q.head, |q.buf|) != q.tail)
      && r == (if ok then q.(buf := q.buf[q.head := x], head := Next(q.head, |q.buf|), pushed := q.pushed + [x])
               else q).(seenPops := |q.popped|)
      && Contents(r) == if ok then Contents(q) + [x] else Contents(q)
  {
    var q1 := Do(q, LoadHead(x));
    DoOk(q, LoadHead(x));
    SeeTailMeaning(q1, |q.popped|);
    var q2 := Do(q1, SeeTail(|q.popped|));
    if !q2.producer.NotPushing? {
      DoOk(q2, WriteSlot);
      var q3 := Do(q2, WriteSlot);
      PushContents(q3);
      DoOk(q3, PublishHead);
      hide RingOk, Contents;
    }
  }

  // An undisturbed pop fails exactly on an empty queue; otherwise it takes the oldest item.
  lemma PopBurstMeaning<T>(q: Ring<T>)
    requires RingOk(q) && q.consumer.NotPopping?
    ensures var r, ok := PopBurst(q), Contents(q) != [];
      && RingOk(r) && (ok <==> q.tail != q.head) && q.tail < |q.buf|
      && r == (if ok then q.(tail := Next(q.tail, |q.buf|), popped := q.popped + [q.buf[q.tail]])
               else q).(seenPushes := |q.pushed|)
      && (if ok then [q.buf[q.tail]] + Contents(r) == Contents(q) else Contents(r) == [])
  {
    var q1 := Do(q, LoadTail);
    DoOk(q, LoadTail);
    SeeHeadMeaning(q1, |q.pushed|);
    var q2 := Do(q1, SeeHead(|q.pushed|));
    if !q2.consumer.NotPopping? {
      DoOk(q2, ReadSlot);
      var q3 := Do(q2, ReadSlot);
      PopContents(q3);
      DoOk(q3, PublishTail);
    }
  }

  class RingQueue<T(0)> {
    const buf: array<T>
    var head: nat
    var tail: nat
    ghost var pushed: seq<T>
    ghost var popped: seq<T>
    ghost var seenPops: nat
    ghost var seenPushes: nat

    ghost function View(): Ring<T>
      reads this, buf
    {
      Ring(buf[..], head, tail, NotPushing, NotPopping, pushed, popped, seenPops, seenPushes)
    }

    ghost predicate Valid()
      reads this, buf
    {
      RingOk(View())
    }

    constructor (n: nat)
      requires n >= 2
      ensures Valid() && fresh(buf) && buf.Length == n && Contents(View()) == []
    {
      buf := new T[n];
      head, tail := 0, 0;
      pushed, popped, seenPops, seenPushes := [], [], 0, 0;
    }

    method TryPush(v: T) returns (ok: bool)
      requires Valid()
      modifies this, buf
      ensures Valid() && View() == PushBurst(old(View()), v)
      ensures ok <==> |old(Contents(View()))| < buf.Length - 1
      ensures Contents(View()) == if ok then old(Contents(View())) + [v] else old(Contents(View()))
    {
      ghost var q := View();
      assert buf.Length >= 2 && head < buf.Length;
      hide RingOk, PushBurst, Contents, Next;
      PushBurstMeaning(q, v);
      var h := head;
      var t := tail;
      seenPops := |popped|;
      if Next(h, buf.Length) == t { return false; }
      buf[h] := v;
      head := Next(h, buf.Length);
      pushed := pushed + [v];
      assert buf[..] == q.buf[h := v];
      return true;
    }

    method TryPop() returns (out: Popped<T>)
      requires Valid()
      modifies this
      ensures Valid() && View() == PopBurst(old(View()))
      ensures out.Nothing? <==> old(Contents(View())) == []
      ensures if out.Item? then [out.item] + Contents(View()) == old(Contents(View())) else Contents(View()) == []
    {
      ghost var q := View();
      assert buf.Length >= 2;
      hide RingOk, PopBurst, Contents, Next;
      PopBurstMeaning(q);
      var t := tail;
      var h := head;
      seenPushes := |pushed|;
      if t == h { return Nothing; }
      var x := buf[t];
      tail := Next(t, buf.Length);
      popped := popped + [x];
      return Item(x);
    }
  }

  datatype Popped<+T> = Nothing | Item(item: T)
}
