/** A byte-stream scanner that is fed in pieces. `scan` looks at the unread octets and either
    waits for more, drops some, or emits an item and consumes its octets. The framer and the
    IPC decoder are both of this shape. */
module Incremental {
  import opened Bytes

  datatype Action<+T> = Wait | Drop(width: nat) | Emit(item: T, width: nat)

  datatype Parsed<+T> = Parsed(items: seq<T>, drops: nat, rest: bytes)

  // Every action consumes something that is there, ...
  ghost predicate Consumes<T>(scan: bytes -> Action<T>, s: bytes) {
    scan(s).Wait? || 0 < scan(s).width <= |s|
  }

  // ... and octets that arrive later never change an action that is already possible.
  ghost predicate Stable<T>(scan: bytes -> Action<T>, s: bytes, t: bytes) {
    !scan(s).Wait? ==> scan(s + t) == scan(s)
  }

  ghost predicate Lawful<T(!new)>(scan: bytes -> Action<T>) {
    && (forall s :: Consumes(scan, s))
    && (forall s, t :: Stable(scan, s, t))
  }

  // The whole-stream reference.
  ghost function Parse<T(!new)>(scan: bytes -> Action<T>, s: bytes): Parsed<T>
    requires Lawful(scan)
    decreases |s|
  {
    assert Consumes(scan, s);
    match scan(s)
    case Wait => Parsed([], 0, s)
    case Drop(n) => var p := Parse(scan, s[n..]); p.(drops := p.drops + n)
    case Emit(x, n) => var p := Parse(scan, s[n..]); p.(items := [x] + p.items)
  }

  ghost function Then<T(!new)>(p: Parsed<T>, q: Parsed<T>): Parsed<T> {
    Parsed(p.items + q.items, p.drops + q.drops, q.rest)
  }

  ghost function Feed<T(!new)>(scan: bytes -> Action<T>, p: Parsed<T>, chunk: bytes): Parsed<T>
    requires Lawful(scan)
  {
    Then(p, Parse(scan, p.rest + chunk))
  }

  ghost function FeedAll<T(!new)>(scan: bytes -> Action<T>, p: Parsed<T>, chunks: seq<bytes>): Parsed<T>
    requires Lawful(scan)
    decreases |chunks|
  {
    if chunks == [] then p else FeedAll(scan, Feed(scan, p, chunks[0]), chunks[1..])
  }

  lemma {:induction false} RestWaits<T(!new)>(scan: bytes -> Action<T>, s: bytes)
    requires Lawful(scan)
    ensures scan(Parse(scan, s).rest).Wait?
    decreases |s|
  {
    assert Consumes(scan, s);
    if !scan(s).Wait? {
      RestWaits(scan, s[scan(s).width..]);
    }
  }

  lemma WaitingIsRest<T(!new)>(scan: bytes -> Action<T>, s: bytes)
    requires Lawful(scan) && scan(s).Wait?
    ensures Parse(scan, s) == Parsed([], 0, s)
  {
  }

  // Reading a stream in two pieces is reading it in one.
  lemma {:induction false} ParseSplit<T(!new)>(scan: bytes -> Action<T>, s: bytes, t: bytes)
    requires Lawful(scan)
    ensures Parse(scan, s + t) == Then(Parse(scan, s), Parse(scan, Parse(scan, s).rest + t))
    decreases |s|
  {
    assert Consumes(scan, s) && Stable(scan, s, t);
    if scan(s).Wait? {
      assert Then(Parse(scan, s), Parse(scan, s + t)) == Parse(scan, s + t);
    } else {
      var n := scan(s).width;
      assert (s + t)[n..] == s[n..] + t;
      hide Lawful;
      ParseSplit(scan, s[n..], t);
    }
  }

  // Any partition of a stream into pieces gives the items, drops and residue of the whole.
  lemma {:induction false} ChunkingInvariance<T(!new)>(scan: bytes -> Action<T>, s: bytes, chunks: seq<bytes>)
    requires Lawful(scan)
    ensures FeedAll(scan, Parse(scan, s), chunks) == Parse(scan, s + Concat(chunks))
    decreases |chunks|
  {
    hide Parse, Lawful;
    if chunks == [] {
      assert s + Concat(chunks) == s;
    } else {
      ParseSplit(scan, s, chunks[0]);
      ChunkingInvariance(scan, s + chunks[0], chunks[1..]);
      Regrouped(s, chunks[0], Concat(chunks[1..]));
    }
  }

  // What a prefix of the stream produced is never taken back.
  lemma ItemsGrow<T(!new)>(scan: bytes -> Action<T>, s: bytes, t: bytes)
    requires Lawful(scan)
    ensures Parse(scan, s).items <= Parse(scan, s + t).items
    ensures Parse(scan, s).drops <= Parse(scan, s + t).drops
  {
    ParseSplit(scan, s, t);
  }
}
