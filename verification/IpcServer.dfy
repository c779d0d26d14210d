/** Client sessions and the server that greets them and tells them things. */
module Ipc {
  import opened Bytes
  import opened Incremental
  import opened IpcCodec
  import opened Router

  class IpcSession {
    var rxbuf: bytes
    var sent: seq<Notice>   // frames handed to this session's socket, in order

    ghost function View(): Client
      reads this
    {
      Client(rxbuf, sent)
    }

    constructor ()
      ensures rxbuf == [] && sent == []
    {
      rxbuf, sent := [], [];
    }

    // The greeting.
    method Start()
      modifies this
      ensures View() == Tell(old(View()), Hello)
    {
      Send(Hello);
    }

    method Send(n: Notice)
      modifies this
      ensures View() == Tell(old(View()), n)
    {
      sent := sent + [n];
    }

    method TryDecode() returns (out: Option<Frame>)
      requires !DecodeOne(rxbuf).Overrun?
      modifies `rxbuf
      ensures match DecodeOne(old(rxbuf))
        case Got(f, n) => out == Some(f) && rxbuf == old(rxbuf)[n..]
        case _ => out == None && rxbuf == old(rxbuf)
    {
      if |rxbuf| < 4 { return None; }
      var length := Number(rxbuf[..4]);
      if length < 2 { return None; }
      if |rxbuf| < (4 + length) % TWO_32 { return None; }
      out := Some(Frame(KindOf(rxbuf[4..6]), rxbuf[6..4 + length]));
      rxbuf := rxbuf[4 + length..];
    }

    // The completion of one read: returns the frames given to the handler, in order.
    method OnRead(chunk: bytes) returns (handled: seq<Frame>)
      requires !DecodeOne(Frames(rxbuf + chunk).rest).Overrun?
      modifies `rxbuf
      ensures handled == Handled(Frames(old(rxbuf) + chunk).items)
      ensures rxbuf == Frames(old(rxbuf) + chunk).rest
    {
      rxbuf := rxbuf + chunk;
      handled := [];
      ghost var whole, done := Frames(rxbuf), [];
      FramesStep(rxbuf);
      hide Frames, Scan, DecodeOne, IsHandled;
      var next := TryDecode();
      while next.Some?
        invariant whole == Then(Parsed(done + (if next.Some? then [next.value] else []), 0, []), Frames(rxbuf))
        invariant handled == Handled(done)
        invariant !DecodeOne(Frames(rxbuf).rest).Overrun?
        invariant next.None? ==> Frames(rxbuf) == Parsed([], 0, rxbuf)
        decreases |rxbuf| + (if next.Some? then 1 else 0)
      {
        var f := next.value;
        HandledAppend(done, [f]);
        assert Handled([f]) == if IsHandled(f) then [f] else [];
        done := done + [f];
        if IsHandled(f) {
          handled := handled + [f];
        }
        FramesStep(rxbuf);
        next := TryDecode();
      }
      assert done + [] == done;
    }
  }

  ghost predicate Distinct<T>(s: seq<T>) {
    forall i, j :: 0 <= i < j < |s| ==> s[i] != s[j]
  }

  class IpcServer {
    var sessions: seq<IpcSession>   // weak references
    var live: set<IpcSession>       // sessions somebody still holds

    // Every live session is listed once; dead ones may be listed too.
    ghost predicate Valid()
      reads this
    {
      Distinct(sessions) && forall s :: s in live ==> s in sessions
    }

    ghost function Clients(): map<IpcSession, Client>
      reads this, live
    {
      map s | s in live :: s.View()
    }

    constructor ()
      ensures Valid() && live == {}
    {
      sessions, live := [], {};
    }

    method Accept() returns (s: IpcSession)
      requires Valid()
      modifies this
      ensures Valid() && fresh(s) && live == old(live) + {s}
      ensures s.View() == Client([], [Hello])
    {
      s := new IpcSession();
      sessions := sessions + [s];
      live := live + {s};
      s.Start();
    }

    method Release(s: IpcSession)
      requires Valid()
      modifies `live
      ensures Valid() && live == old(live) - {s}
    {
      live := live - {s};
    }

    // Tells every live session once and forgets the dead ones.
    method Broadcast(n: Notice)
      requires Valid()
      modifies `sessions, live
      ensures Valid() && forall s :: s in live ==> s.View() == Tell(old(s.View()), n)
      ensures forall s :: s in sessions <==> s in live
    {
      var i := 0;
      while i < |sessions|
        invariant 0 <= i <= |sessions|
        invariant Valid()
        invariant forall k :: 0 <= k < i ==> sessions[k] in live
        invariant forall s :: s in live ==>
          s.View() == if s in sessions[..i] then Tell(old(s.View()), n) else old(s.View())
        decreases |sessions| - i
      {
        var s := sessions[i];
        if s in live {
          s.Send(n);
          i := i + 1;
        } else {
          DistinctWithout(sessions, i);
          sessions := sessions[..i] + sessions[i + 1..];
        }
      }
    }
  }

  lemma DistinctWithout<T>(s: seq<T>, i: nat)
    requires Distinct(s) && i < |s|
    ensures var r := s[..i] + s[i + 1..];
      Distinct(r) && r[..i] == s[..i] && forall x :: x in s && x != s[i] ==> x in r
  {
  }
}
