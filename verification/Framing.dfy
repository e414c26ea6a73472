/** Length-prefixed messages over a byte stream: chunked sends, and receives that may return any part of a chunk. */
module Framing {
  import opened Packages

  type Byte = n: int | 0 <= n < 256

  type Message = seq<Byte>

  const BUFFER_SIZE := 1024

  /** Lengths are kept in an `int`. */
  const LIMIT := 0x8000_0000

  /** What the receive functions return when a read fails. */
  const DISCONNECT: Message := [68, 105, 115, 99, 111, 110, 110, 101, 99, 116]

  /** A 32-bit length in network byte order. */
  function Header(n: nat): (h: seq<Byte>)
    ensures |h| == 4
  {
    [n / 0x100_0000 % 256, n / 0x1_0000 % 256, n / 0x100 % 256, n % 256]
  }

  function HeaderValue(h: seq<Byte>): nat
    requires |h| == 4
  {
    (h[0] as int) * 0x100_0000 + (h[1] as int) * 0x1_0000 + (h[2] as int) * 0x100 + (h[3] as int)
  }

  lemma HeaderRoundTrip(n: nat)
    requires n < 0x1_0000_0000
    ensures HeaderValue(Header(n)) == n
  {
    var a, b, c := n / 0x100, n / 0x1_0000, n / 0x100_0000;
    assert a / 0x100 == b && b / 0x100 == c && c % 256 == c;
    assert n == a * 0x100 + n % 256 && a == b * 0x100 + a % 256 && b == c * 0x100 + b % 256;
  }

  /** Network byte order: eight more bits are appended, and the oldest eight drop out. */
  lemma NetworkOrder(n: nat, low: nat)
    requires n < 0x1_0000_0000 && low < 256
    ensures Header(n * 256 + low) == Header(n)[1..] + [low] && Header(0) == [0, 0, 0, 0]
  {
    var m := n * 256 + low;
    assert m / 0x100 == n && m % 256 == low;
    assert m / 0x1_0000 == n / 0x100 && m / 0x100_0000 == n / 0x1_0000;
  }

  function Frame(m: Message): seq<Byte> {
    Header(|m|) + m
  }

  function Frames(ms: seq<Message>): seq<Byte> {
    if ms == [] then [] else Frame(ms[0]) + Frames(ms[1..])
  }

  /** The first message of a stream and what follows it, if the stream holds all of it. */
  function Decode(wire: seq<Byte>): Option<(Message, seq<Byte>)> {
    if |wire| < 4 then None
    else
      var n := HeaderValue(wire[..4]);
      if |wire| < 4 + n then None else Some((wire[4..4 + n], wire[4 + n..]))
  }

  lemma DecodeFrame(m: Message, rest: seq<Byte>)
    requires |m| < LIMIT
    ensures Decode(Frame(m) + rest) == Some((m, rest))
    ensures |Frame(m) + rest| >= 4 && HeaderValue((Frame(m) + rest)[..4]) == |m|
  {
    var wire := Frame(m) + rest;
    HeaderRoundTrip(|m|);
    assert wire[..4] == Header(|m|);
    assert wire[4..4 + |m|] == m && wire[4 + |m|..] == rest;
  }

  /** The messages before the first one that reads like the disconnect sentinel. */
  function BeforeSentinel(ms: seq<Message>): seq<Message> {
    if ms == [] || ms[0] == DISCONNECT then [] else [ms[0]] + BeforeSentinel(ms[1..])
  }

  /** Nothing is lost exactly when no message is the sentinel. */
  lemma {:induction false} SentinelExactly(ms: seq<Message>)
    ensures BeforeSentinel(ms) == ms <==> DISCONNECT !in ms
  {
    if ms != [] {
      SentinelExactly(ms[1..]);
      assert ms == [ms[0]] + ms[1..];
      if ms[0] != DISCONNECT && BeforeSentinel(ms) == ms {
        assert BeforeSentinel(ms)[1..] == BeforeSentinel(ms[1..]);
      }
    }
  }

  /** The bytes of an ASCII text. */
  function Bytes(text: string): Message
    requires forall i | 0 <= i < |text| :: text[i] < 128 as char
  {
    seq(|text|, i requires 0 <= i < |text| => text[i] as int)
  }

  /** The first message that reads "Disconnect" cuts off the rest, and nothing else does. */
  lemma {:induction false} CutAtSentinel(a: seq<Message>, b: seq<Message>)
    requires Bytes("Disconnect") !in a
    ensures BeforeSentinel(a + [Bytes("Disconnect")] + b) == a && BeforeSentinel(a) == a
  {
    assert Bytes("Disconnect") == DISCONNECT;
    var all := a + [DISCONNECT] + b;
    if a != [] {
      assert all[1..] == a[1..] + [DISCONNECT] + b;
      CutAtSentinel(a[1..], b);
    }
  }

  class Socket {
    /** Bytes sent and not yet received. */
    var wire: seq<Byte>

    constructor ()
      ensures wire == []
    {
      wire := [];
    }

    method Send(bytes: seq<Byte>)
      modifies this
      ensures wire == old(wire) + bytes
    {
      wire := wire + bytes;
    }

    /** Returns any non-empty part of what is there, up to `max` bytes; all of it if the read is not `split`. */
    method Recv(max: nat, split: bool) returns (bytes: seq<Byte>)
      modifies this
      ensures bytes + wire == old(wire) && |bytes| <= max
      ensures max > 0 && old(wire) != [] ==> bytes != []
      ensures !split && max <= |old(wire)| ==> |bytes| == max
    {
      var most := if max < |wire| then max else |wire|;
      var n := most;
      if split && most > 0 {
        n :| 1 <= n <= most;
      }
      bytes, wire := wire[..n], wire[n..];
    }

    /** `send_message`: the length, then the message in chunks of at most `BUFFER_SIZE` bytes. */
    method SendMessage(message: Message)
      requires |message| < LIMIT
      modifies this
      ensures wire == old(wire) + Frame(message)
    {
      Send(Header(|message|));
      var bytesSent := 0;
      while bytesSent < |message|
        invariant 0 <= bytesSent <= |message|
        invariant wire == old(wire) + Header(|message|) + message[..bytesSent]
      {
        var remaining := |message| - bytesSent;
        var bytesToSend := if BUFFER_SIZE < remaining then BUFFER_SIZE else remaining;
        Send(message[bytesSent..bytesSent + bytesToSend]);
        assert message[..bytesSent] + message[bytesSent..bytesSent + bytesToSend] == message[..bytesSent + bytesToSend];
        bytesSent := bytesSent + bytesToSend;
      }
      assert message[..|message|] == message;
    }

    /** `receive_message`: the header must arrive in one read; the payload may arrive in any pieces. */
    method ReceiveMessage(headerSplit: bool) returns (message: Message)
      requires |wire| >= 4 ==> HeaderValue(wire[..4]) < LIMIT
      modifies this
      ensures message == DISCONNECT || Decode(old(wire)) == Some((message, wire))
      ensures !headerSplit && Decode(old(wire)).Some? ==> Decode(old(wire)) == Some((message, wire))
      ensures old(wire) != [] ==> |wire| < |old(wire)|
      ensures old(wire) == [] ==> message == DISCONNECT && wire == []
    {
      ghost var was := wire;
      var header := Recv(4, headerSplit);
      if |header| != 4 {
        return DISCONNECT;
      }
      assert was[..4] == header && was[4..] == wire;
      var messageLength := HeaderValue(header);
      message := [];
      while |message| < messageLength
        invariant |message| <= messageLength
        invariant header + message + wire == was
        decreases messageLength - |message|
      {
        var wanted := messageLength - |message|;
        var chunk := Recv(if BUFFER_SIZE < wanted then BUFFER_SIZE else wanted, true);
        if chunk == [] {
          assert Decode(was).None?;
          return DISCONNECT;
        }
        assert header + (message + chunk) + wire == header + message + (chunk + wire);
        message := message + chunk;
      }
      assert was[4..4 + messageLength] == message && was[4 + messageLength..] == wire;
    }

    /**
     The reader loops: it queues messages until the sentinel, which sets the kill flag and is queued as well. The queue
     gets what was sent, whatever the fragmentation.
     */
    method ReceiveLoop(ghost ms: seq<Message>) returns (messageQueue: seq<Message>)
      requires wire == Frames(ms) && forall m | m in ms :: |m| < LIMIT
      modifies this
      ensures messageQueue == BeforeSentinel(ms) + [DISCONNECT]
    {
      messageQueue := [];
      var killFlag := false;
      ghost var left := ms;
      while !killFlag
        invariant wire == Frames(left) && forall m | m in left :: |m| < LIMIT
        invariant BeforeSentinel(ms) + [DISCONNECT]
               == messageQueue + if killFlag then [] else BeforeSentinel(left) + [DISCONNECT]
        decreases !killFlag, |wire|
      {
        ghost var queued, after := messageQueue, left[if left == [] then 0 else 1..];
        if left != [] {
          DecodeFrame(left[0], Frames(after));
        }
        var message := ReceiveMessage(false);
        if message == DISCONNECT {
          killFlag := true;
        }
        messageQueue := messageQueue + [message];
        if !killFlag {
          assert queued + (([message] + BeforeSentinel(after)) + [DISCONNECT])
              == (queued + [message]) + (BeforeSentinel(after) + [DISCONNECT]);
        }
        left := after;
      }
      assert messageQueue + [] == messageQueue;
    }
  }
}
