/** Length-prefixed frames: the writer, and the reader that reassembles them from a
    bounded receive queue. */
module Framing {
  import opened Bytes
  import opened Wrappers

  const MAX_MESSAGE_SIZE: nat := 510

  /** What the length prefix can express. */
  type Body = b: bytes | |b| < 65536

  function Length(hi: byte, lo: byte): nat { 256 * (hi as int) + lo }

  function Frame(body: Body): (r: bytes)
    ensures |r| == 2 + |body| && r[2..] == body && Length(r[0], r[1]) == |body|
  {
    [|body| / 256, |body| % 256] + body
  }

  /** `encode`: the prefix, then the body. Longer bodies fail an assertion. */
  method Encode(body: bytes) returns (buf: bytes)
    requires |body| < 65536
    ensures buf == Frame(body)
  {
    buf := [];
    buf := buf + ToBe(|body|, 2);
    buf := buf + body;
    TwoBytes(|body|);
  }

  lemma {:induction false} TwoBytes(n: nat)
    requires n < 65536
    ensures ToBe(n, 2) == [n / 256, n % 256]
  {
    assert ToBe(n / 256, 1) == ToBe(n / 65536, 0) + [n / 256 % 256];
  }

  function Frames(bodies: seq<Body>): bytes {
    if bodies == [] then [] else Frame(bodies[0]) + Frames(bodies[1..])
  }

  // ----- The reader -----

  datatype Polled = NotYet | TooLarge(size: nat) | Message(body: bytes, rest: bytes)

  /** One poll of a queue with room for `capacity` bytes. */
  function Poll(capacity: nat, queue: bytes): Polled {
    if |queue| < 2 then NotYet
    else
      var size := 2 + Length(queue[0], queue[1]);
      if size > capacity then TooLarge(size)
      else if |queue| < size then NotYet
      else Message(queue[2..size], queue[size..])
  }

  function Min(a: nat, b: nat): nat { if a < b then a else b }

  /** The receiving half of a TCP socket. */
  class Socket {
    const capacity: nat
    var queue: bytes

    constructor (capacity: nat)
      ensures this.capacity == capacity && queue == []
    {
      this.capacity := capacity;
      queue := [];
    }

    method PeekSlice(buf: array<byte>) returns (n: nat)
      modifies buf
      ensures n == Min(buf.Length, |queue|) && buf[..n] == queue[..n]
    {
      n := Min(buf.Length, |queue|);
      for k := 0 to n
        invariant buf[..k] == queue[..k]
      {
        buf[k] := queue[k];
      }
    }

    /** Drops up to `max` bytes. */
    method Discard(max: nat) returns (n: nat)
      modifies this
      ensures n == Min(max, |old(queue)|) && queue == old(queue)[n..]
    {
      n := Min(max, |queue|);
      queue := queue[n..];
    }

    /** Moves up to `len` bytes to the front of `buf`. */
    method RecvSlice(buf: array<byte>, len: nat) returns (n: nat)
      requires len <= buf.Length
      modifies this, buf
      ensures n == Min(len, |old(queue)|) && buf[..n] == old(queue)[..n] && queue == old(queue)[n..]
    {
      n := Min(len, |queue|);
      for k := 0 to n
        invariant queue == old(queue) && buf[..k] == queue[..k]
      {
        buf[k] := queue[k];
      }
      queue := queue[n..];
    }
  }

  lemma SkipPrefix(queue: bytes, length: nat)
    requires 2 + length <= |queue|
    ensures queue[2..][..length] == queue[2..2 + length] && queue[2..][length..] == queue[2 + length..]
  {
  }

  /** `try_recv`: nothing is dequeued unless the whole frame is there, and the local
      buffer is long enough for every frame that fits the queue. */
  method TryRecv(socket: Socket) returns (r: Result<Option<bytes>, nat>)
    requires socket.capacity <= MAX_MESSAGE_SIZE + 2
    modifies socket
    ensures match Poll(socket.capacity, old(socket.queue))
            case NotYet => r == Ok(None) && socket.queue == old(socket.queue)
            case TooLarge(size) => r == Err(size) && socket.queue == old(socket.queue)
            case Message(body, rest) => r == Ok(Some(body)) && socket.queue == rest
  {
    if |socket.queue| < 2 {
      return Ok(None);
    }
    var prefix := new byte[2];
    var peeked := socket.PeekSlice(prefix);
    assert prefix[0] == prefix[..2][0] && prefix[1] == prefix[..2][1];
    var length := Length(prefix[0], prefix[1]);
    if 2 + length > socket.capacity {
      return Err(2 + length);
    }
    if |socket.queue| < 2 + length {
      return Ok(None);
    }
    var dropped := socket.Discard(2);
    var buf := new byte[MAX_MESSAGE_SIZE];
    var got := socket.RecvSlice(buf, length);
    SkipPrefix(old(socket.queue), length);
    r := Ok(Some(buf[..length]));
  }

  // ----- A connection -----

  /** Bytes received and not yet read, bytes on their way, bodies handed out so far,
      and the error of the last poll. */
  datatype Connection = Connection(queue: bytes, flight: bytes, out: seq<bytes>, failed: Option<nat>)

  datatype Event = Deliver(n: nat) | PollOnce

  /** Delivery stops when the queue is full or nothing is on its way. */
  function Arriving(capacity: nat, c: Connection, n: nat): nat {
    if |c.queue| <= capacity then Min(n, Min(|c.flight|, capacity - |c.queue|)) else 0
  }

  function Next(capacity: nat, c: Connection, ev: Event): Connection {
    match ev
    case Deliver(n) =>
      var k := Arriving(capacity, c, n);
      c.(queue := c.queue + c.flight[..k], flight := c.flight[k..])
    case PollOnce =>
      match Poll(capacity, c.queue)
      case NotYet => c.(failed := None)
      case TooLarge(size) => c.(failed := Some(size))
      case Message(body, rest) => c.(queue := rest, out := c.out + [body], failed := None)
  }

  function Run(capacity: nat, c: Connection, evs: seq<Event>): Connection
    decreases evs
  {
    if evs == [] then c else Run(capacity, Next(capacity, c, evs[0]), evs[1..])
  }

  function Start(bodies: seq<Body>): Connection {
    Connection([], Frames(bodies), [], None)
  }

  /** The bodies handed out so far are the first ones, and the bytes in the queue
      and on their way are exactly the frames of the others. */
  ghost predicate Inv(capacity: nat, bodies: seq<Body>, c: Connection) {
    && |c.out| <= |bodies| && c.out == bodies[..|c.out|]
    && c.queue + c.flight == Frames(bodies[|c.out|..])
    && |c.queue| <= capacity
    && (c.failed.Some? ==>
          |c.out| < |bodies| && c.failed.value == 2 + |bodies[|c.out|]| && c.failed.value > capacity)
  }

  /** What a poll does when the next frame is that of `body`. */
  lemma {:induction false} PollNext(capacity: nat, queue: bytes, flight: bytes, body: Body, later: bytes)
    requires queue + flight == Frame(body) + later
    ensures Poll(capacity, queue) ==
            if |queue| < 2 then NotYet
            else if 2 + |body| > capacity then TooLarge(2 + |body|)
            else if |queue| < 2 + |body| then NotYet
            else Message(body, queue[2 + |body|..])
    ensures |queue| >= 2 + |body| ==> queue[2 + |body|..] + flight == later
  {
    var all, size := queue + flight, 2 + |body|;
    if |queue| >= 2 {
      assert all[0] == queue[0] && all[1] == queue[1];
      assert all[0] == Frame(body)[0] && all[1] == Frame(body)[1];
    }
    if |queue| >= size {
      assert queue[..size] == all[..size] == Frame(body);
      assert queue[2..size] == queue[..size][2..];
      assert queue[size..] + flight == all[size..] == later;
    }
  }

  lemma {:induction false} PollKeepsInv(capacity: nat, bodies: seq<Body>, c: Connection)
    requires Inv(capacity, bodies, c)
    ensures Inv(capacity, bodies, Next(capacity, c, PollOnce))
  {
    var k := |c.out|;
    if k < |bodies| {
      PollNext(capacity, c.queue, c.flight, bodies[k], Frames(bodies[k..][1..]));
      assert bodies[k..][1..] == bodies[k + 1..];
      assert bodies[..k + 1] == bodies[..k] + [bodies[k]];
    }
  }

  lemma {:induction false} DeliverKeepsInv(capacity: nat, bodies: seq<Body>, c: Connection, n: nat)
    requires Inv(capacity, bodies, c)
    ensures Inv(capacity, bodies, Next(capacity, c, Deliver(n)))
  {
    var k := Arriving(capacity, c, n);
    assert c.queue + c.flight == c.queue + c.flight[..k] + c.flight[k..];
  }

  lemma {:induction false} RunKeepsInv(capacity: nat, bodies: seq<Body>, c: Connection, evs: seq<Event>)
    requires Inv(capacity, bodies, c)
    ensures Inv(capacity, bodies, Run(capacity, c, evs))
    decreases evs
  {
    if evs != [] {
      match evs[0] {
        case Deliver(n) => DeliverKeepsInv(capacity, bodies, c, n);
        case PollOnce => PollKeepsInv(capacity, bodies, c);
      }
      RunKeepsInv(capacity, bodies, Next(capacity, c, evs[0]), evs[1..]);
    }
  }

  // ----- The theorems -----

  predicate Fits(capacity: nat, bodies: seq<Body>) {
    forall k :: 0 <= k < |bodies| ==> 2 + |bodies[k]| <= capacity
  }

  /** However the bytes are cut up and whenever the reader polls, it hands out the
      bodies in order and once each; it fails only on a body that does not fit, and
      only after all the bodies before that. */
  lemma {:induction false} InOrder(capacity: nat, bodies: seq<Body>, evs: seq<Event>)
    ensures var c := Run(capacity, Start(bodies), evs);
            && c.out <= bodies
            && (c.failed.Some? ==> |c.out| < |bodies| && 2 + |bodies[|c.out|]| == c.failed.value > capacity)
            && (Fits(capacity, bodies) ==> c.failed.None?)
  {
    assert bodies[0..] == bodies;
    RunKeepsInv(capacity, bodies, Start(bodies), evs);
  }

  /** A poll says "not yet" only if more bytes are on their way and there is room for
      them, or everything has been handed out. So the reader never waits for ever
      with a full queue. */
  lemma {:induction false} NotYetIsHonest(capacity: nat, bodies: seq<Body>, evs: seq<Event>)
    requires Fits(capacity, bodies)
    ensures var c := Run(capacity, Start(bodies), evs);
            Poll(capacity, c.queue).NotYet? ==>
              (|c.queue| < capacity && c.flight != []) || (c.out == bodies && c.queue == [])
  {
    assert bodies[0..] == bodies;
    RunKeepsInv(capacity, bodies, Start(bodies), evs);
    var c := Run(capacity, Start(bodies), evs);
    if Poll(capacity, c.queue).NotYet? {
      NotYetStep(capacity, bodies, c);
    }
  }

  lemma {:induction false} NotYetStep(capacity: nat, bodies: seq<Body>, c: Connection)
    requires Inv(capacity, bodies, c) && Fits(capacity, bodies) && Poll(capacity, c.queue).NotYet?
    ensures (|c.queue| < capacity && c.flight != []) || (c.out == bodies && c.queue == [])
  {
    var k := |c.out|;
    if k < |bodies| {
      PollNext(capacity, c.queue, c.flight, bodies[k], Frames(bodies[k..][1..]));
      assert |c.queue + c.flight| >= |Frame(bodies[k])|;
    }
  }

  /** Rounds of a delivery and a poll. */
  function Rounds(sizes: seq<nat>): seq<Event> {
    if sizes == [] then [] else [Deliver(sizes[0]), PollOnce] + Rounds(sizes[1..])
  }

  /** A round delivers a byte or hands out a body, until all is done. */
  lemma {:induction false} RoundProgress(capacity: nat, bodies: seq<Body>, c: Connection, n: nat)
    requires Inv(capacity, bodies, c) && Fits(capacity, bodies) && n > 0
    ensures var c' := Next(capacity, Next(capacity, c, Deliver(n)), PollOnce);
            && Inv(capacity, bodies, c')
            && (c.out == bodies || |c'.flight| + |bodies| - |c'.out| < |c.flight| + |bodies| - |c.out|)
            && |c.out| <= |c'.out| && |c'.flight| <= |c.flight|
  {
    DeliverKeepsInv(capacity, bodies, c, n);
    var mid := Next(capacity, c, Deliver(n));
    PollKeepsInv(capacity, bodies, mid);
    if Poll(capacity, mid.queue).NotYet? {
      NotYetStep(capacity, bodies, mid);
    }
  }

  /** Enough rounds, each delivering at least one byte if it can, hand out everything. */
  lemma {:induction false} AllArrive(capacity: nat, bodies: seq<Body>, c: Connection, sizes: seq<nat>)
    requires Inv(capacity, bodies, c) && Fits(capacity, bodies)
    requires forall k :: 0 <= k < |sizes| ==> sizes[k] > 0
    requires |sizes| >= |c.flight| + |bodies| - |c.out|
    ensures Run(capacity, c, Rounds(sizes)).out == bodies
    decreases |sizes|
  {
    RunKeepsInv(capacity, bodies, c, Rounds(sizes));
    if sizes != [] {
      RoundProgress(capacity, bodies, c, sizes[0]);
      var mid := Next(capacity, c, Deliver(sizes[0]));
      var c' := Next(capacity, mid, PollOnce);
      RunTwo(capacity, c, Deliver(sizes[0]), PollOnce, Rounds(sizes[1..]));
      if c.out == bodies {
        OutGrows(capacity, bodies, c, Rounds(sizes));
      } else {
        AllArrive(capacity, bodies, c', sizes[1..]);
      }
    }
  }

  lemma {:induction false} RunTwo(capacity: nat, c: Connection, a: Event, b: Event, evs: seq<Event>)
    ensures Run(capacity, c, [a, b] + evs) == Run(capacity, Next(capacity, Next(capacity, c, a), b), evs)
  {
    assert ([a, b] + evs)[1..] == [b] + evs;
    assert ([b] + evs)[1..] == evs;
  }

  lemma {:induction false} OutGrows(capacity: nat, bodies: seq<Body>, c: Connection, evs: seq<Event>)
    requires Inv(capacity, bodies, c)
    ensures |c.out| <= |Run(capacity, c, evs).out|
    decreases evs
  {
    if evs != [] {
      match evs[0] {
        case Deliver(n) => DeliverKeepsInv(capacity, bodies, c, n);
        case PollOnce => PollKeepsInv(capacity, bodies, c);
      }
      OutGrows(capacity, bodies, Next(capacity, c, evs[0]), evs[1..]);
    }
  }

  lemma {:induction false} EverythingArrives(capacity: nat, bodies: seq<Body>, sizes: seq<nat>)
    requires Fits(capacity, bodies)
    requires forall k :: 0 <= k < |sizes| ==> sizes[k] > 0
    requires |sizes| >= |Frames(bodies)| + |bodies|
    ensures Run(capacity, Start(bodies), Rounds(sizes)).out == bodies
  {
    assert bodies[0..] == bodies;
    AllArrive(capacity, bodies, Start(bodies), sizes);
  }
}
