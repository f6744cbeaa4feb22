/** Length-prefixed messages over a byte stream: four bytes of big-endian
    length, then the payload. What a connection delivers depends on the bytes
    that arrive, never on how reads cut them up. */
module Framing {
  import opened RaftTypes

  type Bytes = seq<Byte>

  const MAX_MESSAGE_SIZE: nat := 1024 * 1024
  const WORD_LIMIT: nat := 0x1_0000_0000

  // ----- the length prefix -----

  function Word(b: Bytes): nat
    requires |b| >= 4
  {
    ((b[0] as nat * 256 + b[1] as nat) * 256 + b[2] as nat) * 256 + b[3] as nat
  }

  /** The low 32 bits of n, most significant byte first. */
  function WordBytes(n: nat): Bytes {
    [(n / 0x100_0000 % 256) as Byte, (n / 0x1_0000 % 256) as Byte, (n / 0x100 % 256) as Byte, (n % 256) as Byte]
  }

  lemma WordRoundTrip(n: nat)
    ensures Word(WordBytes(n)) == n % WORD_LIMIT
  {
    var a, b, c := n / 0x100, n / 0x1_0000, n / 0x100_0000;
    assert n == a * 256 + n % 256;
    assert b == a / 256 && a == b * 256 + a % 256;
    assert c == b / 256 && b == c * 256 + b % 256;
    assert c == c / 256 * 256 + c % 256;
    assert n == c / 256 * WORD_LIMIT + Word(WordBytes(n));
  }

  /** The first byte weighs most. */
  lemma NetworkOrder(b: Bytes)
    requires |b| >= 4
    ensures Word(b) == b[0] as nat * 0x100_0000 + b[1] as nat * 0x1_0000 + b[2] as nat * 0x100 + b[3] as nat
  {
  }

  // ----- one message -----

  function Encode(payload: Bytes): Bytes { WordBytes(|payload|) + payload }

  /** Short messages follow three zeros and their length. */
  lemma ShortPrefix(payload: Bytes)
    requires |payload| < 256
    ensures Encode(payload) == [0, 0, 0, |payload| as Byte] + payload
  {
  }

  /** The payload at the front of data, if all of it is there. */
  function Decode(data: Bytes): Option<Bytes> {
    if |data| < 4 then None
    else if |data| < 4 + Word(data) then None
    else Some(data[4..4 + Word(data)])
  }

  lemma EncodePrefix(payload: Bytes, tail: Bytes)
    requires |payload| < WORD_LIMIT
    ensures var data := Encode(payload) + tail;
            |data| >= 4 + |payload| && Word(data) == |payload|
            && data[4..4 + |payload|] == payload && data[4 + |payload|..] == tail
  {
    WordRoundTrip(|payload|);
  }

  /** Decoding undoes encoding, whatever follows, and only when all of the
      encoding has arrived. */
  lemma DecodeEncode(payload: Bytes, tail: Bytes, k: nat)
    requires |payload| < WORD_LIMIT && k <= |Encode(payload)|
    ensures Decode(Encode(payload) + tail) == Some(payload)
    ensures Decode(Encode(payload)[..k]).Some? <==> k == |Encode(payload)|
  {
    EncodePrefix(payload, tail);
    EncodePrefix(payload, []);
    assert Encode(payload) + [] == Encode(payload);
    if k >= 4 { assert Word(Encode(payload)[..k]) == Word(Encode(payload)); }
  }

  // ----- a stream -----

  /** A connection has delivered some payloads and either waits with an
      unfinished rest or was dropped at an oversized length. */
  datatype Stream =
    | Waiting(delivered: seq<Bytes>, rest: Bytes)
    | Dropped(delivered: seq<Bytes>)

  function After(first: seq<Bytes>, then_: Stream): Stream {
    match then_
    case Waiting(d, rest) => Waiting(first + d, rest)
    case Dropped(d) => Dropped(first + d)
  }

  /** All complete messages at the front of a buffer. */
  function Drain(buf: Bytes): Stream {
    if |buf| < 4 then Waiting([], buf)
    else if Word(buf) > MAX_MESSAGE_SIZE then Dropped([])
    else if |buf| < 4 + Word(buf) then Waiting([], buf)
    else After([buf[4..4 + Word(buf)]], Drain(buf[4 + Word(buf)..]))
  }

  /** One more read. */
  function Feed(s: Stream, chunk: Bytes): Stream {
    match s
    case Dropped(_) => s
    case Waiting(delivered, rest) => After(delivered, Drain(rest + chunk))
  }

  function FeedAll(s: Stream, chunks: seq<Bytes>): Stream
    decreases |chunks|
  {
    if chunks == [] then s else FeedAll(Feed(s, chunks[0]), chunks[1..])
  }

  /** The reads before the first empty one. */
  function UntilClose(arrivals: seq<Bytes>): seq<Bytes> {
    if arrivals == [] || arrivals[0] == [] then [] else [arrivals[0]] + UntilClose(arrivals[1..])
  }

  function Concat(chunks: seq<Bytes>): Bytes {
    if chunks == [] then [] else chunks[0] + Concat(chunks[1..])
  }

  lemma {:induction false} DroppedStays(s: Stream, chunks: seq<Bytes>)
    requires s.Dropped?
    ensures FeedAll(s, chunks) == s
    decreases |chunks|
  {
    if chunks != [] { DroppedStays(s, chunks[1..]); }
  }

  lemma AfterAfter(a: seq<Bytes>, b: seq<Bytes>, s: Stream)
    ensures After(a, After(b, s)) == After(a + b, s)
  {
  }

  /** Draining two pieces one after the other is draining them at once. */
  lemma {:induction false} DrainSplit(a: Bytes, b: Bytes)
    ensures Drain(a + b) == Feed(Drain(a), b)
    decreases |a|
  {
    if |a| >= 4 {
      assert Word(a + b) == Word(a);
      var n := 4 + Word(a);
      if Word(a) <= MAX_MESSAGE_SIZE && |a| >= n {
        DrainSplit(a[n..], b);
        assert (a + b)[4..n] == a[4..n] && (a + b)[n..] == a[n..] + b;
        var first, s := [a[4..n]], Drain(a[n..]);
        if s.Waiting? { AfterAfter(first, s.delivered, Drain(s.rest + b)); }
      } else {
        AfterNothing(Drain(a + b));
      }
    } else {
      AfterNothing(Drain(a + b));
    }
  }

  lemma AfterNothing(s: Stream)
    ensures After([], s) == s
  {
  }

  lemma Regroup(a: Bytes, b: Bytes, c: Bytes)
    ensures a + b + c == a + (b + c)
  {
  }

  lemma {:induction false} FeedAllFrom(a: Bytes, chunks: seq<Bytes>)
    ensures FeedAll(Drain(a), chunks) == Drain(a + Concat(chunks))
    decreases |chunks|
  {
    if chunks == [] {
      assert a + Concat(chunks) == a;
    } else {
      DrainSplit(a, chunks[0]);
      FeedAllFrom(a + chunks[0], chunks[1..]);
      Regroup(a, chunks[0], Concat(chunks[1..]));
    }
  }

  /** Whatever bytes arrive, well-formed or not, cutting them into reads
      differently changes neither what is delivered nor what is left over. */
  lemma ChunkingIrrelevant(chunks: seq<Bytes>, chunks': seq<Bytes>)
    requires Concat(chunks) == Concat(chunks')
    ensures FeedAll(Waiting([], []), chunks) == FeedAll(Waiting([], []), chunks')
    ensures FeedAll(Waiting([], []), chunks) == Drain(Concat(chunks))
  {
    FeedAllFrom([], chunks);
    FeedAllFrom([], chunks');
    assert [] + Concat(chunks) == Concat(chunks);
  }

  // ----- sending a list of messages -----

  function EncodeAll(payloads: seq<Bytes>): Bytes {
    if payloads == [] then [] else Encode(payloads[0]) + EncodeAll(payloads[1..])
  }

  ghost predicate Fits(payloads: seq<Bytes>) {
    forall p | p in payloads :: |p| <= MAX_MESSAGE_SIZE
  }

  lemma DrainOne(p: Bytes, tail: Bytes)
    requires |p| <= MAX_MESSAGE_SIZE
    ensures Drain(Encode(p) + tail) == After([p], Drain(tail))
  {
    EncodePrefix(p, tail);
  }

  /** Messages within the limit come out as they went in, and what follows is
      treated as if it had come first. */
  lemma {:induction false} DrainEncoded(payloads: seq<Bytes>, tail: Bytes)
    requires Fits(payloads)
    ensures Drain(EncodeAll(payloads) + tail) == After(payloads, Drain(tail))
  {
    if payloads == [] {
      assert EncodeAll(payloads) + tail == tail;
      AfterNothing(Drain(tail));
    } else {
      var p, others := payloads[0], payloads[1..];
      assert EncodeAll(payloads) + tail == Encode(p) + (EncodeAll(others) + tail);
      DrainOne(p, EncodeAll(others) + tail);
      DrainEncoded(others, tail);
      AfterAfter([p], others, Drain(tail));
      assert [p] + others == payloads;
    }
  }

  /** A strict prefix of a message waits for the rest of it. */
  lemma PartWaits(payload: Bytes, k: nat)
    requires |payload| <= MAX_MESSAGE_SIZE && k < |Encode(payload)|
    ensures Drain(Encode(payload)[..k]) == Waiting([], Encode(payload)[..k])
  {
    WordRoundTrip(|payload|);
    var whole, part := Encode(payload), Encode(payload)[..k];
    if k >= 4 {
      assert forall i | 0 <= i < 4 :: part[i] == whole[i];
      assert Word(part) == Word(whole) == |payload|;
    }
  }

  /** After any number of reads, however cut, exactly the messages that have
      arrived whole are delivered, in order, and exactly the unfinished one is
      left in the buffer. */
  lemma StreamDelivers(payloads: seq<Bytes>, next: Bytes, k: nat, chunks: seq<Bytes>)
    requires Fits(payloads) && |next| <= MAX_MESSAGE_SIZE && k < |Encode(next)|
    requires Concat(chunks) == EncodeAll(payloads) + Encode(next)[..k]
    ensures FeedAll(Waiting([], []), chunks) == Waiting(payloads, Encode(next)[..k])
  {
    ChunkingIrrelevant(chunks, chunks);
    DrainEncoded(payloads, Encode(next)[..k]);
    PartWaits(next, k);
    assert payloads + [] == payloads;
  }

  lemma OversizeDrops(p: Bytes, tail: Bytes)
    requires MAX_MESSAGE_SIZE < |p| < WORD_LIMIT
    ensures Drain(Encode(p) + tail) == Dropped([])
  {
    EncodePrefix(p, tail);
  }

  lemma {:induction false} EncodeAllSplit(a: seq<Bytes>, b: seq<Bytes>)
    ensures EncodeAll(a + b) == EncodeAll(a) + EncodeAll(b)
  {
    if a == [] {
      assert a + b == b;
    } else {
      assert (a + b)[1..] == a[1..] + b;
      EncodeAllSplit(a[1..], b);
    }
  }

  lemma {:induction false} FirstOversize(payloads: seq<Bytes>) returns (i: nat)
    requires !Fits(payloads)
    ensures i < |payloads| && Fits(payloads[..i]) && |payloads[i]| > MAX_MESSAGE_SIZE
  {
    if |payloads[0]| > MAX_MESSAGE_SIZE {
      i := 0;
    } else {
      assert payloads == [payloads[0]] + payloads[1..];
      var j := FirstOversize(payloads[1..]);
      i := j + 1;
      assert payloads[..i] == [payloads[0]] + payloads[1..][..j];
    }
  }

  lemma OversizeDelivered(payloads: seq<Bytes>) returns (i: nat)
    requires (forall p | p in payloads :: |p| < WORD_LIMIT) && !Fits(payloads)
    ensures i < |payloads| && |payloads[i]| > MAX_MESSAGE_SIZE
    ensures Drain(EncodeAll(payloads)) == Dropped(payloads[..i])
  {
    i := FirstOversize(payloads);
    var front, back := payloads[..i], payloads[i..];
    assert payloads == front + back;
    EncodeAllSplit(front, back);
    OversizeDrops(back[0], EncodeAll(back[1..]));
    DrainEncoded(front, EncodeAll(back));
    assert front + [] == front;
  }

  /** A list of messages arrives whole and in order exactly when each is within
      the limit; otherwise the connection is dropped at the first that is not. */
  lemma DeliveredIffFits(payloads: seq<Bytes>)
    requires forall p | p in payloads :: |p| < WORD_LIMIT
    ensures Drain(EncodeAll(payloads)) == Waiting(payloads, []) <==> Fits(payloads)
    ensures !Fits(payloads) ==>
              exists i :: 0 <= i < |payloads| && |payloads[i]| > MAX_MESSAGE_SIZE
                          && Drain(EncodeAll(payloads)) == Dropped(payloads[..i])
  {
    if Fits(payloads) {
      DrainEncoded(payloads, []);
      assert EncodeAll(payloads) + [] == EncodeAll(payloads);
      assert payloads + [] == payloads;
    } else {
      var i := OversizeDelivered(payloads);
    }
  }

  /** The limit is one mebibyte. */
  lemma DeliveredUpToMebibyte(payload: Bytes)
    requires |payload| < WORD_LIMIT
    ensures Drain(Encode(payload)) == if |payload| <= 1_048_576 then Waiting([payload], []) else Dropped([])
  {
    EncodePrefix(payload, []);
    assert Encode(payload) + [] == Encode(payload);
  }

  // ----- the connection -----

  class Connection {
    var buf: Bytes
    var handled: seq<Bytes>
    var open: bool

    ghost function View(): Stream
      reads this
    {
      if open then Waiting(handled, buf) else Dropped(handled)
    }

    constructor ()
      ensures View() == Waiting([], []) && open
    {
      buf, handled, open := [], [], true;
    }

    /** Takes one read and hands over every message it completes. */
    method Receive(chunk: Bytes)
      requires open
      modifies this
      ensures View() == Feed(old(View()), chunk)
    {
      buf := buf + chunk;
      ghost var start := buf;
      ghost var before := handled;
      AfterNothing(Drain(buf));
      while |buf| >= 4
        invariant open && before <= handled
        invariant After(before, Drain(start)) == After(handled, Drain(buf))
        decreases |buf|
      {
        var len := Word(buf);
        if len > MAX_MESSAGE_SIZE {
          open := false;
          assert handled + [] == handled;
          return;
        }
        if |buf| < 4 + len {
          break;
        }
        AfterAfter(handled, [buf[4..4 + len]], Drain(buf[4 + len..]));
        handled := handled + [buf[4..4 + len]];
        buf := buf[4 + len..];
      }
      assert handled + [] == handled;
    }

    /** Reads until the peer closes, which shows as an empty read, or until the
        connection is dropped. */
    method Serve(arrivals: seq<Bytes>)
      requires View() == Waiting([], []) && open
      modifies this
      ensures View() == Drain(Concat(UntilClose(arrivals)))
    {
      ghost var chunks := UntilClose(arrivals);
      var i := 0;
      while i < |arrivals| && open && arrivals[i] != []
        invariant i <= |arrivals|
        invariant FeedAll(View(), UntilClose(arrivals[i..])) == FeedAll(Waiting([], []), chunks)
      {
        assert UntilClose(arrivals[i..]) == [arrivals[i]] + UntilClose(arrivals[i + 1..]) by {
          assert arrivals[i..][1..] == arrivals[i + 1..];
        }
        Receive(arrivals[i]);
        i := i + 1;
      }
      if !open { DroppedStays(View(), UntilClose(arrivals[i..])); }
      ChunkingIrrelevant(chunks, chunks);
    }
  }
}
