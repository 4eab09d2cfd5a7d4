/**
  Stream framing (nio/codec.go, nio/handler.go) on values: a message is its length (flag and body, four
  bytes big-endian), its flag and its body; the decoder resumes from a partly read message.
 */
module Framing {
  import opened Options

  type byte = b: int | 0 <= b < 256

  const TWO32: int := 0x1_0000_0000

  /** A Msg as the decoder fills it in; `None` is a nil data slice. */
  datatype Frame = Frame(length: int, flag: byte, data: Option<seq<byte>>)

  const FRESH: Frame := Frame(0, 0, None)

  /** The read loop's state: lastMsg and the buffered bytes. */
  datatype Reader = Reader(last: Frame, buf: seq<byte>)

  // ---- big-endian 32-bit numbers ----------------------------------------------------------

  function ToBytes(n: int): (r: seq<byte>)
    requires 0 <= n < TWO32
    ensures |r| == 4 && FromBytes(r) == n
  {
    [n / 256 / 256 / 256, n / 256 / 256 % 256, n / 256 % 256, n % 256]
  }

  function FromBytes(b: seq<byte>): (n: int)
    requires |b| == 4
    ensures 0 <= n < TWO32
  {
    ((b[0] as int * 256 + b[1] as int) * 256 + b[2] as int) * 256 + b[3] as int
  }

  lemma BytesOfNumber(b: seq<byte>)
    requires |b| == 4
    ensures ToBytes(FromBytes(b)) == b
  {
    var n := FromBytes(b);
    assert n % 256 == b[3] && n / 256 == (b[0] as int * 256 + b[1] as int) * 256 + b[2] as int;
    assert n / 256 % 256 == b[2] && n / 256 / 256 == b[0] as int * 256 + b[1] as int;
    assert n / 256 / 256 % 256 == b[1] && n / 256 / 256 / 256 == b[0] as int;
  }

  // ---- encoder ----------------------------------------------------------------------------

  /** What a caller sends: CreateMsg(flag, body), the body already as bytes; `None` is a nil body. */
  datatype Message = Message(flag: byte, body: Option<seq<byte>>)

  function Body(m: Message): seq<byte> { if m.body.None? then [] else m.body.value }

  /** The length field is uint32(len + 1): it wraps around for a body of 2^32 - 1 bytes or more. */
  function Encode(m: Message): seq<byte> { ToBytes((|Body(m)| + 1) % TWO32) + [m.flag] + Body(m) }

  function EncodeAll(ms: seq<Message>): seq<byte> {
    if ms == [] then [] else Encode(ms[0]) + EncodeAll(ms[1..])
  }

  /** The bytes of a message on the wire: the length of flag and body, most significant byte first, the flag, the body. */
  lemma WireFormat(m: Message)
    ensures var b := Encode(m); var n := (|Body(m)| + 1) % 4294967296;
      && |b| == 5 + |Body(m)| && b[4] == m.flag && b[5..] == Body(m)
      && b[0] as int == n / 16777216 && b[1] as int == n / 65536 % 256 && b[2] as int == n / 256 % 256 && b[3] as int == n % 256
  {
    var n := (|Body(m)| + 1) % TWO32;
    assert Encode(m)[..4] == ToBytes(n);
    BytesAre(n);
  }

  lemma BytesAre(n: int)
    requires 0 <= n < TWO32
    ensures var b := ToBytes(n); b[0] as int == n / 16777216 && b[1] as int == n / 65536 % 256 && b[2] as int == n / 256 % 256 && b[3] as int == n % 256
  {
    assert n / 256 / 256 == n / 65536 && n / 256 / 256 / 256 == n / 16777216;
  }

  predicate Fits(m: Message) { |Body(m)| + 1 < TWO32 }

  /** What the receiver is handed for `m`: an empty body arrives as a nil slice. */
  function Received(m: Message): Frame {
    Frame(|Body(m)| + 1, m.flag, if Body(m) == [] then None else Some(Body(m)))
  }

  function ReceivedAll(ms: seq<Message>): seq<Frame> {
    if ms == [] then [] else [Received(ms[0])] + ReceivedAll(ms[1..])
  }

  // ---- decoder ----------------------------------------------------------------------------

  function WithHeader(b: seq<byte>): Frame
    requires |b| >= 5
  {
    Frame(FromBytes(b[..4]), b[4], None)
  }

  datatype Decoding = Decoding(ok: bool, reader: Reader)

  /** Decode once the length is known: it may still wait for the body. */
  function DecodeBody(rd: Reader): Decoding {
    if rd.last.length > 1 && rd.last.data.None? then
      if |rd.buf| >= rd.last.length - 1
      then Decoding(true, Reader(rd.last.(data := Some(rd.buf[..rd.last.length - 1])), rd.buf[rd.last.length - 1..]))
      else Decoding(false, rd)
    else Decoding(true, rd)
  }

  function Decode(rd: Reader): Decoding {
    if rd.last.length == 0 then
      if |rd.buf| >= 5 then DecodeBody(Reader(WithHeader(rd.buf).(data := rd.last.data), rd.buf[5..])) else Decoding(false, rd)
    else DecodeBody(rd)
  }

  /** Between two calls the decoder has nothing, or a header whose body it waits for. */
  predicate Waiting(f: Frame) { f == FRESH || (1 < f.length < TWO32 && f.data.None?) }

  /** Each decoded message uses up at least one byte, so the inner loop of readIo ends. */
  lemma DecodeProgress(rd: Reader)
    requires Waiting(rd.last)
    ensures var d := Decode(rd);
      && (d.ok ==> |d.reader.buf| < |rd.buf|)
      && (!d.ok ==> |d.reader.buf| <= |rd.buf| && Waiting(d.reader.last) && Decode(d.reader) == d)
  {
  }

  datatype Output = Output(frames: seq<Frame>, reader: Reader)

  /** The inner loop of readIo: decode and deliver until a message is incomplete. */
  function Drain(rd: Reader): Output
    requires Waiting(rd.last)
    decreases |rd.buf|
  {
    var d := Decode(rd);
    DecodeProgress(rd);
    if d.ok then
      var rest := Drain(Reader(FRESH, d.reader.buf));
      Output([d.reader.last] + rest.frames, rest.reader)
    else Output([], d.reader)
  }

  /** One round of the loop. */
  lemma DrainNext(rd: Reader)
    requires Waiting(rd.last)
    ensures var d := Decode(rd);
      if d.ok then var rest := Drain(Reader(FRESH, d.reader.buf)); Drain(rd) == Output([d.reader.last] + rest.frames, rest.reader)
      else Drain(rd) == Output([], d.reader)
  {
  }

  function More(rd: Reader, chunk: seq<byte>): Reader { rd.(buf := rd.buf + chunk) }

  function Feed(rd: Reader, chunk: seq<byte>): Output
    requires Waiting(rd.last)
  {
    if |chunk| > 0 then Drain(More(rd, chunk)) else Output([], rd)
  }

  lemma {:induction false} DrainWaits(rd: Reader)
    requires Waiting(rd.last)
    ensures var out := Drain(rd); Waiting(out.reader.last) && Drain(out.reader) == Output([], out.reader)
    decreases |rd.buf|
  {
    DecodeProgress(rd);
    if Decode(rd).ok { DrainWaits(Reader(FRESH, Decode(rd).reader.buf)); }
  }

  function FeedAll(rd: Reader, chunks: seq<seq<byte>>): Output
    requires Waiting(rd.last)
    decreases |chunks|
  {
    if chunks == [] then Output([], rd)
    else
      var first := Feed(rd, chunks[0]);
      DrainWaits(More(rd, chunks[0]));
      var rest := FeedAll(first.reader, chunks[1..]);
      Output(first.frames + rest.frames, rest.reader)
  }

  function Concat(chunks: seq<seq<byte>>): seq<byte> {
    if chunks == [] then [] else chunks[0] + Concat(chunks[1..])
  }

  // ---- independence from chunk boundaries -------------------------------------------------

  lemma DecodeBodyMore(rd: Reader, x: seq<byte>)
    requires DecodeBody(rd).ok
    ensures DecodeBody(More(rd, x)) == Decoding(true, More(DecodeBody(rd).reader, x))
  {
    if rd.last.length > 1 && rd.last.data.None? {
      var n := rd.last.length - 1;
      assert (rd.buf + x)[..n] == rd.buf[..n] && (rd.buf + x)[n..] == rd.buf[n..] + x;
    }
  }

  /** More input does not change a message that is complete, nor what was read of one that is not. */
  lemma DecodeMore(rd: Reader, x: seq<byte>)
    requires Waiting(rd.last)
    ensures Decode(rd).ok ==> Decode(More(rd, x)) == Decoding(true, More(Decode(rd).reader, x))
    ensures !Decode(rd).ok ==> Decode(More(rd, x)) == Decode(More(Decode(rd).reader, x))
  {
    if rd.last.length == 0 {
      if |rd.buf| >= 5 {
        var inner := Reader(WithHeader(rd.buf).(data := rd.last.data), rd.buf[5..]);
        assert (rd.buf + x)[..4] == rd.buf[..4] && (rd.buf + x)[5..] == rd.buf[5..] + x;
        assert Decode(More(rd, x)) == DecodeBody(More(inner, x));
        if DecodeBody(inner).ok { DecodeBodyMore(inner, x); }
      }
    } else if DecodeBody(rd).ok {
      DecodeBodyMore(rd, x);
    }
  }

  /** Draining now and again after `x` arrives is draining once when all of it is there. */
  lemma {:induction false} DrainMore(rd: Reader, x: seq<byte>)
    requires Waiting(rd.last)
    ensures Waiting(Drain(rd).reader.last)
    ensures var now := Drain(rd); var later := Drain(More(now.reader, x));
      Drain(More(rd, x)) == Output(now.frames + later.frames, later.reader)
    decreases |rd.buf|
  {
    hide Decode, Drain;
    DecodeProgress(rd);
    DecodeMore(rd, x);
    DrainNext(rd);
    DrainNext(More(rd, x));
    var d := Decode(rd);
    if d.ok {
      var next := Reader(FRESH, d.reader.buf);
      DrainMore(next, x);
      assert More(next, x) == Reader(FRESH, More(d.reader, x).buf);
      var now, later := Drain(next), Drain(More(Drain(next).reader, x));
      assert [d.reader.last] + (now.frames + later.frames) == ([d.reader.last] + now.frames) + later.frames;
    } else {
      SameDecodingDrains(More(rd, x), More(d.reader, x));
    }
  }

  lemma SameDecodingDrains(a: Reader, b: Reader)
    requires Waiting(a.last) && Waiting(b.last) && Decode(a) == Decode(b)
    ensures Drain(a) == Drain(b)
  {
    hide Decode, Drain;
    DrainNext(a);
    DrainNext(b);
  }

  ghost predicate Drained(rd: Reader) { Waiting(rd.last) && Drain(rd) == Output([], rd) }

  /**
    Chunking independence: from a reader that has nothing complete to deliver, however the stream is cut,
    the messages delivered and the state left behind are those of the whole stream at once.
   */
  lemma {:induction false} ChunksDoNotMatter(rd: Reader, chunks: seq<seq<byte>>)
    requires Drained(rd)
    ensures FeedAll(rd, chunks) == Drain(More(rd, Concat(chunks)))
    decreases |chunks|
  {
    hide Drain;
    if chunks == [] {
      assert More(rd, []) == rd;
    } else {
      var c, rest := chunks[0], Concat(chunks[1..]);
      var mid := Feed(rd, c).reader;
      DrainWaits(More(rd, c));
      assert More(rd, []) == rd;
      assert Feed(rd, c) == Drain(More(rd, c));
      ChunksDoNotMatter(mid, chunks[1..]);
      DrainMore(More(rd, c), rest);
      assert More(More(rd, c), rest) == More(rd, c + rest);
    }
  }

  // ---- round trip -------------------------------------------------------------------------

  lemma DecodeEncoded(m: Message, rest: seq<byte>)
    requires Fits(m)
    ensures Decode(Reader(FRESH, Encode(m) + rest)) == Decoding(true, Reader(Received(m), rest))
  {
    hide ToBytes, FromBytes;
    var n := |Body(m)| + 1;
    var buf := Encode(m) + rest;
    assert buf[..4] == ToBytes(n) && buf[4] == m.flag && buf[5..] == Body(m) + rest;
    assert WithHeader(buf) == Frame(n, m.flag, None);
    if n == 1 {
      assert buf[5..] == rest;
    } else {
      assert buf[5..][..n - 1] == Body(m) && buf[5..][n - 1..] == rest;
    }
  }

  lemma {:induction false} DrainEncoded(ms: seq<Message>)
    requires forall m | m in ms :: Fits(m)
    ensures Drain(Reader(FRESH, EncodeAll(ms))) == Output(ReceivedAll(ms), Reader(FRESH, []))
  {
    if ms != [] {
      DecodeEncoded(ms[0], EncodeAll(ms[1..]));
      DrainEncoded(ms[1..]);
    }
  }

  /**
    Round trip: any messages whose bodies fit, encoded one after another and cut into any chunks, are
    delivered with their flags and bodies in order, and nothing is left over.
   */
  lemma RoundTrip(ms: seq<Message>, chunks: seq<seq<byte>>)
    requires (forall m | m in ms :: Fits(m)) && Concat(chunks) == EncodeAll(ms)
    ensures FeedAll(Reader(FRESH, []), chunks) == Output(ReceivedAll(ms), Reader(FRESH, []))
  {
    ChunksDoNotMatter(Reader(FRESH, []), chunks);
    assert More(Reader(FRESH, []), EncodeAll(ms)) == Reader(FRESH, EncodeAll(ms));
    DrainEncoded(ms);
  }

  /** A flag and a body, as sent or as handed to the receiver. */
  datatype Content = Content(flag: byte, body: seq<byte>)

  function BodyOf(f: Frame): seq<byte> { if f.data.None? then [] else f.data.value }

  function Sent(ms: seq<Message>): seq<Content> { seq(|ms|, i requires 0 <= i < |ms| => Content(ms[i].flag, Body(ms[i]))) }

  function Delivered(fs: seq<Frame>): seq<Content> { seq(|fs|, i requires 0 <= i < |fs| => Content(fs[i].flag, BodyOf(fs[i]))) }

  /** Whatever the bytes, no body of 2^32 - 1 bytes or more is ever delivered. */
  lemma {:induction false} BodiesAreShort(rd: Reader)
    requires Waiting(rd.last)
    ensures forall f | f in Drain(rd).frames :: 0 <= f.length < TWO32 && |BodyOf(f)| + 1 < TWO32
    decreases |rd.buf|
  {
    DecodeProgress(rd);
    if Decode(rd).ok { BodiesAreShort(Reader(FRESH, Decode(rd).reader.buf)); }
  }

  lemma {:induction false} ReceivedAllAre(ms: seq<Message>)
    ensures |ReceivedAll(ms)| == |ms| && forall i | 0 <= i < |ms| :: ReceivedAll(ms)[i] == Received(ms[i])
  {
    if ms != [] { ReceivedAllAre(ms[1..]); }
  }

  /**
    Flags and bodies arrive as they were sent, however the stream is cut, exactly when no message of the list is
    so long that its length field wraps around.
   */
  lemma ContentsArriveIffFit(ms: seq<Message>, chunks: seq<seq<byte>>)
    requires Concat(chunks) == EncodeAll(ms)
    ensures Delivered(FeedAll(Reader(FRESH, []), chunks).frames) == Sent(ms) <==> forall m | m in ms :: |Body(m)| < 4294967295
  {
    hide FeedAll, Drain, EncodeAll, ReceivedAll, Encode;
    var out := FeedAll(Reader(FRESH, []), chunks);
    assert forall m :: Fits(m) <==> |Body(m)| < 4294967295;
    if forall m | m in ms :: Fits(m) {
      RoundTrip(ms, chunks);
      ReceivedAllAre(ms);
    } else {
      StartsDrained();
      ChunksDoNotMatter(Reader(FRESH, []), chunks);
      BodiesAreShort(More(Reader(FRESH, []), Concat(chunks)));
      var i :| 0 <= i < |ms| && !Fits(ms[i]);
      assert Sent(ms)[i].body == Body(ms[i]);
      assert forall j | 0 <= j < |out.frames| :: out.frames[j] in out.frames && Delivered(out.frames)[j].body == BodyOf(out.frames[j]);
    }
  }

  lemma StartsDrained()
    ensures Drained(Reader(FRESH, []))
  {
  }

  /** ... and exactly then the lengths arrive too, and nothing is left over. */
  lemma RoundTripIffFits(ms: seq<Message>, chunks: seq<seq<byte>>)
    requires Concat(chunks) == EncodeAll(ms)
    ensures FeedAll(Reader(FRESH, []), chunks) == Output(ReceivedAll(ms), Reader(FRESH, [])) <==> forall m | m in ms :: Fits(m)
  {
    hide FeedAll, Drain, EncodeAll, ReceivedAll, Encode, Concat;
    if forall m | m in ms :: Fits(m) {
      RoundTrip(ms, chunks);
    } else {
      ContentsArriveIffFit(ms, chunks);
      ReceivedAllAre(ms);
      assert Delivered(ReceivedAll(ms)) == Sent(ms);
    }
  }

  /** An input that is lost: any message with a body of 2^32 - 1 bytes or more. */
  lemma LongMessagesAreLost(flag: byte, extra: nat) returns (m: Message)
    ensures |Body(m)| == 4294967295 + extra && Delivered(FeedAll(Reader(FRESH, []), [Encode(m)]).frames) != Sent([m])
  {
    hide FeedAll;
    m := Message(flag, Some(seq(TWO32 - 1 + extra, _ => 0)));
    assert Concat([Encode(m)]) == Encode(m) + Concat([]) && EncodeAll([m]) == Encode(m) + EncodeAll([]) by {
      assert [Encode(m)][1..] == [] && [m][1..] == [];
    }
    ContentsArriveIffFit([m], [Encode(m)]);
    assert m in [m] && !Fits(m);
  }

  // ---- arbitrary bytes --------------------------------------------------------------------

  /** The bytes a message was read from, as far as it has been read. */
  function Raw(f: Frame): seq<byte>
    requires 0 <= f.length < TWO32
  {
    ToBytes(f.length) + [f.flag] + (if f.data.None? then [] else f.data.value)
  }

  function RawAll(fs: seq<Frame>): seq<byte>
    requires forall f | f in fs :: 0 <= f.length < TWO32
  {
    if fs == [] then [] else Raw(fs[0]) + RawAll(fs[1..])
  }

  /** The part of the stream a reader still holds. */
  function Held(rd: Reader): seq<byte>
    requires Waiting(rd.last)
  {
    if rd.last == FRESH then rd.buf else Raw(rd.last) + rd.buf
  }

  lemma DecodeConserves(rd: Reader)
    requires Waiting(rd.last)
    ensures var d := Decode(rd);
      && 0 <= d.reader.last.length < TWO32
      && (d.ok ==> Held(rd) == Raw(d.reader.last) + d.reader.buf)
      && (!d.ok ==> Waiting(d.reader.last) && Held(rd) == Held(d.reader))
  {
    if rd.last == FRESH && |rd.buf| >= 5 {
      BytesOfNumber(rd.buf[..4]);
      assert rd.buf == rd.buf[..4] + [rd.buf[4]] + rd.buf[5..];
      var n := FromBytes(rd.buf[..4]);
      if n > 1 && |rd.buf[5..]| >= n - 1 { assert rd.buf[5..] == rd.buf[5..][..n - 1] + rd.buf[5..][n - 1..]; }
    } else if rd.last != FRESH && |rd.buf| >= rd.last.length - 1 {
      assert rd.buf == rd.buf[..rd.last.length - 1] + rd.buf[rd.last.length - 1..];
    }
  }

  /**
    Conservation, for any bytes at all: what was delivered, what was read of the message under way and what is
    buffered are together exactly the stream received, byte for byte and in order.
   */
  lemma {:induction false} StreamIsConserved(rd: Reader)
    requires Waiting(rd.last)
    ensures var out := Drain(rd);
      && (forall f | f in out.frames :: 0 <= f.length < TWO32) && Waiting(out.reader.last)
      && Held(rd) == RawAll(out.frames) + Held(out.reader)
    decreases |rd.buf|
  {
    hide Raw, RawAll, Decode;
    DecodeProgress(rd);
    DecodeConserves(rd);
    var d := Decode(rd);
    if d.ok {
      var next := Reader(FRESH, d.reader.buf);
      StreamIsConserved(next);
      RawAllCons(d.reader.last, Drain(next).frames, Held(Drain(next).reader));
    } else {
      RawAllNil(Held(d.reader));
    }
  }

  lemma RawAllNil(rest: seq<byte>)
    ensures RawAll([]) + rest == rest
  {
  }

  lemma RawAllCons(f: Frame, fs: seq<Frame>, rest: seq<byte>)
    requires forall g | g in [f] + fs :: 0 <= g.length < TWO32
    ensures (forall g | g in fs :: 0 <= g.length < TWO32) && 0 <= f.length < TWO32
    ensures RawAll([f] + fs) + rest == Raw(f) + (RawAll(fs) + rest)
  {
    assert forall g | g in fs :: g in [f] + fs;
    assert f in [f] + fs && ([f] + fs)[1..] == fs;
  }
}
