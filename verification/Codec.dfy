/**
  The imperative codec and read loop (nio/codec.go, nio/handler.go): Decode fills a Msg and eats from a
  buffer, readIo buffers what it reads, decodes and delivers. Proved against module Framing.
 */
module Codec {
  import opened Options
  import opened Framing

  class Msg {
    var flag: byte
    const body: Option<seq<byte>>
    var length: int
    var data: Option<seq<byte>>

    /** &Msg{} */
    constructor ()
      ensures View() == FRESH
    {
      flag, body, length, data := 0, None, 0, None;
    }

    constructor Create(flag: byte, body: Option<seq<byte>>)
      ensures this.flag == flag && this.body == body && length == 0 && data == None
    {
      this.flag, this.body, this.length, this.data := flag, body, 0, None;
    }

    function View(): Frame
      reads this
    {
      Frame(length, flag, data)
    }
  }

  class Buffer {
    var bytes: seq<byte>

    constructor ()
      ensures bytes == []
    {
      bytes := [];
    }

    method Write(b: seq<byte>)
      modifies this
      ensures bytes == old(bytes) + b
    {
      bytes := bytes + b;
    }

    method Read(n: nat) returns (b: seq<byte>)
      requires n <= |bytes|
      modifies this
      ensures b == old(bytes)[..n] && bytes == old(bytes)[n..]
    {
      b := bytes[..n];
      bytes := bytes[n..];
    }
  }

  method EncodeMsg(msg: Msg) returns (buf: Buffer)
    modifies msg`length
    ensures fresh(buf) && buf.bytes == Framing.Encode(Message(msg.flag, msg.body))
    ensures msg.length == (|Body(Message(msg.flag, msg.body))| + 1) % TWO32
  {
    buf := new Buffer();
    var bodyBytes: seq<byte> := [];
    if msg.body.None? {
      msg.length := 1;
    } else {
      bodyBytes := msg.body.value;
      msg.length := (|bodyBytes| + 1) % TWO32;
    }
    buf.Write(ToBytes(msg.length));
    buf.Write([msg.flag]);
    if |bodyBytes| > 0 {
      buf.Write(bodyBytes);
    }
  }

  method DecodeMsg(msg: Msg, reader: Buffer) returns (ok: bool)
    modifies msg, reader
    ensures Decoding(ok, Reader(msg.View(), reader.bytes)) == Framing.Decode(old(Reader(msg.View(), reader.bytes)))
  {
    if msg.length == 0 {
      if |reader.bytes| >= 5 {
        var length := reader.Read(4);
        msg.length := FromBytes(length);
        var flag := reader.Read(1);
        msg.flag := flag[0];
        assert reader.bytes == old(reader.bytes)[5..];
      } else {
        return false;
      }
    }
    if msg.length == 1 {
      return true;
    }
    if msg.length > 1 && msg.data.None? {
      if |reader.bytes| >= msg.length - 1 {
        var bodyBytes := reader.Read(msg.length - 1);
        msg.data := Some(bodyBytes);
      } else {
        return false;
      }
    }
    return true;
  }

  /** What conn.Read answers: bytes, an error to retry after, or the end of the connection. */
  datatype Event = Data(bytes: seq<byte>) | Trouble | Gone

  /** The chunks the read loop takes in before it returns: three errors in a row end it. */
  function Heard(events: seq<Event>, failTimes: nat): seq<seq<byte>> {
    if events == [] then []
    else match events[0]
      case Data(b) => [b] + Heard(events[1..], 0)
      case Trouble => if failTimes + 1 >= 3 then [] else Heard(events[1..], failTimes + 1)
      case Gone => []
  }

  lemma HeardNothing(failTimes: nat)
    ensures Heard([], failTimes) == []
  {
  }

  lemma HeardNext(events: seq<Event>, failTimes: nat)
    requires events != []
    ensures Heard(events, failTimes) == match events[0]
      case Data(b) => [b] + Heard(events[1..], 0)
      case Trouble => if failTimes + 1 >= 3 then [] else Heard(events[1..], failTimes + 1)
      case Gone => []
  {
  }

  /** What ends the read loop: the end of the connection, or the third error in a row. */
  predicate EndsAt(events: seq<Event>, n: nat) {
    n < |events| && (events[n].Gone? || (n >= 2 && events[n].Trouble? && events[n - 1].Trouble? && events[n - 2].Trouble?))
  }

  function DataOf(events: seq<Event>): seq<seq<byte>> {
    if events == [] then [] else (if events[0].Data? then [events[0].bytes] else []) + DataOf(events[1..])
  }

  /** The read loop hears all data up to the first event that ends it. */
  lemma HeardUntilTheEnd(events: seq<Event>) returns (n: nat)
    ensures n <= |events| && (n < |events| ==> EndsAt(events, n)) && forall i: nat | i < n :: !EndsAt(events, i)
    ensures Heard(events, 0) == DataOf(events[..n])
  {
    n := HeardFrom(events, 0, 0);
    assert events[0..] == events && events[0..n] == events[..n];
  }

  /** ... from position i, after `failTimes` errors in a row. */
  lemma {:induction false} HeardFrom(events: seq<Event>, i: nat, failTimes: nat) returns (n: nat)
    requires failTimes <= i <= |events| && failTimes < 3
    requires forall d | i - failTimes <= d < i :: events[d].Trouble?
    requires failTimes < i ==> !events[i - failTimes - 1].Trouble?
    ensures i <= n <= |events| && (n < |events| ==> EndsAt(events, n)) && forall d: nat | i <= d < n :: !EndsAt(events, d)
    ensures Heard(events[i..], failTimes) == DataOf(events[i..n])
    decreases |events| - i
  {
    hide Heard;
    if i == |events| {
      n := i;
      HeardNothing(failTimes);
      assert events[i..] == [] && events[i..n] == [];
    } else {
      HeardNext(events[i..], failTimes);
      assert events[i..][0] == events[i] && events[i..][1..] == events[i + 1..];
      if events[i].Gone? || (events[i].Trouble? && failTimes == 2) {
        n := i;
        assert events[i..n] == [];
      } else {
        n := HeardFrom(events, i + 1, if events[i].Data? then 0 else failTimes + 1);
        assert events[i..n][0] == events[i] && events[i..n][1..] == events[i + 1..n];
      }
    }
  }

  lemma FedNothing(rd: Reader)
    requires Waiting(rd.last)
    ensures FeedAll(rd, []) == Output([], rd)
  {
  }

  lemma {:induction false} FeedOneMore(rd: Reader, chunks: seq<seq<byte>>, c: seq<byte>)
    requires Waiting(rd.last)
    ensures var before := FeedAll(rd, chunks);
      && Waiting(before.reader.last)
      && var last := Feed(before.reader, c); FeedAll(rd, chunks + [c]) == Output(before.frames + last.frames, last.reader)
    decreases |chunks|
  {
    hide Drain;
    if chunks == [] {
      assert [c][1..] == [];
      var last := Feed(rd, c);
      assert [] + last.frames == last.frames + [];
    } else {
      var first := Feed(rd, chunks[0]);
      DrainWaits(More(rd, chunks[0]));
      FeedOneMore(first.reader, chunks[1..], c);
      assert (chunks + [c])[1..] == chunks[1..] + [c];
    }
  }

  /** The inner loop of readIo: decode and deliver until a message is incomplete. */
  method DeliverAll(lastMsg: Msg, buf: Buffer) returns (last: Msg, delivered: seq<Frame>)
    requires Waiting(lastMsg.View())
    modifies lastMsg, buf
    ensures last == lastMsg || fresh(last)
    ensures Waiting(last.View()) && Output(delivered, Reader(last.View(), buf.bytes)) == Drain(old(Reader(lastMsg.View(), buf.bytes)))
  {
    hide Decode, Drain;
    ghost var start := Reader(lastMsg.View(), buf.bytes);
    last, delivered := lastMsg, [];
    var ok := true;
    while ok
      invariant last == lastMsg || fresh(last)
      invariant Waiting(last.View())
      invariant var rest := Drain(Reader(last.View(), buf.bytes)); Drain(start) == Output(delivered + rest.frames, rest.reader)
      invariant !ok ==> Drain(Reader(last.View(), buf.bytes)) == Output([], Reader(last.View(), buf.bytes))
      decreases |buf.bytes|, ok
    {
      ghost var rd := Reader(last.View(), buf.bytes);
      DecodeProgress(rd);
      DrainNext(rd);
      if !Decode(rd).ok { DrainNext(Decode(rd).reader); }
      ok := DecodeMsg(last, buf);
      if ok {
        delivered := delivered + [last.View()];
        last := new Msg();
      }
    }
  }

  /** readIo over the answers of the connection: it delivers what FeedAll says of the chunks it heard. */
  method ReadIo(events: seq<Event>) returns (delivered: seq<Frame>, ghost rd: Reader)
    ensures delivered == FeedAll(Reader(FRESH, []), Heard(events, 0)).frames
    ensures rd == FeedAll(Reader(FRESH, []), Heard(events, 0)).reader
  {
    hide FeedAll, Drain, Heard;
    FedNothing(Reader(FRESH, []));
    var failTimes := 0;
    var lastMsg := new Msg();
    var buf := new Buffer();
    ghost var heard: seq<seq<byte>> := [];
    delivered := [];
    var i := 0;
    var open := true;
    while i < |events| && open
      invariant 0 <= i <= |events| && (open ==> failTimes < 3) && fresh(lastMsg) && fresh(buf)
      invariant Waiting(lastMsg.View()) && Output(delivered, Reader(lastMsg.View(), buf.bytes)) == FeedAll(Reader(FRESH, []), heard)
      invariant Heard(events, 0) == heard + (if open then Heard(events[i..], failTimes) else [])
      decreases |events| - i
    {
      var event := events[i];
      HeardNext(events[i..], failTimes);
      assert events[i..][1..] == events[i + 1..];
      i := i + 1;
      match event {
        case Gone =>
          open := false;
        case Trouble =>
          failTimes := failTimes + 1;
          if failTimes >= 3 {
            open := false;
          }
        case Data(bytes) =>
          failTimes := 0;
          FeedOneMore(Reader(FRESH, []), heard, bytes);
          if |bytes| > 0 {
            buf.Write(bytes);
            var more;
            lastMsg, more := DeliverAll(lastMsg, buf);
            delivered := delivered + more;
          }
          heard := heard + [bytes];
      }
    }
    HeardNothing(failTimes);
    assert heard + [] == heard;
    rd := Reader(lastMsg.View(), buf.bytes);
  }
}
