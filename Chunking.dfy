/**
 * The chunked message transport of autogoal_remote/distributed/utils.py.
 *
 * A large text message is carried over a message-oriented connection as one
 * `{"type": "chunk_count", "count": n}` frame followed by `n` frames
 * `{"type": "chunk", "data": ...}`. The JSON text of each frame is produced and
 * parsed by a library; here a frame is the decoded value.
 */
module Chunking {
  import opened Wrappers

  /** One decoded text frame of the connection. `Message` is any JSON object that
      has no "type" field, such as a reply sent directly with `send_json`. */
  datatype Frame =
    | ChunkCount(count: int)
    | Chunk(data: string)
    | Message(text: string)

  /** Why sending a large message raised before any frame was sent. */
  datatype SendError = ZeroChunkSize

  /** Why receiving a large message raised; `position` is the index of the frame
      (counted from the first frame read) at which it happened. */
  datatype ReceiveError =
    | MissingType(position: nat)     // the frame has no "type" field (KeyError)
    | UnexpectedKind(position: nat)  // the frame has the other "type" (AssertionError)
    | StreamClosed(position: nat)    // the peer closed before that frame arrived

  /** What a reader obtained, and how many frames it took off the connection. */
  datatype Read<T> = Read(result: Result<T, ReceiveError>, consumed: nat)

  function Min(a: int, b: int): int { if a <= b then a else b }

  /** `"".join(cs)` */
  function Concat(cs: seq<string>): string
  {
    if cs == [] then "" else cs[0] + Concat(cs[1..])
  }

  /** The slices `data[i : i + size]` for i = start, start + size, ... below |data|:
      they join back to the suffix of `data`, every one has between 1 and `size`
      characters, every one but the last has exactly `size`, and there are
      ceil((|data| - start) / size) of them. */
  function ChunksFrom(data: string, size: nat, start: nat): (cs: seq<string>)
    requires size >= 1
    ensures start >= |data| ==> cs == []
    ensures start <= |data| ==> Concat(cs) == data[start..]
    ensures forall j :: 0 <= j < |cs| ==> 1 <= |cs[j]| <= size
    ensures forall j :: 0 <= j < |cs| - 1 ==> |cs[j]| == size
    ensures start <= |data| ==> (|cs| - 1) * size < |data| - start <= |cs| * size
    decreases |data| - start
  {
    if start >= |data| then []
    else
      var head := data[start..Min(start + size, |data|)];
      var tail := ChunksFrom(data, size, start + size);
      assert ([head] + tail)[0] == head && ([head] + tail)[1..] == tail;
      assert start + size < |data| ==> data[start..] == head + data[start + size..];
      [head] + tail
  }

  /** The list comprehension over `range(0, len(data), chunk_size)`: a zero step
      raises ValueError, a negative step gives no slices at all. */
  function Split(data: string, chunkSize: int): (r: Result<seq<string>, SendError>)
    ensures r.Failure? <==> chunkSize == 0
    ensures chunkSize < 0 ==> r == Success([])
  {
    if chunkSize == 0 then Failure(ZeroChunkSize)
    else if chunkSize < 0 then Success([])
    else Success(ChunksFrom(data, chunkSize, 0))
  }

  /** One data frame per slice, in slice order. */
  function ChunkFrames(cs: seq<string>): (fs: seq<Frame>)
  {
    seq(|cs|, j requires 0 <= j < |cs| => Chunk(cs[j]))
  }

  /** The whole frame stream for a list of slices: the count, then the slices. */
  function Frames(cs: seq<string>): (fs: seq<Frame>)
  {
    [ChunkCount(|cs|)] + ChunkFrames(cs)
  }

  /** The frames `send_large_message(data, chunkSize)` puts on the connection. */
  function Encoded(data: string, chunkSize: int): (fs: seq<Frame>)
  {
    match Split(data, chunkSize)
    case Success(cs) => Frames(cs)
    case Failure(_) => []
  }

  /** How many data frames `range(count)` asks for. */
  function Announced(count: int): nat { if count < 0 then 0 else count }

  /** A frame stream that `receive_large_message` accepts. */
  ghost predicate WellFramed(fs: seq<Frame>)
  {
    && |fs| >= 1
    && fs[0].ChunkCount?
    && 1 + Announced(fs[0].count) <= |fs|
    && forall j :: 1 <= j <= Announced(fs[0].count) ==> fs[j].Chunk?
  }

  /** Reading `remaining` data frames starting at index `pos`: the loop of
      `receive_large_message`. */
  function ReadChunks(fs: seq<Frame>, pos: nat, remaining: nat): (r: Read<seq<string>>)
    requires pos <= |fs|
    ensures pos <= r.consumed <= |fs|
    decreases remaining
  {
    if remaining == 0 then Read(Success([]), pos)
    else if pos == |fs| then Read(Failure(StreamClosed(pos)), pos)
    else match fs[pos]
      case Message(_) => Read(Failure(MissingType(pos)), pos + 1)
      case ChunkCount(_) => Read(Failure(UnexpectedKind(pos)), pos + 1)
      case Chunk(d) =>
        var rest := ReadChunks(fs, pos + 1, remaining - 1);
        if rest.result.Success? then Read(Success([d] + rest.result.value), rest.consumed)
        else rest
  }

  /** The loop succeeds iff the next `remaining` frames exist and are all data
      frames; then it has taken exactly those off the stream and returns their
      payloads in order. */
  lemma {:induction false} ReadChunksAccepts(fs: seq<Frame>, pos: nat, remaining: nat)
    requires pos <= |fs|
    ensures var r := ReadChunks(fs, pos, remaining);
      && (r.result.Success? <==>
            pos + remaining <= |fs| && forall j :: pos <= j < pos + remaining ==> fs[j].Chunk?)
      && (r.result.Success? ==>
            && r.consumed == pos + remaining
            && |r.result.value| == remaining
            && forall j :: 0 <= j < remaining ==> r.result.value[j] == fs[pos + j].data)
    decreases remaining
  {
    if remaining > 0 && pos < |fs| && fs[pos].Chunk? {
      ReadChunksAccepts(fs, pos + 1, remaining - 1);
      var r := ReadChunks(fs, pos, remaining);
      if r.result.Success? {
        forall j | 0 <= j < remaining ensures r.result.value[j] == fs[pos + j].data {
          if j > 0 {
            assert r.result.value[j] == ReadChunks(fs, pos + 1, remaining - 1).result.value[j - 1];
          }
        }
      }
    }
  }

  /** When the loop fails, it has stopped at the first frame that is not a data
      frame and taken it, or at the end of the stream; nothing after that frame is
      touched. */
  lemma {:induction false} ReadChunksStops(fs: seq<Frame>, pos: nat, remaining: nat)
    requires pos <= |fs|
    requires ReadChunks(fs, pos, remaining).result.Failure?
    ensures var r := ReadChunks(fs, pos, remaining);
      var e := r.result.error.position;
      && pos <= e < pos + remaining && e <= |fs|
      && (forall j :: pos <= j < e ==> fs[j].Chunk?)
      && (r.result.error.StreamClosed? <==> e == |fs|)
      && (e < |fs| ==> !fs[e].Chunk? && r.consumed == e + 1)
      && (e == |fs| ==> r.consumed == e)
    decreases remaining
  {
    if pos < |fs| && fs[pos].Chunk? {
      ReadChunksStops(fs, pos + 1, remaining - 1);
    }
  }

  /** `receive_large_message` over the frames waiting on the connection. */
  function Receive(fs: seq<Frame>): (r: Read<string>)
    ensures r.consumed <= |fs|
    ensures |fs| >= 1 && !fs[0].ChunkCount? ==> r.result.Failure? && r.consumed == 1
  {
    if |fs| == 0 then Read(Failure(StreamClosed(0)), 0)
    else match fs[0]
      case Message(_) => Read(Failure(MissingType(0)), 1)
      case Chunk(_) => Read(Failure(UnexpectedKind(0)), 1)
      case ChunkCount(n) =>
        var body := ReadChunks(fs, 1, Announced(n));
        if body.result.Success? then Read(Success(Concat(body.result.value)), body.consumed)
        else Read(Failure(body.result.error), body.consumed)
  }

  /** Receiving succeeds exactly on a well-framed stream; then it has consumed the
      count frame and the announced data frames and nothing more, and returns their
      payloads joined in order. */
  lemma ReceiveAccepts(fs: seq<Frame>)
    ensures Receive(fs).result.Success? <==> WellFramed(fs)
    ensures WellFramed(fs) ==>
      && Receive(fs).consumed == 1 + Announced(fs[0].count)
      && Receive(fs).result.value
         == Concat(seq(Announced(fs[0].count), j requires 0 <= j < Announced(fs[0].count) => fs[1 + j].data))
  {
    if |fs| >= 1 && fs[0].ChunkCount? {
      var n := Announced(fs[0].count);
      ReadChunksAccepts(fs, 1, n);
      ReceiveCounted(fs, fs[0].count);
      var body := ReadChunks(fs, 1, n);
      if body.result.Success? {
        assert body.result.value
            == seq(Announced(fs[0].count), j requires 0 <= j < Announced(fs[0].count) => fs[1 + j].data);
      }
    }
  }

  /** A failed receive names the first offending frame: the first frame if it is
      not a count frame, else the first of the announced frames that is not a data
      frame, having consumed it; or the end of the stream, having consumed
      everything. */
  lemma ReceiveStops(fs: seq<Frame>)
    requires Receive(fs).result.Failure?
    ensures var r := Receive(fs);
      var e := r.result.error.position;
      && e <= |fs|
      && (r.result.error.StreamClosed? <==> e == |fs|)
      && (e == |fs| ==> r.consumed == e)
      && (e < |fs| ==> r.consumed == e + 1)
      && (e == 0 || (fs[0].ChunkCount? && e <= Announced(fs[0].count)))
      && (0 < e < |fs| ==> !fs[e].Chunk?)
      && (forall j :: 1 <= j < e ==> fs[j].Chunk?)
      && (e == 0 < |fs| ==> !fs[0].ChunkCount?)
  {
    if |fs| >= 1 && fs[0].ChunkCount? {
      ReadChunksStops(fs, 1, Announced(fs[0].count));
      ReceiveCounted(fs, fs[0].count);
    }
  }

  /** Receiving what was sent for a list of slices returns the slices joined, takes
      exactly the count frame and one frame per slice, and leaves any later frames
      for the next reader. */
  lemma FramesReceived(cs: seq<string>, rest: seq<Frame>)
    ensures Receive(Frames(cs) + rest) == Read(Success(Concat(cs)), 1 + |cs|)
  {
    FramesLayout(cs, rest);
    CountedStreamReceived(Frames(cs) + rest, cs);
  }

  /** Where the count frame and the data frames sit in the stream. */
  lemma FramesLayout(cs: seq<string>, rest: seq<Frame>)
    ensures var fs := Frames(cs) + rest;
      && 1 + |cs| <= |fs| && fs[0] == ChunkCount(|cs|)
      && fs[1..] == ChunkFrames(cs) + fs[1 + |cs|..]
  {
    var fs := Frames(cs) + rest;
    assert fs == [ChunkCount(|cs|)] + (ChunkFrames(cs) + rest);
    assert fs[1..] == ChunkFrames(cs) + rest;
    assert |ChunkFrames(cs)| == |cs|;
    assert fs[1 + |cs|..] == rest;
  }

  /** A count frame for `cs` followed by the data frames for `cs`. */
  lemma CountedStreamReceived(fs: seq<Frame>, cs: seq<string>)
    requires 1 + |cs| <= |fs| && fs[0] == ChunkCount(|cs|)
    requires fs[1..] == ChunkFrames(cs) + fs[1 + |cs|..]
    ensures Receive(fs) == Read(Success(Concat(cs)), 1 + |cs|)
  {
    ChunkFramesRead(fs, 1, cs);
    ReceiveCounted(fs, |cs|);
  }

  /** A stream that starts with a count frame is received by the loop. */
  lemma ReceiveCounted(fs: seq<Frame>, n: int)
    requires |fs| >= 1 && fs[0] == ChunkCount(n)
    ensures var body := ReadChunks(fs, 1, Announced(n));
      Receive(fs) == if body.result.Success? then Read(Success(Concat(body.result.value)), body.consumed)
                     else Read(Failure(body.result.error), body.consumed)
  {
  }

  /** Data frames for `cs` at index `pos` are read back as `cs`. */
  lemma {:induction false} ChunkFramesRead(fs: seq<Frame>, pos: nat, cs: seq<string>)
    requires pos + |cs| <= |fs|
    requires fs[pos..] == ChunkFrames(cs) + fs[pos + |cs|..]
    ensures ReadChunks(fs, pos, |cs|) == Read(Success(cs), pos + |cs|)
    decreases |cs|
  {
    if cs != [] {
      assert fs[pos] == fs[pos..][0] == Chunk(cs[0]);
      assert fs[pos + 1..] == fs[pos..][1..];
      assert ChunkFrames(cs)[1..] == ChunkFrames(cs[1..]);
      assert (ChunkFrames(cs) + fs[pos + |cs|..])[1..] == ChunkFrames(cs[1..]) + fs[pos + |cs|..];
      ChunkFramesRead(fs, pos + 1, cs[1..]);
      assert [cs[0]] + cs[1..] == cs;
    }
  }

  /** The chunked transport is lossless: for every chunk size the sender accepts,
      the receiver gets back exactly the sent text, after exactly 1 + ceil(|data| /
      chunkSize) frames, whatever the connection carries afterwards. */
  lemma RoundTrip(data: string, chunkSize: int, rest: seq<Frame>)
    requires chunkSize >= 1
    ensures Receive(Encoded(data, chunkSize) + rest) == Read(Success(data), 1 + |ChunksFrom(data, chunkSize, 0)|)
  {
    var cs := ChunksFrom(data, chunkSize, 0);
    assert Encoded(data, chunkSize) == Frames(cs);
    FramesReceived(cs, rest);
  }

  /** Slices of a 10,000-character text at chunk size 500: twenty frames of data. */
  lemma TenThousandInFiveHundreds(data: string)
    requires |data| == 10000
    ensures |ChunksFrom(data, 500, 0)| == 20
  {
    var n := |ChunksFrom(data, 500, 0)|;
    assert (n - 1) * 500 < 10000 <= n * 500;
  }

  /** A connection end: what the peer sent and this side has not read yet, and
      what this side has sent so far. */
  class WebSocket {
    var incoming: seq<Frame>
    var outgoing: seq<Frame>

    constructor (incoming: seq<Frame>)
      ensures this.incoming == incoming && outgoing == []
    {
      this.incoming := incoming;
      outgoing := [];
    }

    /** `send_text(json.dumps(frame))` */
    method Send(f: Frame)
      modifies this
      ensures outgoing == old(outgoing) + [f] && incoming == old(incoming)
    {
      outgoing := outgoing + [f];
    }

    /** `json.loads(receive_text())`; `None` when the peer has closed. */
    method Next() returns (f: Option<Frame>)
      modifies this
      ensures old(incoming) == [] ==> f == None && incoming == []
      ensures old(incoming) != [] ==> f == Some(old(incoming)[0]) && incoming == old(incoming)[1..]
      ensures outgoing == old(outgoing)
    {
      if incoming == [] {
        f := None;
      } else {
        f := Some(incoming[0]);
        incoming := incoming[1..];
      }
    }
  }

  /** `send_large_message(websocket, data, chunk_size)`: sends the count frame, then
      one data frame per slice, and nothing else; a zero chunk size raises before
      anything is sent. */
  method SendLargeMessage(ws: WebSocket, data: string, chunkSize: int) returns (r: Result<(), SendError>)
    modifies ws
    ensures r.Failure? <==> chunkSize == 0
    ensures ws.outgoing == old(ws.outgoing) + Encoded(data, chunkSize)
    ensures ws.incoming == old(ws.incoming)
  {
    var split := Split(data, chunkSize);
    if split.Failure? {
      return Failure(split.error);
    }
    var chunks := split.value;
    ws.Send(ChunkCount(|chunks|));
    var i := 0;
    while i < |chunks|
      invariant 0 <= i <= |chunks|
      invariant ws.outgoing == old(ws.outgoing) + [ChunkCount(|chunks|)] + ChunkFrames(chunks[..i])
      invariant ws.incoming == old(ws.incoming)
    {
      assert ChunkFrames(chunks[..i + 1]) == ChunkFrames(chunks[..i]) + [Chunk(chunks[i])];
      ws.Send(Chunk(chunks[i]));
      i := i + 1;
    }
    assert chunks[..i] == chunks;
    r := Success(());
  }

  /** Prefixes the payloads already read to the outcome of reading the rest. */
  function Prepend(done: seq<string>, r: Read<seq<string>>): Read<seq<string>>
  {
    if r.result.Success? then Read(Success(done + r.result.value), r.consumed) else r
  }

  /** With no payload read yet, the loop invariant holds of the whole read. */
  lemma PrependNothing(r: Read<seq<string>>)
    ensures Prepend([], r) == r
  {
    if r.result.Success? {
      assert [] + r.result.value == r.result.value;
    }
  }

  /** One data frame read by the loop moves its payload to the part already read. */
  lemma ReadStep(fs: seq<Frame>, pos: nat, remaining: nat, done: seq<string>, d: string)
    requires pos < |fs| && remaining >= 1 && fs[pos] == Chunk(d)
    ensures Prepend(done, ReadChunks(fs, pos, remaining)) == Prepend(done + [d], ReadChunks(fs, pos + 1, remaining - 1))
  {
    var tail := ReadChunks(fs, pos + 1, remaining - 1);
    if tail.result.Success? {
      assert done + ([d] + tail.result.value) == (done + [d]) + tail.result.value;
    }
  }

  /** `receive_large_message(websocket)`: returns what `Receive` says of the frames
      waiting on the connection, and takes exactly the frames it consumed. */
  method ReceiveLargeMessage(ws: WebSocket) returns (r: Result<string, ReceiveError>)
    modifies ws
    ensures r == Receive(old(ws.incoming)).result
    ensures ws.incoming == old(ws.incoming)[Receive(old(ws.incoming)).consumed..]
    ensures ws.outgoing == old(ws.outgoing)
  {
    ghost var fs := ws.incoming;
    var first := ws.Next();
    if first.None? {
      return Failure(StreamClosed(0));
    }
    match first.value {
      case Message(_) =>
        return Failure(MissingType(0));
      case Chunk(_) =>
        return Failure(UnexpectedKind(0));
      case ChunkCount(count) =>
        var n := Announced(count);
        var chunks: seq<string> := [];
        var i := 0;
        PrependNothing(ReadChunks(fs, 1, n));
        while i < n
          invariant 0 <= i <= n && 1 + i <= |fs|
          invariant ws.incoming == fs[1 + i..]
          invariant ws.outgoing == old(ws.outgoing)
          invariant ReadChunks(fs, 1, n) == Prepend(chunks, ReadChunks(fs, 1 + i, n - i))
        {
          var f := ws.Next();
          if f.None? {
            return Failure(StreamClosed(1 + i));
          }
          match f.value {
            case Message(_) =>
              return Failure(MissingType(1 + i));
            case ChunkCount(_) =>
              return Failure(UnexpectedKind(1 + i));
            case Chunk(d) =>
              ReadStep(fs, 1 + i, n - i, chunks, d);
              chunks := chunks + [d];
          }
          i := i + 1;
        }
        assert chunks + [] == chunks;
        ReceiveCounted(fs, count);
        r := Success(Concat(chunks));
    }
  }
}
