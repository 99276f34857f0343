/**
 The loops a relay session runs over its sockets (internal/bridge/bridge.go): the client watch during the
 dial, and copyIdle from the relay to the client. The other copyIdle is, interleaved with the dial and the watch,
 the subject of module Session.
 */
module CopyLoops {
  import opened Wrappers
  import opened Bits
  import opened TokenCrypto
  import opened Tunnels
  import opened Session

  /** How a copy loop ended. */
  datatype CopyEnd = CleanEnd | IdleTimeout | ReadFailed | WriteFailed

  function EndOfRead(error: IoError): CopyEnd {
    match error
    case EndOfStream => CleanEnd
    case DeadlineExceeded => IdleTimeout
    case _ => ReadFailed
  }

  /** `used` was read off the front of a socket's script. */
  predicate Consumed(before: seq<ReadEvent>, used: seq<ReadEvent>, after: seq<ReadEvent>) {
    before == used + after
  }

  class ClientWatch {
    const conn: Stream
    var buf: Bytes
    var stopping: bool
    var gone: bool

    constructor (conn: Stream)
      ensures this.conn == conn && buf == [] && !stopping && !gone
    {
      this.conn := conn;
      buf, stopping, gone := [], false, false;
    }

    /**
     Reads until the socket reports an error or, after `budget` reads, stop wakes the reader with its
     deadline. Every byte that was read is kept, in order; only an error that was not stop's own doing
     reports the client as gone.
     */
    method Read(budget: nat) returns (ghost used: seq<ReadEvent>)
      modifies this`buf, this`stopping, this`gone, conn`incoming
      ensures Consumed(old(conn.incoming), used, conn.incoming)
      ensures buf == old(buf) + BytesOf(used)
      ensures gone ==>
            (old(gone)
             || (!old(stopping) && (conn.incoming == [] || (used != [] && used[|used| - 1].error.Some?))))
      ensures stopping == old(stopping) || !gone || old(gone)
      ensures old(!gone && !stopping) ==> gone || stopping
      ensures |used| <= budget && ReadsUp(old(conn.incoming), |used|)
      ensures stopping && !old(stopping) ==> |used| == budget && forall event :: event in used ==> event.error.None?
    {
      used := [];
      for round := 0 to budget
        invariant Consumed(old(conn.incoming), used, conn.incoming)
        invariant buf == old(buf) + BytesOf(used) && stopping == old(stopping) && gone == old(gone)
        invariant |used| == round && forall event :: event in used ==> event.error.None?
      {
        ghost var available := conn.incoming;
        var event := conn.Read();
        if available != [] {
          BytesOfAppend(used, [event]);
          used := used + [event];
        }
        buf := buf + event.bytes;
        if event.error.Some? {
          if !stopping {
            gone := true;
          }
          return;
        }
      }
      stopping := true;
    }
  }

  /** A read with room for a byte makes progress or reports an error, and an error comes with nothing left over. */
  lemma ReadProgress(reader: Reader, size: nat)
    requires reader.decoder.Valid() && size > 0
    ensures var step := ReadCall(reader, size);
            || step.error.Some?
            || |step.reader.incoming| < |reader.incoming|
            || (|step.reader.incoming| == |reader.incoming| && |step.reader.buffer| < |reader.buffer|)
    ensures ReadCall(reader, size).error.Some? ==> Final(reader, ReadCall(reader, size))
  {
    if reader.buffer == [] {
      FetchProgress(reader, size, 0);
    }
  }

  predicate Final(reader: Reader, step: ReadStep) {
    && step.output == [] && step.reader.buffer == []
    && (step.error == Some(EndOfStream) && EndsOnce(reader.incoming) ==> step.reader.incoming == [])
  }

  lemma {:induction false} FetchProgress(reader: Reader, size: nat, rounds: nat)
    requires reader.decoder.Valid()
    ensures var step := Fetch(reader, size, rounds);
            (step.error.Some? || |step.reader.incoming| < |reader.incoming|)
            && (step.error.Some? && reader.buffer == [] ==> Final(reader, step))
    decreases |reader.incoming|
  {
    hide DecodeChunk;
    if reader.incoming == [] {
    } else {
      var event := reader.incoming[0];
      var step := DecodeChunk(reader.decoder, event.bytes);
      assert EndsOnce(reader.incoming) && |reader.incoming| > 1 ==> event.error != Some(EndOfStream);
      EndsOnceTail([event], reader.incoming[1..]);
      assert [event] + reader.incoming[1..] == reader.incoming;
      if step.1 == [] && event.error.None? {
        FetchProgress(Reader(step.0, step.1, reader.incoming[1..]), size, rounds + 1);
      }
    }
  }

  lemma EndsOnceTail(used: seq<ReadEvent>, rest: seq<ReadEvent>)
    ensures EndsOnce(used + rest) ==> EndsOnce(rest)
  {
    forall i | 0 <= i < |rest| - 1 ensures rest[i] == (used + rest)[|used| + i] {}
  }

  /** The last read was the one with this error, or the socket had nothing more to give. */
  predicate EndsWith(used: seq<ReadEvent>, after: seq<ReadEvent>, error: IoError) {
    || (used != [] && used[|used| - 1].error == Some(error))
    || (after == [] && error == EndOfStream)
  }

  lemma UsedAre(before: seq<ReadEvent>, used: seq<ReadEvent>, n: nat)
    requires n <= |before| && before == used + before[n..]
    ensures used == before[..n]
  {
    assert before == before[..n] + before[n..];
  }

  const COPY_BUFFER := 32 * 1024

  /** One read of the copy loop, with what it says about the relay's stream. */
  method ReadTunnel(tunnel: Tunnel, ghost token: Key, ghost consumed: Bytes, ghost delivered: Bytes)
    returns (output: Bytes, error: Option<IoError>, ghost used: seq<ReadEvent>)
    requires tunnel.Valid() && Reached(token, consumed, delivered, tunnel.View())
    modifies tunnel`readBuf, tunnel.stream`incoming, tunnel.decoder, tunnel.decoder.key
    ensures tunnel.Valid() && tunnel.decoder.key == old(tunnel.decoder.key)
    ensures Reached(token, consumed + BytesOf(used), delivered + output, tunnel.View())
    ensures Consumed(old(tunnel.stream.incoming), used, tunnel.stream.incoming)
    ensures || error.Some?
            || |tunnel.stream.incoming| < |old(tunnel.stream.incoming)|
            || (|tunnel.stream.incoming| == |old(tunnel.stream.incoming)| && |tunnel.readBuf| < |old(tunnel.readBuf)|)
    ensures error.Some? ==> output == [] && tunnel.readBuf == []
    ensures error == Some(EndOfStream) && EndsOnce(old(tunnel.stream.incoming)) ==> tunnel.stream.incoming == []
    ensures error.None? ==> output != []
    ensures error.Some? ==> EndsWith(used, tunnel.stream.incoming, error.value)
  {
    hide Decoded, DecoderAfter, ReadCall, Reached;
    ghost var before := tunnel.View();
    ReachedIsValid(token, consumed, delivered, before);
    ReadProgress(before, COPY_BUFFER);
    used := ReadConserves(token, consumed, delivered, before, COPY_BUFFER);
    ghost var n := ReadEndsAsTheSocket(before, COPY_BUFFER);
    UsedAre(before.incoming, used, n);
    ghost var rounds;
    output, error, rounds := tunnel.Read(COPY_BUFFER);
  }

  lemma ReachedIsValid(token: Key, consumed: Bytes, delivered: Bytes, reader: Reader)
    requires Reached(token, consumed, delivered, reader)
    ensures reader.decoder.Valid()
  {
  }

  /**
   The camera direction. The client receives, in order and once, the plaintext of the relay bytes consumed;
   all of it unless a write to the client failed, and the total is what the client received.
   */
  method CopyToClient(client: Stream, tunnel: Tunnel, ghost token: Key)
    returns (total: nat, end: CopyEnd, ghost consumed: Bytes, ghost got: Bytes, ghost events: seq<ReadEvent>)
    requires tunnel.Valid() && tunnel.stream != client
    requires tunnel.decoder.View() == NewDecoder(token) && tunnel.readBuf == []
    modifies client`written, client`outcomes, tunnel`readBuf, tunnel.stream`incoming, tunnel.decoder, tunnel.decoder.key
    ensures consumed + BytesOf(tunnel.stream.incoming) == old(BytesOf(tunnel.stream.incoming))
    ensures got + tunnel.readBuf == Decoded(token, consumed)
    ensures total <= |got| && client.written == old(client.written) + got[..total]
    ensures !end.WriteFailed? ==> total == |got|
    ensures Consumed(old(tunnel.stream.incoming), events, tunnel.stream.incoming)
    ensures match end
            case CleanEnd => EndsWith(events, tunnel.stream.incoming, EndOfStream)
            case IdleTimeout => EndsWith(events, tunnel.stream.incoming, DeadlineExceeded)
            case ReadFailed =>
              EndsWith(events, tunnel.stream.incoming, Broken) || EndsWith(events, tunnel.stream.incoming, CryptoFailed)
            case WriteFailed => exists o :: o in old(client.outcomes) && o.BrokenAfter?
    ensures end.CleanEnd? && old(EndsOnce(tunnel.stream.incoming)) ==>
              client.written == old(client.written) + Decoded(token, old(BytesOf(tunnel.stream.incoming)))
  {
    hide Decoded, DecoderAfter, ReadCall, Reached, EndsOnce, BytesOf;
    total, consumed, got, events := 0, [], [], [];
    assert client.written == client.written + []
        && [] + BytesOf(tunnel.stream.incoming) == BytesOf(tunnel.stream.incoming);
    FreshReached(token, tunnel.View());
    ghost var rest := tunnel.stream.incoming;
    while true
      invariant tunnel.Valid() && tunnel.decoder.key == old(tunnel.decoder.key)
      invariant Reached(token, consumed, got, tunnel.View())
      invariant rest == tunnel.stream.incoming && (old(EndsOnce(tunnel.stream.incoming)) ==> EndsOnce(rest))
      invariant consumed + BytesOf(rest) == old(BytesOf(tunnel.stream.incoming))
      invariant total == |got| && client.written == old(client.written) + got
      invariant Consumed(old(tunnel.stream.incoming), events, tunnel.stream.incoming)
      invariant forall o :: o in client.outcomes ==> o in old(client.outcomes)
      decreases |tunnel.stream.incoming|, |tunnel.readBuf|
    {
      var output, error, used := ReadTunnel(tunnel, token, consumed, got);
      BytesOfAppend(used, tunnel.stream.incoming);
      EndsOnceTail(used, tunnel.stream.incoming);
      rest := tunnel.stream.incoming;
      consumed := consumed + BytesOf(used);
      events := events + used;
      ghost var before := got;
      got := got + output;
      if |output| > 0 {
        var count, failure := client.Write(output);
        CutJoined(before, output, count);
        total := total + count;
        if failure.Some? {
          ReachedMeans(token, consumed, got, tunnel.View());
          return total, WriteFailed, consumed, got, events;
        }
      }
      if error.Some? {
        assert got + [] == got && consumed + [] == consumed && got[..|got|] == got;
        ReachedMeans(token, consumed, got, tunnel.View());
        if tunnel.stream.incoming == [] { NothingLeft(); }
        return total, EndOfRead(error.value), consumed, got, events;
      }
    }
  }

  lemma CutJoined(a: Bytes, b: Bytes, count: nat)
    requires count <= |b|
    ensures (a + b)[..|a| + count] == a + b[..count]
    ensures count == |b| ==> a + b[..count] == a + b
  {
  }

  lemma ReachedMeans(token: Key, consumed: Bytes, delivered: Bytes, reader: Reader)
    requires Reached(token, consumed, delivered, reader)
    ensures delivered + reader.buffer == Decoded(token, consumed)
  {
    hide Decoded, DecoderAfter;
  }

  lemma NothingLeft()
    ensures BytesOf([]) == []
  {
  }

  lemma FreshReached(token: Key, reader: Reader)
    requires reader.decoder == NewDecoder(token) && reader.buffer == []
    ensures Reached(token, [], [], reader)
  {
  }
}
