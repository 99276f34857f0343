/**
 The byte-transparent relay connection (internal/magic/tunnel.go): reads decode what the relay sends and
 absorb the one-time bootstrap, writes encode toward the relay.

 The stream socket is a script: what each of its reads will yield and how far each of its writes will get.
 */
module Tunnels {
  import opened Wrappers
  import opened Sequences
  import opened Bits
  import opened TokenCrypto

  datatype IoError = EndOfStream | DeadlineExceeded | Broken | CryptoFailed

  /** One read of a socket. It may yield bytes and an error together. */
  datatype ReadEvent = ReadEvent(bytes: Bytes, error: Option<IoError>)

  /** One write of a socket: complete, or broken after some of the bytes got out. */
  datatype WriteEvent = Complete | BrokenAfter(count: nat)

  function BytesOf(events: seq<ReadEvent>): Bytes {
    if events == [] then [] else events[0].bytes + BytesOf(events[1..])
  }

  lemma {:induction false} BytesOfAppend(a: seq<ReadEvent>, b: seq<ReadEvent>)
    ensures BytesOf(a + b) == BytesOf(a) + BytesOf(b)
  {
    if a == [] {
      assert a + b == b;
    } else {
      assert (a + b)[1..] == a[1..] + b;
      BytesOfAppend(a[1..], b);
    }
  }

  // ---- reading ----

  datatype Reader = Reader(decoder: DecoderState, buffer: Bytes, incoming: seq<ReadEvent>)

  /** What one Read call returns, and how many reads of the socket it took. */
  datatype ReadStep = ReadStep(reader: Reader, output: Bytes, error: Option<IoError>, rounds: nat)

  function TakeBuffered(reader: Reader, size: nat, rounds: nat): ReadStep {
    var count := if size < |reader.buffer| then size else |reader.buffer|;
    ReadStep(reader.(buffer := reader.buffer[count..]), reader.buffer[..count], None, rounds)
  }

  function ReadCall(reader: Reader, size: nat): ReadStep
    requires reader.decoder.Valid()
  {
    if reader.buffer != [] then TakeBuffered(reader, size, 0) else Fetch(reader, size, 0)
  }

  /** The loop of Read: `rounds` socket reads were made before. */
  function Fetch(reader: Reader, size: nat, rounds: nat): (r: ReadStep)
    requires reader.decoder.Valid()
    ensures r.reader.decoder.Valid()
    decreases |reader.incoming|
  {
    if reader.incoming == [] then ReadStep(reader, [], Some(EndOfStream), rounds + 1)
    else
      var event := reader.incoming[0];
      var step := DecodeChunk(reader.decoder, event.bytes);
      var next := Reader(step.0, step.1, reader.incoming[1..]);
      if step.1 != [] then TakeBuffered(next, size, rounds + 1)
      else if event.error.Some? then ReadStep(next, [], event.error, rounds + 1)
      else Fetch(next, size, rounds + 1)
  }

  /**
   `reader` has consumed exactly `consumed` of the relay's stream and handed exactly `delivered` of its
   plaintext to the caller; the rest of that plaintext is in the buffer.
   */
  predicate Reached(token: Key, consumed: Bytes, delivered: Bytes, reader: Reader) {
    reader.decoder == DecoderAfter(token, consumed)
    && delivered + reader.buffer == Decoded(token, consumed)
  }

  /** The part of the socket's script a call used up. */
  predicate Used(before: Reader, after: Reader, used: seq<ReadEvent>) {
    before.incoming == used + after.incoming
  }

  lemma {:induction false} FetchConserves(
      token: Key, consumed: Bytes, delivered: Bytes, reader: Reader, size: nat, rounds: nat)
    returns (used: seq<ReadEvent>)
    requires Reached(token, consumed, delivered, reader) && reader.buffer == []
    ensures var step := Fetch(reader, size, rounds);
            Used(reader, step.reader, used)
            && Reached(token, consumed + BytesOf(used), delivered + step.output, step.reader)
            && |step.output| <= size
    decreases |reader.incoming|
  {
    hide DecodeChunk, Decoded, DecoderAfter;
    if reader.incoming == [] {
      used := [];
      assert consumed + BytesOf(used) == consumed && delivered + [] == delivered;
    } else {
      var event := reader.incoming[0];
      DecodeContinues(token, consumed, event.bytes);
      var step := DecodeChunk(reader.decoder, event.bytes);
      var next := Reader(step.0, step.1, reader.incoming[1..]);
      assert Reached(token, consumed + event.bytes, delivered, next) by {
        assert delivered + [] == delivered;
      }
      if step.1 != [] {
        used := [event];
        assert consumed + BytesOf(used) == consumed + event.bytes;
        TakeConserves(token, consumed + event.bytes, delivered, next, size, rounds + 1);
      } else if event.error.Some? {
        used := [event];
        assert consumed + BytesOf(used) == consumed + event.bytes;
        assert delivered + [] == delivered;
      } else {
        var rest := FetchConserves(token, consumed + event.bytes, delivered, next, size, rounds + 1);
        used := [event] + rest;
        assert consumed + BytesOf(used) == consumed + event.bytes + BytesOf(rest);
      }
    }
  }

  lemma TakeConserves(token: Key, consumed: Bytes, delivered: Bytes, reader: Reader, size: nat, rounds: nat)
    requires Reached(token, consumed, delivered, reader)
    ensures var step := TakeBuffered(reader, size, rounds);
            step.reader.incoming == reader.incoming
            && Reached(token, consumed, delivered + step.output, step.reader)
            && |step.output| <= size
  {
    var step := TakeBuffered(reader, size, rounds);
    assert step.output + step.reader.buffer == reader.buffer;
  }

  lemma ReadConserves(token: Key, consumed: Bytes, delivered: Bytes, reader: Reader, size: nat)
    returns (used: seq<ReadEvent>)
    requires Reached(token, consumed, delivered, reader)
    ensures var step := ReadCall(reader, size);
            Used(reader, step.reader, used)
            && Reached(token, consumed + BytesOf(used), delivered + step.output, step.reader)
            && |step.output| <= size
  {
    hide Decoded, DecoderAfter;
    if reader.buffer != [] {
      used := [];
      assert consumed + BytesOf(used) == consumed;
      TakeConserves(token, consumed, delivered, reader, size, 0);
    } else {
      used := FetchConserves(token, consumed, delivered, reader, size, 0);
    }
  }

  /** The outputs of a run of Read calls with the given buffer sizes, and the reader after it. */
  function ReadAll(reader: Reader, sizes: seq<nat>): (r: (seq<Bytes>, Reader))
    requires reader.decoder.Valid()
    ensures r.1.decoder.Valid()
    decreases |sizes|
  {
    if sizes == [] then ([], reader)
    else
      var step := ReadCall(reader, sizes[0]);
      var rest := ReadAll(step.reader, sizes[1..]);
      ([step.output] + rest.0, rest.1)
  }

  lemma {:induction false} ReadAllConserves(
      token: Key, consumed: Bytes, delivered: Bytes, reader: Reader, sizes: seq<nat>)
    returns (used: seq<ReadEvent>)
    requires Reached(token, consumed, delivered, reader)
    ensures var run := ReadAll(reader, sizes);
            Used(reader, run.1, used)
            && Reached(token, consumed + BytesOf(used), delivered + Flatten(run.0), run.1)
    decreases |sizes|
  {
    hide Decoded, DecoderAfter, ReadCall;
    if sizes == [] {
      used := [];
      assert consumed + BytesOf(used) == consumed && delivered + Flatten<Byte>([]) == delivered;
    } else {
      var step := ReadCall(reader, sizes[0]);
      var first := ReadConserves(token, consumed, delivered, reader, sizes[0]);
      var rest := ReadAllConserves(token, consumed + BytesOf(first), delivered + step.output, step.reader, sizes[1..]);
      used := first + rest;
      BytesOfAppend(first, rest);
      assert consumed + BytesOf(used) == consumed + BytesOf(first) + BytesOf(rest);
      FlattenCons(step.output, ReadAll(step.reader, sizes[1..]).0);
      assert delivered + Flatten(ReadAll(reader, sizes).0)
          == delivered + step.output + Flatten(ReadAll(step.reader, sizes[1..]).0);
    }
  }

  /**
   However the relay's stream is cut and whatever buffers the caller brings: the outputs and the leftover
   buffer are together the decoding of the bytes consumed, and a prefix of the decoding of the whole stream.
   */
  lemma ReadIsTransparent(token: Key, incoming: seq<ReadEvent>, sizes: seq<nat>)
    ensures var run := ReadAll(Reader(NewDecoder(token), [], incoming), sizes);
            && |run.1.incoming| <= |incoming|
            && Flatten(run.0) + run.1.buffer == Decoded(token, BytesOf(incoming[..|incoming| - |run.1.incoming|]))
            && Flatten(run.0) <= Decoded(token, BytesOf(incoming))
  {
    var reader := Reader(NewDecoder(token), [], incoming);
    var run := ReadAll(reader, sizes);
    var used := ReadAllConserves(token, [], [], reader, sizes);
    assert [] + BytesOf(used) == BytesOf(used) && [] + Flatten(run.0) == Flatten(run.0);
    assert used == incoming[..|incoming| - |run.1.incoming|];
    BytesOfAppend(used, run.1.incoming);
    DecodedPrefix(token, BytesOf(used), BytesOf(incoming));
  }

  /** The first `n` reads were without an error, up to the last of them. */
  predicate ReadsUp(incoming: seq<ReadEvent>, n: nat) {
    n <= |incoming| && forall k :: 0 <= k < n - 1 ==> incoming[k].error.None?
  }

  /** The last socket read of the call found nothing more. */
  predicate Exhausted(incoming: seq<ReadEvent>, n: nat, step: ReadStep) {
    step.error.Some? && n == |incoming| && (n > 0 ==> incoming[n - 1].error.None?)
  }

  lemma {:induction false} FetchEnds(reader: Reader, size: nat, rounds: nat) returns (n: nat)
    requires reader.decoder.Valid() && reader.buffer == []
    ensures var step := Fetch(reader, size, rounds);
            && ReadsUp(reader.incoming, n) && step.reader.incoming == reader.incoming[n..]
            && (step.error.None? && size > 0 ==> step.output != [])
            && step.rounds == rounds + n + (if Exhausted(reader.incoming, n, step) then 1 else 0)
            && (step.error.Some? ==>
                  || (n > 0 && reader.incoming[n - 1].error == step.error)
                  || (n == |reader.incoming| && step.error == Some(EndOfStream)
                      && (n > 0 ==> reader.incoming[n - 1].error.None?)))
    decreases |reader.incoming|
  {
    hide DecodeChunk;
    if reader.incoming == [] {
      n := 0;
    } else {
      var event := reader.incoming[0];
      var step := DecodeChunk(reader.decoder, event.bytes);
      var next := Reader(step.0, step.1, reader.incoming[1..]);
      if step.1 != [] || event.error.Some? {
        n := 1;
      } else {
        var rest := FetchEnds(next, size, rounds + 1);
        n := rest + 1;
        assert reader.incoming[n..] == reader.incoming[1..][rest..];
        forall k | 0 <= k < n - 1 ensures reader.incoming[k].error.None? {
          if k > 0 { assert reader.incoming[k] == reader.incoming[1..][k - 1]; }
        }
      }
    }
  }

  /**
   A read with room gives bytes, or ends with the error of the last socket read it made or with the end of the socket;
   it passes over no error on the way, and `rounds` counts the socket reads it made.
   */
  lemma ReadEndsAsTheSocket(reader: Reader, size: nat) returns (n: nat)
    requires reader.decoder.Valid()
    ensures var step := ReadCall(reader, size);
            && ReadsUp(reader.incoming, n) && step.reader.incoming == reader.incoming[n..]
            && (step.error.None? && size > 0 ==> step.output != [])
            && step.rounds == n + (if Exhausted(reader.incoming, n, step) then 1 else 0)
            && (step.error.Some? ==>
                  || (n > 0 && reader.incoming[n - 1].error == step.error)
                  || (n == |reader.incoming| && step.error == Some(EndOfStream)
                      && (n > 0 ==> reader.incoming[n - 1].error.None?)))
  {
    if reader.buffer != [] {
      n := 0;
    } else {
      n := FetchEnds(reader, size, 0);
    }
  }

  /** Bootstrap bytes the decoder still waits for. */
  function Missing(decoder: DecoderState): nat
    requires decoder.Valid()
  {
    if decoder.ready then 0 else |decoder.key| + 1 - |decoder.bootstrap|
  }

  predicate Productive(event: ReadEvent) { event.bytes != [] || event.error.Some? }

  /** A read that yields a byte but no plaintext went into the bootstrap. */
  lemma DecodeShrinksMissing(decoder: DecoderState, cipher: Bytes)
    requires decoder.Valid() && cipher != []
    requires DecodeChunk(decoder, cipher).1 == []
    ensures !decoder.ready && Missing(DecodeChunk(decoder, cipher).0) == Missing(decoder) - |cipher|
  {
  }

  lemma {:induction false} FetchBound(reader: Reader, size: nat, rounds: nat)
    requires reader.decoder.Valid()
    requires forall event | event in reader.incoming :: Productive(event)
    ensures Fetch(reader, size, rounds).rounds <= rounds + Missing(reader.decoder) + 1
    decreases |reader.incoming|
  {
    if reader.incoming == [] {
    } else {
      hide DecodeChunk;
      var event := reader.incoming[0];
      assert Productive(event);
      var step := DecodeChunk(reader.decoder, event.bytes);
      if step.1 == [] && event.error.None? {
        DecodeShrinksMissing(reader.decoder, event.bytes);
        FetchBound(Reader(step.0, step.1, reader.incoming[1..]), size, rounds + 1);
      }
    }
  }

  /** One call makes at most key length + 2 socket reads, when none of them is empty-handed. */
  lemma ReadBound(reader: Reader, size: nat)
    requires reader.decoder.Valid()
    requires forall event | event in reader.incoming :: Productive(event)
    ensures ReadCall(reader, size).rounds <= |reader.decoder.key| + 2
  {
    if reader.buffer == [] {
      FetchBound(reader, size, 0);
    }
  }

  // ---- the objects ----

  class Stream {
    var incoming: seq<ReadEvent>
    var outcomes: seq<WriteEvent> // of the writes to come; complete once exhausted
    var written: Bytes // what reached the relay

    constructor (incoming: seq<ReadEvent>, outcomes: seq<WriteEvent>)
      ensures this.incoming == incoming && this.outcomes == outcomes && written == []
    {
      this.incoming, this.outcomes, written := incoming, outcomes, [];
    }

    method Read() returns (event: ReadEvent)
      modifies this`incoming
      ensures old(incoming) == [] ==> event == ReadEvent([], Some(EndOfStream)) && incoming == []
      ensures old(incoming) != [] ==> event == old(incoming)[0] && incoming == old(incoming)[1..]
    {
      if incoming == [] { return ReadEvent([], Some(EndOfStream)); }
      event, incoming := incoming[0], incoming[1..];
    }

    method Write(bytes: Bytes) returns (count: nat, error: Option<IoError>)
      modifies this`outcomes, this`written
      ensures PutStep(written, outcomes, error) == Put(old(written), old(outcomes), bytes)
      ensures count <= |bytes| && written == old(written) + bytes[..count]
    {
      if outcomes == [] || outcomes[0].Complete? || bytes == [] {
        count, error := |bytes|, None;
      } else {
        count, error := if outcomes[0].count < |bytes| then outcomes[0].count else |bytes| - 1, Some(Broken);
      }
      written := written + bytes[..count];
      outcomes := if outcomes == [] then [] else outcomes[1..];
    }
  }

  datatype PutStep = PutStep(written: Bytes, outcomes: seq<WriteEvent>, error: Option<IoError>)

  /** A write either gets all its bytes out or fails short of the last one. */
  function Put(written: Bytes, outcomes: seq<WriteEvent>, bytes: Bytes): (r: PutStep)
    ensures written <= r.written <= written + bytes
    ensures r.error.None? ==> r.written == written + bytes
    ensures r.error.Some? <==> outcomes != [] && outcomes[0].BrokenAfter? && bytes != []
    ensures r.error.Some? ==>
              r.written < written + bytes
              && (outcomes[0].count < |bytes| ==> r.written == written + bytes[..outcomes[0].count])
    ensures r.outcomes == if outcomes == [] then [] else outcomes[1..]
  {
    var rest := if outcomes == [] then [] else outcomes[1..];
    if outcomes == [] || outcomes[0].Complete? || bytes == [] then PutStep(written + bytes, rest, None)
    else
      var count := if outcomes[0].count < |bytes| then outcomes[0].count else |bytes| - 1;
      PutStep(written + bytes[..count], rest, Some(Broken))
  }

  class Tunnel {
    const stream: Stream
    const encoder: TokenEncoder
    const decoder: TokenDecoder
    var readBuf: Bytes

    ghost predicate Valid()
      reads this, stream, encoder, encoder.key, decoder, decoder.key
    {
      encoder.Valid() && decoder.Valid() && encoder.key != decoder.key
    }

    ghost function View(): Reader
      reads this, stream, decoder, decoder.key
      requires decoder.Valid()
    {
      Reader(decoder.View(), readBuf, stream.incoming)
    }

    /** The end of the opening sequence: both directions start on the device token. */
    constructor (token: Key, random: Bytes, stream: Stream)
      requires Acceptable(token)
      ensures Valid() && this.stream == stream && fresh(encoder) && fresh(encoder.key) && fresh(decoder)
      ensures fresh(decoder.key)
      ensures encoder.View() == NewEncoder(token) && encoder.random == random
      ensures View() == Reader(NewDecoder(token), [], stream.incoming)
    {
      this.stream := stream;
      encoder := new TokenEncoder(token, random);
      decoder := new TokenDecoder(token);
      readBuf := [];
    }

    method Read(size: nat) returns (output: Bytes, error: Option<IoError>, ghost rounds: nat)
      requires Valid()
      modifies this`readBuf, stream`incoming, decoder, decoder.key
      ensures Valid() && decoder.key == old(decoder.key)
      ensures ReadStep(View(), output, error, rounds) == ReadCall(old(View()), size)
    {
      rounds := 0;
      if readBuf != [] {
        var count := if size < |readBuf| then size else |readBuf|;
        output, readBuf, error := readBuf[..count], readBuf[count..], None;
        return;
      }
      while true
        invariant Valid() && decoder.key == old(decoder.key) && readBuf == []
        invariant ReadCall(old(View()), size) == Fetch(View(), size, rounds)
        decreases |stream.incoming| + (if |stream.incoming| == 0 then 0 else 1)
      {
        ghost var before := View();
        var event := stream.Read();
        rounds := rounds + 1;
        if |event.bytes| > 0 {
          var plain := decoder.Decode(event.bytes);
          if |plain| > 0 {
            readBuf := plain;
            var count := if size < |readBuf| then size else |readBuf|;
            output, readBuf, error := readBuf[..count], readBuf[count..], None;
            return;
          }
        }
        if event.error.Some? {
          return [], event.error, rounds;
        }
      }
    }

    method Write(plain: Bytes) returns (error: Option<IoError>)
      requires Valid()
      modifies stream`outcomes, stream`written, encoder, encoder.key
      ensures Valid() && encoder.key == old(encoder.key)
      ensures var step := EncodeChunk(old(encoder.View()), old(encoder.random), plain);
              encoder.View() == step.encoder && encoder.random == step.source &&
              if step.output.Err? then
                error == Some(CryptoFailed) && stream.written == old(stream.written)
                    && stream.outcomes == old(stream.outcomes)
              else
                PutStep(stream.written, stream.outcomes, error)
                    == Put(old(stream.written), old(stream.outcomes), step.output.value)
    {
      var cipher := encoder.Encode(plain);
      if cipher.Err? { return Some(CryptoFailed); }
      var _, failure := stream.Write(cipher.value);
      error := failure;
    }
  }
}
