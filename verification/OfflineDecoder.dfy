/**
 The offline decoder of captured streams (research/tools/runtime-protocol-capture/decode_magic_stream.py):
 TCP reassembly, then the transformation once more, in one batch and with the operators of Python's integers.
 */
module OfflineDecoder {
  import opened Wrappers
  import opened Sequences
  import opened Bits
  import opened TokenCrypto
  import opened Sorting
  import opened PythonInts

  /** One captured payload. */
  datatype Segment = Segment(seqno: int, payload: Bytes)

  datatype OfflineError = CaptureGap(size: int) | LacksBootstrap | BadBootstrapLength

  predicate Earlier(a: Segment, b: Segment) { a.seqno <= b.seqno }

  const BY_POSITION: (Segment, Segment) -> bool := (a, b) => Earlier(a, b)

  /** What the loop appends from here on, `expected` being the next position. */
  function Extend(segments: seq<Segment>, expected: int): Result<Bytes, OfflineError> {
    if segments == [] then Ok([])
    else
      var Segment(seqno, payload) := segments[0];
      if seqno + |payload| <= expected then Extend(segments[1..], expected)
      else if seqno > expected then Err(CaptureGap(seqno - expected))
      else
        var unseen := payload[expected - seqno..];
        Prepend(unseen, Extend(segments[1..], expected + |unseen|))
  }

  function StartOf(segments: seq<Segment>, start: Option<int>): int
    requires segments != []
  {
    if start.Some? then start.value else Sort(BY_POSITION, segments)[0].seqno
  }

  function Reassembled(segments: seq<Segment>, start: Option<int>): Result<Bytes, OfflineError> {
    if segments == [] then Ok([]) else Extend(Sort(BY_POSITION, segments), StartOf(segments, start))
  }

  method Reassemble(segments: seq<Segment>, start: Option<int>) returns (r: Result<Bytes, OfflineError>)
    ensures r == Reassembled(segments, start)
  {
    var sorted := Sort(BY_POSITION, segments);
    if sorted == [] { return Ok([]); }
    var expected := if start.None? then sorted[0].seqno else start.value;
    var output: Bytes := [];
    ghost var whole := Extend(sorted, expected);
    assert sorted[0..] == sorted && (whole.Ok? ==> [] + whole.value == whole.value);
    for index := 0 to |sorted|
      invariant whole == Prepend(output, Extend(sorted[index..], expected))
    {
      var Segment(seqno, payload) := sorted[index];
      assert sorted[index..][1..] == sorted[index + 1..];
      if seqno + |payload| <= expected { continue; }
      if seqno > expected { return Err(CaptureGap(seqno - expected)); }
      var overlap := expected - seqno;
      PrependTwice(output, payload[overlap..], Extend(sorted[index + 1..], expected + |payload| - overlap));
      output := output + payload[overlap..];
      expected := expected + |payload| - overlap;
    }
    assert output + [] == output;
    return Ok(output);
  }

  function Prepend(output: Bytes, rest: Result<Bytes, OfflineError>): Result<Bytes, OfflineError> {
    if rest.Err? then rest else Ok(output + rest.value)
  }

  lemma PrependTwice(a: Bytes, b: Bytes, rest: Result<Bytes, OfflineError>)
    ensures Prepend(a, Prepend(b, rest)) == Prepend(a + b, rest)
  {
    if rest.Ok? { assert a + (b + rest.value) == a + b + rest.value; }
  }

  // ---- what reassembly recovers ----

  /** The payload is the stream's bytes at the segment's position; the stream starts at `origin`. */
  predicate SliceOf(stream: Bytes, origin: int, segment: Segment) {
    && origin <= segment.seqno && segment.seqno + |segment.payload| <= origin + |stream|
    && segment.payload == stream[segment.seqno - origin..segment.seqno - origin + |segment.payload|]
  }

  predicate AllSlices(stream: Bytes, origin: int, segments: seq<Segment>) {
    forall segment | segment in segments :: SliceOf(stream, origin, segment)
  }

  predicate Covers(segment: Segment, position: int) { segment.seqno <= position < segment.seqno + |segment.payload| }

  predicate Covered(segments: seq<Segment>, position: int) {
    exists segment | segment in segments :: Covers(segment, position)
  }

  /** The furthest position any of the segments reaches, at least `start`. */
  function Furthest(segments: seq<Segment>, start: int): (end: int)
    ensures start <= end
    ensures forall segment | segment in segments :: segment.seqno + |segment.payload| <= end
    ensures end == start || exists segment | segment in segments :: end == segment.seqno + |segment.payload|
  {
    if segments == [] then start
    else
      var rest := Furthest(segments[1..], start);
      var end := segments[0].seqno + |segments[0].payload|;
      assert segments == [segments[0]] + segments[1..];
      if end > rest then end else rest
  }

  predicate Gapless(segments: seq<Segment>, start: int, end: int) {
    forall position :: start <= position < end ==> Covered(segments, position)
  }

  function StreamSlice(stream: Bytes, origin: int, start: int, end: int): Bytes {
    if origin <= start <= end <= origin + |stream| then stream[start - origin..end - origin] else []
  }

  predicate Exact(stream: Bytes, origin: int, segments: seq<Segment>, expected: int) {
    var end := Furthest(segments, expected);
    && (Extend(segments, expected).Ok? <==> Gapless(segments, expected, end))
    && (Extend(segments, expected).Ok? ==>
        Extend(segments, expected).value == StreamSlice(stream, origin, expected, end))
  }

  lemma RestOfSlices(stream: Bytes, origin: int, segments: seq<Segment>)
    requires segments != [] && AllSlices(stream, origin, segments) && Sorted(BY_POSITION, segments)
    ensures SliceOf(stream, origin, segments[0]) && AllSlices(stream, origin, segments[1..])
    ensures Sorted(BY_POSITION, segments[1..])
  {
    hide SliceOf;
    assert segments[0] in segments;
  }

  lemma {:induction false} ExtendExact(stream: Bytes, origin: int, segments: seq<Segment>, expected: int)
    requires AllSlices(stream, origin, segments) && Sorted(BY_POSITION, segments)
    ensures Exact(stream, origin, segments, expected)
    decreases |segments|
  {
    hide Gapless, Exact, Furthest, Covered, SliceOf, AllSlices, Sorted, Extend, StreamSlice;
    if segments == [] {
      NothingExact(stream, origin, expected);
    } else {
      var first, rest := segments[0], segments[1..];
      assert segments == [first] + rest;
      RestOfSlices(stream, origin, segments);
      if first.seqno + |first.payload| <= expected {
        ExtendExact(stream, origin, rest, expected);
        SkipExact(stream, origin, first, rest, expected);
      } else if first.seqno > expected {
        HoleAhead(segments, expected);
        HoleExact(stream, origin, segments, expected);
      } else {
        ExtendExact(stream, origin, rest, first.seqno + |first.payload|);
        JoinExact(stream, origin, first, rest, expected);
      }
    }
  }

  lemma HoleAhead(segments: seq<Segment>, expected: int)
    requires segments != [] && Sorted(BY_POSITION, segments)
    requires segments[0].seqno > expected
    ensures !Covered(segments, expected)
  {
    forall segment | segment in segments ensures !Covers(segment, expected) {
      var i :| 0 <= i < |segments| && segments[i] == segment;
      assert i > 0 ==> BY_POSITION(segments[0], segments[i]);
    }
  }

  lemma NothingExact(stream: Bytes, origin: int, expected: int)
    ensures Exact(stream, origin, [], expected)
  {
    assert StreamSlice(stream, origin, expected, expected) == [];
  }

  lemma HoleExact(stream: Bytes, origin: int, segments: seq<Segment>, expected: int)
    requires segments != [] && !Covered(segments, expected)
    requires segments[0].seqno > expected && segments[0].seqno + |segments[0].payload| > expected
    ensures Exact(stream, origin, segments, expected)
  {
    hide Covered;
    assert Extend(segments, expected).Err?;
    assert segments[0] in segments;
    assert expected < Furthest(segments, expected);
  }

  lemma SkipExact(stream: Bytes, origin: int, first: Segment, rest: seq<Segment>, expected: int)
    requires first.seqno + |first.payload| <= expected
    requires Exact(stream, origin, rest, expected)
    ensures Exact(stream, origin, [first] + rest, expected)
  {
    FurthestSkips(first, rest, expected);
    GaplessSkips(first, rest, expected, Furthest(rest, expected));
    assert ([first] + rest)[1..] == rest;
  }

  lemma Splice(stream: Bytes, a: nat, b: nat, c: nat)
    requires a <= b <= c <= |stream|
    ensures stream[a..b] + stream[b..c] == stream[a..c]
  {
  }

  lemma JoinExact(stream: Bytes, origin: int, first: Segment, rest: seq<Segment>, expected: int)
    requires SliceOf(stream, origin, first) && AllSlices(stream, origin, rest)
    requires first.seqno <= expected < first.seqno + |first.payload|
    requires Exact(stream, origin, rest, first.seqno + |first.payload|)
    ensures Exact(stream, origin, [first] + rest, expected)
  {
    var next := first.seqno + |first.payload|;
    var end := Furthest(rest, next);
    JoinData(stream, origin, first, rest, expected, end);
    FurthestJoins(first, rest, expected);
    GaplessJoins(first, rest, expected, end);
    JoinExtend(first, rest, expected);
    hide Gapless, Covered, Furthest, Extend, StreamSlice, SliceOf;
  }

  lemma JoinExtend(first: Segment, rest: seq<Segment>, expected: int)
    requires first.seqno <= expected < first.seqno + |first.payload|
    ensures Extend([first] + rest, expected)
         == Prepend(first.payload[expected - first.seqno..], Extend(rest, first.seqno + |first.payload|))
  {
    assert ([first] + rest)[1..] == rest;
  }

  lemma JoinData(stream: Bytes, origin: int, first: Segment, rest: seq<Segment>, expected: int, end: int)
    requires SliceOf(stream, origin, first) && AllSlices(stream, origin, rest)
    requires first.seqno <= expected < first.seqno + |first.payload|
    requires end == Furthest(rest, first.seqno + |first.payload|)
    ensures StreamSlice(stream, origin, expected, end)
         == first.payload[expected - first.seqno..] + StreamSlice(stream, origin, first.seqno + |first.payload|, end)
  {
    var next := first.seqno + |first.payload|;
    assert origin <= expected <= next <= end <= origin + |stream|;
    hide Furthest, AllSlices;
    Splice(stream, expected - origin, next - origin, end - origin);
    var a, b := first.seqno - origin, next - origin;
    var data := stream[a..b];
    assert data[expected - first.seqno..] == stream[expected - origin..b];
  }

  lemma FurthestSkips(first: Segment, rest: seq<Segment>, expected: int)
    requires first.seqno + |first.payload| <= expected
    ensures Furthest([first] + rest, expected) == Furthest(rest, expected)
  {
    assert ([first] + rest)[1..] == rest;
  }

  lemma {:induction false} FurthestFrom(segments: seq<Segment>, a: int, b: int)
    requires a <= b
    ensures Furthest(segments, b) == if Furthest(segments, a) > b then Furthest(segments, a) else b
  {
    if segments == [] {
    } else {
      FurthestFrom(segments[1..], a, b);
    }
  }

  lemma FurthestJoins(first: Segment, rest: seq<Segment>, expected: int)
    requires first.seqno + |first.payload| > expected
    ensures Furthest([first] + rest, expected) == Furthest(rest, first.seqno + |first.payload|)
  {
    assert ([first] + rest)[1..] == rest;
    FurthestFrom(rest, expected, first.seqno + |first.payload|);
  }

  lemma GaplessSkips(first: Segment, rest: seq<Segment>, start: int, end: int)
    requires first.seqno + |first.payload| <= start
    ensures Gapless([first] + rest, start, end) <==> Gapless(rest, start, end)
  {
    forall position | start <= position < end ensures Covered([first] + rest, position) <==> Covered(rest, position) {
      CoveredCons(first, rest, position);
    }
  }

  lemma GaplessJoins(first: Segment, rest: seq<Segment>, start: int, end: int)
    requires first.seqno <= start <= first.seqno + |first.payload| <= end
    ensures Gapless([first] + rest, start, end) <==> Gapless(rest, first.seqno + |first.payload|, end)
  {
    var next := first.seqno + |first.payload|;
    forall position | start <= position < end
      ensures Covered([first] + rest, position) <==> position < next || Covered(rest, position)
    {
      CoveredCons(first, rest, position);
    }
  }

  lemma CoveredCons(first: Segment, rest: seq<Segment>, position: int)
    ensures Covered([first] + rest, position) <==> Covers(first, position) || Covered(rest, position)
  {
    if Covers(first, position) {
      assert first in [first] + rest;
    }
    if Covered(rest, position) {
      var segment :| segment in rest && Covers(segment, position);
      assert segment in [first] + rest;
    }
  }

  lemma ByPositionIsPreorder()
    ensures TotalPreorder(BY_POSITION)
  {
  }

  /**
   For segments of one stream, in any order and with any overlap: reassembly raises exactly when a position
   between the start and the furthest end is in no segment, and otherwise returns exactly that slice.
   */
  lemma ReassemblyIsExact(stream: Bytes, origin: int, segments: seq<Segment>, start: Option<int>)
    requires AllSlices(stream, origin, segments) && segments != []
    ensures var first := StartOf(segments, start);
            var end := Furthest(segments, first);
            && (Reassembled(segments, start).Ok? <==> Gapless(segments, first, end))
            && (Reassembled(segments, start).Ok? ==>
                Reassembled(segments, start).value == StreamSlice(stream, origin, first, end))
  {
    hide Sort, Extend, Gapless, Furthest, StreamSlice, AllSlices, Sorted;
    var sorted := Sort(BY_POSITION, segments);
    var first := StartOf(segments, start);
    SortKeepsElements(BY_POSITION, segments);
    SortedIsExact(stream, origin, segments, first);
    SameElements(sorted, segments, first);
  }

  lemma SortedIsExact(stream: Bytes, origin: int, segments: seq<Segment>, first: int)
    requires AllSlices(stream, origin, segments)
    ensures Exact(stream, origin, Sort(BY_POSITION, segments), first)
  {
    hide Sort, Exact, SliceOf;
    ByPositionIsPreorder();
    SortSorts(BY_POSITION, segments);
    SortKeepsElements(BY_POSITION, segments);
    ExtendExact(stream, origin, Sort(BY_POSITION, segments), first);
  }

  /** Without a given start the reassembly begins at the earliest segment. */
  lemma FirstIsLeast(segments: seq<Segment>)
    requires segments != []
    ensures forall segment | segment in segments :: StartOf(segments, None) <= segment.seqno
  {
    hide Sort;
    var sorted := Sort(BY_POSITION, segments);
    ByPositionIsPreorder();
    SortSorts(BY_POSITION, segments);
    SortKeepsElements(BY_POSITION, segments);
    forall segment | segment in segments ensures StartOf(segments, None) <= segment.seqno {
      assert segment in sorted;
      var i :| 0 <= i < |sorted| && sorted[i] == segment;
      assert i > 0 ==> BY_POSITION(sorted[0], sorted[i]);
    }
  }

  lemma SameElements(a: seq<Segment>, b: seq<Segment>, start: int)
    requires forall segment :: segment in a <==> segment in b
    ensures Furthest(a, start) == Furthest(b, start)
    ensures Gapless(a, start, Furthest(a, start)) <==> Gapless(b, start, Furthest(b, start))
  {
    forall position ensures Covered(a, position) <==> Covered(b, position) {
      if Covered(a, position) {
        var segment :| segment in a && Covers(segment, position);
        assert segment in b;
      }
      if Covered(b, position) {
        var segment :| segment in b && Covers(segment, position);
        assert segment in a;
      }
    }
  }

  // ---- decoding ----

  method Bootstrap(prefix: Bytes, key: array<Byte>) returns (r: Result<nat, OfflineError>)
    requires key.Length > 0
    modifies key
    ensures |prefix| != key.Length + 1 ==> r == Err(BadBootstrapLength) && key[..] == old(key[..])
    ensures |prefix| == key.Length + 1 ==>
              r == Ok(prefix[key.Length] % key.Length)
              && key[..] == SessionKey(old(key[..]), prefix[..key.Length])
  {
    if |prefix| != key.Length + 1 { return Err(BadBootstrapLength); }
    FoldIn(prefix[..key.Length], key);
    return Ok(prefix[|prefix| - 1] % key.Length);
  }

  lemma RollsLikePython(rolling: Byte, keyByte: Byte, randomByte: Byte)
    ensures ExclusiveOr(rolling, ExclusiveOr(ShiftRight(keyByte, 1), ShiftLeft(And(randomByte, 0x7f), 1)))
         == Roll(rolling, keyByte, randomByte)
  {
    Masks(randomByte);
    assert ShiftRight(keyByte, 1) == keyByte / 2 && ShiftLeft(randomByte % 128, 1) == randomByte % 128 * 2;
    XorOfBytes(keyByte / 2, randomByte % 128 * 2);
    XorOfBytes(rolling, Xor(keyByte / 2, randomByte % 128 * 2));
  }

  lemma StepsLikePython(key: Key, state: nat, plain: Byte)
    requires state < |key|
    ensures (Or(key[state] + plain, 1) + state) % |key| == NextState(key, state, plain)
  {
    OrWithOne(key[state] + plain);
  }

  method FoldIn(random: Bytes, key: array<Byte>)
    requires |random| == key.Length
    modifies key
    ensures key[..] == Mix(old(key[..]), random, 0xaa)
  {
    hide Roll, Mix, And, ExclusiveOr;
    var rolling: nat := 0xaa;
    ghost var before := key[..];
    ghost var mixed := Mix(before, random, 0xaa);
    for index := 0 to |random|
      invariant rolling == if index == 0 then 0xaa else mixed[index - 1]
      invariant forall k :: 0 <= k < index ==> key[k] == mixed[k]
      invariant forall k :: index <= k < key.Length ==> key[k] == before[k]
    {
      MixAt(before, random, 0xaa, index);
      RollsLikePython(rolling, key[index], random[index]);
      rolling := ExclusiveOr(rolling, ExclusiveOr(ShiftRight(key[index], 1), ShiftLeft(And(random[index], 0x7f), 1)));
      Masks(rolling);
      key[index] := And(rolling, 0xff);
    }
  }

  /** The batch decoder computes what the live decoder computes for the whole stream. */
  method DecodeBatch(data: Bytes, token: Key) returns (r: Result<(Bytes, nat), OfflineError>)
    ensures r == if |data| <= |token| then Err(LacksBootstrap) else Ok((Decoded(token, data), |token| + 1))
  {
    hide SessionKey, NextState, Xor, Decipher;
    var overhead := |token| + 1;
    if |data| < overhead { return Err(LacksBootstrap); }
    var key := new Byte[|token|](i requires 0 <= i < |token| => token[i]);
    assert key[..] == token;
    var start := Bootstrap(data[..overhead], key);
    assert data[..overhead][..|token|] == data[..|token|];
    var output := DecodeFrom(key, start.value, data[overhead..]);
    return Ok((output, overhead));
  }

  method DecodeFrom(key: array<Byte>, start: nat, data: Bytes) returns (output: Bytes)
    requires start < key.Length
    ensures output == Decipher(key[..], start, data)
  {
    hide NextState, Xor, ExclusiveOr, Or;
    var state: nat := start;
    output := [];
    for index := 0 to |data|
      invariant state < key.Length
      invariant Decipher(key[..], start, data) == output + Decipher(key[..], state, data[index..])
    {
      assert data[index..][1..] == data[index + 1..];
      XorOfBytes(data[index], key[state]);
      var plain := ExclusiveOr(data[index], key[state]);
      output := output + [plain];
      StepsLikePython(key[..], state, plain);
      state := Or(key[state] + plain, 1) + state;
      state := state % key.Length;
    }
  }

  /** What decoding a reassembled capture returns. */
  function Recovered(token: Key, segments: seq<Segment>, start: Option<int>): Option<Bytes> {
    var data := Reassembled(segments, start);
    if data.Err? || |data.value| <= |token| then None else Some(Decoded(token, data.value))
  }

  /**
   A capture of one encrypted direction, reassembled from where it starts, decodes to what the live decoder
   recovers from the same bytes under any chunking: a prefix of what was sent, and all of it from a whole capture.
   */
  lemma CaptureDecodesLikeLive(
      token: Key, source: Bytes, plain: seq<Bytes>, origin: int, segments: seq<Segment>, chunks: seq<Bytes>)
    requires Acceptable(token) && segments != []
    requires EncodeAll(NewEncoder(token), source, plain).Some?
    requires AllSlices(Flatten(EncodeAll(NewEncoder(token), source, plain).value), origin, segments)
    requires Recovered(token, segments, Some(origin)).Some?
    requires Flatten(chunks) == Reassembled(segments, Some(origin)).value
    ensures var recovered := Recovered(token, segments, Some(origin)).value;
            var wire := Flatten(EncodeAll(NewEncoder(token), source, plain).value);
            && recovered == Flatten(DecodeAll(NewDecoder(token), chunks))
            && recovered <= Flatten(plain)
            && (Furthest(segments, origin) == origin + |wire| ==> recovered == Flatten(plain))
  {
    hide EncodeAll, DecodeAll, Decoded, Flatten, AllSlices, Furthest, Reassembled;
    var wire := Flatten(EncodeAll(NewEncoder(token), source, plain).value);
    CaptureIsPrefix(wire, origin, segments);
    RoundTrip(token, source, plain, chunks);
    DecodesAsOne(token, chunks);
  }

  /** Reassembled from where the stream starts, a capture is a prefix of it, and all of it when it reaches its end. */
  lemma CaptureIsPrefix(wire: Bytes, origin: int, segments: seq<Segment>)
    requires AllSlices(wire, origin, segments) && segments != [] && Reassembled(segments, Some(origin)).Ok?
    ensures Reassembled(segments, Some(origin)).value <= wire
    ensures Furthest(segments, origin) == origin + |wire| ==> Reassembled(segments, Some(origin)).value == wire
  {
    hide Reassembled, Gapless;
    ReassemblyIsExact(wire, origin, segments, Some(origin));
  }
}
