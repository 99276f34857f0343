/**
 The stateful, self-keying byte transformation of one tunnel direction
 (internal/magic/token_crypto.go).

 An encoder opens its stream with a bootstrap, one random byte per key byte and
 a state marker, folds it into its own copy of the key and enciphers from there.
 A decoder collects the same bootstrap, however the stream is cut, and mirrors it.
 */
module TokenCrypto {
  import opened Wrappers
  import opened Sequences
  import opened Arithmetic
  import opened Bits

  const MAX_TOKEN_LENGTH := 47

  /** A device token that was accepted: never empty. */
  type Key = k: Bytes | |k| > 0 witness [0x21]

  datatype CryptoError = BadTokenLength | BadTokenByte | InvalidRange | SourceDry

  // ---- the byte transformation ----

  function NextState(key: Key, state: nat, plain: Byte): (next: nat)
    requires state < |key|
    ensures next < |key|
  {
    (OrOne(key[state] + plain) + state) % |key|
  }

  /** Both directions walk the key by the plaintext that passed. */
  function StateAfter(key: Key, state: nat, plain: Bytes): (after: nat)
    requires state < |key|
    ensures after < |key|
    decreases plain
  {
    if plain == [] then state else StateAfter(key, NextState(key, state, plain[0]), plain[1..])
  }

  function Encipher(key: Key, state: nat, plain: Bytes): (cipher: Bytes)
    requires state < |key|
    ensures |cipher| == |plain|
    decreases plain
  {
    if plain == [] then []
    else [Xor(plain[0], key[state])] + Encipher(key, NextState(key, state, plain[0]), plain[1..])
  }

  function Decipher(key: Key, state: nat, cipher: Bytes): (plain: Bytes)
    requires state < |key|
    ensures |plain| == |cipher|
    decreases cipher
  {
    if cipher == [] then []
    else
      var value := Xor(cipher[0], key[state]);
      [value] + Decipher(key, NextState(key, state, value), cipher[1..])
  }

  lemma {:induction false} EncipherConcat(key: Key, state: nat, a: Bytes, b: Bytes)
    requires state < |key|
    ensures StateAfter(key, state, a + b) == StateAfter(key, StateAfter(key, state, a), b)
    ensures Encipher(key, state, a + b) == Encipher(key, state, a) + Encipher(key, StateAfter(key, state, a), b)
    decreases a
  {
    if a == [] {
      assert a + b == b;
    } else {
      assert (a + b)[1..] == a[1..] + b;
      EncipherConcat(key, NextState(key, state, a[0]), a[1..], b);
    }
  }

  /** Deciphering inverts enciphering. */
  lemma {:induction false} DecipherEncipher(key: Key, state: nat, plain: Bytes)
    requires state < |key|
    ensures Decipher(key, state, Encipher(key, state, plain)) == plain
    decreases plain
  {
    hide NextState, Xor;
    if plain == [] {
    } else {
      var next := NextState(key, state, plain[0]);
      DecipherEncipher(key, next, plain[1..]);
      var cipher := Encipher(key, state, plain);
      XorTwice(plain[0], key[state]);
      assert cipher[1..] == Encipher(key, next, plain[1..]);
    }
  }

  /** Enciphering inverts deciphering: every ciphertext has exactly one plaintext. */
  lemma {:induction false} EncipherDecipher(key: Key, state: nat, cipher: Bytes)
    requires state < |key|
    ensures Encipher(key, state, Decipher(key, state, cipher)) == cipher
    decreases cipher
  {
    hide NextState, Xor;
    if cipher == [] {
    } else {
      var value := Xor(cipher[0], key[state]);
      var next := NextState(key, state, value);
      EncipherDecipher(key, next, cipher[1..]);
      var plain := Decipher(key, state, cipher);
      assert plain[1..] == Decipher(key, next, cipher[1..]);
      XorTwice(cipher[0], key[state]);
    }
  }

  lemma {:induction false} DecipherConcat(key: Key, state: nat, a: Bytes, b: Bytes)
    requires state < |key|
    ensures Decipher(key, state, a + b)
         == Decipher(key, state, a) + Decipher(key, StateAfter(key, state, Decipher(key, state, a)), b)
  {
    var left := Decipher(key, state, a);
    var right := Decipher(key, StateAfter(key, state, left), b);
    EncipherDecipher(key, state, a);
    EncipherDecipher(key, StateAfter(key, state, left), b);
    EncipherConcat(key, state, left, right);
    DecipherEncipher(key, state, left + right);
  }

  method TransformEncode(key: array<Byte>, state: nat, plain: Bytes) returns (cipher: Bytes, state': nat)
    requires state < key.Length
    ensures cipher == Encipher(key[..], state, plain)
    ensures state' == StateAfter(key[..], state, plain)
  {
    hide NextState, Xor;
    cipher, state' := [], state;
    for index := 0 to |plain|
      invariant state' < key.Length
      invariant Encipher(key[..], state, plain) == cipher + Encipher(key[..], state', plain[index..])
      invariant StateAfter(key[..], state, plain) == StateAfter(key[..], state', plain[index..])
    {
      var value := plain[index];
      assert plain[index..][1..] == plain[index + 1..];
      cipher := cipher + [Xor(value, key[state'])];
      state' := NextState(key[..], state', value);
    }
  }

  method TransformDecode(key: array<Byte>, state: nat, cipher: Bytes) returns (plain: Bytes, state': nat)
    requires state < key.Length
    ensures plain == Decipher(key[..], state, cipher)
    ensures state' == StateAfter(key[..], state, plain)
  {
    hide NextState, Xor;
    plain, state' := [], state;
    for index := 0 to |cipher|
      invariant state' < key.Length
      invariant Decipher(key[..], state, cipher) == plain + Decipher(key[..], state', cipher[index..])
      invariant state' == StateAfter(key[..], state, plain)
    {
      var value := Xor(cipher[index], key[state']);
      assert cipher[index..][1..] == cipher[index + 1..];
      EncipherConcat(key[..], state, plain, [value]);
      plain := plain + [value];
      state' := NextState(key[..], state', value);
    }
  }

  // ---- the transformation bit by bit ----

  /** The state moves on by the sum of key and plaintext byte with its lowest bit set, around the key. */
  lemma StateMoves(key: Key, state: nat, plain: Byte)
    requires state < |key|
    ensures NextState(key, state, plain) == (state + (key[state] + plain) / 2 * 2 + 1) % |key|
  {
    assert OrOne(key[state] + plain) == (key[state] + plain) / 2 * 2 + 1;
  }

  /** The places in the key that a plaintext is enciphered at, one after the other. */
  predicate Walks(key: Key, plain: Bytes, walk: seq<nat>) {
    && |walk| == |plain| + 1
    && (forall i :: 0 <= i < |walk| ==> walk[i] < |key|)
    && (forall i :: 0 <= i < |plain| ==> walk[i + 1] == (walk[i] + (key[walk[i]] + plain[i]) / 2 * 2 + 1) % |key|)
  }

  /** Each bit of the cipher is set where those of the plaintext and of the key differ, at the places it walks. */
  predicate Differs(key: Key, plain: Bytes, walk: seq<nat>, cipher: Bytes)
    requires Walks(key, plain, walk) && |cipher| == |plain|
  {
    forall i: nat, bit: nat :: i < |plain| && bit < 8 ==>
      (Bit(cipher[i], bit) <==> Bit(plain[i], bit) != Bit(key[walk[i]], bit))
  }

  /** The cipher of a plaintext, from the arithmetic alone: it is walked by the plaintext and differs bit by bit. */
  lemma {:induction false} EncipherIsBitwise(key: Key, state: nat, plain: Bytes) returns (walk: seq<nat>)
    requires state < |key|
    ensures Walks(key, plain, walk) && Differs(key, plain, walk, Encipher(key, state, plain))
    ensures walk[0] == state && walk[|plain|] == StateAfter(key, state, plain)
    decreases plain
  {
    hide NextState, Xor, Bit;
    if plain == [] {
      walk := [state];
    } else {
      var next := NextState(key, state, plain[0]);
      var rest := EncipherIsBitwise(key, next, plain[1..]);
      StateMoves(key, state, plain[0]);
      walk := [state] + rest;
      var cipher := Encipher(key, state, plain);
      forall i: nat | i < |plain|
        ensures walk[i + 1] == (walk[i] + (key[walk[i]] + plain[i]) / 2 * 2 + 1) % |key|
      {
        if i > 0 { assert walk[i] == rest[i - 1] && plain[i] == plain[1..][i - 1]; }
      }
      forall i: nat, bit: nat | i < |plain| && bit < 8
        ensures Bit(cipher[i], bit) <==> Bit(plain[i], bit) != Bit(key[walk[i]], bit)
      {
        if i == 0 {
          XorBit(plain[0], key[state], bit);
        } else {
          assert cipher[i] == Encipher(key, next, plain[1..])[i - 1] && plain[i] == plain[1..][i - 1];
        }
      }
    }
  }

  // ---- the bootstrap ----

  function Roll(rolling: Byte, keyByte: Byte, randomByte: Byte): Byte {
    Xor(rolling, Xor(keyByte / 2, randomByte % 128 * 2))
  }

  /** The key after the bytes of `prefix` were folded into its head. */
  function Mix(key: Bytes, prefix: Bytes, rolling: Byte): (mixed: Bytes)
    requires |prefix| <= |key|
    ensures |mixed| == |key|
  {
    if prefix == [] then key
    else
      var next := Roll(rolling, key[0], prefix[0]);
      [next] + Mix(key[1..], prefix[1..], next)
  }

  /** The mixed key byte by byte: each rolls on from the one before it. */
  lemma {:induction false} MixAt(key: Bytes, prefix: Bytes, rolling: Byte, i: nat)
    requires |prefix| <= |key| && i < |key|
    ensures var mixed := Mix(key, prefix, rolling);
            mixed[i]
            == if i < |prefix| then Roll(if i == 0 then rolling else mixed[i - 1], key[i], prefix[i]) else key[i]
    decreases prefix
  {
    hide Roll;
    if prefix != [] && i > 0 {
      MixAt(key[1..], prefix[1..], Roll(rolling, key[0], prefix[0]), i - 1);
    }
  }

  function SessionKey(token: Key, prefix: Bytes): (key: Key)
    requires |prefix| == |token|
    ensures |key| == |token|
  {
    Mix(token, prefix, 0xaa)
  }

  /** Rolling on: the running byte against the key byte moved down by a bit and the random byte moved up by one. */
  lemma RollBit(rolling: Byte, keyByte: Byte, randomByte: Byte, i: nat)
    requires i < 8
    ensures Bit(Roll(rolling, keyByte, randomByte), i)
       <==> (Bit(rolling, i) != (Bit(keyByte, i + 1) != (i > 0 && Bit(randomByte, i - 1))))
  {
    hide Xor;
    XorBit(rolling, Xor(keyByte / 2, randomByte % 128 * 2), i);
    XorBit(keyByte / 2, randomByte % 128 * 2, i);
    DoubleBit(randomByte, i);
  }

  /** The session key bit by bit: each byte rolls on from the one before it, the first from 0xaa. */
  lemma SessionKeyIsBitwise(token: Key, prefix: Bytes, k: nat, i: nat)
    requires |prefix| == |token| && k < |token| && i < 8
    ensures var key := SessionKey(token, prefix);
            Bit(key[k], i)
            <==> (Bit(if k == 0 then 0xaa else key[k - 1], i)
                  != (Bit(token[k], i + 1) != (i > 0 && Bit(prefix[k], i - 1))))
  {
    hide Roll, Bit;
    MixAt(token, prefix, 0xaa, k);
    RollBit(if k == 0 then 0xaa else SessionKey(token, prefix)[k - 1], token[k], prefix[k], i);
  }

  method ApplyBootstrap(key: array<Byte>, prefix: Bytes)
    requires |prefix| <= key.Length
    modifies key
    ensures key[..] == Mix(old(key[..]), prefix, 0xaa)
  {
    hide Roll, Mix;
    var rolling: Byte := 0xaa;
    ghost var before := key[..];
    ghost var mixed := Mix(before, prefix, 0xaa);
    for index := 0 to |prefix|
      invariant rolling == if index == 0 then 0xaa else mixed[index - 1]
      invariant forall k :: 0 <= k < index ==> key[k] == mixed[k]
      invariant forall k :: index <= k < key.Length ==> key[k] == before[k]
    {
      MixAt(before, prefix, 0xaa, index);
      rolling := Roll(rolling, key[index], prefix[index]);
      key[index] := rolling;
    }
    forall k | |prefix| <= k < key.Length ensures key[k] == mixed[k] {
      MixAt(before, prefix, 0xaa, k);
    }
  }

  // ---- drawing the bootstrap ----

  /** Bytes below this are kept; the rest would bias the low end of the range. */
  function Limit(span: nat): (limit: nat)
    requires 1 <= span <= 256
    ensures span <= limit <= 256
  {
    RemainderRoom(256, span);
    256 - 256 % span
  }

  /** One byte of [minimum, maximum] off the front of `source`, and what is left of it. */
  function Draw(source: Bytes, minimum: nat, maximum: nat): (r: (Option<Byte>, Bytes))
    requires minimum <= maximum < 256
    ensures r.0.Some? ==> minimum <= r.0.value <= maximum
    ensures |r.1| <= |source|
  {
    var span := maximum - minimum + 1;
    if source == [] then (None, [])
    else if source[0] < Limit(span) then (Some(minimum + source[0] % span), source[1..])
    else Draw(source[1..], minimum, maximum)
  }

  /**
   A draw takes the first byte below the largest multiple of the span that fits a byte, and what follows it is left;
   without such a byte it runs dry.
   */
  lemma {:induction false} DrawTakesTheFirstKept(source: Bytes, minimum: nat, maximum: nat) returns (i: nat)
    requires minimum <= maximum < 256
    ensures var span := maximum - minimum + 1;
            var limit := 256 / span * span;
            && i <= |source| && (forall k :: 0 <= k < i ==> source[k] >= limit)
            && (i < |source| ==>
                source[i] < limit
                && Draw(source, minimum, maximum) == (Some(minimum + source[i] % span), source[i + 1..]))
            && (i == |source| ==> Draw(source, minimum, maximum) == (None, []))
    decreases source
  {
    var span := maximum - minimum + 1;
    assert 256 == 256 / span * span + 256 % span;
    if source == [] || source[0] < Limit(span) {
      i := 0;
    } else {
      hide Limit;
      i := DrawTakesTheFirstKept(source[1..], minimum, maximum);
      i := i + 1;
      assert source[i..] == source[1..][i - 1..];
    }
  }

  /** The bytes a draw keeps and turns into minimum + offset. */
  ghost function Kept(span: nat, bound: nat, offset: nat): set<nat>
    requires span > 0
  {
    set b: nat | b < bound && b % span == offset
  }

  /** Rejection keeps the draw flat: each value of the range has equally many kept bytes behind it. */
  lemma DrawIsFlat(span: nat, offset: nat)
    requires 1 <= span <= 256 && offset < span
    ensures |Kept(span, Limit(span), offset)| == 256 / span
  {
    assert 256 == span * (256 / span) + 256 % span;
    assert Limit(span) == (256 / span) * span;
    KeptCount(256 / span, span, offset);
  }

  lemma {:induction false} KeptCount(q: nat, span: nat, offset: nat)
    requires offset < span
    ensures |Kept(span, q * span, offset)| == q
  {
    if q == 0 {
      assert Kept(span, 0, offset) == {};
    } else {
      KeptCount(q - 1, span, offset);
      var top := (q - 1) * span;
      assert q * span == top + span;
      forall b: nat | top <= b < top + span ensures b % span == b - top {
        DivModUnique(b, span, q - 1, b - top);
      }
      assert Kept(span, q * span, offset) == Kept(span, top, offset) + {top + offset};
    }
  }

  // ---- tokens ----

  /** The private copy of an acceptable device token. */
  function TokenKey(deviceToken: Bytes): (r: Result<Key, CryptoError>)
    ensures r.Ok? ==> r.value == deviceToken && |r.value| <= MAX_TOKEN_LENGTH
  {
    if |deviceToken| < 1 || |deviceToken| > MAX_TOKEN_LENGTH then Err(BadTokenLength)
    else if exists i :: 0 <= i < |deviceToken| && !(0x21 <= deviceToken[i] <= 0x7e) then Err(BadTokenByte)
    else Ok(deviceToken)
  }

  /** A token is accepted exactly if it has 1 to 47 bytes, all of them printable and none a space. */
  lemma TokenIsAcceptedIff(deviceToken: Bytes)
    ensures TokenKey(deviceToken).Ok? <==>
              && 1 <= |deviceToken| <= 47
              && forall i :: 0 <= i < |deviceToken| ==> ' ' as int < deviceToken[i] <= '~' as int
  {
  }

  predicate Acceptable(token: Key) { TokenKey(token).Ok? }

  // ---- the encoder ----

  datatype EncoderState = EncoderState(key: Key, state: nat, bootstrapped: bool)
  {
    predicate Valid() { state < |key| && |key| <= MAX_TOKEN_LENGTH }
  }

  function NewEncoder(token: Key): EncoderState { EncoderState(token, 0, false) }

  /** `count` prefix bytes, drawn in order; the draw that runs dry ends the bootstrap. */
  function DrawPrefix(source: Bytes, count: nat): (r: (Option<Bytes>, Bytes))
    ensures r.0.Some? ==> |r.0.value| == count
    decreases count
  {
    if count == 0 then (Some([]), source)
    else
      var first := Draw(source, 0x15, 0xff);
      if first.0.None? then (None, first.1)
      else
        var rest := DrawPrefix(first.1, count - 1);
        if rest.0.None? then rest else (Some([first.0.value] + rest.0.value), rest.1)
  }

  /** The bootstrap an encoder draws: its prefix, its marker, and the source after it. */
  function DrawBootstrap(source: Bytes, length: nat): (r: (Option<(Bytes, Byte)>, Bytes))
    requires length <= MAX_TOKEN_LENGTH
    ensures r.0.Some? ==> |r.0.value.0| == length
  {
    var prefix := DrawPrefix(source, length);
    if prefix.0.None? then (None, prefix.1)
    else
      var marker := Draw(prefix.1, length + 1, 0xff);
      if marker.0.None? then (None, marker.1) else (Some((prefix.0.value, marker.0.value)), marker.1)
  }

  /** What one Encode call does: the next encoder, the random bytes left, and the output. */
  datatype EncodeStep = EncodeStep(encoder: EncoderState, source: Bytes, output: Result<Bytes, CryptoError>)

  function EncodeChunk(encoder: EncoderState, source: Bytes, plain: Bytes): (r: EncodeStep)
    requires encoder.Valid()
    ensures r.encoder.Valid()
  {
    if plain == [] then EncodeStep(encoder, source, Ok([]))
    else if encoder.bootstrapped then
      EncodeStep(encoder.(state := StateAfter(encoder.key, encoder.state, plain)), source,
                 Ok(Encipher(encoder.key, encoder.state, plain)))
    else
      var drawn := DrawBootstrap(source, |encoder.key|);
      if drawn.0.None? then EncodeStep(encoder, drawn.1, Err(SourceDry))
      else
        var (prefix, marker) := drawn.0.value;
        var key := SessionKey(encoder.key, prefix);
        var start := marker % |key|;
        EncodeStep(EncoderState(key, StateAfter(key, start, plain), true), drawn.1,
                   Ok(prefix + [marker] + Encipher(key, start, plain)))
  }

  /** The whole stream an encoder emits for `plain`, as one function of it. */
  function Wire(token: Key, prefix: Bytes, marker: Byte, plain: Bytes): Bytes
    requires |prefix| == |token|
  {
    if plain == [] then []
    else prefix + [marker] + Encipher(SessionKey(token, prefix), marker % |token|, plain)
  }

  /** The encoder after it sent exactly `plain`. */
  function EncoderAfter(token: Key, prefix: Bytes, marker: Byte, plain: Bytes): EncoderState
    requires |prefix| == |token|
  {
    if plain == [] then NewEncoder(token)
    else
      var key := SessionKey(token, prefix);
      EncoderState(key, StateAfter(key, marker % |token|, plain), true)
  }

  /** Encoding one more chunk continues the one stream, wherever the chunk starts. */
  lemma EncodeContinues(token: Key, prefix: Bytes, marker: Byte, sent: Bytes, source: Bytes, plain: Bytes)
    requires |prefix| == |token| <= MAX_TOKEN_LENGTH
    requires sent == [] && plain != [] ==> DrawBootstrap(source, |token|).0 == Some((prefix, marker))
    ensures EncoderAfter(token, prefix, marker, sent).Valid()
    ensures var step := EncodeChunk(EncoderAfter(token, prefix, marker, sent), source, plain);
            step.output.Ok?
            && step.encoder == EncoderAfter(token, prefix, marker, sent + plain)
            && Wire(token, prefix, marker, sent) + step.output.value == Wire(token, prefix, marker, sent + plain)
  {
    var key := SessionKey(token, prefix);
    EncipherConcat(key, marker % |token|, sent, plain);
    if sent == [] {
      assert sent + plain == plain;
    } else if plain == [] {
      assert sent + plain == sent;
    }
  }

  // ---- the decoder ----

  datatype DecoderState = DecoderState(key: Key, state: nat, bootstrap: Bytes, ready: bool)
  {
    predicate Valid() { state < |key| && (!ready ==> |bootstrap| <= |key|) }
  }

  function NewDecoder(token: Key): DecoderState { DecoderState(token, 0, [], false) }

  function DecodeChunk(decoder: DecoderState, cipher: Bytes): (r: (DecoderState, Bytes))
    requires decoder.Valid()
    ensures r.0.Valid()
  {
    if cipher == [] then (decoder, [])
    else if decoder.ready then
      var plain := Decipher(decoder.key, decoder.state, cipher);
      (decoder.(state := StateAfter(decoder.key, decoder.state, plain)), plain)
    else
      var need := |decoder.key| + 1 - |decoder.bootstrap|;
      var take := if need > |cipher| then |cipher| else need;
      var bootstrap := decoder.bootstrap + cipher[..take];
      if |bootstrap| < |decoder.key| + 1 then (decoder.(bootstrap := bootstrap), [])
      else
        var key := SessionKey(decoder.key, bootstrap[..|decoder.key|]);
        var start := bootstrap[|decoder.key|] % |key|;
        var plain := Decipher(key, start, cipher[take..]);
        (DecoderState(key, StateAfter(key, start, plain), [], true), plain)
  }

  /** The plaintext of a whole received stream, as one function of it. */
  function Decoded(token: Key, wire: Bytes): Bytes {
    if |wire| <= |token| then []
    else Decipher(SessionKey(token, wire[..|token|]), wire[|token|] % |token|, wire[|token| + 1..])
  }

  /** The decoder after it consumed exactly `wire`. */
  function DecoderAfter(token: Key, wire: Bytes): (d: DecoderState)
    ensures d.Valid()
  {
    if |wire| <= |token| then DecoderState(token, 0, wire, false)
    else
      var key := SessionKey(token, wire[..|token|]);
      DecoderState(key, StateAfter(key, wire[|token|] % |token|, Decoded(token, wire)), [], true)
  }

  /** Decoding one more chunk continues the one stream, even inside the bootstrap. */
  lemma DecodeContinues(token: Key, consumed: Bytes, cipher: Bytes)
    ensures var step := DecodeChunk(DecoderAfter(token, consumed), cipher);
            step.0 == DecoderAfter(token, consumed + cipher)
            && Decoded(token, consumed) + step.1 == Decoded(token, consumed + cipher)
  {
    var n := |token|;
    var all := consumed + cipher;
    if cipher == [] {
      assert all == consumed;
    } else if |consumed| > n {
      var key := SessionKey(token, consumed[..n]);
      var start := consumed[n] % n;
      assert all[..n] == consumed[..n];
      assert all[n + 1..] == consumed[n + 1..] + cipher;
      DecipherConcat(key, start, consumed[n + 1..], cipher);
      var plain := Decipher(key, StateAfter(key, start, Decoded(token, consumed)), cipher);
      EncipherConcat(key, start, Decoded(token, consumed), plain);
    } else if |all| > n {
      var take := n + 1 - |consumed|;
      var bootstrap := consumed + cipher[..take];
      assert all == bootstrap + cipher[take..];
      assert all[..n] == bootstrap[..n];
      assert all[n + 1..] == cipher[take..];
    } else {
      assert cipher[..|cipher|] == cipher;
    }
  }

  // ---- the objects ----

  class TokenEncoder {
    var key: array<Byte>
    var state: nat
    var bootstrapped: bool
    var random: Bytes // what the random source will still deliver

    ghost predicate Valid()
      reads this, key
    {
      0 < key.Length && View().Valid()
    }

    ghost function View(): EncoderState
      reads this, key
      requires 0 < key.Length
    {
      EncoderState(key[..], state, bootstrapped)
    }

    constructor (token: Key, random: Bytes)
      requires Acceptable(token)
      ensures Valid() && fresh(key)
      ensures View() == NewEncoder(token) && this.random == random
    {
      key := new Byte[|token|](i requires 0 <= i < |token| => token[i]);
      state, bootstrapped := 0, false;
      this.random := random;
      new;
      assert key[..] == token;
    }

    /** A uniform byte of [minimum, maximum], by rejection. */
    method RandomRange(minimum: nat, maximum: nat) returns (r: Result<Byte, CryptoError>)
      requires minimum < 256 && maximum < 256
      modifies this`random
      ensures minimum > maximum ==> r == Err(InvalidRange) && random == old(random)
      ensures minimum <= maximum ==>
                var drawn := Draw(old(random), minimum, maximum);
                random == drawn.1 && r == if drawn.0.None? then Err(SourceDry) else Ok(drawn.0.value)
    {
      if minimum > maximum { return Err(InvalidRange); }
      var span := maximum - minimum + 1;
      var limit := Limit(span);
      while random != []
        invariant Draw(old(random), minimum, maximum) == Draw(random, minimum, maximum)
        decreases |random|
      {
        var value := random[0];
        random := random[1..];
        if value < limit { return Ok(minimum + value % span); }
      }
      return Err(SourceDry);
    }

    /** Draws the bootstrap and folds it in, or leaves everything but the source as it was. */
    method Bootstrap() returns (r: Result<Bytes, CryptoError>)
      requires Valid() && !bootstrapped
      modifies this, key
      ensures key == old(key) && Valid()
      ensures var drawn := DrawBootstrap(old(random), |old(key[..])|);
              random == drawn.1 &&
              if drawn.0.None? then r == Err(SourceDry) && View() == old(View())
              else
                r == Ok(drawn.0.value.0 + [drawn.0.value.1])
                && key[..] == SessionKey(old(key[..]), drawn.0.value.0)
                && state == drawn.0.value.1 % key.Length && bootstrapped
    {
      var prefix := PrefixBytes();
      if prefix.Err? { return Err(prefix.error); }
      var marker := RandomRange(key.Length + 1, 0xff);
      if marker.Err? { return Err(marker.error); }
      ApplyBootstrap(key, prefix.value);
      state := marker.value % key.Length;
      bootstrapped := true;
      return Ok(prefix.value + [marker.value]);
    }

    method PrefixBytes() returns (r: Result<Bytes, CryptoError>)
      modifies this`random
      ensures var drawn := DrawPrefix(old(random), key.Length);
              random == drawn.1 && r == if drawn.0.None? then Err(SourceDry) else Ok(drawn.0.value)
    {
      hide Draw;
      var prefix: Bytes := [];
      ghost var drawn := DrawPrefix(random, key.Length);
      assert drawn.0.Some? ==> drawn.0.value == prefix + drawn.0.value;
      while |prefix| < key.Length
        invariant |prefix| <= key.Length
        invariant var rest := DrawPrefix(random, key.Length - |prefix|);
                  if rest.0.None? then drawn == rest
                  else drawn.0.Some? && drawn.0.value == prefix + rest.0.value && drawn.1 == rest.1
      {
        var value := RandomRange(0x15, 0xff);
        if value.Err? { return Err(value.error); }
        prefix := prefix + [value.value];
      }
      assert prefix + [] == prefix;
      return Ok(prefix);
    }

    /** On error the key, the state and the flag are as they were: a failed bootstrap leaves no trace. */
    method Encode(plain: Bytes) returns (r: Result<Bytes, CryptoError>)
      requires Valid()
      modifies this, key
      ensures Valid() && key == old(key)
      ensures var step := EncodeChunk(old(View()), old(random), plain);
              View() == step.encoder && random == step.source && r == step.output
      ensures r.Err? ==> View() == old(View())
    {
      hide DrawBootstrap, SessionKey;
      if |plain| == 0 { return Ok([]); }
      ghost var step := EncodeChunk(View(), random, plain);
      var result: Bytes := [];
      if !bootstrapped {
        var opening := Bootstrap();
        if opening.Err? {
          assert step.output == opening;
          return opening;
        }
        result := opening.value;
      }
      var cipher;
      cipher, state := TransformEncode(key, state, plain);
      assert key[..] == step.encoder.key && state == step.encoder.state;
      assert [] + cipher == cipher;
      return Ok(result + cipher);
    }
  }

  class TokenDecoder {
    var key: array<Byte>
    var state: nat
    var bootstrap: Bytes
    var ready: bool

    ghost predicate Valid()
      reads this, key
    {
      0 < key.Length && View().Valid()
    }

    ghost function View(): DecoderState
      reads this, key
      requires 0 < key.Length
    {
      DecoderState(key[..], state, bootstrap, ready)
    }

    constructor (token: Key)
      requires Acceptable(token)
      ensures Valid() && fresh(key)
      ensures View() == NewDecoder(token)
    {
      key := new Byte[|token|](i requires 0 <= i < |token| => token[i]);
      state, bootstrap, ready := 0, [], false;
      new;
      assert key[..] == token;
    }

    method Decode(cipher: Bytes) returns (plain: Bytes)
      requires Valid()
      modifies this, key
      ensures Valid() && key == old(key)
      ensures (View(), plain) == DecodeChunk(old(View()), cipher)
    {
      if |cipher| == 0 { return []; }
      ghost var step := DecodeChunk(View(), cipher);
      var rest := cipher;
      if !ready {
        var need := key.Length + 1 - |bootstrap|;
        var take := need;
        if take > |cipher| {
          take := |cipher|;
        }
        bootstrap := bootstrap + cipher[..take];
        rest := cipher[take..];
        if |bootstrap| < key.Length + 1 { return []; }
        ApplyBootstrap(key, bootstrap[..key.Length]);
        state := bootstrap[key.Length] % key.Length;
        bootstrap := [];
        ready := true;
      }
      plain, state := TransformDecode(key, state, rest);
      assert key[..] == step.0.key && state == step.0.state && plain == step.1;
    }
  }

  // ---- whole streams ----

  /** A run of Encode calls that all succeed, with its outputs; None once one fails. */
  function EncodeAll(encoder: EncoderState, source: Bytes, chunks: seq<Bytes>): (r: Option<seq<Bytes>>)
    requires encoder.Valid()
    decreases |chunks|
  {
    if chunks == [] then Some([])
    else
      var step := EncodeChunk(encoder, source, chunks[0]);
      if step.output.Err? then None
      else
        var rest := EncodeAll(step.encoder, step.source, chunks[1..]);
        if rest.None? then None else Some([step.output.value] + rest.value)
  }

  function DecodeAll(decoder: DecoderState, chunks: seq<Bytes>): (outputs: seq<Bytes>)
    requires decoder.Valid()
    decreases |chunks|
  {
    if chunks == [] then []
    else
      var step := DecodeChunk(decoder, chunks[0]);
      [step.1] + DecodeAll(step.0, chunks[1..])
  }

  /** However the ciphertext is cut, the decoder's outputs concatenate to the one decoding of it. */
  lemma {:induction false} ChunkingIndependence(token: Key, consumed: Bytes, chunks: seq<Bytes>)
    ensures Decoded(token, consumed) + Flatten(DecodeAll(DecoderAfter(token, consumed), chunks))
         == Decoded(token, consumed + Flatten(chunks))
    decreases |chunks|
  {
    hide Decoded, DecodeChunk, DecoderAfter;
    if chunks == [] {
      assert consumed + Flatten(chunks) == consumed;
    } else {
      var step := DecodeChunk(DecoderAfter(token, consumed), chunks[0]);
      DecodeContinues(token, consumed, chunks[0]);
      ChunkingIndependence(token, consumed + chunks[0], chunks[1..]);
      FlattenCons(step.1, DecodeAll(step.0, chunks[1..]));
      assert consumed + chunks[0] + Flatten(chunks[1..]) == consumed + Flatten(chunks);
    }
  }

  /** An encoder that has started keeps emitting the same wire stream. */
  lemma {:induction false} EncodeAllStarted(
      token: Key, prefix: Bytes, marker: Byte, sent: Bytes, source: Bytes, chunks: seq<Bytes>)
    requires |prefix| == |token| <= MAX_TOKEN_LENGTH && sent != []
    ensures EncoderAfter(token, prefix, marker, sent).Valid()
    ensures var outputs := EncodeAll(EncoderAfter(token, prefix, marker, sent), source, chunks);
            outputs.Some?
            && Wire(token, prefix, marker, sent) + Flatten(outputs.value)
                == Wire(token, prefix, marker, sent + Flatten(chunks))
    decreases |chunks|
  {
    hide Wire, EncodeChunk, EncoderAfter, NewEncoder;
    EncodeContinues(token, prefix, marker, sent, source, []);
    if chunks == [] {
      assert sent + Flatten(chunks) == sent;
    } else {
      EncodeContinues(token, prefix, marker, sent, source, chunks[0]);
      var step := EncodeChunk(EncoderAfter(token, prefix, marker, sent), source, chunks[0]);
      EncodeAllStarted(token, prefix, marker, sent + chunks[0], step.source, chunks[1..]);
      assert sent + chunks[0] + Flatten(chunks[1..]) == sent + Flatten(chunks);
      FlattenCons(step.output.value, EncodeAll(step.encoder, step.source, chunks[1..]).value);
    }
  }

  /** The outputs of a fresh encoder concatenate to one wire stream for the concatenated plaintext. */
  lemma {:induction false} EncodeAllIsWire(token: Key, source: Bytes, chunks: seq<Bytes>)
    returns (prefix: Bytes, marker: Byte)
    requires Acceptable(token)
    requires EncodeAll(NewEncoder(token), source, chunks).Some?
    ensures |prefix| == |token|
    ensures Flatten(EncodeAll(NewEncoder(token), source, chunks).value) == Wire(token, prefix, marker, Flatten(chunks))
    decreases |chunks|
  {
    hide EncodeChunk, DrawBootstrap;
    if chunks == [] {
      prefix, marker := token, 0;
    } else if chunks[0] == [] {
      hide Wire;
      EncodeNothing(NewEncoder(token), source);
      prefix, marker := EncodeAllIsWire(token, source, chunks[1..]);
      FlattenCons([], EncodeAll(NewEncoder(token), source, chunks[1..]).value);
      assert Flatten(chunks) == Flatten(chunks[1..]);
    } else {
      hide Wire;
      var step := EncodeChunk(NewEncoder(token), source, chunks[0]);
      FreshOutput(token, source, chunks[0]);
      FlattenCons(step.output.value, EncodeAll(step.encoder, step.source, chunks[1..]).value);
      var drawn := DrawBootstrap(source, |token|).0.value;
      prefix, marker := drawn.0, drawn.1;
      FirstChunk(token, prefix, marker, source, chunks);
    }
  }

  lemma EncodeNothing(encoder: EncoderState, source: Bytes)
    requires encoder.Valid()
    ensures EncodeChunk(encoder, source, []) == EncodeStep(encoder, source, Ok([]))
  {
  }

  lemma FreshOutput(token: Key, source: Bytes, plain: Bytes)
    requires Acceptable(token) && plain != []
    requires EncodeChunk(NewEncoder(token), source, plain).output.Ok?
    ensures DrawBootstrap(source, |token|).0.Some?
  {
  }

  lemma FirstChunk(token: Key, prefix: Bytes, marker: Byte, source: Bytes, chunks: seq<Bytes>)
    requires Acceptable(token) && chunks != [] && chunks[0] != []
    requires |prefix| == |token| && DrawBootstrap(source, |token|).0 == Some((prefix, marker))
    ensures var step := EncodeChunk(NewEncoder(token), source, chunks[0]);
            var rest := EncodeAll(step.encoder, step.source, chunks[1..]);
            step.output.Ok? && rest.Some?
            && step.output.value + Flatten(rest.value) == Wire(token, prefix, marker, Flatten(chunks))
  {
    EncodeContinues(token, prefix, marker, [], source, chunks[0]);
    assert NewEncoder(token) == EncoderAfter(token, prefix, marker, []) && Wire(token, prefix, marker, []) == [];
    hide Wire, EncodeChunk, EncoderAfter, NewEncoder, DrawBootstrap;
    assert [] + chunks[0] == chunks[0];
    EncodeAllStarted(token, prefix, marker, chunks[0], EncodeChunk(NewEncoder(token), source, chunks[0]).source,
        chunks[1..]);
  }

  lemma DecodedWire(token: Key, prefix: Bytes, marker: Byte, plain: Bytes)
    requires |prefix| == |token|
    ensures Decoded(token, Wire(token, prefix, marker, plain)) == plain
  {
    if plain != [] {
      var wire := Wire(token, prefix, marker, plain);
      assert wire[..|token|] == prefix && wire[|token|] == marker;
      assert wire[|token| + 1..] == Encipher(SessionKey(token, prefix), marker % |token|, plain);
      DecipherEncipher(SessionKey(token, prefix), marker % |token|, plain);
    }
  }

  /** A prefix of a stream decodes to a prefix of what the stream decodes to. */
  lemma DecodedPrefix(token: Key, received: Bytes, wire: Bytes)
    requires received <= wire
    ensures Decoded(token, received) <= Decoded(token, wire)
  {
    DecodeContinues(token, received, wire[|received|..]);
    assert received + wire[|received|..] == wire;
  }

  /** The decoder's outputs are the decoding of the whole, however the stream was cut. */
  lemma DecodesAsOne(token: Key, received: seq<Bytes>)
    requires Acceptable(token)
    ensures Flatten(DecodeAll(NewDecoder(token), received)) == Decoded(token, Flatten(received))
  {
    ChunkingIndependence(token, [], received);
    hide DecodeAll, Flatten, Acceptable;
    assert [] + Flatten(received) == Flatten(received);
  }

  /**
   The law of the transform. Whatever chunks went in, and however any received part of the ciphertext is
   cut again, the decoder recovers a prefix of the plaintext, and all of it from all of the ciphertext.
   */
  lemma RoundTrip(token: Key, source: Bytes, plain: seq<Bytes>, received: seq<Bytes>)
    requires Acceptable(token)
    requires EncodeAll(NewEncoder(token), source, plain).Some?
    requires Flatten(received) <= Flatten(EncodeAll(NewEncoder(token), source, plain).value)
    ensures Flatten(DecodeAll(NewDecoder(token), received)) <= Flatten(plain)
    ensures Flatten(received) == Flatten(EncodeAll(NewEncoder(token), source, plain).value)
        ==> Flatten(DecodeAll(NewDecoder(token), received)) == Flatten(plain)
  {
    var prefix, marker := EncodeAllIsWire(token, source, plain);
    var wire := Wire(token, prefix, marker, Flatten(plain));
    DecodedWire(token, prefix, marker, Flatten(plain));
    DecodedPrefix(token, Flatten(received), wire);
    DecodesAsOne(token, received);
  }

  // ---- the opening, and one stream worked out ----

  lemma {:induction false} PrefixIsInRange(source: Bytes, count: nat)
    ensures DrawPrefix(source, count).0.Some? ==>
              forall i :: 0 <= i < count ==> 0x15 <= DrawPrefix(source, count).0.value[i] <= 0xff
    decreases count
  {
    if count == 0 {
    } else {
      PrefixIsInRange(Draw(source, 0x15, 0xff).1, count - 1);
    }
  }

  /** An opening has its prefix in the range the receiver takes, and a marker above the length of the token. */
  lemma OpeningIsInRange(source: Bytes, length: nat)
    requires length <= MAX_TOKEN_LENGTH && DrawBootstrap(source, length).0.Some?
    ensures var (prefix, marker) := DrawBootstrap(source, length).0.value;
            (forall i :: 0 <= i < length ==> 0x15 <= prefix[i] <= 0xff) && length < marker <= 0xff
  {
    PrefixIsInRange(source, length);
  }

  /** A stream of one byte, worked out: token 41, random bytes 00 1e, plaintext 4f give 15 20 ef. */
  lemma SmallestStream()
    ensures EncodeChunk(NewEncoder([0x41]), [0x00, 0x1e], [0x4f]).output == Ok([0x15, 0x20, 0xef])
  {
    hide DrawBootstrap, SessionKey, Encipher, StateAfter;
    DrawsSmallest();
    SmallestKey();
    SmallestCipher();
    var key: Key := [0xa0];
    assert |key| == 1 && 0x20 % 1 == 0;
    assert [0x15] + [0x20] + [0xef] == [0x15, 0x20, 0xef];
  }

  lemma SmallestRoll()
    ensures Roll(0xaa, 0x41, 0x15) == 0xa0
  {
    XorOfShifted();
    XorOfRolled();
    hide Xor;
    assert Roll(0xaa, 0x41, 0x15) == Xor(0xaa, Xor(0x41 / 2, 0x15 % 128 * 2));
    assert 0x41 / 2 == 0x20 && 0x15 % 128 * 2 == 0x2a;
  }

  lemma XorOfShifted()
    ensures Xor(0x20, 0x2a) == 0x0a
  {
    assert XorBits(0x0, 0x0, 2) == 0x0;
    assert XorBits(0x2, 0x2, 4) == 0x0;
    assert XorBits(0x8, 0xa, 6) == 0x2;
  }

  lemma XorOfRolled()
    ensures Xor(0xaa, 0x0a) == 0xa0
  {
    assert XorBits(0x2, 0x0, 2) == 0x2;
    assert XorBits(0xa, 0x0, 4) == 0xa;
    assert XorBits(0x2a, 0x2, 6) == 0x28;
  }

  lemma SmallestKey()
    ensures SessionKey([0x41], [0x15]) == [0xa0]
  {
    SmallestRoll();
    hide Roll;
    var token: Bytes, prefix: Bytes := [0x41], [0x15];
    assert Mix(token[1..], prefix[1..], 0xa0) == [];
    assert [0xa0] + [] == [0xa0];
  }

  lemma SmallestCipher()
    ensures Encipher([0xa0], 0, [0x4f]) == [0xef]
  {
    XorOfPlain();
    hide Xor, NextState;
  }

  lemma XorOfPlain()
    ensures Xor(0x4f, 0xa0) == 0xef
  {
    assert XorBits(0x1, 0x2, 2) == 0x3;
    assert XorBits(0x4, 0xa, 4) == 0xe;
    assert XorBits(0x13, 0x28, 6) == 0x3b;
  }

  lemma DrawsSmallest()
    ensures DrawBootstrap([0x00, 0x1e], 1) == (Some(([0x15], 0x20)), [])
  {
    var source: Bytes := [0x00, 0x1e];
    assert Draw(source, 0x15, 0xff) == (Some(0x15), source[1..]);
    assert DrawPrefix(source[1..], 0) == (Some([]), source[1..]);
    assert [0x15] + [] == [0x15];
    assert DrawPrefix(source, 1) == (Some([0x15]), source[1..]);
    assert source[1..] == [0x1e];
    assert Draw([0x1e], 2, 0xff) == (Some(0x20), []);
    hide Draw, DrawPrefix;
  }
}
