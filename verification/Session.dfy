/**
 One relay session of internal/bridge/bridge.go, from the first byte of the client to the last: the watch
 that buffers what the client sends while the relay is dialled, the replay of that buffer, and the copy loops.
 */
module Session {
  import opened Wrappers
  import opened Sequences
  import opened Bits
  import opened TokenCrypto
  import opened Tunnels

  // ---- the client-to-relay direction as a step machine ----

  /** Where the session is. `held` was read from the client and is not encoded yet. */
  datatype Phase =
    | Dialling
    | Stopping(dialled: bool)
    | Replaying(held: Bytes)
    | Copying(held: Bytes, after: Option<IoError>)
    | Ended(clean: bool)

  datatype Session = Session(
    incoming: seq<ReadEvent>, // what the client socket will still yield
    taken: Bytes, // every byte read from the client so far
    buf: Bytes, // of the watch
    watching: bool,
    stopping: bool,
    gone: bool,
    phase: Phase,
    encoder: EncoderState,
    random: Bytes,
    relay: Bytes, // what reached the relay
    outcomes: seq<WriteEvent>,
    forwarded: Bytes) // the client bytes the tunnel accepted; their number is what the session reports

  /** The atomic steps of the two goroutines that share the client socket. */
  datatype Event =
    | WatchRead
    | DialEnds(ok: bool)
    | SetStopping
    | Wake
    | TakePending
    | Replay
    | CopyRead
    | CopyWrite
    | Abort

  /** The watch appends what it read, and reports a client that went away before it was told to stop. */
  function WatchStep(s: Session): Session
    requires s.watching
  {
    if s.incoming == [] then s.(watching := false, gone := !s.stopping)
    else
      var event := s.incoming[0];
      s.(incoming := s.incoming[1..], taken := s.taken + event.bytes, buf := s.buf + event.bytes,
         watching := event.error.None?, gone := event.error.Some? && !s.stopping)
  }

  /** One write into the tunnel. */
  function Forward(s: Session, plain: Bytes, next: Phase): Session
    requires s.encoder.Valid()
  {
    var step := EncodeChunk(s.encoder, s.random, plain);
    if step.output.Err? then s.(encoder := step.encoder, random := step.source, phase := Ended(false))
    else
      var put := Put(s.relay, s.outcomes, step.output.value);
      s.(encoder := step.encoder, random := step.source, relay := put.written, outcomes := put.outcomes,
         phase := if put.error.Some? then Ended(false) else next,
         forwarded := if put.error.Some? then s.forwarded else s.forwarded + plain)
  }

  function AfterRead(error: Option<IoError>): Phase {
    match error
    case None => Copying([], None)
    case Some(EndOfStream) => Ended(true)
    case Some(_) => Ended(false)
  }

  function CopyReadStep(s: Session): Session {
    if s.incoming == [] then s.(phase := Ended(true))
    else
      var event := s.incoming[0];
      s.(incoming := s.incoming[1..], taken := s.taken + event.bytes,
         phase := if event.bytes != [] then Copying(event.bytes, event.error) else AfterRead(event.error))
  }

  predicate Enabled(s: Session, event: Event) {
    match event
    case WatchRead => s.watching
    case DialEnds(_) => s.phase.Dialling?
    case SetStopping => s.phase.Stopping? && !s.stopping
    case Wake => s.phase.Stopping? && s.stopping && s.watching
    case TakePending => s.phase.Stopping? && !s.watching
    case Replay => s.phase.Replaying? && s.encoder.Valid()
    case CopyRead => s.phase.Copying? && s.phase.held == []
    case CopyWrite => s.phase.Copying? && s.phase.held != [] && s.encoder.Valid()
    case Abort => s.phase.Copying? && s.phase.held == []
  }

  function Step(s: Session, event: Event): Session
    requires Enabled(s, event)
  {
    match event
    case WatchRead => WatchStep(s)
    case DialEnds(ok) => s.(phase := Stopping(ok))
    case SetStopping => s.(stopping := true)
    case Wake => s.(watching := false)
    case TakePending =>
      if !s.phase.dialled then s.(phase := Ended(false))
      else s.(phase := if s.buf != [] then Replaying(s.buf) else Copying([], None))
    case Replay => Forward(s, s.phase.held, Copying([], None))
    case CopyRead => CopyReadStep(s)
    case CopyWrite => Forward(s, s.phase.held, AfterRead(s.phase.after))
    case Abort => s.(phase := Ended(false))
  }

  function Start(token: Key, random: Bytes, client: seq<ReadEvent>, outcomes: seq<WriteEvent>): Session {
    Session(client, [], [], true, false, false, Dialling, NewEncoder(token), random, [], outcomes, [])
  }

  /** The states of a run: each of its events was enabled when it happened. */
  predicate Run(start: Session, events: seq<Event>, end: Session)
    decreases |events|
  {
    if events == [] then end == start
    else Enabled(start, events[0]) && Run(Step(start, events[0]), events[1..], end)
  }

  /** The bootstrap the random source holds for this session, if it holds one. */
  function Opening(token: Key, random: Bytes): (r: (Bytes, Byte))
    requires Acceptable(token)
    ensures |r.0| == |token|
  {
    var drawn := DrawBootstrap(random, |token|).0;
    if drawn.Some? then drawn.value else (token, 0)
  }

  /** Read from the client and not forwarded yet. */
  function Held(s: Session): Bytes {
    match s.phase
    case Dialling => s.buf
    case Stopping(_) => s.buf
    case Replaying(held) => held
    case Copying(held, _) => held
    case Ended(_) => []
  }

  /** The encoder has sent exactly the forwarded bytes, and exactly their wire stream reached the relay. */
  predicate InStep(token: Key, random: Bytes, s: Session)
    requires Acceptable(token)
  {
    var (prefix, marker) := Opening(token, random);
    && s.encoder == EncoderAfter(token, prefix, marker, s.forwarded)
    && (s.forwarded == [] ==> s.random == random)
    && s.relay == Wire(token, prefix, marker, s.forwarded)
  }

  predicate Invariant(token: Key, random: Bytes, s: Session)
    requires Acceptable(token)
  {
    var (prefix, marker) := Opening(token, random);
    if s.phase.Ended? then
      && Wire(token, prefix, marker, s.forwarded) <= s.relay <= Wire(token, prefix, marker, s.taken)
      && s.forwarded <= s.taken
      && (s.phase.clean ==> s.relay == Wire(token, prefix, marker, s.taken) && s.forwarded == s.taken)
    else
      s.taken == s.forwarded + Held(s) && InStep(token, random, s)
  }

  lemma WirePrefix(token: Key, prefix: Bytes, marker: Byte, sent: Bytes, rest: Bytes)
    requires |prefix| == |token|
    ensures Wire(token, prefix, marker, sent) <= Wire(token, prefix, marker, sent + rest)
  {
    if sent != [] {
      EncipherConcat(SessionKey(token, prefix), marker % |token|, sent, rest);
    }
  }

  /** Encoding the held bytes fails outright or continues the one wire stream. */
  lemma EncodeHeld(token: Key, random: Bytes, s: Session, held: Bytes)
    requires Acceptable(token) && InStep(token, random, s)
    ensures s.encoder.Valid()
    ensures var step := EncodeChunk(s.encoder, s.random, held);
            step.output.Ok? ==>
              InStep(token, random, s.(encoder := step.encoder, random := step.source,
                                       relay := s.relay + step.output.value, forwarded := s.forwarded + held))
  {
    var (prefix, marker) := Opening(token, random);
    if s.forwarded == [] && held != [] && DrawBootstrap(s.random, |token|).0.None? {
      assert EncodeChunk(s.encoder, s.random, held).output.Err?;
    } else {
      EncodeContinues(token, prefix, marker, s.forwarded, s.random, held);
      if s.forwarded + held == [] {
        assert held == [];
      }
    }
  }

  /** Encoding and writing the held bytes keeps relay and client in step, or ends with a prefix. */
  lemma ForwardKeeps(token: Key, random: Bytes, s: Session, next: Phase)
    requires Acceptable(token) && InStep(token, random, s) && s.taken == s.forwarded + Held(s) && s.encoder.Valid()
    requires next.Ended? || next == Copying([], None)
    ensures Invariant(token, random, Forward(s, Held(s), next))
  {
    hide Acceptable, Wire, EncodeChunk, EncoderAfter, Opening, Put;
    EncodeHeld(token, random, s, Held(s));
    WireGrows(token, random, s);
    var step := EncodeChunk(s.encoder, s.random, Held(s));
    if step.output.Ok? {
      var sent := s.(encoder := step.encoder, random := step.source,
                     relay := s.relay + step.output.value, forwarded := s.forwarded + Held(s));
      assert InStep(token, random, sent);
      assert sent.taken + [] == sent.taken;
    }
  }

  lemma StepKeeps(token: Key, random: Bytes, s: Session, event: Event)
    requires Acceptable(token) && Invariant(token, random, s) && Enabled(s, event)
    requires s.watching ==> s.phase.Dialling? || s.phase.Stopping?
    ensures Invariant(token, random, Step(s, event))
  {
    hide Wire, EncodeChunk, EncoderAfter, Opening, Put, WatchStep, CopyReadStep, Forward;
    match event
    case Replay => ForwardKeeps(token, random, s, Copying([], None));
    case CopyWrite => ForwardKeeps(token, random, s, AfterRead(s.phase.after));
    case WatchRead => ReadKeeps(token, random, s);
    case CopyRead => ReadKeeps(token, random, s);
    case _ =>
      if !s.phase.Ended? {
        WireGrows(token, random, s);
        assert s.forwarded + [] == s.forwarded;
      }
  }

  lemma ReadKeeps(token: Key, random: Bytes, s: Session)
    requires Acceptable(token) && Invariant(token, random, s)
    ensures s.watching && (s.phase.Dialling? || s.phase.Stopping?) ==> Invariant(token, random, WatchStep(s))
    ensures Enabled(s, CopyRead) ==> Invariant(token, random, CopyReadStep(s))
  {
    hide Wire, EncodeChunk, EncoderAfter, Opening, Put;
    if s.incoming != [] {
      var bytes := s.incoming[0].bytes;
      assert s.forwarded + Held(s) + bytes == s.forwarded + (Held(s) + bytes);
      assert [] + bytes == bytes;
    }
    if Enabled(s, CopyRead) {
      assert s.forwarded + [] == s.forwarded && s.taken + [] == s.taken;
    }
  }

  lemma WireGrows(token: Key, random: Bytes, s: Session)
    requires Acceptable(token) && InStep(token, random, s) && s.taken == s.forwarded + Held(s)
    ensures var (prefix, marker) := Opening(token, random);
            && Wire(token, prefix, marker, s.forwarded) <= s.relay <= Wire(token, prefix, marker, s.taken)
            && s.forwarded <= s.taken
  {
    var (prefix, marker) := Opening(token, random);
    WirePrefix(token, prefix, marker, s.forwarded, Held(s));
  }

  /** What was read and what is still to be read are the client's whole stream. */
  predicate Reading(client: seq<ReadEvent>, s: Session) {
    && |s.incoming| <= |client| && s.incoming == client[|client| - |s.incoming|..]
    && s.taken + BytesOf(s.incoming) == BytesOf(client)
    && (s.watching ==> s.phase.Dialling? || s.phase.Stopping?)
    && (EndsOnce(client) ==>
          (s.phase == Ended(true) || (s.phase.Copying? && s.phase.after == Some(EndOfStream)) ==> s.incoming == []))
  }

  /** Nothing follows the end of the client's stream. */
  predicate EndsOnce(client: seq<ReadEvent>) {
    forall i :: 0 <= i < |client| - 1 ==> client[i].error != Some(EndOfStream)
  }

  lemma StepReads(client: seq<ReadEvent>, s: Session, event: Event)
    requires Reading(client, s) && Enabled(s, event)
    ensures Reading(client, Step(s, event))
  {
    hide EncodeChunk, Put;
    if event.WatchRead? || event.CopyRead? {
      ReadReads(client, s);
    }
  }

  lemma ReadReads(client: seq<ReadEvent>, s: Session)
    requires Reading(client, s)
    ensures s.watching ==> Reading(client, WatchStep(s))
    ensures Enabled(s, CopyRead) ==> Reading(client, CopyReadStep(s))
  {
    if s.incoming != [] {
      assert s.incoming[0] == client[|client| - |s.incoming|];
      assert s.taken + s.incoming[0].bytes + BytesOf(s.incoming[1..]) == s.taken + BytesOf(s.incoming);
    }
  }

  lemma {:induction false} RunKeeps(
      token: Key, random: Bytes, client: seq<ReadEvent>, start: Session, events: seq<Event>, end: Session)
    requires Acceptable(token) && Run(start, events, end)
    requires Invariant(token, random, start) && Reading(client, start)
    ensures Invariant(token, random, end) && Reading(client, end)
    decreases |events|
  {
    if events == [] {
    } else {
      StepKeeps(token, random, start, events[0]);
      StepReads(client, start, events[0]);
      hide Invariant, Reading, Step, Enabled;
      RunKeeps(token, random, client, Step(start, events[0]), events[1..], end);
    }
  }

  lemma StartKeeps(token: Key, random: Bytes, client: seq<ReadEvent>, outcomes: seq<WriteEvent>)
    requires Acceptable(token)
    ensures Invariant(token, random, Start(token, random, client, outcomes))
    ensures Reading(client, Start(token, random, client, outcomes))
  {
    hide Opening, BytesOf;
    assert [] + BytesOf(client) == BytesOf(client);
  }

  lemma OnTheWire(token: Key, random: Bytes, s: Session)
    requires Acceptable(token) && Invariant(token, random, s)
    ensures var (prefix, marker) := Opening(token, random);
            && Wire(token, prefix, marker, s.forwarded) <= s.relay <= Wire(token, prefix, marker, s.taken)
            && s.forwarded <= s.taken
            && (s.phase == Ended(true) ==> s.relay == Wire(token, prefix, marker, s.taken) && s.forwarded == s.taken)
  {
    hide Wire, Opening, EncoderAfter;
    if !s.phase.Ended? { WireGrows(token, random, s); }
  }

  lemma TakenIsRead(client: seq<ReadEvent>, s: Session)
    requires Reading(client, s)
    ensures s.taken <= BytesOf(client)
    ensures s.phase == Ended(true) && EndsOnce(client) ==> s.taken == BytesOf(client)
  {
    hide EndsOnce;
    assert s.taken + [] == s.taken;
  }

  /**
   In every run, whatever part of the relay's bytes a relay-side decoder has consumed and in whatever
   pieces, it recovered a prefix of what the client sent: nothing lost, repeated or reordered across the
   watch buffer, the replay and the copy loop. What the session counts as forwarded is within what all of the relay's
   bytes decode to. A session that ends with the client's stream has carried all of it, and reports its length.
   */
  lemma SessionIsTransparent(
      token: Key, random: Bytes, client: seq<ReadEvent>, outcomes: seq<WriteEvent>,
      events: seq<Event>, end: Session, received: seq<Bytes>)
    requires Acceptable(token) && Run(Start(token, random, client, outcomes), events, end)
    requires Flatten(received) <= end.relay
    ensures Flatten(DecodeAll(NewDecoder(token), received)) <= end.taken <= BytesOf(client)
    ensures end.phase == Ended(true) && Flatten(received) == end.relay
        ==> Flatten(DecodeAll(NewDecoder(token), received)) == end.taken == end.forwarded
    ensures end.phase == Ended(true) && EndsOnce(client) ==> end.taken == BytesOf(client)
    ensures Flatten(received) == end.relay ==> end.forwarded <= Flatten(DecodeAll(NewDecoder(token), received))
  {
    hide Invariant, Reading, Wire, Opening, Decoded, Run, Start, EndsOnce, Acceptable, Flatten, BytesOf, DecodeAll;
    var start := Start(token, random, client, outcomes);
    StartKeeps(token, random, client, outcomes);
    RunKeeps(token, random, client, start, events, end);
    OnTheWire(token, random, end);
    TakenIsRead(client, end);
    var (prefix, marker) := Opening(token, random);
    var wire := Wire(token, prefix, marker, end.taken);
    DecodedWire(token, prefix, marker, end.taken);
    DecodedPrefix(token, Flatten(received), wire);
    DecodedWire(token, prefix, marker, end.forwarded);
    if Flatten(received) == end.relay {
      DecodedPrefix(token, Wire(token, prefix, marker, end.forwarded), end.relay);
    }
    DecodesAsOne(token, received);
  }

  // ---- how a session ends ----

  /** A read that ended in anything but the end of the stream. */
  predicate Breaks(error: Option<IoError>) { error.Some? && error != Some(EndOfStream) }

  /** The next write toward the relay can go out: its opening can be drawn, if it needs one, and the socket holds. */
  predicate CanSend(s: Session)
    requires s.encoder.Valid()
  {
    && (s.forwarded == [] ==> DrawBootstrap(s.random, |s.encoder.key|).0.Some?)
    && !(s.outcomes != [] && s.outcomes[0].BrokenAfter?)
  }

  /** What goes wrong outside of the session: the dial, a read of the copy loop, a write, or an abort. */
  predicate Fault(s: Session, event: Event)
    requires Enabled(s, event)
  {
    match event
    case DialEnds(ok) => !ok
    case Abort => true
    case CopyRead => s.incoming != [] && Breaks(s.incoming[0].error)
    case Replay => !CanSend(s)
    case CopyWrite => !CanSend(s)
    case _ => false
  }

  predicate Faultless(s: Session, events: seq<Event>)
    decreases |events|
  {
    events != [] && Enabled(s, events[0]) ==>
      !Fault(s, events[0]) && Faultless(Step(s, events[0]), events[1..])
  }

  /** Nothing went wrong so far. */
  predicate Sound(s: Session) {
    match s.phase
    case Stopping(dialled) => dialled
    case Replaying(held) => held != []
    case Copying(_, after) => !Breaks(after)
    case Ended(clean) => clean
    case Dialling => true
  }

  /** The session has failed, or is bound to. */
  predicate Doomed(s: Session) {
    match s.phase
    case Stopping(dialled) => !dialled
    case Copying(held, after) => held != [] && Breaks(after)
    case Ended(clean) => !clean
    case _ => false
  }

  /** What a write of held bytes needs of the state, apart from what is still to be sent. */
  predicate Sending(token: Key, random: Bytes, s: Session)
    requires Acceptable(token)
  {
    s.encoder.Valid() && |s.encoder.key| == |token| && (s.encoder.bootstrapped <==> s.forwarded != [])
  }

  lemma InvariantSends(token: Key, random: Bytes, s: Session)
    requires Acceptable(token) && Invariant(token, random, s) && !s.phase.Ended?
    ensures Sending(token, random, s)
  {
    hide Wire, DrawBootstrap, Acceptable;
    assert |token| <= MAX_TOKEN_LENGTH by { AcceptableIsShort(token); }
  }

  lemma AcceptableIsShort(token: Key)
    requires Acceptable(token)
    ensures |token| <= MAX_TOKEN_LENGTH
  {
  }

  /** A write of held bytes ends the session exactly when it cannot go out. */
  lemma ForwardFailsIff(token: Key, random: Bytes, s: Session, held: Bytes, next: Phase)
    requires Acceptable(token) && Sending(token, random, s) && held != []
    ensures Forward(s, held, next).phase == if CanSend(s) then next else Ended(false)
  {
    hide DrawBootstrap, Encipher, StateAfter, SessionKey;
    var step := EncodeChunk(s.encoder, s.random, held);
    assert step.output.Ok? ==> step.output.value != [];
  }

  lemma StepFails(token: Key, random: Bytes, s: Session, event: Event)
    requires Acceptable(token) && Enabled(s, event) && (s.phase.Ended? || Sending(token, random, s)) && Sound(s)
    ensures if Fault(s, event) then Doomed(Step(s, event)) else Sound(Step(s, event))
  {
    hide Forward, CanSend, Acceptable;
    if event.Replay? {
      ForwardFailsIff(token, random, s, s.phase.held, Copying([], None));
    } else if event.CopyWrite? {
      ForwardFailsIff(token, random, s, s.phase.held, AfterRead(s.phase.after));
    }
  }

  lemma DoomStays(token: Key, random: Bytes, s: Session, event: Event)
    requires Acceptable(token) && Enabled(s, event) && (s.phase.Ended? || Sending(token, random, s)) && Doomed(s)
    ensures Doomed(Step(s, event))
  {
    hide Forward, CanSend, Acceptable;
    if event.CopyWrite? {
      ForwardFailsIff(token, random, s, s.phase.held, AfterRead(s.phase.after));
    }
  }

  lemma {:induction false} RunFails(
      token: Key, random: Bytes, client: seq<ReadEvent>, s: Session, events: seq<Event>, end: Session)
    requires Acceptable(token) && Run(s, events, end) && Invariant(token, random, s) && Reading(client, s)
    requires Sound(s) || Doomed(s)
    ensures if Sound(s) && Faultless(s, events) then Sound(end) else Doomed(end)
    decreases |events|
  {
    if events == [] {
    } else {
      hide Invariant, Reading, Step, Enabled, Fault, Sound, Doomed, Acceptable, Sending;
      var next := Step(s, events[0]);
      ReadingWatches(client, s);
      StepKeeps(token, random, s, events[0]);
      StepReads(client, s, events[0]);
      if !s.phase.Ended? { InvariantSends(token, random, s); }
      if Sound(s) { StepFails(token, random, s, events[0]); } else { DoomStays(token, random, s, events[0]); }
      SoundOrDoomed(next);
      RunFails(token, random, client, next, events[1..], end);
    }
  }

  lemma ReadingWatches(client: seq<ReadEvent>, s: Session)
    requires Reading(client, s)
    ensures s.watching ==> s.phase.Dialling? || s.phase.Stopping?
  {
  }

  lemma SoundOrDoomed(s: Session)
    ensures !(Sound(s) && Doomed(s))
  {
  }

  /**
   A session fails only for a reason outside of it: in every run without a failed dial, an abort, a read that breaks,
   a dry random source or a broken write it has not failed, and in every run with one it never ends as if nothing was.
   */
  lemma FailsOnlyByFaults(
      token: Key, random: Bytes, client: seq<ReadEvent>, outcomes: seq<WriteEvent>, events: seq<Event>, end: Session)
    requires Acceptable(token) && Run(Start(token, random, client, outcomes), events, end)
    ensures var faultless := Faultless(Start(token, random, client, outcomes), events);
            (faultless ==> end.phase != Ended(false)) && (!faultless ==> end.phase != Ended(true))
  {
    hide Invariant, Reading, Run, Faultless;
    StartKeeps(token, random, client, outcomes);
    RunFails(token, random, client, Start(token, random, client, outcomes), events, end);
  }

  /** Nothing more happens by itself. */
  ghost predicate AtRest(s: Session) { forall event :: Enabled(s, event) ==> event.Abort? }

  lemma SomethingHappens(token: Key, random: Bytes, s: Session) returns (event: Event)
    requires Acceptable(token) && Sending(token, random, s) && Sound(s) && !s.phase.Ended?
    ensures Enabled(s, event) && !event.Abort?
  {
    hide Acceptable;
    match s.phase
    case Dialling => event := DialEnds(true);
    case Stopping(_) => event := if !s.stopping then SetStopping else if s.watching then Wake else TakePending;
    case Replaying(_) => event := Replay;
    case Copying(held, _) => event := if held == [] then CopyRead else CopyWrite;
  }

  lemma StillEnabled(s: Session, event: Event)
    requires AtRest(s) && Enabled(s, event)
    ensures event.Abort?
  {
  }

  /**
   Nothing having gone wrong, a session in which nothing more happens by itself has ended cleanly, and all that the
   client sent has been forwarded.
   */
  lemma CarriesEverything(
      token: Key, random: Bytes, client: seq<ReadEvent>, outcomes: seq<WriteEvent>, events: seq<Event>, end: Session)
    requires Acceptable(token) && Run(Start(token, random, client, outcomes), events, end)
    requires Faultless(Start(token, random, client, outcomes), events) && AtRest(end)
    ensures end.phase == Ended(true) && end.forwarded == end.taken
    ensures EndsOnce(client) ==> end.forwarded == BytesOf(client)
  {
    var start := Start(token, random, client, outcomes);
    StartKeeps(token, random, client, outcomes);
    hide Invariant, Reading, Run, Faultless, AtRest, EndsOnce, BytesOf, Acceptable, Sending;
    RunFails(token, random, client, start, events, end);
    RunKeeps(token, random, client, start, events, end);
    if !end.phase.Ended? {
      InvariantSends(token, random, end);
      var event := SomethingHappens(token, random, end);
      StillEnabled(end, event);
      assert false;
    }
    OnTheWire(token, random, end);
    TakenIsRead(client, end);
  }

  /** Events that can still happen. */
  function Remaining(s: Session): nat {
    2 * |s.incoming| + (if s.watching then 1 else 0) + (if s.stopping then 0 else 1)
    + match s.phase
      case Dialling => 5
      case Stopping(_) => 4
      case Replaying(_) => 3
      case Copying(held, _) => if held != [] then 2 else 1
      case Ended(_) => 0
  }

  lemma StepIsSpent(s: Session, event: Event)
    requires Enabled(s, event)
    ensures Remaining(Step(s, event)) < Remaining(s)
  {
    hide EncodeChunk, Put;
  }

  lemma {:induction false} RunIsSpent(s: Session, events: seq<Event>, end: Session)
    requires Run(s, events, end)
    ensures |events| + Remaining(end) <= Remaining(s)
    decreases |events|
  {
    if events == [] {
    } else {
      hide Step, Enabled, Remaining;
      StepIsSpent(s, events[0]);
      RunIsSpent(Step(s, events[0]), events[1..], end);
    }
  }

  /** No session goes on for ever: it makes at most two steps for each read of the client, and seven more. */
  lemma SessionsEnd(
      token: Key, random: Bytes, client: seq<ReadEvent>, outcomes: seq<WriteEvent>, events: seq<Event>, end: Session)
    requires Run(Start(token, random, client, outcomes), events, end)
    ensures |events| <= 2 * |client| + 7
  {
    RunIsSpent(Start(token, random, client, outcomes), events, end);
  }

  /** The watch met the end of the client before it was told to stop. */
  predicate Left(s: Session, events: seq<Event>)
    decreases |events|
  {
    events != [] && Enabled(s, events[0])
    && ((events[0].WatchRead? && !s.stopping && (s.incoming == [] || s.incoming[0].error.Some?))
        || Left(Step(s, events[0]), events[1..]))
  }

  lemma {:induction false} GoneStays(s: Session, events: seq<Event>, end: Session)
    requires Run(s, events, end) && (s.watching ==> !s.gone)
    ensures end.gone <==> s.gone || Left(s, events)
    decreases |events|
  {
    if events == [] {
    } else {
      hide EncodeChunk, Put;
      GoneStays(Step(s, events[0]), events[1..], end);
    }
  }

  /** In every run the client counts as gone exactly when it went away before the watch was told to stop. */
  lemma GoneIsLeft(
      token: Key, random: Bytes, client: seq<ReadEvent>, outcomes: seq<WriteEvent>, events: seq<Event>, end: Session)
    requires Run(Start(token, random, client, outcomes), events, end)
    ensures end.gone <==> Left(Start(token, random, client, outcomes), events)
  {
    GoneStays(Start(token, random, client, outcomes), events, end);
  }

  /** The watch reads, from the start of the dial to its end, until the client is gone. */
  predicate Watched(s: Session) { s.phase.Dialling? ==> !s.stopping && (s.watching || s.gone) }

  lemma StepWatches(s: Session, event: Event)
    requires Enabled(s, event) && Watched(s)
    ensures Watched(Step(s, event))
  {
    hide EncodeChunk, Put;
  }

  lemma {:induction false} RunWatches(s: Session, events: seq<Event>, end: Session)
    requires Run(s, events, end) && Watched(s)
    ensures Watched(end)
    decreases |events|
  {
    if events == [] {
    } else {
      hide Step, Enabled, Watched;
      StepWatches(s, events[0]);
      RunWatches(Step(s, events[0]), events[1..], end);
    }
  }

  /** In every run, while the relay is dialled the client is being read, unless it is gone. */
  lemma DialIsWatched(
      token: Key, random: Bytes, client: seq<ReadEvent>, outcomes: seq<WriteEvent>, events: seq<Event>, end: Session)
    requires Run(Start(token, random, client, outcomes), events, end) && end.phase.Dialling?
    ensures !end.stopping && (end.watching || end.gone)
  {
    RunWatches(Start(token, random, client, outcomes), events, end);
  }

  /** How many writes toward the relay the run makes. */
  function Writes(events: seq<Event>): nat {
    if events == [] then 0 else (if events[0].Replay? || events[0].CopyWrite? then 1 else 0) + Writes(events[1..])
  }

  function Without<T>(s: seq<T>, count: nat): seq<T> { if count <= |s| then s[count..] else [] }

  lemma StepWrites(token: Key, random: Bytes, s: Session, event: Event)
    requires Acceptable(token) && Enabled(s, event) && (s.phase.Ended? || Sending(token, random, s)) && Sound(s)
    requires !Fault(s, event)
    ensures Step(s, event).outcomes
         == if event.Replay? || event.CopyWrite? then Without(s.outcomes, 1) else s.outcomes
  {
    hide DrawBootstrap, Encipher, StateAfter, SessionKey, Acceptable;
  }

  lemma {:induction false} RunWrites(
      token: Key, random: Bytes, client: seq<ReadEvent>, s: Session, events: seq<Event>, end: Session)
    requires Acceptable(token) && Run(s, events, end) && Invariant(token, random, s) && Reading(client, s)
    requires Sound(s) && Faultless(s, events)
    ensures end.outcomes == Without(s.outcomes, Writes(events))
    decreases |events|
  {
    if events == [] {
    } else {
      hide Invariant, Reading, Step, Enabled, Fault, Sound, Doomed, Acceptable, Sending;
      var next := Step(s, events[0]);
      ReadingWatches(client, s);
      StepKeeps(token, random, s, events[0]);
      StepReads(client, s, events[0]);
      if !s.phase.Ended? { InvariantSends(token, random, s); }
      StepFails(token, random, s, events[0]);
      StepWrites(token, random, s, events[0]);
      RunWrites(token, random, client, next, events[1..], end);
    }
  }

  /** Without a fault, what the socket still has in store for writes is what the writes made have left of it. */
  lemma WritesAreMade(
      token: Key, random: Bytes, client: seq<ReadEvent>, outcomes: seq<WriteEvent>, events: seq<Event>, end: Session)
    requires Acceptable(token) && Run(Start(token, random, client, outcomes), events, end)
    requires Faultless(Start(token, random, client, outcomes), events)
    ensures end.outcomes == Without(outcomes, Writes(events))
  {
    hide Invariant, Reading, Run, Faultless;
    StartKeeps(token, random, client, outcomes);
    RunWrites(token, random, client, Start(token, random, client, outcomes), events, end);
  }
}
