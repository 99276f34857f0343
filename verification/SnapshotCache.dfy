/**
 The still-image cache (internal/snapshot/snapshot.go) as a step machine: requests, fetches that outlive them, and
 changes of the stream list, in any order. Entries and fetches have numbers, which stand for their pointers: an
 entry dropped from the table lives on for the fetch that still holds it.
 */
module SnapshotCache {
  import opened Wrappers

  type EntryId = nat
  type FetchId = nat
  type RequestId = nat

  /** An image, by the fetch that brought it. */
  datatype Image = Image(fetch: FetchId, bytes: seq<int>)

  datatype Frame = Frame(image: Image, at: int)

  /** `stream` is the name the entry was made for. */
  datatype Entry = Entry(stream: string, frame: Option<Frame>, inFlight: Option<FetchId>)

  datatype Fetch = Fetch(source: string, entry: EntryId, running: bool)

  /** Served remembers the frame and when it was chosen. */
  datatype Outcome = Admitted | Waiting(fetch: FetchId) | Served(frame: Frame, decided: int, recent: bool) | Unavailable

  datatype Request = Request(source: string, outcome: Outcome)

  datatype State = State(
    streams: set<string>, warm: seq<string>, entries: map<string, EntryId>,
    heap: seq<Entry>, fetches: seq<Fetch>, requests: seq<Request>, now: int)

  datatype Config = Config(freshFor: int, staleFor: int)

  const DEFAULT_FRESH_FOR := 5
  const DEFAULT_STALE_FOR := 300

  function Normalised(config: Config): (r: Config)
    ensures r.freshFor > 0 && r.staleFor > 0
    ensures config.freshFor > 0 && config.staleFor > 0 ==> r == config
  {
    Config(if config.freshFor <= 0 then DEFAULT_FRESH_FOR else config.freshFor,
           if config.staleFor <= 0 then DEFAULT_STALE_FOR else config.staleFor)
  }

  /** What New and SetStreams accept: some stream, and every warm stream one of them. */
  function StreamSet(names: seq<string>): set<string> { set name | name in names && name != "" }

  predicate Acceptable(names: seq<string>, warm: seq<string>) {
    StreamSet(names) != {} && forall name :: name in warm ==> name in StreamSet(names)
  }

  method StreamSets(names: seq<string>, warmNames: seq<string>) returns (r: Option<(set<string>, seq<string>)>)
    ensures r == if Acceptable(names, warmNames) then Some((StreamSet(names), warmNames)) else None
  {
    var streams: set<string> := {};
    for i := 0 to |names|
      invariant streams == StreamSet(names[..i])
    {
      assert names[..i + 1] == names[..i] + [names[i]];
      if names[i] != "" { streams := streams + {names[i]}; }
    }
    assert names[..|names|] == names;
    if streams == {} { return None; }
    var warm: seq<string> := [];
    for i := 0 to |warmNames|
      invariant warm == warmNames[..i]
      invariant forall name :: name in warmNames[..i] ==> name in streams
    {
      if warmNames[i] !in streams {
        assert warmNames[i] in warmNames;
        return None;
      }
      warm := warm + [warmNames[i]];
    }
    assert warmNames[..|warmNames|] == warmNames;
    return Some((streams, warm));
  }

  // ---- the steps ----

  datatype Event =
    | Tick(elapsed: nat)
    | Ask(source: string)
    | Look(request: RequestId)
    | Answer(request: RequestId)
    | Fetched(fetch: FetchId, bytes: Option<seq<int>>)
    | SetStreams(names: seq<string>, warm: seq<string>)
    | Warm

  function Init(names: seq<string>, warm: seq<string>, now: int): State
    requires Acceptable(names, warm)
  {
    State(StreamSet(names), warm, map[], [], [], [], now)
  }

  predicate Enabled(s: State, e: Event) {
    match e
    case Ask(source) => source in s.streams
    case Look(q) => q < |s.requests| && s.requests[q].outcome.Admitted? && Placed(s, s.requests[q].source)
    case Answer(q) => q < |s.requests| && s.requests[q].outcome.Waiting? && Placed(s, s.requests[q].source)
    case Fetched(f, _) => f < |s.fetches| && s.fetches[f].running && s.fetches[f].entry < |s.heap|
    case Warm => forall name :: name in s.entries ==> s.entries[name] < |s.heap|
    case _ => true
  }

  predicate Placed(s: State, source: string) { source in s.entries ==> s.entries[source] < |s.heap| }

  /** The entry the table names for a stream. */
  function Current(s: State, source: string): Option<Entry>
    requires Placed(s, source)
  {
    if source in s.entries then Some(s.heap[s.entries[source]]) else None
  }

  /** startLocked: the fetch that is running for the stream, started when there is none. */
  function Started(s: State, source: string): State
    requires Placed(s, source)
  {
    if Current(s, source).Some? && Current(s, source).value.inFlight.Some? then s
    else
      var made := if source in s.entries then s
                  else s.(entries := s.entries[source := |s.heap|],
                      heap := s.heap + [Entry(source, None, None)]);
      var id := made.entries[source];
      made.(fetches := made.fetches + [Fetch(source, id, true)],
          heap := made.heap[id := made.heap[id].(inFlight := Some(|made.fetches|))])
  }

  lemma StartedPlaced(s: State, source: string)
    requires Placed(s, source)
    ensures Placed(Started(s, source), source)
    ensures Current(Started(s, source), source).Some? && Current(Started(s, source), source).value.inFlight.Some?
  {
  }

  predicate IsFresh(config: Config, s: State, entry: Option<Entry>) {
    entry.Some? && entry.value.frame.Some? && s.now - entry.value.frame.value.at < config.freshFor
  }

  predicate IsUsable(config: Config, s: State, entry: Option<Entry>) {
    entry.Some? && entry.value.frame.Some? && s.now - entry.value.frame.value.at <= config.staleFor
  }

  function Settled(s: State, q: RequestId, outcome: Outcome): State
    requires q < |s.requests|
  {
    s.(requests := s.requests[q := s.requests[q].(outcome := outcome)])
  }

  /** The first half of get: a fresh frame at once, or a fetch to wait for. */
  function Looked(config: Config, s: State, q: RequestId): State
    requires Enabled(s, Look(q))
  {
    var source := s.requests[q].source;
    var entry := Current(s, source);
    if IsFresh(config, s, entry) then Settled(s, q, Served(entry.value.frame.value, s.now, true))
    else
      var started := Started(s, source);
      StartedPlaced(s, source);
      Settled(started, q, Waiting(Current(started, source).value.inFlight.value))
  }

  /** The second half: whatever frame is there now, if it is not too old. */
  function Answered(config: Config, s: State, q: RequestId): State
    requires Enabled(s, Answer(q))
  {
    var entry := Current(s, s.requests[q].source);
    Settled(s, q, if IsUsable(config, s, entry) then Served(entry.value.frame.value, s.now, false) else Unavailable)
  }

  /** The end of a fetch, in the entry it was started for. */
  function Done(s: State, f: FetchId, bytes: Option<seq<int>>): State
    requires Enabled(s, Fetched(f, bytes))
  {
    var id := s.fetches[f].entry;
    var entry := s.heap[id].(inFlight := None,
                             frame := if bytes.Some? then Some(Frame(Image(f, bytes.value), s.now))
                                 else s.heap[id].frame);
    s.(heap := s.heap[id := entry], fetches := s.fetches[f := s.fetches[f].(running := false)])
  }

  function Warmed(s: State, names: seq<string>): State
    requires forall name :: name in s.entries ==> s.entries[name] < |s.heap|
    ensures forall name :: name in Warmed(s, names).entries ==> Warmed(s, names).entries[name] < |Warmed(s, names).heap|
    decreases |names|
  {
    if names == [] then s else Started(Warmed(s, names[..|names| - 1]), names[|names| - 1])
  }

  function Renamed(s: State, names: seq<string>, warm: seq<string>): State {
    if !Acceptable(names, warm) then s
    else s.(streams := StreamSet(names), warm := warm,
            entries := map name | name in s.entries && name in StreamSet(names) :: s.entries[name])
  }

  function Step(config: Config, s: State, e: Event): State
    requires Enabled(s, e)
  {
    match e
    case Tick(elapsed) => s.(now := s.now + elapsed)
    case Ask(source) => s.(requests := s.requests + [Request(source, Admitted)])
    case Look(q) => Looked(config, s, q)
    case Answer(q) => Answered(config, s, q)
    case Fetched(f, bytes) => Done(s, f, bytes)
    case SetStreams(names, warm) => Renamed(s, names, warm)
    case Warm => Warmed(s, s.warm)
  }

  predicate Run(config: Config, s: State, events: seq<Event>, end: State)
    decreases |events|
  {
    if events == [] then s == end
    else Enabled(s, events[0]) && Run(config, Step(config, s, events[0]), events[1..], end)
  }

  // ---- what holds at every step ----

  predicate TableGood(s: State) {
    forall name :: name in s.entries ==> s.entries[name] < |s.heap| && s.heap[s.entries[name]].stream == name
  }

  /** An entry waits for a fetch exactly while that fetch runs, and the fetch is its own. */
  predicate EntryGood(s: State, id: EntryId)
    requires id < |s.heap|
  {
    var entry := s.heap[id];
    && (entry.inFlight.Some? ==>
          entry.inFlight.value < |s.fetches| && s.fetches[entry.inFlight.value] == Fetch(entry.stream, id, true))
    && (entry.frame.Some? ==>
          && entry.frame.value.at <= s.now && entry.frame.value.image.fetch < |s.fetches|
          && s.fetches[entry.frame.value.image.fetch] == Fetch(entry.stream, id, false))
  }

  predicate FetchGood(s: State, f: FetchId)
    requires f < |s.fetches|
  {
    && s.fetches[f].entry < |s.heap| && s.heap[s.fetches[f].entry].stream == s.fetches[f].source
    && (s.fetches[f].running ==> s.heap[s.fetches[f].entry].inFlight == Some(f))
  }

  /** A served frame was fetched for the stream that was asked for, and was young enough when it was chosen. */
  predicate RequestGood(config: Config, s: State, request: Request) {
    match request.outcome
    case Served(frame, decided, recent) =>
      && frame.image.fetch < |s.fetches| && s.fetches[frame.image.fetch].source == request.source
      && !s.fetches[frame.image.fetch].running
      && frame.at <= decided <= s.now
      && (if recent then decided - frame.at < config.freshFor else decided - frame.at <= config.staleFor)
    case Waiting(f) => f < |s.fetches| && s.fetches[f].source == request.source
    case _ => true
  }

  /** Nothing goes by the empty name, and the warm streams are among the streams. */
  predicate Named(s: State) {
    && "" !in s.streams && (forall name :: name in s.warm ==> name in s.streams)
    && (forall q :: 0 <= q < |s.requests| ==> s.requests[q].source != "")
    && (forall f :: 0 <= f < |s.fetches| ==> s.fetches[f].source != "")
  }

  predicate Good(config: Config, s: State) {
    && TableGood(s) && Named(s)
    && (forall id :: 0 <= id < |s.heap| ==> EntryGood(s, id))
    && (forall f :: 0 <= f < |s.fetches| ==> FetchGood(s, f))
    && (forall q :: 0 <= q < |s.requests| ==> RequestGood(config, s, s.requests[q]))
  }

  /** Requests stay good while fetches only end and the clock only advances. */
  predicate FetchesGrow(s: State, t: State) {
    && |s.fetches| <= |t.fetches| && s.now <= t.now
    && forall f :: 0 <= f < |s.fetches| ==>
         t.fetches[f].source == s.fetches[f].source && t.fetches[f].entry == s.fetches[f].entry
             && (t.fetches[f].running ==> s.fetches[f].running)
  }

  lemma RequestStaysGood(config: Config, s: State, t: State, request: Request)
    requires RequestGood(config, s, request) && FetchesGrow(s, t)
    ensures RequestGood(config, t, request)
  {
  }

  lemma StartedGood(config: Config, s: State, source: string)
    requires Good(config, s) && source != ""
    ensures Good(config, Started(s, source)) && FetchesGrow(s, Started(s, source))
    ensures Started(s, source).requests == s.requests && Started(s, source).now == s.now
  {
    var t := Started(s, source);
    if t != s {
      var id := t.entries[source];
      assert t.heap[id].inFlight == Some(|s.fetches|) && t.fetches[|s.fetches|] == Fetch(source, id, true);
      forall other | 0 <= other < |t.heap| ensures EntryGood(t, other) {
        if other < |s.heap| { assert EntryGood(s, other); }
      }
      forall f | 0 <= f < |t.fetches| ensures FetchGood(t, f) {
        if f < |s.fetches| { assert FetchGood(s, f); }
      }
      forall q | 0 <= q < |t.requests| ensures RequestGood(config, t, t.requests[q]) {
        RequestStaysGood(config, s, t, s.requests[q]);
      }
    }
  }

  lemma SettledGood(config: Config, s: State, q: RequestId, outcome: Outcome)
    requires Good(config, s) && q < |s.requests| && RequestGood(config, s, s.requests[q].(outcome := outcome))
    ensures Good(config, Settled(s, q, outcome))
  {
    var t := Settled(s, q, outcome);
    forall id | 0 <= id < |t.heap| ensures EntryGood(t, id) { assert EntryGood(s, id); }
    forall f | 0 <= f < |t.fetches| ensures FetchGood(t, f) { assert FetchGood(s, f); }
    forall p | 0 <= p < |t.requests| ensures RequestGood(config, t, t.requests[p]) {
      if p != q { RequestStaysGood(config, s, t, s.requests[p]); }
    }
  }

  lemma LookedGood(config: Config, s: State, q: RequestId)
    requires Good(config, s) && Enabled(s, Look(q))
    ensures Good(config, Looked(config, s, q))
  {
    var source := s.requests[q].source;
    var entry := Current(s, source);
    if IsFresh(config, s, entry) {
      assert EntryGood(s, s.entries[source]);
      SettledGood(config, s, q, Served(entry.value.frame.value, s.now, true));
    } else {
      var started := Started(s, source);
      StartedPlaced(s, source);
      StartedGood(config, s, source);
      hide Started;
      assert EntryGood(started, started.entries[source]);
      SettledGood(config, started, q, Waiting(Current(started, source).value.inFlight.value));
    }
  }

  lemma AnsweredGood(config: Config, s: State, q: RequestId)
    requires Good(config, s) && Enabled(s, Answer(q))
    ensures Good(config, Answered(config, s, q))
  {
    var entry := Current(s, s.requests[q].source);
    if IsUsable(config, s, entry) {
      assert EntryGood(s, s.entries[s.requests[q].source]);
      SettledGood(config, s, q, Served(entry.value.frame.value, s.now, false));
    } else {
      SettledGood(config, s, q, Unavailable);
    }
  }

  lemma DoneGood(config: Config, s: State, f: FetchId, bytes: Option<seq<int>>)
    requires Good(config, s) && Enabled(s, Fetched(f, bytes))
    ensures Good(config, Done(s, f, bytes))
  {
    var t := Done(s, f, bytes);
    var id := s.fetches[f].entry;
    assert FetchGood(s, f);
    forall other | 0 <= other < |t.heap| ensures EntryGood(t, other) { assert EntryGood(s, other); }
    forall g | 0 <= g < |t.fetches| ensures FetchGood(t, g) { assert FetchGood(s, g); }
    forall q | 0 <= q < |t.requests| ensures RequestGood(config, t, t.requests[q]) {
      RequestStaysGood(config, s, t, s.requests[q]);
    }
  }

  lemma {:induction false} WarmedGood(config: Config, s: State, names: seq<string>)
    requires Good(config, s) && "" !in names
    ensures Good(config, Warmed(s, names)) && Warmed(s, names).requests == s.requests && Warmed(s, names).now == s.now
    decreases |names|
  {
    if names == [] {
    } else {
      WarmedGood(config, s, names[..|names| - 1]);
      StartedGood(config, Warmed(s, names[..|names| - 1]), names[|names| - 1]);
    }
  }

  /** Ticks, new requests and new stream lists: the entries and fetches stay as they are. */
  lemma QuietGood(config: Config, s: State, t: State)
    requires Good(config, s) && t.heap == s.heap && t.fetches == s.fetches && t.now >= s.now && TableGood(t) && Named(t)
    requires forall q :: 0 <= q < |t.requests| ==> t.requests[q].outcome.Admitted? || t.requests[q] in s.requests
    ensures Good(config, t)
  {
    forall id | 0 <= id < |t.heap| ensures EntryGood(t, id) { assert EntryGood(s, id); }
    forall f | 0 <= f < |t.fetches| ensures FetchGood(t, f) { assert FetchGood(s, f); }
    forall q | 0 <= q < |t.requests| ensures RequestGood(config, t, t.requests[q]) {
      if !t.requests[q].outcome.Admitted? {
        var p :| 0 <= p < |s.requests| && s.requests[p] == t.requests[q];
        RequestStaysGood(config, s, t, s.requests[p]);
      }
    }
  }

  lemma StepKeepsGood(config: Config, s: State, e: Event)
    requires Good(config, s) && Enabled(s, e)
    ensures Good(config, Step(config, s, e))
  {
    match e
    case Tick(_) => QuietGood(config, s, Step(config, s, e));
    case Ask(_) => QuietGood(config, s, Step(config, s, e));
    case Look(q) => LookedGood(config, s, q);
    case Answer(q) => AnsweredGood(config, s, q);
    case Fetched(f, bytes) => DoneGood(config, s, f, bytes);
    case SetStreams(_, _) => QuietGood(config, s, Step(config, s, e));
    case Warm => WarmedGood(config, s, s.warm);
  }

  lemma {:induction false} RunKeepsGood(config: Config, s: State, events: seq<Event>, end: State)
    requires Good(config, s) && Run(config, s, events, end)
    ensures Good(config, end)
    decreases |events|
  {
    hide Good, Step, Enabled;
    if events == [] {
    } else {
      StepKeepsGood(config, s, events[0]);
      RunKeepsGood(config, Step(config, s, events[0]), events[1..], end);
    }
  }

  ghost predicate Reachable(config: Config, s: State) {
    exists names, warm, now, events :: Acceptable(names, warm) && Run(config, Init(names, warm, now), events, s)
  }

  lemma ReachableIsGood(config: Config, s: State)
    requires Reachable(config, s)
    ensures Good(config, s)
  {
    var names, warm, now, events :| Acceptable(names, warm) && Run(config, Init(names, warm, now), events, s);
    RunKeepsGood(config, Init(names, warm, now), events, s);
  }

  // ---- the properties ----

  /** No entry ever has two fetches running. */
  lemma OneFetchPerEntry(config: Config, s: State, f: FetchId, g: FetchId)
    requires Reachable(config, s)
    requires f < |s.fetches| && g < |s.fetches| && s.fetches[f].running && s.fetches[g].running
    requires s.fetches[f].entry == s.fetches[g].entry
    ensures f == g
  {
    ReachableIsGood(config, s);
    assert FetchGood(s, f) && FetchGood(s, g);
  }

  /** Whatever was served had been fetched for the stream asked for, and was young enough when it was chosen. */
  lemma ServedFramesAreRight(config: Config, s: State, q: RequestId)
    requires Reachable(config, s) && q < |s.requests| && s.requests[q].outcome.Served?
    ensures var (frame, decided) := (s.requests[q].outcome.frame, s.requests[q].outcome.decided);
            && frame.image.fetch < |s.fetches| && s.fetches[frame.image.fetch].source == s.requests[q].source
            && frame.at <= decided
            && (decided - frame.at < config.freshFor
                || (!s.requests[q].outcome.recent && decided - frame.at <= config.staleFor))
  {
    ReachableIsGood(config, s);
    assert RequestGood(config, s, s.requests[q]);
  }

  /** A fetch for an entry that is no longer the stream's touches nothing anybody can look up. */
  lemma DroppedFetchIsHarmless(config: Config, s: State, f: FetchId, bytes: Option<seq<int>>, name: string)
    requires Good(config, s) && Enabled(s, Fetched(f, bytes)) && Placed(s, name)
    requires name !in s.entries || s.entries[name] != s.fetches[f].entry
    ensures Placed(Done(s, f, bytes), name) && Current(Done(s, f, bytes), name) == Current(s, name)
  {
  }

  /** The frame of an entry never goes away and never goes back. */
  predicate NotBack(s: State, t: State, id: EntryId) {
    && id < |s.heap| <= |t.heap| && t.heap[id].stream == s.heap[id].stream
    && (s.heap[id].frame.Some? ==> t.heap[id].frame.Some? && s.heap[id].frame.value.at <= t.heap[id].frame.value.at)
  }

  lemma {:induction false} WarmedNotBack(config: Config, s: State, names: seq<string>, id: EntryId)
    requires Good(config, s) && "" !in names && id < |s.heap|
    ensures |s.heap| <= |Warmed(s, names).heap| && NotBack(s, Warmed(s, names), id)
    decreases |names|
  {
    if names == [] {
    } else {
      WarmedNotBack(config, s, names[..|names| - 1], id);
    }
  }

  lemma StepNotBack(config: Config, s: State, e: Event, id: EntryId)
    requires Good(config, s) && Enabled(s, e) && id < |s.heap|
    ensures NotBack(s, Step(config, s, e), id)
  {
    assert EntryGood(s, id);
    if e.Warm? { WarmedNotBack(config, s, s.warm, id); }
  }

  lemma {:induction false} FramesNeverGoBack(config: Config, s: State, events: seq<Event>, end: State, id: EntryId)
    requires Good(config, s) && Run(config, s, events, end) && id < |s.heap|
    ensures NotBack(s, end, id)
    decreases |events|
  {
    hide Good, Step, Enabled;
    if events == [] {
    } else {
      var next := Step(config, s, events[0]);
      StepKeepsGood(config, s, events[0]);
      StepNotBack(config, s, events[0], id);
      FramesNeverGoBack(config, next, events[1..], end, id);
    }
  }

  /** What the cache shows for a stream was fetched for it, by a fetch started for the very entry that shows it. */
  lemma CurrentFrameIsItsOwn(config: Config, s: State, name: string)
    requires Reachable(config, s)
    ensures Placed(s, name)
    ensures Current(s, name).Some? && Current(s, name).value.frame.Some? ==>
              var frame := Current(s, name).value.frame.value;
              frame.image.fetch < |s.fetches| && s.fetches[frame.image.fetch] == Fetch(name, s.entries[name], false)
                  && frame.at <= s.now
  {
    ReachableIsGood(config, s);
    if name in s.entries { assert EntryGood(s, s.entries[name]); }
  }

  // ---- the history of an entry ----

  /** The fetch that ends with this event fills the entry. */
  predicate Fills(s: State, e: Event, id: EntryId) {
    e.Fetched? && e.fetch < |s.fetches| && s.fetches[e.fetch].entry == id
  }

  /** By the events alone: what the last fetch for the entry that succeeded brought, and when it ended. */
  function LastBrought(config: Config, s: State, events: seq<Event>, id: EntryId, before: Option<Frame>): Option<Frame>
    decreases |events|
  {
    if events == [] || !Enabled(s, events[0]) then before
    else
      var e := events[0];
      LastBrought(config, Step(config, s, e), events[1..], id,
                  if Fills(s, e, id) && e.bytes.Some? then Some(Frame(Image(e.fetch, e.bytes.value), s.now))
                      else before)
  }

  function FrameOf(s: State, id: EntryId): Option<Frame> {
    if id < |s.heap| then s.heap[id].frame else None
  }

  lemma StartedFrames(s: State, source: string, id: EntryId)
    requires Placed(s, source)
    ensures FrameOf(Started(s, source), id) == FrameOf(s, id)
  {
  }

  lemma {:induction false} WarmedFrames(s: State, names: seq<string>, id: EntryId)
    requires forall name :: name in s.entries ==> s.entries[name] < |s.heap|
    ensures FrameOf(Warmed(s, names), id) == FrameOf(s, id)
    decreases |names|
  {
    if names == [] {
    } else {
      WarmedFrames(s, names[..|names| - 1], id);
      StartedFrames(Warmed(s, names[..|names| - 1]), names[|names| - 1], id);
    }
  }

  lemma StepFrames(config: Config, s: State, e: Event, id: EntryId)
    requires Enabled(s, e)
    ensures FrameOf(Step(config, s, e), id)
         == if Fills(s, e, id) && e.bytes.Some?
            then Some(Frame(Image(e.fetch, e.bytes.value), s.now)) else FrameOf(s, id)
  {
    if e.Warm? { WarmedFrames(s, s.warm, id); }
    if e.Look? { StartedFrames(s, s.requests[e.request].source, id); }
  }

  /** In every run an entry shows what its last successful fetch brought; failed fetches and everything else keep it. */
  lemma {:induction false} FrameIsLastBrought(config: Config, s: State, events: seq<Event>, end: State, id: EntryId)
    requires Run(config, s, events, end)
    ensures FrameOf(end, id) == LastBrought(config, s, events, id, FrameOf(s, id))
    decreases |events|
  {
    hide Step, Enabled, Fills, FrameOf;
    if events == [] {
    } else {
      StepFrames(config, s, events[0], id);
      FrameIsLastBrought(config, Step(config, s, events[0]), events[1..], end, id);
    }
  }

  /** What the last successful fetch for the entry of the stream brought, if it has one. */
  function BroughtFor(
      config: Config, names: seq<string>, warm: seq<string>, now: int, events: seq<Event>, s: State,
      source: string): Option<Frame>
    requires Acceptable(names, warm)
  {
    if source in s.entries then LastBrought(config, Init(names, warm, now), events, s.entries[source], None) else None
  }

  lemma BroughtIsShown(
      config: Config, names: seq<string>, warm: seq<string>, now: int, events: seq<Event>, s: State, source: string)
    requires Acceptable(names, warm) && Run(config, Init(names, warm, now), events, s)
    ensures source in s.entries ==>
              FrameOf(s, s.entries[source]) == BroughtFor(config, names, warm, now, events, s, source)
  {
    if source in s.entries {
      FrameIsLastBrought(config, Init(names, warm, now), events, s, s.entries[source]);
    }
  }

  /**
   After any run a waiting request is refused exactly when its stream has no entry, or no fetch for that entry ever
   succeeded, or the last one that did ended more than StaleFor ago, whatever failed since; otherwise it gets what that
   last one brought.
   */
  lemma RefusedOnlyWithoutAUsableFrame(
      config: Config, names: seq<string>, warm: seq<string>, now: int, events: seq<Event>, s: State, q: RequestId)
    requires Acceptable(names, warm) && Run(config, Init(names, warm, now), events, s) && Enabled(s, Answer(q))
    ensures var source := s.requests[q].source;
            var brought := BroughtFor(config, names, warm, now, events, s, source);
            Step(config, s, Answer(q))
            == s.(requests := s.requests[q := Request(source,
                 if brought.None? || s.now > brought.value.at + config.staleFor then Unavailable
                 else Served(brought.value, s.now, false))])
  {
    BroughtIsShown(config, names, warm, now, events, s, s.requests[q].source);
    hide LastBrought, Run;
  }

  /**
   After any run a request that looks is served at once, and nothing else happens, exactly when the last successful
   fetch for the entry of its stream ended less than FreshFor ago; it gets what that one brought. Otherwise it waits for
   the fetch that runs for its stream, and one is started only if there was none.
   */
  lemma FreshFramesAreServedAtOnce(
      config: Config, names: seq<string>, warm: seq<string>, now: int, events: seq<Event>, s: State, q: RequestId)
    requires Acceptable(names, warm) && Run(config, Init(names, warm, now), events, s) && Enabled(s, Look(q))
    ensures var source := s.requests[q].source;
            var brought := BroughtFor(config, names, warm, now, events, s, source);
            var t := Step(config, s, Look(q));
            if brought.Some? && s.now < brought.value.at + config.freshFor then
              t == s.(requests := s.requests[q := Request(source, Served(brought.value, s.now, true))])
            else
              && |t.requests| == |s.requests| && t.requests[q].outcome.Waiting?
              && Awaits(t, source, t.requests[q].outcome.fetch)
              && (forall f :: Awaits(s, source, f) ==> t.fetches == s.fetches && t.requests[q].outcome.fetch == f)
              && |t.fetches| <= |s.fetches| + 1
  {
    var source := s.requests[q].source;
    BroughtIsShown(config, names, warm, now, events, s, source);
    RunKeepsGood(config, Init(names, warm, now), events, s);
    if !IsFresh(config, s, Current(s, source)) { LookAwaits(config, s, q); }
    hide LastBrought, Run, Good, Started, Awaits;
  }

  /** The fetch runs for the entry the stream has. */
  predicate Awaits(s: State, source: string, f: FetchId) {
    source in s.entries && f < |s.fetches| && s.fetches[f] == Fetch(source, s.entries[source], true)
  }

  lemma LookAwaits(config: Config, s: State, q: RequestId)
    requires Good(config, s) && Enabled(s, Look(q))
    requires !IsFresh(config, s, Current(s, s.requests[q].source))
    ensures var t := Looked(config, s, q);
            var source := s.requests[q].source;
            && |t.requests| == |s.requests| && t.requests[q].outcome.Waiting?
            && Awaits(t, source, t.requests[q].outcome.fetch)
            && (forall f :: Awaits(s, source, f) ==> t.fetches == s.fetches && t.requests[q].outcome.fetch == f)
            && |t.fetches| <= |s.fetches| + 1
  {
    var source := s.requests[q].source;
    if source in s.entries { assert EntryGood(s, s.entries[source]); }
    forall f: FetchId | Awaits(s, source, f) ensures Current(s, source).value.inFlight == Some(f) {
      assert FetchGood(s, f);
    }
  }

  // ---- the clock and the requests ----

  function Elapsed(events: seq<Event>): nat {
    if events == [] then 0 else (if events[0].Tick? then events[0].elapsed else 0) + Elapsed(events[1..])
  }

  /** The streams asked for, one after the other. */
  function Asked(events: seq<Event>): seq<string> {
    if events == [] then [] else (if events[0].Ask? then [events[0].source] else []) + Asked(events[1..])
  }

  function Sources(requests: seq<Request>): (r: seq<string>)
    ensures |r| == |requests|
  {
    seq(|requests|, q requires 0 <= q < |requests| => requests[q].source)
  }

  lemma {:induction false} WarmedKeeps(s: State, names: seq<string>)
    requires forall name :: name in s.entries ==> s.entries[name] < |s.heap|
    ensures Warmed(s, names).now == s.now && Warmed(s, names).requests == s.requests
    decreases |names|
  {
    if names == [] {
    } else {
      WarmedKeeps(s, names[..|names| - 1]);
    }
  }

  lemma StepAsks(config: Config, s: State, e: Event)
    requires Enabled(s, e)
    ensures Step(config, s, e).now == s.now + (if e.Tick? then e.elapsed else 0)
    ensures Sources(Step(config, s, e).requests) == Sources(s.requests) + (if e.Ask? then [e.source] else [])
    ensures e.Ask? ==> Step(config, s, e).requests[|s.requests|].outcome == Admitted
  {
    if e.Warm? { WarmedKeeps(s, s.warm); }
  }

  lemma {:induction false} RunAsks(config: Config, s: State, events: seq<Event>, end: State)
    requires Run(config, s, events, end)
    ensures end.now == s.now + Elapsed(events) && Sources(end.requests) == Sources(s.requests) + Asked(events)
    decreases |events|
  {
    hide Step, Enabled, Sources;
    if events == [] {
    } else {
      StepAsks(config, s, events[0]);
      RunAsks(config, Step(config, s, events[0]), events[1..], end);
    }
  }

  /** In every run the clock has moved by the time that passed, and there is a request for each that was let in. */
  lemma RequestsAreThoseAsked(
      config: Config, names: seq<string>, warm: seq<string>, now: int, events: seq<Event>, s: State)
    requires Acceptable(names, warm) && Run(config, Init(names, warm, now), events, s)
    ensures s.now == now + Elapsed(events) && Sources(s.requests) == Asked(events)
  {
    RunAsks(config, Init(names, warm, now), events, s);
    assert Sources([]) == [];
  }

  // ---- one fetch for one stream ----

  /** The event does not drop the stream. */
  predicate Keeps(e: Event, name: string) {
    e.SetStreams? && Acceptable(e.names, e.warm) ==> name in StreamSet(e.names)
  }

  /** The fetch is for the stream, and running. */
  predicate Runs(s: State, f: FetchId, name: string) {
    f < |s.fetches| && s.fetches[f].running && s.fetches[f].source == name
  }

  predicate Fetching(s: State, name: string) { exists f :: 0 <= f < |s.fetches| && Runs(s, f, name) }

  /** At most one is. */
  predicate OneFetch(s: State, name: string) {
    forall f, g :: 0 <= f < |s.fetches| && 0 <= g < |s.fetches| && Runs(s, f, name) && Runs(s, g, name) ==> f == g
  }

  /** The fetches running for the stream are all for the entry it has. */
  predicate AllCurrent(s: State, name: string) {
    forall f :: 0 <= f < |s.fetches| && Runs(s, f, name) ==>
      name in s.entries && s.entries[name] == s.fetches[f].entry
  }

  /** The stream is never dropped while a fetch for it runs. */
  predicate Undisturbed(config: Config, s: State, events: seq<Event>, name: string)
    decreases |events|
  {
    if events == [] || !Enabled(s, events[0]) then true
    else
      && (Keeps(events[0], name) || !Fetching(s, name))
      && Undisturbed(config, Step(config, s, events[0]), events[1..], name)
  }

  lemma StartedCurrent(s: State, source: string, name: string)
    requires Placed(s, source) && AllCurrent(s, name)
    ensures AllCurrent(Started(s, source), name)
  {
  }

  lemma {:induction false} WarmedCurrent(config: Config, s: State, names: seq<string>, name: string)
    requires Good(config, s) && "" !in names && AllCurrent(s, name)
    ensures AllCurrent(Warmed(s, names), name)
    decreases |names|
  {
    if names == [] {
    } else {
      WarmedCurrent(config, s, names[..|names| - 1], name);
      StartedCurrent(Warmed(s, names[..|names| - 1]), names[|names| - 1], name);
    }
  }

  lemma StepCurrent(config: Config, s: State, e: Event, name: string)
    requires Good(config, s) && Enabled(s, e) && (Keeps(e, name) || !Fetching(s, name)) && AllCurrent(s, name)
    ensures AllCurrent(Step(config, s, e), name)
  {
    var t := Step(config, s, e);
    if e.Warm? {
      WarmedCurrent(config, s, s.warm, name);
    } else if e.Look? {
      var started := Started(s, s.requests[e.request].source);
      StartedCurrent(s, s.requests[e.request].source, name);
      hide Started;
      forall f | 0 <= f < |t.fetches| && Runs(t, f, name)
        ensures name in t.entries && t.entries[name] == t.fetches[f].entry
      {
        assert Runs(started, f, name) || Runs(s, f, name);
      }
    } else {
      forall f | 0 <= f < |t.fetches| && Runs(t, f, name)
        ensures name in t.entries && t.entries[name] == t.fetches[f].entry
      {
        assert Runs(s, f, name);
      }
    }
  }

  lemma {:induction false} RunCurrent(config: Config, s: State, events: seq<Event>, end: State, name: string)
    requires Good(config, s) && Run(config, s, events, end) && AllCurrent(s, name)
    requires Undisturbed(config, s, events, name)
    ensures AllCurrent(end, name)
    decreases |events|
  {
    hide Good, Step, Enabled, AllCurrent, Keeps, Fetching;
    if events == [] {
    } else {
      StepKeepsGood(config, s, events[0]);
      StepCurrent(config, s, events[0], name);
      RunCurrent(config, Step(config, s, events[0]), events[1..], end, name);
    }
  }

  lemma CurrentIsOne(config: Config, s: State, name: string)
    requires Good(config, s) && AllCurrent(s, name)
    ensures OneFetch(s, name)
  {
    forall f, g | 0 <= f < |s.fetches| && 0 <= g < |s.fetches| && Runs(s, f, name) && Runs(s, g, name) ensures f == g {
      assert FetchGood(s, f) && FetchGood(s, g);
    }
  }

  /** A stream that is never dropped while a fetch for it runs never has two, however many requests wait for it. */
  lemma OneFetchPerStream(
      config: Config, names: seq<string>, warm: seq<string>, now: int, events: seq<Event>, s: State, name: string)
    requires Acceptable(names, warm) && Run(config, Init(names, warm, now), events, s)
    requires Undisturbed(config, Init(names, warm, now), events, name)
    ensures OneFetch(s, name)
  {
    RunKeepsGood(config, Init(names, warm, now), events, s);
    RunCurrent(config, Init(names, warm, now), events, s, name);
    CurrentIsOne(config, s, name);
  }

  /** What SetStreams makes of a state when it accepts a list without the stream. */
  predicate Drops(names: seq<string>, warm: seq<string>, name: string) {
    Acceptable(names, warm) && name !in StreamSet(names)
  }

  lemma RunBack(config: Config, s: State, e: Event, events: seq<Event>, end: State)
    requires Enabled(s, e) && Run(config, Step(config, s, e), events, end)
    ensures Run(config, s, [e] + events, end)
  {
    assert ([e] + events)[0] == e && ([e] + events)[1..] == events;
  }

  lemma RunNothing(config: Config, s: State)
    ensures Run(config, s, [], s)
  {
  }

  lemma Alone(name: string)
    requires name != ""
    ensures Acceptable([name], [name]) && StreamSet([name]) == {name}
  {
    assert name in [name];
    assert StreamSet([name]) == {name};
  }

  /** Taken back and warmed, a stream that was dropped with a fetch running gets a second one. */
  lemma SecondFetch(config: Config, s: State, names: seq<string>, warm: seq<string>, name: string)
    returns (events: seq<Event>, end: State)
    requires Good(config, s) && Drops(names, warm, name) && Fetching(s, name)
    ensures Run(config, Renamed(s, names, warm), events, end)
    ensures Undisturbed(config, Renamed(s, names, warm), events, name)
    ensures !OneFetch(end, name)
  {
    var f :| 0 <= f < |s.fetches| && Runs(s, f, name);
    Alone(name);
    var dropped := Renamed(s, names, warm);
    var back := Renamed(dropped, [name], [name]);
    assert name !in back.entries && back.warm == [name];
    end := Warmed(back, [name]);
    assert Warmed(back, [name][..0]) == back;
    assert end == Started(back, name);
    assert end.fetches == s.fetches + [Fetch(name, |s.heap|, true)];
    assert Runs(end, f, name) && Runs(end, |s.fetches|, name);
    hide Warmed, Started, Renamed;
    events := [SetStreams([name], [name]), Warm];
    assert events[1..] == [Warm] && [Warm][1..] == [];
    assert Run(config, back, [Warm], end);
    assert Keeps(events[0], name) && Keeps(Warm, name);
    assert Undisturbed(config, back, [Warm], name);
  }

  /** Nor need it be taken back: a request let in before the drop and still to look starts a second fetch by itself. */
  lemma SecondFetchByLook(config: Config, s: State, names: seq<string>, warm: seq<string>, name: string)
    returns (q: RequestId, end: State)
    requires Good(config, s) && Drops(names, warm, name) && Fetching(s, name) && LetIn(s, name)
    ensures Run(config, Renamed(s, names, warm), [Look(q)], end) && !OneFetch(end, name)
    ensures q < |s.requests| && s.requests[q].source == name && s.requests[q].outcome.Admitted?
  {
    var f :| 0 <= f < |s.fetches| && Runs(s, f, name);
    q :| 0 <= q < |s.requests| && s.requests[q].source == name && s.requests[q].outcome.Admitted?;
    var dropped := Renamed(s, names, warm);
    assert name !in dropped.entries;
    end := Step(config, dropped, Look(q));
    assert end.fetches == s.fetches + [Fetch(name, |s.heap|, true)];
    assert Runs(end, f, name) && Runs(end, |s.fetches|, name);
    RunNothing(config, end);
    RunBack(config, dropped, Look(q), [], end);
    assert [Look(q)] + [] == [Look(q)];
  }

  /**
   Dropping a stream is harmless exactly when no fetch for it is running: then no continuation without such a drop
   has two fetches for it, and otherwise there is one that has.
   */
  lemma DropIsHarmlessIff(config: Config, s: State, names: seq<string>, warm: seq<string>, name: string)
    requires Good(config, s) && Drops(names, warm, name)
    ensures !Fetching(s, name) <==>
            forall events, end ::
              Run(config, Renamed(s, names, warm), events, end)
                  && Undisturbed(config, Renamed(s, names, warm), events, name) ==>
                OneFetch(end, name)
  {
    var dropped := Renamed(s, names, warm);
    StepKeepsGood(config, s, SetStreams(names, warm));
    assert Step(config, s, SetStreams(names, warm)) == dropped;
    if Fetching(s, name) {
      var events, end := SecondFetch(config, s, names, warm, name);
      assert Run(config, dropped, events, end) && Undisturbed(config, dropped, events, name) && !OneFetch(end, name);
    } else {
      assert AllCurrent(dropped, name) by {
        assert forall f: nat :: Runs(dropped, f, name) == Runs(s, f, name);
      }
      hide Good, Fetching, Renamed, Run, Undisturbed, OneFetch, AllCurrent;
      forall events, end | Run(config, dropped, events, end) && Undisturbed(config, dropped, events, name)
        ensures OneFetch(end, name)
      {
        RunKeepsGood(config, dropped, events, end);
        RunCurrent(config, dropped, events, end, name);
        CurrentIsOne(config, end, name);
      }
    }
  }

  // ---- where a dropped stream goes ----

  /** A request for the stream was let in and has not looked yet. */
  predicate LetIn(s: State, name: string) {
    exists q :: 0 <= q < |s.requests| && s.requests[q].source == name && s.requests[q].outcome.Admitted?
  }

  /** The stream is out: not listed, without an entry, and nobody is on the way to it. */
  predicate Out(s: State, name: string) {
    name !in s.streams && name !in s.warm && name !in s.entries && !LetIn(s, name)
  }

  /** The event does not take the stream back. */
  predicate Ignores(e: Event, name: string) {
    e.SetStreams? && Acceptable(e.names, e.warm) ==> name !in StreamSet(e.names)
  }

  predicate AllIgnore(events: seq<Event>, name: string) { forall e :: e in events ==> Ignores(e, name) }

  lemma {:induction false} WarmedEntries(s: State, names: seq<string>)
    requires forall name :: name in s.entries ==> s.entries[name] < |s.heap|
    ensures var t := Warmed(s, names);
            && t.streams == s.streams && t.warm == s.warm && t.requests == s.requests
            && (forall name :: name in t.entries <==> name in s.entries || name in names)
            && (forall name :: name in s.entries ==> t.entries[name] == s.entries[name])
    decreases |names|
  {
    if names == [] {
    } else {
      var rest := names[..|names| - 1];
      WarmedEntries(s, rest);
      assert names == rest + [names[|names| - 1]];
    }
  }

  lemma StepStaysOut(config: Config, s: State, e: Event, name: string)
    requires Enabled(s, e) && Out(s, name) && Ignores(e, name)
    ensures Out(Step(config, s, e), name)
  {
    var t := Step(config, s, e);
    match e
    case Warm => WarmedEntries(s, s.warm);
    case Look(q) =>
      assert s.requests[q].source != name;
      assert forall p :: 0 <= p < |t.requests| && p != q ==> t.requests[p] == s.requests[p];
    case Answer(q) => assert forall p :: 0 <= p < |t.requests| && p != q ==> t.requests[p] == s.requests[p];
    case _ =>
  }

  lemma {:induction false} RunStaysOut(config: Config, s: State, events: seq<Event>, end: State, name: string)
    requires Run(config, s, events, end) && Out(s, name) && AllIgnore(events, name)
    ensures Out(end, name)
    decreases |events|
  {
    hide Step, Enabled, Out, Ignores;
    if events == [] {
    } else {
      assert events[0] in events;
      StepStaysOut(config, s, events[0], name);
      RunStaysOut(config, Step(config, s, events[0]), events[1..], end, name);
    }
  }

  /**
   A stream that a new list drops stays out of the table, until a list takes it back, exactly when no request for it
   had been let in before the drop and was still to look.
   */
  lemma DroppedStaysOutIff(config: Config, s: State, names: seq<string>, warm: seq<string>, name: string)
    requires Good(config, s) && Drops(names, warm, name)
    ensures !LetIn(s, name) <==>
            forall events, end :: Run(config, Renamed(s, names, warm), events, end) && AllIgnore(events, name) ==>
                name !in end.entries
  {
    var dropped := Renamed(s, names, warm);
    if LetIn(s, name) {
      var q :| 0 <= q < |s.requests| && s.requests[q].source == name && s.requests[q].outcome.Admitted?;
      assert name !in dropped.entries && Enabled(dropped, Look(q));
      var end := Step(config, dropped, Look(q));
      assert name in end.entries;
      RunNothing(config, end);
      RunBack(config, dropped, Look(q), [], end);
      assert Run(config, dropped, [Look(q)] + [], end) && AllIgnore([Look(q)] + [], name);
    } else {
      assert Out(dropped, name);
      hide Out, Renamed, Run;
      forall events, end | Run(config, dropped, events, end) && AllIgnore(events, name) ensures name !in end.entries {
        RunStaysOut(config, dropped, events, end, name);
        assert name !in end.entries by { OutHasNoEntry(end, name); }
      }
    }
  }

  lemma OutHasNoEntry(s: State, name: string)
    requires Out(s, name)
    ensures name !in s.entries
  {
  }

  lemma StepKeepsEntry(config: Config, s: State, e: Event, name: string)
    requires Enabled(s, e) && name in s.entries
    ensures Keeps(e, name) ==> name in Step(config, s, e).entries && Step(config, s, e).entries[name] == s.entries[name]
    ensures !Keeps(e, name) ==> name !in Step(config, s, e).entries
  {
    if e.Warm? { WarmedEntries(s, s.warm); }
  }

  /** Once in the table an entry stays there, listed or not, until the next list without its stream; that ends it. */
  lemma {:induction false} EntryStaysUntilAList(
      config: Config, s: State, events: seq<Event>, mid: State, e: Event, name: string)
    requires name in s.entries && Run(config, s, events, mid)
    requires forall other :: other in events ==> Keeps(other, name)
    requires Enabled(mid, e)
    ensures name in mid.entries && mid.entries[name] == s.entries[name]
    ensures name in Step(config, mid, e).entries <==> Keeps(e, name)
    decreases |events|
  {
    if events == [] {
      StepKeepsEntry(config, s, e, name);
    } else {
      hide Step, Enabled, Keeps;
      assert events[0] in events;
      StepKeepsEntry(config, s, events[0], name);
      EntryStaysUntilAList(config, Step(config, s, events[0]), events[1..], mid, e, name);
    }
  }

  // ---- the object ----

  /** The Cache with its table; `heap`, `fetches` and `requests` hold what its pointers and goroutines hold. */
  class Cache {
    const config: Config
    var streams: set<string>
    var warm: seq<string>
    var entries: map<string, EntryId>
    var heap: seq<Entry>
    var fetches: seq<Fetch>
    var requests: seq<Request>
    var now: int

    constructor (config: Config, names: seq<string>, warm: seq<string>, now: int)
      requires Acceptable(names, warm)
      ensures this.config == Normalised(config) && View() == Init(names, warm, now)
    {
      this.config := Normalised(config);
      streams, this.warm, entries := StreamSet(names), warm, map[];
      heap, fetches, requests, this.now := [], [], [], now;
    }

    function View(): State
      reads this
    {
      State(streams, warm, entries, heap, fetches, requests, now)
    }

    /** Every entry of the table exists. */
    predicate Valid()
      reads this
    {
      forall name :: name in entries ==> entries[name] < |heap|
    }

    method StartLocked(source: string) returns (done: FetchId)
      requires Valid()
      modifies this`entries, this`heap, this`fetches
      ensures Valid() && View() == Started(old(View()), source)
      ensures Current(View(), source).Some? && Current(View(), source).value.inFlight == Some(done)
    {
      if source !in entries {
        entries := entries[source := |heap|];
        heap := heap + [Entry(source, None, None)];
      }
      var id := entries[source];
      if heap[id].inFlight.Some? { return heap[id].inFlight.value; }
      done := |fetches|;
      heap := heap[id := heap[id].(inFlight := Some(done))];
      fetches := fetches + [Fetch(source, id, true)];
    }

    /** get, up to where it waits. */
    method Get(q: RequestId)
      requires Valid() && Enabled(View(), Look(q))
      modifies this`entries, this`heap, this`fetches, this`requests
      ensures Valid() && View() == Step(config, old(View()), Look(q))
    {
      var source := requests[q].source;
      if source in entries && heap[entries[source]].frame.Some? {
        var frame := heap[entries[source]].frame.value;
        if now - frame.at < config.freshFor {
          requests := requests[q := Request(source, Served(frame, now, true))];
          return;
        }
      }
      var done := StartLocked(source);
      requests := requests[q := Request(source, Waiting(done))];
    }

    /** get, from where the fetch ended, the wait ran out or the caller left. */
    method GetEnds(q: RequestId)
      requires Valid() && Enabled(View(), Answer(q))
      modifies this`requests
      ensures Valid() && View() == Step(config, old(View()), Answer(q))
    {
      var source := requests[q].source;
      var outcome := Unavailable;
      if source in entries && heap[entries[source]].frame.Some? {
        var frame := heap[entries[source]].frame.value;
        if now - frame.at <= config.staleFor { outcome := Served(frame, now, false); }
      }
      requests := requests[q := Request(source, outcome)];
    }

    method FetchEnds(f: FetchId, bytes: Option<seq<int>>)
      requires Valid() && Enabled(View(), Fetched(f, bytes))
      modifies this`heap, this`fetches
      ensures Valid() && View() == Step(config, old(View()), Fetched(f, bytes))
    {
      var id := fetches[f].entry;
      fetches := fetches[f := fetches[f].(running := false)];
      var entry := heap[id].(inFlight := None);
      if bytes.Some? { entry := entry.(frame := Some(Frame(Image(f, bytes.value), now))); }
      heap := heap[id := entry];
    }

    method SetStreams(names: seq<string>, warmNames: seq<string>) returns (ok: bool)
      requires Valid()
      modifies this`streams, this`warm, this`entries
      ensures ok == Acceptable(names, warmNames)
      ensures Valid() && View() == Step(config, old(View()), Event.SetStreams(names, warmNames))
    {
      var sets := StreamSets(names, warmNames);
      if sets.None? { return false; }
      streams, warm := sets.value.0, sets.value.1;
      entries := map name | name in entries && name in streams :: entries[name];
      return true;
    }

    method WarmUp()
      requires Valid()
      modifies this`entries, this`heap, this`fetches
      ensures Valid() && View() == Step(config, old(View()), Event.Warm)
    {
      hide Started;
      for i := 0 to |warm|
        invariant Valid() && View() == Warmed(old(View()), warm[..i])
      {
        assert warm[..i + 1][..i] == warm[..i];
        var _ := StartLocked(warm[i]);
      }
      assert warm[..|warm|] == warm;
    }
  }
}
