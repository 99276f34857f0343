/**
 The lock-free cap on concurrent sessions (internal/bridge/bridge.go, reserveSession and the release in
 handle). Each step is one atomic instruction of one session; any interleaving of them is a run.
 */
module SessionSlots {
  type Id = nat

  /** Where a session is between accept and the end of handle. */
  datatype Place =
    | Arriving
    | Loaded(seen: int)
    | Holding
    | TurnedAway
    | Left

  datatype State = State(active: int, sessions: map<Id, Place>)

  datatype Event =
    | Accept(id: Id)
    | Add(id: Id)
    | Load(id: Id)
    | CompareAndSwap(id: Id)
    | Release(id: Id)

  predicate At(s: State, id: Id, place: Place) { id in s.sessions && s.sessions[id] == place }

  /** A limit that is not positive removes the cap. */
  predicate Enabled(limit: int, s: State, event: Event) {
    match event
    case Accept(id) => id !in s.sessions
    case Add(id) => limit <= 0 && At(s, id, Arriving)
    case Load(id) => limit > 0 && At(s, id, Arriving)
    case CompareAndSwap(id) => id in s.sessions && s.sessions[id].Loaded?
    case Release(id) => At(s, id, Holding)
  }

  function Step(limit: int, s: State, event: Event): State
    requires Enabled(limit, s, event)
  {
    match event
    case Accept(id) => s.(sessions := s.sessions[id := Arriving])
    case Add(id) => State(s.active + 1, s.sessions[id := Holding])
    case Load(id) => s.(sessions := s.sessions[id := if s.active >= limit then TurnedAway else Loaded(s.active)])
    case CompareAndSwap(id) =>
      if s.active == s.sessions[id].seen then State(s.active + 1, s.sessions[id := Holding])
      else s.(sessions := s.sessions[id := Arriving])
    case Release(id) => State(s.active - 1, s.sessions[id := Left])
  }

  predicate Run(limit: int, start: State, events: seq<Event>, end: State)
    decreases |events|
  {
    if events == [] then end == start
    else Enabled(limit, start, events[0]) && Run(limit, Step(limit, start, events[0]), events[1..], end)
  }

  function Holders(s: State): set<Id> { set id | id in s.sessions && s.sessions[id] == Holding }

  predicate Invariant(limit: int, s: State) {
    && s.active == |Holders(s)|
    && (limit > 0 ==> s.active <= limit)
    && forall id | id in s.sessions && s.sessions[id].Loaded? :: s.sessions[id].seen < limit
  }

  lemma StepKeeps(limit: int, s: State, event: Event)
    requires Invariant(limit, s) && Enabled(limit, s, event)
    ensures Invariant(limit, Step(limit, s, event))
  {
    var next := Step(limit, s, event);
    if At(next, event.id, Holding) {
      assert Holders(next) == Holders(s) + {event.id};
    } else if event.Release? {
      assert Holders(next) == Holders(s) - {event.id};
    } else {
      assert Holders(next) == Holders(s);
    }
  }

  lemma {:induction false} RunKeeps(limit: int, start: State, events: seq<Event>, end: State)
    requires Invariant(limit, start) && Run(limit, start, events, end)
    ensures Invariant(limit, end)
    decreases |events|
  {
    if events == [] {
    } else {
      StepKeeps(limit, start, events[0]);
      RunKeeps(limit, Step(limit, start, events[0]), events[1..], end);
    }
  }

  /**
   In every interleaving the counter is the number of sessions holding a slot, and a positive cap is never
   exceeded, however stale the value a session compares against and however often it came round again.
   */
  lemma SlotsAreCounted(limit: int, events: seq<Event>, end: State)
    requires Run(limit, State(0, map[]), events, end)
    ensures end.active == |Holders(end)|
    ensures limit > 0 ==> end.active <= limit
  {
    assert Holders(State(0, map[])) == {};
    RunKeeps(limit, State(0, map[]), events, end);
  }

  /** A session is turned away only at a moment when as many sessions as the cap allows hold a slot. */
  lemma TurnedAwayOnlyWhenFull(limit: int, events: seq<Event>, s: State, id: Id)
    requires Run(limit, State(0, map[]), events, s) && Enabled(limit, s, Load(id))
    ensures At(Step(limit, s, Load(id)), id, TurnedAway) <==> |Holders(s)| == limit
  {
    SlotsAreCounted(limit, events, s);
  }

  /** A newcomer can always come, and asks for a slot. */
  lemma NewcomersArrive(limit: int, s: State, id: Id)
    requires id !in s.sessions
    ensures Enabled(limit, s, Accept(id)) && Step(limit, s, Accept(id)) == State(s.active, s.sessions[id := Arriving])
  {
  }

  /** Where there is room, or no cap, a session that asks and is not disturbed gets a slot by its own steps. */
  lemma RoomIsGiven(limit: int, s: State, id: Id) returns (events: seq<Event>)
    requires At(s, id, Arriving) && (limit <= 0 || s.active < limit)
    ensures Run(limit, s, events, State(s.active + 1, s.sessions[id := Holding]))
    ensures |events| <= 2 && forall event :: event in events ==> event.id == id
  {
    var end := State(s.active + 1, s.sessions[id := Holding]);
    if limit <= 0 {
      events := [Add(id)];
      assert Run(limit, end, [], end) && events[1..] == [];
    } else {
      var loaded := Step(limit, s, Load(id));
      assert Step(limit, loaded, CompareAndSwap(id)).sessions == end.sessions;
      events := [Load(id), CompareAndSwap(id)];
      assert events[1..] == [CompareAndSwap(id)] && events[1..][1..] == [];
      assert Run(limit, end, [], end) && Run(limit, loaded, [CompareAndSwap(id)], end);
    }
  }

  /** Who holds a slot can give it back at any time, and that frees exactly one. */
  lemma SlotsAreGivenBack(limit: int, s: State, id: Id)
    requires At(s, id, Holding)
    ensures Enabled(limit, s, Release(id)) && Step(limit, s, Release(id)) == State(s.active - 1, s.sessions[id := Left])
  {
  }

  /** Someone has taken a slot or given one back. */
  predicate Moves(event: Event) { event.Add? || event.CompareAndSwap? || event.Release? }

  lemma {:induction false} CounterStays(limit: int, s: State, events: seq<Event>, end: State, id: Id)
    requires Run(limit, s, events, end) && id in s.sessions
    requires forall event :: event in events ==> event.id != id && !Moves(event)
    ensures end.active == s.active && id in end.sessions && end.sessions[id] == s.sessions[id]
    decreases |events|
  {
    if events == [] {
    } else {
      assert events[0] in events;
      CounterStays(limit, Step(limit, s, events[0]), events[1..], end, id);
    }
  }

  /** A swap fails only where another session took or gave back a slot since the load, so one of them got on. */
  lemma SwapFailsOnlyToAnother(limit: int, s: State, id: Id, events: seq<Event>, t: State)
    requires Enabled(limit, s, Load(id)) && s.active < limit && Run(limit, Step(limit, s, Load(id)), events, t)
    requires forall event :: event in events ==> event.id != id
    requires id in t.sessions && t.sessions[id].Loaded? && !At(Step(limit, t, CompareAndSwap(id)), id, Holding)
    ensures exists event :: event in events && Moves(event)
  {
    if forall event :: event in events ==> !Moves(event) {
      CounterStays(limit, Step(limit, s, Load(id)), events, t, id);
      assert false;
    }
  }
}
