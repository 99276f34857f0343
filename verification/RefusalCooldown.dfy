/**
 How the sessions of one bridge share the relay's refusals (internal/bridge/bridge.go): the cooldown after a
 refusal, the probe that admits one waiting session at a time, the answer the others take from it, and the
 bounded dial attempts. Each step is what one session does in one lock region, select or dial attempt; the
 clock is an integer that never goes back.
 */
module RefusalCooldown {
  import opened Wrappers

  type Id = nat

  /** A recorded refusal: when, to whom, and the time of the refusal that session had waited out, if any. */
  datatype Refusal = Refusal(at: int, session: Id, waited: Option<int>)

  datatype Outcome = Opened | Failed | Cancelled | Refused(index: nat) | Shared(index: nat)

  /**
   Where a session is in dial. `logged` refusals were on record when it arrived, the last of them at `seen`; its timer
   fires at `until`.
   */
  datatype Place =
    | Asked(seen: Option<int>, logged: nat, readAt: int)
    | Waiting(since: int, logged: nat, until: int)
    | Queued(since: int, logged: nat)
    | Probing(since: int, logged: nat)
    | Dialling(waited: Option<int>, attempts: nat)
    | Refusing(waited: Option<int>)
    | Releasing(outcome: Outcome)
    | Done(outcome: Outcome)

  /** `log` is every refusal recorded so far; the bridge keeps its last entry. */
  datatype State = State(
    now: int,
    log: seq<Refusal>,
    probe: Option<Id>,
    sessions: map<Id, Place>,
    arrivals: map<Id, (nat, int)>) // the number of refusals on record, and the time

  datatype Event =
    | Tick(passed: nat)
    | Arrive(id: Id)
    | Decide(id: Id)
    | TimerFires(id: Id)
    | GiveUp(id: Id)
    | TakeProbe(id: Id)
    | Check(id: Id)
    | AttemptOpens(id: Id)
    | AttemptFails(id: Id)
    | AttemptCancelled(id: Id)
    | AttemptRefused(id: Id)
    | Note(id: Id)
    | Release(id: Id)

  datatype Config = Config(cooldown: int, retries: nat)

  function RefusedAt(log: seq<Refusal>): Option<int> {
    if log == [] then None else Some(log[|log| - 1].at)
  }

  /** The rest of the cooldown after the refusal at `seen`. */
  function Wait(config: Config, seen: int, now: int): int { config.cooldown - (now - seen) }

  /** refusalSince: a refusal newer than the one this session waited out. */
  predicate NewerThan(log: seq<Refusal>, seen: int) { log != [] && log[|log| - 1].at > seen }

  /** A session that waited leaves through the release of the probe. */
  function Leave(waited: Option<int>, outcome: Outcome): Place {
    if waited.Some? then Releasing(outcome) else Done(outcome)
  }

  function PlaceOf(s: State, id: Id): Option<Place> {
    if id in s.sessions then Some(s.sessions[id]) else None
  }

  predicate Enabled(config: Config, s: State, event: Event) {
    match event
    case Tick(_) => true
    case Arrive(id) => id !in s.sessions
    case Decide(id) => id in s.sessions && s.sessions[id].Asked?
    case TimerFires(id) => id in s.sessions && s.sessions[id].Waiting? && s.sessions[id].until <= s.now
    case GiveUp(id) => id in s.sessions && (s.sessions[id].Waiting? || s.sessions[id].Queued?)
    case TakeProbe(id) => id in s.sessions && s.sessions[id].Queued? && s.probe.None?
    case Check(id) => id in s.sessions && s.sessions[id].Probing?
    case Note(id) => id in s.sessions && s.sessions[id].Refusing?
    case Release(id) => id in s.sessions && s.sessions[id].Releasing?
    case _ => event.id in s.sessions && s.sessions[event.id].Dialling?
  }

  /** Where the session that acts is afterwards. */
  function NextPlace(config: Config, s: State, event: Event): Place
    requires Enabled(config, s, event) && !event.Tick?
  {
    match event
    case Arrive(_) =>
      if config.cooldown <= 0 then Dialling(None, 0) else Asked(RefusedAt(s.log), |s.log|, s.now)
    case Decide(id) =>
      var Asked(seen, logged, _) := s.sessions[id];
      if seen.None? || Wait(config, seen.value, s.now) <= 0 then Dialling(None, 0)
      else Waiting(seen.value, logged, s.now + Wait(config, seen.value, s.now))
    case TimerFires(id) => Queued(s.sessions[id].since, s.sessions[id].logged)
    case GiveUp(_) => Done(Cancelled)
    case TakeProbe(id) => Probing(s.sessions[id].since, s.sessions[id].logged)
    case Check(id) =>
      var since := s.sessions[id].since;
      if NewerThan(s.log, since) then Releasing(Shared(|s.log| - 1)) else Dialling(Some(since), 0)
    case AttemptOpens(id) => Leave(s.sessions[id].waited, Opened)
    case AttemptFails(id) =>
      var Dialling(waited, attempts) := s.sessions[id];
      if attempts + 1 > config.retries then Leave(waited, Failed) else Dialling(waited, attempts + 1)
    case AttemptCancelled(id) => Leave(s.sessions[id].waited, Cancelled)
    case AttemptRefused(id) => Refusing(s.sessions[id].waited)
    case Note(id) => Leave(s.sessions[id].waited, Refused(|s.log|))
    case Release(id) => Done(s.sessions[id].outcome)
  }

  function Step(config: Config, s: State, event: Event): State
    requires Enabled(config, s, event)
  {
    if event.Tick? then s.(now := s.now + event.passed)
    else
      State(s.now,
            if event.Note? then s.log + [Refusal(s.now, event.id, s.sessions[event.id].waited)] else s.log,
            if event.TakeProbe? then Some(event.id) else if event.Release? then None else s.probe,
            s.sessions[event.id := NextPlace(config, s, event)],
            if event.Arrive? then s.arrivals[event.id := (|s.log|, s.now)] else s.arrivals)
  }

  predicate Run(config: Config, start: State, events: seq<Event>, end: State)
    decreases |events|
  {
    if events == [] then end == start
    else Enabled(config, start, events[0]) && Run(config, Step(config, start, events[0]), events[1..], end)
  }

  function Start(now: int): State { State(now, [], None, map[], map[]) }

  predicate Reachable(config: Config, now: int, events: seq<Event>, s: State) { Run(config, Start(now), events, s) }

  // ---- the invariant ----

  predicate Ordered(s: State) {
    && (forall i, j :: 0 <= i < j < |s.log| ==> s.log[i].at <= s.log[j].at)
    && (forall i :: 0 <= i < |s.log| ==> s.log[i].at <= s.now)
  }

  predicate NotWaitedOut(log: seq<Refusal>, since: int) {
    forall k :: 0 <= k < |log| ==> log[k].waited != Some(since)
  }

  /** What a session at `place` knows about the record. */
  predicate Knows(config: Config, log: seq<Refusal>, now: int, place: Place) {
    match place
    case Asked(seen, logged, readAt) =>
      && logged <= |log| && seen == RefusedAt(log[..logged]) && readAt <= now
      && config.cooldown > 0
      && forall k :: logged <= k < |log| ==> log[k].at >= readAt
    case Waiting(since, logged, until) =>
      config.cooldown > 0 && 0 < logged <= |log| && log[logged - 1].at == since && until == since + config.cooldown
    case Queued(since, logged) =>
      config.cooldown > 0 && 0 < logged <= |log| && log[logged - 1].at == since && since + config.cooldown <= now
    case Probing(since, logged) =>
      config.cooldown > 0 && 0 < logged <= |log| && log[logged - 1].at == since && since + config.cooldown <= now
    case Dialling(Some(since), _) => config.cooldown > 0 && since + config.cooldown <= now && NotWaitedOut(log, since)
    case Refusing(Some(since)) => config.cooldown > 0 && since + config.cooldown <= now && NotWaitedOut(log, since)
    case _ => true
  }

  predicate AllKnow(config: Config, s: State) {
    forall id | id in s.sessions :: Knows(config, s.log, s.now, s.sessions[id])
  }

  /** Between taking the probe and giving it back. */
  predicate Holds(place: Place) {
    match place
    case Probing(_, _) => true
    case Dialling(waited, _) => waited.Some?
    case Refusing(waited) => waited.Some?
    case Releasing(_) => true
    case _ => false
  }

  ghost predicate ProbeHeld(s: State) {
    forall id :: (id in s.sessions && Holds(s.sessions[id])) <==> s.probe == Some(id)
  }

  /** No two recorded refusals were earned by waiting out the same one, and each came after its wait. */
  predicate WaitedOnce(config: Config, log: seq<Refusal>) {
    && (forall i, j :: 0 <= i < j < |log| && log[i].waited.Some? ==> log[i].waited != log[j].waited)
    && (forall i :: 0 <= i < |log| && log[i].waited.Some? ==>
          config.cooldown > 0 && log[i].waited.value + config.cooldown <= log[i].at)
  }

  ghost predicate Invariant(config: Config, s: State) {
    Ordered(s) && AllKnow(config, s) && ProbeHeld(s) && WaitedOnce(config, s.log)
  }

  lemma CheckKnows(config: Config, s: State, id: Id)
    requires Invariant(config, s) && Enabled(config, s, Check(id))
    ensures Knows(config, s.log, s.now, NextPlace(config, s, Check(id)))
  {
    hide ProbeHeld;
    var since := s.sessions[id].since;
    assert Knows(config, s.log, s.now, s.sessions[id]);
    if !NewerThan(s.log, since) {
      forall k | 0 <= k < |s.log| ensures s.log[k].waited != Some(since) {
        assert s.log[k].at <= s.log[|s.log| - 1].at;
      }
    }
  }

  lemma DecideKnows(config: Config, s: State, id: Id)
    requires Invariant(config, s) && Enabled(config, s, Decide(id))
    ensures Knows(config, s.log, s.now, NextPlace(config, s, Decide(id)))
  {
    hide ProbeHeld, WaitedOnce;
    assert Knows(config, s.log, s.now, s.sessions[id]);
    var Asked(seen, logged, _) := s.sessions[id];
    assert seen.Some? ==> s.log[..logged][logged - 1] == s.log[logged - 1];
  }

  lemma NextKnows(config: Config, s: State, event: Event)
    requires Invariant(config, s) && Enabled(config, s, event) && !event.Tick? && !event.Note?
    ensures Knows(config, s.log, s.now, NextPlace(config, s, event))
  {
    if event.Check? {
      CheckKnows(config, s, event.id);
    } else if event.Decide? {
      DecideKnows(config, s, event.id);
    } else if event.Arrive? {
      assert s.log[..|s.log|] == s.log;
    } else {
      hide ProbeHeld, WaitedOnce, Ordered, NotWaitedOut;
      assert Knows(config, s.log, s.now, s.sessions[event.id]);
    }
  }

  /** Nobody else holding the probe, a newly recorded refusal changes nothing another session knows. */
  lemma NoteKeepsKnowledge(config: Config, s: State, noter: Id, id: Id)
    requires Invariant(config, s) && noter in s.sessions && s.sessions[noter].Refusing?
    requires id in s.sessions && id != noter
    ensures Knows(config, s.log + [Refusal(s.now, noter, s.sessions[noter].waited)], s.now, s.sessions[id])
  {
    var entry := Refusal(s.now, noter, s.sessions[noter].waited);
    var place := s.sessions[id];
    assert Knows(config, s.log, s.now, place);
    if place.Asked? {
      assert (s.log + [entry])[..place.logged] == s.log[..place.logged];
    }
    if Holds(place) {
      assert s.probe == Some(id);
      assert !Holds(s.sessions[noter]);
    }
  }

  lemma StepKeeps(config: Config, s: State, event: Event)
    requires Invariant(config, s) && Enabled(config, s, event)
    ensures Invariant(config, Step(config, s, event))
  {
    ProbeStays(config, s, event);
    RecordStays(config, s, event);
    hide Ordered, WaitedOnce, ProbeHeld, NextPlace, Enabled;
    KnowledgeStays(config, s, event);
  }

  lemma RecordStays(config: Config, s: State, event: Event)
    requires Invariant(config, s) && Enabled(config, s, event)
    ensures Ordered(Step(config, s, event)) && WaitedOnce(config, Step(config, s, event).log)
  {
    hide ProbeHeld;
    if event.Note? {
      assert Knows(config, s.log, s.now, s.sessions[event.id]);
    }
  }

  lemma KnowledgeStays(config: Config, s: State, event: Event)
    requires Invariant(config, s) && Enabled(config, s, event)
    ensures AllKnow(config, Step(config, s, event))
  {
    var next := Step(config, s, event);
    forall id | id in next.sessions ensures Knows(config, next.log, next.now, next.sessions[id]) {
      if event.Tick? {
        assert Knows(config, s.log, s.now, s.sessions[id]);
      } else if event.Note? {
        if id != event.id { NoteKeepsKnowledge(config, s, event.id, id); }
      } else {
        NextKnows(config, s, event);
        if id != event.id { assert Knows(config, s.log, s.now, s.sessions[id]); }
      }
    }
  }

  lemma ProbeStays(config: Config, s: State, event: Event)
    requires Invariant(config, s) && Enabled(config, s, event)
    ensures ProbeHeld(Step(config, s, event))
  {
    var next := Step(config, s, event);
    forall id ensures (id in next.sessions && Holds(next.sessions[id])) <==> next.probe == Some(id) {
      assert (id in s.sessions && Holds(s.sessions[id])) <==> s.probe == Some(id);
    }
  }

  lemma {:induction false} RunKeeps(config: Config, start: State, events: seq<Event>, end: State)
    requires Invariant(config, start) && Run(config, start, events, end)
    ensures Invariant(config, end)
    decreases |events|
  {
    if events == [] {
    } else {
      StepKeeps(config, start, events[0]);
      RunKeeps(config, Step(config, start, events[0]), events[1..], end);
    }
  }

  lemma ReachableInvariant(config: Config, now: int, events: seq<Event>, s: State)
    requires Reachable(config, now, events, s)
    ensures Invariant(config, s)
  {
    RunKeeps(config, Start(now), events, s);
  }

  // ---- one question per cooldown ----

  /** Of the sessions that waited out the same refusal, at most one records a refusal of its own. */
  lemma OneRefusalPerWait(config: Config, now: int, events: seq<Event>, s: State, i: nat, j: nat)
    requires Reachable(config, now, events, s) && i < j < |s.log|
    ensures s.log[i].waited.Some? ==> s.log[i].waited != s.log[j].waited
  {
    ReachableInvariant(config, now, events, s);
  }

  /** At most one waiting session asks at a time, and one that has left does not keep the probe. */
  lemma OneWaiterAsks(config: Config, now: int, events: seq<Event>, s: State, a: Id, b: Id)
    requires Reachable(config, now, events, s)
    requires a in s.sessions && b in s.sessions && Holds(s.sessions[a])
    ensures s.probe == Some(a)
    ensures Holds(s.sessions[b]) ==> a == b
    ensures s.sessions[b].Done? ==> s.probe != Some(b)
  {
    ReachableInvariant(config, now, events, s);
  }

  /** From wherever it is, the holder can leave on its own, and the probe is free when it has. */
  lemma HolderCanLeave(config: Config, s: State, id: Id) returns (events: seq<Event>, end: State)
    requires id in s.sessions && Holds(s.sessions[id])
    ensures Run(config, s, events, end) && end.probe == None && id in end.sessions && end.sessions[id].Done?
    ensures forall event | event in events :: !event.Tick? && event.id == id
  {
    var place := s.sessions[id];
    if place.Releasing? {
      events, end := [Release(id)], Step(config, s, Release(id));
      assert Run(config, end, [], end);
    } else {
      var first :=
        match place
        case Probing(_, _) => Check(id)
        case Refusing(_) => Note(id)
        case _ => AttemptCancelled(id);
      var next := Step(config, s, first);
      if next.sessions[id].Dialling? {
        var last := Step(config, next, AttemptCancelled(id));
        end := Step(config, last, Release(id));
        events := [first, AttemptCancelled(id), Release(id)];
        assert events[1..][1..] == [Release(id)];
        assert Run(config, last, [Release(id)], end);
      } else {
        end := Step(config, next, Release(id));
        events := [first, Release(id)];
        assert Run(config, next, [Release(id)], end);
      }
    }
  }

  // ---- whose answer a session takes ----

  /** A session and its own entry in the record. */
  predicate OwnEntry(s: State, id: Id, k: nat)
    requires id in s.sessions && k < |s.log|
  {
    s.log[k].session == id ==>
      s.sessions[id] == Releasing(Refused(k)) || s.sessions[id] == Done(Refused(k))
  }

  predicate SharedAfter(log: seq<Refusal>, id: Id, count: nat, outcome: Outcome) {
    outcome.Shared? ==> count <= outcome.index < |log| && log[outcome.index].session != id
  }

  /** What the record says about the sessions that arrived. */
  predicate Arrived(s: State, id: Id)
    requires id in s.sessions && id in s.arrivals
  {
    var (count, at) := s.arrivals[id];
    && count <= |s.log| && at <= s.now
    && (forall k :: count <= k < |s.log| ==> s.log[k].at >= at)
    && (forall k: nat :: k < |s.log| ==> OwnEntry(s, id, k))
    && PlaceArrived(s.log, id, count, s.sessions[id])
  }

  predicate PlaceArrived(log: seq<Refusal>, id: Id, count: nat, place: Place) {
    match place
    case Asked(_, logged, _) => logged == count
    case Waiting(_, logged, _) => logged == count
    case Queued(_, logged) => logged == count
    case Probing(_, logged) => logged == count
    case Releasing(outcome) => SharedAfter(log, id, count, outcome)
    case Done(outcome) => SharedAfter(log, id, count, outcome)
    case _ => true
  }

  predicate AllArrived(s: State) {
    && s.sessions.Keys == s.arrivals.Keys
    && (forall id | id in s.sessions :: Arrived(s, id))
    && (forall k :: 0 <= k < |s.log| ==> s.log[k].session in s.sessions)
  }

  lemma StepArrives(config: Config, s: State, event: Event)
    requires Invariant(config, s) && AllArrived(s) && Enabled(config, s, event)
    ensures AllArrived(Step(config, s, event))
  {
    hide Step, Enabled, Arrived, Invariant;
    var next := Step(config, s, event);
    SessionsStay(config, s, event);
    forall id | id in next.sessions ensures Arrived(next, id) { ArrivedStays(config, s, event, id); }
  }

  lemma SessionsStay(config: Config, s: State, event: Event)
    requires Enabled(config, s, event) && s.sessions.Keys == s.arrivals.Keys
    requires forall k :: 0 <= k < |s.log| ==> s.log[k].session in s.sessions
    ensures var next := Step(config, s, event);
            && next.sessions.Keys == next.arrivals.Keys
            && (forall k :: 0 <= k < |next.log| ==> next.log[k].session in next.sessions)
  {
    hide NextPlace;
  }

  lemma ArrivedStays(config: Config, s: State, event: Event, id: Id)
    requires Invariant(config, s) && AllArrived(s) && Enabled(config, s, event)
    requires id in Step(config, s, event).sessions && id in Step(config, s, event).arrivals
    ensures Arrived(Step(config, s, event), id)
  {
    if event.Tick? || event.id != id {
      assert id in s.sessions && Arrived(s, id);
      hide Invariant;
      OthersKeepEntries(config, s, event, id);
    } else {
      assert Recorded(s);
      hide Step, Arrived, NextPlace, ProbeHeld, WaitedOnce, Knows;
      ActorArrives(config, s, event);
    }
  }

  lemma OthersKeepEntries(config: Config, s: State, event: Event, id: Id)
    requires Enabled(config, s, event) && id in s.sessions && id in s.arrivals && Arrived(s, id)
    requires event.Tick? || event.id != id
    ensures id in Step(config, s, event).sessions && id in Step(config, s, event).arrivals
    ensures Arrived(Step(config, s, event), id)
  {
    hide NextPlace;
    var next := Step(config, s, event);
    forall k: nat | k < |next.log| ensures OwnEntry(next, id, k) {
      assert k < |s.log| ==> OwnEntry(s, id, k);
    }
  }

  /** What is needed to know of the session that acts, when it has arrived. */
  predicate Acting(config: Config, s: State, id: Id) {
    id in s.sessions ==> id in s.arrivals && Arrived(s, id) && Knows(config, s.log, s.now, s.sessions[id])
  }

  lemma ActorArrives(config: Config, s: State, event: Event)
    requires Enabled(config, s, event) && !event.Tick? && Acting(config, s, event.id) && Recorded(s)
    ensures event.id in Step(config, s, event).arrivals
    ensures Arrived(Step(config, s, event), event.id)
  {
    ActorPlace(config, s, event);
    ActorEntries(config, s, event);
    hide NextPlace, OwnEntry, Knows;
  }

  /** Every refusal was recorded for a session that arrived, at a time that has passed. */
  predicate Recorded(s: State) {
    forall k :: 0 <= k < |s.log| ==> s.log[k].session in s.sessions && s.log[k].at <= s.now
  }

  lemma ActorEntries(config: Config, s: State, event: Event)
    requires Enabled(config, s, event) && !event.Tick? && Acting(config, s, event.id) && Recorded(s)
    ensures var next := Step(config, s, event);
            forall k: nat :: k < |next.log| ==> OwnEntry(next, event.id, k)
  {
    hide Knows;
    var next := Step(config, s, event);
    var id := event.id;
    forall k: nat | k < |next.log| ensures OwnEntry(next, id, k) {
      if id in s.sessions && k < |s.log| { assert OwnEntry(s, id, k); }
    }
  }

  lemma ActorPlace(config: Config, s: State, event: Event)
    requires Enabled(config, s, event) && !event.Tick? && Acting(config, s, event.id)
    ensures event.id in Step(config, s, event).arrivals
    ensures var next := Step(config, s, event);
            PlaceArrived(next.log, event.id, next.arrivals[event.id].0, next.sessions[event.id])
  {
    hide OwnEntry, NextPlace, Knows;
    var id := event.id;
    if event.Check? { CheckTakesNewer(config, s, id); }
    ActorNextPlace(config, s, event, if event.Arrive? then |s.log| else s.arrivals[id].0);
  }

  lemma ActorNextPlace(config: Config, s: State, event: Event, count: nat)
    requires Enabled(config, s, event) && !event.Tick?
    requires event.Arrive? ==> count == |s.log|
    requires !event.Arrive? ==> PlaceArrived(s.log, event.id, count, s.sessions[event.id])
    requires event.Check? && NewerThan(s.log, s.sessions[event.id].since) ==>
               count <= |s.log| - 1 && s.log[|s.log| - 1].session != event.id
    ensures PlaceArrived(Step(config, s, event).log, event.id, count, NextPlace(config, s, event))
  {
  }

  /** A refusal newer than the one waited out is later in the record than everything seen on arrival. */
  lemma CheckTakesNewer(config: Config, s: State, id: Id)
    requires Enabled(config, s, Check(id)) && Acting(config, s, id)
    ensures NewerThan(s.log, s.sessions[id].since) ==>
              s.sessions[id].logged <= |s.log| - 1 && s.log[|s.log| - 1].session != id
  {
    if s.log != [] { assert OwnEntry(s, id, |s.log| - 1); }
  }

  lemma {:induction false} RunArrives(config: Config, start: State, events: seq<Event>, end: State)
    requires Invariant(config, start) && AllArrived(start) && Run(config, start, events, end)
    ensures AllArrived(end)
    decreases |events|
  {
    if events == [] {
    } else {
      hide Invariant, AllArrived, Step, Enabled;
      StepKeeps(config, start, events[0]);
      StepArrives(config, start, events[0]);
      RunArrives(config, Step(config, start, events[0]), events[1..], end);
    }
  }

  /**
   An answer a session takes without asking was given to another session, and recorded after the session
   that takes it arrived.
   */
  lemma SharedAnswerIsNewer(config: Config, now: int, events: seq<Event>, s: State, id: Id, index: nat)
    requires Reachable(config, now, events, s) && id in s.sessions
    requires s.sessions[id] == Done(Shared(index)) || s.sessions[id] == Releasing(Shared(index))
    ensures id in s.arrivals && s.arrivals[id].0 <= index < |s.log|
    ensures s.log[index].session != id && s.log[index].at >= s.arrivals[id].1
  {
    RunArrives(config, Start(now), events, s);
    assert Arrived(s, id);
  }

  // ---- when a session starts to dial ----

  /** The relay never refused, or its latest recorded refusal is at least one full cooldown old. */
  predicate Quiet(config: Config, s: State) {
    s.log == [] || s.log[|s.log| - 1].at + config.cooldown <= s.now
  }

  predicate StartsToDial(config: Config, s: State, event: Event) {
    Enabled(config, s, event) && (event.Arrive? || event.Decide? || event.Check?)
        && NextPlace(config, s, event).Dialling?
  }

  /** A session that waited, or that never had to because there is no cooldown, starts to dial only in quiet. */
  lemma WaiterStartsInQuiet(config: Config, now: int, events: seq<Event>, s: State, event: Event)
    requires Reachable(config, now, events, s) && StartsToDial(config, s, event) && !event.Decide?
    ensures Quiet(config, s)
  {
    ReachableInvariant(config, now, events, s);
    if event.Check? {
      assert Knows(config, s.log, s.now, s.sessions[event.id]);
    }
  }

  /**
   A session that need not wait reads the record first and the clock after it. It starts in quiet if nothing was
   recorded in between, and only then, unless it stalled for a whole cooldown between its two reads.
   */
  lemma DeciderStartsInQuietIff(config: Config, now: int, events: seq<Event>, s: State, id: Id)
    requires Reachable(config, now, events, s) && StartsToDial(config, s, Decide(id))
    ensures var Asked(_, logged, readAt) := s.sessions[id];
            && (|s.log| == logged ==> Quiet(config, s))
            && (s.now < readAt + config.cooldown ==> (Quiet(config, s) <==> |s.log| == logged))
  {
    ReachableInvariant(config, now, events, s);
    assert Knows(config, s.log, s.now, s.sessions[id]);
    var logged := s.sessions[id].logged;
    if |s.log| == logged {
      assert s.log[..logged] == s.log;
    } else {
      assert s.log[|s.log| - 1].at >= s.sessions[id].readAt;
    }
  }

  /**
   Without that condition the promise fails, whatever the cooldown: a second session reads an empty record, the first
   one is refused, and the second starts to dial in the very moment of the refusal.
   */
  lemma DeciderCanStartTooSoon(config: Config, now: int) returns (events: seq<Event>, s: State)
    requires config.cooldown > 0
    ensures Reachable(config, now, events, s) && StartsToDial(config, s, Decide(1))
    ensures !Quiet(config, s) && s.now == s.log[|s.log| - 1].at
  {
    var first, mid := FirstDials(config, now);
    var more;
    more, s := FirstIsRefused(config, mid);
    events := first + more;
    RunAppend(config, Start(now), first, mid, more, s);
  }

  lemma FirstIsRefused(config: Config, mid: State) returns (events: seq<Event>, s: State)
    requires config.cooldown > 0 && mid.log == [] && mid.sessions == map[0 := Dialling(None, 0)]
    ensures Run(config, mid, events, s) && s.log == [Refusal(s.now, 0, None)]
    ensures 1 in s.sessions && s.sessions[1] == Asked(None, 0, s.now)
  {
    var arrived := Step(config, mid, Arrive(1));
    var refused := Step(config, arrived, AttemptRefused(0));
    s := Step(config, refused, Note(0));
    RunCons(config, refused, Note(0), [], s);
    RunCons(config, arrived, AttemptRefused(0), [Note(0)], s);
    events := [Arrive(1)] + ([AttemptRefused(0)] + [Note(0)]);
  }

  lemma FirstDials(config: Config, now: int) returns (events: seq<Event>, s: State)
    requires config.cooldown > 0
    ensures Run(config, Start(now), events, s)
    ensures s == State(now, [], None, map[0 := Dialling(None, 0)], map[0 := (0, now)])
  {
    var asked := Step(config, Start(now), Arrive(0));
    s := Step(config, asked, Decide(0));
    RunCons(config, asked, Decide(0), [], s);
    RunCons(config, Start(now), Arrive(0), [Decide(0)], s);
    events := [Arrive(0)] + [Decide(0)];
  }

  lemma {:induction false} RunAppend(
      config: Config, a: State, first: seq<Event>, b: State, second: seq<Event>, c: State)
    requires Run(config, a, first, b) && Run(config, b, second, c)
    ensures Run(config, a, first + second, c)
    decreases |first|
  {
    if first == [] {
      assert first + second == second;
    } else {
      RunAppend(config, Step(config, a, first[0]), first[1..], b, second, c);
      assert (first + second)[1..] == first[1..] + second;
    }
  }

  lemma RunCons(config: Config, s: State, event: Event, rest: seq<Event>, end: State)
    requires Enabled(config, s, event) && Run(config, Step(config, s, event), rest, end)
    ensures Run(config, s, [event] + rest, end)
  {
    assert ([event] + rest)[1..] == rest;
  }

  /**
   A session waits exactly while the cooldown after the latest refusal it read is not over, and then until it is;
   otherwise it dials.
   */
  lemma WaitsOutTheCooldown(config: Config, now: int, events: seq<Event>, s: State, id: Id)
    requires Reachable(config, now, events, s) && Enabled(config, s, Decide(id))
    ensures var Asked(_, logged, _) := s.sessions[id];
            && logged <= |s.log|
            && NextPlace(config, s, Decide(id))
               == if logged > 0 && s.now < s.log[logged - 1].at + config.cooldown
                  then Waiting(s.log[logged - 1].at, logged, s.log[logged - 1].at + config.cooldown)
                  else Dialling(None, 0)
  {
    ReachableInvariant(config, now, events, s);
    assert Knows(config, s.log, s.now, s.sessions[id]);
    var logged := s.sessions[id].logged;
    if logged > 0 { assert s.log[..logged][logged - 1] == s.log[logged - 1]; }
  }

  // ---- when it retries ----

  /** The record only grows, by refusals of this time and later. */
  predicate Later(s: State, t: State) {
    s.log <= t.log && s.now <= t.now && forall k :: |s.log| <= k < |t.log| ==> t.log[k].at >= s.now
  }

  /** Of the refusals recorded since, none was of `id`, and while it holds the probe none of a session that waited. */
  predicate OfOthers(s: State, t: State, id: Id, prober: bool) {
    forall k :: |s.log| <= k < |t.log| ==> t.log[k].session != id && (prober ==> t.log[k].waited.None?)
  }

  /** Past its attempts a session never dials again. */
  predicate Past(place: Place) { place.Refusing? || place.Releasing? || place.Done? }

  lemma {:induction false} PastStays(config: Config, s: State, events: seq<Event>, t: State, id: Id)
    requires Run(config, s, events, t) && id in s.sessions && Past(s.sessions[id])
    ensures id in t.sessions && Past(t.sessions[id])
    decreases |events|
  {
    if events == [] {
    } else {
      PastStays(config, Step(config, s, events[0]), events[1..], t, id);
    }
  }

  lemma DialStep(config: Config, s: State, event: Event, id: Id)
    requires Invariant(config, s) && Enabled(config, s, event) && id in s.sessions && s.sessions[id].Dialling?
    ensures var next := Step(config, s, event);
            && Later(s, next) && OfOthers(s, next, id, s.sessions[id].waited.Some?) && id in next.sessions
            && (Past(next.sessions[id])
                || (next.sessions[id].Dialling? && next.sessions[id].waited == s.sessions[id].waited))
  {
    hide AllKnow, WaitedOnce, Ordered;
    if event.Note? && s.sessions[id].waited.Some? {
      assert Holds(s.sessions[id]) && s.probe == Some(id);
    }
  }

  lemma LaterJoins(s: State, mid: State, t: State, id: Id, prober: bool)
    requires Later(s, mid) && Later(mid, t) && OfOthers(s, mid, id, prober) && OfOthers(mid, t, id, prober)
    ensures Later(s, t) && OfOthers(s, t, id, prober)
  {
    forall k | |s.log| <= k < |t.log|
      ensures t.log[k].at >= s.now && t.log[k].session != id && (prober ==> t.log[k].waited.None?)
    {
      if k < |mid.log| { assert t.log[k] == mid.log[k]; }
    }
  }

  /** What was recorded while the session was dialling. */
  lemma {:induction false} DialRecord(config: Config, s: State, events: seq<Event>, t: State, id: Id)
    requires Invariant(config, s) && Run(config, s, events, t)
    requires id in s.sessions && s.sessions[id].Dialling? && id in t.sessions && t.sessions[id].Dialling?
    ensures Later(s, t) && OfOthers(s, t, id, s.sessions[id].waited.Some?)
    decreases |events|
  {
    if events == [] {
    } else {
      hide Invariant, Step, Enabled, Later, OfOthers;
      var next := Step(config, s, events[0]);
      DialStep(config, s, events[0], id);
      StepKeeps(config, s, events[0]);
      if Past(next.sessions[id]) {
        PastStays(config, next, events[1..], t, id);
        assert false;
      } else {
        DialRecord(config, next, events[1..], t, id);
        LaterJoins(s, next, t, id, s.sessions[id].waited.Some?);
      }
    }
  }

  /**
   A session that started to dial in quiet makes each further attempt in quiet exactly when no refusal recorded since
   is younger than the cooldown; within one cooldown of its start, when none was recorded at all. What is recorded
   meanwhile is never its own refusal and, where it holds the probe, never that of a session that waited.
   */
  lemma RetryInQuietIff(config: Config, now: int, before: seq<Event>, s: State, e: Event, events: seq<Event>, t: State)
    requires Reachable(config, now, before, s) && StartsToDial(config, s, e) && Quiet(config, s)
    requires Run(config, Step(config, s, e), events, t) && e.id in t.sessions && t.sessions[e.id].Dialling?
    ensures Quiet(config, t) <==> forall k :: |s.log| <= k < |t.log| ==> t.log[k].at + config.cooldown <= t.now
    ensures t.now < s.now + config.cooldown ==> (Quiet(config, t) <==> |t.log| == |s.log|)
    ensures OfOthers(s, t, e.id, e.Check?)
  {
    ReachableInvariant(config, now, before, s);
    StepKeeps(config, s, e);
    var dialling := Step(config, s, e);
    assert dialling.log == s.log && dialling.now == s.now;
    DialRecord(config, dialling, events, t, e.id);
    RunKeeps(config, dialling, events, t);
    QuietSince(config, s, t);
  }

  lemma QuietSince(config: Config, s: State, t: State)
    requires Later(s, t) && Quiet(config, s) && Ordered(t)
    ensures Quiet(config, t) <==> forall k :: |s.log| <= k < |t.log| ==> t.log[k].at + config.cooldown <= t.now
    ensures t.now < s.now + config.cooldown ==> (Quiet(config, t) <==> |t.log| == |s.log|)
  {
    if |t.log| == |s.log| {
      assert t.log == s.log;
    } else {
      assert t.log[|t.log| - 1].at >= s.now;
    }
  }

  /** So a retry can come too soon: between a session's first attempt and its second another one is refused. */
  lemma RetryCanComeTooSoon(config: Config, now: int) returns (events: seq<Event>, s: State)
    requires config.cooldown > 0 && config.retries > 0
    ensures Reachable(config, now, events, s) && 0 in s.sessions && s.sessions[0] == Dialling(None, 1)
    ensures !Quiet(config, s) && s.now == s.log[|s.log| - 1].at
  {
    var first, mid := FirstDials(config, now);
    var failed := Step(config, mid, AttemptFails(0));
    var more;
    more, s := SecondIsRefused(config, failed);
    RunCons(config, mid, AttemptFails(0), more, s);
    events := first + ([AttemptFails(0)] + more);
    RunAppend(config, Start(now), first, mid, [AttemptFails(0)] + more, s);
  }

  lemma SecondIsRefused(config: Config, failed: State) returns (events: seq<Event>, s: State)
    requires config.cooldown > 0 && failed.log == [] && failed.sessions == map[0 := Dialling(None, 1)]
    ensures Run(config, failed, events, s) && s.log == [Refusal(s.now, 1, None)]
    ensures 0 in s.sessions && s.sessions[0] == Dialling(None, 1)
  {
    var arrived := Step(config, failed, Arrive(1));
    var decided := Step(config, arrived, Decide(1));
    var refused := Step(config, decided, AttemptRefused(1));
    s := Step(config, refused, Note(1));
    RunCons(config, refused, Note(1), [], s);
    RunCons(config, decided, AttemptRefused(1), [Note(1)], s);
    RunCons(config, arrived, Decide(1), [AttemptRefused(1)] + [Note(1)], s);
    events := [Arrive(1)] + ([Decide(1)] + ([AttemptRefused(1)] + [Note(1)]));
  }

  // ---- how often a session asks ----

  predicate IsAttempt(event: Event, id: Id) {
    match event
    case AttemptOpens(i) => i == id
    case AttemptFails(i) => i == id
    case AttemptCancelled(i) => i == id
    case AttemptRefused(i) => i == id
    case _ => false
  }

  function Attempts(events: seq<Event>, id: Id): nat {
    if events == [] then 0 else (if IsAttempt(events[0], id) then 1 else 0) + Attempts(events[1..], id)
  }

  /** Attempts a session may still make. */
  function Budget(config: Config, s: State, id: Id): nat {
    match PlaceOf(s, id)
    case Some(Dialling(_, attempts)) => if attempts <= config.retries then config.retries + 1 - attempts else 0
    case Some(Refusing(_)) => 0
    case Some(Releasing(_)) => 0
    case Some(Done(_)) => 0
    case _ => config.retries + 1
  }

  predicate WithinRetries(config: Config, s: State) {
    forall id | id in s.sessions && s.sessions[id].Dialling? :: s.sessions[id].attempts <= config.retries
  }

  lemma {:induction false} BudgetIsSpent(config: Config, start: State, events: seq<Event>, end: State, id: Id)
    requires WithinRetries(config, start) && Run(config, start, events, end)
    ensures WithinRetries(config, end)
    ensures Attempts(events, id) + Budget(config, end, id) <= Budget(config, start, id)
    decreases |events|
  {
    if events == [] {
    } else {
      BudgetIsSpent(config, Step(config, start, events[0]), events[1..], end, id);
    }
  }

  /** A session makes at most one attempt more than the retries, */
  lemma AttemptsAreBounded(config: Config, now: int, events: seq<Event>, s: State, id: Id)
    requires Reachable(config, now, events, s)
    ensures Attempts(events, id) <= config.retries + 1
  {
    BudgetIsSpent(config, Start(now), events, s, id);
  }

  /** and none after the relay refused it. */
  lemma NoAttemptAfterRefusal(
      config: Config, now: int, before: seq<Event>, s: State, id: Id, after: seq<Event>, end: State)
    requires Reachable(config, now, before, s) && Enabled(config, s, AttemptRefused(id))
    requires Run(config, Step(config, s, AttemptRefused(id)), after, end)
    ensures Attempts(after, id) == 0
  {
    BudgetIsSpent(config, Start(now), before, s, id);
    BudgetIsSpent(config, Step(config, s, AttemptRefused(id)), after, end, id);
  }

  // ---- what a session comes back with ----

  /** The outcome by the events alone, and for refusals by the record. */
  predicate Earned(config: Config, log: seq<Refusal>, events: seq<Event>, id: Id, outcome: Outcome) {
    match outcome
    case Opened => AttemptOpens(id) in events
    case Failed => multiset(events)[AttemptFails(id)] == config.retries + 1
    case Cancelled => GiveUp(id) in events || AttemptCancelled(id) in events
    case Refused(index) => AttemptRefused(id) in events && index < |log| && log[index].session == id
    case Shared(index) => Unasked(events, id) && index < |log|
  }

  /** It has not asked the relay. */
  predicate Unasked(events: seq<Event>, id: Id) { forall e :: e in events ==> !IsAttempt(e, id) }

  /** Nothing has happened yet that ends it. */
  predicate Open(config: Config, events: seq<Event>, id: Id) {
    && AttemptOpens(id) !in events && AttemptCancelled(id) !in events && AttemptRefused(id) !in events
    && GiveUp(id) !in events && multiset(events)[AttemptFails(id)] <= config.retries
  }

  /** What the events so far say about where the session is. */
  predicate Told(config: Config, log: seq<Refusal>, events: seq<Event>, id: Id, place: Option<Place>) {
    match place
    case None => Unasked(events, id) && GiveUp(id) !in events
    case Some(Dialling(_, attempts)) => Open(config, events, id) && multiset(events)[AttemptFails(id)] == attempts
    case Some(Refusing(_)) => AttemptRefused(id) in events
    case Some(Releasing(outcome)) => Earned(config, log, events, id, outcome)
    case Some(Done(outcome)) => Earned(config, log, events, id, outcome)
    case _ => Unasked(events, id) && GiveUp(id) !in events
  }

  lemma UnaskedIsOpen(config: Config, events: seq<Event>, id: Id)
    requires Unasked(events, id) && GiveUp(id) !in events
    ensures Open(config, events, id) && multiset(events)[AttemptFails(id)] == 0
  {
    assert IsAttempt(AttemptFails(id), id);
    assert IsAttempt(AttemptOpens(id), id) && IsAttempt(AttemptCancelled(id), id) && IsAttempt(AttemptRefused(id), id);
  }

  lemma OthersTellNothing(config: Config, s: State, past: seq<Event>, e: Event, id: Id)
    requires Enabled(config, s, e) && (e.Tick? || e.id != id) && Told(config, s.log, past, id, PlaceOf(s, id))
    ensures var next := Step(config, s, e); Told(config, next.log, past + [e], id, PlaceOf(next, id))
  {
    var next := Step(config, s, e);
    assert PlaceOf(next, id) == PlaceOf(s, id) && s.log <= next.log;
    hide Step, Enabled;
    assert forall other :: other in past + [e] <==> other in past || other == e;
    assert !IsAttempt(e, id);
  }

  lemma ActorTells(config: Config, s: State, past: seq<Event>, e: Event)
    requires Enabled(config, s, e) && !e.Tick? && Told(config, s.log, past, e.id, PlaceOf(s, e.id))
    ensures Told(config, Step(config, s, e).log, past + [e], e.id, Some(NextPlace(config, s, e)))
  {
    assert forall other :: other in past + [e] <==> other in past || other == e;
    if Unasked(past, e.id) && GiveUp(e.id) !in past { UnaskedIsOpen(config, past, e.id); }
  }

  lemma {:induction false} RunTells(
      config: Config, past: seq<Event>, s: State, events: seq<Event>, end: State, id: Id)
    requires Told(config, s.log, past, id, PlaceOf(s, id)) && Run(config, s, events, end)
    ensures Told(config, end.log, past + events, id, PlaceOf(end, id))
    decreases |events|
  {
    if events == [] {
      assert past + events == past;
    } else {
      hide Told;
      var e := events[0];
      var next := Step(config, s, e);
      if e.Tick? || e.id != id {
        OthersTellNothing(config, s, past, e, id);
      } else {
        ActorTells(config, s, past, e);
        assert PlaceOf(next, id) == Some(NextPlace(config, s, e));
      }
      RunTells(config, past + [e], next, events[1..], end, id);
      assert past + [e] + events[1..] == past + events;
    }
  }

  /**
   In every run a session that has left came back with what happened to it: a tunnel only if its attempt opened, a
   failure only after the last retry failed, a cancellation only if it was cancelled, a refusal of its own only if it
   got one, and another's only without having asked. Until something like that happens it goes on.
   */
  lemma OutcomesAreEarned(config: Config, now: int, events: seq<Event>, s: State, id: Id)
    requires Reachable(config, now, events, s) && id in s.sessions
    ensures s.sessions[id].Done? ==> Earned(config, s.log, events, id, s.sessions[id].outcome)
    ensures s.sessions[id].Dialling? ==> Open(config, events, id)
  {
    RunTells(config, [], Start(now), events, s, id);
    assert [] + events == events;
  }

  /** Whoever waits can give up at once, and leaves the record and the probe to the others. */
  lemma WaitersCanGiveUp(config: Config, s: State, id: Id)
    requires id in s.sessions && (s.sessions[id].Waiting? || s.sessions[id].Queued?)
    ensures Enabled(config, s, GiveUp(id))
    ensures Step(config, s, GiveUp(id)) == s.(sessions := s.sessions[id := Done(Cancelled)])
  {
  }

  /** From wherever it waits, a session can come to ask, or to share an answer, without giving up. */
  lemma TurnComes(config: Config, s: State, id: Id) returns (events: seq<Event>, end: State)
    requires Invariant(config, s) && id in s.sessions && config.cooldown > 0
    requires s.sessions[id].Asked? || s.sessions[id].Waiting? || s.sessions[id].Queued? || s.sessions[id].Probing?
    ensures Run(config, s, events, end) && GiveUp(id) !in events && id in end.sessions
    ensures end.sessions[id].Dialling? || (end.sessions[id].Releasing? && end.sessions[id].outcome.Shared?)
    decreases
      match s.sessions[id] case Asked(_, _, _) => 4 case Waiting(_, _, _) => 3 case Queued(_, _) => 2 case _ => 1
  {
    var first, mid := Advances(config, s, id);
    if mid.sessions[id].Dialling? || mid.sessions[id].Releasing? {
      events, end := first, mid;
    } else {
      var more;
      more, end := TurnComes(config, mid, id);
      RunAppend(config, s, first, mid, more, end);
      events := first + more;
    }
  }

  /** One step further: it decides, its timer fires once time has passed, the probe is freed for it, or it checks. */
  lemma Advances(config: Config, s: State, id: Id) returns (events: seq<Event>, end: State)
    requires Invariant(config, s) && id in s.sessions
    requires s.sessions[id].Asked? || s.sessions[id].Waiting? || s.sessions[id].Queued? || s.sessions[id].Probing?
    ensures Run(config, s, events, end) && Invariant(config, end) && GiveUp(id) !in events && id in end.sessions
    ensures match s.sessions[id]
            case Asked(_, _, _) => end.sessions[id].Waiting? || end.sessions[id].Dialling?
            case Waiting(_, _, _) => end.sessions[id].Queued?
            case Queued(_, _) => end.sessions[id].Probing?
            case _ => end.sessions[id].Dialling? || (end.sessions[id].Releasing? && end.sessions[id].outcome.Shared?)
  {
    hide Invariant;
    var place := s.sessions[id];
    if place.Asked? {
      events, end := OneStep(config, s, Decide(id));
    } else if place.Probing? {
      events, end := OneStep(config, s, Check(id));
    } else if place.Waiting? {
      var passed := if place.until <= s.now then 0 else place.until - s.now;
      var first, mid := OneStep(config, s, Tick(passed));
      var more;
      more, end := OneStep(config, mid, TimerFires(id));
      RunAppend(config, s, first, mid, more, end);
      events := first + more;
    } else {
      events, end := TakesProbe(config, s, id);
    }
  }

  lemma OneStep(config: Config, s: State, event: Event) returns (events: seq<Event>, end: State)
    requires Invariant(config, s) && Enabled(config, s, event)
    ensures events == [event] && end == Step(config, s, event)
    ensures Run(config, s, events, end) && Invariant(config, end)
  {
    end := Step(config, s, event);
    StepKeeps(config, s, event);
    hide Invariant;
    RunCons(config, s, event, [], end);
    events := [event];
    assert [event] + [] == [event];
  }

  lemma TakesProbe(config: Config, s: State, id: Id) returns (events: seq<Event>, end: State)
    requires Invariant(config, s) && id in s.sessions && s.sessions[id].Queued?
    ensures Run(config, s, events, end) && Invariant(config, end) && GiveUp(id) !in events
    ensures id in end.sessions && end.sessions[id].Probing?
  {
    var first: seq<Event>, mid := [], s;
    if s.probe.Some? {
      var holder := s.probe.value;
      assert holder in s.sessions && Holds(s.sessions[holder]);
      first, mid := HolderCanLeave(config, s, holder);
      OthersStay(config, s, first, mid, id);
    }
    RunKeeps(config, s, first, mid);
    hide Invariant;
    var more;
    more, end := OneStep(config, mid, TakeProbe(id));
    RunAppend(config, s, first, mid, more, end);
    events := first + more;
  }

  /** The events of others leave a session where it is. */
  lemma {:induction false} OthersStay(config: Config, s: State, events: seq<Event>, end: State, id: Id)
    requires Run(config, s, events, end) && id in s.sessions
    requires forall event :: event in events ==> !event.Tick? && event.id != id
    ensures id in end.sessions && end.sessions[id] == s.sessions[id]
    decreases |events|
  {
    if events == [] {
    } else {
      hide NextPlace;
      assert events[0] in events;
      OthersStay(config, Step(config, s, events[0]), events[1..], end, id);
    }
  }
}
