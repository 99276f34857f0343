/**
 How the counters of the runtime reach the health state (internal/app/app.go, publishBridges): the two numbers are
 read one after the other and set in a third step, by many goroutines at once. All other steps are those of module
 Runtimes, and a goroutine takes its next one only when it has published.
 */
module HealthPublishing {
  import opened Wrappers
  import Runtimes

  /** Who publishes: Run, Reload, and every restart loop. */
  datatype Publisher = Starter | Reloader | Loop(id: Runtimes.Id)

  /** A publish under way: nothing read yet, the first number read, both read and still to be set. */
  datatype Publish = Owed | HalfRead(ready: int) | Read(ready: int, total: int)

  /** The numbers of a health state. */
  datatype Bridges = Bridges(ready: int, total: int)

  datatype State = State(runtime: Runtimes.State, publishes: map<Publisher, Publish>, shown: Bridges)

  datatype Event =
    | Runs(e: Runtimes.Event)
    | ReadServing(p: Publisher)
    | ReadTotal(p: Publisher)
    | SetBridges(p: Publisher)

  /** `shown` is what the health state says before anything was published. */
  function Init(registry: seq<Runtimes.Camera>, shown: Bridges): State {
    State(Runtimes.Init(registry), if registry == [] then map[Starter := Owed] else map[], shown)
  }

  /** The goroutine that takes the step. */
  function Actor(e: Runtimes.Event): Option<Publisher> {
    match e
    case Cancel => None
    case BootListens => Some(Starter)
    case BootFails => Some(Starter)
    case BootAdds => Some(Starter)
    case StopAll => Some(Starter)
    case Does(id, _) => Some(Loop(id))
    case _ => Some(Reloader)
  }

  /** Who has to publish after the step: Run when the last camera is up and at its end, Reload at its end, a loop. */
  function Debtor(s: Runtimes.State, e: Runtimes.Event): Option<Publisher> {
    match e
    case BootAdds => if s.boot == [] then Some(Starter) else None
    case StopAll => Some(Starter)
    case Finish => Some(Reloader)
    case Does(id, move) => if move.Serve? || move.ServeReturns? then Some(Loop(id)) else None
    case _ => None
  }

  predicate Enabled(s: State, e: Event) {
    match e
    case Runs(step) => Runtimes.Enabled(s.runtime, step) && (Actor(step).Some? ==> Actor(step).value !in s.publishes)
    case ReadServing(p) => p in s.publishes && s.publishes[p].Owed?
    case ReadTotal(p) => p in s.publishes && s.publishes[p].HalfRead?
    case SetBridges(p) => p in s.publishes && s.publishes[p].Read?
  }

  /** The counters as they are published. */
  function Counters(s: Runtimes.State): Bridges { Bridges(if s.serving < 0 then 0 else s.serving, s.total) }

  function Step(config: Runtimes.Config, s: State, e: Event): State
    requires Enabled(s, e)
  {
    match e
    case Runs(step) =>
      var debtor := Debtor(s.runtime, step);
      s.(runtime := Runtimes.Step(config, s.runtime, step),
         publishes := if debtor.Some? then s.publishes[debtor.value := Owed] else s.publishes)
    case ReadServing(p) => s.(publishes := s.publishes[p := HalfRead(Counters(s.runtime).ready)])
    case ReadTotal(p) => s.(publishes := s.publishes[p := Read(s.publishes[p].ready, Counters(s.runtime).total)])
    case SetBridges(p) =>
      s.(publishes := s.publishes - {p}, shown := Bridges(s.publishes[p].ready, s.publishes[p].total))
  }

  predicate Run(config: Runtimes.Config, s: State, events: seq<Event>, end: State)
    decreases |events|
  {
    if events == [] then s == end
    else Enabled(s, events[0]) && Run(config, Step(config, s, events[0]), events[1..], end)
  }

  lemma RunBack(config: Runtimes.Config, s: State, e: Event, events: seq<Event>, end: State)
    requires Enabled(s, e) && Run(config, Step(config, s, e), events, end)
    ensures Run(config, s, [e] + events, end)
  {
    assert ([e] + events)[1..] == events;
  }

  lemma {:induction false} RunJoins(
      config: Runtimes.Config, s: State, events: seq<Event>, mid: State, more: seq<Event>, end: State)
    requires Run(config, s, events, mid) && Run(config, mid, more, end)
    ensures Run(config, s, events + more, end)
    decreases |events|
  {
    hide Step, Enabled;
    if events == [] {
      assert events + more == more;
    } else {
      assert (events + more)[1..] == events[1..] + more;
      RunJoins(config, Step(config, s, events[0]), events[1..], mid, more, end);
    }
  }

  // ---- where the publishes under way will end ----

  /** What the publish has read is still what the counters say. */
  predicate Fresh(publish: Publish, counters: Bridges) {
    match publish
    case Owed => true
    case HalfRead(ready) => ready == counters.ready
    case Read(ready, total) => ready == counters.ready && total == counters.total
  }

  predicate AllFresh(s: State) {
    forall p :: p in s.publishes ==> Fresh(s.publishes[p], Counters(s.runtime))
  }

  /** Every publish under way is fresh, and without any the health state shows the counters. */
  predicate Sound(s: State) {
    AllFresh(s) && (s.publishes == map[] ==> s.shown == Counters(s.runtime))
  }

  /** The publishes under way come to their ends, in any order, while the counters stay as they are. */
  predicate Settles(config: Runtimes.Config, s: State, events: seq<Event>, end: State) {
    Run(config, s, events, end) && (forall e :: e in events ==> !e.Runs?) && end.publishes == map[]
  }

  lemma PublishStepIsSound(config: Runtimes.Config, s: State, e: Event)
    requires Sound(s) && Enabled(s, e) && !e.Runs?
    ensures Sound(Step(config, s, e)) && Step(config, s, e).runtime == s.runtime
  {
  }

  lemma {:induction false} SettlingIsSound(config: Runtimes.Config, s: State, events: seq<Event>, end: State)
    requires Sound(s) && Settles(config, s, events, end)
    ensures end.shown == Counters(s.runtime)
    decreases |events|
  {
    hide Step, Enabled;
    if events == [] {
    } else {
      PublishStepIsSound(config, s, events[0]);
      SettlingIsSound(config, Step(config, s, events[0]), events[1..], end);
    }
  }

  /** What a publish sets if nothing changes any more. */
  function Result(publish: Publish, counters: Bridges): Bridges {
    match publish
    case Owed => counters
    case HalfRead(ready) => Bridges(ready, counters.total)
    case Read(ready, total) => Bridges(ready, total)
  }

  /** One publish goes on to its end. */
  lemma Lands(config: Runtimes.Config, s: State, p: Publisher) returns (events: seq<Event>, end: State)
    requires p in s.publishes
    ensures Run(config, s, events, end) && forall e :: e in events ==> !e.Runs?
    ensures end == State(s.runtime, s.publishes - {p}, Result(s.publishes[p], Counters(s.runtime)))
    decreases if s.publishes[p].Owed? then 2 else if s.publishes[p].HalfRead? then 1 else 0
  {
    var e := match s.publishes[p]
      case Owed => ReadServing(p)
      case HalfRead(_) => ReadTotal(p)
      case Read(_, _) => SetBridges(p);
    var next := Step(config, s, e);
    var rest: seq<Event> := [];
    if s.publishes[p].Read? {
      end := next;
    } else {
      rest, end := Lands(config, next, p);
      assert next.publishes - {p} == s.publishes - {p};
    }
    RunBack(config, s, e, rest, end);
    events := [e] + rest;
  }

  /** All publishes under way can end with `last` as the last of them. */
  lemma LandsLast(config: Runtimes.Config, s: State, last: Publisher) returns (events: seq<Event>, end: State)
    requires last in s.publishes
    ensures Settles(config, s, events, end)
    ensures end.runtime == s.runtime && end.shown == Result(s.publishes[last], Counters(s.runtime))
    decreases |s.publishes|
  {
    hide Run, Step, Enabled, Result;
    if p :| p in s.publishes && p != last {
      var first, mid := Lands(config, s, p);
      assert mid.publishes.Keys == s.publishes.Keys - {p};
      var rest;
      rest, end := LandsLast(config, mid, last);
      RunJoins(config, s, first, mid, rest, end);
      events := first + rest;
    } else {
      events, end := Lands(config, s, last);
    }
  }

  lemma StaleResult(publish: Publish, counters: Bridges)
    ensures Fresh(publish, counters) <==> Result(publish, counters) == counters
  {
  }

  /**
   The publishes under way end with the health state showing the counters, in whatever order they do, exactly when
   none of them has read a number that is no longer true and, if there are none, it shows them already.
   */
  lemma SettlesOnTheCountersIff(config: Runtimes.Config, s: State)
    ensures Sound(s) <==> forall events, end :: Settles(config, s, events, end) ==> end.shown == Counters(s.runtime)
  {
    if Sound(s) {
      forall events, end | Settles(config, s, events, end) ensures end.shown == Counters(s.runtime) {
        SettlingIsSound(config, s, events, end);
      }
    } else if p :| p in s.publishes && !Fresh(s.publishes[p], Counters(s.runtime)) {
      var events, end := LandsLast(config, s, p);
      StaleResult(s.publishes[p], Counters(s.runtime));
    } else {
      assert Settles(config, s, [], s);
    }
  }

  // ---- what makes a publish stale ----

  /** The step changes a number that a publish under way has already read. */
  predicate Overtakes(config: Runtimes.Config, s: State, e: Runtimes.Event)
    requires Enabled(s, Runs(e))
  {
    var before, after := Counters(s.runtime), Counters(Runtimes.Step(config, s.runtime, e));
    exists p :: p in s.publishes
                && ((!s.publishes[p].Owed? && after.ready != before.ready)
                    || (s.publishes[p].Read? && after.total != before.total))
  }

  lemma StaysFreshIff(config: Runtimes.Config, s: State, e: Runtimes.Event)
    requires AllFresh(s) && Enabled(s, Runs(e))
    ensures AllFresh(Step(config, s, Runs(e))) <==> !Overtakes(config, s, e)
  {
    hide Runtimes.Step, Runtimes.Enabled;
    DebtorActs(s.runtime, e);
    var t := Step(config, s, Runs(e));
    forall p | p in s.publishes ensures p in t.publishes && t.publishes[p] == s.publishes[p] {}
    if AllFresh(t) {
      forall p | p in s.publishes ensures Fresh(t.publishes[p], Counters(t.runtime)) {}
    }
  }

  lemma DebtorActs(s: Runtimes.State, e: Runtimes.Event)
    ensures Debtor(s, e).Some? ==> Debtor(s, e) == Actor(e)
  {
  }

  /**
   Where all publishes under way are fresh, a step of the runtime leaves it so that they still all end on the
   counters exactly when it overtakes none of them.
   */
  lemma OvertakingIsTheHarm(config: Runtimes.Config, s: State, e: Runtimes.Event)
    requires AllFresh(s) && Enabled(s, Runs(e)) && Step(config, s, Runs(e)).publishes != map[]
    ensures var t := Step(config, s, Runs(e));
            !Overtakes(config, s, e) <==>
            forall events, end :: Settles(config, t, events, end) ==> end.shown == Counters(t.runtime)
  {
    hide Step, Enabled, Settles;
    StaysFreshIff(config, s, e);
    SettlesOnTheCountersIff(config, Step(config, s, Runs(e)));
  }

  // ---- whole runs ----

  /** Run has started its cameras and no reload is under way. */
  predicate AtRest(s: Runtimes.State) { Runtimes.Booted(s) && s.reload.None? }

  /** No step overtakes a publish, and Run does not fail to start. */
  predicate TidyRun(config: Runtimes.Config, s: State, events: seq<Event>, end: State)
    decreases |events|
  {
    if events == [] then s == end
    else
      && Enabled(s, events[0])
      && (events[0].Runs? ==> !events[0].e.BootFails? && !Overtakes(config, s, events[0].e))
      && TidyRun(config, Step(config, s, events[0]), events[1..], end)
  }

  /** Whatever is not yet shown is about to be published. */
  predicate Covered(s: State) {
    AllFresh(s) && (s.publishes == map[] && AtRest(s.runtime) ==> s.shown == Counters(s.runtime))
  }

  /** A step after which nobody has to publish leaves the counters alone, or leaves a reload or the start under way. */
  lemma QuietStep(config: Runtimes.Config, s: Runtimes.State, e: Runtimes.Event)
    requires Runtimes.Enabled(s, e) && Debtor(s, e).None? && !e.BootFails?
    requires AtRest(Runtimes.Step(config, s, e))
    ensures AtRest(s) && Counters(Runtimes.Step(config, s, e)) == Counters(s)
  {
  }

  lemma TidyStep(config: Runtimes.Config, s: State, e: Event)
    requires Covered(s) && Enabled(s, e)
    requires e.Runs? ==> !e.e.BootFails? && !Overtakes(config, s, e.e)
    ensures Covered(Step(config, s, e))
  {
    if e.Runs? {
      hide Runtimes.Step, Runtimes.Enabled, Overtakes, AtRest;
      StaysFreshIff(config, s, e.e);
      var t := Step(config, s, e);
      if t.publishes == map[] && AtRest(t.runtime) {
        assert Debtor(s.runtime, e.e).None?;
        QuietStep(config, s.runtime, e.e);
      }
    }
  }

  lemma {:induction false} TidyKeeps(config: Runtimes.Config, s: State, events: seq<Event>, end: State)
    requires Covered(s) && TidyRun(config, s, events, end)
    ensures Covered(end)
    decreases |events|
  {
    hide Covered, Step, Enabled, Overtakes;
    if events == [] {
    } else {
      TidyStep(config, s, events[0]);
      TidyKeeps(config, Step(config, s, events[0]), events[1..], end);
    }
  }

  lemma {:induction false} TidyIsRun(config: Runtimes.Config, s: State, events: seq<Event>, end: State)
    requires TidyRun(config, s, events, end)
    ensures exists moves :: Runtimes.Run(config, s.runtime, moves, end.runtime)
    decreases |events|
  {
    hide Overtakes, Runtimes.Step, Runtimes.Enabled;
    if events == [] {
      assert Runtimes.Run(config, s.runtime, [], end.runtime);
    } else {
      var next := Step(config, s, events[0]);
      TidyIsRun(config, next, events[1..], end);
      var moves :| Runtimes.Run(config, next.runtime, moves, end.runtime);
      if events[0].Runs? { Runtimes.RunBack(config, s.runtime, events[0].e, moves, end.runtime); }
    }
  }

  /**
   In a run in which no step overtakes a publish, the health state says how many bridges serve and how many cameras
   there are whenever Run has started them, no reload is under way and everybody has published.
   */
  lemma TidyRunsShowWhatServes(
      config: Runtimes.Config, registry: seq<Runtimes.Camera>, shown: Bridges, events: seq<Event>, end: State)
    requires TidyRun(config, Init(registry, shown), events, end)
    requires AtRest(end.runtime) && end.publishes == map[]
    ensures end.shown == Bridges(|Runtimes.ServingIds(end.runtime)|, |end.runtime.cameras|)
  {
    assert registry == [] ==> Starter in Init(registry, shown).publishes;
    TidyKeeps(config, Init(registry, shown), events, end);
    TidyIsRun(config, Init(registry, shown), events, end);
    var moves :| Runtimes.Run(config, Runtimes.Init(registry), moves, end.runtime);
    Runtimes.CountersAreTrue(config, registry, moves, end.runtime);
  }

  // ---- the run that leaves it stale ----

  /** Run starts its cameras; nobody has published before the last of them is up. */
  lemma {:induction false} Boots(config: Runtimes.Config, s: State) returns (events: seq<Event>, end: State)
    requires s.runtime.boot != [] && s.runtime.bootHand.None? && s.publishes == map[]
    requires s.runtime.serving == 0 && s.runtime.reload.None? && !s.runtime.stopping
    requires forall i :: 0 <= i < |s.runtime.supervisors| ==> s.runtime.supervisors[i].stage == Runtimes.Bound
    ensures Run(config, s, events, end) && end.publishes == map[Starter := Owed] && AtRest(end.runtime)
    ensures end.runtime.serving == 0 && !end.runtime.stopping && end.runtime.supervisors != []
    ensures end.runtime.supervisors[0].stage == Runtimes.Bound
    decreases |s.runtime.boot|
  {
    var held := Step(config, s, Runs(Runtimes.BootListens));
    var next := Step(config, held, Runs(Runtimes.BootAdds));
    var rest: seq<Event> := [];
    if |s.runtime.boot| == 1 {
      end := next;
      assert Run(config, next, rest, end);
    } else {
      rest, end := Boots(config, next);
    }
    RunBack(config, held, Runs(Runtimes.BootAdds), rest, end);
    RunBack(config, s, Runs(Runtimes.BootListens), [Runs(Runtimes.BootAdds)] + rest, end);
    events := [Runs(Runtimes.BootListens)] + ([Runs(Runtimes.BootAdds)] + rest);
  }

  /** Run has read that nothing serves when the first loop begins to serve and publishes it; then Run sets its zero. */
  lemma OvertakesAtStart(config: Runtimes.Config, s: State) returns (events: seq<Event>, end: State)
    requires s.publishes == map[Starter := Owed] && s.runtime.serving == 0
    requires s.runtime.supervisors != [] && s.runtime.supervisors[0].stage == Runtimes.Bound
    ensures Run(config, s, events, end) && end.publishes == map[]
    ensures end.runtime == Runtimes.Step(config, s.runtime, Runtimes.Does(0, Runtimes.Serve))
    ensures end.shown == Bridges(0, s.runtime.total)
  {
    var read := Step(config, s, ReadServing(Starter));
    var served := Step(config, read, Runs(Runtimes.Does(0, Runtimes.Serve)));
    var first, mid := Lands(config, served, Loop(0));
    var more;
    more, end := Lands(config, mid, Starter);
    RunJoins(config, served, first, mid, more, end);
    RunBack(config, read, Runs(Runtimes.Does(0, Runtimes.Serve)), first + more, end);
    RunBack(config, s, ReadServing(Starter), [Runs(Runtimes.Does(0, Runtimes.Serve))] + (first + more), end);
    events := [ReadServing(Starter)] + ([Runs(Runtimes.Does(0, Runtimes.Serve))] + (first + more));
  }

  /** Neither a publish nor a step that makes one. */
  predicate Silent(e: Event) {
    e.Runs? && !e.e.BootAdds? && !e.e.StopAll? && !e.e.Finish?
    && (e.e.Does? ==> !e.e.move.Serve? && !e.e.move.ServeReturns?)
  }

  lemma SilentStep(config: Runtimes.Config, s: State, e: Event)
    requires Silent(e) && Enabled(s, e)
    ensures var t := Step(config, s, e);
            t.shown == s.shown && t.publishes == s.publishes && t.runtime.serving == s.runtime.serving
  {
    Runtimes.StepServing(config, s.runtime, e.e);
    hide Runtimes.Step, Runtimes.Enabled;
  }

  lemma {:induction false} SilenceKeeps(config: Runtimes.Config, s: State, events: seq<Event>, end: State)
    requires Run(config, s, events, end) && forall e :: e in events ==> Silent(e)
    ensures end.shown == s.shown && end.publishes == s.publishes && end.runtime.serving == s.runtime.serving
    decreases |events|
  {
    hide Step, Enabled, Silent;
    if events == [] {
    } else {
      SilentStep(config, s, events[0]);
      SilenceKeeps(config, Step(config, s, events[0]), events[1..], end);
    }
  }

  /**
   For every registry: once its cameras are started and everybody has published, the health state can say that no
   bridge serves while one does, and goes on saying so until a bridge starts or stops to serve, a reload ends or Run
   stops.
   */
  lemma HealthCanStayStale(config: Runtimes.Config, registry: seq<Runtimes.Camera>, shown: Bridges)
    returns (events: seq<Event>, end: State)
    requires registry != []
    ensures Run(config, Init(registry, shown), events, end)
    ensures AtRest(end.runtime) && end.publishes == map[]
    ensures forall more, later :: Run(config, end, more, later) && (forall e :: e in more ==> Silent(e)) ==>
              later.runtime.serving == 1 && later.shown.ready == 0
  {
    var boots, mid := Boots(config, Init(registry, shown));
    hide Run, Silent;
    var overtakes;
    overtakes, end := OvertakesAtStart(config, mid);
    RunJoins(config, Init(registry, shown), boots, mid, overtakes, end);
    events := boots + overtakes;
    forall more, later | Run(config, end, more, later) && (forall e :: e in more ==> Silent(e))
      ensures later.runtime.serving == 1 && later.shown.ready == 0
    {
      SilenceKeeps(config, end, more, later);
    }
  }
}
