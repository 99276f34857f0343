/**
 The supervising runtime (internal/app/app.go) as a step machine: `Run` starting its cameras, one `Reload` at a
 time, and every camera's own restart loop, interleaved in any order. Binding may succeed or fail at any time and
 a bridge may stop serving at any time; nothing assumes that the system refuses an address in use.
 */
module Runtimes {
  import opened Arithmetic
  import opened Wrappers
  import Registries
  import StreamNames

  type Camera = Registries.Camera
  type Id = nat

  /** cameraKey */
  function Key(camera: Camera): string {
    if camera.credentials.udid != "" then camera.credentials.udid else camera.streamName
  }

  // ---- restart backoff ----

  const DEFAULT_BACKOFF := 1
  const DEFAULT_BACKOFF_MAX := 60

  datatype Config = Config(backoff: int, backoffMax: int)

  /** What New makes of the configured waits. */
  function Normalised(config: Config): (r: Config)
    ensures 0 < r.backoff <= r.backoffMax
    ensures 0 < config.backoff <= config.backoffMax ==> r == config
    ensures r.backoff == (if config.backoff > 0 then config.backoff else 1)
    ensures r.backoffMax >= r.backoff && (config.backoffMax >= r.backoff ==> r.backoffMax == config.backoffMax)
    ensures config.backoffMax < r.backoff <= 60 ==> r.backoffMax == 60
  {
    var base := if config.backoff <= 0 then DEFAULT_BACKOFF else config.backoff;
    var most := if config.backoffMax < base then DEFAULT_BACKOFF_MAX else config.backoffMax;
    Config(base, if most < base then base else most)
  }

  function NextBackoff(current: int, maximum: int): (next: int)
    ensures 0 < current <= maximum ==> current <= next <= maximum
  {
    if current * 2 > maximum then maximum else current * 2
  }

  /** The wait after `k` failures in a row. */
  function BackoffAfter(config: Config, k: nat): int {
    if k == 0 then config.backoff else NextBackoff(BackoffAfter(config, k - 1), config.backoffMax)
  }

  lemma {:induction false} BackoffDoublesUpToTheMaximum(config: Config, k: nat)
    requires 0 < config.backoff <= config.backoffMax
    ensures BackoffAfter(config, k)
          == if Doubled(config.backoff, k) > config.backoffMax then config.backoffMax else Doubled(config.backoff, k)
  {
    if k == 0 {
    } else {
      BackoffDoublesUpToTheMaximum(config, k - 1);
    }
  }

  // ---- the machine ----

  /**
   Where a restart loop is: Bound holds a listening server it has not begun to serve, Stopped one that has stopped
   serving and is still to be closed, Closed none and is still to look whether it was cancelled, Idle none.
   */
  datatype Stage = Bound | Serving | Stopped | Closed | Idle | Done

  datatype Supervisor = Supervisor(camera: Camera, cancelled: bool, stage: Stage, backoff: int)

  /**
   A Reload under way: what was running and what is wanted when it began, the number of supervisors then, and
   how far it is. `hand` is a camera whose server listens and is not yet added.
   */
  datatype Reloading = Reloading(
    existing: map<string, Id>, goal: map<string, Camera>, mark: nat,
    unvisited: set<string>, stopped: seq<Id>, wanted: map<string, Camera>, hand: Option<Camera>, failed: set<string>)

  /** `boot` is what Run has still to start, `bootHand` the camera it is starting. */
  datatype State = State(
    cameras: map<string, Id>, supervisors: seq<Supervisor>,
    serving: int, total: int, restarts: nat,
    cancelled: bool, stopping: bool,
    boot: seq<Camera>, bootHand: Option<Camera>,
    reload: Option<Reloading>)

  /** The moves of one restart loop. `stable`: it had served long enough for the wait to start over. */
  datatype Move = Serve | ServeReturns(stable: bool) | CloseServer | Look | Restart | RestartFails | Quit

  datatype Event =
    | BootListens | BootFails | BootAdds | Cancel | StopAll
    | Begin(registry: seq<Camera>) | Visit(key: string) | Waited
    | Listens(key: string) | ListenFails(key: string) | Adds | Finish
    | Does(id: Id, move: Move)

  function Init(registry: seq<Camera>): State {
    State(map[], [], 0, 0, 0, false, false, registry, None, None)
  }

  predicate Cancelled(s: State, id: Id)
    requires id < |s.supervisors|
  {
    s.cancelled || s.supervisors[id].cancelled
  }

  predicate MoveEnabled(s: State, id: Id, move: Move) {
    && id < |s.supervisors|
    && match move
       case Serve => s.supervisors[id].stage == Bound
       case ServeReturns(_) => s.supervisors[id].stage == Serving
       case CloseServer => s.supervisors[id].stage == Stopped
       case Look => s.supervisors[id].stage == Closed
       case Restart => s.supervisors[id].stage == Idle
       case RestartFails => s.supervisors[id].stage == Idle
       case Quit => s.supervisors[id].stage == Idle && Cancelled(s, id)
  }

  predicate Enabled(s: State, e: Event) {
    match e
    case BootListens => s.boot != [] && s.bootHand.None?
    case BootFails => s.boot != [] && s.bootHand.None?
    case BootAdds => s.bootHand.Some?
    case Cancel => true
    case StopAll => s.cancelled && s.boot == [] && s.bootHand.None?
    case Begin(registry) => registry != [] && !s.stopping && s.reload.None?
    case Visit(key) => s.reload.Some? && key in s.reload.value.unvisited && key in s.reload.value.existing
        && s.reload.value.existing[key] < |s.supervisors|
    case Waited =>
      && s.reload.Some? && s.reload.value.unvisited == {} && s.reload.value.stopped != []
      && s.reload.value.stopped[0] < |s.supervisors| && s.supervisors[s.reload.value.stopped[0]].stage == Done
    case Listens(key) => CanStart(s) && key in s.reload.value.wanted
    case ListenFails(key) => CanStart(s) && key in s.reload.value.wanted
    case Adds => s.reload.Some? && s.reload.value.hand.Some?
    case Finish => CanStart(s) && s.reload.value.wanted == map[]
    case Does(id, move) => MoveEnabled(s, id, move)
  }

  /** The reload has waited for everything it stopped. */
  predicate CanStart(s: State) {
    s.reload.Some? && s.reload.value.unvisited == {} && s.reload.value.stopped == [] && s.reload.value.hand.None?
  }

  /** add: a new supervisor with a listening server. */
  function WithCamera(config: Config, s: State, camera: Camera): State {
    var cameras := s.cameras[Key(camera) := |s.supervisors|];
    s.(cameras := cameras, total := |cameras|,
        supervisors := s.supervisors + [Supervisor(camera, false, Bound, config.backoff)])
  }

  /** remove: only while it is still this supervisor that the key names. */
  function WithoutCamera(s: State, key: string, id: Id): State {
    var cameras := if key in s.cameras && s.cameras[key] == id then s.cameras - {key} else s.cameras;
    s.(cameras := cameras, total := |cameras|)
  }

  function At(s: State, id: Id, stage: Stage): State
    requires id < |s.supervisors|
  {
    s.(supervisors := s.supervisors[id := s.supervisors[id].(stage := stage)])
  }

  function Waits(s: State, id: Id, backoff: int): State
    requires id < |s.supervisors|
  {
    s.(supervisors := s.supervisors[id := s.supervisors[id].(backoff := backoff)])
  }

  function Moved(config: Config, s: State, id: Id, move: Move): State
    requires MoveEnabled(s, id, move)
  {
    match move
    case Serve => At(s, id, Serving).(serving := s.serving + 1)
    case ServeReturns(stable) =>
      var t := if stable then Waits(s, id, config.backoff) else s;
      At(t, id, Stopped).(serving := s.serving - 1)
    case CloseServer => At(s, id, Closed)
    case Look => if Cancelled(s, id) then At(s, id, Done) else At(s, id, Idle).(restarts := s.restarts + 1)
    case Restart => At(Waits(s, id, NextBackoff(s.supervisors[id].backoff, config.backoffMax)), id, Bound)
    case RestartFails => Waits(s, id, NextBackoff(s.supervisors[id].backoff, config.backoffMax))
    case Quit => At(s, id, Done)
  }

  /** The cameras of a registry by key; a later one replaces an earlier one. */
  function ByKey(registry: seq<Camera>): map<string, Camera> {
    if registry == [] then map[]
    else ByKey(registry[..|registry| - 1])[Key(registry[|registry| - 1]) := registry[|registry| - 1]]
  }

  function Began(s: State, registry: seq<Camera>): State {
    var wanted := ByKey(registry);
    s.(reload := Some(Reloading(s.cameras, wanted, |s.supervisors|, s.cameras.Keys, [], wanted, None, {})))
  }

  function Visited(s: State, key: string): State
    requires Enabled(s, Visit(key))
  {
    var r := s.reload.value;
    var id := r.existing[key];
    if key in r.wanted && s.supervisors[id].camera == r.wanted[key]
    then s.(reload := Some(r.(unvisited := r.unvisited - {key}, wanted := r.wanted - {key})))
    else s.(supervisors := s.supervisors[id := s.supervisors[id].(cancelled := true)],
            reload := Some(r.(unvisited := r.unvisited - {key}, stopped := r.stopped + [id])))
  }

  function Step(config: Config, s: State, e: Event): State
    requires Enabled(s, e)
  {
    match e
    case BootListens => s.(bootHand := Some(s.boot[0]), boot := s.boot[1..])
    case BootFails => s.(boot := [], stopping := true, cancelled := true)
    case BootAdds => WithCamera(config, s, s.bootHand.value).(bootHand := None)
    case Cancel => s.(cancelled := true)
    case StopAll => s.(stopping := true)
    case Begin(registry) => Began(s, registry)
    case Visit(key) => Visited(s, key)
    case Waited =>
      var r := s.reload.value;
      var key := Key(s.supervisors[r.stopped[0]].camera);
      WithoutCamera(s, key, r.stopped[0]).(reload := Some(r.(stopped := r.stopped[1..])))
    case Listens(key) =>
      var r := s.reload.value;
      s.(reload := Some(r.(wanted := r.wanted - {key}, hand := Some(r.wanted[key]))))
    case ListenFails(key) =>
      var r := s.reload.value;
      s.(reload := Some(r.(wanted := r.wanted - {key}, failed := r.failed + {key})))
    case Adds =>
      var r := s.reload.value;
      WithCamera(config, s, r.hand.value).(reload := Some(r.(hand := None)))
    case Finish => s.(reload := None)
    case Does(id, move) => Moved(config, s, id, move)
  }

  /** A registry whose cameras have different keys and different addresses. */
  predicate Fit(registry: seq<Camera>) {
    forall i, j :: 0 <= i < j < |registry| ==>
        Key(registry[i]) != Key(registry[j]) && registry[i].listenAddr != registry[j].listenAddr
  }

  /** Reload gets fit registries, and none before Run has started its own cameras. */
  predicate Orderly(s: State, e: Event) {
    e.Begin? ==> Fit(e.registry) && s.boot == [] && s.bootHand.None?
  }

  predicate Run(config: Config, s: State, events: seq<Event>, end: State)
    decreases |events|
  {
    if events == [] then s == end
    else Enabled(s, events[0]) && Run(config, Step(config, s, events[0]), events[1..], end)
  }

  predicate OrderlyRun(config: Config, s: State, events: seq<Event>, end: State)
    decreases |events|
  {
    if events == [] then s == end
    else
      Enabled(s, events[0]) && Orderly(s, events[0]) && OrderlyRun(config, Step(config, s, events[0]), events[1..], end)
  }

  // ---- what holds at every step ----

  /** Every key names a supervisor of its camera, and a supervisor that is not done is the one its key names. */
  predicate Owned(s: State) {
    && (forall key :: key in s.cameras ==>
        s.cameras[key] < |s.supervisors| && Key(s.supervisors[s.cameras[key]].camera) == key)
    && (forall id :: 0 <= id < |s.supervisors| && s.supervisors[id].stage != Done ==>
          Key(s.supervisors[id].camera) in s.cameras && s.cameras[Key(s.supervisors[id].camera)] == id)
  }

  function AddressOf(s: State, key: string): string
    requires Owned(s) && key in s.cameras
  {
    s.supervisors[s.cameras[key]].camera.listenAddr
  }

  predicate DistinctAddresses(s: State)
    requires Owned(s)
  {
    forall a, b :: a in s.cameras && b in s.cameras && a != b ==> AddressOf(s, a) != AddressOf(s, b)
  }

  /** The camera could be added: no key of the map and none of its addresses is this camera's. */
  predicate Apart(s: State, camera: Camera)
    requires Owned(s)
  {
    Key(camera) !in s.cameras && forall key :: key in s.cameras ==> AddressOf(s, key) != camera.listenAddr
  }

  /** What Run has still to start can be started. */
  predicate BootGood(s: State)
    requires Owned(s)
  {
    && Fit(Starting(s))
    && forall i :: 0 <= i < |Starting(s)| ==> Apart(s, Starting(s)[i])
  }

  function Starting(s: State): seq<Camera> {
    (if s.bootHand.Some? then [s.bootHand.value] else []) + s.boot
  }

  /** The camera at this key is the same before and after the reload. */
  predicate Same(s: State, r: Reloading, key: string) {
    && key in r.existing && key in r.goal && r.existing[key] < |s.supervisors|
    && s.supervisors[r.existing[key]].camera == r.goal[key]
  }

  predicate GoalGood(goal: map<string, Camera>) {
    && (forall key :: key in goal ==> Key(goal[key]) == key)
    && (forall a, b :: a in goal && b in goal && a != b ==> goal[a].listenAddr != goal[b].listenAddr)
  }

  /** What was running when the reload began. */
  predicate ExistingGood(s: State, r: Reloading) {
    && r.mark <= |s.supervisors| && r.unvisited <= r.existing.Keys
    && forall key :: key in r.existing ==> r.existing[key] < r.mark && Key(s.supervisors[r.existing[key]].camera) == key
  }

  /** What is in the map: an old supervisor, or one the reload started. */
  predicate EntryGood(s: State, r: Reloading, key: string) {
    key in s.cameras ==>
      && s.cameras[key] < |s.supervisors|
      && if s.cameras[key] < r.mark then
           && key in r.existing && r.existing[key] == s.cameras[key]
           && (Same(s, r, key) || key in r.unvisited || r.existing[key] in r.stopped)
         else
           && key in r.goal && s.supervisors[s.cameras[key]].camera == r.goal[key] && !Same(s, r, key)
           && r.unvisited == {} && r.stopped == []
  }

  /** Where a wanted camera is: kept, still to be started, in hand, failed, or started. */
  predicate GoalKeyGood(s: State, r: Reloading, key: string) {
    if key !in r.goal then true
    else if Same(s, r, key) then
      && key in s.cameras && s.cameras[key] == r.existing[key] && key !in r.failed
      && (key in r.wanted <==> key in r.unvisited)
    else
      && (key in r.failed ==> key !in r.wanted && key !in s.cameras)
      && (key in r.wanted && r.unvisited == {} && r.stopped == [] ==> key !in s.cameras)
      && (key !in r.failed && key !in r.wanted && r.hand != Some(r.goal[key]) ==>
          key in s.cameras && s.cameras[key] >= r.mark)
  }

  predicate HandGood(s: State, r: Reloading) {
    r.hand.Some? ==>
      && r.unvisited == {} && r.stopped == []
      && var key := Key(r.hand.value);
         key in r.goal && r.goal[key] == r.hand.value && !Same(s, r, key) && key !in r.wanted && key !in r.failed
             && key !in s.cameras
  }

  predicate StoppedGood(s: State, r: Reloading) {
    && (r.unvisited != {} || r.stopped != [] ==> r.failed == {})
    && (forall i :: 0 <= i < |r.stopped| ==>
        r.stopped[i] < r.mark <= |s.supervisors| && s.supervisors[r.stopped[i]].cancelled)
    && (forall i :: 0 <= i < |r.stopped| ==>
          var key := Key(s.supervisors[r.stopped[i]].camera);
          key in r.existing && r.existing[key] == r.stopped[i] && key !in r.unvisited && !Same(s, r, key))
  }

  predicate WantedGood(r: Reloading) {
    && r.failed <= r.goal.Keys
    && forall key :: key in r.wanted ==> key in r.goal && r.wanted[key] == r.goal[key]
  }

  /** What holds of a reload beside its keys. */
  predicate FrameGood(s: State, r: Reloading) {
    GoalGood(r.goal) && ExistingGood(s, r) && HandGood(s, r) && StoppedGood(s, r) && WantedGood(r)
  }

  ghost predicate ReloadGood(s: State, r: Reloading) {
    && s.boot == [] && s.bootHand.None? && FrameGood(s, r)
    && forall key :: EntryGood(s, r, key) && GoalKeyGood(s, r, key)
  }

  /** What the map promises, whatever the reload. */
  predicate MapGood(s: State) { Owned(s) && DistinctAddresses(s) && BootGood(s) }

  ghost predicate Good(s: State) {
    MapGood(s) && (s.reload.Some? ==> ReloadGood(s, s.reload.value))
  }

  /** The table holds cameras of the registry under their keys, and one for every key. */
  predicate Tabled(registry: seq<Camera>, table: map<string, Camera>) {
    && (forall key :: key in table ==> table[key] in registry && Key(table[key]) == key)
    && (forall camera :: camera in registry ==> Key(camera) in table)
  }

  lemma {:induction false} ByKeyTabled(registry: seq<Camera>)
    ensures Tabled(registry, ByKey(registry))
  {
    hide Key;
    if registry == [] {
    } else {
      var rest, last := registry[..|registry| - 1], registry[|registry| - 1];
      ByKeyTabled(rest);
      assert registry == rest + [last];
    }
  }

  lemma FitGoal(registry: seq<Camera>)
    requires Fit(registry)
    ensures GoalGood(ByKey(registry))
  {
    hide Key;
    ByKeyTabled(registry);
    var goal := ByKey(registry);
    forall a, b | a in goal && b in goal && a != b ensures goal[a].listenAddr != goal[b].listenAddr {
      var i :| 0 <= i < |registry| && registry[i] == goal[a];
      var j :| 0 <= j < |registry| && registry[j] == goal[b];
      assert i < j || j < i;
    }
  }

  lemma InitIsGood(registry: seq<Camera>)
    requires Fit(registry)
    ensures Good(Init(registry))
  {
    hide Fit, Key;
    assert Starting(Init(registry)) == registry;
  }

  /** Nothing about the cameras changed; supervisors may only have got cancelled or done. */
  predicate Shaped(s: State, t: State) {
    && t.cameras == s.cameras && |t.supervisors| == |s.supervisors|
    && t.boot == s.boot && t.bootHand == s.bootHand && t.reload == s.reload
    && forall id :: 0 <= id < |s.supervisors| ==>
         && t.supervisors[id].camera == s.supervisors[id].camera
         && (s.supervisors[id].cancelled ==> t.supervisors[id].cancelled)
         && (s.supervisors[id].stage == Done ==> t.supervisors[id].stage == Done)
  }

  lemma ShapedIsGood(s: State, t: State)
    requires Good(s) && Shaped(s, t)
    ensures Good(t)
  {
    ShapedMap(s, t);
    if s.reload.Some? { ShapedReload(s, t, s.reload.value); }
  }

  /** The same map of the same cameras. */
  predicate SameMap(s: State, t: State) {
    && t.cameras == s.cameras && |t.supervisors| == |s.supervisors|
    && t.boot == s.boot && t.bootHand == s.bootHand
    && forall id :: 0 <= id < |s.supervisors| ==>
         t.supervisors[id].camera == s.supervisors[id].camera
             && (s.supervisors[id].stage == Done ==> t.supervisors[id].stage == Done)
  }

  lemma ShapedMap(s: State, t: State)
    requires MapGood(s) && SameMap(s, t)
    ensures MapGood(t)
  {
    hide Key, Fit;
    assert Owned(t);
    assert forall key :: key in s.cameras ==> AddressOf(t, key) == AddressOf(s, key);
    assert Starting(t) == Starting(s);
  }

  lemma ShapedReload(s: State, t: State, r: Reloading)
    requires Shaped(s, t) && ReloadGood(s, r)
    ensures ReloadGood(t, r)
  {
    hide Key, GoalGood, WantedGood;
    assert FrameGood(t, r);
    forall key ensures EntryGood(t, r, key) && GoalKeyGood(t, r, key) {
      assert EntryGood(s, r, key) && GoalKeyGood(s, r, key);
    }
  }

  lemma MoveIsShaped(config: Config, s: State, id: Id, move: Move)
    requires MoveEnabled(s, id, move)
    ensures Shaped(s, Moved(config, s, id, move))
  {
  }

  /** Adding a camera that is apart. */
  lemma AddedIsOwned(config: Config, s: State, camera: Camera)
    requires Owned(s) && DistinctAddresses(s) && Apart(s, camera)
    ensures var t := WithCamera(config, s, camera);
            && Owned(t) && DistinctAddresses(t)
            && t.cameras == s.cameras[Key(camera) := |s.supervisors|]
            && (forall key :: key in s.cameras ==> AddressOf(t, key) == AddressOf(s, key))
            && AddressOf(t, Key(camera)) == camera.listenAddr
  {
    hide Key;
  }

  lemma BootListensGood(config: Config, s: State)
    requires Good(s) && Enabled(s, BootListens)
    ensures Good(Step(config, s, BootListens))
  {
    hide Key, Fit, FrameGood;
    var t := Step(config, s, BootListens);
    assert Owned(t);
    assert forall key :: key in s.cameras ==> AddressOf(t, key) == AddressOf(s, key);
    assert Starting(t) == Starting(s);
  }

  lemma BootFailsGood(config: Config, s: State)
    requires Good(s) && Enabled(s, BootFails)
    ensures Good(Step(config, s, BootFails))
  {
    hide Key, FrameGood;
    var t := Step(config, s, BootFails);
    assert Owned(t);
    assert forall key :: key in s.cameras ==> AddressOf(t, key) == AddressOf(s, key);
    assert Starting(t) == [];
  }

  lemma BootAddsGood(config: Config, s: State)
    requires Good(s) && Enabled(s, BootAdds)
    ensures Good(Step(config, s, BootAdds))
  {
    hide Key, FrameGood;
    var camera := s.bootHand.value;
    var added := WithCamera(config, s, camera);
    var t := Step(config, s, BootAdds);
    assert Starting(s)[0] == camera && Starting(t) == Starting(s)[1..];
    AddedIsOwned(config, s, camera);
    assert Owned(t);
    assert forall key :: key in added.cameras ==> AddressOf(t, key) == AddressOf(added, key);
    forall i | 0 <= i < |Starting(t)| ensures Apart(t, Starting(t)[i]) {
      assert Apart(s, Starting(s)[i + 1]);
      assert Starting(t)[i] == Starting(s)[i + 1];
    }
  }

  lemma BeginGood(config: Config, s: State, registry: seq<Camera>)
    requires Good(s) && Enabled(s, Begin(registry)) && Orderly(s, Begin(registry))
    ensures Good(Step(config, s, Begin(registry)))
  {
    hide Key, Fit, GoalGood, DistinctAddresses;
    FitGoal(registry);
    var t := Began(s, registry);
    ShapedMap(s, t);
    hide ByKey;
    assert ReloadGood(t, t.reload.value);
  }

  /** While something is still to be stopped, everything running was running before. */
  lemma OnlyOldRun(s: State, r: Reloading, key: string)
    requires EntryGood(s, r, key) && key in s.cameras && (r.unvisited != {} || r.stopped != [])
    ensures s.cameras[key] < r.mark && key in r.existing && r.existing[key] == s.cameras[key]
    ensures Same(s, r, key) || key in r.unvisited || r.existing[key] in r.stopped
  {
  }

  /** Once everything is stopped, what runs is the wanted camera of its key. */
  lemma OnlyWantedRun(s: State, r: Reloading, key: string)
    requires EntryGood(s, r, key) && key in s.cameras && r.unvisited == {} && r.stopped == []
    ensures key in r.goal && s.supervisors[s.cameras[key]].camera == r.goal[key]
  {
  }

  predicate Keeps(s: State, key: string)
    requires Enabled(s, Visit(key))
  {
    key in s.reload.value.wanted && s.supervisors[s.reload.value.existing[key]].camera == s.reload.value.wanted[key]
  }

  lemma KeepsSame(s: State, key: string)
    requires Enabled(s, Visit(key)) && FrameGood(s, s.reload.value) && GoalKeyGood(s, s.reload.value, key)
    ensures Keeps(s, key) <==> Same(s, s.reload.value, key)
  {
  }

  lemma VisitKey(s: State, key: string, k: string)
    requires Enabled(s, Visit(key)) && FrameGood(s, s.reload.value) && (Keeps(s, key) <==> Same(s, s.reload.value, key))
    requires EntryGood(s, s.reload.value, k) && GoalKeyGood(s, s.reload.value, k)
    ensures EntryGood(Visited(s, key), Visited(s, key).reload.value, k)
    ensures GoalKeyGood(Visited(s, key), Visited(s, key).reload.value, k)
  {
    hide HandGood, StoppedGood, GoalGood, Key;
    var r := s.reload.value;
    var t := Visited(s, key);
    assert Same(t, t.reload.value, k) == Same(s, r, k);
    if k in s.cameras { OnlyOldRun(s, r, k); }
  }

  lemma VisitFrame(s: State, key: string)
    requires Enabled(s, Visit(key)) && FrameGood(s, s.reload.value) && (Keeps(s, key) <==> Same(s, s.reload.value, key))
    ensures FrameGood(Visited(s, key), Visited(s, key).reload.value)
  {
    hide Key, GoalGood, Same, Keeps;
    var t := Visited(s, key);
    VisitStopped(s, key);
    hide StoppedGood;
    assert ExistingGood(t, t.reload.value) && HandGood(t, t.reload.value) && WantedGood(t.reload.value);
  }

  lemma VisitStopped(s: State, key: string)
    requires Enabled(s, Visit(key)) && FrameGood(s, s.reload.value) && (Keeps(s, key) <==> Same(s, s.reload.value, key))
    ensures StoppedGood(Visited(s, key), Visited(s, key).reload.value)
  {
    hide Key, GoalGood, HandGood, WantedGood;
    var r := s.reload.value;
    var t := Visited(s, key);
    assert forall k :: Same(t, t.reload.value, k) == Same(s, r, k);
    hide Same;
    if Keeps(s, key) {
      assert t.reload.value.stopped == r.stopped && t.supervisors == s.supervisors;
    } else {
      assert t.reload.value.stopped == r.stopped + [r.existing[key]];
    }
  }

  lemma VisitGood(config: Config, s: State, key: string)
    requires Good(s) && Enabled(s, Visit(key))
    ensures Good(Step(config, s, Visit(key)))
  {
    hide EntryGood, GoalKeyGood, MapGood, FrameGood, Keeps, Same;
    KeepsSame(s, key);
    var t := Visited(s, key);
    VisitFrame(s, key);
    assert SameMap(s, t);
    hide Visited;
    ShapedMap(s, t);
    forall k ensures EntryGood(t, t.reload.value, k) && GoalKeyGood(t, t.reload.value, k) {
      VisitKey(s, key, k);
    }
  }

  lemma WaitedOwned(s: State, key: string, id: Id)
    requires Owned(s) && id < |s.supervisors| && s.supervisors[id].stage == Done
    ensures var t := WithoutCamera(s, key, id);
            && Owned(t) && t.cameras.Keys <= s.cameras.Keys
            && forall other :: other in t.cameras ==>
                t.cameras[other] == s.cameras[other] && AddressOf(t, other) == AddressOf(s, other)
  {
    hide Key;
  }

  lemma FewerMap(s: State, t: State)
    requires MapGood(s) && Owned(t) && t.cameras.Keys <= s.cameras.Keys && t.boot == s.boot && t.bootHand == s.bootHand
    requires forall key :: key in t.cameras ==> AddressOf(t, key) == AddressOf(s, key)
    ensures MapGood(t)
  {
    hide Key, Fit, Owned, AddressOf;
    assert Starting(t) == Starting(s);
  }

  lemma WaitedMap(config: Config, s: State)
    requires MapGood(s) && Enabled(s, Waited)
    ensures MapGood(Step(config, s, Waited))
  {
    hide Key, Fit, Owned, AddressOf, BootGood, DistinctAddresses;
    var id := s.reload.value.stopped[0];
    var key := Key(s.supervisors[id].camera);
    var removed := WithoutCamera(s, key, id);
    WaitedOwned(s, key, id);
    FewerMap(s, removed);
    hide MapGood;
    ShapedMap(removed, Step(config, s, Waited));
  }

  lemma WaitedRemoves(config: Config, s: State)
    requires Enabled(s, Waited) && StoppedGood(s, s.reload.value)
    requires EntryGood(s, s.reload.value, Key(s.supervisors[s.reload.value.stopped[0]].camera))
    ensures Step(config, s, Waited).cameras == s.cameras - {Key(s.supervisors[s.reload.value.stopped[0]].camera)}
  {
    hide Key;
    var key := Key(s.supervisors[s.reload.value.stopped[0]].camera);
    if key in s.cameras { OnlyOldRun(s, s.reload.value, key); }
  }

  lemma WaitedKey(config: Config, s: State, k: string)
    requires Enabled(s, Waited) && FrameGood(s, s.reload.value)
    requires Step(config, s, Waited).cameras == s.cameras - {Key(s.supervisors[s.reload.value.stopped[0]].camera)}
    requires EntryGood(s, s.reload.value, k) && GoalKeyGood(s, s.reload.value, k)
    ensures EntryGood(Step(config, s, Waited), Step(config, s, Waited).reload.value, k)
    ensures GoalKeyGood(Step(config, s, Waited), Step(config, s, Waited).reload.value, k)
  {
    hide Key, GoalGood, WantedGood, HandGood;
    var r := s.reload.value;
    var t := Step(config, s, Waited);
    hide Step;
    var key := Key(s.supervisors[r.stopped[0]].camera);
    assert key in r.existing && r.existing[key] == r.stopped[0] && !Same(s, r, key);
    assert Same(t, t.reload.value, k) == Same(s, r, k);
    if k in s.cameras { OnlyOldRun(s, r, k); }
  }

  lemma WaitedGood(config: Config, s: State)
    requires Good(s) && Enabled(s, Waited)
    ensures Good(Step(config, s, Waited))
  {
    hide EntryGood, GoalKeyGood, MapGood, Key, GoalGood;
    WaitedMap(config, s);
    WaitedRemoves(config, s);
    var t := Step(config, s, Waited);
    assert FrameGood(t, t.reload.value);
    forall k ensures EntryGood(t, t.reload.value, k) && GoalKeyGood(t, t.reload.value, k) {
      WaitedKey(config, s, k);
    }
  }

  lemma StartGood(config: Config, s: State, key: string, e: Event)
    requires Good(s) && Enabled(s, e) && (e == Listens(key) || e == ListenFails(key))
    ensures Good(Step(config, s, e))
  {
    hide MapGood, EntryGood, Key, Same;
    var t := Step(config, s, e);
    ShapedMap(s, t);
    assert ReloadGood(t, t.reload.value) by {
      StartFrame(config, s, key, e);
      forall k ensures EntryGood(t, t.reload.value, k) && GoalKeyGood(t, t.reload.value, k) {
        StartKey(config, s, key, e, k);
      }
    }
  }

  lemma StartFrame(config: Config, s: State, key: string, e: Event)
    requires Enabled(s, e) && (e == Listens(key) || e == ListenFails(key))
    requires FrameGood(s, s.reload.value) && GoalKeyGood(s, s.reload.value, key)
    ensures FrameGood(Step(config, s, e), Step(config, s, e).reload.value)
  {
    hide Key;
  }

  lemma StartKey(config: Config, s: State, key: string, e: Event, k: string)
    requires Enabled(s, e) && (e == Listens(key) || e == ListenFails(key))
    requires FrameGood(s, s.reload.value) && EntryGood(s, s.reload.value, k) && GoalKeyGood(s, s.reload.value, k)
    ensures EntryGood(Step(config, s, e), Step(config, s, e).reload.value, k)
    ensures GoalKeyGood(Step(config, s, e), Step(config, s, e).reload.value, k)
  {
    hide Key, ExistingGood, HandGood, StoppedGood;
    var t := Step(config, s, e);
    assert Same(t, t.reload.value, k) == Same(s, s.reload.value, k);
  }

  lemma HandIsApart(s: State)
    requires Good(s) && Enabled(s, Adds)
    ensures Apart(s, s.reload.value.hand.value)
  {
    hide Key;
    var r := s.reload.value;
    forall key | key in s.cameras ensures AddressOf(s, key) != r.hand.value.listenAddr {
      OnlyWantedRun(s, r, key);
    }
  }

  lemma AddsMap(config: Config, s: State)
    requires Good(s) && Enabled(s, Adds)
    ensures MapGood(Step(config, s, Adds))
  {
    hide Key, EntryGood, GoalKeyGood, FrameGood;
    var t := Step(config, s, Adds);
    var added := WithCamera(config, s, s.reload.value.hand.value);
    HandIsApart(s);
    AddedIsOwned(config, s, s.reload.value.hand.value);
    assert Starting(added) == [];
    ShapedMap(added, t);
  }

  lemma AddsFrame(config: Config, s: State)
    requires Enabled(s, Adds) && FrameGood(s, s.reload.value)
    ensures FrameGood(Step(config, s, Adds), Step(config, s, Adds).reload.value)
  {
    hide Key, GoalGood;
  }

  lemma AddsKey(config: Config, s: State, k: string)
    requires Enabled(s, Adds) && FrameGood(s, s.reload.value)
    requires EntryGood(s, s.reload.value, k) && GoalKeyGood(s, s.reload.value, k)
    ensures EntryGood(Step(config, s, Adds), Step(config, s, Adds).reload.value, k)
    ensures GoalKeyGood(Step(config, s, Adds), Step(config, s, Adds).reload.value, k)
  {
    hide Key, StoppedGood;
    var t := Step(config, s, Adds);
    var r := s.reload.value;
    assert k in r.goal ==> Key(r.goal[k]) == k;
    assert Same(t, t.reload.value, k) == Same(s, r, k);
  }

  lemma AddsGood(config: Config, s: State)
    requires Good(s) && Enabled(s, Adds)
    ensures Good(Step(config, s, Adds))
  {
    hide EntryGood, GoalKeyGood, MapGood, FrameGood;
    AddsMap(config, s);
    AddsFrame(config, s);
    var t := Step(config, s, Adds);
    forall k ensures EntryGood(t, t.reload.value, k) && GoalKeyGood(t, t.reload.value, k) {
      AddsKey(config, s, k);
    }
  }

  lemma StepKeepsGood(config: Config, s: State, e: Event)
    requires Good(s) && Enabled(s, e) && Orderly(s, e)
    ensures Good(Step(config, s, e))
  {
    hide MapGood, ReloadGood;
    match e
    case BootListens => BootListensGood(config, s);
    case BootFails => BootFailsGood(config, s);
    case BootAdds => BootAddsGood(config, s);
    case Cancel => ShapedIsGood(s, Step(config, s, e));
    case StopAll => ShapedIsGood(s, Step(config, s, e));
    case Begin(registry) => BeginGood(config, s, registry);
    case Visit(key) => VisitGood(config, s, key);
    case Waited => WaitedGood(config, s);
    case Listens(key) => StartGood(config, s, key, e);
    case ListenFails(key) => StartGood(config, s, key, e);
    case Adds => AddsGood(config, s);
    case Finish => ShapedMap(s, Step(config, s, e));
    case Does(id, move) =>
      MoveIsShaped(config, s, id, move);
      ShapedIsGood(s, Step(config, s, e));
  }

  // ---- no two servers on one address, no key with two restart loops ----

  /**
   No two restart loops that are not done have the same key or the same address, and what is being started has
   neither the key nor the address of any of them. A loop that is not done may hold a listening server.
   */
  predicate NoClash(s: State) {
    && (forall i, j ::
          0 <= i < j < |s.supervisors| && s.supervisors[i].stage != Done && s.supervisors[j].stage != Done ==>
          && Key(s.supervisors[i].camera) != Key(s.supervisors[j].camera)
          && s.supervisors[i].camera.listenAddr != s.supervisors[j].camera.listenAddr)
    && (s.bootHand.Some? ==> AwayFrom(s, s.bootHand.value))
    && (s.reload.Some? && s.reload.value.hand.Some? ==> AwayFrom(s, s.reload.value.hand.value) && s.bootHand.None?)
  }

  predicate AwayFrom(s: State, camera: Camera) {
    forall i :: 0 <= i < |s.supervisors| && s.supervisors[i].stage != Done ==>
      Key(s.supervisors[i].camera) != Key(camera) && s.supervisors[i].camera.listenAddr != camera.listenAddr
  }

  lemma ApartIsAway(s: State, camera: Camera)
    requires Owned(s) && Apart(s, camera)
    ensures AwayFrom(s, camera)
  {
    hide Key;
    forall i | 0 <= i < |s.supervisors| && s.supervisors[i].stage != Done
      ensures Key(s.supervisors[i].camera) != Key(camera) && s.supervisors[i].camera.listenAddr != camera.listenAddr
    {
      assert AddressOf(s, Key(s.supervisors[i].camera)) == s.supervisors[i].camera.listenAddr;
    }
  }

  lemma GoodHasNoClash(s: State)
    requires Good(s)
    ensures NoClash(s)
  {
    hide Key, FrameGood, EntryGood, GoalKeyGood;
    forall i, j | 0 <= i < j < |s.supervisors| && s.supervisors[i].stage != Done && s.supervisors[j].stage != Done
      ensures Key(s.supervisors[i].camera) != Key(s.supervisors[j].camera)
      ensures s.supervisors[i].camera.listenAddr != s.supervisors[j].camera.listenAddr
    {
      assert AddressOf(s, Key(s.supervisors[i].camera)) == s.supervisors[i].camera.listenAddr;
      assert AddressOf(s, Key(s.supervisors[j].camera)) == s.supervisors[j].camera.listenAddr;
    }
    if s.bootHand.Some? {
      assert Starting(s)[0] == s.bootHand.value;
      ApartIsAway(s, s.bootHand.value);
    }
    if s.reload.Some? && s.reload.value.hand.Some? {
      HandIsApart(s);
      ApartIsAway(s, s.reload.value.hand.value);
    }
  }

  lemma {:induction false} RunKeepsGood(config: Config, s: State, events: seq<Event>, end: State)
    requires Good(s) && OrderlyRun(config, s, events, end)
    ensures Good(end)
    decreases |events|
  {
    hide Good, Step, Enabled;
    if events == [] {
    } else {
      StepKeepsGood(config, s, events[0]);
      RunKeepsGood(config, Step(config, s, events[0]), events[1..], end);
    }
  }

  /** The safety of every run, at every step of every reload. */
  lemma NothingClashes(config: Config, registry: seq<Camera>, events: seq<Event>, end: State)
    requires Fit(registry) && OrderlyRun(config, Init(registry), events, end)
    ensures NoClash(end)
  {
    hide Good;
    InitIsGood(registry);
    RunKeepsGood(config, Init(registry), events, end);
    GoodHasNoClash(end);
  }

  lemma RunBack(config: Config, s: State, e: Event, events: seq<Event>, end: State)
    requires Enabled(s, e) && Run(config, Step(config, s, e), events, end)
    ensures Run(config, s, [e] + events, end)
  {
    assert ([e] + events)[0] == e && ([e] + events)[1..] == events;
  }

  lemma RunNothing(config: Config, s: State)
    ensures Run(config, s, [], s)
  {
  }

  lemma {:induction false} RunJoins(
      config: Config, s: State, events: seq<Event>, mid: State, more: seq<Event>, end: State)
    requires Run(config, s, events, mid) && Run(config, mid, more, end)
    ensures Run(config, s, events + more, end)
    decreases |events|
  {
    hide Enabled, Step;
    if events == [] {
      assert events + more == more;
    } else {
      assert (events + more)[0] == events[0] && (events + more)[1..] == events[1..] + more;
      RunJoins(config, Step(config, s, events[0]), events[1..], mid, more, end);
    }
  }

  // ---- when a reload may begin ----

  /** Run has started its cameras. */
  predicate Booted(s: State) { s.boot == [] && s.bootHand.None? }

  /** Every registry of these reloads is fit. */
  predicate FitReloads(events: seq<Event>) { forall e :: e in events && e.Begin? ==> Fit(e.registry) }

  lemma StaysBooted(config: Config, s: State, e: Event)
    requires Enabled(s, e) && Booted(s)
    ensures Booted(Step(config, s, e))
  {
  }

  lemma {:induction false} BootedIsOrderly(config: Config, s: State, events: seq<Event>, end: State)
    requires Booted(s) && FitReloads(events) && Run(config, s, events, end)
    ensures OrderlyRun(config, s, events, end)
    decreases |events|
  {
    hide Enabled, Step, Booted, Fit;
    if events == [] {
    } else {
      assert events[0] in events;
      StaysBooted(config, s, events[0]);
      BootedIsOrderly(config, Step(config, s, events[0]), events[1..], end);
      assert Orderly(s, events[0]) by { assert Booted(s); BootedMeans(s); }
    }
  }

  lemma BootedMeans(s: State)
    requires Booted(s)
    ensures s.boot == [] && s.bootHand.None?
  {
  }

  /** The keys of the map in some order. */
  lemma ListKeys(keys: set<string>) returns (order: seq<string>)
    ensures (forall key :: key in order <==> key in keys)
    ensures forall i, j :: 0 <= i < j < |order| ==> order[i] != order[j]
    decreases |keys|
  {
    if keys == {} {
      order := [];
    } else {
      var key :| key in keys;
      var rest := ListKeys(keys - {key});
      order := [key] + rest;
    }
  }

  /** The running cameras, in that order. */
  function Running(s: State, order: seq<string>): (cameras: seq<Camera>)
    requires Owned(s) && forall key :: key in order ==> key in s.cameras
    ensures |cameras| == |order|
    ensures forall i :: 0 <= i < |order| ==> cameras[i] == s.supervisors[s.cameras[order[i]]].camera
  {
    if order == [] then [] else [s.supervisors[s.cameras[order[0]]].camera] + Running(s, order[1..])
  }

  /** An address longer than any of these cameras has. */
  function Unused(cameras: seq<Camera>): (address: string)
    ensures forall camera :: camera in cameras ==> |camera.listenAddr| < |address|
  {
    if cameras == [] then "x" else cameras[0].listenAddr + Unused(cameras[1..])
  }

  /** The camera on an address that is neither its own nor one of the others'. */
  function MovedCamera(camera: Camera, others: seq<Camera>): Camera {
    camera.(listenAddr := Unused(others + [camera]))
  }

  lemma RunningIs(s: State, order: seq<string>, i: nat)
    requires Owned(s) && (forall key :: key in order ==> key in s.cameras) && i < |order|
    ensures order[i] in s.cameras && Key(Running(s, order)[i]) == order[i]
    ensures Running(s, order)[i].listenAddr == AddressOf(s, order[i])
  {
    hide Key;
    assert order[i] in order;
  }

  lemma RunningDiffer(s: State, order: seq<string>, i: nat, j: nat)
    requires Owned(s) && DistinctAddresses(s) && (forall key :: key in order ==> key in s.cameras)
    requires i < |order| && j < |order| && order[i] != order[j]
    ensures Key(Running(s, order)[i]) != Key(Running(s, order)[j])
    ensures Running(s, order)[i].listenAddr != Running(s, order)[j].listenAddr
  {
    RunningIs(s, order, i);
    RunningIs(s, order, j);
    hide Owned, Key, AddressOf, Running;
  }

  lemma RunningIsFit(s: State, order: seq<string>)
    requires Owned(s) && DistinctAddresses(s) && forall key :: key in order ==> key in s.cameras
    requires forall i, j :: 0 <= i < j < |order| ==> order[i] != order[j]
    ensures Fit(Running(s, order))
  {
    hide Key, Owned, DistinctAddresses, Running;
    var running := Running(s, order);
    forall i, j | 0 <= i < j < |running|
      ensures Key(running[i]) != Key(running[j]) && running[i].listenAddr != running[j].listenAddr
    {
      RunningDiffer(s, order, i, j);
    }
  }

  lemma MovedIsElsewhere(camera: Camera, others: seq<Camera>)
    ensures var moved := MovedCamera(camera, others);
            && Key(moved) == Key(camera) && moved.listenAddr != camera.listenAddr
            && forall i :: 0 <= i < |others| ==> others[i].listenAddr != moved.listenAddr
  {
    hide Unused;
    assert camera in others + [camera];
    forall i | 0 <= i < |others| ensures |others[i].listenAddr| < |Unused(others + [camera])| {
      assert others[i] in others + [camera];
    }
  }

  /** A camera that is apart from those running stays so on an address that is longer than all theirs. */
  lemma MovedIsFit(s: State, order: seq<string>, camera: Camera)
    requires Owned(s) && DistinctAddresses(s) && Key(camera) !in s.cameras
    requires forall key :: key in order <==> key in s.cameras
    requires forall i, j :: 0 <= i < j < |order| ==> order[i] != order[j]
    ensures var moved := MovedCamera(camera, Running(s, order));
            && Fit(Running(s, order) + [moved]) && Key(moved) == Key(camera) && moved.listenAddr != camera.listenAddr
  {
    hide Key, Owned, Running, DistinctAddresses, MovedCamera, Fit;
    var running := Running(s, order);
    var moved := MovedCamera(camera, running);
    MovedIsElsewhere(camera, running);
    RunningIsFit(s, order);
    forall i | 0 <= i < |running| ensures Key(running[i]) != Key(moved) { RunningIs(s, order, i); }
    FitMore(running, moved);
  }

  lemma FitMore(registry: seq<Camera>, camera: Camera)
    requires Fit(registry)
    requires forall i :: 0 <= i < |registry| ==>
          Key(registry[i]) != Key(camera) && registry[i].listenAddr != camera.listenAddr
    ensures Fit(registry + [camera])
  {
    hide Key;
  }

  /** Visiting cameras that all stay the same stops nothing. */
  lemma {:induction false} VisitAllKept(config: Config, s: State) returns (events: seq<Event>, end: State)
    requires s.reload.Some? && s.reload.value.unvisited <= s.reload.value.existing.Keys
    requires forall key :: key in s.reload.value.unvisited ==> Visitable(s, key)
    ensures Run(config, s, events, end) && FitReloads(events)
    ensures var r := s.reload.value; end == s.(reload := Some(r.(unvisited := {}, wanted := r.wanted - r.unvisited)))
    decreases |s.reload.value.unvisited|
  {
    var r := s.reload.value;
    if r.unvisited == {} {
      events, end := [], s;
      assert r.wanted - r.unvisited == r.wanted;
    } else {
      var key :| key in r.unvisited;
      assert Visitable(s, key);
      var next := Step(config, s, Visit(key));
      assert next == s.(reload := Some(r.(unvisited := r.unvisited - {key}, wanted := r.wanted - {key})));
      forall other | other in next.reload.value.unvisited ensures Visitable(next, other) { assert Visitable(s, other); }
      hide Step, Run;
      var rest;
      rest, end := VisitAllKept(config, next);
      events := [Visit(key)] + rest;
      RunBack(config, s, Visit(key), rest, end);
      assert r.wanted - {key} - (r.unvisited - {key}) == r.wanted - r.unvisited;
    }
  }

  predicate Visitable(s: State, key: string)
    requires s.reload.Some?
  {
    var r := s.reload.value;
    key in r.existing && r.existing[key] < |s.supervisors| && key in r.wanted
        && s.supervisors[r.existing[key]].camera == r.wanted[key]
  }

  /** A fit registry is found again in its table. */
  lemma FitIsTabled(registry: seq<Camera>, i: nat)
    requires Fit(registry) && i < |registry|
    ensures Key(registry[i]) in ByKey(registry) && ByKey(registry)[Key(registry[i])] == registry[i]
  {
    hide Key;
    ByKeyTabled(registry);
    var found := ByKey(registry)[Key(registry[i])];
    assert registry[i] in registry;
    var j :| 0 <= j < |registry| && registry[j] == found;
    assert j == i || j < i || i < j;
  }

  /** A reload that keeps what runs and wants one camera more finds all its cameras the same. */
  lemma BeganWithOneMore(s: State, order: seq<string>, camera: Camera)
    requires Owned(s) && Key(camera) !in s.cameras
    requires forall key :: key in order <==> key in s.cameras
    requires Fit(Running(s, order) + [camera])
    ensures var began := Began(s, Running(s, order) + [camera]);
            && (forall key :: key in s.cameras ==> Visitable(began, key))
            && Key(camera) in began.reload.value.wanted && began.reload.value.wanted[Key(camera)] == camera
  {
    hide ByKey, Fit;
    var registry := Running(s, order) + [camera];
    var began := Began(s, registry);
    forall key | key in s.cameras ensures Visitable(began, key) {
      var i :| 0 <= i < |order| && order[i] == key;
      FitIsTabled(registry, i);
      assert registry[i] == s.supervisors[s.cameras[key]].camera && Key(registry[i]) == key;
    }
    FitIsTabled(registry, |order|);
    assert registry[|order|] == camera;
  }

  /** With everything visited and nothing to wait for, the wanted camera is started. */
  lemma StartsOne(config: Config, s: State, camera: Camera) returns (events: seq<Event>, end: State)
    requires CanStart(s) && Key(camera) in s.reload.value.wanted && s.reload.value.wanted[Key(camera)] == camera
    ensures Run(config, s, events, end) && FitReloads(events)
    ensures end.boot == s.boot && end.bootHand == s.bootHand
    ensures end.supervisors == s.supervisors + [Supervisor(camera, false, Bound, config.backoff)]
  {
    hide Key;
    var key := Key(camera);
    var listening := Step(config, s, Listens(key));
    end := Step(config, listening, Adds);
    RunNothing(config, end);
    RunBack(config, listening, Adds, [], end);
    RunBack(config, s, Listens(key), [Adds] + [], end);
    events := [Listens(key)] + ([Adds] + []);
  }

  lemma Begins(config: Config, s: State, registry: seq<Camera>)
    requires registry != [] && s.reload.None? && !s.stopping
    ensures Enabled(s, Begin(registry)) && Step(config, s, Begin(registry)) == Began(s, registry)
  {
  }

  lemma AddsOne(config: Config, s: State, order: seq<string>, camera: Camera) returns (events: seq<Event>, end: State)
    requires Owned(s) && s.reload.None? && !s.stopping && Key(camera) !in s.cameras
    requires forall key :: key in order <==> key in s.cameras
    requires Fit(Running(s, order) + [camera])
    ensures Run(config, s, [Begin(Running(s, order) + [camera])] + events, end) && FitReloads(events)
    ensures end.boot == s.boot && end.bootHand == s.bootHand
    ensures end.supervisors == s.supervisors + [Supervisor(camera, false, Bound, config.backoff)]
  {
    hide Run, Fit, Visitable, ByKey, Key, Owned;
    var registry := Running(s, order) + [camera];
    var began := Began(s, registry);
    BeganWithOneMore(s, order, camera);
    Begins(config, s, registry);
    hide Step, Enabled;
    var visits, visited := VisitAllKept(config, began);
    var starts;
    starts, end := StartsOne(config, visited, camera);
    RunJoins(config, began, visits, visited, starts, end);
    events := visits + starts;
    RunBack(config, s, Begin(registry), events, end);
  }

  /** Run starts the camera it is about to start. */
  lemma BootsOne(config: Config, s: State) returns (events: seq<Event>, end: State)
    requires Starting(s) != []
    ensures Run(config, s, events, end) && FitReloads(events)
    ensures end.supervisors == s.supervisors + [Supervisor(Starting(s)[0], false, Bound, config.backoff)]
  {
    var held := if s.bootHand.Some? then s else Step(config, s, BootListens);
    end := Step(config, held, BootAdds);
    RunNothing(config, end);
    RunBack(config, held, BootAdds, [], end);
    if s.bootHand.Some? {
      events := [BootAdds] + [];
    } else {
      RunBack(config, s, BootListens, [BootAdds] + [], end);
      events := [BootListens] + ([BootAdds] + []);
    }
  }

  lemma StartingIsApart(s: State)
    requires Good(s) && Starting(s) != []
    ensures Owned(s) && DistinctAddresses(s) && Apart(s, Starting(s)[0])
  {
    hide Fit, ReloadGood;
  }

  /** A reload that keeps what runs and wants the camera Run is about to start, on another address. */
  lemma ReloadsFirst(config: Config, s: State)
    returns (registry: seq<Camera>, events: seq<Event>, mid: State, moved: Camera)
    requires Owned(s) && DistinctAddresses(s) && Starting(s) != [] && Apart(s, Starting(s)[0])
    requires s.reload.None? && !s.stopping
    ensures registry != [] && Fit(registry) && FitReloads(events) && Run(config, s, [Begin(registry)] + events, mid)
    ensures Key(moved) == Key(Starting(s)[0]) && moved.listenAddr != Starting(s)[0].listenAddr
    ensures Starting(mid) == Starting(s)
    ensures mid.supervisors == s.supervisors + [Supervisor(moved, false, Bound, config.backoff)]
  {
    var camera := Starting(s)[0];
    assert Key(camera) !in s.cameras;
    hide Key, Run, Fit, Owned, DistinctAddresses, Apart, FitReloads;
    var order := ListKeys(s.cameras.Keys);
    MovedIsFit(s, order, camera);
    moved := MovedCamera(camera, Running(s, order));
    hide MovedCamera;
    registry := Running(s, order) + [moved];
    events, mid := AddsOne(config, s, order, moved);
  }

  lemma FitReloadsJoin(a: seq<Event>, b: seq<Event>)
    requires FitReloads(a) && FitReloads(b)
    ensures FitReloads(a + b)
  {
    hide Fit;
  }

  /**
   While Run is still starting its cameras, a reload that wants the one it is about to start, on an address of its
   own, leaves two restart loops for one key.
   */
  lemma EarlyReloadClashes(config: Config, s: State) returns (registry: seq<Camera>, events: seq<Event>, end: State)
    requires Good(s) && s.reload.None? && !s.stopping && !Booted(s)
    ensures registry != [] && Fit(registry) && FitReloads(events)
    ensures Run(config, s, [Begin(registry)] + events, end) && !NoClash(end)
  {
    StartingIsApart(s);
    hide Good, Key, NoClash, Run, Fit, Owned, DistinctAddresses, Apart, FitReloads;
    var reloading, mid, moved;
    registry, reloading, mid, moved := ReloadsFirst(config, s);
    var booting;
    booting, end := BootsOne(config, mid);
    hide Starting;
    RunJoins(config, s, [Begin(registry)] + reloading, mid, booting, end);
    FitReloadsJoin(reloading, booting);
    events := reloading + booting;
    assert [Begin(registry)] + reloading + booting == [Begin(registry)] + events;
    TwoLoopsClash(end, |s.supervisors|, |s.supervisors| + 1);
  }

  lemma TwoLoopsClash(s: State, i: nat, j: nat)
    requires i < j < |s.supervisors| && s.supervisors[i].stage != Done && s.supervisors[j].stage != Done
    requires Key(s.supervisors[i].camera) == Key(s.supervisors[j].camera)
    ensures !NoClash(s)
  {
  }

  /** No run that begins with a reload of a fit registry ever clashes. */
  ghost predicate ReloadIsSafe(config: Config, s: State) {
    forall registry, events, end ::
      registry != [] && Fit(registry) && FitReloads(events) && Run(config, s, [Begin(registry)] + events, end) ==>
          NoClash(end)
  }

  /** A reload may begin exactly when Run has started its cameras. */
  lemma ReloadIsSafeIff(config: Config, s: State)
    requires Good(s) && s.reload.None? && !s.stopping
    ensures ReloadIsSafe(config, s) <==> Booted(s)
  {
    if Booted(s) {
      forall registry, events, end
        | registry != [] && Fit(registry) && FitReloads(events) && Run(config, s, [Begin(registry)] + events, end)
        ensures NoClash(end)
      {
        hide Good, NoClash, Fit;
        assert FitReloads([Begin(registry)] + events);
        hide FitReloads;
        BootedIsOrderly(config, s, [Begin(registry)] + events, end);
        RunKeepsGood(config, s, [Begin(registry)] + events, end);
        GoodHasNoClash(end);
      }
    } else {
      var registry, events, end := EarlyReloadClashes(config, s);
      hide Good, NoClash, Fit, FitReloads, Run;
      assert !ReloadIsSafe(config, s);
    }
  }

  /** So it is for every registry Run begins with: before its first camera is up, a reload can clash with it. */
  lemma EarlyReloadRunsTwice(config: Config, registry: seq<Camera>)
    requires registry != [] && Fit(registry)
    ensures !ReloadIsSafe(config, Init(registry))
  {
    InitIsGood(registry);
    ReloadIsSafeIff(config, Init(registry));
  }

  // ---- what a reload does ----

  function FailedIn(events: seq<Event>): set<string> {
    set e | e in events && e.ListenFails? :: e.key
  }

  lemma MoveKeepsReload(config: Config, s: State, id: Id, move: Move)
    requires MoveEnabled(s, id, move)
    ensures Moved(config, s, id, move).reload == s.reload
  {
  }

  /** What a reload set out with. */
  predicate SameOutset(r: Reloading, after: Reloading) {
    after.existing == r.existing && after.goal == r.goal && after.mark == r.mark
  }

  lemma VisitRemembers(s: State, key: string)
    requires Enabled(s, Visit(key))
    ensures var t := Visited(s, key);
            t.reload.Some? && SameOutset(s.reload.value, t.reload.value)
                && t.reload.value.failed == s.reload.value.failed
  {
  }

  lemma WaitedRemembers(config: Config, s: State)
    requires Enabled(s, Waited)
    ensures var t := Step(config, s, Waited);
            && t.reload.Some? && SameOutset(s.reload.value, t.reload.value)
            && t.reload.value.failed == s.reload.value.failed
  {
    hide Key, WithoutCamera;
    assert Step(config, s, Waited).reload == Some(s.reload.value.(stopped := s.reload.value.stopped[1..]));
  }

  lemma StartRemembers(config: Config, s: State, e: Event)
    requires Enabled(s, e) && (e.Listens? || e.ListenFails? || e.Adds?)
    ensures var t := Step(config, s, e);
            && t.reload.Some? && SameOutset(s.reload.value, t.reload.value)
            && t.reload.value.failed
                == (if e.ListenFails? then s.reload.value.failed + {e.key} else s.reload.value.failed)
  {
    hide Key, WithCamera;
  }

  lemma OthersKeepReload(config: Config, s: State, e: Event)
    requires Enabled(s, e) && (e.BootListens? || e.BootFails? || e.BootAdds? || e.Cancel? || e.StopAll? || e.Does?)
    ensures Step(config, s, e).reload == s.reload
  {
    hide Key, Moved, MoveEnabled;
    if e.Does? { MoveKeepsReload(config, s, e.id, e.move); }
  }

  lemma StepRemembers(config: Config, s: State, e: Event)
    requires Enabled(s, e) && s.reload.Some? && e != Finish
    ensures var t := Step(config, s, e);
            && t.reload.Some? && SameOutset(s.reload.value, t.reload.value)
            && t.reload.value.failed
                == (if e.ListenFails? then s.reload.value.failed + {e.key} else s.reload.value.failed)
  {
    assert !e.Begin?;
    if e.Visit? {
      VisitRemembers(s, e.key);
    } else if e.Waited? {
      hide Enabled, Step;
      WaitedRemembers(config, s);
    } else if e.Listens? || e.ListenFails? || e.Adds? {
      hide Enabled, Step;
      StartRemembers(config, s, e);
    } else {
      hide Enabled, Step;
      OthersKeepReload(config, s, e);
    }
  }

  /** A reload under way keeps what it set out with, and remembers the keys that failed. */
  lemma ReloadRemembers(config: Config, s: State, e: Event)
    requires Enabled(s, e) && s.reload.Some? && e != Finish
    ensures var r, after := s.reload.value, Step(config, s, e).reload;
            && after.Some? && after.value.existing == r.existing && after.value.goal == r.goal
                && after.value.mark == r.mark
            && after.value.failed == r.failed + FailedIn([e])
  {
    hide Step, Enabled;
    StepRemembers(config, s, e);
    assert FailedIn([e]) == if e.ListenFails? then {e.key} else {};
  }

  lemma {:induction false} RunRemembers(config: Config, s: State, events: seq<Event>, end: State)
    requires OrderlyRun(config, s, events, end) && s.reload.Some? && Finish !in events
    ensures var r, after := s.reload.value, end.reload;
            && after.Some? && after.value.existing == r.existing && after.value.goal == r.goal
                && after.value.mark == r.mark
            && after.value.failed == r.failed + FailedIn(events)
    decreases |events|
  {
    hide Enabled, Step, Orderly;
    if events != [] {
      ReloadRemembers(config, s, events[0]);
      RunRemembers(config, Step(config, s, events[0]), events[1..], end);
      FailedAppend(events);
    } else {
      assert FailedIn([]) == {};
    }
  }

  lemma FailedAppend(events: seq<Event>)
    requires events != []
    ensures FailedIn(events) == FailedIn([events[0]]) + FailedIn(events[1..])
  {
  }

  /** What a finished reload leaves: the wanted keys without the failed ones, each with the wanted camera. */
  predicate Reconciled(s: State, end: State, goal: map<string, Camera>, failed: set<string>) {
    && end.cameras.Keys == goal.Keys - failed
    && forall key :: key in end.cameras ==>
         && end.cameras[key] < |end.supervisors| && end.supervisors[end.cameras[key]].camera == goal[key]
         && (RanAs(s, key, goal[key]) ==> end.cameras[key] == s.cameras[key])
         && (!RanAs(s, key, goal[key]) ==> end.cameras[key] >= |s.supervisors|)
  }

  /** The camera ran under this key, exactly as it is. */
  predicate RanAs(s: State, key: string, camera: Camera) {
    key in s.cameras && s.cameras[key] < |s.supervisors| && s.supervisors[s.cameras[key]].camera == camera
  }

  lemma FinishedReload(s: State, r: Reloading, key: string)
    requires Enabled(s, Finish) && r == s.reload.value && EntryGood(s, r, key) && GoalKeyGood(s, r, key)
    requires FrameGood(s, r)
    ensures key in s.cameras <==> key in r.goal && key !in r.failed
    ensures key in s.cameras ==> s.supervisors[s.cameras[key]].camera == r.goal[key]
    ensures key in s.cameras ==> if Same(s, r, key) then s.cameras[key] == r.existing[key] else s.cameras[key] >= r.mark
  {
    hide Key;
  }

  lemma MoveLeaves(config: Config, s: State, mover: Id, move: Move, id: Id)
    requires MoveEnabled(s, mover, move) && id < |s.supervisors|
    ensures |Moved(config, s, mover, move).supervisors| == |s.supervisors|
    ensures Moved(config, s, mover, move).supervisors[id].camera == s.supervisors[id].camera
    ensures id != mover ==> Moved(config, s, mover, move).supervisors[id] == s.supervisors[id]
  {
  }

  /** What a step leaves alone: every supervisor but the one that moves or is cancelled, and every camera. */
  lemma StepLeaves(config: Config, s: State, e: Event, id: Id)
    requires Enabled(s, e) && id < |s.supervisors|
    ensures |s.supervisors| <= |Step(config, s, e).supervisors|
    ensures Step(config, s, e).supervisors[id].camera == s.supervisors[id].camera
    ensures !(e.Does? && e.id == id) && !(e.Visit? && s.reload.value.existing[e.key] == id) ==>
              Step(config, s, e).supervisors[id] == s.supervisors[id]
    ensures !(e.Does? && e.id == id) ==> Step(config, s, e).supervisors[id].stage == s.supervisors[id].stage
    ensures !(e.Does? && e.id == id) ==> Step(config, s, e).supervisors[id].backoff == s.supervisors[id].backoff
  {
    hide ByKey, Key, Moved, At, Waits, MoveEnabled;
    match e
    case BootListens =>
    case BootFails =>
    case BootAdds =>
    case Cancel =>
    case StopAll =>
    case Begin(_) =>
    case Visit(_) =>
    case Waited =>
    case Listens(_) =>
    case ListenFails(_) =>
    case Adds =>
    case Finish =>
    case Does(mover, move) => MoveLeaves(config, s, mover, move, id);
  }

  lemma StepGrows(config: Config, s: State, e: Event)
    requires Enabled(s, e)
    ensures |s.supervisors| <= |Step(config, s, e).supervisors|
    ensures forall id :: |s.supervisors| <= id < |Step(config, s, e).supervisors| ==>
              Step(config, s, e).supervisors[id].stage == Bound
                  && Step(config, s, e).supervisors[id].backoff == config.backoff
  {
    hide ByKey, Key;
    match e
    case BootListens =>
    case BootFails =>
    case BootAdds =>
    case Cancel =>
    case StopAll =>
    case Begin(_) =>
    case Visit(_) =>
    case Waited =>
    case Listens(_) =>
    case ListenFails(_) =>
    case Adds =>
    case Finish =>
    case Does(mover, move) =>
      MoveLeaves(config, s, mover, move, mover);
  }

  /** The cameras of supervisors never change, and none disappears. */
  lemma {:induction false} SupervisorsStay(config: Config, s: State, events: seq<Event>, end: State)
    requires OrderlyRun(config, s, events, end)
    ensures |s.supervisors| <= |end.supervisors|
    ensures forall id :: 0 <= id < |s.supervisors| ==> end.supervisors[id].camera == s.supervisors[id].camera
    decreases |events|
  {
    hide Step, Enabled, Orderly;
    if events == [] {
    } else {
      var next := Step(config, s, events[0]);
      SupervisorsStay(config, next, events[1..], end);
      StepGrows(config, s, events[0]);
      forall id | 0 <= id < |s.supervisors| ensures end.supervisors[id].camera == s.supervisors[id].camera {
        StepLeaves(config, s, events[0], id);
      }
    }
  }

  /** Afterwards the running keys are the wanted ones without those that failed to start. */
  lemma ReloadReconciles(config: Config, s: State, registry: seq<Camera>, events: seq<Event>, last: State)
    requires Good(s) && Enabled(s, Begin(registry)) && Orderly(s, Begin(registry))
    requires OrderlyRun(config, Step(config, s, Begin(registry)), events, last)
    requires Finish !in events && Enabled(last, Finish)
    ensures Reconciled(s, Step(config, last, Finish), ByKey(registry), FailedIn(events))
    ensures Step(config, last, Finish).reload.None?
  {
    var began := Step(config, s, Begin(registry));
    StepKeepsGood(config, s, Begin(registry));
    RunKeepsGood(config, began, events, last);
    RunRemembers(config, began, events, last);
    SupervisorsStay(config, began, events, last);
    FinishReconciles(config, s, last, ByKey(registry), FailedIn(events));
  }

  lemma FinishReconciles(config: Config, s: State, last: State, goal: map<string, Camera>, failed: set<string>)
    requires Good(s) && Good(last) && Enabled(last, Finish)
    requires var r := last.reload.value;
             r.existing == s.cameras && r.goal == goal && r.mark == |s.supervisors| && r.failed == failed
    requires |s.supervisors| <= |last.supervisors|
    requires forall id :: 0 <= id < |s.supervisors| ==> last.supervisors[id].camera == s.supervisors[id].camera
    ensures Reconciled(s, Step(config, last, Finish), goal, failed)
  {
    hide Key, FrameGood;
    var r := last.reload.value;
    assert forall key :: key in goal ==> Key(goal[key]) == key by { assert FrameGood(last, r); GoalKeys(last, r); }
    forall key ensures key in last.cameras <==> key in goal && key !in failed {
      assert EntryGood(last, r, key) && GoalKeyGood(last, r, key);
      FinishedReload(last, r, key);
    }
    forall key | key in last.cameras
      ensures last.cameras[key] < |last.supervisors| && last.supervisors[last.cameras[key]].camera == goal[key]
      ensures RanAs(s, key, goal[key]) ==> last.cameras[key] == s.cameras[key]
      ensures !RanAs(s, key, goal[key]) ==> last.cameras[key] >= |s.supervisors|
    {
      assert EntryGood(last, r, key) && GoalKeyGood(last, r, key);
      FinishedReload(last, r, key);
    }
  }

  lemma GoalKeys(s: State, r: Reloading)
    requires FrameGood(s, r)
    ensures forall key :: key in r.goal ==> Key(r.goal[key]) == key
  {
  }

  /** A camera that stays the same is not so much as touched: only its own restart loop moves it. */
  lemma SameIsUntouched(config: Config, s: State, e: Event, key: string)
    requires Good(s) && Enabled(s, e) && s.reload.Some? && Same(s, s.reload.value, key)
    requires !(e.Does? && e.id == s.reload.value.existing[key])
    ensures |Step(config, s, e).supervisors| > s.reload.value.existing[key]
    ensures Step(config, s, e).supervisors[s.reload.value.existing[key]] == s.supervisors[s.reload.value.existing[key]]
  {
    hide MapGood, EntryGood, FrameGood, Step, Key;
    var r := s.reload.value;
    StepLeaves(config, s, e, r.existing[key]);
    if e.Visit? {
      if e.key != key {
        OtherKey(s, r, e.key, key);
      } else {
        VisitLeavesSame(config, s, key);
      }
    }
  }

  lemma VisitLeavesSame(config: Config, s: State, key: string)
    requires Good(s) && Enabled(s, Visit(key)) && Same(s, s.reload.value, key)
    ensures Step(config, s, Visit(key)).supervisors == s.supervisors
  {
    hide MapGood, EntryGood, FrameGood;
    assert GoalKeyGood(s, s.reload.value, key);
    KeepsSame(s, key);
  }

  lemma OtherKey(s: State, r: Reloading, a: string, b: string)
    requires FrameGood(s, r) && a in r.existing && b in r.existing && a != b
    ensures r.existing[a] != r.existing[b]
  {
  }

  // ---- the counters ----

  function ServingIds(s: State): set<Id> {
    set id | 0 <= id < |s.supervisors| && s.supervisors[id].stage == Serving
  }

  predicate Counted(s: State) { s.serving == |ServingIds(s)| && s.total == |s.cameras| }

  lemma StepServing(config: Config, s: State, e: Event)
    requires Enabled(s, e)
    ensures Step(config, s, e).serving == s.serving
          + (if e.Does? && e.move.Serve? then 1 else if e.Does? && e.move.ServeReturns? then -1 else 0)
    ensures s.total == |s.cameras| ==> Step(config, s, e).total == |Step(config, s, e).cameras|
  {
    hide ByKey, Key;
    match e
    case BootListens =>
    case BootFails =>
    case BootAdds =>
    case Cancel =>
    case StopAll =>
    case Begin(_) =>
    case Visit(_) =>
    case Waited =>
    case Listens(_) =>
    case ListenFails(_) =>
    case Adds =>
    case Finish =>
    case Does(_, _) =>
  }

  lemma MoveStage(config: Config, s: State, id: Id, move: Move)
    requires MoveEnabled(s, id, move)
    ensures (s.supervisors[id].stage == Serving) == move.ServeReturns?
    ensures (Moved(config, s, id, move).supervisors[id].stage == Serving) == move.Serve?
  {
  }

  lemma StepCounts(config: Config, s: State, e: Event)
    requires Counted(s) && Enabled(s, e)
    ensures Counted(Step(config, s, e))
  {
    hide Step, Enabled;
    var t := Step(config, s, e);
    StepServing(config, s, e);
    StepGrows(config, s, e);
    forall id | 0 <= id < |s.supervisors| && !(e.Does? && e.id == id)
      ensures t.supervisors[id].stage == s.supervisors[id].stage
    {
      StepLeaves(config, s, e, id);
    }
    if e.Does? {
      DoesCounts(config, s, e.id, e.move);
    } else {
      assert ServingIds(t) == ServingIds(s);
    }
  }

  lemma DoesCounts(config: Config, s: State, id: Id, move: Move)
    requires Enabled(s, Does(id, move))
    ensures |ServingIds(Step(config, s, Does(id, move)))|
         == |ServingIds(s)| + (if move.Serve? then 1 else if move.ServeReturns? then -1 else 0)
  {
    var t := Moved(config, s, id, move);
    MoveStage(config, s, id, move);
    forall other | 0 <= other < |s.supervisors| && other != id
      ensures |t.supervisors| == |s.supervisors| && t.supervisors[other] == s.supervisors[other]
    {
      MoveLeaves(config, s, id, move, other);
    }
    MoveLeaves(config, s, id, move, id);
    hide Moved, MoveEnabled;
    ServingChanges(s, t, id);
  }

  lemma ServingChanges(s: State, t: State, id: Id)
    requires id < |s.supervisors| == |t.supervisors|
    requires forall other :: 0 <= other < |s.supervisors| && other != id ==>
          t.supervisors[other].stage == s.supervisors[other].stage
    ensures |ServingIds(t)| - (if t.supervisors[id].stage == Serving then 1 else 0)
          == |ServingIds(s)| - (if s.supervisors[id].stage == Serving then 1 else 0)
  {
    assert ServingIds(t) - {id} == ServingIds(s) - {id};
    ServingSplits(s, id);
    ServingSplits(t, id);
  }

  lemma ServingSplits(s: State, id: Id)
    requires id < |s.supervisors|
    ensures |ServingIds(s)| == |ServingIds(s) - {id}| + (if s.supervisors[id].stage == Serving then 1 else 0)
  {
    if s.supervisors[id].stage == Serving {
      assert ServingIds(s) == (ServingIds(s) - {id}) + {id};
    } else {
      assert ServingIds(s) == ServingIds(s) - {id};
    }
  }

  lemma {:induction false} RunCounts(config: Config, s: State, events: seq<Event>, end: State)
    requires Counted(s) && Run(config, s, events, end)
    ensures Counted(end)
    decreases |events|
  {
    hide Counted, Step, Enabled;
    if events == [] {
    } else {
      StepCounts(config, s, events[0]);
      RunCounts(config, Step(config, s, events[0]), events[1..], end);
    }
  }

  /** How often a restart loop found, after a stop, that it was not cancelled. */
  function Reconnects(config: Config, s: State, events: seq<Event>): nat
    decreases |events|
  {
    if events == [] || !Enabled(s, events[0]) then 0
    else
      var e := events[0];
      (if e.Does? && e.move.Look? && !Cancelled(s, e.id) then 1 else 0)
      + Reconnects(config, Step(config, s, e), events[1..])
  }

  lemma StepReconnects(config: Config, s: State, e: Event)
    requires Enabled(s, e)
    ensures Step(config, s, e).restarts == s.restarts
          + (if e.Does? && e.move.Look? && !Cancelled(s, e.id) then 1 else 0)
  {
    hide ByKey, Key;
    match e
    case BootListens =>
    case BootFails =>
    case BootAdds =>
    case Cancel =>
    case StopAll =>
    case Begin(_) =>
    case Visit(_) =>
    case Waited =>
    case Listens(_) =>
    case ListenFails(_) =>
    case Adds =>
    case Finish =>
    case Does(_, _) =>
  }

  lemma {:induction false} RunReconnects(config: Config, s: State, events: seq<Event>, end: State)
    requires Run(config, s, events, end)
    ensures end.restarts == s.restarts + Reconnects(config, s, events)
    decreases |events|
  {
    hide Step, Enabled, Cancelled;
    if events == [] {
    } else {
      StepReconnects(config, s, events[0]);
      RunReconnects(config, Step(config, s, events[0]), events[1..], end);
    }
  }

  /**
   The counters are true: how many bridges serve, how many cameras there are, and how often one came back. How they
   are published is the subject of module HealthPublishing.
   */
  lemma CountersAreTrue(config: Config, registry: seq<Camera>, events: seq<Event>, end: State)
    requires Run(config, Init(registry), events, end)
    ensures end.serving == |ServingIds(end)| && end.total == |end.cameras|
    ensures end.restarts == Reconnects(config, Init(registry), events)
  {
    RunCounts(config, Init(registry), events, end);
    RunReconnects(config, Init(registry), events, end);
  }

  // ---- the waits ----

  predicate Waiting(config: Config, s: State) {
    forall id :: 0 <= id < |s.supervisors| ==> config.backoff <= s.supervisors[id].backoff <= config.backoffMax
  }

  lemma MoveWaits(config: Config, s: State, id: Id, move: Move)
    requires 0 < config.backoff <= config.backoffMax && Waiting(config, s) && MoveEnabled(s, id, move)
    ensures config.backoff <= Moved(config, s, id, move).supervisors[id].backoff <= config.backoffMax
  {
  }

  lemma StepWaits(config: Config, s: State, e: Event)
    requires 0 < config.backoff <= config.backoffMax && Waiting(config, s) && Enabled(s, e)
    ensures Waiting(config, Step(config, s, e))
  {
    hide Enabled;
    var t := Step(config, s, e);
    StepGrows(config, s, e);
    if e.Does? { DoesWaits(config, s, e.id, e.move); }
    hide Step;
    forall id | 0 <= id < |t.supervisors| ensures config.backoff <= t.supervisors[id].backoff <= config.backoffMax {
      if id < |s.supervisors| { StepLeaves(config, s, e, id); }
    }
  }

  lemma DoesWaits(config: Config, s: State, id: Id, move: Move)
    requires 0 < config.backoff <= config.backoffMax && Waiting(config, s) && Enabled(s, Does(id, move))
    ensures id < |Step(config, s, Does(id, move)).supervisors|
    ensures config.backoff <= Step(config, s, Does(id, move)).supervisors[id].backoff <= config.backoffMax
  {
    MoveWaits(config, s, id, move);
  }

  lemma {:induction false} RunWaits(config: Config, s: State, events: seq<Event>, end: State)
    requires 0 < config.backoff <= config.backoffMax && Waiting(config, s) && Run(config, s, events, end)
    ensures Waiting(config, end)
    decreases |events|
  {
    hide Step, Enabled, Waiting;
    if events == [] {
    } else {
      StepWaits(config, s, events[0]);
      RunWaits(config, Step(config, s, events[0]), events[1..], end);
    }
  }

  /** Every wait of every restart loop is between the two configured ones. */
  lemma WaitsAreBounded(config: Config, registry: seq<Camera>, events: seq<Event>, end: State, id: Id)
    requires Run(Normalised(config), Init(registry), events, end) && id < |end.supervisors|
    ensures Normalised(config).backoff <= end.supervisors[id].backoff <= Normalised(config).backoffMax
  {
    RunWaits(Normalised(config), Init(registry), events, end);
  }

  /** By the events alone: the waits a restart loop has taken since it last stopped after serving long enough. */
  function WaitsTaken(events: seq<Event>, id: Id, before: nat): nat
    decreases |events|
  {
    if events == [] then before
    else
      var e := events[0];
      WaitsTaken(events[1..], id,
                 if e == Does(id, Restart) || e == Does(id, RestartFails) then before + 1
                 else if e == Does(id, ServeReturns(true)) then 0
                 else before)
  }

  /** The wait of a supervisor is the one after `k` in a row; one that is still to come has taken none. */
  predicate Patient(config: Config, s: State, id: Id, k: nat) {
    if id < |s.supervisors| then s.supervisors[id].backoff == BackoffAfter(config, k) else k == 0
  }

  lemma MoveTakesWait(config: Config, s: State, id: Id, move: Move, k: nat)
    requires MoveEnabled(s, id, move) && Patient(config, s, id, k)
    ensures Patient(config, Moved(config, s, id, move), id,
                    if move.Restart? || move.RestartFails? then k + 1 else if move == ServeReturns(true) then 0 else k)
  {
  }

  lemma StepTakesWait(config: Config, s: State, e: Event, id: Id, k: nat)
    requires Enabled(s, e) && Patient(config, s, id, k)
    ensures Patient(config, Step(config, s, e), id, WaitsTaken([e], id, k))
  {
    assert [e][1..] == [];
    StepGrows(config, s, e);
    if e.Does? && e.id == id {
      MoveTakesWait(config, s, id, e.move, k);
    } else if id < |s.supervisors| {
      hide Step, Enabled;
      StepLeaves(config, s, e, id);
    } else {
      hide Step, Enabled;
    }
  }

  lemma {:induction false} RunTakesWaits(config: Config, s: State, events: seq<Event>, end: State, id: Id, k: nat)
    requires Run(config, s, events, end) && Patient(config, s, id, k)
    ensures Patient(config, end, id, WaitsTaken(events, id, k))
    decreases |events|
  {
    hide Step, Enabled, Patient;
    if events == [] {
    } else {
      assert [events[0]][1..] == [];
      StepTakesWait(config, s, events[0], id, k);
      RunTakesWaits(config, Step(config, s, events[0]), events[1..], end, id, WaitsTaken([events[0]], id, k));
    }
  }

  /**
   In every run the wait of every restart loop is the first one doubled once for each wait taken since its last
   stable stop, cut at the maximum; unstable stops and failed binds count alike.
   */
  lemma WaitsFollowTheStops(config: Config, registry: seq<Camera>, events: seq<Event>, end: State, id: Id)
    requires 0 < config.backoff <= config.backoffMax
    requires Run(config, Init(registry), events, end) && id < |end.supervisors|
    ensures var doubled := Doubled(config.backoff, WaitsTaken(events, id, 0));
            end.supervisors[id].backoff == if doubled > config.backoffMax then config.backoffMax else doubled
  {
    RunTakesWaits(config, Init(registry), events, end, id, 0);
    BackoffDoublesUpToTheMaximum(config, WaitsTaken(events, id, 0));
    hide WaitsTaken, Run, Doubled;
  }

  // ---- registries that were built ----

  /** Two cameras have one key exactly if they have one identifier, or none and one name. */
  lemma KeysAgreeIff(a: Camera, b: Camera)
    ensures a.credentials.udid != "" && b.credentials.udid != "" ==>
              (Key(a) == Key(b) <==> a.credentials.udid == b.credentials.udid)
    ensures a.credentials.udid == "" && b.credentials.udid == "" ==>
              (Key(a) == Key(b) <==> a.streamName == b.streamName)
  {
  }

  /** Cameras with different identifiers and records on different ports make a fit registry. */
  lemma BuiltIsFit(t: StreamNames.CharTable, options: Registries.Options)
    requires Registries.Built(t, options).Ok? && Registries.DistinctUDIDs(options.credentials)
    requires Registries.DistinctRecords(options.recorded, Registries.HostOf(options).value, Registries.Ordered(options))
    ensures Fit(Registries.Built(t, options).value.cameras)
  {
    Registries.PortsAreDistinct(t, options);
    Registries.BuiltIsDistinct(t, options);
    hide Registries.Built, Registries.PortOn;
  }

  /** So every setup of a chain that reads back its own records does. */
  lemma ChainIsFit(t: StreamNames.CharTable, setups: seq<Registries.Options>, k: nat)
    requires Registries.Chain(t, setups) && k < |setups|
    ensures Registries.Built(t, setups[k]).Ok? && Fit(Registries.Built(t, setups[k]).value.cameras)
  {
    Registries.PortsStayDistinct(t, setups, k);
    assert k > 0 ==> Registries.Follows(t, setups[k - 1], setups[k]);
    Registries.BuiltIsDistinct(t, setups[k]);
    hide Registries.Built, Registries.PortOn, Registries.Chain;
  }

  // ---- the object ----

  lemma {:induction false} RunThen(config: Config, s: State, events: seq<Event>, mid: State, e: Event)
    requires OrderlyRun(config, s, events, mid) && Enabled(mid, e) && Orderly(mid, e)
    ensures OrderlyRun(config, s, events + [e], Step(config, mid, e))
    decreases |events|
  {
    hide Enabled, Step, Orderly;
    if events == [] {
      assert (events + [e])[0] == e && (events + [e])[1..] == [];
    } else {
      assert (events + [e])[0] == events[0] && (events + [e])[1..] == events[1..] + [e];
      RunThen(config, Step(config, s, events[0]), events[1..], mid, e);
    }
  }

  lemma {:induction false} RunOn(config: Config, s: State, events: seq<Event>, mid: State, more: seq<Event>, end: State)
    requires OrderlyRun(config, s, events, mid) && OrderlyRun(config, mid, more, end)
    ensures OrderlyRun(config, s, events + more, end)
    decreases |events|
  {
    hide Enabled, Step, Orderly;
    if events == [] {
      assert events + more == more;
    } else {
      assert (events + more)[0] == events[0] && (events + more)[1..] == events[1..] + more;
      RunOn(config, Step(config, s, events[0]), events[1..], mid, more, end);
    }
  }

  lemma OrderlyNothing(config: Config, s: State)
    ensures OrderlyRun(config, s, [], s)
  {
  }

  /** How a cancelled restart loop goes on, and how long it still takes. */
  function NextMove(stage: Stage): Move
    requires stage != Done
  {
    match stage
    case Bound => Serve
    case Serving => ServeReturns(false)
    case Stopped => CloseServer
    case Closed => Look
    case Idle => Quit
  }

  function StepsLeft(stage: Stage): nat {
    match stage
    case Bound => 4
    case Serving => 3
    case Stopped => 2
    case Closed => 1
    case Idle => 1
    case Done => 0
  }

  lemma DrainedMove(config: Config, s: State, id: Id)
    requires id < |s.supervisors| && s.supervisors[id].stage != Done && s.supervisors[id].cancelled
    ensures MoveEnabled(s, id, NextMove(s.supervisors[id].stage))
    ensures var t := Moved(config, s, id, NextMove(s.supervisors[id].stage));
            StepsLeft(t.supervisors[id].stage) < StepsLeft(s.supervisors[id].stage) && t.supervisors[id].cancelled
  {
  }

  /** Restart loops never undo a cancellation. */
  lemma {:induction false} CancelledStay(config: Config, s: State, events: seq<Event>, end: State)
    requires OrderlyRun(config, s, events, end) && forall e :: e in events ==> e.Does?
    ensures |end.supervisors| == |s.supervisors|
    ensures forall id :: 0 <= id < |s.supervisors| && s.supervisors[id].cancelled ==> end.supervisors[id].cancelled
    decreases |events|
  {
    if events == [] {
    } else {
      var next := Step(config, s, events[0]);
      assert events[0] in events;
      MoveIsShaped(config, s, events[0].id, events[0].move);
      hide Step, Enabled, Moved, MoveEnabled;
      CancelledStay(config, next, events[1..], end);
    }
  }

  lemma ReloadIsGood(config: Config, s: State, registry: seq<Camera>, events: seq<Event>, last: State)
    requires Good(s) && Enabled(s, Begin(registry)) && Orderly(s, Begin(registry))
    requires OrderlyRun(config, Step(config, s, Begin(registry)), events, last)
    requires Finish !in events && Enabled(last, Finish)
    ensures Good(Step(config, last, Finish))
    ensures Reconciled(s, Step(config, last, Finish), ByKey(registry), FailedIn(events))
  {
    hide Good, OrderlyRun;
    ReloadReconciles(config, s, registry, events, last);
    StepKeepsGood(config, s, Begin(registry));
    RunKeepsGood(config, Step(config, s, Begin(registry)), events, last);
    StepKeepsGood(config, last, Finish);
  }

  lemma KeysGone(all: set<string>, left: set<string>, key: string, binds: set<string>)
    requires key in left && left <= all
    ensures (all - left - binds) + ({key} - binds) == all - (left - {key}) - binds
  {
  }

  lemma FailedConcat(a: seq<Event>, b: seq<Event>)
    ensures FailedIn(a + b) == FailedIn(a) + FailedIn(b)
  {
  }

  lemma NothingFails(events: seq<Event>)
    requires forall e :: e in events ==> !e.ListenFails?
    ensures FailedIn(events) == {}
  {
  }

  // ---- nothing is lost ----

  /** A restart loop is over only where it was told to be, by itself or with the whole runtime. */
  predicate OverIsCancelled(s: State) {
    forall id :: 0 <= id < |s.supervisors| && s.supervisors[id].stage == Done ==> Cancelled(s, id)
  }

  lemma StepOver(config: Config, s: State, e: Event)
    requires OverIsCancelled(s) && Enabled(s, e)
    ensures OverIsCancelled(Step(config, s, e))
  {
    hide ByKey, Key;
    match e
    case BootListens =>
    case BootFails =>
    case BootAdds =>
    case Cancel =>
    case StopAll =>
    case Begin(_) =>
    case Visit(_) =>
    case Waited =>
    case Listens(_) =>
    case ListenFails(_) =>
    case Adds =>
    case Finish =>
    case Does(id, move) => MoveOver(config, s, id, move);
  }

  lemma MoveOver(config: Config, s: State, id: Id, move: Move)
    requires OverIsCancelled(s) && MoveEnabled(s, id, move)
    ensures OverIsCancelled(Moved(config, s, id, move))
  {
  }

  lemma {:induction false} RunOver(config: Config, s: State, events: seq<Event>, end: State)
    requires OverIsCancelled(s) && Run(config, s, events, end)
    ensures OverIsCancelled(end)
    decreases |events|
  {
    if events == [] {
    } else {
      hide OverIsCancelled, Step, Enabled;
      StepOver(config, s, events[0]);
      RunOver(config, Step(config, s, events[0]), events[1..], end);
    }
  }

  /** In every run a bridge is given up only where its loop or the runtime was cancelled; no failure does that. */
  lemma NoBridgeIsLost(config: Config, registry: seq<Camera>, events: seq<Event>, end: State, id: Id)
    requires Run(config, Init(registry), events, end) && id < |end.supervisors| && end.supervisors[id].stage == Done
    ensures end.cancelled || end.supervisors[id].cancelled
  {
    RunOver(config, Init(registry), events, end);
  }

  /** What the events so far say about who was cancelled. */
  predicate CancelledFor(past: seq<Event>, s: State) {
    && (s.cancelled ==> Cancel in past || BootFails in past)
    && (s.stopping ==> StopAll in past || BootFails in past)
    && (forall id :: 0 <= id < |s.supervisors| && s.supervisors[id].cancelled ==> exists e :: e in past && e.Visit?)
  }

  lemma StepCancels(config: Config, past: seq<Event>, s: State, e: Event)
    requires CancelledFor(past, s) && Enabled(s, e)
    ensures CancelledFor(past + [e], Step(config, s, e))
  {
    hide ByKey, Key, Enabled;
    var t := Step(config, s, e);
    assert forall other :: other in past + [e] <==> other in past || other == e;
    StepGrows(config, s, e);
    CancelsOnly(config, s, e);
    hide Step;
    forall id | 0 <= id < |t.supervisors| && t.supervisors[id].cancelled
      ensures exists v :: v in past + [e] && v.Visit?
    {
      if id < |s.supervisors| && s.supervisors[id].cancelled {
        var v :| v in past && v.Visit?;
        assert v in past + [e];
      } else {
        assert e in past + [e] && e.Visit?;
      }
    }
  }

  lemma CancelsOnly(config: Config, s: State, e: Event)
    requires Enabled(s, e)
    ensures var t := Step(config, s, e);
            && (t.cancelled ==> s.cancelled || e.Cancel? || e.BootFails?)
            && (t.stopping ==> s.stopping || e.StopAll? || e.BootFails?)
            && forall id :: 0 <= id < |t.supervisors| && t.supervisors[id].cancelled ==>
                 e.Visit? || (id < |s.supervisors| && s.supervisors[id].cancelled)
  {
    hide ByKey, Key;
    if e.Does? { MoveKeepsFlags(config, s, e.id, e.move); }
  }

  lemma MoveKeepsFlags(config: Config, s: State, id: Id, move: Move)
    requires MoveEnabled(s, id, move)
    ensures var t := Moved(config, s, id, move);
            && t.cancelled == s.cancelled && t.stopping == s.stopping && |t.supervisors| == |s.supervisors|
            && forall other :: 0 <= other < |s.supervisors| ==>
                 t.supervisors[other].cancelled == s.supervisors[other].cancelled
  {
  }

  lemma {:induction false} RunCancels(config: Config, past: seq<Event>, s: State, events: seq<Event>, end: State)
    requires CancelledFor(past, s) && Run(config, s, events, end)
    ensures CancelledFor(past + events, end)
    decreases |events|
  {
    if events == [] {
      assert past + events == past;
    } else {
      hide CancelledFor, Step, Enabled;
      StepCancels(config, past, s, events[0]);
      RunCancels(config, past + [events[0]], Step(config, s, events[0]), events[1..], end);
      assert past + [events[0]] + events[1..] == past + events;
    }
  }

  /** By the events: a runtime that nobody cancelled, that started and that no reload went over, has lost no bridge. */
  lemma NobodyStopsByItself(config: Config, registry: seq<Camera>, events: seq<Event>, end: State)
    requires Run(config, Init(registry), events, end) && Cancel !in events && BootFails !in events
    ensures !end.cancelled && (StopAll !in events ==> !end.stopping)
    ensures (forall e :: e in events ==> !e.Visit?) ==>
              forall id :: 0 <= id < |end.supervisors| ==> end.supervisors[id].stage != Done
  {
    RunCancels(config, [], Init(registry), events, end);
    assert [] + events == events;
    RunOver(config, Init(registry), events, end);
  }

  /** A run can be cancelled at any time, and then every loop can come to its end by its own moves. */
  lemma CancelEndsEveryLoop(config: Config, s: State, id: Id) returns (moves: seq<Move>, end: State)
    requires id < |s.supervisors|
    ensures Run(config, s, [Cancel] + DoesAll(id, moves), end)
    ensures id < |end.supervisors| && end.supervisors[id].stage == Done
  {
    var cancelled := Step(config, s, Cancel);
    moves, end := Ends(config, cancelled, id);
    RunBack(config, s, Cancel, DoesAll(id, moves), end);
  }

  lemma EndingMove(config: Config, s: State, id: Id)
    requires id < |s.supervisors| && Cancelled(s, id) && s.supervisors[id].stage != Done
    ensures MoveEnabled(s, id, NextMove(s.supervisors[id].stage))
    ensures var t := Moved(config, s, id, NextMove(s.supervisors[id].stage));
            && |t.supervisors| == |s.supervisors| && Cancelled(t, id)
            && StepsLeft(t.supervisors[id].stage) < StepsLeft(s.supervisors[id].stage)
  {
  }

  lemma Ends(config: Config, s: State, id: Id) returns (moves: seq<Move>, end: State)
    requires id < |s.supervisors| && Cancelled(s, id)
    ensures Run(config, s, DoesAll(id, moves), end)
    ensures id < |end.supervisors| && end.supervisors[id].stage == Done
    decreases StepsLeft(s.supervisors[id].stage)
  {
    hide Moved, MoveEnabled, Cancelled;
    if s.supervisors[id].stage == Done {
      moves, end := [], s;
      RunNothing(config, s);
      assert DoesAll(id, []) == [];
    } else {
      var move := NextMove(s.supervisors[id].stage);
      EndingMove(config, s, id);
      var rest;
      rest, end := Ends(config, Moved(config, s, id, move), id);
      RunBack(config, s, Does(id, move), DoesAll(id, rest), end);
      moves := [move] + rest;
      assert DoesAll(id, moves) == [Does(id, move)] + DoesAll(id, rest);
    }
  }

  /** Cancelled and started, Run can stop for good: no reload begins after that. */
  lemma StopsForGood(config: Config, s: State, events: seq<Event>, end: State, registry: seq<Camera>)
    requires s.cancelled && Booted(s)
    requires Enabled(s, StopAll) ==> Run(config, Step(config, s, StopAll), events, end)
    ensures Enabled(s, StopAll) && end.stopping && !Enabled(end, Begin(registry))
  {
    StoppingStays(config, Step(config, s, StopAll), events, end);
  }

  /** A start that fails is the end of it: every loop can come to its end, and no reload begins any more. */
  lemma FailedStartEndsEverything(config: Config, s: State, registry: seq<Camera>, id: Id)
    returns (moves: seq<Move>, end: State)
    requires Enabled(s, BootFails) && id < |s.supervisors|
    ensures Run(config, Step(config, s, BootFails), DoesAll(id, moves), end)
    ensures id < |end.supervisors| && end.supervisors[id].stage == Done && !Enabled(end, Begin(registry))
    ensures Starting(Step(config, s, BootFails)) == []
  {
    var failed := Step(config, s, BootFails);
    moves, end := Ends(config, failed, id);
    StoppingStays(config, failed, DoesAll(id, moves), end);
  }

  lemma {:induction false} StoppingStays(config: Config, s: State, events: seq<Event>, end: State)
    requires s.stopping && Run(config, s, events, end)
    ensures end.stopping
    decreases |events|
  {
    if events == [] {
    } else {
      hide Moved, MoveEnabled, Key, ByKey;
      if events[0].Does? { MoveKeepsFlags(config, s, events[0].id, events[0].move); }
      StoppingStays(config, Step(config, s, events[0]), events[1..], end);
    }
  }

  function Onward(stage: Stage): (move: Move)
    requires stage != Serving && stage != Done
  {
    match stage
    case Bound => Serve
    case Stopped => CloseServer
    case Closed => Look
    case Idle => Restart
  }

  /** The moves of loop `id`. */
  function DoesAll(id: Id, moves: seq<Move>): seq<Event> {
    seq(|moves|, i requires 0 <= i < |moves| => Does(id, moves[i]))
  }

  function FromServing(stage: Stage): nat {
    match stage
    case Serving => 0
    case Bound => 1
    case Idle => 2
    case Closed => 3
    case Stopped => 4
    case Done => 5
  }

  lemma OnwardMove(config: Config, s: State, id: Id)
    requires id < |s.supervisors| && !Cancelled(s, id)
    requires s.supervisors[id].stage != Serving && s.supervisors[id].stage != Done
    ensures MoveEnabled(s, id, Onward(s.supervisors[id].stage))
    ensures var t := Moved(config, s, id, Onward(s.supervisors[id].stage));
            && |t.supervisors| == |s.supervisors| && !Cancelled(t, id) && t.cameras == s.cameras
            && t.supervisors[id].camera == s.supervisors[id].camera && t.supervisors[id].stage != Done
            && FromServing(t.supervisors[id].stage) == FromServing(s.supervisors[id].stage) - 1
  {
  }

  /** A bridge that was not cancelled comes to serve again, with its own camera and by its own moves alone. */
  lemma ServesAgain(config: Config, s: State, id: Id) returns (moves: seq<Move>, end: State)
    requires id < |s.supervisors| && !Cancelled(s, id) && s.supervisors[id].stage != Done
    ensures Run(config, s, DoesAll(id, moves), end) && |moves| <= 4
    ensures id < |end.supervisors| && end.supervisors[id].stage == Serving && end.cameras == s.cameras
    ensures end.supervisors[id].camera == s.supervisors[id].camera
    ensures |moves| == FromServing(s.supervisors[id].stage)
    decreases FromServing(s.supervisors[id].stage)
  {
    hide Moved, MoveEnabled;
    if s.supervisors[id].stage == Serving {
      moves, end := [], s;
      RunNothing(config, s);
      assert DoesAll(id, []) == [];
    } else {
      var move := Onward(s.supervisors[id].stage);
      OnwardMove(config, s, id);
      var rest;
      rest, end := ServesAgain(config, Moved(config, s, id, move), id);
      RunBack(config, s, Does(id, move), DoesAll(id, rest), end);
      moves := [move] + rest;
      assert DoesAll(id, moves) == [Does(id, move)] + DoesAll(id, rest);
    }
  }

  // ---- the registry itself ----

  /** What the run has started of the registry, with nothing else there. */
  predicate Booting(registry: seq<Camera>, s: State) {
    && s.reload.None? && |s.supervisors| <= |registry| && Starting(s) == registry[|s.supervisors|..]
    && (forall i :: 0 <= i < |s.supervisors| ==> s.supervisors[i].camera == registry[i])
    && (forall i :: 0 <= i < |s.supervisors| ==> Key(registry[i]) in s.cameras && s.cameras[Key(registry[i])] == i)
    && (forall key :: key in s.cameras ==> s.cameras[key] < |s.supervisors| && Key(registry[s.cameras[key]]) == key)
  }

  lemma AddBoots(config: Config, registry: seq<Camera>, s: State)
    requires Fit(registry) && Booting(registry, s) && Enabled(s, BootAdds)
    ensures Booting(registry, Step(config, s, BootAdds))
  {
    hide Key;
    var n := |s.supervisors|;
    var t := Step(config, s, BootAdds);
    assert registry[n] == Starting(s)[0] == s.bootHand.value;
    assert Starting(t) == Starting(s)[1..];
    forall i | 0 <= i < n + 1 ensures Key(registry[i]) in t.cameras && t.cameras[Key(registry[i])] == i {}
  }

  lemma StepBoots(config: Config, registry: seq<Camera>, s: State, e: Event)
    requires Fit(registry) && Booting(registry, s) && Enabled(s, e) && !e.Begin? && !e.BootFails?
    ensures Booting(registry, Step(config, s, e))
  {
    hide Key, Fit;
    if e.BootAdds? {
      AddBoots(config, registry, s);
    } else if e.Does? {
      MoveIsShaped(config, s, e.id, e.move);
      MoveKeepsBoot(config, s, e.id, e.move);
      hide Moved, MoveEnabled;
    } else {
      assert Starting(Step(config, s, e)) == Starting(s);
    }
  }

  lemma MoveKeepsBoot(config: Config, s: State, id: Id, move: Move)
    requires MoveEnabled(s, id, move)
    ensures var t := Moved(config, s, id, move);
            t.boot == s.boot && t.bootHand == s.bootHand && t.cameras == s.cameras && t.reload == s.reload
  {
  }

  lemma {:induction false} RunBoots(config: Config, registry: seq<Camera>, s: State, events: seq<Event>, end: State)
    requires Fit(registry) && Booting(registry, s) && Run(config, s, events, end)
    requires forall e :: e in events ==> !e.Begin? && !e.BootFails?
    ensures Booting(registry, end)
    decreases |events|
  {
    if events == [] {
    } else {
      hide Booting, Fit, Step, Enabled;
      assert events[0] in events;
      StepBoots(config, registry, s, events[0]);
      RunBoots(config, registry, Step(config, s, events[0]), events[1..], end);
    }
  }

  /** Each camera of the registry is there under its key with a supervisor of its own, and there is no other key. */
  predicate Runs(s: State, registry: seq<Camera>) {
    && (forall camera :: camera in registry ==> RanAs(s, Key(camera), camera))
    && (forall key :: key in s.cameras ==> exists camera :: camera in registry && Key(camera) == key)
  }

  lemma BootedRuns(registry: seq<Camera>, s: State)
    requires Booting(registry, s) && Booted(s)
    ensures Runs(s, registry)
  {
    hide Key;
    assert |s.supervisors| == |registry|;
    forall camera | camera in registry ensures RanAs(s, Key(camera), camera) {
      var i :| 0 <= i < |registry| && registry[i] == camera;
    }
    forall key | key in s.cameras ensures exists camera :: camera in registry && Key(camera) == key {
      assert registry[s.cameras[key]] in registry;
    }
  }

  /** Once it has started its cameras, Run has started exactly those of its registry. */
  lemma StartsTheRegistry(config: Config, registry: seq<Camera>, events: seq<Event>, end: State)
    requires Fit(registry) && Run(config, Init(registry), events, end) && Booted(end)
    requires forall e :: e in events ==> !e.Begin? && !e.BootFails?
    ensures Runs(end, registry)
  {
    hide Run, Fit, Runs;
    assert Booting(registry, Init(registry)) by { assert Starting(Init(registry)) == registry; }
    hide Booting;
    RunBoots(config, registry, Init(registry), events, end);
    BootedRuns(registry, end);
  }

  /** A finished reload in which nothing failed to start runs exactly the cameras of its registry. */
  lemma ReloadRunsTheRegistry(config: Config, s: State, registry: seq<Camera>, events: seq<Event>, last: State)
    requires Good(s) && Enabled(s, Begin(registry)) && Orderly(s, Begin(registry))
    requires OrderlyRun(config, Step(config, s, Begin(registry)), events, last)
    requires Finish !in events && Enabled(last, Finish) && FailedIn(events) == {}
    ensures Runs(Step(config, last, Finish), registry)
  {
    ReloadReconciles(config, s, registry, events, last);
    hide Good, OrderlyRun, Step, Key, Enabled;
    var end := Step(config, last, Finish);
    ByKeyTabled(registry);
    forall camera | camera in registry ensures RanAs(end, Key(camera), camera) {
      var i :| 0 <= i < |registry| && registry[i] == camera;
      FitIsTabled(registry, i);
    }
    forall key | key in end.cameras ensures exists camera :: camera in registry && Key(camera) == key {
      assert ByKey(registry)[key] in registry;
    }
  }

  /** So no identifier and no address ever has two restart loops that are not done. */
  lemma OneLoopPerCamera(config: Config, registry: seq<Camera>, events: seq<Event>, end: State, i: Id, j: Id)
    requires Fit(registry) && OrderlyRun(config, Init(registry), events, end)
    requires i < j < |end.supervisors| && end.supervisors[i].stage != Done && end.supervisors[j].stage != Done
    ensures var a, b := end.supervisors[i].camera, end.supervisors[j].camera;
            && (a.credentials.udid != "" ==> a.credentials.udid != b.credentials.udid)
            && a.listenAddr != b.listenAddr
  {
    NothingClashes(config, registry, events, end);
  }

  /** The Runtime with its maps and counters, once Run has started its cameras. */
  class Runtime {
    const config: Config
    var cameras: map<string, Id>
    var supervisors: seq<Supervisor>
    var serving: int
    var total: int
    var restarts: nat
    var cancelled: bool
    var stopping: bool

    constructor (config: Config)
      ensures this.config == config && View(None) == Init([])
    {
      this.config := config;
      cameras, supervisors := map[], [];
      serving, total, restarts := 0, 0, 0;
      cancelled, stopping := false, false;
    }

    function View(reload: Option<Reloading>): State
      reads this
    {
      State(cameras, supervisors, serving, total, restarts, cancelled, stopping, [], None, reload)
    }

    /** Every key names a supervisor. */
    predicate Valid()
      reads this
    {
      forall key :: key in cameras ==> cameras[key] < |supervisors|
    }

    method Add(camera: Camera)
      modifies this`cameras, this`supervisors, this`total
      ensures forall reload :: View(reload) == WithCamera(config, old(View(reload)), camera)
    {
      supervisors := supervisors + [Supervisor(camera, false, Bound, config.backoff)];
      cameras := cameras[Key(camera) := |supervisors| - 1];
      total := |cameras|;
    }

    method Remove(key: string, id: Id)
      modifies this`cameras, this`total
      ensures forall reload :: View(reload) == WithoutCamera(old(View(reload)), key, id)
    {
      if key in cameras && cameras[key] == id {
        cameras := cameras - {key};
      }
      total := |cameras|;
    }

    /** One move of one restart loop. */
    method Supervise(id: Id, move: Move, ghost reload: Option<Reloading>)
      requires MoveEnabled(View(reload), id, move)
      modifies this`supervisors, this`serving, this`restarts
      ensures View(reload) == Moved(config, old(View(reload)), id, move)
    {
      var loop := supervisors[id];
      match move {
        case Serve =>
          supervisors := supervisors[id := loop.(stage := Serving)];
          serving := serving + 1;
        case ServeReturns(stable) =>
          var backoff := if stable then config.backoff else loop.backoff;
          supervisors := supervisors[id := loop.(stage := Stopped, backoff := backoff)];
          serving := serving - 1;
        case CloseServer =>
          supervisors := supervisors[id := loop.(stage := Closed)];
        case Look =>
          if cancelled || loop.cancelled {
            supervisors := supervisors[id := loop.(stage := Done)];
          } else {
            supervisors := supervisors[id := loop.(stage := Idle)];
            restarts := restarts + 1;
          }
        case Restart =>
          supervisors := supervisors[id := loop.(stage := Bound,
              backoff := NextBackoff(loop.backoff, config.backoffMax))];
        case RestartFails =>
          supervisors := supervisors[id := loop.(backoff := NextBackoff(loop.backoff, config.backoffMax))];
        case Quit =>
          supervisors := supervisors[id := loop.(stage := Done)];
      }
    }

    /** A cancelled restart loop runs to its end; this is what waiting for it lets happen. */
    method Drain(id: Id, ghost reload: Option<Reloading>) returns (ghost events: seq<Event>)
      requires id < |supervisors| && supervisors[id].cancelled
      modifies this`supervisors, this`serving, this`restarts
      ensures OrderlyRun(config, old(View(reload)), events, View(reload))
      ensures forall e :: e in events ==> e.Does? && e.id == id
      ensures |supervisors| == |old(supervisors)| && supervisors[id].stage == Done
    {
      events := [];
      while supervisors[id].stage != Done
        invariant |supervisors| == |old(supervisors)| && supervisors[id].cancelled
        invariant OrderlyRun(config, old(View(reload)), events, View(reload))
        invariant forall e :: e in events ==> e.Does? && e.id == id
        decreases StepsLeft(supervisors[id].stage)
      {
        var move := NextMove(supervisors[id].stage);
        ghost var before := View(reload);
        MoveLeaves(config, before, id, move, id);
        DrainedMove(config, before, id);
        Supervise(id, move, reload);
        RunThen(config, old(View(reload)), events, before, Does(id, move));
        events := events + [Does(id, move)];
      }
    }

    /** Stops what the new registry drops or changes. */
    method VisitAll(r0: Reloading) returns (r: Reloading, ghost events: seq<Event>)
      requires r0.unvisited <= r0.existing.Keys && forall key :: key in r0.existing ==> r0.existing[key] < |supervisors|
      requires forall i :: 0 <= i < |r0.stopped| ==>
            r0.stopped[i] < |supervisors| && supervisors[r0.stopped[i]].cancelled
      modifies this`supervisors
      ensures OrderlyRun(config, old(View(Some(r0))), events, View(Some(r)))
      ensures forall e :: e in events ==> e.Visit?
      ensures r.unvisited == {} && r.hand == r0.hand && r.failed == r0.failed
      ensures forall i :: 0 <= i < |r.stopped| ==> r.stopped[i] < |supervisors| && supervisors[r.stopped[i]].cancelled
    {
      hide OrderlyRun;
      r, events := r0, [];
      assert OrderlyRun(config, old(View(Some(r0))), [], View(Some(r0))) by { OrderlyNothing(config, View(Some(r0))); }
      while r.unvisited != {}
        invariant r.existing == r0.existing && r.unvisited <= r.existing.Keys && r.hand == r0.hand
        invariant r.failed == r0.failed
        invariant |supervisors| == |old(supervisors)|
        invariant OrderlyRun(config, old(View(Some(r0))), events, View(Some(r)))
        invariant forall e :: e in events ==> e.Visit?
        invariant forall i :: 0 <= i < |r.stopped| ==>
              r.stopped[i] < |supervisors| && supervisors[r.stopped[i]].cancelled
        decreases |r.unvisited|
      {
        var key :| key in r.unvisited;
        var id := r.existing[key];
        ghost var before := View(Some(r));
        if key in r.wanted && supervisors[id].camera == r.wanted[key] {
          r := r.(unvisited := r.unvisited - {key}, wanted := r.wanted - {key});
        } else {
          supervisors := supervisors[id := supervisors[id].(cancelled := true)];
          r := r.(unvisited := r.unvisited - {key}, stopped := r.stopped + [id]);
        }
        assert View(Some(r)) == Step(config, before, Visit(key));
        RunThen(config, old(View(Some(r0))), events, before, Visit(key));
        events := events + [Visit(key)];
      }
    }

    /** Waits for what was stopped, and forgets it. */
    method WaitAll(r0: Reloading) returns (r: Reloading, ghost events: seq<Event>)
      requires r0.unvisited == {}
      requires forall i :: 0 <= i < |r0.stopped| ==>
            r0.stopped[i] < |supervisors| && supervisors[r0.stopped[i]].cancelled
      modifies this`cameras, this`total, this`supervisors, this`serving, this`restarts
      ensures OrderlyRun(config, old(View(Some(r0))), events, View(Some(r)))
      ensures forall e :: e in events ==> e.Does? || e.Waited?
      ensures r == r0.(stopped := [])
    {
      hide OrderlyRun;
      r, events := r0, [];
      OrderlyNothing(config, View(Some(r0)));
      while r.stopped != []
        invariant |supervisors| == |old(supervisors)|
        invariant OrderlyRun(config, old(View(Some(r0))), events, View(Some(r)))
        invariant forall e :: e in events ==> e.Does? || e.Waited?
        invariant r == r0.(stopped := r.stopped)
        invariant forall i :: 0 <= i < |r.stopped| ==>
              r.stopped[i] < |supervisors| && supervisors[r.stopped[i]].cancelled
        decreases |r.stopped|
      {
        var id := r.stopped[0];
        ghost var before := View(Some(r));
        ghost var drained := Drain(id, Some(r));
        RunOn(config, old(View(Some(r0))), events, before, drained, View(Some(r)));
        CancelledStay(config, before, drained, View(Some(r)));
        ghost var after := View(Some(r));
        Remove(Key(supervisors[id].camera), id);
        r := r.(stopped := r.stopped[1..]);
        RunThen(config, old(View(Some(r0))), events + drained, after, Waited);
        events := events + drained + [Waited];
      }
    }

    method StartOne(r0: Reloading, key: string, binds: set<string>) returns (r: Reloading, ghost events: seq<Event>)
      requires CanStart(View(Some(r0))) && key in r0.wanted
      modifies this`cameras, this`total, this`supervisors
      ensures OrderlyRun(config, old(View(Some(r0))), events, View(Some(r)))
      ensures CanStart(View(Some(r))) && r.wanted == r0.wanted - {key}
      ensures forall e :: e in events ==> e.Listens? || e.ListenFails? || e.Adds?
      ensures FailedIn(events) == {key} - binds
    {
      ghost var before := View(Some(r0));
      if key in binds {
        Add(r0.wanted[key]);
        r := r0.(wanted := r0.wanted - {key});
        events := [Listens(key), Adds];
        assert Step(config, Step(config, before, Listens(key)), Adds) == View(Some(r));
        assert events[1..] == [Adds] && [Adds][1..] == [];
      } else {
        r := r0.(wanted := r0.wanted - {key}, failed := r0.failed + {key});
        events := [ListenFails(key)];
        assert events[1..] == [];
        assert FailedIn(events) == {key};
      }
    }

    /** Starts what is new or changed; `binds` says which cameras can be bound. */
    method StartAll(r0: Reloading, binds: set<string>) returns (r: Reloading, ghost events: seq<Event>)
      requires CanStart(View(Some(r0)))
      modifies this`cameras, this`total, this`supervisors
      ensures OrderlyRun(config, old(View(Some(r0))), events, View(Some(r)))
      ensures CanStart(View(Some(r))) && r.wanted == map[]
      ensures forall e :: e in events ==> e.Listens? || e.ListenFails? || e.Adds?
      ensures FailedIn(events) == r0.wanted.Keys - binds
    {
      hide OrderlyRun, CanStart, FailedIn;
      r, events := r0, [];
      OrderlyNothing(config, View(Some(r0)));
      NothingFails([]);
      while r.wanted != map[]
        invariant CanStart(View(Some(r)))
        invariant OrderlyRun(config, old(View(Some(r0))), events, View(Some(r)))
        invariant forall e :: e in events ==> e.Listens? || e.ListenFails? || e.Adds?
        invariant r.wanted.Keys <= r0.wanted.Keys
        invariant FailedIn(events) == r0.wanted.Keys - r.wanted.Keys - binds
        decreases |r.wanted.Keys|
      {
        assert r.wanted.Keys != {};
        var key :| key in r.wanted.Keys;
        assert (r.wanted - {key}).Keys == r.wanted.Keys - {key};
        ghost var before, more := View(Some(r)), [];
        r, more := StartOne(r, key, binds);
        RunOn(config, old(View(Some(r0))), events, before, more, View(Some(r)));
        FailedConcat(events, more);
        KeysGone(r0.wanted.Keys, before.reload.value.wanted.Keys, key, binds);
        events := events + more;
      }
    }

    /** Stops, waits, starts. */
    method Reconcile(r0: Reloading, binds: set<string>) returns (r: Reloading, ghost events: seq<Event>)
      requires Valid() && r0.existing == cameras && r0.unvisited == cameras.Keys && r0.stopped == [] && r0.hand == None
      modifies this
      ensures OrderlyRun(config, old(View(Some(r0))), events, View(Some(r)))
      ensures Finish !in events && Enabled(View(Some(r)), Finish)
      ensures FailedIn(events) !! binds
    {
      hide OrderlyRun, FailedIn;
      ghost var began := View(Some(r0));
      ghost var more;
      r, events := VisitAll(r0);
      ghost var visited := View(Some(r));
      r, more := WaitAll(r);
      RunOn(config, began, events, visited, more, View(Some(r)));
      NothingFails(events + more);
      ghost var waited, sofar := View(Some(r)), events + more;
      assert Finish !in sofar;
      r, more := StartAll(r, binds);
      RunOn(config, began, sofar, waited, more, View(Some(r)));
      FailedConcat(sofar, more);
      events := sofar + more;
    }

    /**
     Reload: refused, with nothing changed, for an empty registry or a runtime that is stopping. Otherwise it fails
     only for cameras that cannot be bound and, from a good state and for a fit registry, reconciles the cameras.
     */
    method Reload(registry: seq<Camera>, binds: set<string>) returns (ok: bool, ghost events: seq<Event>)
      requires Valid()
      modifies this
      ensures registry == [] || old(stopping) ==> !ok && View(None) == old(View(None))
      ensures registry != [] && !old(stopping) ==> ok == (FailedIn(events) == {}) && FailedIn(events) !! binds
      ensures registry != [] && !old(stopping) && Good(old(View(None))) && Fit(registry) ==>
                Good(View(None)) && Reconciled(old(View(None)), View(None), ByKey(registry), FailedIn(events))
    {
      hide OrderlyRun, Good, Fit, ByKey, Reconciled, FailedIn;
      events := [];
      if registry == [] || stopping { return false, events; }
      ghost var start := View(None);
      var wanted := Tabulate(registry);
      var r := Reloading(cameras, wanted, |supervisors|, cameras.Keys, [], wanted, None, {});
      ghost var began := View(Some(r));
      assert began == Step(config, start, Begin(registry));
      r, events := Reconcile(r, binds);
      ok := r.failed == {};
      RunRemembers(config, began, events, View(Some(r)));
      if Good(start) && Fit(registry) { ReloadIsGood(config, start, registry, events, View(Some(r))); }
    }

    /** The table of the wanted cameras. */
    static method Tabulate(registry: seq<Camera>) returns (wanted: map<string, Camera>)
      ensures wanted == ByKey(registry)
    {
      wanted := map[];
      for i := 0 to |registry|
        invariant wanted == ByKey(registry[..i])
      {
        assert registry[..i + 1][..i] == registry[..i];
        wanted := wanted[Key(registry[i]) := registry[i]];
      }
      assert registry[..|registry|] == registry;
    }
  }
}
