/**
 The temperature supervisor (internal/devicecontrol/supervisor.go) as a step machine: Reconcile, Close and every
 worker's own loop, in any order. Workers have numbers, which stand for their pointers. A worker's ownership check
 and the report it allows are two steps, as they are in the code.
 */
module TemperatureSupervisor {
  import opened Wrappers

  type WorkerId = nat

  datatype Camera = Camera(id: string, deviceID: int, token: string, host: string, port: int)

  datatype Report = Available(now: bool) | Supported(capable: bool) | Temperature(degrees: real)

  /**
   Where a worker's loop is. `checked` is the step of the check that allowed the report; Final is the report of a
   worker that has just retired.
   */
  datatype Place =
    | Checking(report: Report) | Reporting(report: Report, checked: nat)
    | Connecting | Asking | Reading | Polling | Retrying
    | Retiring | Final(checked: nat) | Done

  /** When the worker was registered, and when it lost its registration. */
  datatype Worker = Worker(camera: Camera, cancelled: bool, registered: nat, lost: Option<nat>, place: Place)

  /** A report as it reached the sink. */
  datatype Delivery = Delivery(worker: WorkerId, report: Report, checked: nat)

  datatype State = State(workers: map<string, WorkerId>, all: seq<Worker>, closed: bool, steps: nat,
      sink: seq<Delivery>)

  datatype Move =
    | Check | Deliver | Connect(ok: bool) | Capability(answer: Option<bool>) | Read(degrees: Option<real>)
    | Wake | Stop | Retire

  /** `order` is the order in which the map of wanted cameras happens to be walked. */
  datatype Event =
    | Reconcile(cameras: seq<Camera>, order: seq<string>)
    | CancelContext
    | Close
    | Work(worker: WorkerId, move: Move)

  function Init(): State { State(map[], [], false, 0, []) }

  predicate Usable(camera: Camera) {
    camera.id != "" && camera.deviceID != 0 && camera.token != "" && camera.host != "" && camera.port >= 1
  }

  /** The usable cameras by identifier; a later one replaces an earlier one. */
  function Wanted(cameras: seq<Camera>): map<string, Camera> {
    if cameras == [] then map[]
    else
      var last := cameras[|cameras| - 1];
      var rest := Wanted(cameras[..|cameras| - 1]);
      if Usable(last) then rest[last.id := last] else rest
  }

  /** The registration table names existing workers. */
  predicate Placed(s: State) { forall id :: id in s.workers ==> s.workers[id] < |s.all| }

  /** current: whether the worker is the registered one of its camera. */
  predicate Current(s: State, w: WorkerId)
    requires w < |s.all|
  {
    s.all[w].camera.id in s.workers && s.workers[s.all[w].camera.id] == w
  }

  predicate Keeps(s: State, wanted: map<string, Camera>, id: string)
    requires Placed(s)
  {
    id in s.workers && id in wanted && s.all[s.workers[id]].camera == wanted[id]
  }

  function Kept(s: State, wanted: map<string, Camera>): map<string, WorkerId>
    requires Placed(s)
  {
    map id | id in s.workers && Keeps(s, wanted, id) :: s.workers[id]
  }

  predicate Drops(s: State, wanted: map<string, Camera>, w: WorkerId)
    requires Placed(s)
  {
    exists id :: id in s.workers && s.workers[id] == w && !Keeps(s, wanted, id)
  }

  function Cancelled(worker: Worker, step: nat): Worker {
    worker.(cancelled := true, lost := if worker.lost.None? then Some(step) else worker.lost)
  }

  function Dropped(s: State, wanted: map<string, Camera>): State
    requires Placed(s)
  {
    s.(workers := Kept(s, wanted),
       all := seq(|s.all|, w requires 0 <= w < |s.all| =>
         if Drops(s, wanted, w) then Cancelled(s.all[w], s.steps) else s.all[w]))
  }

  function Start(s: State, camera: Camera): State {
    s.(workers := s.workers[camera.id := |s.all|],
       all := s.all + [Worker(camera, false, s.steps, None, Checking(Available(false)))])
  }

  function StartAll(s: State, wanted: map<string, Camera>, order: seq<string>): State
    requires forall id :: id in order ==> id in wanted
  {
    if order == [] then s
    else Start(StartAll(s, wanted, order[..|order| - 1]), wanted[order[|order| - 1]])
  }

  /** The order walks exactly the cameras that need a worker, each once. */
  predicate Walks(s: State, wanted: map<string, Camera>, order: seq<string>)
    requires Placed(s)
  {
    && (forall id :: id in order ==> id in wanted && !Keeps(s, wanted, id))
    && (forall id :: id in wanted && !Keeps(s, wanted, id) ==> id in order)
    && forall i, j :: 0 <= i < j < |order| ==> order[i] != order[j]
  }

  /** What Close does under the lock, once the context is cancelled. */
  function Closed(s: State): State {
    s.(workers := map[],
       all := seq(|s.all|, w requires 0 <= w < |s.all| =>
         if w in s.workers.Values then Cancelled(s.all[w], s.steps) else s.all[w]))
  }

  predicate Stopped(s: State, w: WorkerId)
    requires w < |s.all|
  {
    s.closed || s.all[w].cancelled
  }

  predicate MoveEnabled(s: State, w: WorkerId, move: Move) {
    && w < |s.all|
    && var place := s.all[w].place;
       match move
       case Check => place.Checking?
       case Deliver => place.Reporting? || place.Final?
       case Connect(_) => place.Connecting?
       case Capability(_) => place.Asking?
       case Read(_) => place.Reading?
       case Wake => place.Polling? || place.Retrying?
       case Stop => (place.Polling? || place.Retrying?) && Stopped(s, w)
       case Retire => place.Retiring?
  }

  predicate Enabled(s: State, e: Event) {
    match e
    case Reconcile(cameras, order) => Placed(s) && Walks(s, Wanted(cameras), order)
    case CancelContext => true
    case Close => s.closed
    case Work(w, move) => MoveEnabled(s, w, move)
  }

  /** Where the loop goes on once the report is made or skipped. */
  function After(report: Report): Place {
    match report
    case Available(_) => Connecting
    case Supported(capable) => if capable then Reading else Retiring
    case Temperature(_) => Polling
  }

  function At(s: State, w: WorkerId, place: Place): State
    requires w < |s.all|
  {
    s.(all := s.all[w := s.all[w].(place := place)])
  }

  function Unregistered(s: State, w: WorkerId): State
    requires w < |s.all|
  {
    s.(workers := s.workers - {s.all[w].camera.id},
        all := s.all[w := s.all[w].(lost := Some(s.steps), place := Final(s.steps))])
  }

  function Worked(s: State, w: WorkerId, move: Move): State
    requires MoveEnabled(s, w, move)
  {
    var place := s.all[w].place;
    match move
    case Check => At(s, w, if Current(s, w) then Reporting(place.report, s.steps) else After(place.report))
    case Deliver =>
      if place.Reporting?
      then At(s, w, After(place.report)).(sink := s.sink + [Delivery(w, place.report, place.checked)])
      else At(s, w, Done).(sink := s.sink + [Delivery(w, Available(false), place.checked)])
    case Connect(ok) => At(s, w, if ok then Asking else Retrying)
    case Capability(answer) => At(s, w, if answer.None? then Retrying else Checking(Supported(answer.value)))
    case Read(degrees) => At(s, w, if degrees.None? then Retrying else Checking(Temperature(degrees.value)))
    case Wake => At(s, w, if place.Polling? then Reading else Checking(Available(false)))
    case Stop => At(s, w, Retiring)
    case Retire => if Current(s, w) then Unregistered(s, w) else At(s, w, Done)
  }

  function Step(s: State, e: Event): State
    requires Enabled(s, e)
  {
    var t := match e
      case Reconcile(cameras, order) => StartAll(Dropped(s, Wanted(cameras)), Wanted(cameras), order)
      case CancelContext => s.(closed := true)
      case Close => Closed(s)
      case Work(w, move) => Worked(s, w, move);
    t.(steps := s.steps + 1)
  }

  predicate Run(s: State, events: seq<Event>, end: State)
    decreases |events|
  {
    if events == [] then s == end
    else Enabled(s, events[0]) && Run(Step(s, events[0]), events[1..], end)
  }

  // ---- what holds at every step ----

  /** The check was made after the worker was registered, and not after it lost its registration. */
  predicate CheckedInTime(worker: Worker, checked: nat) {
    worker.registered < checked && (worker.lost.Some? ==> checked <= worker.lost.value)
  }

  /** A worker has a registration exactly while the table names it; the stamps are of past steps. */
  predicate WorkerGood(s: State, w: WorkerId)
    requires w < |s.all|
  {
    var worker := s.all[w];
    && worker.registered < s.steps
    && (worker.lost.None? <==> Current(s, w))
    && (worker.lost.Some? ==> worker.registered < worker.lost.value < s.steps)
    && (worker.place.Reporting? ==> CheckedInTime(worker, worker.place.checked) && worker.place.checked < s.steps)
    && (worker.place.Final? ==> worker.lost == Some(worker.place.checked))
  }

  predicate DeliveryGood(s: State, d: Delivery) {
    d.worker < |s.all| && CheckedInTime(s.all[d.worker], d.checked) && d.checked < s.steps
  }

  predicate TableGood(s: State) {
    forall id :: id in s.workers ==> s.workers[id] < |s.all| && s.all[s.workers[id]].camera.id == id
  }

  predicate Good(s: State) {
    && TableGood(s)
    && (forall w :: 0 <= w < |s.all| ==> WorkerGood(s, w))
    && (forall d :: d in s.sink ==> DeliveryGood(s, d))
  }

  /** What any step does to the workers there are: stamps are set once, with the number of the step. */
  predicate StampsKept(s: State, t: State) {
    && |s.all| <= |t.all| && s.steps < t.steps
    && (forall w :: 0 <= w < |s.all| ==>
          && t.all[w].camera == s.all[w].camera && t.all[w].registered == s.all[w].registered
          && (s.all[w].lost.Some? ==> t.all[w].lost == s.all[w].lost)
          && (s.all[w].lost.None? && t.all[w].lost.Some? ==> s.steps <= t.all[w].lost.value))
    && (forall w :: |s.all| <= w < |t.all| ==> s.steps <= t.all[w].registered)
  }

  lemma DeliveryStaysGood(s: State, t: State, d: Delivery)
    requires DeliveryGood(s, d) && StampsKept(s, t)
    ensures DeliveryGood(t, d)
  {
  }

  lemma WorkedWorker(s: State, w: WorkerId, move: Move, v: WorkerId)
    requires TableGood(s) && MoveEnabled(s, w, move) && v < |s.all| && WorkerGood(s, v)
    ensures var t := Worked(s, w, move).(steps := s.steps + 1);
            && |t.all| == |s.all| && t.steps == s.steps + 1 && WorkerGood(t, v)
            && t.all[v].camera == s.all[v].camera && t.all[v].registered == s.all[v].registered
            && (s.all[v].lost.Some? ==> t.all[v].lost == s.all[v].lost)
            && (s.all[v].lost.None? && t.all[v].lost.Some? ==> s.steps <= t.all[v].lost.value)
  {
    if v != w {
      var t := Worked(s, w, move).(steps := s.steps + 1);
      assert t.all[v] == s.all[v];
      assert Current(t, v) == Current(s, v);
    }
  }

  lemma WorkedTable(s: State, w: WorkerId, move: Move)
    requires TableGood(s) && MoveEnabled(s, w, move)
    ensures TableGood(Worked(s, w, move).(steps := s.steps + 1))
  {
    var t := Worked(s, w, move);
    assert forall v :: 0 <= v < |s.all| ==> t.all[v].camera == s.all[v].camera;
  }

  lemma WorkedSink(s: State, w: WorkerId, move: Move, d: Delivery)
    requires MoveEnabled(s, w, move) && WorkerGood(s, w) && d in Worked(s, w, move).sink
    ensures d in s.sink || (d.worker == w && CheckedInTime(s.all[w], d.checked) && d.checked < s.steps)
  {
    hide Current;
    assert move.Deliver? || Worked(s, w, move).sink == s.sink;
  }

  lemma WorkedGood(s: State, w: WorkerId, move: Move)
    requires Good(s) && Enabled(s, Work(w, move))
    ensures Good(Step(s, Work(w, move))) && StampsKept(s, Step(s, Work(w, move)))
  {
    var t := Step(s, Work(w, move));
    WorkedTable(s, w, move);
    WorkedWorker(s, w, move, w);
    forall v | 0 <= v < |s.all| ensures WorkerGood(t, v) { WorkedWorker(s, w, move, v); }
    assert StampsKept(s, t) by {
      forall v | 0 <= v < |s.all| { WorkedWorker(s, w, move, v); }
    }
    hide WorkerGood, TableGood;
    forall d | d in t.sink ensures DeliveryGood(t, d) {
      if d in s.sink {
        DeliveryStaysGood(s, t, d);
      } else {
        WorkedSink(s, w, move, d);
        DeliveryOfStays(s, t, d);
      }
    }
  }

  lemma DeliveryOfStays(s: State, t: State, d: Delivery)
    requires d.worker < |s.all| && CheckedInTime(s.all[d.worker], d.checked) && d.checked < s.steps && StampsKept(s, t)
    ensures DeliveryGood(t, d)
  {
  }

  lemma DroppedWorker(s: State, wanted: map<string, Camera>, w: WorkerId)
    requires Good(s) && w < |s.all|
    ensures var t := Dropped(s, wanted).(steps := s.steps + 1);
            WorkerGood(t, w) && t.all[w].camera == s.all[w].camera && t.all[w].registered == s.all[w].registered
            && (s.all[w].lost.Some? ==> t.all[w].lost == s.all[w].lost)
            && (s.all[w].lost.None? && t.all[w].lost.Some? ==> s.steps <= t.all[w].lost.value)
  {
    hide Drops;
    DropsTable(s, wanted, w);
    assert WorkerGood(s, w);
  }

  lemma DroppedGood(s: State, wanted: map<string, Camera>)
    requires Good(s)
    ensures Good(Dropped(s, wanted).(steps := s.steps + 1)) && StampsKept(s, Dropped(s, wanted).(steps := s.steps + 1))
    ensures forall id :: id in Dropped(s, wanted).workers <==> Keeps(s, wanted, id)
  {
    hide Drops;
    var t := Dropped(s, wanted).(steps := s.steps + 1);
    assert TableGood(t);
    forall w | 0 <= w < |t.all| { DroppedWorker(s, wanted, w); }
    hide WorkerGood;
    forall d | d in t.sink ensures DeliveryGood(t, d) { DeliveryStaysGood(s, t, d); }
  }

  /** What starting the walked cameras adds. */
  lemma {:induction false} StartAllAdds(s: State, wanted: map<string, Camera>, order: seq<string>)
    requires forall id :: id in order ==> id in wanted && wanted[id].id == id && id !in s.workers
    requires forall i, j :: 0 <= i < j < |order| ==> order[i] != order[j]
    ensures var t := StartAll(s, wanted, order);
            && t.steps == s.steps && t.sink == s.sink && t.closed == s.closed
            && |s.all| <= |t.all| && (forall w :: 0 <= w < |s.all| ==> t.all[w] == s.all[w])
            && (forall id :: id in t.workers <==> id in s.workers || id in order)
            && (forall id :: id in s.workers ==> t.workers[id] == s.workers[id])
            && (forall id :: id in order ==>
                |s.all| <= t.workers[id] < |t.all| && t.all[t.workers[id]].camera == wanted[id])
            && (forall w :: |s.all| <= w < |t.all| ==> t.all[w].registered == s.steps)
    decreases |order|
  {
    if order == [] {
    } else {
      var rest, last := order[..|order| - 1], order[|order| - 1];
      assert order == rest + [last];
      assert last !in rest;
      StartAllAdds(s, wanted, rest);
    }
  }

  lemma {:induction false} StartAllGood(s: State, wanted: map<string, Camera>, order: seq<string>)
    requires Good(s.(steps := s.steps + 1))
    requires forall id :: id in order ==> id in wanted && wanted[id].id == id && id !in s.workers
    requires forall i, j :: 0 <= i < j < |order| ==> order[i] != order[j]
    ensures Good(StartAll(s, wanted, order).(steps := s.steps + 1))
    decreases |order|
  {
    hide Good;
    if order == [] {
    } else {
      var rest, last := order[..|order| - 1], order[|order| - 1];
      assert order == rest + [last];
      assert last !in rest;
      StartAllAdds(s, wanted, rest);
      StartAllGood(s, wanted, rest);
      StartGood(StartAll(s, wanted, rest), wanted[last]);
    }
  }

  lemma StartGood(s: State, camera: Camera)
    requires Good(s.(steps := s.steps + 1)) && camera.id !in s.workers
    ensures Good(Start(s, camera).(steps := s.steps + 1))
  {
    var before, t := s.(steps := s.steps + 1), Start(s, camera).(steps := s.steps + 1);
    assert TableGood(t) by { assert TableGood(before); }
    forall w | 0 <= w < |t.all| ensures WorkerGood(t, w) {
      if w < |s.all| {
        assert WorkerGood(before, w);
        assert Current(t, w) == Current(before, w);
      }
    }
    forall d | d in t.sink ensures DeliveryGood(t, d) { assert DeliveryGood(before, d); }
  }

  lemma {:induction false} WantedGood(cameras: seq<Camera>)
    ensures forall id :: id in Wanted(cameras) ==>
          Wanted(cameras)[id] in cameras && Wanted(cameras)[id].id == id && Usable(Wanted(cameras)[id])
    ensures forall camera :: camera in cameras && Usable(camera) ==> camera.id in Wanted(cameras)
  {
    hide Usable;
    if cameras == [] {
    } else {
      WantedGood(cameras[..|cameras| - 1]);
      assert cameras == cameras[..|cameras| - 1] + [cameras[|cameras| - 1]];
    }
  }

  /** The camera at `i` is usable and the last of its identifier that is. */
  predicate LastUsable(cameras: seq<Camera>, id: string, i: int) {
    && 0 <= i < |cameras| && IsUsable(cameras[i]) && cameras[i].id == id
    && forall j :: i < j < |cameras| ==> !(IsUsable(cameras[j]) && cameras[j].id == id)
  }

  /** Nothing is missing that a worker needs. */
  predicate IsUsable(camera: Camera) {
    !(camera.id == "" || camera.deviceID == 0 || camera.token == "" || camera.host == "" || camera.port < 1)
  }

  /** Wanted are the usable cameras, each as it is listed last. */
  lemma {:induction false} LastUsableIsWanted(cameras: seq<Camera>, id: string)
    ensures id in Wanted(cameras) <==> exists i :: LastUsable(cameras, id, i)
    ensures forall i :: LastUsable(cameras, id, i) ==> Wanted(cameras)[id] == cameras[i]
  {
    if cameras == [] {
    } else {
      var n := |cameras| - 1;
      var rest := cameras[..n];
      LastUsableIsWanted(rest, id);
      if IsUsable(cameras[n]) && cameras[n].id == id {
        assert LastUsable(cameras, id, n);
      } else {
        forall i ensures LastUsable(cameras, id, i) <==> LastUsable(rest, id, i) {
          if LastUsable(rest, id, i) { assert cameras[i] == rest[i]; }
        }
      }
    }
  }

  lemma ReconcileGood(s: State, cameras: seq<Camera>, order: seq<string>)
    requires Good(s) && Enabled(s, Reconcile(cameras, order))
    ensures Good(Step(s, Reconcile(cameras, order))) && StampsKept(s, Step(s, Reconcile(cameras, order)))
  {
    var wanted := Wanted(cameras);
    WantedGood(cameras);
    DroppedGood(s, wanted);
    var dropped := Dropped(s, wanted);
    hide Wanted, Good, Dropped, Drops, Usable, Keeps;
    StartAllAdds(dropped, wanted, order);
    StartAllGood(dropped, wanted, order);
    hide StartAll;
    assert Step(s, Reconcile(cameras, order)) == StartAll(dropped, wanted, order).(steps := s.steps + 1);
  }

  lemma DroppedKeeps(s: State, wanted: map<string, Camera>)
    requires Good(s)
    ensures var t := Dropped(s, wanted);
            && |t.all| == |s.all|
            && (forall id :: id in t.workers <==> Keeps(s, wanted, id))
            && (forall id :: id in t.workers ==>
                t.workers[id] == s.workers[id] && t.all[t.workers[id]].camera == wanted[id])
  {
    hide Drops, WorkerGood, DeliveryGood;
  }

  /**
   Reconcile leaves one worker for exactly the wanted cameras: the same one where the camera is unchanged, a new one
   otherwise.
   */
  lemma ReconcileRegisters(s: State, cameras: seq<Camera>, order: seq<string>)
    requires Good(s) && Enabled(s, Reconcile(cameras, order))
    ensures var t, wanted := Step(s, Reconcile(cameras, order)), Wanted(cameras);
            && t.workers.Keys == wanted.Keys
            && forall id :: id in wanted ==>
                 && t.workers[id] < |t.all| && t.all[t.workers[id]].camera == wanted[id]
                 && (if Keeps(s, wanted, id) then t.workers[id] == s.workers[id] else t.workers[id] >= |s.all|)
  {
    var wanted := Wanted(cameras);
    WantedGood(cameras);
    var dropped := Dropped(s, wanted);
    DroppedKeeps(s, wanted);
    hide Wanted, Dropped, Usable, Good;
    StartAllAdds(dropped, wanted, order);
    assert Step(s, Reconcile(cameras, order)) == StartAll(dropped, wanted, order).(steps := s.steps + 1);
    hide StartAll, Step;
  }

  lemma CancelGood(s: State)
    requires Good(s)
    ensures Good(Step(s, CancelContext)) && StampsKept(s, Step(s, CancelContext))
  {
    var t := Step(s, CancelContext);
    forall w | 0 <= w < |t.all| ensures WorkerGood(t, w) {
      assert WorkerGood(s, w);
      assert Current(t, w) == Current(s, w);
    }
    forall d | d in t.sink ensures DeliveryGood(t, d) { DeliveryStaysGood(s, t, d); }
  }

  lemma ClosedGood(s: State)
    requires Good(s) && Enabled(s, Close)
    ensures Good(Step(s, Close)) && StampsKept(s, Step(s, Close))
  {
    var t := Step(s, Close);
    assert TableGood(t) && StampsKept(s, t);
    forall w | 0 <= w < |t.all| ensures WorkerGood(t, w) {
      assert WorkerGood(s, w);
      if Current(s, w) { assert s.workers[s.all[w].camera.id] in s.workers.Values; }
    }
    forall d | d in t.sink ensures DeliveryGood(t, d) { DeliveryStaysGood(s, t, d); }
  }

  lemma StepKeepsGood(s: State, e: Event)
    requires Good(s) && Enabled(s, e)
    ensures Good(Step(s, e)) && StampsKept(s, Step(s, e))
  {
    hide Good, StampsKept;
    match e
    case Reconcile(cameras, order) => ReconcileGood(s, cameras, order);
    case CancelContext => CancelGood(s);
    case Close => ClosedGood(s);
    case Work(w, move) => WorkedGood(s, w, move);
  }

  lemma {:induction false} RunKeepsGood(s: State, events: seq<Event>, end: State)
    requires Good(s) && Run(s, events, end)
    ensures Good(end) && (events == [] || StampsKept(s, end))
    decreases |events|
  {
    hide Good, StampsKept, Step, Enabled;
    if events == [] {
    } else {
      var next := Step(s, events[0]);
      StepKeepsGood(s, events[0]);
      RunKeepsGood(next, events[1..], end);
      if events[1..] != [] { StampsCompose(s, next, end); }
    }
  }

  lemma StampsCompose(a: State, b: State, c: State)
    requires StampsKept(a, b) && StampsKept(b, c)
    ensures StampsKept(a, c)
  {
  }

  // ---- ownership ----

  /** A worker that lost its registration never passes the ownership check again. */
  lemma LostForGood(s: State, events: seq<Event>, end: State, w: WorkerId)
    requires Good(s) && w < |s.all| && !Current(s, w) && Run(s, events, end)
    ensures w < |end.all| && !Current(end, w)
  {
    RunKeepsGood(s, events, end);
    assert WorkerGood(s, w);
    if events != [] { assert WorkerGood(end, w); }
  }

  /** A retiring worker gives up its own registration and nobody else's. */
  lemma RetireIsOwn(s: State, w: WorkerId, id: string)
    requires Good(s) && Enabled(s, Work(w, Retire))
    ensures var t := Step(s, Work(w, Retire));
            && (id in t.workers <==> id in s.workers && s.workers[id] != w)
            && (id in t.workers ==> t.workers[id] == s.workers[id])
            && (t.all[w].place.Final? <==> Current(s, w))
  {
    assert WorkerGood(s, w);
  }

  lemma RunBack(s: State, e: Event, events: seq<Event>, end: State)
    requires Enabled(s, e) && Run(Step(s, e), events, end)
    ensures Run(s, [e] + events, end)
  {
    assert ([e] + events)[0] == e && ([e] + events)[1..] == events;
  }

  lemma RunNothing(s: State)
    ensures Run(s, [], s)
  {
  }

  lemma StepCounts(s: State, e: Event)
    requires Enabled(s, e)
    ensures Step(s, e).steps == s.steps + 1
  {
  }

  lemma {:induction false} Splits(s: State, events: seq<Event>, end: State, k: nat) returns (mid: State)
    requires Run(s, events, end) && k <= |events|
    ensures Run(s, events[..k], mid) && Run(mid, events[k..], end) && mid.steps == s.steps + k
    decreases |events|
  {
    hide Step, Enabled;
    if k == 0 {
      mid := s;
      assert events[0..] == events;
    } else {
      StepCounts(s, events[0]);
      mid := Splits(Step(s, events[0]), events[1..], end, k - 1);
      assert events[1..][k - 1..] == events[k..];
      RunBack(s, events[0], events[1..][..k - 1], mid);
      assert [events[0]] + events[1..][..k - 1] == events[..k];
    }
  }

  /** What allowed a report: the check of the step it is stamped with. */
  predicate Allowed(events: seq<Event>, w: WorkerId, checked: nat) {
    checked < |events| && (events[checked] == Work(w, Check) || events[checked] == Work(w, Retire))
  }

  predicate Traced(events: seq<Event>, s: State) {
    && s.steps == |events|
    && (forall w :: 0 <= w < |s.all| && s.all[w].place.Reporting? ==> Allowed(events, w, s.all[w].place.checked))
    && (forall w :: 0 <= w < |s.all| && s.all[w].place.Final? ==> Allowed(events, w, s.all[w].place.checked))
    && (forall d :: d in s.sink ==> Allowed(events, d.worker, d.checked))
  }

  lemma AllowedGrows(events: seq<Event>, e: Event, w: WorkerId, checked: nat)
    requires Allowed(events, w, checked)
    ensures Allowed(events + [e], w, checked)
  {
  }

  lemma WorkTraces(events: seq<Event>, s: State, w: WorkerId, move: Move)
    requires Traced(events, s) && MoveEnabled(s, w, move)
    requires forall v, c :: Allowed(events, v, c) ==> Allowed(events + [Work(w, move)], v, c)
    ensures Traced(events + [Work(w, move)], Worked(s, w, move).(steps := s.steps + 1))
  {
    hide Current;
    var all := events + [Work(w, move)];
    assert all[|events|] == Work(w, move);
    assert move.Check? || move.Retire? ==> Allowed(all, w, |events|);
    hide Allowed;
    var t := Worked(s, w, move);
    assert forall v :: 0 <= v < |s.all| && v != w ==> t.all[v] == s.all[v];
    if move.Deliver? {
      assert forall d :: d in t.sink ==> d in s.sink || (d.worker == w && d.checked == s.all[w].place.checked);
    } else {
      assert t.sink == s.sink;
    }
  }

  /** What a step can make of places and of the sink. */
  lemma StepTraces(events: seq<Event>, s: State, e: Event)
    requires Good(s) && Traced(events, s) && Enabled(s, e)
    ensures Traced(events + [e], Step(s, e))
  {
    var t := Step(s, e);
    forall w, c | Allowed(events, w, c) ensures Allowed(events + [e], w, c) { AllowedGrows(events, e, w, c); }
    hide Good, Allowed, MoveEnabled, Worked;
    match e
    case Work(w, move) => WorkTraces(events, s, w, move);
    case CancelContext => assert t.all == s.all;
    case Close => assert forall v :: 0 <= v < |s.all| ==> t.all[v].place == s.all[v].place;
    case Reconcile(cameras, order) => ReconcilePlaces(s, cameras, order);
  }

  lemma ReconcilePlaces(s: State, cameras: seq<Camera>, order: seq<string>)
    requires Good(s) && Enabled(s, Reconcile(cameras, order))
    ensures var t := Step(s, Reconcile(cameras, order));
            && t.sink == s.sink && |s.all| <= |t.all|
            && (forall w :: 0 <= w < |s.all| ==> t.all[w].place == s.all[w].place)
            && (forall w :: |s.all| <= w < |t.all| ==> t.all[w].place == Checking(Available(false)))
  {
    hide Drops, Good, Wanted;
    StartAllPlaces(Dropped(s, Wanted(cameras)), Wanted(cameras), order);
  }

  lemma {:induction false} StartAllPlaces(s: State, wanted: map<string, Camera>, order: seq<string>)
    requires forall id :: id in order ==> id in wanted
    ensures var t := StartAll(s, wanted, order);
            && t.sink == s.sink && |s.all| <= |t.all| && (forall w :: 0 <= w < |s.all| ==> t.all[w] == s.all[w])
            && (forall w :: |s.all| <= w < |t.all| ==> t.all[w].place == Checking(Available(false)))
    decreases |order|
  {
    if order == [] {
    } else {
      StartAllPlaces(s, wanted, order[..|order| - 1]);
    }
  }

  lemma {:induction false} RunTraces(before: seq<Event>, s: State, events: seq<Event>, end: State)
    requires Good(s) && Traced(before, s) && Run(s, events, end)
    ensures Traced(before + events, end)
    decreases |events|
  {
    hide Good, Traced, Step, Enabled;
    if events == [] {
      assert before + events == before;
    } else {
      StepKeepsGood(s, events[0]);
      StepTraces(before, s, events[0]);
      RunTraces(before + [events[0]], Step(s, events[0]), events[1..], end);
      assert before + [events[0]] + events[1..] == before + events;
    }
  }

  lemma InitIsGood()
    ensures Good(Init()) && Traced([], Init())
  {
  }

  /**
   Every report that reached the sink followed a check of its worker, or its retirement, made while that worker was
   the registered one of its camera.
   */
  lemma ReportsWereOwned(events: seq<Event>, end: State, d: Delivery) returns (mid: State)
    requires Run(Init(), events, end) && d in end.sink
    ensures Allowed(events, d.worker, d.checked) && Run(Init(), events[..d.checked], mid)
    ensures d.worker < |mid.all| && Current(mid, d.worker)
  {
    InitIsGood();
    RunTraces([], Init(), events, end);
    assert [] + events == events;
    RunKeepsGood(Init(), events, end);
    mid := Splits(Init(), events, end, d.checked);
    RunKeepsGood(Init(), events[..d.checked], mid);
    RunKeepsGood(mid, events[d.checked..], end);
    assert DeliveryGood(end, d) && StampsKept(mid, end);
    assert d.worker < |mid.all|;
    assert WorkerGood(mid, d.worker);
  }

  // ---- what a worker reports ----

  /** What one more event lets the worker hear. */
  function Hears(was: Report, e: Event, w: WorkerId): Report {
    if !(e.Work? && e.worker == w) then was
    else
      match e.move
      case Capability(Some(capable)) => Supported(capable)
      case Read(Some(degrees)) => Temperature(degrees)
      case Capability(None) => Available(false)
      case Read(None) => Available(false)
      case Connect(ok) => if ok then was else Available(false)
      case Retire => Available(false)
      case _ => was
  }

  /** By the events alone: what the worker heard last, and that nothing can be had while it heard nothing. */
  function Heard(past: seq<Event>, w: WorkerId): Report {
    if past == [] then Available(false) else Hears(Heard(past[..|past| - 1], w), past[|past| - 1], w)
  }

  /** The worker was stopped, or its camera has no temperature. */
  predicate HasReason(past: seq<Event>, w: WorkerId) {
    Work(w, Stop) in past || Work(w, Capability(Some(false))) in past
  }

  /** Where a worker is, by what it heard last and whether it has a reason to go. */
  predicate Says(heard: Report, reason: bool, place: Place) {
    match place
    case Checking(report) => report == heard
    case Reporting(report, _) => report == heard
    case Final(_) => heard == Available(false) && reason
    case Retrying => heard == Available(false)
    case Retiring => reason
    case Done => reason
    case _ => true
  }

  ghost predicate AllSay(past: seq<Event>, s: State) {
    && (forall w :: 0 <= w < |s.all| ==> Says(Heard(past, w), HasReason(past, w), s.all[w].place))
    && (forall w: WorkerId :: w >= |s.all| ==> Heard(past, w) == Available(false))
  }

  lemma {:induction false} HeardIncapable(past: seq<Event>, w: WorkerId)
    requires Heard(past, w) == Supported(false)
    ensures HasReason(past, w)
    decreases |past|
  {
    if past == [] {
    } else {
      var rest, last := past[..|past| - 1], past[|past| - 1];
      assert past == rest + [last];
      if last != Work(w, Capability(Some(false))) { HeardIncapable(rest, w); }
    }
  }

  lemma HeardMore(past: seq<Event>, e: Event, w: WorkerId)
    ensures Heard(past + [e], w) == Hears(Heard(past, w), e, w)
    ensures HasReason(past + [e], w)
       <==> HasReason(past, w) || e == Work(w, Stop) || e == Work(w, Capability(Some(false)))
  {
    assert (past + [e])[..|past|] == past;
  }

  lemma WorkSays(s: State, w: WorkerId, move: Move, heard: Report, reason: bool)
    requires MoveEnabled(s, w, move) && Says(heard, reason, s.all[w].place)
    requires heard == Supported(false) ==> reason
    ensures var e := Work(w, move);
            && |Worked(s, w, move).all| == |s.all|
            && Says(Hears(heard, e, w), reason || move.Stop? || move == Capability(Some(false)),
                    Worked(s, w, move).all[w].place)
            && forall v :: 0 <= v < |s.all| && v != w ==> Worked(s, w, move).all[v] == s.all[v]
  {
  }

  lemma OthersSay(past: seq<Event>, s: State, t: State, e: Event)
    requires AllSay(past, s) && !e.Work? && |s.all| <= |t.all|
    requires forall w :: 0 <= w < |s.all| ==> t.all[w].place == s.all[w].place
    requires forall w :: |s.all| <= w < |t.all| ==> t.all[w].place == Checking(Available(false))
    ensures AllSay(past + [e], t)
  {
    hide Heard, HasReason;
    forall w: WorkerId { HeardMore(past, e, w); }
  }

  lemma StepSays(past: seq<Event>, s: State, e: Event)
    requires Good(s) && AllSay(past, s) && Enabled(s, e)
    ensures AllSay(past + [e], Step(s, e))
  {
    hide Good, Heard, HasReason, Says;
    match e
    case Work(w, move) =>
      if Heard(past, w) == Supported(false) { HeardIncapable(past, w); }
      WorkSays(s, w, move, Heard(past, w), HasReason(past, w));
      hide Worked;
      forall v: WorkerId { HeardMore(past, e, v); }
    case CancelContext => OthersSay(past, s, Step(s, e), e);
    case Close => OthersSay(past, s, Step(s, e), e);
    case Reconcile(cameras, order) =>
      ReconcilePlaces(s, cameras, order);
      OthersSay(past, s, Step(s, e), e);
  }

  lemma {:induction false} RunSays(past: seq<Event>, s: State, events: seq<Event>, end: State)
    requires Good(s) && AllSay(past, s) && Run(s, events, end)
    ensures AllSay(past + events, end)
    decreases |events|
  {
    if events == [] {
      assert past + events == past;
    } else {
      hide Good, AllSay, Step, Enabled;
      StepKeepsGood(s, events[0]);
      StepSays(past, s, events[0]);
      RunSays(past + [events[0]], Step(s, events[0]), events[1..], end);
      assert past + [events[0]] + events[1..] == past + events;
    }
  }

  lemma ReachableSays(events: seq<Event>, s: State, w: WorkerId)
    requires Run(Init(), events, s) && w < |s.all|
    ensures Says(Heard(events, w), HasReason(events, w), s.all[w].place)
  {
    hide Good, Heard, Run, Says, HasReason;
    InitIsGood();
    InitSays();
    RunSays([], Init(), events, s);
    assert [] + events == events;
  }

  lemma InitSays()
    ensures AllSay([], Init())
  {
  }

  /** In every run a report that reaches the sink is what its worker heard last, from its own camera. */
  lemma ReportsAreWhatWasHeard(events: seq<Event>, s: State, w: WorkerId)
    requires Run(Init(), events, s) && Enabled(s, Work(w, Deliver))
    ensures |Step(s, Work(w, Deliver)).sink| == |s.sink| + 1 && Step(s, Work(w, Deliver)).sink[..|s.sink|] == s.sink
    ensures var d := Step(s, Work(w, Deliver)).sink[|s.sink|]; d.worker == w && d.report == Heard(events, w)
  {
    hide Run, Heard, Good;
    ReachableSays(events, s, w);
  }

  /** In every run a worker goes only when it was stopped or when its camera said that it has no temperature. */
  lemma WorkersGoForAReason(events: seq<Event>, s: State, w: WorkerId)
    requires Run(Init(), events, s) && w < |s.all|
    requires s.all[w].place.Retiring? || s.all[w].place.Final? || s.all[w].place.Done?
    ensures Work(w, Stop) in events || Work(w, Capability(Some(false))) in events
  {
    hide Run, Heard, Good;
    ReachableSays(events, s, w);
  }

  // ---- a worker comes to report ----

  /** The next move of a worker whose camera answers. */
  function Answering(place: Place, degrees: real): (move: Move) {
    match place
    case Checking(_) => Check
    case Reporting(_, _) => Deliver
    case Connecting => Connect(true)
    case Asking => Capability(Some(true))
    case Reading => Read(Some(degrees))
    case Polling => Wake
    case Retrying => Wake
    case Retiring => Retire
    case Final(_) => Deliver
    case Done => Retire
  }

  /** Moves until the next temperature has been read; none for a worker that goes. */
  function MovesLeft(place: Place): nat {
    match place
    case Checking(Temperature(_)) => 5
    case Reporting(Temperature(_), _) => 4
    case Polling => 3
    case Reading => 2
    case Reporting(Supported(_), _) => 3
    case Checking(Supported(_)) => 4
    case Asking => 5
    case Connecting => 6
    case Reporting(Available(_), _) => 7
    case Checking(Available(_)) => 8
    case Retrying => 9
    case _ => 0
  }

  predicate Going(place: Place) {
    place.Retiring? || place.Final? || place.Done? || place == Checking(Supported(false))
    || (place.Reporting? && place.report == Supported(false))
  }

  lemma AnsweringMove(s: State, w: WorkerId, degrees: real)
    requires w < |s.all| && Current(s, w) && !Going(s.all[w].place)
    ensures Enabled(s, Work(w, Answering(s.all[w].place, degrees)))
    ensures var t := Step(s, Work(w, Answering(s.all[w].place, degrees)));
            && |t.all| == |s.all| && Current(t, w) && !Going(t.all[w].place)
            && (!s.all[w].place.Reading? ==> MovesLeft(t.all[w].place) == MovesLeft(s.all[w].place) - 1)
            && (s.all[w].place.Reading? ==> t.all[w].place == Checking(Temperature(degrees)))
  {
  }

  lemma DeliversReading(s: State, w: WorkerId, degrees: real) returns (events: seq<Event>, end: State)
    requires w < |s.all| && Current(s, w) && s.all[w].place == Checking(Temperature(degrees))
    ensures Run(s, events, end) && forall e :: e in events ==> e.Work? && e.worker == w
    ensures end.sink != [] && end.sink[|end.sink| - 1].worker == w
    ensures end.sink[|end.sink| - 1].report == Temperature(degrees)
  {
    var checked := Step(s, Work(w, Check));
    end := Step(checked, Work(w, Deliver));
    RunNothing(end);
    RunBack(checked, Work(w, Deliver), [], end);
    RunBack(s, Work(w, Check), [Work(w, Deliver)] + [], end);
    events := [Work(w, Check)] + ([Work(w, Deliver)] + []);
  }

  /** A registered worker that has no reason to go comes, by its own moves, to report what its camera reads. */
  lemma ComesToReport(s: State, w: WorkerId, degrees: real) returns (events: seq<Event>, end: State)
    requires w < |s.all| && Current(s, w) && !Going(s.all[w].place)
    ensures Run(s, events, end) && forall e :: e in events ==> e.Work? && e.worker == w
    ensures end.sink != [] && end.sink[|end.sink| - 1].worker == w
    ensures end.sink[|end.sink| - 1].report == Temperature(degrees)
    decreases MovesLeft(s.all[w].place)
  {
    hide Step, Enabled, Going, Run, MovesLeft;
    var e := Work(w, Answering(s.all[w].place, degrees));
    AnsweringMove(s, w, degrees);
    var next := Step(s, e);
    var rest;
    if s.all[w].place.Reading? {
      rest, end := DeliversReading(next, w, degrees);
    } else {
      ReadingIsBelow(s.all[w].place);
      rest, end := ComesToReport(next, w, degrees);
    }
    RunBack(s, e, rest, end);
    events := [e] + rest;
  }

  lemma ReadingIsBelow(place: Place)
    requires !Going(place)
    ensures MovesLeft(place) > 0
  {
  }

  // ---- who is stopped, and that it goes ----

  /** A worker is cancelled exactly if another step took its registration; one that gave it up itself has retired. */
  predicate StoppedRightly(worker: Worker) {
    && (worker.cancelled ==> worker.lost.Some?)
    && (worker.lost.Some? && !worker.cancelled ==> worker.place.Final? || worker.place.Done?)
  }

  predicate AllStoppedRightly(past: seq<Event>, s: State) {
    && (forall w :: 0 <= w < |s.all| ==> StoppedRightly(s.all[w]))
    && (s.closed <==> CancelContext in past)
  }

  lemma WorkStops(s: State, w: WorkerId, move: Move)
    requires MoveEnabled(s, w, move) && StoppedRightly(s.all[w])
    ensures var t := Worked(s, w, move);
            && |t.all| == |s.all| && t.closed == s.closed && StoppedRightly(t.all[w])
            && forall v :: 0 <= v < |s.all| && v != w ==> t.all[v] == s.all[v]
  {
  }

  lemma {:induction false} StartAllStops(s: State, wanted: map<string, Camera>, order: seq<string>)
    requires forall id :: id in order ==> id in wanted
    requires forall w :: 0 <= w < |s.all| ==> StoppedRightly(s.all[w])
    ensures var t := StartAll(s, wanted, order);
            t.closed == s.closed && forall w :: 0 <= w < |t.all| ==> StoppedRightly(t.all[w])
    decreases |order|
  {
    if order == [] {
    } else {
      StartAllStops(s, wanted, order[..|order| - 1]);
    }
  }

  lemma StepStops(past: seq<Event>, s: State, e: Event)
    requires AllStoppedRightly(past, s) && Enabled(s, e)
    ensures AllStoppedRightly(past + [e], Step(s, e))
  {
    assert forall other :: other in past + [e] <==> other in past || other == e;
    match e
    case Work(w, move) =>
      WorkStops(s, w, move);
      hide Worked, MoveEnabled;
    case Reconcile(cameras, order) =>
      hide Drops;
      StartAllStops(Dropped(s, Wanted(cameras)), Wanted(cameras), order);
      hide StartAll, Dropped;
    case CancelContext =>
    case Close =>
  }

  lemma {:induction false} RunStops(past: seq<Event>, s: State, events: seq<Event>, end: State)
    requires AllStoppedRightly(past, s) && Run(s, events, end)
    ensures AllStoppedRightly(past + events, end)
    decreases |events|
  {
    if events == [] {
      assert past + events == past;
    } else {
      hide AllStoppedRightly, Step, Enabled;
      StepStops(past, s, events[0]);
      RunStops(past + [events[0]], Step(s, events[0]), events[1..], end);
      assert past + [events[0]] + events[1..] == past + events;
    }
  }

  /**
   In every run the registered worker of a camera is not stopped unless the context is cancelled, and one that is not
   registered any more is stopped unless it has retired by itself; the context is cancelled exactly if that was asked.
   */
  lemma TheReplacedAreStopped(events: seq<Event>, s: State, w: WorkerId)
    requires Run(Init(), events, s) && w < |s.all|
    ensures s.closed <==> CancelContext in events
    ensures Current(s, w) ==> !s.all[w].cancelled
    ensures !Current(s, w) ==> s.all[w].cancelled || s.all[w].place.Final? || s.all[w].place.Done?
  {
    hide Run, Good, AllStoppedRightly, Current;
    InitIsGood();
    InitStops();
    RunKeepsGood(Init(), events, s);
    RunStops([], Init(), events, s);
    assert [] + events == events;
    StopsAt(events, s, w);
  }

  lemma InitStops()
    ensures AllStoppedRightly([], Init())
  {
  }

  lemma StopsAt(past: seq<Event>, s: State, w: WorkerId)
    requires Good(s) && AllStoppedRightly(past, s) && w < |s.all|
    ensures s.closed <==> CancelContext in past
    ensures Current(s, w) ==> !s.all[w].cancelled
    ensures !Current(s, w) ==> s.all[w].cancelled || s.all[w].place.Final? || s.all[w].place.Done?
  {
    assert WorkerGood(s, w) && StoppedRightly(s.all[w]);
    hide Good;
  }

  /** The next move of a worker that was stopped; what it has asked for fails. */
  function Leaving(place: Place): Move {
    match place
    case Checking(_) => Check
    case Reporting(_, _) => Deliver
    case Connecting => Connect(false)
    case Asking => Capability(None)
    case Reading => Read(None)
    case Polling => Stop
    case Retrying => Stop
    case Retiring => Move.Retire
    case Final(_) => Deliver
    case Done => Move.Retire
  }

  function MovesToGo(place: Place): nat {
    match place
    case Done => 0
    case Final(_) => 1
    case Retiring => 2
    case Polling => 3
    case Retrying => 3
    case Connecting => 4
    case Asking => 4
    case Reading => 4
    case Reporting(_, _) => 5
    case Checking(_) => 6
  }

  lemma LeavingMove(s: State, w: WorkerId)
    requires w < |s.all| && Stopped(s, w) && s.all[w].place != Done
    ensures Enabled(s, Work(w, Leaving(s.all[w].place)))
    ensures var t := Step(s, Work(w, Leaving(s.all[w].place)));
            |t.all| == |s.all| && Stopped(t, w) && MovesToGo(t.all[w].place) < MovesToGo(s.all[w].place)
  {
  }

  /** A worker that was stopped comes, by at most six moves of its own, to its end. */
  lemma StoppedWorkersEnd(s: State, w: WorkerId) returns (events: seq<Event>, end: State)
    requires w < |s.all| && (s.closed || s.all[w].cancelled)
    ensures Run(s, events, end) && forall e :: e in events ==> e.Work? && e.worker == w
    ensures w < |end.all| && end.all[w].place == Done && |events| <= MovesToGo(s.all[w].place) <= 6
    decreases MovesToGo(s.all[w].place)
  {
    hide Step, Enabled, Run, Stopped;
    if s.all[w].place == Done {
      events, end := [], s;
      RunNothing(s);
    } else {
      var e := Work(w, Leaving(s.all[w].place));
      LeavingMove(s, w);
      var rest;
      rest, end := StoppedWorkersEnd(Step(s, e), w);
      RunBack(s, e, rest, end);
      events := [e] + rest;
    }
  }

  // ---- a camera without a temperature is not asked for one ----

  /** What the camera last said about having a temperature. */
  function Said(was: Option<bool>, e: Event, w: WorkerId): Option<bool> {
    if e.Work? && e.worker == w && e.move.Capability? && e.move.answer.Some? then e.move.answer else was
  }

  function LastSaid(past: seq<Event>, w: WorkerId): Option<bool> {
    if past == [] then None else Said(LastSaid(past[..|past| - 1], w), past[|past| - 1], w)
  }

  /** Readings are only under way where the camera said that it has a temperature. */
  predicate ReadsRightly(said: Option<bool>, place: Place) {
    match place
    case Reading => said == Some(true)
    case Polling => said == Some(true)
    case Checking(Temperature(_)) => said == Some(true)
    case Reporting(Temperature(_), _) => said == Some(true)
    case Checking(Supported(capable)) => said == Some(capable)
    case Reporting(Supported(capable), _) => said == Some(capable)
    case _ => true
  }

  ghost predicate AllReadRightly(past: seq<Event>, s: State) {
    forall w :: 0 <= w < |s.all| ==> ReadsRightly(LastSaid(past, w), s.all[w].place)
  }

  lemma SaidMore(past: seq<Event>, e: Event, w: WorkerId)
    ensures LastSaid(past + [e], w) == Said(LastSaid(past, w), e, w)
  {
    assert (past + [e])[..|past|] == past;
  }

  lemma WorkReads(s: State, w: WorkerId, move: Move, said: Option<bool>)
    requires MoveEnabled(s, w, move) && ReadsRightly(said, s.all[w].place)
    ensures |Worked(s, w, move).all| == |s.all|
    ensures ReadsRightly(Said(said, Work(w, move), w), Worked(s, w, move).all[w].place)
    ensures forall v :: 0 <= v < |s.all| && v != w ==> Worked(s, w, move).all[v] == s.all[v]
  {
  }

  lemma StepReads(past: seq<Event>, s: State, e: Event)
    requires Good(s) && AllReadRightly(past, s) && Enabled(s, e)
    ensures AllReadRightly(past + [e], Step(s, e))
  {
    hide Good, LastSaid, ReadsRightly;
    forall v: WorkerId { SaidMore(past, e, v); }
    match e
    case Work(w, move) =>
      WorkReads(s, w, move, LastSaid(past, w));
      hide Worked;
    case CancelContext =>
    case Close =>
    case Reconcile(cameras, order) =>
      ReconcilePlaces(s, cameras, order);
      NewReadNothing();
  }

  lemma NewReadNothing()
    ensures forall said :: ReadsRightly(said, Checking(Available(false)))
  {
  }

  lemma {:induction false} RunReads(past: seq<Event>, s: State, events: seq<Event>, end: State)
    requires Good(s) && AllReadRightly(past, s) && Run(s, events, end)
    ensures AllReadRightly(past + events, end)
    decreases |events|
  {
    if events == [] {
      assert past + events == past;
    } else {
      hide Good, AllReadRightly, Step, Enabled;
      StepKeepsGood(s, events[0]);
      StepReads(past, s, events[0]);
      RunReads(past + [events[0]], Step(s, events[0]), events[1..], end);
      assert past + [events[0]] + events[1..] == past + events;
    }
  }

  /** In every run a camera is only read while the last it said about it is that it has a temperature. */
  lemma OnlyTheCapableAreRead(events: seq<Event>, s: State, w: WorkerId, degrees: Option<real>)
    requires Run(Init(), events, s) && Enabled(s, Work(w, Read(degrees)))
    ensures LastSaid(events, w) == Some(true)
  {
    InitIsGood();
    InitReads();
    hide Good, AllReadRightly, Run;
    RunReads([], Init(), events, s);
    assert [] + events == events;
    ReadsAt(events, s, w);
  }

  lemma InitReads()
    ensures AllReadRightly([], Init())
  {
  }

  lemma ReadsAt(past: seq<Event>, s: State, w: WorkerId)
    requires AllReadRightly(past, s) && w < |s.all|
    ensures ReadsRightly(LastSaid(past, w), s.all[w].place)
  {
  }

  /** Closing leaves no camera with a worker, and stops every worker that had one. */
  lemma CloseStopsAll(s: State, w: WorkerId)
    requires Good(s) && s.closed && w < |s.all|
    ensures Enabled(s, Close) && Step(s, Close).workers == map[] && w < |Step(s, Close).all|
    ensures Current(s, w) ==> Step(s, Close).all[w].cancelled
    ensures Step(s, Close).all[w].place == s.all[w].place && Step(s, Close).closed
  {
    hide WorkerGood, DeliveryGood;
  }

  // ---- at most one late report ----

  function Deliveries(events: seq<Event>, w: WorkerId): nat
    decreases |events|
  {
    if events == [] then 0 else (if events[0] == Work(w, Deliver) then 1 else 0) + Deliveries(events[1..], w)
  }

  /** Whether a report is on its way. */
  function OnItsWay(s: State, w: WorkerId): nat
    requires w < |s.all|
  {
    if s.all[w].place.Reporting? || s.all[w].place.Final? then 1 else 0
  }

  lemma StepUsesUp(s: State, e: Event, w: WorkerId)
    requires Good(s) && Enabled(s, e) && w < |s.all| && !Current(s, w)
    ensures w < |Step(s, e).all|
    ensures OnItsWay(Step(s, e), w) + (if e == Work(w, Deliver) then 1 else 0) <= OnItsWay(s, w)
  {
    match e
    case Work(v, move) =>
      hide Good;
      assert v != w ==> Step(s, e).all[w] == s.all[w];
    case CancelContext =>
    case Close =>
    case Reconcile(cameras, order) => ReconcilePlaces(s, cameras, order);
  }

  /** After it lost its registration a worker reports at most once more: what it had already checked. */
  lemma {:induction false} OneLateReport(s: State, events: seq<Event>, end: State, w: WorkerId)
    requires Good(s) && w < |s.all| && !Current(s, w) && Run(s, events, end)
    ensures Deliveries(events, w) <= OnItsWay(s, w)
    decreases |events|
  {
    hide Good, Step, Enabled, OnItsWay;
    if events != [] {
      var next := Step(s, events[0]);
      StepKeepsGood(s, events[0]);
      StepUsesUp(s, events[0], w);
      LostForGoodStep(s, events[0], w);
      OneLateReport(next, events[1..], end, w);
    } else {
      NoNegative(s, w);
    }
  }

  lemma NoNegative(s: State, w: WorkerId)
    requires w < |s.all|
    ensures 0 <= OnItsWay(s, w) <= 1
  {
  }

  lemma LostForGoodStep(s: State, e: Event, w: WorkerId)
    requires Good(s) && w < |s.all| && !Current(s, w) && Enabled(s, e)
    ensures w < |Step(s, e).all| && !Current(Step(s, e), w)
  {
    hide Step;
    StepKeepsGood(s, e);
    assert WorkerGood(s, w) && WorkerGood(Step(s, e), w);
  }

  // ---- the late report ----

  /** A run in which the sink hears of the worker. */
  predicate Reports(s: State, events: seq<Event>, end: State, w: WorkerId)
    requires w < |s.all|
  {
    Run(s, events, end) && Deliveries(events, w) > 0
  }

  lemma DeliversAtOnce(s: State, w: WorkerId) returns (events: seq<Event>, end: State)
    requires Good(s) && w < |s.all| && OnItsWay(s, w) == 1
    ensures Reports(s, events, end, w)
  {
    events, end := [Work(w, Deliver)], Step(s, Work(w, Deliver));
    RunNothing(end);
    RunBack(s, Work(w, Deliver), [], end);
    assert events == [Work(w, Deliver)] + [];
  }

  /** A worker that has lost its registration can still report exactly while it has checked and not yet reported. */
  lemma LateReportIff(s: State, w: WorkerId)
    requires Good(s) && w < |s.all| && !Current(s, w)
    ensures OnItsWay(s, w) == 1 <==> exists events, end :: Reports(s, events, end, w)
  {
    hide Good, Run, Deliveries;
    if OnItsWay(s, w) == 1 {
      var events, end := DeliversAtOnce(s, w);
    } else {
      forall events, end | Run(s, events, end) ensures !Reports(s, events, end, w) { OneLateReport(s, events, end, w); }
    }
  }

  /** Nothing but delivering it ends a report that is on its way. */
  lemma StepLeavesItOnItsWay(s: State, e: Event, w: WorkerId)
    requires Good(s) && Enabled(s, e) && w < |s.all| && OnItsWay(s, w) == 1 && e != Work(w, Deliver)
    ensures w < |Step(s, e).all| && OnItsWay(Step(s, e), w) == 1
  {
    match e
    case Work(v, move) =>
      hide Good, Current;
      assert v != w ==> Step(s, e).all[w] == s.all[w];
    case CancelContext =>
    case Close =>
    case Reconcile(cameras, order) => ReconcilePlaces(s, cameras, order);
  }

  /**
   However much the successor reports in the meantime, the late report can still follow, and then it is the last the
   sink has heard.
   */
  lemma {:induction false} LateReportLandsLast(s: State, events: seq<Event>, end: State, w: WorkerId)
    requires Good(s) && w < |s.all| && !Current(s, w) && OnItsWay(s, w) == 1
    requires Run(s, events, end) && Work(w, Deliver) !in events
    ensures Enabled(end, Work(w, Deliver)) && !Current(end, w)
    ensures var sink := Step(end, Work(w, Deliver)).sink;
            |sink| == |end.sink| + 1 && sink[..|end.sink|] == end.sink && sink[|end.sink|].worker == w
    decreases |events|
  {
    if events == [] {
    } else {
      hide Good, Step, OnItsWay;
      assert events[0] in events;
      StepKeepsGood(s, events[0]);
      StepLeavesItOnItsWay(s, events[0], w);
      LostForGoodStep(s, events[0], w);
      LateReportLandsLast(Step(s, events[0]), events[1..], end, w);
    }
  }

  /** Every check can become late: a reconcile may take the registration between it and its report. */
  lemma AnyCheckCanBeLate(s: State, w: WorkerId)
    requires Good(s) && w < |s.all| && Current(s, w) && s.all[w].place.Checking?
    ensures Enabled(Step(s, Work(w, Check)), Reconcile([], []))
    ensures var t := Step(Step(s, Work(w, Check)), Reconcile([], []));
            w < |t.all| && !Current(t, w) && OnItsWay(t, w) == 1
  {
    var checked := Step(s, Work(w, Check));
    StepKeepsGood(s, Work(w, Check));
    assert checked.all[w].place.Reporting?;
    hide Good, Worked;
    assert Wanted([]) == map[];
    ReconcilePlaces(checked, [], []);
    ReconcileRegisters(checked, [], []);
  }

  lemma DropsTable(s: State, wanted: map<string, Camera>, w: WorkerId)
    requires TableGood(s) && w < |s.all|
    ensures Drops(s, wanted, w) <==> Current(s, w) && !Keeps(s, wanted, s.all[w].camera.id)
  {
    if Current(s, w) && !Keeps(s, wanted, s.all[w].camera.id) {
      assert s.workers[s.all[w].camera.id] == w;
    }
  }

  /** The first loop of Reconcile with the cameras of `visit` still to look at. */
  predicate Dropping(s: State, wanted: map<string, Camera>, visit: set<string>, t: State, left: map<string, Camera>)
    requires TableGood(s)
  {
    && visit <= s.workers.Keys && |t.all| == |s.all| && t.closed == s.closed && t.steps == s.steps && t.sink == s.sink
    && t.workers.Keys <= s.workers.Keys && left.Keys <= wanted.Keys
    && (forall id :: id in s.workers ==> (id in t.workers <==> id in visit || Keeps(s, wanted, id)))
    && (forall id :: id in t.workers ==> t.workers[id] == s.workers[id])
    && (forall id :: id in wanted ==> (id in left <==> id in visit || !Keeps(s, wanted, id)))
    && (forall id :: id in left ==> left[id] == wanted[id])
    && (forall w :: 0 <= w < |s.all| ==>
        t.all[w] == if Gone(s, wanted, visit, w) then Cancelled(s.all[w], s.steps) else s.all[w])
  }

  predicate Gone(s: State, wanted: map<string, Camera>, visit: set<string>, w: WorkerId)
    requires TableGood(s) && w < |s.all|
  {
    Current(s, w) && s.all[w].camera.id !in visit && !Keeps(s, wanted, s.all[w].camera.id)
  }

  lemma DroppingKeeps(
      s: State, wanted: map<string, Camera>, visit: set<string>, t: State, left: map<string, Camera>, id: string)
    requires TableGood(s) && Dropping(s, wanted, visit, t, left) && id in visit && Keeps(s, wanted, id)
    ensures Dropping(s, wanted, visit - {id}, t, left - {id})
  {
  }

  lemma DroppingCancels(
      s: State, wanted: map<string, Camera>, visit: set<string>, t: State, left: map<string, Camera>, id: string)
    requires TableGood(s) && Dropping(s, wanted, visit, t, left) && id in visit && !Keeps(s, wanted, id)
    ensures var w := s.workers[id];
            Dropping(s, wanted, visit - {id},
                t.(workers := t.workers - {id}, all := t.all[w := Cancelled(t.all[w], t.steps)]), left)
  {
    hide Cancelled, Keeps;
  }

  lemma DroppingStarts(s: State, wanted: map<string, Camera>)
    requires TableGood(s)
    ensures Dropping(s, wanted, s.workers.Keys, s, wanted)
  {
  }

  lemma DroppingCamera(
      s: State, wanted: map<string, Camera>, visit: set<string>, t: State, left: map<string, Camera>, id: string)
    requires TableGood(s) && Dropping(s, wanted, visit, t, left) && id in visit
    ensures id in s.workers && |t.all| == |s.all| && t.steps == s.steps
    ensures Keeps(s, wanted, id) <==> id in wanted && t.all[s.workers[id]].camera == wanted[id]
  {
  }

  lemma DroppedIs(s: State, wanted: map<string, Camera>, t: State, left: map<string, Camera>)
    requires TableGood(s) && Dropping(s, wanted, {}, t, left)
    ensures t == Dropped(s, wanted)
    ensures forall id :: id in left <==> id in wanted && !Keeps(s, wanted, id)
    ensures forall id :: id in left ==> left[id] == wanted[id]
  {
    hide Drops;
    forall w | 0 <= w < |s.all| ensures t.all[w] == Dropped(s, wanted).all[w] { DropsTable(s, wanted, w); }
    assert t.workers == Kept(s, wanted);
    assert t.all == Dropped(s, wanted).all;
  }

  lemma StartAllMore(s: State, wanted: map<string, Camera>, order: seq<string>, id: string)
    requires id in wanted && forall other :: other in order ==> other in wanted
    ensures forall other :: other in order + [id] ==> other in wanted
    ensures StartAll(s, wanted, order + [id]) == Start(StartAll(s, wanted, order), wanted[id])
  {
    assert (order + [id])[..|order|] == order;
  }

  lemma StartNothing(s: State, wanted: map<string, Camera>)
    ensures StartAll(s, wanted, []) == s
  {
  }

  // ---- the object ----

  /** The Supervisor with its table; `all` holds the workers its pointers reach, `sink` what they reported. */
  class Supervisor {
    var workers: map<string, WorkerId>
    var all: seq<Worker>
    var closed: bool
    var steps: nat
    var sink: seq<Delivery>

    constructor ()
      ensures View() == Init()
    {
      workers, all, closed, steps, sink := map[], [], false, 0, [];
    }

    function View(): State
      reads this
    {
      State(workers, all, closed, steps, sink)
    }

    /** current */
    method IsCurrent(w: WorkerId) returns (r: bool)
      requires w < |all|
      ensures r == Current(View(), w)
    {
      var id := all[w].camera.id;
      r := id in workers && workers[id] == w;
    }

    /** retire, and where the worker goes from there. */
    method Retire(w: WorkerId) returns (own: bool)
      requires MoveEnabled(View(), w, Move.Retire)
      modifies this`workers, this`all, this`steps
      ensures own == Current(old(View()), w) && View() == Step(old(View()), Work(w, Move.Retire))
    {
      own := IsCurrent(w);
      if own {
        workers := workers - {all[w].camera.id};
        all := all[w := all[w].(lost := Some(steps), place := Final(steps))];
      } else {
        all := all[w := all[w].(place := Done)];
      }
      steps := steps + 1;
    }

    method Tabulate(cameras: seq<Camera>) returns (wanted: map<string, Camera>)
      ensures wanted == Wanted(cameras)
    {
      wanted := map[];
      for i := 0 to |cameras|
        invariant wanted == Wanted(cameras[..i])
      {
        assert cameras[..i + 1][..i] == cameras[..i];
        var camera := cameras[i];
        if camera.id == "" || camera.deviceID == 0 || camera.token == "" || camera.host == "" || camera.port < 1 {
          continue;
        }
        wanted := wanted[camera.id := camera];
      }
      assert cameras[..|cameras|] == cameras;
    }

    /** The first loop of Reconcile: cancels and forgets what is not wanted any more; `left` remains to start. */
    method Drop(wanted: map<string, Camera>) returns (left: map<string, Camera>)
      requires TableGood(View())
      modifies this`workers, this`all
      ensures View() == Dropped(old(View()), wanted)
      ensures forall id :: id in left <==> id in wanted && !Keeps(old(View()), wanted, id)
      ensures forall id :: id in left ==> left[id] == wanted[id]
    {
      hide Dropped, Cancelled, Dropping, Keeps;
      left := wanted;
      ghost var start := View();
      var table := workers;
      var visit := workers.Keys;
      DroppingStarts(start, wanted);
      while visit != {}
        invariant table == start.workers && Dropping(start, wanted, visit, View(), left)
        decreases |visit|
      {
        var id :| id in visit;
        ghost var before := View();
        DroppingCamera(start, wanted, visit, before, left, id);
        var w := table[id];
        if id in wanted && all[w].camera == wanted[id] {
          DroppingKeeps(start, wanted, visit, before, left, id);
          left := left - {id};
        } else {
          DroppingCancels(start, wanted, visit, before, left, id);
          all := all[w := Cancelled(all[w], steps)];
          workers := workers - {id};
        }
        visit := visit - {id};
      }
      DroppedIs(start, wanted, View(), left);
    }

    method Reconcile(cameras: seq<Camera>) returns (ghost order: seq<string>)
      requires TableGood(View())
      modifies this`workers, this`all, this`steps
      ensures Enabled(old(View()), Event.Reconcile(cameras, order))
      ensures View() == Step(old(View()), Event.Reconcile(cameras, order))
    {
      var wanted := Tabulate(cameras);
      WantedGood(cameras);
      hide Dropped, Wanted, StartAll, Usable, Keeps;
      var left := Drop(wanted);
      order := [];
      ghost var dropped := View();
      var todo := left.Keys;
      StartNothing(dropped, wanted);
      while todo != {}
        invariant todo <= left.Keys
        invariant forall id :: id in order <==> id in left && id !in todo
        invariant forall id :: id in order ==> id in wanted
        invariant forall i, j :: 0 <= i < j < |order| ==> order[i] != order[j]
        invariant View() == StartAll(dropped, wanted, order) && steps == old(steps)
        decreases |todo|
      {
        var id :| id in todo;
        StartAllMore(dropped, wanted, order, id);
        Register(left[id]);
        order := order + [id];
        todo := todo - {id};
      }
      steps := steps + 1;
    }

    method Register(camera: Camera)
      modifies this`workers, this`all
      ensures View() == Start(old(View()), camera)
    {
      workers := workers[camera.id := |all|];
      all := all + [Worker(camera, false, steps, None, Checking(Available(false)))];
    }

    /** The cancelling of the context, by Close before it takes the lock or by the parent. */
    method Cancel()
      modifies this`closed, this`steps
      ensures View() == Step(old(View()), CancelContext)
    {
      closed := true;
      steps := steps + 1;
    }

    method Close()
      requires TableGood(View())
      modifies this`workers, this`all, this`closed, this`steps
      ensures View() == Step(Step(old(View()), CancelContext), Event.Close)
    {
      Cancel();
      var was, cancelled, step := all, workers.Values, steps;
      all := seq(|was|, w requires 0 <= w < |was| => if w in cancelled then Cancelled(was[w], step) else was[w]);
      workers := map[];
      steps := steps + 1;
      assert all == Closed(Step(old(View()), CancelContext)).all;
    }
  }
}
