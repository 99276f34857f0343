/**
 What the service and the broker say after any run, by the operations of the run alone: nothing here looks at the
 maps of the service or at what an operation does with them.
 */
module MqttHistory {
  import opened Wrappers
  import opened Sorting
  import opened Sequences
  import opened StreamNames
  import opened MqttDiscovery

  // ---- what was asked ----

  /** What the callers have said about one identifier since it was last removed. */
  datatype Said = Said(camera: Option<Camera>, available: Option<bool>, supported: bool, temperature: bool)

  const NOTHING := Said(None, None, false, false)

  /** A camera is refused without identifier or name, and with an address that is not one of its kind. */
  predicate Refused(camera: Camera, rtsp: bool, http: bool) {
    camera.id == "" || camera.name == "" || (camera.streamURL != "" && !rtsp) || (camera.snapshotURL != "" && !http)
  }

  /** What one more operation says about it. */
  function Tell(was: Said, op: Operation, id: string): Said {
    match op
    case Upsert(camera, rtsp, http) =>
      if camera.id == id && !Refused(camera, rtsp, http) then was.(camera := Some(camera)) else was
    case Remove(gone) => if gone == id then NOTHING else was
    case SetCameraAvailable(other, available) => if other == id then was.(available := Some(available)) else was
    case SetTemperatureSupported(other, supported) =>
      if other == id && was.camera.Some?
      then was.(supported := supported, temperature := supported && was.temperature) else was
    case SetTemperatureAvailable(other, available) =>
      if other == id && was.camera.Some? then was.(temperature := available) else was
    case PublishTemperature(other, celsius) =>
      if other == id && was.camera.Some? && celsius.Some? && 0.0 < celsius.value < 50.0
      then was.(temperature := true) else was
    case _ => was
  }

  function Told(ops: seq<Operation>, id: string): Said {
    if ops == [] then NOTHING else Tell(Told(ops[..|ops| - 1], id), ops[|ops| - 1], id)
  }

  /** The connection is up after the last connect, until it is lost or closed. */
  predicate Up(ops: seq<Operation>) {
    ops != [] && (ops[|ops| - 1].Connect? || (!ops[|ops| - 1].Lost? && !ops[|ops| - 1].Close? && Up(ops[..|ops| - 1])))
  }

  function LastStatus(ops: seq<Operation>): Status {
    if ops == [] then Status(0, 0)
    else if ops[|ops| - 1].PublishStatus? then ops[|ops| - 1].status
    else LastStatus(ops[..|ops| - 1])
  }

  /** What one more operation makes of the temperature at the broker: published, retired or left. */
  function TellTemperature(said: Said, up: bool, op: Operation, id: string, shown: Option<Payload>): Option<Payload> {
    match op
    case PublishTemperature(other, celsius) =>
      if other == id && said.camera.Some? && said.supported && up && celsius.Some? && 0.0 < celsius.value < 50.0
      then Some(Celsius(celsius.value)) else shown
    case SetTemperatureSupported(other, supported) =>
      if other == id && said.camera.Some? && up && !supported then None else shown
    case Upsert(camera, rtsp, http) =>
      if camera.id == id && !Refused(camera, rtsp, http) && up && !said.supported then None else shown
    case Connect(_) => if said.camera.Some? && !said.supported then None else shown
    case Remove(gone) => if gone == id && up then None else shown
    case _ => shown
  }

  /** The temperature at the broker: the last one published, unless it was retired since. */
  function ShownTemperature(ops: seq<Operation>, id: string, before: Option<Payload>): Option<Payload> {
    if ops == [] then before
    else
      var past := ops[..|ops| - 1];
      TellTemperature(Told(past, id), Up(past), ops[|ops| - 1], id, ShownTemperature(past, id, before))
  }

  function TellFrame(
      frames: bool, said: Said, up: bool, op: Operation, id: string, shown: Option<Payload>): Option<Payload> {
    match op
    case PublishFrame(other, jpeg) =>
      if other == id && said.camera.Some? && frames && up && |jpeg| >= 2 && jpeg[0] == 0xFF && jpeg[1] == 0xD8
      then Some(Jpeg(jpeg)) else shown
    case Upsert(camera, rtsp, http) =>
      if camera.id == id && !Refused(camera, rtsp, http) && up && !frames then None else shown
    case Connect(_) => if said.camera.Some? && !frames then None else shown
    case Remove(gone) => if gone == id && up then None else shown
    case _ => shown
  }

  /** The frame at the broker: the last one published, unless it was retired since. */
  function ShownFrame(frames: bool, ops: seq<Operation>, id: string, before: Option<Payload>): Option<Payload> {
    if ops == [] then before
    else
      var past := ops[..|ops| - 1];
      TellFrame(frames, Told(past, id), Up(past), ops[|ops| - 1], id, ShownFrame(frames, past, id, before))
  }

  // ---- the maps ----

  /** The maps say about this identifier what was asked. */
  predicate Heard(s: State, said: Said, id: string) {
    && (id in s.cameras <==> said.camera.Some?) && (id in s.cameras ==> s.cameras[id] == said.camera.value)
    && (said.available.Some? ==> id in s.available && s.available[id] == said.available.value)
    && (said.available.None? ==> (id in s.available <==> said.camera.Some?))
    && (said.available.None? && id in s.available ==> s.available[id])
    && On(s.supported, id) == said.supported && On(s.temperatureAvailable, id) == said.temperature
  }

  predicate AllHeard(s: State, ops: seq<Operation>) {
    s.connected == Up(ops) && s.status == LastStatus(ops)
  }

  lemma OnlyRetained(setup: Setup, s: State, camera: Camera)
    ensures AfterCamera(setup, s, camera) == s.(retained := AfterCamera(setup, s, camera).retained)
  {
    hide ObjectId, Lookup;
    CameraTouches(setup, s, camera);
  }

  lemma ConnectOnlyRetained(setup: Setup, s: State, listed: seq<Camera>)
    ensures AfterConnect(setup, s, listed)
         == s.(connected := true, retained := AfterConnect(setup, s, listed).retained)
  {
    hide AfterCameras, AfterBridge, AfterStatus, Sort;
    var begun := s.(connected := true);
    BridgeLookup(begun, BridgeAvailability);
    CamerasOnlyRetained(setup, AfterBridge(begun), Sort(BY_ID, listed));
    BridgeLookup(AfterCameras(setup, AfterBridge(begun), Sort(BY_ID, listed)), BridgeAvailability);
  }

  lemma {:induction false} CamerasOnlyRetained(setup: Setup, s: State, cameras: seq<Camera>)
    ensures AfterCameras(setup, s, cameras) == s.(retained := AfterCameras(setup, s, cameras).retained)
    decreases |cameras|
  {
    hide AfterCamera;
    if cameras == [] {
    } else {
      var rest := cameras[..|cameras| - 1];
      CamerasOnlyRetained(setup, s, rest);
      OnlyRetained(setup, AfterCameras(setup, s, rest), cameras[|cameras| - 1]);
    }
  }

  lemma Last(past: seq<Operation>, op: Operation)
    ensures (past + [op])[..|past + [op]| - 1] == past && (past + [op])[|past + [op]| - 1] == op
  {
  }

  /** What an operation does to the maps. */
  predicate Effect(s: State, t: State, op: Operation) {
    match op
    case Upsert(camera, rtsp, http) =>
      if Refused(camera, rtsp, http) then t == s
      else
        t == s.(cameras := s.cameras[camera.id := camera],
                available := if camera.id in s.available then s.available else s.available[camera.id := true],
                retained := t.retained)
    case Remove(id) =>
      t == s.(cameras := s.cameras - {id}, available := s.available - {id}, supported := s.supported - {id},
              temperatureAvailable := s.temperatureAvailable - {id}, retained := t.retained)
    case SetCameraAvailable(id, available) =>
      t == s.(available := s.available[id := available], retained := t.retained)
    case SetTemperatureSupported(id, supported) =>
      if id !in s.cameras then t == s
      else
        t == s.(supported := s.supported[id := supported],
                temperatureAvailable := if supported then s.temperatureAvailable else s.temperatureAvailable - {id},
                retained := t.retained)
    case SetTemperatureAvailable(id, available) =>
      if id !in s.cameras then t == s
      else t == s.(temperatureAvailable := s.temperatureAvailable[id := available], retained := t.retained)
    case PublishTemperature(id, celsius) =>
      if id in s.cameras && celsius.Some? && 0.0 < celsius.value < 50.0
      then t == s.(temperatureAvailable := s.temperatureAvailable[id := true], retained := t.retained)
      else t == s
    case PublishFrame(_, _) => t == s.(retained := t.retained)
    case PublishStatus(status) => t == s.(status := status, retained := t.retained)
    case Connect(_) => t == s.(connected := true, retained := t.retained)
    case Lost => t == s.(connected := false, retained := t.retained)
    case Close => t == s.(connected := false, retained := t.retained)
  }

  lemma ApplyEffect(setup: Setup, s: State, op: Operation)
    ensures Effect(s, Apply(setup, s, op), op)
  {
    hide ObjectId, AfterCamera, AfterTemperatureEntity, Published, AfterConnect, AfterTemperature, AfterCameraAvailable;
    hide AfterTemperatureAvailable, AfterTemperatureSupported, Cleared;
    match op
    case Upsert(camera, _, _) =>
      var available := if camera.id in s.available then s.available else s.available[camera.id := true];
      OnlyRetained(setup, s.(cameras := s.cameras[camera.id := camera], available := available), camera);
    case SetCameraAvailable(id, available) => AvailableEffect(setup, s, id, available);
    case SetTemperatureSupported(id, supported) => if id in s.cameras { SupportedEffect(setup, s, id, supported); }
    case SetTemperatureAvailable(id, available) => TemperatureAvailableEffect(setup, s, id, available);
    case PublishTemperature(id, celsius) => if celsius.Some? { TemperatureEffect(setup, s, id, celsius.value); }
    case Connect(listed) => ConnectOnlyRetained(setup, s, listed);
    case _ =>
  }

  lemma AvailableEffect(setup: Setup, s: State, id: string, available: bool)
    ensures var t := AfterCameraAvailable(setup, s, id, available);
            t == s.(available := s.available[id := available], retained := t.retained)
  {
    hide ObjectId, Published;
  }

  lemma SupportedEffect(setup: Setup, s: State, id: string, supported: bool)
    requires id in s.cameras
    ensures var t := AfterTemperatureSupported(setup, s, id, supported);
            t == s.(supported := s.supported[id := supported],
                    temperatureAvailable := if supported then s.temperatureAvailable else s.temperatureAvailable - {id},
                    retained := t.retained)
  {
    hide ObjectId, Describe, Published;
  }

  lemma TemperatureAvailableEffect(setup: Setup, s: State, id: string, available: bool)
    ensures var t := AfterTemperatureAvailable(setup, s, id, available);
            if id !in s.cameras then t == s
            else t == s.(temperatureAvailable := s.temperatureAvailable[id := available], retained := t.retained)
  {
    hide ObjectId, Published;
  }

  lemma TemperatureEffect(setup: Setup, s: State, id: string, degrees: real)
    ensures var t := AfterTemperature(setup, s, id, degrees);
            if id !in s.cameras then t == s
            else t == s.(temperatureAvailable := s.temperatureAvailable[id := true], retained := t.retained)
  {
    hide ObjectId, Published;
  }

  lemma Hears(s: State, t: State, was: Said, op: Operation, id: string)
    requires Heard(s, was, id) && Effect(s, t, op)
    ensures Heard(t, Tell(was, op, id), id)
  {
    hide Heard, On;
    KnowsCamera(s, was, id);
    match op
    case Upsert(camera, rtsp, http) => UpsertHears(s, t, was, camera, rtsp, http, id);
    case Remove(gone) => RemoveHears(s, t, was, gone, id);
    case SetCameraAvailable(other, available) => AvailableHears(s, t, was, other, available, id);
    case SetTemperatureSupported(other, supported) => SupportedHears(s, t, was, other, supported, id);
    case SetTemperatureAvailable(other, available) =>
      if other in s.cameras { MarkHears(s, t, was, other, available, id); }
    case PublishTemperature(other, celsius) =>
      if other in s.cameras && celsius.Some? && 0.0 < celsius.value < 50.0 { MarkHears(s, t, was, other, true, id); }
    case _ => SameHears(s, t, was, id);
  }

  lemma KnowsCamera(s: State, was: Said, id: string)
    requires Heard(s, was, id)
    ensures id in s.cameras <==> was.camera.Some?
  {
  }

  lemma SameHears(s: State, t: State, was: Said, id: string)
    requires Heard(s, was, id) && t == s.(connected := t.connected, status := t.status, retained := t.retained)
    ensures Heard(t, was, id)
  {
  }

  lemma MarkHears(s: State, t: State, was: Said, other: string, available: bool, id: string)
    requires Heard(s, was, id) && other in s.cameras
    requires t == s.(temperatureAvailable := s.temperatureAvailable[other := available], retained := t.retained)
    ensures Heard(t, if other == id then was.(temperature := available) else was, id)
  {
  }

  lemma AvailableHears(s: State, t: State, was: Said, other: string, available: bool, id: string)
    requires Heard(s, was, id) && Effect(s, t, SetCameraAvailable(other, available))
    ensures Heard(t, Tell(was, SetCameraAvailable(other, available), id), id)
  {
  }

  lemma RemoveHears(s: State, t: State, was: Said, gone: string, id: string)
    requires Heard(s, was, id) && Effect(s, t, Remove(gone))
    ensures Heard(t, Tell(was, Remove(gone), id), id)
  {
  }

  lemma UpsertHears(s: State, t: State, was: Said, camera: Camera, rtsp: bool, http: bool, id: string)
    requires Heard(s, was, id) && Effect(s, t, Upsert(camera, rtsp, http))
    ensures Heard(t, Tell(was, Upsert(camera, rtsp, http), id), id)
  {
    hide Refused;
  }

  lemma SupportedHears(s: State, t: State, was: Said, other: string, supported: bool, id: string)
    requires Heard(s, was, id) && Effect(s, t, SetTemperatureSupported(other, supported))
    ensures Heard(t, Tell(was, SetTemperatureSupported(other, supported), id), id)
  {
    if other == id {
    } else {
      assert On(t.supported, id) == On(s.supported, id);
      assert On(t.temperatureAvailable, id) == On(s.temperatureAvailable, id);
    }
  }

  lemma StepHears(s: State, t: State, past: seq<Operation>, op: Operation, id: string)
    requires Heard(s, Told(past, id), id) && Effect(s, t, op)
    ensures Heard(t, Told(past + [op], id), id)
  {
    Last(past, op);
    hide Heard, Effect, Tell;
    Hears(s, t, Told(past, id), op, id);
  }

  lemma StepHearsAll(s: State, t: State, past: seq<Operation>, op: Operation)
    requires AllHeard(s, past) && Effect(s, t, op)
    ensures AllHeard(t, past + [op])
  {
    Last(past, op);
  }

  lemma {:induction false} RunHears(
      setup: Setup, past: seq<Operation>, s: State, ops: seq<Operation>, ids: set<string>, end: State)
    requires Run(setup, s, ops, ids, end) && AllHeard(s, past) && forall id :: Heard(s, Told(past, id), id)
    ensures AllHeard(end, past + ops) && forall id :: Heard(end, Told(past + ops, id), id)
    decreases |ops|
  {
    if ops == [] {
      assert past + ops == past;
    } else {
      hide Heard, AllHeard, Apply, Told, Within, Effect;
      var next := Apply(setup, s, ops[0]);
      ApplyEffect(setup, s, ops[0]);
      StepHearsAll(s, next, past, ops[0]);
      forall id ensures Heard(next, Told(past + [ops[0]], id), id) { StepHears(s, next, past, ops[0], id); }
      RunHears(setup, past + [ops[0]], next, ops[1..], ids, end);
      assert past + [ops[0]] + ops[1..] == past + ops;
    }
  }

  lemma FreshHears(retained: map<Topic, Payload>, id: string)
    ensures Heard(Fresh(retained), Told([], id), id) && AllHeard(Fresh(retained), [])
  {
  }

  /**
   After any run the maps say of every identifier what the callers asked: the camera last registered, the availability
   last set and otherwise available, whether a temperature is supported and whether it can be had.
   */
  lemma MapsFollowTheCallers(
      setup: Setup, retained: map<Topic, Payload>, ops: seq<Operation>, ids: set<string>, end: State, id: string)
    requires Run(setup, Fresh(retained), ops, ids, end)
    ensures Heard(end, Told(ops, id), id)
    ensures end.connected == Up(ops) && end.status == LastStatus(ops)
  {
    forall other ensures Heard(Fresh(retained), Told([], other), other) { FreshHears(retained, other); }
    hide Heard, Told, Run;
    RunHears(setup, [], Fresh(retained), ops, ids, end);
    assert [] + ops == ops;
  }

  // ---- the broker ----

  /** The identifier an operation is about. */
  function Subject(op: Operation): Option<string> {
    match op
    case Upsert(camera, _, _) => Some(camera.id)
    case Remove(id) => Some(id)
    case SetCameraAvailable(id, _) => Some(id)
    case SetTemperatureSupported(id, _) => Some(id)
    case SetTemperatureAvailable(id, _) => Some(id)
    case PublishTemperature(id, _) => Some(id)
    case PublishFrame(id, _) => Some(id)
    case _ => None
  }

  predicate About(setup: Setup, id: string, topic: Topic) {
    topic.CameraTopic? && topic.objectId == ObjectId(setup.table, id)
  }

  predicate Keyed(s: State) { forall id :: id in s.cameras ==> s.cameras[id].id == id }

  /** The two topics of a camera that hold what was last published, and not what the maps say. */
  predicate Lasting(slot: Slot) { slot.TemperatureValue? || slot.Frame? }

  /** What publishing a camera makes of them: retired where they have no entity, left otherwise. */
  lemma CameraKeeps(setup: Setup, s: State, camera: Camera, topic: Topic)
    requires topic.CameraTopic? && Lasting(topic.slot)
    ensures var retires := if topic.slot.Frame? then !setup.frames else !On(s.supported, camera.id);
            Lookup(AfterCamera(setup, s, camera).retained, topic)
            == if About(setup, camera.id, topic) && retires then None else Lookup(s.retained, topic)
  {
    hide ObjectId, Describe, Lookup, AfterLink, AfterSnapshot, AfterFrameEntity, AfterTemperatureEntity;
    var a := AfterLink(setup, s, camera);
    var b := AfterSnapshot(setup, a, camera);
    var c := AfterFrameEntity(setup, b, camera);
    LinkLookup(setup, s, camera, topic);
    SnapshotLookup(setup, a, camera, topic);
    FrameEntityKeeps(setup, b, camera, topic);
    TemperatureEntityKeeps(setup, c, camera, On(s.supported, camera.id), On(s.temperatureAvailable, camera.id), topic);
  }

  lemma FrameEntityKeeps(setup: Setup, s: State, camera: Camera, topic: Topic)
    requires topic.CameraTopic? && Lasting(topic.slot)
    ensures var t := AfterFrameEntity(setup, s, camera);
            && t == s.(retained := t.retained)
            && Lookup(t.retained, topic)
               == if About(setup, camera.id, topic) && topic.slot.Frame? && !setup.frames then None
                  else Lookup(s.retained, topic)
  {
    hide ObjectId, Describe;
  }

  lemma TemperatureEntityKeeps(
      setup: Setup, s: State, camera: Camera, supported: bool, available: bool, topic: Topic)
    requires topic.CameraTopic? && Lasting(topic.slot)
    ensures var t := AfterTemperatureEntity(setup, s, camera, supported, available);
            && t == s.(retained := t.retained)
            && Lookup(t.retained, topic)
               == if About(setup, camera.id, topic) && topic.slot.TemperatureValue? && !supported then None
                  else Lookup(s.retained, topic)
  {
    hide ObjectId, Describe, AvailabilityPayload;
  }

  /** Publishing all cameras retires the topic exactly if its camera is among them and has no entity for it. */
  lemma {:induction false} CamerasKeep(
      setup: Setup, s: State, cameras: seq<Camera>, ids: set<string>, id: string, slot: Slot)
    requires Separate(setup.table, ids) && id in ids && Lasting(slot)
    requires forall camera :: camera in cameras ==> camera.id in ids
    ensures var topic := CameraTopic(ObjectId(setup.table, id), slot);
            var retires := if slot.Frame? then !setup.frames else !On(s.supported, id);
            Lookup(AfterCameras(setup, s, cameras).retained, topic)
            == if retires && exists camera :: camera in cameras && camera.id == id then None
               else Lookup(s.retained, topic)
    decreases |cameras|
  {
    if cameras == [] {
    } else {
      hide AfterCamera, ObjectId, Lookup;
      var rest, last := cameras[..|cameras| - 1], cameras[|cameras| - 1];
      var topic := CameraTopic(ObjectId(setup.table, id), slot);
      assert cameras == rest + [last];
      CamerasKeep(setup, s, rest, ids, id, slot);
      CamerasOnlyRetained(setup, s, rest);
      CameraKeeps(setup, AfterCameras(setup, s, rest), last, topic);
      assert About(setup, last.id, topic) <==> last.id == id;
    }
  }

  lemma ConnectKeeps(setup: Setup, s: State, listed: seq<Camera>, ids: set<string>, id: string, slot: Slot)
    requires Separate(setup.table, ids) && id in ids && Lasting(slot) && Lists(s, listed) && s.cameras.Keys <= ids
    requires Keyed(s)
    ensures var topic := CameraTopic(ObjectId(setup.table, id), slot);
            var retires := if slot.Frame? then !setup.frames else !On(s.supported, id);
            Lookup(AfterConnect(setup, s, listed).retained, topic)
            == if retires && id in s.cameras then None else Lookup(s.retained, topic)
  {
    hide ObjectId, Sort, AfterCameras, AfterBridge, AfterStatus, Lookup;
    var topic := CameraTopic(ObjectId(setup.table, id), slot);
    var begun := s.(connected := true);
    var sorted := Sort(BY_ID, listed);
    SortKeepsElements(BY_ID, listed);
    BridgeLookup(begun, topic);
    CamerasKeep(setup, AfterBridge(begun), sorted, ids, id, slot);
    BridgeLookup(AfterCameras(setup, AfterBridge(begun), sorted), topic);
    if id in s.cameras { assert s.cameras[id] in sorted && s.cameras[id].id == id; }
  }

  /** An operation about one identifier leaves the topics of other objects alone. */
  lemma Elsewhere(setup: Setup, s: State, op: Operation, topic: Topic)
    requires Keyed(s) && Subject(op).Some? && !About(setup, Subject(op).value, topic)
    ensures Lookup(Apply(setup, s, op).retained, topic) == Lookup(s.retained, topic)
  {
    hide ObjectId, AfterCamera, AfterTemperatureEntity, AfterTemperature, AfterTemperatureAvailable, Cleared, Describe;
    match op
    case Upsert(camera, _, _) =>
      var available := if camera.id in s.available then s.available else s.available[camera.id := true];
      CameraTouches(setup, s.(cameras := s.cameras[camera.id := camera], available := available), camera);
    case Remove(id) => ClearedLookup(s.retained, ObjectId(setup.table, id), CLEARED, topic);
    case SetTemperatureSupported(id, supported) =>
      if id in s.cameras {
        SupportedElsewhere(setup, s, id, supported, topic);
      }
    case SetTemperatureAvailable(id, available) => TemperatureAvailableLookup(setup, s, id, available, topic);
    case PublishTemperature(id, celsius) =>
      if celsius.Some? { TemperatureValueLookup(setup, s, id, celsius.value, topic); }
    case SetCameraAvailable(_, _) =>
    case PublishFrame(_, _) =>
  }

  lemma SupportedElsewhere(setup: Setup, s: State, id: string, supported: bool, topic: Topic)
    requires id in s.cameras && s.cameras[id].id == id
    ensures !About(setup, id, topic) || !TemperatureSlot(topic.slot) ==>
              Lookup(AfterTemperatureSupported(setup, s, id, supported).retained, topic) == Lookup(s.retained, topic)
    ensures About(setup, id, topic) && topic.slot.TemperatureValue? ==>
              Lookup(AfterTemperatureSupported(setup, s, id, supported).retained, topic)
              == if s.connected && !supported then None else Lookup(s.retained, topic)
  {
    hide ObjectId, Describe, AvailabilityPayload;
  }

  lemma TemperatureAvailableLookup(setup: Setup, s: State, id: string, available: bool, topic: Topic)
    ensures !About(setup, id, topic) || !topic.slot.TemperatureAvailability? ==>
              Lookup(AfterTemperatureAvailable(setup, s, id, available).retained, topic) == Lookup(s.retained, topic)
  {
    hide ObjectId;
  }

  lemma TemperatureValueLookup(setup: Setup, s: State, id: string, degrees: real, topic: Topic)
    ensures !About(setup, id, topic) || !TemperatureSlot(topic.slot) ==>
              Lookup(AfterTemperature(setup, s, id, degrees).retained, topic) == Lookup(s.retained, topic)
    ensures About(setup, id, topic) && topic.slot.TemperatureValue? ==>
              Lookup(AfterTemperature(setup, s, id, degrees).retained, topic)
              == if id in s.cameras && On(s.supported, id) && s.connected then Some(Celsius(degrees))
                 else Lookup(s.retained, topic)
  {
    hide ObjectId;
  }

  lemma UpsertKeeps(setup: Setup, s: State, camera: Camera, id: string, slot: Slot)
    requires Lasting(slot) && id == camera.id
    ensures var topic := CameraTopic(ObjectId(setup.table, id), slot);
            var retires := if slot.Frame? then !setup.frames else !On(s.supported, id);
            Lookup(AfterUpsert(setup, s, camera).retained, topic)
            == if s.connected && retires then None else Lookup(s.retained, topic)
  {
    hide ObjectId, AfterCamera, Lookup;
    var available := if camera.id in s.available then s.available else s.available[camera.id := true];
    var stored := s.(cameras := s.cameras[camera.id := camera], available := available);
    CameraKeeps(setup, stored, camera, CameraTopic(ObjectId(setup.table, id), slot));
  }

  /** What every operation makes of the temperature a camera has at the broker. */
  lemma OwnTemperatureStep(setup: Setup, s: State, ids: set<string>, op: Operation, id: string, said: Said)
    requires Tidy(s, ids) && Separate(setup.table, ids) && Within(s, op, ids) && id in ids && Heard(s, said, id)
    requires Subject(op).None? || Subject(op).value == id
    ensures var topic := CameraTopic(ObjectId(setup.table, id), TemperatureValue);
            Lookup(Apply(setup, s, op).retained, topic)
            == TellTemperature(said, s.connected, op, id, Lookup(s.retained, topic))
  {
    hide ObjectId, AfterUpsert, AfterTemperatureSupported, AfterTemperature, AfterTemperatureAvailable, AfterConnect;
    hide Cleared, AfterStatus;
    var topic := CameraTopic(ObjectId(setup.table, id), TemperatureValue);
    match op
    case Upsert(camera, _, _) => UpsertKeeps(setup, s, camera, id, TemperatureValue);
    case Remove(_) => ClearedLookup(s.retained, ObjectId(setup.table, id), CLEARED, topic);
    case SetTemperatureSupported(_, supported) =>
      if id in s.cameras { SupportedElsewhere(setup, s, id, supported, topic); }
    case SetTemperatureAvailable(_, available) => TemperatureAvailableLookup(setup, s, id, available, topic);
    case PublishTemperature(_, celsius) =>
      if celsius.Some? { TemperatureValueLookup(setup, s, id, celsius.value, topic); }
    case Connect(listed) => ConnectKeeps(setup, s, listed, ids, id, TemperatureValue);
    case PublishStatus(status) => BridgeLookup(s.(status := status), topic);
    case _ =>
  }

  lemma TemperatureStep(setup: Setup, s: State, ids: set<string>, op: Operation, id: string, said: Said)
    requires Tidy(s, ids) && Separate(setup.table, ids) && Within(s, op, ids) && id in ids && Heard(s, said, id)
    ensures var topic := CameraTopic(ObjectId(setup.table, id), TemperatureValue);
            Lookup(Apply(setup, s, op).retained, topic)
            == TellTemperature(said, s.connected, op, id, Lookup(s.retained, topic))
  {
    var topic := CameraTopic(ObjectId(setup.table, id), TemperatureValue);
    if Subject(op).Some? && Subject(op).value != id {
      hide ObjectId, Apply, Lookup, Heard;
      assert !About(setup, Subject(op).value, topic);
      TidyIsKeyed(s, ids);
      Elsewhere(setup, s, op, topic);
    } else {
      hide ObjectId, Apply, Lookup, Heard, Tidy, Separate, Within, TellTemperature;
      OwnTemperatureStep(setup, s, ids, op, id, said);
    }
  }

  lemma OwnFrameStep(setup: Setup, s: State, ids: set<string>, op: Operation, id: string, said: Said)
    requires Tidy(s, ids) && Separate(setup.table, ids) && Within(s, op, ids) && id in ids && Heard(s, said, id)
    requires Subject(op).None? || Subject(op).value == id
    ensures var topic := CameraTopic(ObjectId(setup.table, id), Frame);
            Lookup(Apply(setup, s, op).retained, topic)
            == TellFrame(setup.frames, said, s.connected, op, id, Lookup(s.retained, topic))
  {
    hide ObjectId, AfterUpsert, AfterTemperatureSupported, AfterTemperature, AfterTemperatureAvailable, AfterConnect;
    hide Cleared, AfterStatus;
    var topic := CameraTopic(ObjectId(setup.table, id), Frame);
    match op
    case Upsert(camera, _, _) => UpsertKeeps(setup, s, camera, id, Frame);
    case Remove(_) => ClearedLookup(s.retained, ObjectId(setup.table, id), CLEARED, topic);
    case SetTemperatureSupported(_, supported) =>
      if id in s.cameras { SupportedElsewhere(setup, s, id, supported, topic); }
    case SetTemperatureAvailable(_, available) => TemperatureAvailableLookup(setup, s, id, available, topic);
    case PublishTemperature(_, celsius) =>
      if celsius.Some? { TemperatureValueLookup(setup, s, id, celsius.value, topic); }
    case Connect(listed) => ConnectKeeps(setup, s, listed, ids, id, Frame);
    case PublishStatus(status) => BridgeLookup(s.(status := status), topic);
    case _ =>
  }

  lemma FrameStep(setup: Setup, s: State, ids: set<string>, op: Operation, id: string, said: Said)
    requires Tidy(s, ids) && Separate(setup.table, ids) && Within(s, op, ids) && id in ids && Heard(s, said, id)
    ensures var topic := CameraTopic(ObjectId(setup.table, id), Frame);
            Lookup(Apply(setup, s, op).retained, topic)
            == TellFrame(setup.frames, said, s.connected, op, id, Lookup(s.retained, topic))
  {
    var topic := CameraTopic(ObjectId(setup.table, id), Frame);
    if Subject(op).Some? && Subject(op).value != id {
      hide ObjectId, Apply, Lookup, Heard;
      assert !About(setup, Subject(op).value, topic);
      TidyIsKeyed(s, ids);
      Elsewhere(setup, s, op, topic);
    } else {
      hide ObjectId, Apply, Lookup, Heard, Tidy, Separate, Within, TellFrame;
      OwnFrameStep(setup, s, ids, op, id, said);
    }
  }

  /** While the connection is up, the broker has the counters last published. */
  predicate Counted(s: State) {
    s.connected ==>
      && Lookup(s.retained, ActiveSessions) == Some(Count(s.status.activeSessions))
      && Lookup(s.retained, Reconnects) == Some(Count(s.status.reconnects))
  }

  lemma StatusLookup(s: State)
    ensures Lookup(AfterStatus(s).retained, ActiveSessions) == Some(Count(s.status.activeSessions))
    ensures Lookup(AfterStatus(s).retained, Reconnects) == Some(Count(s.status.reconnects))
    ensures AfterStatus(s) == s.(retained := AfterStatus(s).retained)
  {
  }

  lemma CountedStep(setup: Setup, s: State, op: Operation)
    requires Counted(s) && Keyed(s)
    ensures Counted(Apply(setup, s, op))
  {
    ApplyEffect(setup, s, op);
    hide ObjectId, Lookup, AfterStatus, AfterCameras, AfterBridge, Effect, Refused;
    if Subject(op).Some? {
      Elsewhere(setup, s, op, ActiveSessions);
      Elsewhere(setup, s, op, Reconnects);
      SubjectKeeps(s, Apply(setup, s, op), op);
    } else {
      hide AfterUpsert, AfterRemove;
      match op
      case PublishStatus(status) => StatusLookup(s.(status := status));
      case Connect(listed) =>
        var shown := AfterCameras(setup, AfterBridge(s.(connected := true)), Sort(BY_ID, listed));
        StatusLookup(shown);
        BridgeLookup(s.(connected := true), BridgeAvailability);
        CamerasOnlyRetained(setup, AfterBridge(s.(connected := true)), Sort(BY_ID, listed));
      case _ =>
    }
  }

  lemma SubjectKeeps(s: State, t: State, op: Operation)
    requires Effect(s, t, op) && Subject(op).Some?
    ensures t.connected == s.connected && t.status == s.status
  {
  }

  lemma TidyIsKeyed(s: State, ids: set<string>)
    requires Tidy(s, ids)
    ensures Keyed(s)
  {
  }

  lemma SoundIsTidy(setup: Setup, s: State, ids: set<string>)
    requires MqttDiscovery.Sound(setup, s, ids)
    ensures Tidy(s, ids)
  {
  }

  /** What the two kept topics of `id` show. */
  predicate Shows(setup: Setup, s: State, id: string, temperature: Option<Payload>, frame: Option<Payload>) {
    && Lookup(s.retained, CameraTopic(ObjectId(setup.table, id), TemperatureValue)) == temperature
    && Lookup(s.retained, CameraTopic(ObjectId(setup.table, id), Frame)) == frame
  }

  lemma ShowsStep(
      setup: Setup, s: State, ids: set<string>, past: seq<Operation>, op: Operation, id: string,
      temperature: Option<Payload>, frame: Option<Payload>)
    requires Tidy(s, ids) && Separate(setup.table, ids) && Within(s, op, ids) && id in ids
    requires Heard(s, Told(past, id), id) && s.connected == Up(past)
    requires Shows(setup, s, id, ShownTemperature(past, id, temperature), ShownFrame(setup.frames, past, id, frame))
    ensures Shows(setup, Apply(setup, s, op), id, ShownTemperature(past + [op], id, temperature),
                  ShownFrame(setup.frames, past + [op], id, frame))
  {
    hide ObjectId, Lookup, Told, Apply, TellTemperature, TellFrame, Heard, Tidy, Separate, Within;
    Last(past, op);
    TemperatureStep(setup, s, ids, op, id, Told(past, id));
    FrameStep(setup, s, ids, op, id, Told(past, id));
  }

  lemma {:induction false} RunShows(
      setup: Setup, past: seq<Operation>, s: State, ops: seq<Operation>, ids: set<string>, end: State, id: string,
      temperature: Option<Payload>, frame: Option<Payload>)
    requires MqttDiscovery.Sound(setup, s, ids) && Separate(setup.table, ids) && id in ids
    requires Run(setup, s, ops, ids, end)
    requires AllHeard(s, past) && Heard(s, Told(past, id), id) && Counted(s)
    requires Shows(setup, s, id, ShownTemperature(past, id, temperature), ShownFrame(setup.frames, past, id, frame))
    ensures Shows(setup, end, id, ShownTemperature(past + ops, id, temperature),
                  ShownFrame(setup.frames, past + ops, id, frame))
    ensures Counted(end)
    decreases |ops|
  {
    if ops == [] {
      assert past + ops == past;
    } else {
      hide Heard, Apply, Told, Within, Effect, MqttDiscovery.Sound, Separate, Tidy, Shows, Counted, Keyed;
      hide ShownTemperature, ShownFrame;
      var next := Apply(setup, s, ops[0]);
      SoundIsTidy(setup, s, ids);
      TidyIsKeyed(s, ids);
      ShowsStep(setup, s, ids, past, ops[0], id, temperature, frame);
      CountedStep(setup, s, ops[0]);
      ApplySound(setup, s, ids, ops[0]);
      ApplyEffect(setup, s, ops[0]);
      StepHearsAll(s, next, past, ops[0]);
      StepHears(s, next, past, ops[0], id);
      RunShows(setup, past + [ops[0]], next, ops[1..], ids, end, id, temperature, frame);
      assert past + [ops[0]] + ops[1..] == past + ops;
    }
  }

  /**
   After any run the broker has, for every identifier, the temperature and the frame that were last published for it and
   not retired since; and while the connection is up it has the counters last published.
   */
  lemma LastPublishedIsShown(
      setup: Setup, retained: map<Topic, Payload>, ops: seq<Operation>, ids: set<string>, end: State, id: string)
    requires Separate(setup.table, ids) && Run(setup, Fresh(retained), ops, ids, end) && id in ids
    ensures var at := (slot: Slot) => CameraTopic(ObjectId(setup.table, id), slot);
            && Lookup(end.retained, at(TemperatureValue))
               == ShownTemperature(ops, id, Lookup(retained, at(TemperatureValue)))
            && Lookup(end.retained, at(Frame)) == ShownFrame(setup.frames, ops, id, Lookup(retained, at(Frame)))
    ensures Up(ops) ==>
              && Lookup(end.retained, ActiveSessions) == Some(Count(LastStatus(ops).activeSessions))
              && Lookup(end.retained, Reconnects) == Some(Count(LastStatus(ops).reconnects))
  {
    hide ObjectId, Told, Run, Heard;
    var temperature := Lookup(retained, CameraTopic(ObjectId(setup.table, id), TemperatureValue));
    var frame := Lookup(retained, CameraTopic(ObjectId(setup.table, id), Frame));
    FreshHears(retained, id);
    RunShows(setup, [], Fresh(retained), ops, ids, end, id, temperature, frame);
    assert [] + ops == ops;
    MapsFollowTheCallers(setup, retained, ops, ids, end, id);
  }

  /** How a device is described: under its identifier and name, and as some camera where its model is not known. */
  function DeviceOf(kind: EntityKind, camera: Camera): Payload {
    if camera.model != "" then Entity(kind, camera.id, camera.name, camera.model)
    else Entity(kind, camera.id, camera.name, "Nursery Camera")
  }

  function OnOff(available: bool): Payload { if available then Online else Offline }

  /** What the broker is to show of a camera that is registered. */
  ghost predicate ShowsAsked(setup: Setup, said: Said, at: Slot -> Option<Payload>)
    requires said.camera.Some?
  {
    var camera := said.camera.value;
    && at(Link) == Some(DeviceOf(LinkEntity, camera))
    && at(Availability) == Some(OnOff(said.available != Some(false)))
    && at(Image) == (if camera.snapshotURL == "" then None else Some(DeviceOf(SnapshotEntity, camera)))
    && (camera.snapshotURL != "" ==> at(SnapshotUrl) == Some(Url(camera.snapshotURL)))
    && at(CameraEntity) == (if setup.frames then Some(DeviceOf(FrameEntity, camera)) else None)
    && at(TemperatureSensor) == (if said.supported then Some(DeviceOf(TemperatureEntity, camera)) else None)
    && at(TemperatureAvailability) == (if said.supported then Some(OnOff(said.temperature)) else None)
  }

  /**
   After any run, while the connection is up, the broker shows for every registered camera what the callers asked for,
   and that the bridge is there.
   */
  lemma BrokerShowsWhatWasAsked(
      setup: Setup, retained: map<Topic, Payload>, ops: seq<Operation>, ids: set<string>, end: State, id: string)
    requires Separate(setup.table, ids) && Run(setup, Fresh(retained), ops, ids, end)
    requires Up(ops) && Told(ops, id).camera.Some?
    ensures ShowsAsked(setup, Told(ops, id),
                       slot => Lookup(end.retained, CameraTopic(ObjectId(setup.table, id), slot)))
    ensures Lookup(end.retained, BridgeAvailability) == Some(Online)
  {
    hide ObjectId, Told, Run, Lookup;
    MapsFollowTheCallers(setup, retained, ops, ids, end, id);
    hide ShownTemperature;
    BrokerFollowsTheMaps(setup, retained, ops, ids, end);
    forall slot | Expected(setup, end, id, slot).Some?
      ensures Lookup(end.retained, CameraTopic(ObjectId(setup.table, id), slot)) == Expected(setup, end, id, slot).value
    {
    }
  }

  /** What the broker says about the bridge itself: there from each connect on, gone when that is lost or closed. */
  function ShownBridge(ops: seq<Operation>, before: Option<Payload>): Option<Payload> {
    if ops == [] then before
    else
      var past, op := ops[..|ops| - 1], ops[|ops| - 1];
      if op.Connect? then Some(Online)
      else if op.Lost? || (op.Close? && Up(past)) then Some(Offline)
      else ShownBridge(past, before)
  }

  lemma BridgeStep(setup: Setup, s: State, past: seq<Operation>, op: Operation, before: Option<Payload>)
    requires Keyed(s) && s.connected == Up(past) && Lookup(s.retained, BridgeAvailability) == ShownBridge(past, before)
    ensures Lookup(Apply(setup, s, op).retained, BridgeAvailability) == ShownBridge(past + [op], before)
  {
    Last(past, op);
    hide ObjectId, AfterCameras, AfterBridge, AfterStatus, Lookup;
    if Subject(op).Some? {
      Elsewhere(setup, s, op, BridgeAvailability);
    } else {
      hide AfterUpsert, AfterRemove;
      match op
      case PublishStatus(status) => BridgeLookup(s.(status := status), BridgeAvailability);
      case Connect(listed) =>
        var begun := AfterBridge(s.(connected := true));
        BridgeLookup(s.(connected := true), BridgeAvailability);
        CamerasElsewhere(setup, begun, Sort(BY_ID, listed), BridgeAvailability);
        BridgeLookup(AfterCameras(setup, begun, Sort(BY_ID, listed)), BridgeAvailability);
      case Lost => SetLookup(s.(connected := false), BridgeAvailability, Some(Offline), BridgeAvailability);
      case Close => SetLookup(s.(connected := false), BridgeAvailability, Some(Offline), BridgeAvailability);
      case _ =>
    }
  }

  lemma {:induction false} CamerasElsewhere(setup: Setup, s: State, cameras: seq<Camera>, topic: Topic)
    requires !topic.CameraTopic?
    ensures Lookup(AfterCameras(setup, s, cameras).retained, topic) == Lookup(s.retained, topic)
    decreases |cameras|
  {
    hide AfterCamera, ObjectId, Lookup;
    if cameras == [] {
    } else {
      var rest := cameras[..|cameras| - 1];
      CamerasElsewhere(setup, s, rest, topic);
      CameraTouches(setup, AfterCameras(setup, s, rest), cameras[|cameras| - 1]);
    }
  }

  lemma {:induction false} RunShowsBridge(
      setup: Setup, past: seq<Operation>, s: State, ops: seq<Operation>, ids: set<string>, end: State,
      before: Option<Payload>)
    requires Tidy(s, ids) && Run(setup, s, ops, ids, end) && AllHeard(s, past)
    requires Lookup(s.retained, BridgeAvailability) == ShownBridge(past, before)
    ensures Lookup(end.retained, BridgeAvailability) == ShownBridge(past + ops, before)
    decreases |ops|
  {
    if ops == [] {
      assert past + ops == past;
    } else {
      hide Apply, Effect, ShownBridge, Keyed, Lookup;
      var next := Apply(setup, s, ops[0]);
      TidyIsKeyed(s, ids);
      BridgeStep(setup, s, past, ops[0], before);
      ApplyEffect(setup, s, ops[0]);
      StepHearsAll(s, next, past, ops[0]);
      EffectIsTidy(s, next, ids, ops[0]);
      RunShowsBridge(setup, past + [ops[0]], next, ops[1..], ids, end, before);
      assert past + [ops[0]] + ops[1..] == past + ops;
    }
  }

  lemma EffectIsTidy(s: State, t: State, ids: set<string>, op: Operation)
    requires Tidy(s, ids) && Effect(s, t, op) && Within(s, op, ids)
    ensures Tidy(t, ids)
  {
  }

  /** After any run the broker says of the bridge itself what its connection is, as far as the broker can know. */
  lemma BridgeIsShown(
      setup: Setup, retained: map<Topic, Payload>, ops: seq<Operation>, ids: set<string>, end: State)
    requires Run(setup, Fresh(retained), ops, ids, end)
    ensures Lookup(end.retained, BridgeAvailability) == ShownBridge(ops, Lookup(retained, BridgeAvailability))
  {
    hide Run;
    RunShowsBridge(setup, [], Fresh(retained), ops, ids, end, Lookup(retained, BridgeAvailability));
    assert [] + ops == ops;
  }

  // ---- the topics as they are read ----

  /** The discovery topics of a camera, one for each kind of entity, and the topics its entities read. */
  lemma CameraTopicTexts(prefix: string, base: string, o: string)
    ensures var text := (slot: Slot) => TopicText(prefix, base, CameraTopic(o, slot));
            && text(Link) == prefix + "/" + "binary_sensor" + "/" + (o + "_link") + "/config"
            && text(Image) == prefix + "/" + "image" + "/" + (o + "") + "/config"
            && text(CameraEntity) == prefix + "/" + "camera" + "/" + (o + "") + "/config"
            && text(TemperatureSensor) == prefix + "/" + "sensor" + "/" + (o + "_temperature") + "/config"
            && text(Availability) == base + "/camera/" + o + "/" + "availability"
            && text(Frame) == base + "/camera/" + o + "/" + "image"
            && text(SnapshotUrl) == base + "/camera/" + o + "/" + "snapshot_url"
            && text(TemperatureValue) == base + "/camera/" + o + "/" + "temperature"
            && text(TemperatureAvailability) == base + "/camera/" + o + "/" + "temperature_availability"
  {
  }

  /** The topics of the bridge itself. */
  lemma BridgeTopicTexts(prefix: string, base: string)
    ensures var bridge := "motorola_nursery_bridge";
            && TopicText(prefix, base, BridgeAvailability) == base + "/availability"
            && TopicText(prefix, base, ActiveSessions) == base + "/status/active_sessions"
            && TopicText(prefix, base, Reconnects) == base + "/status/reconnects"
            && TopicText(prefix, base, ConnectionEntity)
               == prefix + "/" + "binary_sensor" + "/" + (bridge + "_connection") + "/config"
            && TopicText(prefix, base, SessionsEntity)
               == prefix + "/" + "sensor" + "/" + (bridge + "_active_sessions") + "/config"
            && TopicText(prefix, base, ReconnectsEntity)
               == prefix + "/" + "sensor" + "/" + (bridge + "_reconnects") + "/config"
  {
  }

  // ---- while the connection is down ----

  /** While the connection is down the broker is told nothing; only the will is published, by the broker itself. */
  lemma OfflineIsSilent(setup: Setup, s: State, op: Operation)
    requires !s.connected && !op.Connect?
    ensures var t := Apply(setup, s, op);
            && !t.connected
            && (forall topic: Topic :: topic != BridgeAvailability ==>
                  Lookup(t.retained, topic) == Lookup(s.retained, topic))
            && (!op.Lost? ==> t.retained == s.retained)
  {
    ApplyEffect(setup, s, op);
    EffectKeepsDown(s, Apply(setup, s, op), op);
    hide ObjectId, AfterCamera, AfterTemperatureEntity, Describe, Cleared, AfterStatus, AfterConnect, Lookup;
    hide AfterTemperature, AfterTemperatureAvailable, AfterTemperatureSupported, AfterCameraAvailable, Effect, Set;
    match op
    case SetCameraAvailable(id, available) => AvailableSilent(setup, s, id, available);
    case SetTemperatureSupported(id, supported) => if id in s.cameras { SupportedSilent(setup, s, id, supported); }
    case SetTemperatureAvailable(id, available) => TemperatureSilent(setup, s, id, available, 1.0);
    case PublishTemperature(id, celsius) =>
      if celsius.Some? { TemperatureSilent(setup, s, id, true, celsius.value); }
    case Lost => forall topic { SetLookup(s.(connected := false), BridgeAvailability, Some(Offline), topic); }
    case _ =>
  }

  lemma AvailableSilent(setup: Setup, s: State, id: string, available: bool)
    requires !s.connected
    ensures AfterCameraAvailable(setup, s, id, available).retained == s.retained
  {
    hide ObjectId;
  }

  lemma SupportedSilent(setup: Setup, s: State, id: string, supported: bool)
    requires !s.connected && id in s.cameras
    ensures AfterTemperatureSupported(setup, s, id, supported).retained == s.retained
  {
    hide ObjectId;
  }

  lemma TemperatureSilent(setup: Setup, s: State, id: string, available: bool, degrees: real)
    requires !s.connected
    ensures AfterTemperatureAvailable(setup, s, id, available).retained == s.retained
    ensures AfterTemperature(setup, s, id, degrees).retained == s.retained
  {
    hide ObjectId;
  }

  lemma EffectKeepsDown(s: State, t: State, op: Operation)
    requires Effect(s, t, op) && !s.connected && !op.Connect?
    ensures !t.connected
  {
  }

  // ---- the object of an identifier ----

  /** What is kept of an identifier, character by character. */
  function KeptOf(t: CharTable, id: string): string {
    seq(|id|, i requires 0 <= i < |id| =>
      var c := t.lower(id[i]); if t.letterOrDigit(c) || c == '-' || c == '_' then c else '_')
  }

  predicate AllUnderscores(s: string) { forall i :: 0 <= i < |s| ==> s[i] == '_' }

  lemma {:induction false} TrimsTheEnds(s: string) returns (head: string, tail: string)
    ensures s == head + TrimUnderscores(s) + tail && AllUnderscores(head) && AllUnderscores(tail)
    ensures var core := TrimUnderscores(s); core != "" ==> core[0] != '_' && core[|core| - 1] != '_'
    decreases |s|
  {
    var core := TrimUnderscores(s);
    if s != "" && s[0] == '_' {
      var rest;
      rest, tail := TrimsTheEnds(s[1..]);
      head := "_" + rest;
      hide TrimUnderscores;
      assert s == "_" + s[1..];
      JoinedBefore("_", rest, core, tail);
    } else if s != "" && s[|s| - 1] == '_' {
      var rest;
      head, rest := TrimsTheEnds(s[..|s| - 1]);
      tail := rest + "_";
      hide TrimUnderscores;
      assert s == s[..|s| - 1] + "_";
      JoinedBehind(head, core, rest, "_");
    } else {
      head, tail := "", "";
      assert s == "" + s + "";
    }
  }

  /**
   The object of an identifier is what is kept of it without the underscores at both ends, and "camera" where nothing
   else is left.
   */
  lemma ObjectIsWhatIsKept(t: CharTable, id: string) returns (head: string, core: string, tail: string)
    ensures KeptOf(t, id) == head + core + tail && AllUnderscores(head) && AllUnderscores(tail)
    ensures core != "" ==> core[0] != '_' && core[|core| - 1] != '_'
    ensures ObjectId(t, id) == if core == "" then "camera" else core
  {
    assert KeptOf(t, id) == seq(|id|, i requires 0 <= i < |id| => Kept(t, t.lower(id[i])));
    head, tail := TrimsTheEnds(KeptOf(t, id));
    core := TrimUnderscores(KeptOf(t, id));
  }
}
